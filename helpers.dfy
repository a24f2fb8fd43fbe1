/** The string helpers of backend/utils/helpers.py. Regular expressions that
    go beyond a fixed shape are inputs: a search result stands for what
    `re.search` found. The character classes `\w`, `\s` and `\b` are taken
    over ASCII letters, digits, `_` and the white space of `Strings.IsSpace`. */
module Helpers {
  import opened Wrappers
  import opened Strings
  import Seqs

  predicate IsWordChar(c: char) {
    IsAsciiLetter(c) || IsDigit(c) || c == '_'
  }

  // ---------------------------------------------------------------------
  // sanitize_filename
  // ---------------------------------------------------------------------

  /** `os.path.basename`: what follows the last '/'. */
  function Basename(path: string): (r: string)
    ensures EndsWith(path, r) && '/' !in r
    ensures |r| < |path| ==> path[|path| - |r| - 1] == '/'
  {
    if |path| == 0 || path[|path| - 1] == '/' then ""
    else
      var rest := Basename(path[..|path| - 1]);
      Seqs.SnocTail(path, |rest|);
      rest + [path[|path| - 1]]
  }

  /** The characters `[\w\s.-]` that `re.sub` leaves in place. */
  predicate SafeChar(c: char) {
    IsWordChar(c) || IsSpace(c) || c == '.' || c == '-'
  }

  /** `re.sub(r'[^\w\s.-]', '_', s)`. */
  function CleanName(s: string): (r: string)
    ensures |r| == |s|
    ensures forall i :: 0 <= i < |s| ==> r[i] == if SafeChar(s[i]) then s[i] else '_'
  {
    seq(|s|, i requires 0 <= i < |s| => if SafeChar(s[i]) then s[i] else '_')
  }

  predicate AllDots(s: string) {
    forall i :: 0 <= i < |s| ==> s[i] == '.'
  }

  /** `os.path.splitext` of a name without '/': the extension starts at the
      last '.', unless only dots come before it. */
  function SplitExt(s: string): (r: (string, string))
    ensures r.0 + r.1 == s
    ensures r.1 == [] || (r.1[0] == '.' && '.' !in r.1[1..])
    ensures r.1 != [] ==> !AllDots(r.0)
  {
    var d := RFind(s, ".", 0, |s|);
    if d >= 0 && !AllDots(s[..d]) then
      assert s[d] == s[d..d + 1][0];
      assert forall i :: d + 1 <= i < |s| ==> s[i] != '.' by {
        forall i | d + 1 <= i < |s| ensures s[i] != '.' {
          assert !OccursAt(s, ".", i);
          assert s[i..i + 1] == [s[i]];
        }
      }
      assert s[..d] + s[d..] == s;
      (s[..d], s[d..])
    else (s, "")
  }

  /** `sanitize_filename`; `timestamp` stands for the `%Y%m%d%H%M%S` time. */
  function SanitizeFilename(filename: string, timestamp: string): (r: string)
    ensures var parts := SplitExt(CleanName(Basename(filename)));
      r == parts.0 + "_" + timestamp + parts.1
  {
    var parts := SplitExt(CleanName(Basename(filename)));
    parts.0 + "_" + timestamp + parts.1
  }

  /** The stored name keeps every character of the base name in place, safe
      ones as they are and the rest as '_', and has no '/'. */
  lemma SanitizedShape(filename: string, timestamp: string)
    requires '/' !in timestamp
    ensures var base := Basename(filename);
      var cleaned := CleanName(base);
      var parts := SplitExt(cleaned);
      SanitizeFilename(filename, timestamp) == parts.0 + "_" + timestamp + parts.1 &&
      |cleaned| == |base| && '/' !in SanitizeFilename(filename, timestamp) &&
      EndsWith(SanitizeFilename(filename, timestamp), parts.1)
  {
    var cleaned := CleanName(Basename(filename));
    var parts := SplitExt(cleaned);
    var r := SanitizeFilename(filename, timestamp);
    assert '/' !in cleaned by {
      forall i | 0 <= i < |cleaned| ensures cleaned[i] != '/' {
        assert !SafeChar('/');
      }
    }
    assert '/' !in parts.0 && '/' !in parts.1 by {
      assert parts.0 + parts.1 == cleaned;
      forall i | 0 <= i < |parts.0| ensures parts.0[i] != '/' {
        assert parts.0[i] == cleaned[i];
      }
      forall i | 0 <= i < |parts.1| ensures parts.1[i] != '/' {
        assert parts.1[i] == cleaned[|parts.0| + i];
      }
    }
    assert r == (parts.0 + "_" + timestamp) + parts.1;
    assert r[|r| - |parts.1|..] == parts.1;
  }

  lemma {:induction false} BasenameWithoutSlash(path: string)
    requires '/' !in path
    ensures Basename(path) == path
  {
    if |path| > 0 {
      BasenameWithoutSlash(path[..|path| - 1]);
      assert path[..|path| - 1] + [path[|path| - 1]] == path;
    }
  }

  lemma CleanNameSafe(s: string)
    requires forall i :: 0 <= i < |s| ==> SafeChar(s[i])
    ensures CleanName(s) == s
  {
  }

  /** "test.pdf" is stored as "test_<timestamp>.pdf". */
  lemma SanitizeTestPdf(timestamp: string)
    ensures SanitizeFilename("test.pdf", timestamp) == "test_" + timestamp + ".pdf"
  {
    TestPdfSafe();
    TestPdfSplit();
    SanitizeSafeName("test.pdf", timestamp);
  }

  lemma TestPdfSafe()
    ensures '/' !in "test.pdf" && forall i :: 0 <= i < |"test.pdf"| ==> SafeChar("test.pdf"[i])
  {
  }

  /** A name of safe characters without '/' is only split and stamped. */
  lemma SanitizeSafeName(name: string, timestamp: string)
    requires '/' !in name && forall i :: 0 <= i < |name| ==> SafeChar(name[i])
    ensures SanitizeFilename(name, timestamp) == SplitExt(name).0 + "_" + timestamp + SplitExt(name).1
  {
    BasenameWithoutSlash(name);
    CleanNameSafe(name);
  }

  lemma TestPdfSplit()
    ensures SplitExt("test.pdf") == ("test", ".pdf")
  {
    var s := "test.pdf";
    assert RFind(s, ".", 0, |s|) == 4 by {
      assert s[7..8] == [s[7]] && s[6..7] == [s[6]] && s[5..6] == [s[5]] && s[4..5] == [s[4]];
      assert RFindFrom(s, ".", 0, 8, 4) == 4;
      assert RFindFrom(s, ".", 0, 8, 5) == 4;
      assert RFindFrom(s, ".", 0, 8, 6) == 4;
    }
    assert !AllDots(s[..4]) by { assert s[..4][0] == 't'; }
    assert s[..4] == "test" && s[4..] == ".pdf";
  }

  // ---------------------------------------------------------------------
  // extract_year_from_text
  // ---------------------------------------------------------------------

  /** The year patterns in the order they are tried, searched in the
      lower-cased text. */
  const YearPatterns: seq<string> := [
    "annual\\s+report\\s+(\\d{4})", "fiscal\\s+year\\s+(\\d{4})", "fy\\s+(\\d{4})",
    "year\\s+ended\\s+.*?\\s+(\\d{4})", "december\\s+\\d+,\\s+(\\d{4})",
    "20\\d{2}\\s+annual\\s+report", "annual\\s+report\\s+.*?20\\d{2}"]

  /** The number of capture groups of each year pattern. */
  const YearPatternGroups: seq<nat> := [1, 1, 1, 1, 1, 0, 0]

  /** What `re.search` of one pattern gave: the matched text and, for a
      pattern with a group, the group's text. */
  datatype Search = NoMatch | Match(text: string, group1: string)

  /** The first pattern (from `k` on) that matches. */
  function FirstMatch(search: nat -> Search, k: nat): (r: Option<nat>)
    ensures r.Some? ==> k <= r.value < |YearPatterns| && search(r.value).Match?
    ensures r.Some? ==> forall j :: k <= j < r.value ==> search(j).NoMatch?
    ensures r.None? ==> forall j :: k <= j < |YearPatterns| ==> search(j).NoMatch?
    decreases |YearPatterns| - k
  {
    if k >= |YearPatterns| then None
    else if search(k).Match? then Some(k)
    else FirstMatch(search, k + 1)
  }

  /** `\b(20[0-2]\d)\b` matches at `i`. */
  predicate YearAt(text: string, i: int) {
    0 <= i && i + 4 <= |text| && text[i] == '2' && text[i + 1] == '0' && '0' <= text[i + 2] <= '2' &&
    IsDigit(text[i + 3]) && (i == 0 || !IsWordChar(text[i - 1])) && (i + 4 == |text| || !IsWordChar(text[i + 4]))
  }

  /** `re.findall(r'\b(20[0-2]\d)\b', text[i:])` as text positions go. Two
      matches never overlap, since a match needs a non-word character before it. */
  function YearsFrom(text: string, i: nat): (r: seq<string>)
    ensures forall k :: 0 <= k < |r| ==> IsYearString(r[k])
    decreases |text| - i
  {
    if i + 4 > |text| then []
    else
      (if YearAt(text, i) then
         assert IsYearString(text[i..i + 4]) by {
           var y := text[i..i + 4];
           assert y[0] == text[i] && y[1] == text[i + 1] && y[2] == text[i + 2] && y[3] == text[i + 3];
         }
         [text[i..i + 4]]
       else []) + YearsFrom(text, i + 1)
  }

  /** Every collected year is a match in the text. */
  lemma {:induction false} YearsFromSound(text: string, i: nat, k: nat)
    requires k < |YearsFrom(text, i)|
    ensures exists j :: i <= j <= |text| - 4 && YearAt(text, j) && YearsFrom(text, i)[k] == text[j..j + 4]
    decreases |text| - i
  {
    if YearAt(text, i) && k == 0 {
      assert YearsFrom(text, i)[0] == text[i..i + 4];
    } else {
      var skip := if YearAt(text, i) then 1 else 0;
      assert YearsFrom(text, i)[k] == YearsFrom(text, i + 1)[k - skip];
      YearsFromSound(text, i + 1, k - skip);
    }
  }

  /** Every match in the text is collected. */
  lemma {:induction false} YearsFromComplete(text: string, i: nat, j: nat)
    requires i <= j <= |text| - 4 && YearAt(text, j)
    ensures text[j..j + 4] in YearsFrom(text, i)
    decreases j - i
  {
    if j > i {
      YearsFromComplete(text, i + 1, j);
    }
  }

  /** Python's `<` on strings. */
  predicate LexLess(a: string, b: string) {
    if |a| == 0 then |b| > 0
    else if |b| == 0 then false
    else a[0] < b[0] || (a[0] == b[0] && LexLess(a[1..], b[1..]))
  }

  /** Python's `max` of a non-empty list of strings. */
  function MaxString(ys: seq<string>): (r: string)
    requires |ys| > 0
    ensures r in ys
  {
    if |ys| == 1 then ys[0]
    else
      var m := MaxString(ys[..|ys| - 1]);
      if LexLess(m, ys[|ys| - 1]) then ys[|ys| - 1] else m
  }

  /** `extract_year_from_text` as written: the first matching pattern's
      `group(1)`, which raises `IndexError` for the two patterns without a
      group; then the latest year-looking number; then `None`. */
  function ExtractYearFromText(text: string, search: nat -> Search): (r: Result<Option<string>, string>)
    ensures r.Err? <==> FirstMatch(search, 0).Some? && YearPatternGroups[FirstMatch(search, 0).value] == 0
    ensures FirstMatch(search, 0).Some? && YearPatternGroups[FirstMatch(search, 0).value] == 1 ==>
      r == Ok(Some(search(FirstMatch(search, 0).value).group1))
    ensures FirstMatch(search, 0).None? ==>
      r == Ok(if YearsFrom(text, 0) == [] then None else Some(MaxString(YearsFrom(text, 0))))
  {
    match FirstMatch(search, 0)
    case Some(k) =>
      if YearPatternGroups[k] == 0 then Err("IndexError: no such group") else Ok(Some(search(k).group1))
    case None =>
      var years := YearsFrom(text, 0);
      if years == [] then Ok(None) else Ok(Some(MaxString(years)))
  }

  /** "2023 annual report" is matched first by the pattern without a group,
      and the call raises instead of answering "2023". */
  lemma YearWithoutGroupRaises()
    ensures ExtractYearFromText("2023 annual report",
                                k => if k == 5 then Match("2023 annual report", "") else NoMatch).Err?
  {
    var search: nat -> Search := k => if k == 5 then Match("2023 annual report", "") else NoMatch;
    assert FirstMatch(search, 5) == Some(5);
    assert FirstMatch(search, 4) == Some(5);
    assert FirstMatch(search, 3) == Some(5);
    assert FirstMatch(search, 2) == Some(5);
    assert FirstMatch(search, 1) == Some(5);
    assert FirstMatch(search, 0) == Some(5);
  }

  /** A match of one of the patterns, as its shape guarantees: a group of four
      digits, or for the group-less patterns a matched text that starts
      (pattern 5) or ends (pattern 6) with a year. */
  predicate WellFormedMatch(search: nat -> Search, k: nat)
    requires k < |YearPatterns|
  {
    search(k).Match? ==>
      (YearPatternGroups[k] == 1 ==> |search(k).group1| == 4) &&
      (k == 5 ==> |search(k).text| >= 4 && search(k).text[..2] == "20") &&
      (k == 6 ==> |search(k).text| >= 4 && search(k).text[|search(k).text| - 4..][..2] == "20")
  }

  /** The year a match stands for: the group, or the year at the start or at
      the end of the matched text for the group-less patterns. */
  function MatchedYear(search: nat -> Search, k: nat): string
    requires k < |YearPatterns| && search(k).Match?
  {
    var m := search(k);
    if YearPatternGroups[k] == 1 then m.group1
    else if k == 5 then (if |m.text| >= 4 then m.text[..4] else m.text)
    else if |m.text| >= 4 then m.text[|m.text| - 4..] else m.text
  }

  /** `extract_year_from_text` with the group-less patterns reading the year
      from the matched text. */
  function ExtractYearCorrected(text: string, search: nat -> Search): (r: Result<Option<string>, string>)
    ensures r.Ok?
  {
    match FirstMatch(search, 0)
    case Some(k) => Ok(Some(MatchedYear(search, k)))
    case None =>
      var years := YearsFrom(text, 0);
      if years == [] then Ok(None) else Ok(Some(MaxString(years)))
  }

  /** The corrected search never raises, agrees with the original wherever the
      original answers, and reads a four-character year from any well-formed
      match. */
  lemma ExtractYearCorrectedSpec(text: string, search: nat -> Search)
    requires forall k :: 0 <= k < |YearPatterns| ==> WellFormedMatch(search, k)
    ensures ExtractYearCorrected(text, search).Ok?
    ensures ExtractYearFromText(text, search).Ok? ==> ExtractYearCorrected(text, search) == ExtractYearFromText(text, search)
    ensures FirstMatch(search, 0).Some? ==> |ExtractYearCorrected(text, search).value.value| == 4
    ensures FirstMatch(search, 0).Some? && YearPatternGroups[FirstMatch(search, 0).value] == 0 ==>
      ExtractYearCorrected(text, search).value.value[..2] == "20"
  {
    match FirstMatch(search, 0)
    case Some(k) =>
      assert WellFormedMatch(search, k);
    case None =>
  }

  function DigitValue(c: char): nat
    requires IsDigit(c)
  {
    c as int - '0' as int
  }

  predicate IsYearString(y: string) {
    |y| == 4 && forall i :: 0 <= i < |y| ==> IsDigit(y[i])
  }

  /** The number a four-digit string spells. */
  function YearNum(y: string): nat
    requires IsYearString(y)
  {
    DigitsValue(y)
  }

  /** The value of a four-digit string, digit by digit. */
  lemma YearValue(y: string)
    requires IsYearString(y)
    ensures DigitsValue(y) == 1000 * DigitValue(y[0]) + 100 * DigitValue(y[1]) + 10 * DigitValue(y[2]) + DigitValue(y[3])
  {
    var y1, y2, y3 := y[..1], y[..2], y[..3];
    assert y3 == y[..3] && y[..4] == y;
    assert y1[..0] == [] && y2[..1] == y1 && y3[..2] == y2 && y[..3] == y3;
    assert DigitsValue(y1) == DigitValue(y[0]);
    assert DigitsValue(y2) == DigitsValue(y1) * 10 + DigitValue(y[1]);
    assert DigitsValue(y3) == DigitsValue(y2) * 10 + DigitValue(y[2]);
    assert DigitsValue(y) == DigitsValue(y3) * 10 + DigitValue(y[3]);
  }

  /** On four-digit strings the string order is the numeric order. */
  lemma {:induction false} YearOrder(a: string, b: string)
    requires IsYearString(a) && IsYearString(b)
    ensures LexLess(a, b) <==> YearNum(a) < YearNum(b)
  {
    YearValue(a);
    YearValue(b);
    assert a[1..][1..] == a[2..] && b[1..][1..] == b[2..];
    assert a[2..][1..] == a[3..] && b[2..][1..] == b[3..];
    assert a[3..][1..] == [] && b[3..][1..] == [];
    assert LexLess(a, b) == (a[0] < b[0] || (a[0] == b[0] && LexLess(a[1..], b[1..])));
    assert LexLess(a[1..], b[1..]) == (a[1] < b[1] || (a[1] == b[1] && LexLess(a[2..], b[2..])));
    assert LexLess(a[2..], b[2..]) == (a[2] < b[2] || (a[2] == b[2] && LexLess(a[3..], b[3..])));
    assert LexLess(a[3..], b[3..]) == (a[3] < b[3]);
  }

  /** The fallback answer is the numerically latest of the years found. */
  lemma {:induction false} MaxStringIsLatest(ys: seq<string>)
    requires |ys| > 0 && forall i :: 0 <= i < |ys| ==> IsYearString(ys[i])
    ensures IsYearString(MaxString(ys))
    ensures forall i :: 0 <= i < |ys| ==> YearNum(ys[i]) <= YearNum(MaxString(ys))
  {
    if |ys| > 1 {
      var prefix := ys[..|ys| - 1];
      MaxStringIsLatest(prefix);
      var m := MaxString(prefix);
      var last := ys[|ys| - 1];
      YearOrder(m, last);
      forall i | 0 <= i < |ys| ensures YearNum(ys[i]) <= YearNum(MaxString(ys)) {
        if i < |ys| - 1 {
          assert ys[i] == prefix[i];
        }
      }
    }
  }

  /** Nothing is collected exactly when the text has no match. */
  lemma {:induction false} YearsFromEmpty(text: string, i: nat)
    ensures YearsFrom(text, i) == [] <==> forall j :: i <= j <= |text| - 4 ==> !YearAt(text, j)
    decreases |text| - i
  {
    if i + 4 <= |text| {
      YearsFromEmpty(text, i + 1);
      YearsFromUnfold(text, i);
    }
  }

  lemma YearsFromUnfold(text: string, i: nat)
    requires i + 4 <= |text|
    ensures YearsFrom(text, i) == [] <==> !YearAt(text, i) && YearsFrom(text, i + 1) == []
  {
  }

  /** Without a pattern match the answer is the latest year found in the text,
      or `None` when there is none. */
  lemma FallbackYear(text: string, search: nat -> Search)
    requires FirstMatch(search, 0).None?
    ensures ExtractYearFromText(text, search).Ok?
    ensures var r := ExtractYearFromText(text, search).value;
      r.None? <==> forall j :: 0 <= j <= |text| - 4 ==> !YearAt(text, j)
    ensures var r := ExtractYearFromText(text, search).value;
      r.Some? ==> IsYearString(r.value) && exists j :: 0 <= j <= |text| - 4 && YearAt(text, j) && r.value == text[j..j + 4]
    ensures var r := ExtractYearFromText(text, search).value;
      r.Some? ==> (IsYearString(r.value) &&
                   forall j :: 0 <= j <= |text| - 4 && YearAt(text, j) ==>
                     IsYearString(text[j..j + 4]) && YearNum(text[j..j + 4]) <= YearNum(r.value))
  {
    var ys := YearsFrom(text, 0);
    YearsFromEmpty(text, 0);
    if ys != [] {
      MaxStringIsLatest(ys);
      var m := MaxString(ys);
      var k :| 0 <= k < |ys| && ys[k] == m;
      YearsFromSound(text, 0, k);
      forall j | 0 <= j <= |text| - 4 && YearAt(text, j)
        ensures IsYearString(text[j..j + 4]) && YearNum(text[j..j + 4]) <= YearNum(m)
      {
        YearsFromComplete(text, 0, j);
        var i :| 0 <= i < |ys| && ys[i] == text[j..j + 4];
      }
    }
  }

  // ---------------------------------------------------------------------
  // extract_company_info
  // ---------------------------------------------------------------------

  predicate IsUpper(c: char) {
    'A' <= c <= 'Z'
  }

  /** The length of the run of capitals at `i`. */
  function UpperRun(text: string, i: nat): (n: nat)
    requires i <= |text|
    ensures i + n <= |text|
    ensures forall j :: i <= j < i + n ==> IsUpper(text[j])
    ensures i + n == |text| || !IsUpper(text[i + n])
    decreases |text| - i
  {
    if i < |text| && IsUpper(text[i]) then 1 + UpperRun(text, i + 1) else 0
  }

  /** `\(([A-Z]{1,5})\)` matches at `i`: a '(', one to five capitals, ')'. */
  predicate TickerAt(text: string, i: nat) {
    i < |text| && text[i] == '(' && 1 <= UpperRun(text, i + 1) <= 5 && i + 1 + UpperRun(text, i + 1) < |text| &&
    text[i + 1 + UpperRun(text, i + 1)] == ')'
  }

  /** The leftmost ticker from `i` on. */
  function TickerFrom(text: string, i: nat): (r: Option<string>)
    requires i <= |text|
    decreases |text| - i
  {
    if i == |text| then None
    else if TickerAt(text, i) then Some(text[i + 1..i + 1 + UpperRun(text, i + 1)])
    else TickerFrom(text, i + 1)
  }

  /** No ticker is found exactly when no position holds one. */
  lemma {:induction false} TickerFromNone(text: string, i: nat)
    requires i <= |text|
    ensures TickerFrom(text, i).None? <==> forall j :: i <= j < |text| ==> !TickerAt(text, j)
    decreases |text| - i
  {
    if i < |text| && !TickerAt(text, i) {
      TickerFromNone(text, i + 1);
    }
  }

  /** A ticker found is the one at the leftmost position holding one. */
  lemma {:induction false} TickerFromLeftmost(text: string, i: nat)
    requires i <= |text| && TickerFrom(text, i).Some?
    ensures exists j :: (i <= j < |text| && TickerAt(text, j) && (forall k :: i <= k < j ==> !TickerAt(text, k)) &&
      TickerFrom(text, i).value == text[j + 1..j + 1 + UpperRun(text, j + 1)])
    decreases |text| - i
  {
    if !TickerAt(text, i) {
      TickerFromLeftmost(text, i + 1);
    }
  }

  datatype CompanyInfo = CompanyInfo(name: Option<string>, ticker: Option<string>, sector: Option<string>)

  /** `extract_company_info`; `nameMatch` is the text of the first name
      pattern that matched, if any. The sector is never filled in. */
  function ExtractCompanyInfo(text: string, nameMatch: Option<string>): (r: CompanyInfo)
    ensures r.sector.None?
    ensures r.name.Some? <==> nameMatch.Some?
    ensures r.name.Some? ==> r.name.value == Strip(nameMatch.value)
    ensures r.ticker.Some? ==> 1 <= |r.ticker.value| <= 5 && Contains(text, "(" + r.ticker.value + ")")
    ensures r.ticker.Some? ==> forall c :: 0 <= c < |r.ticker.value| ==> IsUpper(r.ticker.value[c])
    ensures r.ticker.None? <==> forall j :: 0 <= j < |text| ==> !TickerAt(text, j)
  {
    TickerFound(text);
    TickerFromNone(text, 0);
    CompanyInfo(if nameMatch.Some? then Some(Strip(nameMatch.value)) else None, TickerFrom(text, 0), None)
  }

  lemma TickerFound(text: string)
    ensures var t := TickerFrom(text, 0);
      t.Some? ==> (1 <= |t.value| <= 5 && Contains(text, "(" + t.value + ")") &&
                   (forall c :: 0 <= c < |t.value| ==> IsUpper(t.value[c])))
  {
    TickerFromFound(text, 0);
  }

  lemma {:induction false} TickerFromFound(text: string, i: nat)
    requires i <= |text|
    ensures var t := TickerFrom(text, i);
      t.Some? ==> (1 <= |t.value| <= 5 && Contains(text, "(" + t.value + ")") &&
                   (forall c :: 0 <= c < |t.value| ==> IsUpper(t.value[c])))
    decreases |text| - i
  {
    if i < |text| {
      if TickerAt(text, i) {
        TickerAtOccurs(text, i);
      } else {
        TickerFromFound(text, i + 1);
      }
    }
  }

  /** A ticker match at `j` is its capitals between brackets. */
  lemma TickerAtOccurs(text: string, j: nat)
    requires TickerAt(text, j)
    ensures var v := text[j + 1..j + 1 + UpperRun(text, j + 1)];
      1 <= |v| <= 5 && OccursAt(text, "(" + v + ")", j) && forall c :: 0 <= c < |v| ==> IsUpper(v[c])
  {
    var e := j + 1 + UpperRun(text, j + 1);
    var v := text[j + 1..e];
    assert text[j..e + 1] == [text[j]] + v + [text[e]];
  }

  /** "Apple (AAPL)" yields the ticker "AAPL". */
  lemma TickerExample()
    ensures TickerFrom("Apple (AAPL)", 0) == Some("AAPL")
  {
    var t := "Apple (AAPL)";
    assert UpperRun(t, 11) == 0;
    assert UpperRun(t, 10) == 1;
    assert UpperRun(t, 9) == 2;
    assert UpperRun(t, 8) == 3;
    assert UpperRun(t, 7) == 4;
    assert TickerAt(t, 6);
    assert t[7..11] == "AAPL";
    assert TickerFrom(t, 6) == Some("AAPL");
    assert TickerFrom(t, 5) == TickerFrom(t, 6);
    assert TickerFrom(t, 4) == TickerFrom(t, 5);
    assert TickerFrom(t, 3) == TickerFrom(t, 4);
    assert TickerFrom(t, 2) == TickerFrom(t, 3);
    assert TickerFrom(t, 1) == TickerFrom(t, 2);
    assert TickerFrom(t, 0) == TickerFrom(t, 1);
  }

  // ---------------------------------------------------------------------
  // format_financial_value
  // ---------------------------------------------------------------------

  /** `re.sub(r'[^\d.-]', '', value)`: only digits, '.' and '-' stay. */
  function CleanNumber(value: string): (r: string)
    ensures |r| <= |value|
    ensures forall i :: 0 <= i < |r| ==> IsDigit(r[i]) || r[i] == '.' || r[i] == '-'
  {
    if |value| == 0 then ""
    else
      var c := value[|value| - 1];
      CleanNumber(value[..|value| - 1]) + (if IsDigit(c) || c == '.' || c == '-' then [c] else [])
  }

  /** A string with only digits, '.' and '-' is left as it is. */
  lemma {:induction false} CleanNumberKeepsNumbers(value: string)
    requires forall i :: 0 <= i < |value| ==> IsDigit(value[i]) || value[i] == '.' || value[i] == '-'
    ensures CleanNumber(value) == value
  {
    if |value| > 0 {
      CleanNumberKeepsNumbers(value[..|value| - 1]);
      assert value[..|value| - 1] + [value[|value| - 1]] == value;
    }
  }

  function Abs(x: real): real {
    if x < 0.0 then -x else x
  }

  datatype Scale = Billions | Millions | Thousands | Units

  /** The suffix chosen for a magnitude. */
  function ScaleOf(v: real): (s: Scale)
    ensures s == Billions <==> Abs(v) >= 1000000000.0
    ensures s == Millions <==> 1000000.0 <= Abs(v) < 1000000000.0
    ensures s == Thousands <==> 1000.0 <= Abs(v) < 1000000.0
    ensures s == Units <==> Abs(v) < 1000.0
  {
    if Abs(v) >= 1000000000.0 then Billions
    else if Abs(v) >= 1000000.0 then Millions
    else if Abs(v) >= 1000.0 then Thousands
    else Units
  }

  /** `format_financial_value`. `parseFloat` stands for `float()` (None when it
      raises) and `fixed2` for the `:.2f` rendering. */
  function FormatFinancialValue(value: string, parseFloat: string -> Option<real>, fixed2: real -> string): (r: string)
    ensures parseFloat(CleanNumber(value)).None? ==> r == value
    ensures parseFloat(CleanNumber(value)).Some? ==>
      var v := parseFloat(CleanNumber(value)).value;
      r == match ScaleOf(v)
           case Billions => "$" + fixed2(v / 1000000000.0) + "B"
           case Millions => "$" + fixed2(v / 1000000.0) + "M"
           case Thousands => "$" + fixed2(v / 1000.0) + "K"
           case Units => "$" + fixed2(v)
  {
    match parseFloat(CleanNumber(value))
    case None => value
    case Some(v) =>
      if Abs(v) >= 1000000000.0 then "$" + fixed2(v / 1000000000.0) + "B"
      else if Abs(v) >= 1000000.0 then "$" + fixed2(v / 1000000.0) + "M"
      else if Abs(v) >= 1000.0 then "$" + fixed2(v / 1000.0) + "K"
      else "$" + fixed2(v)
  }

  /** The shown figure is the value shrunk by its scale: below 1000 in size
      for the K and M buckets, and at least 1 for every scaled bucket. */
  lemma ScaledFigure(v: real)
    ensures ScaleOf(v) == Millions ==> 1.0 <= Abs(v / 1000000.0) < 1000.0
    ensures ScaleOf(v) == Thousands ==> 1.0 <= Abs(v / 1000.0) < 1000.0
    ensures ScaleOf(v) == Billions ==> Abs(v / 1000000000.0) >= 1.0
  {
    if v < 0.0 {
      assert v / 1000000.0 < 0.0 && v / 1000.0 < 0.0 && v / 1000000000.0 < 0.0;
    }
  }
}
