/** The `DATABASE_URL` normalisation of backend/models/database_session.py:
    the default SQLite URL, the environment override, and the final slash
    adjustment for absolute paths. Paths are POSIX paths; the environment
    value and the working directory are inputs. */
module DatabaseSession {
  import opened Wrappers
  import opened Strings

  const SqlitePrefix: string := "sqlite:///"

  /** `os.path.isabs` on POSIX. */
  predicate IsAbs(p: string) {
    |p| > 0 && p[0] == '/'
  }

  /** `os.path.abspath` of a path, joined to the working directory when
      relative (without the `normpath` clean-up). */
  function AbsPath(cwd: string, p: string): (r: string)
    ensures IsAbs(p) ==> r == p
    ensures IsAbs(cwd) ==> IsAbs(r)
  {
    if IsAbs(p) then p
    else if EndsWith(cwd, "/") then cwd + p
    else cwd + "/" + p
  }

  /** The URL after the environment value has been looked at. */
  function EnvAdjusted(env: Option<string>, dbPath: string, cwd: string): string {
    var default := SqlitePrefix + dbPath;
    if env.None? || env.value == "" then default
    else
      var e := env.value;
      if StartsWith(e, SqlitePrefix) && !StartsWith(e, "sqlite:////") then
        var relative := RemoveAll(e, SqlitePrefix);
        if !IsAbs(relative) then SqlitePrefix + AbsPath(cwd, relative) else default
      else e
  }

  /** The last step as written: a SQLite URL whose path is absolute gets
      "sqlite:////" in front of that path, which already starts with '/'. */
  function FinalStep(url: string): string {
    var path := RemoveAll(url, SqlitePrefix);
    if StartsWith(url, SqlitePrefix) && IsAbs(path) then "sqlite:////" + path else url
  }

  /** `DATABASE_URL` as the module computes it. */
  function DatabaseUrl(env: Option<string>, dbPath: string, cwd: string): string {
    FinalStep(EnvAdjusted(env, dbPath, cwd))
  }

  /** The module-level assignments, one `if` block after the other. */
  method ResolveDatabaseUrl(env: Option<string>, dbPath: string, cwd: string) returns (url: string)
    ensures url == DatabaseUrl(env, dbPath, cwd)
  {
    url := SqlitePrefix + dbPath;
    if env.Some? && env.value != "" {
      var e := env.value;
      if StartsWith(e, SqlitePrefix) && !StartsWith(e, "sqlite:////") {
        var relative := RemoveAll(e, SqlitePrefix);
        if !IsAbs(relative) {
          url := SqlitePrefix + AbsPath(cwd, relative);
        }
      } else {
        url := e;
      }
    }
    if StartsWith(url, SqlitePrefix) && IsAbs(RemoveAll(url, SqlitePrefix)) {
      var absPath := RemoveAll(url, SqlitePrefix);
      url := "sqlite:////" + absPath;
    }
  }

  // ---------------------------------------------------------------------
  // Removing the prefix
  // ---------------------------------------------------------------------

  /** A string without a character of the pattern holds no occurrence of it. */
  lemma {:induction false} RemoveAllWithout(s: string, pat: string, c: char)
    requires |pat| > 0 && c in pat && c !in s
    ensures RemoveAll(s, pat) == s
    decreases |s|
  {
    if |s| >= |pat| {
      assert s[..|pat|] != pat by {
        var k :| 0 <= k < |pat| && pat[k] == c;
        assert s[..|pat|][k] == s[k] != c;
      }
      RemoveAllWithout(s[1..], pat, c);
      assert [s[0]] + s[1..] == s;
    }
  }

  /** For a path without ':', removing "sqlite:///" from the URL gives back the path. */
  lemma PrefixRemoved(path: string)
    requires ':' !in path
    ensures RemoveAll(SqlitePrefix + path, SqlitePrefix) == path
    ensures StartsWith(SqlitePrefix + path, SqlitePrefix)
  {
    var u := SqlitePrefix + path;
    assert u[..|SqlitePrefix|] == SqlitePrefix;
    assert u[|SqlitePrefix|..] == path;
    assert SqlitePrefix[6] == ':';
    RemoveAllWithout(path, SqlitePrefix, ':');
  }

  // ---------------------------------------------------------------------
  // The cases of the normalisation
  // ---------------------------------------------------------------------

  /** Without the variable the URL starts as "sqlite:///" followed by the path. */
  lemma DefaultUrl(dbPath: string, cwd: string)
    ensures EnvAdjusted(None, dbPath, cwd) == SqlitePrefix + dbPath
    ensures EnvAdjusted(Some(""), dbPath, cwd) == SqlitePrefix + dbPath
  {
  }

  /** A value that is not a three-slash SQLite URL, or is a four-slash one, is
      taken as it is. */
  lemma VerbatimEnvUrl(e: string, dbPath: string, cwd: string)
    requires e != ""
    requires !StartsWith(e, SqlitePrefix) || StartsWith(e, "sqlite:////")
    ensures EnvAdjusted(Some(e), dbPath, cwd) == e
  {
  }

  /** A relative "sqlite:///rel" is made absolute against the working directory. */
  lemma RelativeEnvUrl(rel: string, dbPath: string, cwd: string)
    requires rel != "" && rel[0] != '/' && ':' !in rel
    ensures EnvAdjusted(Some(SqlitePrefix + rel), dbPath, cwd) == SqlitePrefix + AbsPath(cwd, rel)
  {
    PrefixRemoved(rel);
    var e := SqlitePrefix + rel;
    assert !StartsWith(e, "sqlite:////") by {
      assert e[10] == rel[0];
    }
  }

  /** The last step leaves anything that is not a SQLite URL alone. */
  lemma NonSqliteUntouched(url: string)
    requires !StartsWith(url, SqlitePrefix)
    ensures FinalStep(url) == url
  {
  }

  /** The last step adds exactly one slash to a SQLite URL of an absolute path. */
  lemma FinalStepAddsOneSlash(path: string)
    requires IsAbs(path) && ':' !in path
    ensures FinalStep(SqlitePrefix + path) == "sqlite:////" + path
    ensures |FinalStep(SqlitePrefix + path)| == |SqlitePrefix + path| + 1
  {
    PrefixRemoved(path);
  }

  const DbFilename: string := "annual_reports.db"

  /** `os.path.join(ROOT_DIR, "annual_reports.db")`, the default database file
      in the project root; `ROOT_DIR` is an absolute path. */
  function DefaultDbPath(rootDir: string): (r: string)
    ensures IsAbs(rootDir) ==> IsAbs(r)
    ensures rootDir != "" ==> EndsWith(r, "/" + DbFilename)
  {
    if rootDir == "" || EndsWith(rootDir, "/") then rootDir + DbFilename else rootDir + "/" + DbFilename
  }

  lemma DefaultDbPathNoColon(rootDir: string)
    requires ':' !in rootDir
    ensures ':' !in DefaultDbPath(rootDir)
  {
    assert ':' !in DbFilename by {
      assert forall i :: 0 <= i < |DbFilename| ==> DbFilename[i] != ':';
    }
  }

  /** As written, the default URL has five slashes where line 67 promises
      four: "sqlite:////" followed by the absolute default path. */
  lemma FiveSlashDefault(rootDir: string, cwd: string)
    requires IsAbs(rootDir) && ':' !in rootDir
    ensures var url := DatabaseUrl(None, DefaultDbPath(rootDir), cwd);
      url == "sqlite:////" + DefaultDbPath(rootDir) && url[..12] == "sqlite://///"
  {
    var path := DefaultDbPath(rootDir);
    DefaultDbPathNoColon(rootDir);
    FinalStepAddsOneSlash(path);
    var url := "sqlite:////" + path;
    assert url[11] == path[0] == '/';
  }

  /** The path SQLAlchemy opens for a "sqlite:///" URL: what follows that prefix. */
  function SqlitePath(url: string): (r: Option<string>)
    ensures r.Some? <==> StartsWith(url, SqlitePrefix)
    ensures r.Some? ==> SqlitePrefix + r.value == url
  {
    if StartsWith(url, SqlitePrefix) then
      assert url == url[..10] + url[10..];
      Some(url[|SqlitePrefix|..])
    else None
  }

  /** As written, the database opened for an absolute path is `"/" + path`
      rather than the path. */
  lemma WrittenPathHasExtraSlash(dbPath: string, cwd: string)
    requires IsAbs(dbPath) && ':' !in dbPath
    ensures SqlitePath(DatabaseUrl(None, dbPath, cwd)) == Some("/" + dbPath)
  {
    FinalStepAddsOneSlash(dbPath);
    assert "sqlite:////" + dbPath == SqlitePrefix + ("/" + dbPath);
  }

  /** The last step as intended: four slashes in all, the URL's own three
      followed by the absolute path's leading one. */
  function FinalStepCorrected(url: string): string {
    var path := RemoveAll(url, SqlitePrefix);
    if StartsWith(url, SqlitePrefix) && IsAbs(path) then SqlitePrefix + path else url
  }

  function DatabaseUrlCorrected(env: Option<string>, dbPath: string, cwd: string): string {
    FinalStepCorrected(EnvAdjusted(env, dbPath, cwd))
  }

  /** With the intended last step, the database opened is the absolute path
      itself: the default one, or the working-directory one of a relative
      environment URL. */
  lemma CorrectedUrlOpensPath(dbPath: string, rel: string, cwd: string)
    requires IsAbs(dbPath) && ':' !in dbPath
    requires rel != "" && rel[0] != '/' && ':' !in rel && IsAbs(cwd) && ':' !in cwd
    ensures SqlitePath(DatabaseUrlCorrected(None, dbPath, cwd)) == Some(dbPath)
    ensures SqlitePath(DatabaseUrlCorrected(Some(SqlitePrefix + rel), dbPath, cwd)) == Some(AbsPath(cwd, rel))
  {
    PrefixRemoved(dbPath);
    RelativeEnvUrl(rel, dbPath, cwd);
    var abs := AbsPath(cwd, rel);
    assert ':' !in abs by {
      if !EndsWith(cwd, "/") {
        assert abs == cwd + ("/" + rel);
      }
    }
    PrefixRemoved(abs);
  }
}
