/**
 * Per-user data file names: `get_safe_filename(username, file_type)` keeps only the
 * ASCII letters and digits of the user name and joins `<file_type>_<clean>.json`
 * onto the data directory.
 */
module Filenames {
  import opened Wrappers

  /** The characters the pattern `[a-zA-Z0-9]` matches. */
  predicate IsAsciiAlnum(c: char) {
    'a' <= c <= 'z' || 'A' <= c <= 'Z' || '0' <= c <= '9'
  }

  predicate IsClean(s: string) {
    forall i :: 0 <= i < |s| ==> IsAsciiAlnum(s[i])
  }

  /** The name with every character other than an ASCII letter or digit deleted: the letters and digits of `s`, in order. */
  function CleanName(s: string): (r: string)
    ensures IsClean(r)
    ensures |r| <= |s|
  {
    if s == [] then [] else (if IsAsciiAlnum(s[0]) then [s[0]] else []) + CleanName(s[1..])
  }

  /** `os.path.join(dir, name)` on POSIX paths. */
  function JoinPath(dir: string, name: string): string {
    if |name| > 0 && name[0] == '/' then name
    else if dir == [] || dir[|dir| - 1] == '/' then dir + name
    else dir + "/" + name
  }

  function FileBase(fileType: string, username: string): string {
    fileType + "_" + CleanName(username) + ".json"
  }

  /** `get_safe_filename`: no file for an empty user name. */
  function SafeFilename(dataDir: string, username: string, fileType: string): (r: Option<string>)
    ensures r.None? <==> username == ""
  {
    if username == "" then None else Some(JoinPath(dataDir, FileBase(fileType, username)))
  }

  lemma {:induction false} CleanNameAppend(a: string, b: string)
    ensures CleanName(a + b) == CleanName(a) + CleanName(b)
  {
    if a == [] {
      assert a + b == b;
    } else {
      var head := if IsAsciiAlnum(a[0]) then [a[0]] else [];
      assert (a + b)[0] == a[0] && (a + b)[1..] == a[1..] + b;
      assert CleanName(a + b) == head + CleanName(a[1..] + b);
      CleanNameAppend(a[1..], b);
      assert head + (CleanName(a[1..]) + CleanName(b)) == (head + CleanName(a[1..])) + CleanName(b);
    }
  }

  /** A name is left as it is exactly when it is already made of letters and digits. */
  lemma {:induction false} CleanNameFixedIff(s: string)
    ensures CleanName(s) == s <==> IsClean(s)
  {
    if s != [] {
      CleanNameFixedIff(s[1..]);
      if !IsAsciiAlnum(s[0]) {
        assert |CleanName(s)| <= |s[1..]| < |s|;
      }
    }
  }

  /** Cleaning is idempotent. */
  lemma CleanNameIdempotent(s: string)
    ensures CleanName(CleanName(s)) == CleanName(s)
  {
    CleanNameFixedIff(CleanName(s));
  }

  /** Dropping a character that is not a letter or digit does not change the cleaned name. */
  lemma CleanNameIgnores(a: string, c: char, b: string)
    requires !IsAsciiAlnum(c)
    ensures CleanName(a + [c] + b) == CleanName(a + b)
  {
    CleanNameAppend(a + [c], b);
    CleanNameAppend(a, [c]);
    CleanNameAppend(a, b);
    assert CleanName([c]) == [];
  }

  lemma JoinPathInjective(dir: string, x: string, y: string)
    requires |x| > 0 && x[0] != '/' && |y| > 0 && y[0] != '/'
    ensures JoinPath(dir, x) == JoinPath(dir, y) <==> x == y
  {
    var p := if dir == [] || dir[|dir| - 1] == '/' then dir else dir + "/";
    assert JoinPath(dir, x) == p + x;
    assert JoinPath(dir, y) == p + y;
    if p + x == p + y {
      assert x == (p + x)[|p|..];
    }
  }

  /**
   * Two non-empty user names share a data file exactly when their cleaned names agree,
   * for every file type that does not start with `/`.
   */
  lemma SameFileIffSameClean(dataDir: string, u1: string, u2: string, fileType: string)
    requires u1 != "" && u2 != ""
    requires fileType == "" || fileType[0] != '/'
    ensures SafeFilename(dataDir, u1, fileType) == SafeFilename(dataDir, u2, fileType)
        <==> CleanName(u1) == CleanName(u2)
  {
    var x, y := FileBase(fileType, u1), FileBase(fileType, u2);
    assert x[0] != '/' && y[0] != '/' by {
      if fileType == "" { assert x[0] == '_' && y[0] == '_'; }
      else { assert x[0] == fileType[0] && y[0] == fileType[0]; }
    }
    JoinPathInjective(dataDir, x, y);
    if x == y {
      var n := |fileType| + 1;
      var c1, c2 := CleanName(u1), CleanName(u2);
      assert |c1| == |x| - n - 5 == |c2|;
      assert c1 == x[n..n + |c1|];
      assert c2 == y[n..n + |c2|];
    }
  }

  /** User names that differ only in other characters map to the same file. */
  lemma PunctuationCollides(dataDir: string, fileType: string)
    ensures SafeFilename(dataDir, "a.b", fileType) == SafeFilename(dataDir, "ab", fileType)
  {
    CleanNameIgnores("a", '.', "b");
    assert "a" + ['.'] + "b" == "a.b";
    assert "a" + "b" == "ab";
  }

  /** The two files routes.py keeps per user never coincide. */
  lemma HoldingsAndHistoryDiffer(dataDir: string, username: string)
    requires username != ""
    ensures SafeFilename(dataDir, username, "holdings") != SafeFilename(dataDir, username, "history")
  {
    var x, y := FileBase("holdings", username), FileBase("history", username);
    JoinPathInjective(dataDir, x, y);
    assert x[2] == 'l' && y[2] == 's';
  }
}
