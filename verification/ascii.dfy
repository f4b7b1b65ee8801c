/** The ASCII part of the string and path helpers the bot relies on:
    `str::to_lowercase`, `str::trim` and `Path::extension`. Characters outside
    ASCII are left alone. */
module Ascii {
  import opened Results

  /** Lower-cases one character; only 'A'..'Z' change. */
  function LowerChar(c: char): (r: char)
    ensures 'A' <= c <= 'Z' ==> 'a' <= r <= 'z' && r as int == c as int + 32
    ensures !('A' <= c <= 'Z') ==> r == c
  {
    if 'A' <= c <= 'Z' then (c as int + 32) as char else c
  }

  predicate IsLower(s: string) {
    forall i | 0 <= i < |s| :: !('A' <= s[i] <= 'Z')
  }

  /** `to_lowercase`, restricted to ASCII letters. */
  function ToLower(s: string): (r: string)
    ensures |r| == |s|
    ensures forall i | 0 <= i < |s| :: r[i] == LowerChar(s[i])
    ensures IsLower(r)
  {
    seq(|s|, i requires 0 <= i < |s| => LowerChar(s[i]))
  }

  /** Lower-casing is idempotent and the identity on lower-case text. */
  lemma ToLowerOfLower(s: string)
    requires IsLower(s)
    ensures ToLower(s) == s
  {
  }

  lemma ToLowerIdempotent(s: string)
    ensures ToLower(ToLower(s)) == ToLower(s)
  {
  }

  /** The ASCII characters Rust's `char::is_whitespace` accepts:
      tab, line feed, vertical tab, form feed, carriage return and space. */
  predicate IsSpace(c: char) {
    c == ' ' || 9 <= c as int <= 13
  }

  /** Number of leading white-space characters. */
  function LeadingSpace(s: string): (n: nat)
    ensures n <= |s|
    ensures forall i | 0 <= i < n :: IsSpace(s[i])
    ensures n < |s| ==> !IsSpace(s[n])
  {
    if s == [] || !IsSpace(s[0]) then 0 else 1 + LeadingSpace(s[1..])
  }

  /** Number of trailing white-space characters. */
  function TrailingSpace(s: string): (n: nat)
    ensures n <= |s|
    ensures forall i | |s| - n <= i < |s| :: IsSpace(s[i])
    ensures n < |s| ==> !IsSpace(s[|s| - n - 1])
  {
    if s == [] || !IsSpace(s[|s| - 1]) then 0 else 1 + TrailingSpace(s[..|s| - 1])
  }

  /** Where `str::trim` cuts `s`: everything before `b.0` and from `b.1`
      on is white space, and the kept slice neither starts nor ends with it. */
  function TrimBounds(s: string): (b: (nat, nat))
    ensures b.0 <= b.1 <= |s|
    ensures forall j | 0 <= j < b.0 :: IsSpace(s[j])
    ensures forall j | b.1 <= j < |s| :: IsSpace(s[j])
    ensures b.0 < b.1 ==> !IsSpace(s[b.0]) && !IsSpace(s[b.1 - 1])
  {
    var a := LeadingSpace(s);
    var rest := s[a..];
    var t := TrailingSpace(rest);
    SuffixSpace(s, a, t);
    (a, |s| - t)
  }

  /** The trailing white space of a suffix of `s` is trailing white space
      of `s` itself. */
  lemma SuffixSpace(s: string, a: nat, t: nat)
    requires a <= |s| && t == TrailingSpace(s[a..])
    ensures forall j | |s| - t <= j < |s| :: IsSpace(s[j])
    ensures t < |s| - a ==> !IsSpace(s[|s| - t - 1])
  {
    forall j | |s| - t <= j < |s|
      ensures IsSpace(s[j])
    {
      assert s[j] == s[a..][j - a];
    }
    if t < |s| - a {
      assert s[|s| - t - 1] == s[a..][|s| - a - t - 1];
    }
  }

  /** `str::trim`, restricted to ASCII white space. */
  function Trim(s: string): string {
    s[TrimBounds(s).0..TrimBounds(s).1]
  }

  /** Index of the last occurrence of `c` among the first `n` characters. */
  function LastIndexBelow(s: string, c: char, n: nat): (r: Option<nat>)
    requires n <= |s|
    ensures r.None? ==> forall j | 0 <= j < n :: s[j] != c
    ensures r.Some? ==> r.value < n && s[r.value] == c
    ensures r.Some? ==> forall j | r.value < j < n :: s[j] != c
  {
    if n == 0 then None
    else if s[n - 1] == c then Some(n - 1)
    else LastIndexBelow(s, c, n - 1)
  }

  /** Index of the last occurrence of `c` in `s`. */
  function LastIndexOf(s: string, c: char): (r: Option<nat>)
    ensures r.None? <==> c !in s
    ensures r.Some? ==> r.value < |s| && s[r.value] == c
    ensures r.Some? ==> forall j | r.value < j < |s| :: s[j] != c
  {
    LastIndexBelow(s, c, |s|)
  }

  /** `Path::file_name` of a relative path without a trailing slash: the
      part after the last '/'. */
  function FileName(path: string): (r: string)
    ensures '/' !in r
    ensures |r| <= |path| && r == path[|path| - |r|..]
  {
    match LastIndexOf(path, '/')
    case None => path
    case Some(i) => path[i + 1..]
  }

  /** `Path::extension`: the text after the last '.' of the file name,
      absent when the name has no '.', starts with its only '.', or is "..". */
  function Extension(path: string): (r: Option<string>)
    ensures r.Some? ==> '.' !in r.value && '/' !in r.value
  {
    var name := FileName(path);
    if name == ".." then None
    else match LastIndexOf(name, '.')
      case None => None
      case Some(i) => if i == 0 then None else Some(name[i + 1..])
  }

  lemma FileNameOfJoined(dir: string, name: string)
    requires dir == [] || dir[|dir| - 1] == '/'
    requires '/' !in name
    ensures FileName(dir + name) == name
  {
    var path := dir + name;
    forall j | |dir| <= j < |path|
      ensures path[j] != '/'
    {
      assert path[j] == name[j - |dir|];
    }
    if dir == [] {
      assert path == name;
    } else {
      assert path[|dir| - 1] == '/';
      LastIndexOfAt(path, '/', |dir| - 1);
      assert path[|dir|..] == name;
    }
  }

  /** The contract of `LastIndexOf` pins its result down. */
  lemma LastIndexOfAt(s: string, c: char, i: nat)
    requires i < |s| && s[i] == c
    requires forall j | i < j < |s| :: s[j] != c
    ensures LastIndexOf(s, c) == Some(i)
  {
  }

  lemma LastDotOfJoined(stem: string, ext: string)
    requires '.' !in ext
    ensures LastIndexOf(stem + "." + ext, '.') == Some(|stem|)
  {
    var name := stem + "." + ext;
    forall j | |stem| < j < |name|
      ensures name[j] != '.'
    {
      assert name[j] == ext[j - |stem| - 1];
    }
    assert name[|stem|] == '.';
    LastIndexOfAt(name, '.', |stem|);
  }

  /** Joining three pieces keeps out a character none of them holds. */
  lemma NotInJoined(a: string, b: string, c: string, x: char)
    requires x !in a && x !in b && x !in c
    ensures x !in a + b + c
  {
  }

  /** A path built as `dir + stem + "." + ext` with a plain stem and
      extension has extension `ext`. */
  lemma ExtensionOfJoined(dir: string, stem: string, ext: string)
    requires dir == [] || dir[|dir| - 1] == '/'
    requires stem != [] && '.' !in stem && '/' !in stem
    requires '.' !in ext && '/' !in ext
    ensures Extension(dir + stem + "." + ext) == Some(ext)
  {
    var path := dir + stem + "." + ext;
    var name := stem + "." + ext;
    NotInJoined(stem, ".", ext, '/');
    assert path == dir + name;
    FileNameOfJoined(dir, name);
    assert FileName(path) == name;
    LastDotOfJoined(stem, ext);
    assert name[|stem| + 1..] == ext;
    assert name[0] == stem[0] && stem[0] != '.';
    assert name != "..";
  }
}
