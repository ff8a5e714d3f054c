/**
 * `BackgroundConfigLoader`: reads a `key=value` line file and turns the value
 * of the background key into the URL the image is loaded from.
 */
module BackgroundConfig {
  import opened Wrappers

  /** `char.IsWhiteSpace`: the Unicode space separators, line and paragraph separators, U+0009-U+000D and U+0085. */
  predicate IsWhiteSpace(c: char)
  {
    || ('\U{0009}' <= c <= '\U{000D}') || c == ' ' || c == '\U{0085}' || c == '\U{00A0}' || c == '\U{1680}'
    || ('\U{2000}' <= c <= '\U{200A}') || c == '\U{2028}' || c == '\U{2029}' || c == '\U{202F}' || c == '\U{205F}' || c == '\U{3000}'
  }

  /** `string.IsNullOrWhiteSpace` on a line that is never null: every character is white space. */
  predicate IsBlank(s: string)
  {
    forall i :: 0 <= i < |s| ==> IsWhiteSpace(s[i])
  }

  /** The number of white-space characters in `s` from position `from` on. */
  function LeadingWhiteSpace(s: string, from: nat): (n: nat)
    requires from <= |s|
    ensures from + n <= |s|
    ensures forall i :: from <= i < from + n ==> IsWhiteSpace(s[i])
    ensures from + n < |s| ==> !IsWhiteSpace(s[from + n])
    decreases |s| - from
  {
    if from == |s| || !IsWhiteSpace(s[from]) then 0 else 1 + LeadingWhiteSpace(s, from + 1)
  }

  /** The number of white-space characters in `s` just before position `upto`. */
  function TrailingWhiteSpace(s: string, upto: nat): (n: nat)
    requires upto <= |s|
    ensures n <= upto
    ensures forall i :: upto - n <= i < upto ==> IsWhiteSpace(s[i])
    ensures n < upto ==> !IsWhiteSpace(s[upto - 1 - n])
  {
    if upto == 0 || !IsWhiteSpace(s[upto - 1]) then 0 else 1 + TrailingWhiteSpace(s, upto - 1)
  }

  /**
   * `string.Trim()`: the part of `s` between its leading and its trailing
   * white space; nothing when `s` is white space throughout.
   */
  function Trim(s: string): (r: string)
    ensures var a, b := LeadingWhiteSpace(s, 0), TrailingWhiteSpace(s, |s|);
      if a == |s| then r == [] else a < |s| - b && r == s[a..|s| - b]
  {
    var a := LeadingWhiteSpace(s, 0);
    if a == |s| then []
    else
      var b := TrailingWhiteSpace(s, |s|);
      assert !IsWhiteSpace(s[a]);
      s[a..|s| - b]
  }

  /**
   * `Trim` keeps nothing exactly when `s` is blank, and what it keeps neither
   * starts nor ends with white space.
   */
  lemma TrimShape(s: string)
    ensures Trim(s) == [] <==> IsBlank(s)
    ensures var r := Trim(s); r == [] || (!IsWhiteSpace(r[0]) && !IsWhiteSpace(r[|r| - 1]))
  {
    var a, b, r := LeadingWhiteSpace(s, 0), TrailingWhiteSpace(s, |s|), Trim(s);
    if a < |s| {
      assert r[0] == s[a] && r[|r| - 1] == s[|s| - 1 - b];
    }
  }

  /** Trimming twice is trimming once. */
  lemma TrimIdempotent(s: string)
    ensures Trim(Trim(s)) == Trim(s)
  {
    var r := Trim(s);
    TrimShape(s);
    if r != [] {
      assert !IsBlank(r) by { assert !IsWhiteSpace(r[0]); }
      assert LeadingWhiteSpace(r, 0) == 0;
      assert TrailingWhiteSpace(r, |r|) == 0;
      assert r[0..|r|] == r;
    }
  }

  /** `string.Split(sep)`: the pieces between separators, empty pieces included. */
  function Split(s: string, sep: char): (parts: seq<string>)
    ensures |parts| >= 1
    ensures forall i :: 0 <= i < |parts| ==> sep !in parts[i]
  {
    if s == [] then [[]]
    else
      var rest := Split(s[1..], sep);
      if s[0] == sep then [[]] + rest
      else [[s[0]] + rest[0]] + rest[1..]
  }

  /** `string.Join(sep, parts)`, the inverse of `Split`. */
  function Join(parts: seq<string>, sep: char): string
    requires |parts| >= 1
  {
    if |parts| == 1 then parts[0] else parts[0] + [sep] + Join(parts[1..], sep)
  }

  /** The number of times `c` occurs in `s`. */
  function Count(s: string, c: char): nat
  {
    if s == [] then 0 else (if s[0] == c then 1 else 0) + Count(s[1..], c)
  }

  /** Joining the pieces with the separator gives back the line. */
  lemma {:induction false} SplitJoin(s: string, sep: char)
    ensures Join(Split(s, sep), sep) == s
  {
    if s != [] {
      var rest := Split(s[1..], sep);
      SplitJoin(s[1..], sep);
      if s[0] == sep {
        assert Split(s, sep)[1..] == rest;
      } else {
        var parts := Split(s, sep);
        if |rest| == 1 {
          assert Join(parts, sep) == [s[0]] + rest[0];
        } else {
          assert parts[1..] == rest[1..];
          assert Join(rest, sep) == rest[0] + [sep] + Join(rest[1..], sep);
        }
      }
      assert s == [s[0]] + s[1..];
    }
  }

  /** There is one more piece than there are separators. */
  lemma {:induction false} SplitCount(s: string, sep: char)
    ensures |Split(s, sep)| == Count(s, sep) + 1
  {
    if s != [] {
      SplitCount(s[1..], sep);
    }
  }

  /** An ASCII lower-case letter becomes upper case; every other character is kept. */
  function UpperAscii(c: char): (u: char)
    ensures 'a' <= c <= 'z' ==> u as int == c as int - 32
    ensures !('a' <= c <= 'z') ==> u == c
  {
    if 'a' <= c <= 'z' then (c as int - 32) as char else c
  }

  /** `Equals(b, StringComparison.OrdinalIgnoreCase)` on ASCII letters. */
  predicate EqualsIgnoreCase(a: string, b: string)
  {
    |a| == |b| && forall i :: 0 <= i < |a| ==> UpperAscii(a[i]) == UpperAscii(b[i])
  }

  /** `StartsWith(prefix, StringComparison.OrdinalIgnoreCase)`. */
  predicate StartsWithIgnoreCase(s: string, prefix: string)
  {
    |prefix| <= |s| && EqualsIgnoreCase(s[..|prefix|], prefix)
  }

  /**
   * What one line contributes to `ReadBackgroundPath`: nothing for a blank
   * line, a line whose first character is `#`, a line without exactly one
   * `=`, or another key; otherwise the trimmed value.
   */
  function ParseLine(line: string, key: string): (r: Option<string>)
    ensures r.Some? <==>
      !IsBlank(line) && !(|line| > 0 && line[0] == '#') && |Split(line, '=')| == 2 &&
      EqualsIgnoreCase(Trim(Split(line, '=')[0]), key)
    ensures r.Some? ==> r.value == Trim(Split(line, '=')[1])
    ensures r.Some? ==> '=' !in r.value
  {
    if IsBlank(line) then None
    else if |line| > 0 && line[0] == '#' then None
    else
      var parts := Split(line, '=');
      if |parts| != 2 then None
      else if EqualsIgnoreCase(Trim(parts[0]), key) then
        var v := Trim(parts[1]);
        assert forall i :: 0 <= i < |v| ==> v[i] in parts[1];
        Some(v)
      else None
  }

  /** The value a line yields is already trimmed. */
  lemma ParseLineTrimmed(line: string, key: string)
    ensures ParseLine(line, key).Some? ==> Trim(ParseLine(line, key).value) == ParseLine(line, key).value
  {
    if ParseLine(line, key).Some? {
      TrimIdempotent(Split(line, '=')[1]);
    }
  }

  /** The first value `parse` yields along `lines`, taken in order, or `None` when it yields none. */
  function FirstHit(lines: seq<string>, parse: string -> Option<string>): Option<string>
  {
    if lines == [] then None
    else if parse(lines[0]).Some? then parse(lines[0])
    else FirstHit(lines[1..], parse)
  }

  /** The position of the first line on which `parse` yields a value, or `|lines|` when there is none. */
  function FirstMatch(lines: seq<string>, parse: string -> Option<string>): (i: nat)
    ensures i <= |lines|
    ensures i < |lines| ==> parse(lines[i]).Some?
    ensures forall j :: 0 <= j < i ==> parse(lines[j]).None?
  {
    if lines == [] then 0
    else if parse(lines[0]).Some? then 0
    else
      var k := FirstMatch(lines[1..], parse);
      assert forall j :: 1 <= j <= k ==> lines[j] == lines[1..][j - 1];
      1 + k
  }

  /** The search returns what the first matching line yields. */
  lemma {:induction false} FirstHitIsFirstMatch(lines: seq<string>, parse: string -> Option<string>)
    ensures var i := FirstMatch(lines, parse);
      FirstHit(lines, parse) == if i < |lines| then parse(lines[i]) else None
  {
    if lines != [] && parse(lines[0]).None? {
      FirstHitIsFirstMatch(lines[1..], parse);
    }
  }

  /** Lines after a hit do not matter. */
  lemma {:induction false} FirstHitIgnoresLater(lines: seq<string>, more: seq<string>, parse: string -> Option<string>)
    requires FirstHit(lines, parse).Some?
    ensures FirstHit(lines + more, parse) == FirstHit(lines, parse)
  {
    assert (lines + more)[0] == lines[0];
    if parse(lines[0]).None? {
      assert (lines + more)[1..] == lines[1..] + more;
      FirstHitIgnoresLater(lines[1..], more, parse);
    }
  }

  /** The per-line step of `ReadBackgroundPath` for `key`. */
  function LineParser(key: string): string -> Option<string>
  {
    line => ParseLine(line, key)
  }

  /** `ReadBackgroundPath`: the lines in file order, stopping at the first one that yields a value. */
  function ReadBackgroundPath(lines: seq<string>, key: string): Option<string>
  {
    FirstHit(lines, LineParser(key))
  }

  /** The result is the value of the first matching line, and `None` (null) when no line matches. */
  lemma ReadBackgroundPathIsFirstMatch(lines: seq<string>, key: string)
    ensures var i := FirstMatch(lines, LineParser(key));
      (i < |lines| ==> ReadBackgroundPath(lines, key) == ParseLine(lines[i], key)) &&
      (forall j :: 0 <= j < i ==> ParseLine(lines[j], key).None?) &&
      (i == |lines| ==> ReadBackgroundPath(lines, key) == None)
  {
    FirstHitIsFirstMatch(lines, LineParser(key));
  }

  /**
   * A value is found exactly when some line matches. It is then the trimmed
   * text after the `=` of the first matching line, so it is trimmed and holds no `=`.
   */
  lemma ReadBackgroundPathFound(lines: seq<string>, key: string)
    ensures ReadBackgroundPath(lines, key).Some? <==> exists j :: 0 <= j < |lines| && ParseLine(lines[j], key).Some?
    ensures ReadBackgroundPath(lines, key).Some? ==>
      var i := FirstMatch(lines, LineParser(key));
      i < |lines| && |Split(lines[i], '=')| == 2 &&
      ReadBackgroundPath(lines, key).value == Trim(Split(lines[i], '=')[1])
    ensures ReadBackgroundPath(lines, key).Some? ==>
      var v := ReadBackgroundPath(lines, key).value; '=' !in v && Trim(v) == v
  {
    ReadBackgroundPathIsFirstMatch(lines, key);
    var i := FirstMatch(lines, LineParser(key));
    if i < |lines| {
      ParseLineTrimmed(lines[i], key);
    }
  }

  /** Lines after a match do not matter. */
  lemma ReadBackgroundPathIgnoresLater(lines: seq<string>, more: seq<string>, key: string)
    requires ReadBackgroundPath(lines, key).Some?
    ensures ReadBackgroundPath(lines + more, key) == ReadBackgroundPath(lines, key)
  {
    FirstHitIgnoresLater(lines, more, LineParser(key));
  }

  /** A line whose first character is `#` is a comment, whatever follows. */
  lemma CommentSkipped(line: string, key: string)
    requires |line| > 0 && line[0] == '#'
    ensures ParseLine(line, key) == None
  {
  }

  /** The pieces of ` #k=v`. */
  lemma SplitIndentedHash()
    ensures Split(" #k=v", '=') == [" #k", "v"]
  {
    assert "v"[1..] == "";
    assert ['v'] + "" == "v";
    assert Split("v", '=') == ["v"];
    assert "=v"[1..] == "v";
    assert Split("=v", '=') == ["", "v"];
    assert "k=v"[1..] == "=v";
    assert ['k'] + "" == "k";
    assert Split("k=v", '=') == ["k", "v"];
    assert "#k=v"[1..] == "k=v";
    assert ['#'] + "k" == "#k";
    assert Split("#k=v", '=') == ["#k", "v"];
    assert " #k=v"[1..] == "#k=v";
    assert [' '] + "#k" == " #k";
  }

  /** The trimmed pieces of ` #k=v`. */
  lemma TrimIndentedHash()
    ensures Trim(" #k") == "#k" && Trim("v") == "v"
  {
    assert LeadingWhiteSpace(" #k", 0) == 1;
    assert TrailingWhiteSpace(" #k", 3) == 0;
    assert " #k"[1..3] == "#k";
    assert LeadingWhiteSpace("v", 0) == 0;
    assert TrailingWhiteSpace("v", 1) == 0;
    assert "v"[0..1] == "v";
  }

  /**
   * The comment test looks at the raw line only: with a leading space,
   * ` #k=v` is an entry whose trimmed key is `#k`.
   */
  lemma IndentedHashIsNoComment()
    ensures ReadBackgroundPath([" #k=v"], "#k") == Some("v")
  {
    var line := " #k=v";
    SplitIndentedHash();
    TrimIndentedHash();
    assert !IsBlank(line) by {
      assert !IsWhiteSpace(line[1]);
    }
    assert ParseLine(line, "#k") == Some("v");
  }

  /** `Start`: the value to load, or `None` when there is no config file or the value is null or empty. */
  function BackgroundToLoad(configExists: bool, lines: seq<string>, key: string): (r: Option<string>)
    ensures r.Some? <==> configExists && ReadBackgroundPath(lines, key).Some? && ReadBackgroundPath(lines, key).value != ""
    ensures r.Some? ==> r == ReadBackgroundPath(lines, key)
  {
    if !configExists then None
    else
      var value := ReadBackgroundPath(lines, key);
      if value.None? || value.value == "" then None else value
  }

  /** `Replace("\\", "/")`: every backslash becomes a slash. */
  function ToForwardSlashes(s: string): (r: string)
    ensures |r| == |s|
    ensures forall i :: 0 <= i < |s| ==> r[i] == if s[i] == '\\' then '/' else s[i]
    ensures '\\' !in r
  {
    if s == [] then [] else [if s[0] == '\\' then '/' else s[0]] + ToForwardSlashes(s[1..])
  }

  /**
   * The URL `LoadBackground` requests: a value starting with `http` (any case)
   * as it is; a local path, when the file exists, as `file:///` followed by
   * the path with forward slashes; `None` for a missing local file.
   */
  function ResolveUrl(pathOrUrl: string, fileExists: bool): (r: Option<string>)
    ensures StartsWithIgnoreCase(pathOrUrl, "http") ==> r == Some(pathOrUrl)
    ensures !StartsWithIgnoreCase(pathOrUrl, "http") && !fileExists ==> r == None
    ensures !StartsWithIgnoreCase(pathOrUrl, "http") && fileExists ==>
      r == Some("file:///" + ToForwardSlashes(pathOrUrl))
    ensures !StartsWithIgnoreCase(pathOrUrl, "http") && fileExists ==>
      r.Some? && |r.value| == 8 + |pathOrUrl| && r.value[..8] == "file:///" && '\\' !in r.value
  {
    if StartsWithIgnoreCase(pathOrUrl, "http") then Some(pathOrUrl)
    else if !fileExists then None
    else
      var url := "file:///" + ToForwardSlashes(pathOrUrl);
      assert url[..8] == "file:///";
      Some(url)
  }

  /** A Windows path gets the `file:///` scheme and forward slashes; a URL in capitals is kept. */
  lemma WindowsPathUrl()
    ensures ResolveUrl("C:\\a", true) == Some("file:///C:/a")
    ensures ResolveUrl("HTTPS://x", false) == Some("HTTPS://x")
  {
    assert ToForwardSlashes("a") == "a";
    assert ToForwardSlashes("\\a") == "/a";
    assert ToForwardSlashes(":\\a") == ":/a";
    assert ToForwardSlashes("C:\\a") == "C:/a";
    assert "file:///" + "C:/a" == "file:///C:/a";
    assert !StartsWithIgnoreCase("C:\\a", "http") by {
      assert UpperAscii('C') != UpperAscii('h');
    }
    assert StartsWithIgnoreCase("HTTPS://x", "http");
  }
}
