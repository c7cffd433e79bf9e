/**
 * The few ECMAScript string operations the pipeline relies on:
 * `String.prototype.trim` (used by the relay's transcript filter and by the
 * save dialog's title check) and `Array.prototype.join` (used to build the
 * saved `fullText`).  Strings are sequences of UTF-16 code units, which
 * Dafny's `string` stands in for.
 */
module JsString {

  /** The code points `trim` strips: ECMAScript WhiteSpace and LineTerminator. */
  predicate IsWhitespace(c: char) {
    || c == '\t' || c == '\n' || c == '\U{000B}' || c == '\U{000C}' || c == '\r'
    || c == ' ' || c == '\U{00A0}' || c == '\U{1680}'
    || ('\U{2000}' <= c <= '\U{200A}')
    || c == '\U{2028}' || c == '\U{2029}' || c == '\U{202F}' || c == '\U{205F}'
    || c == '\U{3000}' || c == '\U{FEFF}'
  }

  predicate AllWhitespace(s: string) {
    forall i :: 0 <= i < |s| ==> IsWhitespace(s[i])
  }

  /** Drops leading whitespace. */
  function TrimStart(s: string): string {
    if s == [] then []
    else if IsWhitespace(s[0]) then TrimStart(s[1..])
    else s
  }

  /** Drops trailing whitespace. */
  function TrimEnd(s: string): string {
    if s == [] then []
    else if IsWhitespace(s[|s| - 1]) then TrimEnd(s[..|s| - 1])
    else s
  }

  /** `TrimStart` removes a whitespace-only prefix and stops at the first other character. */
  lemma {:induction false} TrimStartSpec(s: string)
    ensures |TrimStart(s)| <= |s| && TrimStart(s) == s[|s| - |TrimStart(s)|..]
    ensures TrimStart(s) == [] || !IsWhitespace(TrimStart(s)[0])
    ensures AllWhitespace(s[..|s| - |TrimStart(s)|])
  {
    if s != [] && IsWhitespace(s[0]) {
      var r := TrimStart(s[1..]);
      TrimStartSpec(s[1..]);
      assert s[1..][..|s| - 1 - |r|] == s[1..|s| - |r|];
      assert s[..|s| - |r|] == [s[0]] + s[1..|s| - |r|];
    }
  }

  /** `TrimEnd` removes a whitespace-only suffix and stops at the last other character. */
  lemma {:induction false} TrimEndSpec(s: string)
    ensures |TrimEnd(s)| <= |s| && TrimEnd(s) == s[..|TrimEnd(s)|]
    ensures TrimEnd(s) == [] || !IsWhitespace(TrimEnd(s)[|TrimEnd(s)| - 1])
    ensures AllWhitespace(s[|TrimEnd(s)|..])
  {
    if s != [] && IsWhitespace(s[|s| - 1]) {
      var r := TrimEnd(s[..|s| - 1]);
      TrimEndSpec(s[..|s| - 1]);
      assert s[..|s| - 1][|r|..] + [s[|s| - 1]] == s[|r|..];
    }
  }

  /** `s.trim()`: the string without leading and trailing whitespace. */
  function Trim(s: string): string {
    TrimEnd(TrimStart(s))
  }

  /** A string trims to "" exactly when every one of its characters is whitespace. */
  lemma TrimEmptyIff(s: string)
    ensures Trim(s) == [] <==> AllWhitespace(s)
  {
    var t := TrimStart(s);
    TrimStartSpec(s);
    TrimEndSpec(t);
    if t != [] {
      assert !IsWhitespace(t[0]);
      assert t[|TrimEnd(t)|..] != t;
      assert s[|s| - |t|] == t[0];
    }
  }

  /** `lines.join(sep)`: the elements with `sep` between neighbours. */
  function Join(lines: seq<string>, sep: string): string
    decreases |lines|
  {
    if |lines| == 0 then ""
    else if |lines| == 1 then lines[0]
    else lines[0] + sep + Join(lines[1..], sep)
  }

  /** Appending a line extends the joined text by the separator and that line. */
  lemma {:induction false} JoinAppend(lines: seq<string>, sep: string, line: string)
    ensures Join(lines + [line], sep) == if lines == [] then line else Join(lines, sep) + sep + line
    decreases |lines|
  {
    if |lines| > 1 {
      assert (lines + [line])[1..] == lines[1..] + [line];
      JoinAppend(lines[1..], sep, line);
    } else if |lines| == 1 {
      assert (lines + [line])[1..] == [line];
    }
  }

  function SumLengths(lines: seq<string>): nat {
    if lines == [] then 0 else |lines[0]| + SumLengths(lines[1..])
  }

  /** The joined text has every line's characters and one separator per gap. */
  lemma {:induction false} JoinLength(lines: seq<string>, sep: string)
    requires lines != []
    ensures |Join(lines, sep)| == SumLengths(lines) + (|lines| - 1) * |sep|
    decreases |lines|
  {
    if |lines| > 1 {
      JoinLength(lines[1..], sep);
    }
  }

  /** `s.split(c)` for a one-character separator: the pieces between occurrences of `c`. */
  function Split(s: string, c: char): (r: seq<string>)
    ensures |r| >= 1
    decreases |s|
  {
    if s == [] then [""]
    else
      var rest := Split(s[1..], c);
      if s[0] == c then [""] + rest else [[s[0]] + rest[0]] + rest[1..]
  }

  lemma {:induction false} SplitPrefix(a: string, t: string, c: char)
    requires c !in a
    ensures Split(a + t, c) == [a + Split(t, c)[0]] + Split(t, c)[1..]
    decreases |a|
  {
    var st := Split(t, c);
    if a == [] {
      assert a + t == t && a + st[0] == st[0];
      assert st == [st[0]] + st[1..];
    } else {
      assert (a + t)[0] == a[0] && (a + t)[1..] == a[1..] + t;
      SplitPrefix(a[1..], t, c);
      assert [a[0]] + (a[1..] + st[0]) == a + st[0];
    }
  }

  /** Lines free of the separator character are recovered by splitting the joined text. */
  lemma {:induction false} SplitJoin(lines: seq<string>, c: char)
    requires lines != []
    requires forall k :: 0 <= k < |lines| ==> c !in lines[k]
    ensures Split(Join(lines, [c]), c) == lines
    decreases |lines|
  {
    if |lines| == 1 {
      SplitPrefix(lines[0], "", c);
      assert lines[0] + "" == lines[0];
    } else {
      var tail := Join(lines[1..], [c]);
      SplitJoin(lines[1..], c);
      assert lines[0] + [c] + tail == lines[0] + ([c] + tail);
      SplitPrefix(lines[0], [c] + tail, c);
      assert ([c] + tail)[0] == c && ([c] + tail)[1..] == tail;
      assert Split([c] + tail, c) == [""] + lines[1..];
      assert lines[0] + "" == lines[0];
      assert lines == [lines[0]] + lines[1..];
    }
  }
}
