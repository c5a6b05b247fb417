/** The string operations of Python that several parts of the repository rest on. */
module Text {

  datatype Option<+T> = None | Some(value: T)

  /** `s.split(sep)` for a one-character separator. */
  function Split(s: string, sep: char): (parts: seq<string>)
    ensures |parts| > 0
  {
    if s == "" then [""]
    else
      var rest := Split(s[1..], sep);
      if s[0] == sep then [""] + rest else [[s[0]] + rest[0]] + rest[1..]
  }

  /** `sep.join(parts)`. */
  function Join(parts: seq<string>, sep: char): string
  {
    if parts == [] then ""
    else if |parts| == 1 then parts[0]
    else parts[0] + [sep] + Join(parts[1..], sep)
  }

  /** A separator-free head is the first part, and the rest splits on its own. */
  lemma {:induction false} SplitHead(head: string, tail: string, sep: char)
    requires sep !in head
    ensures Split(head, sep) == [head]
    ensures Split(head + [sep] + tail, sep) == [head] + Split(tail, sep)
  {
    var whole := head + [sep] + tail;
    if head == "" {
      assert whole[1..] == tail;
    } else {
      SplitHead(head[1..], tail, sep);
      assert whole[1..] == head[1..] + [sep] + tail;
      assert [head[0]] + head[1..] == head;
    }
  }

  /** Splitting inverts joining when no part holds the separator. */
  lemma {:induction false} SplitJoin(parts: seq<string>, sep: char)
    requires |parts| > 0
    requires forall p :: p in parts ==> sep !in p
    ensures Split(Join(parts, sep), sep) == parts
  {
    assert parts[0] in parts;
    if |parts| == 1 {
      SplitHead(parts[0], "", sep);
    } else {
      SplitJoin(parts[1..], sep);
      SplitHead(parts[0], Join(parts[1..], sep), sep);
    }
  }

  /** The line boundaries of `str.splitlines`. */
  predicate IsLineBreak(c: char) {
    '\n' <= c <= '\r' || '\U{1c}' <= c <= '\U{1e}' || c == '\U{85}' || c == '\U{2028}' || c == '\U{2029}'
  }

  /** The whitespace that `str.strip` removes; every line boundary is whitespace. */
  predicate IsSpace(c: char) {
    IsLineBreak(c) || c == ' ' || c == '\t' || c == '\U{1f}' || c == '\U{a0}' || c == '\U{1680}'
    || '\U{2000}' <= c <= '\U{200a}' || c == '\U{202f}' || c == '\U{205f}' || c == '\U{3000}'
  }

  function LStrip(s: string): (r: string)
    ensures r == "" || !IsSpace(r[0])
    ensures exists k :: 0 <= k <= |s| && r == s[k..]
  {
    if s != "" && IsSpace(s[0]) then
      var r := LStrip(s[1..]);
      assert forall k :: 0 <= k <= |s[1..]| ==> s[1..][k..] == s[k + 1..];
      r
    else
      assert s == s[0..];
      s
  }

  function RStrip(s: string): (r: string)
    ensures r == "" || !IsSpace(r[|r| - 1])
    ensures r <= s
  {
    if s != "" && IsSpace(s[|s| - 1]) then RStrip(s[..|s| - 1]) else s
  }

  function Strip(s: string): string {
    RStrip(LStrip(s))
  }

  /** Stripping leaves characters of the original, and a second strip changes nothing. */
  lemma StripIsClean(s: string)
    ensures Strip(Strip(s)) == Strip(s)
    ensures Strip(s) != "" ==> !IsSpace(Strip(s)[0]) && !IsSpace(Strip(s)[|Strip(s)| - 1])
    ensures forall c :: c in Strip(s) ==> c in s
  {
    var l := LStrip(s);
    var r := Strip(s);
    if r != "" {
      assert r[0] == l[0];
    }
  }

  lemma {:induction false} LStripSkips(pre: string, s: string)
    requires (forall c :: c in pre ==> IsSpace(c)) && (s == "" || !IsSpace(s[0]))
    ensures LStrip(pre + s) == s
  {
    if pre == "" {
      assert pre + s == s;
    } else {
      assert (pre + s)[1..] == pre[1..] + s;
      LStripSkips(pre[1..], s);
    }
  }

  lemma {:induction false} RStripSkips(s: string, post: string)
    requires (forall c :: c in post ==> IsSpace(c)) && (s == "" || !IsSpace(s[|s| - 1]))
    ensures RStrip(s + post) == s
  {
    if post == "" {
      assert s + post == s;
    } else {
      assert (s + post)[..|s + post| - 1] == s + post[..|post| - 1];
      RStripSkips(s, post[..|post| - 1]);
    }
  }

  /** Stripping removes the surrounding whitespace and nothing else. */
  lemma StripIs(pre: string, s: string, post: string)
    requires (forall c :: c in pre ==> IsSpace(c)) && (forall c :: c in post ==> IsSpace(c))
    requires s != "" ==> !IsSpace(s[0]) && !IsSpace(s[|s| - 1])
    ensures Strip(pre + s + post) == s
  {
    if s == "" {
      assert pre + s + post == (pre + post) + "";
      LStripSkips(pre + post, "");
    } else {
      assert pre + s + post == pre + (s + post);
      LStripSkips(pre, s + post);
      RStripSkips(s, post);
    }
  }

  predicate OneLine(line: string) {
    forall c :: c in line ==> !IsLineBreak(c)
  }

  predicate OneLines(lines: seq<string>) {
    forall i :: 0 <= i < |lines| ==> OneLine(lines[i])
  }

  /** `text.splitlines()`: the lines without their boundaries, no empty last line. */
  function SplitLines(text: string): (lines: seq<string>)
    ensures OneLines(lines)
  {
    if text == "" then []
    else
      var rest := SplitLines(text[1..]);
      if IsLineBreak(text[0]) then [""] + rest
      else if rest == [] then [[text[0]]]
      else [[text[0]] + rest[0]] + rest[1..]
  }

  /** Every line followed by a newline; for a non-empty list this is `"\n".join(lines) + "\n"`. */
  function Unlines(lines: seq<string>): string {
    if lines == [] then "" else lines[0] + "\n" + Unlines(lines[1..])
  }

  lemma {:induction false} SplitLinesHead(line: string, rest: string)
    requires OneLine(line)
    ensures SplitLines(line + "\n" + rest) == [line] + SplitLines(rest)
  {
    var whole := line + "\n" + rest;
    if line == "" {
      assert whole[1..] == rest;
    } else {
      SplitLinesHead(line[1..], rest);
      assert whole[1..] == line[1..] + "\n" + rest;
      assert [line[0]] + line[1..] == line;
    }
  }

  /** Reading back a written list of lines gives that list. */
  lemma {:induction false} SplitUnlines(lines: seq<string>)
    requires OneLines(lines)
    ensures SplitLines(Unlines(lines)) == lines
  {
    if lines != [] {
      SplitUnlines(lines[1..]);
      SplitLinesHead(lines[0], Unlines(lines[1..]));
    }
  }

  /** The index of the first element with `p`, or the length when there is none. */
  function FirstIndex<T>(xs: seq<T>, p: T -> bool): (k: nat)
    ensures k <= |xs|
    ensures forall j :: 0 <= j < k ==> !p(xs[j])
    ensures k < |xs| ==> p(xs[k])
  {
    if xs == [] || p(xs[0]) then 0
    else
      var k := FirstIndex(xs[1..], p);
      assert forall j :: 1 <= j < k + 1 ==> xs[j] == xs[1..][j - 1];
      k + 1
  }

  lemma FirstIndexIs<T>(xs: seq<T>, p: T -> bool, k: nat)
    requires k <= |xs|
    requires forall j :: 0 <= j < k ==> !p(xs[j])
    requires k < |xs| ==> p(xs[k])
    ensures FirstIndex(xs, p) == k
  {
    if FirstIndex(xs, p) < k {
      assert false;
    }
  }
}
