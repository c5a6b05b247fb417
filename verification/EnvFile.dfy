/** The FH_TAG line of the instance's .env file: reading it, and rewriting it in place. */
module EnvFile {
  import opened Text

  const PREFIX := "FH_TAG="

  predicate IsTagLine(line: string) {
    PREFIX <= Strip(line)
  }

  function TagLine(tag: string): string {
    PREFIX + tag
  }

  /** The index of the first FH_TAG line, or the number of lines. */
  function FirstTagLine(lines: seq<string>): (k: nat)
    ensures k <= |lines|
  {
    FirstIndex(lines, IsTagLine)
  }

  function TagOf(lines: seq<string>): string {
    var k := FirstTagLine(lines);
    if k == |lines| then "latest" else Strip(Strip(lines[k])[|PREFIX|..])
  }

  /** The tag compose runs under; a missing file reads like one without an FH_TAG line. */
  function ReadTag(env: Option<string>): string {
    if env.None? then "latest" else TagOf(SplitLines(env.value))
  }

  /** The line list with the first FH_TAG line replaced, or one appended. */
  function Edited(lines: seq<string>, tag: string): seq<string> {
    var k := FirstTagLine(lines);
    if k == |lines| then lines + [TagLine(tag)] else lines[k := TagLine(tag)]
  }

  function Lines(env: Option<string>): seq<string> {
    if env.None? then [] else SplitLines(env.value)
  }

  /** The file text after a successful write. */
  function Written(env: Option<string>, tag: string): string {
    Unlines(Edited(Lines(env), tag))
  }

  /** Every line except the first FH_TAG line, in order. */
  function OtherLines(lines: seq<string>): seq<string> {
    var k := FirstTagLine(lines);
    if k == |lines| then lines else lines[..k] + lines[k + 1..]
  }

  /** A tag that survives being written and read back: one line, no outer whitespace. */
  predicate Writable(tag: string) {
    Strip(tag) == tag && OneLine(tag)
  }

  lemma TagLineReads(tag: string)
    requires Writable(tag)
    ensures IsTagLine(TagLine(tag))
    ensures Strip(Strip(TagLine(tag))[|PREFIX|..]) == tag
  {
    var line := TagLine(tag);
    assert line[0] == 'F';
    assert LStrip(line) == line;
    StripIsClean(tag);
    assert line[|line| - 1] == if tag == "" then '=' else tag[|tag| - 1];
    assert RStrip(line) == line;
    assert line[|PREFIX|..] == tag;
  }

  lemma EditedReads(lines: seq<string>, tag: string)
    requires Writable(tag)
    ensures TagOf(Edited(lines, tag)) == tag
    ensures OtherLines(Edited(lines, tag)) == OtherLines(lines)
    ensures Edited(Edited(lines, tag), tag) == Edited(lines, tag)
  {
    hide Strip, IsTagLine;
    TagLineReads(tag);
    FirstIndexIs(Edited(lines, tag), IsTagLine, FirstTagLine(lines));
  }

  lemma EditedIsOneLines(lines: seq<string>, tag: string)
    requires OneLines(lines) && OneLine(tag)
    ensures OneLines(Edited(lines, tag))
  {
    forall c | c in TagLine(tag) ensures !IsLineBreak(c) {
      assert c in PREFIX || c in tag;
    }
  }

  /** Reading gives what was written, the other lines stay in order, and a second write is no change. */
  lemma WriteThenRead(env: Option<string>, tag: string)
    requires Writable(tag)
    ensures ReadTag(Some(Written(env, tag))) == tag
    ensures OtherLines(SplitLines(Written(env, tag))) == OtherLines(Lines(env))
    ensures Written(Some(Written(env, tag)), tag) == Written(env, tag)
  {
    EditedIsOneLines(Lines(env), tag);
    SplitUnlines(Edited(Lines(env), tag));
    EditedReads(Lines(env), tag);
  }

  /** A write replaces the first line that assigns FH_TAG, or adds one at the end, and leaves every other line alone. */
  lemma WriteChangesOneLine(env: Option<string>, tag: string)
    requires OneLine(tag)
    ensures var was, now := if env.None? then [] else SplitLines(env.value), SplitLines(Written(env, tag));
            || ((forall j :: 0 <= j < |was| ==> !("FH_TAG=" <= Strip(was[j]))) && now == was + ["FH_TAG=" + tag])
            || exists k :: 0 <= k < |was| && "FH_TAG=" <= Strip(was[k]) && now == was[k := "FH_TAG=" + tag]
                           && forall j :: 0 <= j < k ==> !("FH_TAG=" <= Strip(was[j]))
  {
    hide Strip;
    EditedIsOneLines(Lines(env), tag);
    SplitUnlines(Edited(Lines(env), tag));
  }

  /** Reading gives the stripped rest of the first line that assigns FH_TAG, and "latest" without a file or such a line. */
  lemma ReadIsFirstLine(env: Option<string>)
    ensures env.None? ==> ReadTag(env) == "latest"
    ensures env.Some? ==>
              var lines := SplitLines(env.value);
              || ((forall j :: 0 <= j < |lines| ==> !("FH_TAG=" <= Strip(lines[j]))) && ReadTag(env) == "latest")
              || exists k :: 0 <= k < |lines| && "FH_TAG=" <= Strip(lines[k]) && ReadTag(env) == Strip(Strip(lines[k])[7..])
                             && forall j :: 0 <= j < k ==> !("FH_TAG=" <= Strip(lines[j]))
  {
    hide Strip, TagOf;
    if env.Some? {
      FirstLineIs(SplitLines(env.value));
    }
  }

  lemma FirstLineIs(lines: seq<string>)
    ensures || ((forall j :: 0 <= j < |lines| ==> !("FH_TAG=" <= Strip(lines[j]))) && TagOf(lines) == "latest")
            || exists k :: 0 <= k < |lines| && "FH_TAG=" <= Strip(lines[k]) && TagOf(lines) == Strip(Strip(lines[k])[7..])
                           && forall j :: 0 <= j < k ==> !("FH_TAG=" <= Strip(lines[j]))
  {
    hide Strip;
    var k := FirstTagLine(lines);
    assert forall j :: 0 <= j < k ==> !IsTagLine(lines[j]);
    if k < |lines| {
      assert IsTagLine(lines[k]) && TagOf(lines) == Strip(Strip(lines[k])[7..]);
    }
  }

  lemma LineValueIsWritable(line: string)
    requires OneLine(line) && IsTagLine(line)
    ensures Writable(Strip(Strip(line)[|PREFIX|..]))
  {
    var stripped := Strip(line);
    var value := stripped[|PREFIX|..];
    StripIsClean(line);
    StripIsClean(value);
    forall c | c in Strip(value) ensures !IsLineBreak(c) {
      assert c in value;
      assert c in stripped;
      assert c in line;
    }
  }

  lemma CleanIsWritable(tag: string)
    requires tag != "" && OneLine(tag) && !IsSpace(tag[0]) && !IsSpace(tag[|tag| - 1])
    ensures Writable(tag)
  {
    assert LStrip(tag) == tag;
    assert RStrip(tag) == tag;
  }

  lemma LatestIsWritable()
    ensures Writable("latest")
  {
    hide Writable;
    CleanIsWritable("latest");
  }

  lemma ReadTagIsWritable(env: Option<string>)
    ensures Writable(ReadTag(env))
  {
    hide Strip, IsTagLine, Writable;
    LatestIsWritable();
    var k := FirstTagLine(Lines(env));
    if k < |Lines(env)| {
      LineValueIsWritable(Lines(env)[k]);
    }
  }

  /** The round trip holds for exactly the writable tags. */
  lemma ReadsBackIffWritable(env: Option<string>, tag: string)
    ensures ReadTag(Some(Written(env, tag))) == tag <==> Writable(tag)
  {
    ReadTagIsWritable(Some(Written(env, tag)));
    if Writable(tag) {
      WriteThenRead(env, tag);
    }
  }

  /** Writing a target and then the tag read before restores what was read, in any file. */
  lemma WriteBackRestores(env: Option<string>, target: string)
    requires Writable(target)
    ensures ReadTag(Some(Written(Some(Written(env, target)), ReadTag(env)))) == ReadTag(env)
    ensures OtherLines(SplitLines(Written(Some(Written(env, target)), ReadTag(env)))) == OtherLines(Lines(env))
  {
    ReadTagIsWritable(env);
    WriteThenRead(env, target);
    WriteThenRead(Some(Written(env, target)), ReadTag(env));
  }

  /** The file itself; `text` is its content after newline decoding, None when it does not exist. */
  class EnvFile {
    var text: Option<string>

    constructor (text: Option<string>)
      ensures this.text == text
    {
      this.text := text;
    }

    /** `replaced` is whether the atomic replace of the file succeeds; otherwise the write raises. */
    method WriteCurrentTag(tag: string, replaced: bool) returns (raised: bool)
      modifies this
      ensures raised == !replaced
      ensures text == if raised then old(text) else Some(Written(old(text), tag))
    {
      hide Strip, SplitLines, IsTagLine;
      if !replaced {
        return true;
      }
      if text.None? {
        assert Edited(Lines(None), tag) == [TagLine(tag)];
        assert Unlines([TagLine(tag)]) == TagLine(tag) + "\n" + "";
        assert Unlines([TagLine(tag)]) == TagLine(tag) + "\n";
        text := Some(TagLine(tag) + "\n");
        return false;
      }
      var lines := SplitLines(text.value);
      ghost var before := lines;
      var found := false;
      for i := 0 to |lines|
        invariant lines == before && !found
        invariant forall j :: 0 <= j < i ==> !IsTagLine(lines[j])
      {
        if IsTagLine(lines[i]) {
          FirstIndexIs(lines, IsTagLine, i);
          lines := lines[i := TagLine(tag)];
          found := true;
          break;
        }
      }
      if !found {
        FirstIndexIs(lines, IsTagLine, |lines|);
        lines := lines + [TagLine(tag)];
      }
      text := Some(Unlines(lines));
      raised := false;
    }

    method ReadCurrentTag() returns (tag: string)
      ensures tag == ReadTag(text)
    {
      hide Strip, SplitLines;
      if text.None? {
        return "latest";
      }
      var lines := SplitLines(text.value);
      for i := 0 to |lines|
        invariant forall j :: 0 <= j < i ==> !IsTagLine(lines[j])
      {
        if IsTagLine(lines[i]) {
          FirstIndexIs(lines, IsTagLine, i);
          return Strip(Strip(lines[i])[|PREFIX|..]);
        }
      }
      FirstIndexIs(lines, IsTagLine, |lines|);
      return "latest";
    }
  }
}
