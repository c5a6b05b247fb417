/**
 * The revision that turns Markdown legal pages and e-mail templates into HTML. Rendering twice would
 * escape the tags of the first rendering, so a marker row and a look at each value make it happen once.
 */
module RichTextMigration {
  import opened Text

  const LEGAL_KEYS := ["legal.imprint_en", "legal.imprint_de", "legal.privacy_en", "legal.privacy_de"]

  const HTML_PREFIXES := [
    "<p", "<h1", "<h2", "<h3", "<h4", "<h5", "<h6",
    "<ul", "<ol", "<blockquote", "<pre", "<div", "<table", "<hr"]

  function Lower(s: string): (r: string)
    ensures |r| == |s|
  {
    seq(|s|, i requires 0 <= i < |s| => if 'A' <= s[i] <= 'Z' then s[i] - 'A' + 'a' else s[i])
  }

  predicate LooksLikeHtml(value: string) {
    exists i :: 0 <= i < |HTML_PREFIXES| && HTML_PREFIXES[i] <= Lower(LStrip(value))
  }

  lemma LowerAt(tag: string, rest: string)
    ensures Lower(tag + rest)[..|tag|] == Lower(tag)
  {
  }

  lemma SniffSees(pre: string, tag: string, rest: string)
    requires (forall c :: c in pre ==> IsSpace(c)) && tag != "" && !IsSpace(tag[0]) && Lower(tag) in HTML_PREFIXES
    ensures LooksLikeHtml(pre + (tag + rest))
  {
    hide HTML_PREFIXES, Lower;
    LStripSkips(pre, tag + rest);
    LowerAt(tag, rest);
    var i :| 0 <= i < |HTML_PREFIXES| && HTML_PREFIXES[i] == Lower(tag);
    assert HTML_PREFIXES[i] <= Lower(tag + rest);
  }

  lemma TagsOpen()
    ensures forall i :: 0 <= i < |HTML_PREFIXES| ==> HTML_PREFIXES[i] != "" && HTML_PREFIXES[i][0] == '<'
  {
  }

  lemma SniffRejects(pre: string, text: string)
    requires (forall c :: c in pre ==> IsSpace(c)) && text != "" && !IsSpace(text[0]) && text[0] != '<'
    ensures !LooksLikeHtml(pre + text)
  {
    hide HTML_PREFIXES;
    LStripSkips(pre, text);
    TagsOpen();
    forall i | 0 <= i < |HTML_PREFIXES| ensures !(HTML_PREFIXES[i] <= Lower(text)) {
      assert HTML_PREFIXES[i][0] == '<' && Lower(text)[0] != '<';
    }
  }

  /** The sniff skips leading whitespace and ignores case, and takes nothing for HTML that starts with anything but '<'. */
  lemma SniffIs(pre: string, text: string)
    requires (forall c :: c in pre ==> IsSpace(c)) && text != "" && !IsSpace(text[0])
    ensures text[0] != '<' ==> !LooksLikeHtml(pre + text)
    ensures forall tag :: tag != "" && tag <= text && Lower(tag) in HTML_PREFIXES ==> LooksLikeHtml(pre + text)
    ensures "<p" <= text || "<P" <= text || "<h1" <= text || "<H1" <= text ==> LooksLikeHtml(pre + text)
  {
    hide LooksLikeHtml;
    if text[0] != '<' {
      SniffRejects(pre, text);
    }
    forall tag | tag != "" && tag <= text && Lower(tag) in HTML_PREFIXES ensures LooksLikeHtml(pre + text) {
      assert tag + text[|tag|..] == text;
      SniffSees(pre, tag, text[|tag|..]);
    }
    PlainTags();
  }

  lemma PlainTags()
    ensures Lower("<p") in HTML_PREFIXES && Lower("<P") in HTML_PREFIXES
    ensures Lower("<h1") in HTML_PREFIXES && Lower("<H1") in HTML_PREFIXES
  {
    assert Lower("<p") == HTML_PREFIXES[0] && Lower("<P") == HTML_PREFIXES[0];
    assert Lower("<h1") == HTML_PREFIXES[1] && Lower("<H1") == HTML_PREFIXES[1];
  }

  predicate IsBlank(value: string) {
    Strip(value) == ""
  }

  type Renderer = string -> string

  /** A template row: its Markdown, and its HTML once there is any. */
  datatype Row = Row(markdown: Option<string>, html: Option<string>)

  /** The settings values by key (None is NULL), whether the marker row exists, and the template table. */
  datatype Database = Database(values: map<string, Option<string>>, marker: bool, rows: seq<Row>, column: bool)

  /** What the revision does to one value. */
  function Converted(render: Renderer, value: Option<string>): Option<string> {
    if value.None? || IsBlank(value.value) || LooksLikeHtml(value.value) then value else Some(render(value.value))
  }

  function Filled(render: Renderer, row: Row): Row {
    if row.html.Some? then row else row.(html := Some(render(if row.markdown.Some? then row.markdown.value else "")))
  }

  /** A rendering of this value is recognised as done by the next run. */
  predicate Recognised(render: Renderer, value: string) {
    IsBlank(render(value)) || LooksLikeHtml(render(value))
  }

  /** A second conversion leaves a value alone exactly when its rendering is recognised or renders to itself. */
  lemma ConvertedTwice(render: Renderer, value: string)
    requires !IsBlank(value) && !LooksLikeHtml(value)
    ensures Converted(render, Converted(render, Some(value))) == Some(render(value)) <==>
              Recognised(render, value) || render(render(value)) == render(value)
  {
  }

  // ---- runs with crashes ------------------------------------------------------------

  datatype Phase = AddColumn | Rows(next: nat) | Keys(next: nat) | Mark | Record | End

  /** A running revision; `saved` is the database as of the last commit. Recording the revision commits the rest. */
  datatype Config = Config(db: Database, saved: Database, phase: Phase)

  function Step(render: Renderer, c: Config): Config {
    match c.phase
    case AddColumn =>
      var db := c.db.(column := true);
      Config(db, if c.db.column then c.saved else db, Rows(0))
    case Rows(i) =>
      if i < |c.db.rows| then
        c.(db := c.db.(rows := c.db.rows[i := Filled(render, c.db.rows[i])]), phase := Rows(i + 1))
      else c.(phase := if c.db.marker then Record else Keys(0))
    case Keys(i) =>
      if i < |LEGAL_KEYS| then
        var k := LEGAL_KEYS[i];
        if k in c.db.values then
          c.(db := c.db.(values := c.db.values[k := Converted(render, c.db.values[k])]), phase := Keys(i + 1))
        else c.(phase := Keys(i + 1))
      else c.(phase := Mark)
    case Mark => c.(db := c.db.(marker := true), phase := Record)
    case Record => Config(c.db, c.db, End)
    case End => c
  }

  /**
   * A statement; a crash that keeps or loses what was not committed; once finished, an administrator's
   * edit of any legal value to anything, and a replay of the revision.
   */
  datatype Event = Advance | CrashKeeping | CrashLosing | Edit(key: string, value: string) | Replay

  function Next(render: Renderer, c: Config, e: Event): Config {
    match e
    case Advance => Step(render, c)
    case CrashKeeping => Config(c.db, c.db, AddColumn)
    case CrashLosing => Config(c.saved, c.saved, AddColumn)
    case Edit(k, v) =>
      if c.phase.End? then
        var db := c.db.(values := c.db.values[k := Some(v)]);
        Config(db, db, End)
      else c
    case Replay => if c.phase.End? then Config(c.db, c.db, AddColumn) else c
  }

  function Run(render: Renderer, c: Config, events: seq<Event>): Config
    decreases |events|
  {
    if events == [] then c else Run(render, Next(render, c, events[0]), events[1..])
  }

  // ---- rendered exactly once --------------------------------------------------------

  /** The values before the revision: no marker, no HTML yet, and renderings are recognised. */
  predicate Fresh(render: Renderer, db: Database) {
    && !db.marker && !db.column
    && (forall i :: 0 <= i < |db.rows| ==> db.rows[i].html.None?)
    && forall k :: k in LEGAL_KEYS && k in db.values && db.values[k].Some? ==>
         IsBlank(db.values[k].value) || (!LooksLikeHtml(db.values[k].value) && Recognised(render, db.values[k].value))
  }

  /** A legal value is still its original or one rendering of it; other settings are untouched. */
  predicate OnceAtMost(render: Renderer, original: Database, db: Database) {
    && db.values.Keys == original.values.Keys
    && forall k :: k in original.values ==>
         || db.values[k] == original.values[k]
         || (k in LEGAL_KEYS && db.values[k] == Converted(render, original.values[k]))
  }

  predicate DoneUpTo(render: Renderer, original: Database, db: Database, n: nat) {
    forall i :: 0 <= i < n && i < |LEGAL_KEYS| && LEGAL_KEYS[i] in original.values ==>
      LEGAL_KEYS[i] in db.values && db.values[LEGAL_KEYS[i]] == Converted(render, original.values[LEGAL_KEYS[i]])
  }

  predicate RowsOnce(render: Renderer, original: Database, db: Database) {
    && |db.rows| == |original.rows|
    && forall i :: 0 <= i < |db.rows| ==> db.rows[i] == original.rows[i] || db.rows[i] == Filled(render, original.rows[i])
  }

  predicate RowsDone(render: Renderer, original: Database, db: Database, n: nat) {
    |db.rows| == |original.rows| && forall i :: 0 <= i < n && i < |db.rows| ==> db.rows[i] == Filled(render, original.rows[i])
  }

  predicate DbInv(render: Renderer, original: Database, db: Database) {
    && RowsOnce(render, original, db)
    && (!db.marker ==> OnceAtMost(render, original, db))
  }

  /** Every legal value has been rendered once, and nothing else has changed. */
  predicate Rendered(render: Renderer, original: Database, db: Database) {
    OnceAtMost(render, original, db) && DoneUpTo(render, original, db, |LEGAL_KEYS|)
  }

  predicate Good(render: Renderer, original: Database, c: Config) {
    && DbInv(render, original, c.db) && DbInv(render, original, c.saved)
    && (c.saved.marker ==> c.db.marker && c.saved.values == c.db.values)
    && match c.phase
       case AddColumn => true
       case Rows(i) => RowsDone(render, original, c.db, i)
       case Keys(i) => !c.db.marker && RowsDone(render, original, c.db, |c.db.rows|) && DoneUpTo(render, original, c.db, i)
       case Mark => !c.db.marker && RowsDone(render, original, c.db, |c.db.rows|) && DoneUpTo(render, original, c.db, |LEGAL_KEYS|)
       case Record => c.db.marker && RowsDone(render, original, c.db, |c.db.rows|)
       case End => c.db.marker && RowsDone(render, original, c.db, |c.db.rows|) && c.saved == c.db
  }

  lemma KeysDiffer()
    ensures forall i, j :: 0 <= i < j < |LEGAL_KEYS| ==> LEGAL_KEYS[i] != LEGAL_KEYS[j]
  {
    assert LEGAL_KEYS[0][6] == 'i' && LEGAL_KEYS[1][6] == 'i' && LEGAL_KEYS[2][6] == 'p' && LEGAL_KEYS[3][6] == 'p';
    assert LEGAL_KEYS[0][14] == 'e' && LEGAL_KEYS[1][14] == 'd' && LEGAL_KEYS[2][14] == 'e' && LEGAL_KEYS[3][14] == 'd';
  }

  /** A value that was converted is recognised, so converting it again does nothing. */
  lemma ConvertedOnce(render: Renderer, original: Database, k: string)
    requires Fresh(render, original) && k in LEGAL_KEYS && k in original.values
    ensures Converted(render, Converted(render, original.values[k])) == Converted(render, original.values[k])
  {
    hide IsBlank, LooksLikeHtml;
  }

  lemma SameRows(render: Renderer, original: Database, db: Database, db': Database)
    requires db'.rows == db.rows
    ensures RowsOnce(render, original, db) ==> RowsOnce(render, original, db')
    ensures RowsDone(render, original, db, |db.rows|) ==> RowsDone(render, original, db', |db'.rows|)
  {
  }

  /** Converting the next legal value, which is its original or was converted already. */
  lemma KeyIsConverted(render: Renderer, original: Database, db: Database, i: nat)
    requires Fresh(render, original) && OnceAtMost(render, original, db) && DoneUpTo(render, original, db, i)
    requires i < |LEGAL_KEYS| && LEGAL_KEYS[i] in db.values
    ensures var db' := db.(values := db.values[LEGAL_KEYS[i] := Converted(render, db.values[LEGAL_KEYS[i]])]);
            OnceAtMost(render, original, db') && DoneUpTo(render, original, db', i + 1)
  {
    hide Converted, Fresh, LEGAL_KEYS;
    assert LEGAL_KEYS[i] in LEGAL_KEYS;
    ConvertedOnce(render, original, LEGAL_KEYS[i]);
    KeysDiffer();
  }

  lemma KeyStepKeepsGood(render: Renderer, original: Database, c: Config)
    requires Fresh(render, original) && Good(render, original, c) && c.phase.Keys?
    ensures Good(render, original, Step(render, c))
  {
    hide Converted, RowsOnce, RowsDone, Fresh, OnceAtMost, LEGAL_KEYS;
    var i := c.phase.next;
    SameRows(render, original, c.db, Step(render, c).db);
    if i < |LEGAL_KEYS| && LEGAL_KEYS[i] in c.db.values {
      KeyIsConverted(render, original, c.db, i);
    } else if i < |LEGAL_KEYS| {
      SameKeys(render, original, c.db, LEGAL_KEYS[i]);
    }
  }

  lemma SameKeys(render: Renderer, original: Database, db: Database, k: string)
    requires OnceAtMost(render, original, db)
    ensures k in db.values <==> k in original.values
  {
  }

  lemma StepKeepsGood(render: Renderer, original: Database, c: Config)
    requires Fresh(render, original) && Good(render, original, c)
    ensures Good(render, original, Step(render, c))
  {
    hide Converted, Fresh, LEGAL_KEYS;
    if c.phase.Keys? {
      KeyStepKeepsGood(render, original, c);
    } else if c.phase.Rows? {
      RowStepKeepsGood(render, original, c);
    }
  }

  lemma RowStepKeepsGood(render: Renderer, original: Database, c: Config)
    requires Good(render, original, c) && c.phase.Rows?
    ensures Good(render, original, Step(render, c))
  {
    hide Converted, LEGAL_KEYS;
  }

  lemma {:induction false} RunKeepsGood(render: Renderer, original: Database, c: Config, events: seq<Event>)
    requires Fresh(render, original) && Good(render, original, c)
    ensures Good(render, original, Run(render, c, events))
    decreases |events|
  {
    if events != [] {
      if events[0].Advance? {
        StepKeepsGood(render, original, c);
      }
      RunKeepsGood(render, original, Next(render, c, events[0]), events[1..]);
    }
  }

  function Start(db: Database): Config {
    Config(db, db, AddColumn)
  }

  predicate NoEdits(events: seq<Event>) {
    forall e :: e in events ==> !e.Edit?
  }

  /**
   * Over any crashes and replays a legal value is its original or one rendering of it, never a rendering
   * of a rendering, and every template row has at most the one rendering of its Markdown.
   */
  lemma NeverRenderedTwice(render: Renderer, original: Database, events: seq<Event>)
    requires Fresh(render, original)
    ensures var db := Run(render, Start(original), events).db;
            && RowsOnce(render, original, db)
            && (!db.marker ==> OnceAtMost(render, original, db))
  {
    RunKeepsGood(render, original, Start(original), events);
  }

  lemma {:induction false} RunKeepsRendered(render: Renderer, original: Database, c: Config, events: seq<Event>)
    requires Fresh(render, original) && Good(render, original, c) && NoEdits(events)
    requires c.db.marker ==> Rendered(render, original, c.db)
    requires c.saved.marker ==> Rendered(render, original, c.saved)
    ensures var end := Run(render, c, events);
            Good(render, original, end) && (end.db.marker ==> Rendered(render, original, end.db))
    decreases |events|
  {
    hide Converted, Filled, Fresh, LEGAL_KEYS, RowsOnce, RowsDone;
    if events != [] {
      assert events[0] in events;
      if events[0].Advance? {
        StepKeepsGood(render, original, c);
      }
      assert forall e :: e in events[1..] ==> e in events;
      RunKeepsRendered(render, original, Next(render, c, events[0]), events[1..]);
    }
  }

  /**
   * Whatever crashed before, at the end every template carries the rendering of its Markdown, a missing one
   * read as empty, every legal value that is not blank has become its one rendering, and nothing else changed.
   */
  lemma FinishedMeansRenderedOnce(render: Renderer, original: Database, events: seq<Event>)
    requires Fresh(render, original) && NoEdits(events)
    requires Run(render, Start(original), events).phase.End?
    ensures var db := Run(render, Start(original), events).db;
            && db.marker && Rendered(render, original, db) && RowsDone(render, original, db, |db.rows|)
    ensures var db := Run(render, Start(original), events).db;
            && |db.rows| == |original.rows|
            && forall i :: 0 <= i < |db.rows| ==>
                 && db.rows[i].markdown == original.rows[i].markdown
                 && db.rows[i].html == Some(render(if original.rows[i].markdown.Some? then original.rows[i].markdown.value else ""))
    ensures var db := Run(render, Start(original), events).db;
            db.values == map k | k in original.values ::
              if k in ["legal.imprint_en", "legal.imprint_de", "legal.privacy_en", "legal.privacy_de"]
                 && original.values[k].Some? && Strip(original.values[k].value) != ""
              then Some(render(original.values[k].value)) else original.values[k]
  {
    RunKeepsRendered(render, original, Start(original), events);
    RenderedIs(render, original, Run(render, Start(original), events).db);
  }

  lemma RenderedIs(render: Renderer, original: Database, db: Database)
    requires Fresh(render, original) && Rendered(render, original, db) && RowsDone(render, original, db, |db.rows|)
    ensures |db.rows| == |original.rows| && forall i :: 0 <= i < |db.rows| ==>
              && db.rows[i].markdown == original.rows[i].markdown
              && db.rows[i].html == Some(render(if original.rows[i].markdown.Some? then original.rows[i].markdown.value else ""))
    ensures db.values == map k | k in original.values ::
              if k in ["legal.imprint_en", "legal.imprint_de", "legal.privacy_en", "legal.privacy_de"]
                 && original.values[k].Some? && Strip(original.values[k].value) != ""
              then Some(render(original.values[k].value)) else original.values[k]
  {
    hide LooksLikeHtml;
    forall k | k in LEGAL_KEYS && k in original.values ensures db.values[k] == Converted(render, original.values[k]) {
      var i :| 0 <= i < |LEGAL_KEYS| && LEGAL_KEYS[i] == k;
    }
  }

  /** Once the marker is committed no run changes a legal value, whatever it contains. */
  lemma {:induction false} MarkerProtects(render: Renderer, c: Config, events: seq<Event>)
    requires c.db.marker && c.saved.marker && c.saved.values == c.db.values && NoEdits(events)
    requires !c.phase.Keys? && !c.phase.Mark?
    ensures Run(render, c, events).db.values == c.db.values && Run(render, c, events).db.marker
    decreases |events|
  {
    if events != [] {
      assert events[0] in events;
      assert forall e :: e in events[1..] ==> e in events;
      MarkerProtects(render, Next(render, c, events[0]), events[1..]);
    }
  }

  // ---- the revision itself ----------------------------------------------------------

  /** The database an uninterrupted run leaves. */
  function Upgraded(render: Renderer, db: Database): Database {
    Database(
      if db.marker then db.values
      else map k | k in db.values :: if k in LEGAL_KEYS then Converted(render, db.values[k]) else db.values[k],
      true,
      seq(|db.rows|, i requires 0 <= i < |db.rows| => Filled(render, db.rows[i])),
      true)
  }

  /** The steps left before the revision is recorded. */
  function Left(c: Config): nat {
    var keys := |LEGAL_KEYS| + 3;
    match c.phase
    case AddColumn => |c.db.rows| + keys + 2
    case Rows(i) => (if i < |c.db.rows| then |c.db.rows| - i else 0) + keys + 1
    case Keys(i) => (if i < |LEGAL_KEYS| then |LEGAL_KEYS| - i else 0) + 3
    case Mark => 2
    case Record => 1
    case End => 0
  }

  function Advances(n: nat): seq<Event> {
    if n == 0 then [] else [Advance] + Advances(n - 1)
  }

  /** `now` is what the phase has made of `before` so far. */
  predicate Halfway(render: Renderer, before: Database, now: Database, phase: Phase) {
    var up := Upgraded(render, before);
    && now.values.Keys == before.values.Keys && |now.rows| == |before.rows|
    && match phase
       case AddColumn => now == before
       case Rows(i) =>
         && now.values == before.values && now.marker == before.marker && now.column && i <= |now.rows|
         && (forall j :: 0 <= j < |now.rows| ==> now.rows[j] == if j < i then up.rows[j] else before.rows[j])
       case Keys(i) =>
         && !before.marker && !now.marker && now.column && now.rows == up.rows && i <= |LEGAL_KEYS|
         && (forall k :: k in before.values ==>
               now.values[k] == if k in LEGAL_KEYS[..i] then up.values[k] else before.values[k])
       case Mark => !before.marker && now == up.(marker := false)
       case Record => now == up
       case End => now == up
  }

  lemma StepGoesHalfway(render: Renderer, before: Database, c: Config)
    requires Halfway(render, before, c.db, c.phase)
    ensures Halfway(render, before, Step(render, c).db, Step(render, c).phase)
    ensures !c.phase.End? ==> Left(Step(render, c)) < Left(c)
  {
    hide Converted, Filled;
    var up, c' := Upgraded(render, before), Step(render, c);
    match c.phase
    case Rows(i) =>
      if i >= |c.db.rows| {
        assert c.db.rows == up.rows;
        assert LEGAL_KEYS[..0] == [];
        if c.db.marker {
          assert c'.db == up;
        }
      }
    case Keys(i) => KeyGoesHalfway(render, before, c);
    case _ =>
  }

  lemma KeyGoesHalfway(render: Renderer, before: Database, c: Config)
    requires Halfway(render, before, c.db, c.phase) && c.phase.Keys?
    ensures Halfway(render, before, Step(render, c).db, Step(render, c).phase)
  {
    hide Converted, Filled, LEGAL_KEYS;
    var i := c.phase.next;
    if i < |LEGAL_KEYS| {
      assert LEGAL_KEYS[..i + 1] == LEGAL_KEYS[..i] + [LEGAL_KEYS[i]];
      KeysDiffer();
    } else {
      assert LEGAL_KEYS[..i] == LEGAL_KEYS;
      assert Step(render, c).db.values == Upgraded(render, before).values;
    }
  }

  /** HTML that is there stays as it is, NULL becomes the rendering of the Markdown, and the Markdown stays. */
  ghost predicate RowsUpgraded(render: Renderer, before: seq<Row>, now: seq<Row>) {
    && |now| == |before|
    && forall i :: 0 <= i < |now| ==>
         && now[i].markdown == before[i].markdown
         && (before[i].html.Some? ==> now[i].html == before[i].html)
         && (before[i].html.None? ==> now[i].html == Some(render(if before[i].markdown.Some? then before[i].markdown.value else "")))
  }

  /** An uninterrupted run of the steps reaches the end, and there the database is the upgraded one. */
  lemma {:induction false} StepsUpgrade(render: Renderer, before: Database, c: Config) returns (n: nat)
    requires Halfway(render, before, c.db, c.phase)
    ensures Run(render, c, Advances(n)).phase.End? && Run(render, c, Advances(n)).db == Upgraded(render, before)
    ensures RowsUpgraded(render, before.rows, Run(render, c, Advances(n)).db.rows)
    decreases Left(c)
  {
    if c.phase.End? {
      n := 0;
    } else {
      StepGoesHalfway(render, before, c);
      var m := StepsUpgrade(render, before, Step(render, c));
      n := m + 1;
      assert Advances(n)[0] == Advance && Advances(n)[1..] == Advances(m);
    }
  }

  class Settings {
    var values: map<string, Option<string>>
    var marker: bool
    var rows: seq<Row>
    var column: bool

    constructor (db: Database)
      ensures State() == db
    {
      values, marker, rows, column := db.values, db.marker, db.rows, db.column;
    }

    function State(): Database
      reads this
    {
      Database(values, marker, rows, column)
    }

    method Upgrade(render: Renderer)
      modifies this
      ensures State() == Upgraded(render, old(State()))
      ensures RowsUpgraded(render, old(rows), rows) && marker && column
      ensures values == map k | k in old(values) ::
                if !old(marker) && k in ["legal.imprint_en", "legal.imprint_de", "legal.privacy_en", "legal.privacy_de"]
                   && old(values)[k].Some? && Strip(old(values)[k].value) != "" && !LooksLikeHtml(old(values)[k].value)
                then Some(render(old(values)[k].value)) else old(values)[k]
    {
      ghost var before := State();
      ghost var up := Upgraded(render, before);
      if !column {
        column := true;
      }
      for i := 0 to |rows|
        invariant |rows| == |before.rows| && column && values == before.values && marker == before.marker
        invariant forall j :: 0 <= j < |rows| ==> rows[j] == if j < i then up.rows[j] else before.rows[j]
      {
        if rows[i].html.None? {
          var markdown := if rows[i].markdown.Some? then rows[i].markdown.value else "";
          rows := rows[i := rows[i].(html := Some(render(markdown)))];
        }
      }
      assert rows == up.rows;
      if marker {
        return;
      }
      ConvertLegal(render);
      marker := true;
      assert values == up.values;
    }

    method ConvertLegal(render: Renderer)
      modifies this`values
      ensures values == map k | k in old(values) ::
                          if k in LEGAL_KEYS then Converted(render, old(values)[k]) else old(values)[k]
    {
      hide IsBlank, LooksLikeHtml;
      ghost var before := values;
      for i := 0 to |LEGAL_KEYS|
        invariant values.Keys == before.Keys
        invariant forall k :: k in before ==>
                    values[k] == if k in LEGAL_KEYS[..i] then Converted(render, before[k]) else before[k]
      {
        var key := LEGAL_KEYS[i];
        KeysDiffer();
        assert LEGAL_KEYS[..i + 1] == LEGAL_KEYS[..i] + [key];
        if key !in values || values[key].None? || IsBlank(values[key].value) || LooksLikeHtml(values[key].value) {
          continue;
        }
        values := values[key := Some(render(values[key].value))];
      }
      assert LEGAL_KEYS[..|LEGAL_KEYS|] == LEGAL_KEYS;
    }
  }
}
