/** Re-encryption of every protected field under a new secret, in one transaction. */
module SecretRotation {
  import opened Text

  /** A ciphertext, or bytes that no key opens. */
  datatype Token = Sealed(key: string, plain: string, nonce: nat) | Unreadable(raw: string)

  /** A stored field. `NonAscii` is text that cannot be encoded, which only a text column can hold. */
  datatype Field = Null | Blank | Held(token: Token) | NonAscii(text: string)

  function Decrypt(key: string, t: Token): Option<string> {
    if t.Sealed? && t.key == key then Some(t.plain) else None
  }

  function Encrypt(key: string, plain: string, nonce: nat): Token {
    Sealed(key, plain, nonce)
  }

  datatype Status = Rotated | Already | Skipped | Error
  datatype Stats = Stats(rotated: nat, already: nat, empty: nat, errors: nat)

  /** The two secrets in force during a run; every encryption of a run draws its own nonce. */
  datatype Keys = Keys(current: string, next: string)

  predicate Raises(f: Field, isBytes: bool) {
    f.NonAscii? && !isBytes
  }

  function Classify(k: Keys, f: Field): Status {
    match f
    case Null => Skipped
    case Blank => Skipped
    case Held(t) => if Decrypt(k.current, t).Some? then Rotated else if Decrypt(k.next, t).Some? then Already else Error
    case NonAscii(_) => Error
  }

  function Rewrap(k: Keys, f: Field, nonce: nat): Field {
    if Classify(k, f) == Rotated then Held(Encrypt(k.next, Decrypt(k.current, f.token).value, nonce)) else f
  }

  /** The plaintext a field yields under either key. */
  function Plaintext(k: Keys, f: Field): Option<string> {
    if !f.Held? then None
    else if Decrypt(k.current, f.token).Some? then Decrypt(k.current, f.token)
    else Decrypt(k.next, f.token)
  }

  function RewrapAll(k: Keys, rows: seq<Field>, nonce: nat -> nat): seq<Field> {
    seq(|rows|, i requires 0 <= i < |rows| => Rewrap(k, rows[i], nonce(i)))
  }

  function Tally(k: Keys, rows: seq<Field>, s: Status): nat {
    if rows == [] then 0 else Tally(k, rows[..|rows| - 1], s) + if Classify(k, rows[|rows| - 1]) == s then 1 else 0
  }

  function StatsOf(k: Keys, rows: seq<Field>): Stats {
    Stats(Tally(k, rows, Rotated), Tally(k, rows, Already), Tally(k, rows, Skipped), Tally(k, rows, Error))
  }

  /** One pass moves a readable field under the new key with its plaintext, and leaves any other alone. */
  lemma RewrapMeaning(k: Keys, f: Field, nonce: nat)
    ensures Plaintext(k, f).Some? ==>
              Rewrap(k, f, nonce).Held? && Decrypt(k.next, Rewrap(k, f, nonce).token) == Plaintext(k, f)
    ensures Plaintext(k, f).None? ==> Rewrap(k, f, nonce) == f
    ensures Classify(k, f) == Already ==> Rewrap(k, f, nonce) == f
  {
  }

  lemma {:induction false} TallyPartitions(k: Keys, rows: seq<Field>)
    ensures Tally(k, rows, Rotated) + Tally(k, rows, Already) + Tally(k, rows, Skipped) + Tally(k, rows, Error) == |rows|
  {
    if rows != [] {
      TallyPartitions(k, rows[..|rows| - 1]);
    }
  }

  lemma {:induction false} NoneTallied(k: Keys, rows: seq<Field>, s: Status)
    requires forall i :: 0 <= i < |rows| ==> Classify(k, rows[i]) != s
    ensures Tally(k, rows, s) == 0
  {
    if rows != [] {
      NoneTallied(k, rows[..|rows| - 1], s);
    }
  }

  lemma RewrapTwice(k: Keys, f: Field, nonce: nat, again: nat)
    requires k.current != k.next
    ensures Rewrap(k, Rewrap(k, f, nonce), again) == Rewrap(k, f, nonce)
    ensures Classify(k, Rewrap(k, f, nonce)) == if Classify(k, f) == Rotated then Already else Classify(k, f)
  {
  }

  /** The field after a pass reads as before under the new key alone, or is the field that was there. */
  predicate Carried(k: Keys, before: Field, after: Field) {
    if Plaintext(k, before).Some? then after.Held? && Decrypt(k.next, after.token) == Plaintext(k, before)
    else after == before
  }

  /** After one pass over a table every field is carried over, and a second pass rotates and changes nothing. */
  lemma TableConverges(k: Keys, rows: seq<Field>, nonce: nat -> nat, again: nat -> nat)
    requires k.current != k.next
    ensures |RewrapAll(k, rows, nonce)| == |rows|
    ensures forall i :: 0 <= i < |rows| ==> Carried(k, rows[i], RewrapAll(k, rows, nonce)[i])
    ensures RewrapAll(k, RewrapAll(k, rows, nonce), again) == RewrapAll(k, rows, nonce)
    ensures Tally(k, RewrapAll(k, rows, nonce), Rotated) == 0
    ensures Tally(k, RewrapAll(k, rows, nonce), Error) == Tally(k, rows, Error)
  {
    var once := RewrapAll(k, rows, nonce);
    var twice := RewrapAll(k, once, again);
    forall i | 0 <= i < |rows|
      ensures Carried(k, rows[i], once[i]) && twice[i] == once[i] && Classify(k, once[i]) != Rotated
    {
      RewrapMeaning(k, rows[i], nonce(i));
      RewrapTwice(k, rows[i], nonce(i), again(i));
    }
    assert twice == once;
    NoneTallied(k, once, Rotated);
    SameErrors(k, rows, nonce);
  }

  lemma {:induction false} SameErrors(k: Keys, rows: seq<Field>, nonce: nat -> nat)
    requires k.current != k.next
    ensures Tally(k, RewrapAll(k, rows, nonce), Error) == Tally(k, rows, Error)
  {
    if rows != [] {
      var n := |rows| - 1;
      SameErrors(k, rows[..n], nonce);
      assert RewrapAll(k, rows, nonce)[..n] == RewrapAll(k, rows[..n], nonce);
      RewrapTwice(k, rows[n], nonce(n), 0);
    }
  }

  // ---- a table in place -------------------------------------------------------------

  method RotateField(k: Keys, f: Field, nonce: nat) returns (value: Field, status: Status)
    ensures value == Rewrap(k, f, nonce) && status == Classify(k, f)
    ensures status == Skipped <==> f == Null || f == Blank
    ensures status == Rotated <==> f.Held? && f.token.Sealed? && f.token.key == k.current
    ensures status == Already <==> f.Held? && f.token.Sealed? && f.token.key == k.next && k.next != k.current
    ensures value == if status == Rotated then Held(Sealed(k.next, f.token.plain, nonce)) else f
  {
    if !f.Held? {
      return f, if f.NonAscii? then Error else Skipped;
    }
    var plaintext := Decrypt(k.current, f.token);
    if plaintext.None? {
      return f, if Decrypt(k.next, f.token).Some? then Already else Error;
    }
    return Held(Encrypt(k.next, plaintext.value, nonce)), Rotated;
  }

  method Record(stats: Stats, status: Status) returns (s: Stats)
    ensures s == stats.(
              rotated := stats.rotated + if status == Rotated then 1 else 0,
              already := stats.already + if status == Already then 1 else 0,
              empty := stats.empty + if status == Skipped then 1 else 0,
              errors := stats.errors + if status == Error then 1 else 0)
  {
    match status
    case Rotated => s := stats.(rotated := stats.rotated + 1);
    case Already => s := stats.(already := stats.already + 1);
    case Skipped => s := stats.(empty := stats.empty + 1);
    case Error => s := stats.(errors := stats.errors + 1);
  }

  predicate Encodable(rows: seq<Field>, isBytes: bool) {
    forall i :: 0 <= i < |rows| ==> !Raises(rows[i], isBytes)
  }

  /** Rewrites the loaded rows of one table; it raises at a text field that cannot be encoded. */
  method RotateTable(rows: array<Field>, isBytes: bool, k: Keys, nonce: nat -> nat) returns (stats: Stats, raised: bool)
    modifies rows
    ensures raised <==> !Encodable(old(rows[..]), isBytes)
    ensures !raised ==> rows[..] == RewrapAll(k, old(rows[..]), nonce) && stats == StatsOf(k, old(rows[..]))
  {
    stats, raised := Stats(0, 0, 0, 0), false;
    ghost var before := rows[..];
    for i := 0 to rows.Length
      invariant forall j :: 0 <= j < i ==> rows[j] == Rewrap(k, before[j], nonce(j)) && !Raises(before[j], isBytes)
      invariant forall j :: i <= j < rows.Length ==> rows[j] == before[j]
      invariant stats == StatsOf(k, before[..i])
    {
      if Raises(rows[i], isBytes) {
        return stats, true;
      }
      var value, status := RotateField(k, rows[i], nonce(i));
      if status == Rotated {
        rows[i] := value;
      }
      assert before[..i + 1][..i] == before[..i];
      stats := Record(stats, status);
    }
    assert before[..rows.Length] == before;
    assert rows[..] == RewrapAll(k, before, nonce);
  }

  // ---- the whole run ----------------------------------------------------------------

  datatype Table = Table(isBytes: bool, rows: seq<Field>)
  datatype Outcome = Exit(code: nat) | Raised

  function RotatedTable(k: Keys, table: Table, nonce: nat -> nat): Table {
    table.(rows := RewrapAll(k, table.rows, nonce))
  }

  function RotatedStore(k: Keys, tables: seq<Table>, nonce: nat -> nat -> nat): seq<Table> {
    seq(|tables|, t requires 0 <= t < |tables| => RotatedTable(k, tables[t], nonce(t)))
  }

  predicate AllEncodable(tables: seq<Table>) {
    forall t :: 0 <= t < |tables| ==> Encodable(tables[t].rows, tables[t].isBytes)
  }

  /** The number of held fields that neither key opens. */
  function Errors(k: Keys, tables: seq<Table>): nat {
    if tables == [] then 0
    else Errors(k, tables[..|tables| - 1]) + Tally(k, tables[|tables| - 1].rows, Error)
  }

  /** A field sealed under the current secret is sealed under the next one, with its plaintext; any other stays. */
  predicate IsMoved(k: Keys, was: Field, now: Field, nonce: nat) {
    if was.Held? && was.token.Sealed? && was.token.key == k.current then now == Held(Sealed(k.next, was.token.plain, nonce))
    else now == was
  }

  /** A held field that neither key opens, or bytes that are no token at all. */
  predicate Lost(k: Keys, f: Field) {
    f.NonAscii? || (f.Held? && !(f.token.Sealed? && (f.token.key == k.current || f.token.key == k.next)))
  }

  ghost function RowsWith(k: Keys, rows: seq<Field>, s: Status): set<nat> {
    set i: nat | i < |rows| && Classify(k, rows[i]) == s
  }

  /** The counts are counts of rows. */
  lemma {:induction false} TallyCounts(k: Keys, rows: seq<Field>, s: Status)
    ensures Tally(k, rows, s) == |RowsWith(k, rows, s)|
  {
    hide Classify;
    if rows != [] {
      var n := |rows| - 1;
      TallyCounts(k, rows[..n], s);
      var rest := RowsWith(k, rows[..n], s);
      assert RowsWith(k, rows, s) == rest + if Classify(k, rows[n]) == s then {n} else {};
    }
  }

  lemma {:induction false} LostIsCounted(k: Keys, rows: seq<Field>)
    ensures Tally(k, rows, Error) > 0 <==> exists i :: 0 <= i < |rows| && Lost(k, rows[i])
  {
    if rows != [] {
      var n := |rows| - 1;
      LostIsCounted(k, rows[..n]);
      assert forall i :: 0 <= i < n ==> rows[..n][i] == rows[i];
    }
  }

  lemma {:induction false} LostIsAnError(k: Keys, tables: seq<Table>)
    ensures Errors(k, tables) > 0 <==>
              exists t, i :: 0 <= t < |tables| && 0 <= i < |tables[t].rows| && Lost(k, tables[t].rows[i])
  {
    hide Lost;
    if tables != [] {
      var n := |tables| - 1;
      LostIsAnError(k, tables[..n]);
      LostIsCounted(k, tables[n].rows);
      assert forall t :: 0 <= t < n ==> tables[..n][t] == tables[t];
    }
  }

  predicate Usable(k: Keys) {
    k.current != "" && k.next != "" && k.current != k.next
  }

  /** Loads the rows of a table and rotates them in memory. */
  method RotateLoaded(table: Table, k: Keys, nonce: nat -> nat) returns (rotated: Table, errors: nat, raised: bool)
    ensures raised <==> !Encodable(table.rows, table.isBytes)
    ensures !raised ==> rotated == RotatedTable(k, table, nonce) && errors == Tally(k, table.rows, Error)
  {
    var loaded := new Field[|table.rows|](i requires 0 <= i < |table.rows| => table.rows[i]);
    assert loaded[..] == table.rows;
    var stats;
    stats, raised := RotateTable(loaded, table.isBytes, k, nonce);
    return table.(rows := loaded[..]), stats.errors, raised;
  }

  /** All tables in turn; the first one that raises ends the pass. */
  method RotateTables(tables: seq<Table>, k: Keys, nonce: nat -> nat -> nat)
    returns (pending: seq<Table>, totalErrors: nat, raised: bool)
    ensures raised <==> !AllEncodable(tables)
    ensures !raised ==> pending == RotatedStore(k, tables, nonce) && totalErrors == Errors(k, tables)
  {
    hide RotatedTable, Encodable, Tally;
    pending, totalErrors := [], 0;
    for t := 0 to |tables|
      invariant |pending| == t && forall j :: 0 <= j < t ==> pending[j] == RotatedTable(k, tables[j], nonce(j))
      invariant AllEncodable(tables[..t])
      invariant totalErrors == Errors(k, tables[..t])
    {
      var rotated, errors;
      rotated, errors, raised := RotateLoaded(tables[t], k, nonce(t));
      if raised {
        return;
      }
      assert tables[..t + 1] == tables[..t] + [tables[t]];
      totalErrors := totalErrors + errors;
      pending := pending + [rotated];
    }
    assert tables[..|tables|] == tables;
    raised := false;
  }

  lemma RotatedRows(k: Keys, tables: seq<Table>, nonce: nat -> nat -> nat)
    ensures var now := RotatedStore(k, tables, nonce);
            && |now| == |tables|
            && (forall t :: 0 <= t < |now| ==> now[t].isBytes == tables[t].isBytes && |now[t].rows| == |tables[t].rows|)
            && (forall t, i :: 0 <= t < |now| && 0 <= i < |now[t].rows| ==> IsMoved(k, tables[t].rows[i], now[t].rows[i], nonce(t)(i)))
  {
    hide IsMoved, RewrapAll;
    var now := RotatedStore(k, tables, nonce);
    forall t | 0 <= t < |now|
      ensures now[t].isBytes == tables[t].isBytes && |now[t].rows| == |tables[t].rows|
      ensures forall i :: 0 <= i < |now[t].rows| ==> IsMoved(k, tables[t].rows[i], now[t].rows[i], nonce(t)(i))
    {
      TableMoves(k, tables[t].rows, nonce(t));
    }
  }

  lemma TableMoves(k: Keys, rows: seq<Field>, nonce: nat -> nat)
    ensures |RewrapAll(k, rows, nonce)| == |rows|
    ensures forall i :: 0 <= i < |rows| ==> IsMoved(k, rows[i], RewrapAll(k, rows, nonce)[i], nonce(i))
  {
  }

  class Vault {
    var tables: seq<Table>

    constructor (tables: seq<Table>)
      ensures this.tables == tables
    {
      this.tables := tables;
    }

    /** Both secrets must be set and differ; then everything is committed at once at the end, or nothing is. */
    method RotateSecrets(oldSecret: string, newSecret: string, dryRun: bool, nonce: nat -> nat -> nat) returns (out: Outcome)
      modifies this
      ensures var k := Keys(Strip(oldSecret), Strip(newSecret));
              && out == (if !Usable(k) then Exit(2)
                         else if !AllEncodable(old(tables)) then Raised
                         else Exit(if Errors(k, old(tables)) > 0 then 1 else 0))
              && tables == if Usable(k) && out != Raised && !dryRun then RotatedStore(k, old(tables), nonce) else old(tables)
      ensures out == Exit(2) <==> Strip(oldSecret) == "" || Strip(newSecret) == "" || Strip(oldSecret) == Strip(newSecret)
      ensures out == Raised <==> out != Exit(2) && exists t, i ::
                0 <= t < |old(tables)| && 0 <= i < |old(tables)[t].rows| && old(tables)[t].rows[i].NonAscii? && !old(tables)[t].isBytes
      ensures out == Exit(1) <==> out != Exit(2) && out != Raised && exists t, i ::
                0 <= t < |old(tables)| && 0 <= i < |old(tables)[t].rows|
                && Lost(Keys(Strip(oldSecret), Strip(newSecret)), old(tables)[t].rows[i])
      ensures out == Exit(2) || out == Raised || dryRun ==> tables == old(tables)
      ensures out != Exit(2) && out != Raised && !dryRun ==>
                && |tables| == |old(tables)|
                && (forall t :: 0 <= t < |tables| ==>
                      tables[t].isBytes == old(tables)[t].isBytes && |tables[t].rows| == |old(tables)[t].rows|)
                && (forall t, i :: 0 <= t < |tables| && 0 <= i < |tables[t].rows| ==>
                      IsMoved(Keys(Strip(oldSecret), Strip(newSecret)), old(tables)[t].rows[i], tables[t].rows[i], nonce(t)(i)))
    {
      hide Strip, Tally, Lost, IsMoved, RotatedStore;
      var k := Keys(Strip(oldSecret), Strip(newSecret));
      LostIsAnError(k, tables);
      RotatedRows(k, tables, nonce);
      if !Usable(k) {
        return Exit(2);
      }
      var pending, totalErrors, raised := RotateTables(tables, k, nonce);
      if raised {
        return Raised;
      }
      if !dryRun {
        tables := pending;
      }
      return Exit(if totalErrors > 0 then 1 else 0);
    }
  }

  /** A store that was rotated once does not change when it is rotated again, and has nothing left to rotate. */
  lemma StoreConverges(k: Keys, tables: seq<Table>, nonce: nat -> nat -> nat, again: nat -> nat -> nat)
    requires k.current != k.next
    ensures var once := RotatedStore(k, tables, nonce);
            && RotatedStore(k, once, again) == once
            && forall t :: 0 <= t < |once| ==> Tally(k, once[t].rows, Rotated) == 0
    ensures Errors(k, RotatedStore(k, tables, nonce)) == Errors(k, tables)
  {
    var once := RotatedStore(k, tables, nonce);
    var twice := RotatedStore(k, once, again);
    forall t | 0 <= t < |tables|
      ensures twice[t] == once[t] && Tally(k, once[t].rows, Rotated) == 0
    {
      TableConverges(k, tables[t].rows, nonce(t), again(t));
    }
    assert twice == once;
    ErrorsStay(k, tables, nonce);
  }

  lemma {:induction false} ErrorsStay(k: Keys, tables: seq<Table>, nonce: nat -> nat -> nat)
    requires k.current != k.next
    ensures Errors(k, RotatedStore(k, tables, nonce)) == Errors(k, tables)
  {
    if tables != [] {
      var n := |tables| - 1;
      ErrorsStay(k, tables[..n], nonce);
      assert RotatedStore(k, tables, nonce)[..n] == RotatedStore(k, tables[..n], nonce);
      SameErrors(k, tables[n].rows, nonce(n));
    }
  }
}
