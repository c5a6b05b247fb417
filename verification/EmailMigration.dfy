/**
 * The revision that replaces hashed e-mail columns by plain ones. Schema statements commit on their own
 * and the revision is only recorded at its end, so a crash anywhere restarts it on a half-changed schema.
 */
module EmailMigration {
  import opened Text

  datatype Column = Absent | Present(nullable: bool)

  /**
   * What the revision touches of a table: the e-mail column with its values by row id (None is NULL) and
   * its index, and the old hash and hint columns with the indexes that reference the hash.
   */
  datatype Table = Table(
    email: Column, emails: map<nat, Option<string>>, emailIndex: bool,
    hash: bool, hashIndexes: seq<string>, hint: bool)

  datatype Kind = Users | Invites | Attempts
  datatype Database = Database(users: Table, invites: Table, attempts: Table)

  function Get(db: Database, kind: Kind): Table {
    match kind case Users => db.users case Invites => db.invites case Attempts => db.attempts
  }

  function Put(db: Database, kind: Kind, t: Table): Database {
    match kind
    case Users => db.(users := t)
    case Invites => db.(invites := t)
    case Attempts => db.(attempts := t)
  }

  // ---- placeholders -----------------------------------------------------------------

  function Digit(d: nat): char
    requires d < 10
  {
    '0' + d as char
  }

  function Decimal(n: nat): (s: string)
    ensures s != ""
  {
    if n < 10 then [Digit(n)] else Decimal(n / 10) + [Digit(n % 10)]
  }

  lemma {:induction false} DecimalInjective(a: nat, b: nat)
    requires Decimal(a) == Decimal(b)
    ensures a == b
  {
    var p, q := Decimal(a), Decimal(b);
    assert p[|p| - 1] == Digit(a % 10) && q[|q| - 1] == Digit(b % 10);
    assert |p| == 1 <==> a < 10;
    assert |q| == 1 <==> b < 10;
    if a >= 10 {
      assert p[..|p| - 1] == Decimal(a / 10) && q[..|q| - 1] == Decimal(b / 10);
      DecimalInjective(a / 10, b / 10);
    }
  }

  function Placeholder(kind: Kind, id: nat): string {
    (if kind.Users? then "legacy-" else "legacy-invite-") + Decimal(id) + "@placeholder.invalid"
  }

  /** Two rows of a table never get the same placeholder. */
  lemma PlaceholderInjective(kind: Kind, a: nat, b: nat)
    requires Placeholder(kind, a) == Placeholder(kind, b)
    ensures a == b
  {
    var prefix := if kind.Users? then "legacy-" else "legacy-invite-";
    var p, q := Placeholder(kind, a), Placeholder(kind, b);
    var n := |"@placeholder.invalid"|;
    assert p[|prefix|..|p| - n] == Decimal(a);
    assert q[|prefix|..|q| - n] == Decimal(b);
    DecimalInjective(a, b);
  }

  // ---- the statements ---------------------------------------------------------------

  datatype Op = AddEmail | Backfill | Tighten | IndexEmail | DropHashIndex | DropHash | DropHint

  const OPS := [AddEmail, Backfill, Tighten, IndexEmail, DropHashIndex, DropHash, DropHint]
  const END := 21

  function KindAt(pc: nat): Kind {
    if pc < 7 then Users else if pc < 14 then Invites else Attempts
  }

  function OpAt(pc: nat): Op {
    OPS[pc % 7]
  }

  /** The statement's guard: whether it runs at all. */
  predicate Runs(op: Op, kind: Kind, t: Table) {
    match op
    case AddEmail => t.email.Absent?
    case Backfill => !kind.Attempts? && t.email.Present?
    case Tighten => !kind.Attempts? && t.email.Present? && t.email.nullable
    case IndexEmail => t.email.Present? && !t.emailIndex
    case DropHashIndex => t.hash && t.hashIndexes != []
    case DropHash => t.hash
    case DropHint => !kind.Attempts? && t.hint
  }

  predicate NoNulls(t: Table) {
    forall id :: id in t.emails ==> t.emails[id].Some?
  }

  predicate Distinct(t: Table) {
    forall a, b :: a in t.emails && b in t.emails && a != b && t.emails[a].Some? ==> t.emails[a] != t.emails[b]
  }

  /** The database refuses the statement. */
  predicate Fails(op: Op, kind: Kind, t: Table) {
    match op
    case Tighten => !NoNulls(t)
    case IndexEmail => kind.Users? && !Distinct(t)
    case DropHash => t.hashIndexes != []
    case _ => false
  }

  function Backfilled(kind: Kind, emails: map<nat, Option<string>>): map<nat, Option<string>> {
    map id | id in emails :: if emails[id].None? then Some(Placeholder(kind, id)) else emails[id]
  }

  function Execute(op: Op, kind: Kind, t: Table): Table
    requires Runs(op, kind, t)
  {
    match op
    case AddEmail => t.(email := Present(true), emails := map id | id in t.emails :: None)
    case Backfill => t.(emails := Backfilled(kind, t.emails))
    case Tighten => t.(email := Present(false))
    case IndexEmail => t.(emailIndex := true)
    case DropHashIndex => t.(hashIndexes := t.hashIndexes[1..])
    case DropHash => t.(hash := false)
    case DropHint => t.(hint := false)
  }

  // ---- runs with crashes ------------------------------------------------------------

  /** A running revision: what it sees, what would survive a crash, and its next statement. */
  datatype Config = Config(db: Database, saved: Database, pc: nat)

  /** One statement. Schema statements commit what came before; the backfill waits for the next of them. */
  function Step(c: Config): Config {
    if c.pc >= END then c
    else
      var kind, op := KindAt(c.pc), OpAt(c.pc);
      var t := Get(c.db, kind);
      if !Runs(op, kind, t) then c.(pc := c.pc + 1)
      else if Fails(op, kind, t) then c
      else
        var t' := Execute(op, kind, t);
        var db' := Put(c.db, kind, t');
        var saved' := if op.Backfill? then c.saved else db';
        Config(db', saved', if op.DropHashIndex? && t'.hashIndexes != [] then c.pc else c.pc + 1)
  }

  /** The e-mails the finished schema lets the application write: NOT NULL for users and invites, unique for users. */
  predicate LegalEmails(kind: Kind, emails: map<nat, Option<string>>) {
    && (!kind.Attempts? ==> forall id :: id in emails ==> emails[id].Some?)
    && (kind.Users? ==> forall a, b :: a in emails && b in emails && a != b ==> emails[a] != emails[b])
  }

  /**
   * What can happen next: a statement, a crash and restart, and, once finished, edits of any table by the
   * application and a replay of the whole revision.
   */
  datatype Event = Advance | Crash | Edit(kind: Kind, emails: map<nat, Option<string>>) | Replay

  function Next(c: Config, e: Event): Config {
    match e
    case Advance => Step(c)
    case Crash => Config(c.saved, c.saved, 0)
    case Edit(kind, emails) =>
      if c.pc == END && LegalEmails(kind, emails) then
        var db := Put(c.db, kind, Get(c.db, kind).(emails := emails));
        Config(db, db, END)
      else c
    case Replay => if c.pc == END then Config(c.db, c.db, 0) else c
  }

  function Run(c: Config, events: seq<Event>): Config
    decreases |events|
  {
    if events == [] then c else Run(Next(c, events[0]), events[1..])
  }

  // ---- the invariant ----------------------------------------------------------------

  /** The state before the revision: no e-mail column, the hash indexed by ordinary indexes. */
  predicate Original(db: Database) {
    forall kind: Kind :: var t := Get(db, kind);
      t.email.Absent? && !t.emailIndex && t.hash && "PRIMARY" !in t.hashIndexes
  }

  /** No filled e-mail equals another filled one, or the placeholder of a row that is still NULL. */
  predicate Placeable(kind: Kind, t: Table) {
    && Distinct(t)
    && forall a, b :: a in t.emails && b in t.emails && t.emails[a].Some? && t.emails[b].None? ==>
         t.emails[a].value != Placeholder(kind, b)
  }

  predicate TableInv(kind: Kind, t: Table) {
    && (t.email.Absent? ==> !t.emailIndex)
    && (t.email == Present(false) ==> !kind.Attempts? && NoNulls(t))
    && (kind.Users? && t.email.Present? ==> Placeable(kind, t))
    && (!t.hash ==> t.hashIndexes == [])
  }

  predicate Inv(db: Database) {
    TableInv(Users, db.users) && TableInv(Invites, db.invites) && TableInv(Attempts, db.attempts)
  }

  /** What statement `op` leaves behind for every later statement. */
  predicate Settled(op: Op, kind: Kind, t: Table) {
    match op
    case AddEmail => t.email.Present?
    case Backfill => kind.Attempts? || NoNulls(t)
    case Tighten => kind.Attempts? || t.email == Present(false)
    case IndexEmail => t.emailIndex
    case DropHashIndex => t.hashIndexes == []
    case DropHash => !t.hash
    case DropHint => kind.Attempts? || !t.hint
  }

  predicate SettledUpTo(db: Database, pc: nat) {
    forall k: nat :: k < pc && k < END ==> Settled(OpAt(k), KindAt(k), Get(db, KindAt(k)))
  }

  /** Nothing is waiting to be committed, except a backfill ahead of the NOT NULL that commits it. */
  predicate Durable(c: Config) {
    || c.saved == c.db
    || (c.pc < END && OpAt(c.pc) == Tighten && !KindAt(c.pc).Attempts? && Get(c.db, KindAt(c.pc)).email == Present(true))
  }

  predicate Good(c: Config) {
    Inv(c.db) && Inv(c.saved) && c.pc <= END && SettledUpTo(c.db, c.pc) && Durable(c)
  }

  /** The schema the revision exists to reach. */
  predicate Final(db: Database) {
    && (forall kind: Kind ::
          var t := Get(db, kind);
          t.email.Present? && t.emailIndex && !t.hash && t.hashIndexes == [])
    && db.users.email == Present(false) && NoNulls(db.users) && Distinct(db.users) && !db.users.hint
    && db.invites.email == Present(false) && NoNulls(db.invites) && !db.invites.hint
  }

  lemma BackfillIsPlaceable(kind: Kind, t: Table)
    requires Placeable(kind, t)
    ensures Placeable(kind, t.(emails := Backfilled(kind, t.emails)))
  {
    var filled := Backfilled(kind, t.emails);
    forall a, b | a in filled && b in filled && a != b ensures filled[a] != filled[b] {
      if t.emails[a].None? && t.emails[b].None? && filled[a] == filled[b] {
        PlaceholderInjective(kind, a, b);
      }
    }
  }

  function Rank(op: Op): nat {
    match op
    case AddEmail => 0 case Backfill => 1 case Tighten => 2 case IndexEmail => 3
    case DropHashIndex => 4 case DropHash => 5 case DropHint => 6
  }

  /** A statement keeps its table's invariant and everything settled by the statements before it. */
  lemma ExecuteKeeps(op: Op, kind: Kind, t: Table)
    requires TableInv(kind, t) && Runs(op, kind, t) && !Fails(op, kind, t)
    ensures TableInv(kind, Execute(op, kind, t))
    ensures (op.DropHashIndex? && |t.hashIndexes| > 1) || Settled(op, kind, Execute(op, kind, t))
    ensures forall earlier: Op ::
              Rank(earlier) < Rank(op) && Settled(earlier, kind, t) ==> Settled(earlier, kind, Execute(op, kind, t))
  {
    if op.Backfill? && kind.Users? {
      BackfillIsPlaceable(kind, t);
    }
  }

  lemma OpRanks(pc: nat)
    ensures Rank(OpAt(pc)) == pc % 7
  {
  }

  /** Once the statements before it are settled, no statement is refused, and a skipped one has nothing to do. */
  lemma NeverRefused(c: Config)
    requires Good(c) && c.pc < END
    ensures var op, kind := OpAt(c.pc), KindAt(c.pc);
            var t := Get(c.db, kind);
            && (Runs(op, kind, t) ==> !Fails(op, kind, t))
            && (!Runs(op, kind, t) ==> Settled(op, kind, t))
  {
    hide NoNulls, Distinct, Placeholder, Durable;
    var op, kind, first := OpAt(c.pc), KindAt(c.pc), c.pc - c.pc % 7;
    OpRanks(c.pc);
    forall k: nat | first <= k < c.pc ensures KindAt(k) == kind && Settled(OPS[k - first], kind, Get(c.db, kind)) {
      assert Settled(OpAt(k), KindAt(k), Get(c.db, KindAt(k)));
      assert k % 7 == k - first;
    }
    if Rank(op) >= 1 {
      assert Settled(OPS[0], kind, Get(c.db, kind)) by { assert KindAt(first) == kind; }
    }
    if Rank(op) >= 2 {
      assert Settled(OPS[1], kind, Get(c.db, kind)) by { assert KindAt(first + 1) == kind; }
    }
    if Rank(op) >= 5 {
      assert Settled(OPS[4], kind, Get(c.db, kind)) by { assert KindAt(first + 4) == kind; }
    }
  }

  /** The effect of a guarded statement that is not refused. */
  function After(op: Op, kind: Kind, db: Database): Database {
    var t := Get(db, kind);
    if Runs(op, kind, t) then Put(db, kind, Execute(op, kind, t)) else db
  }

  lemma StepOf(c: Config, op: Op, kind: Kind)
    requires c.pc < END && OpAt(c.pc) == op && KindAt(c.pc) == kind
    requires Runs(op, kind, Get(c.db, kind)) ==> !Fails(op, kind, Get(c.db, kind))
    ensures Step(c).db == After(op, kind, c.db)
    ensures !op.DropHashIndex? ==> Step(c).pc == c.pc + 1
    ensures op.DropHashIndex? ==>
              Step(c).pc == if Runs(op, kind, Get(c.db, kind)) && |Get(c.db, kind).hashIndexes| > 1 then c.pc else c.pc + 1
  {
  }

  /** Statements of one table settled before this one stay settled, and this one joins them. */
  lemma AfterKeepsSettled(db: Database, op: Op, kind: Kind, earlier: Op)
    requires TableInv(kind, Get(db, kind))
    requires if Runs(op, kind, Get(db, kind)) then !Fails(op, kind, Get(db, kind)) else Settled(op, kind, Get(db, kind))
    ensures Rank(earlier) < Rank(op) && Settled(earlier, kind, Get(db, kind)) ==>
              Settled(earlier, kind, Get(After(op, kind, db), kind))
    ensures !(op.DropHashIndex? && Runs(op, kind, Get(db, kind)) && |Get(db, kind).hashIndexes| > 1) ==>
              Settled(op, kind, Get(After(op, kind, db), kind))
    ensures forall other: Kind :: other != kind ==> Get(After(op, kind, db), other) == Get(db, other)
  {
    hide TableInv, Runs, Fails, Settled, Execute, Rank;
    if Runs(op, kind, Get(db, kind)) {
      ExecuteKeeps(op, kind, Get(db, kind));
    }
  }

  lemma InvOf(db: Database, kind: Kind)
    requires Inv(db)
    ensures TableInv(kind, Get(db, kind))
  {
    hide TableInv;
  }

  lemma EarlierRanks(k: nat, pc: nat)
    requires k < pc && KindAt(k) == KindAt(pc) && pc < END
    ensures Rank(OpAt(k)) < Rank(OpAt(pc))
  {
    OpRanks(k);
    OpRanks(pc);
  }

  lemma StepKeepsSettled(c: Config, k: nat)
    requires Good(c) && c.pc < END && k < Step(c).pc && k < END
    ensures Settled(OpAt(k), KindAt(k), Get(Step(c).db, KindAt(k)))
  {
    hide TableInv, Inv, Durable, Runs, Fails, Settled, Step, After, OpAt, KindAt, Rank;
    var op, kind := OpAt(c.pc), KindAt(c.pc);
    NeverRefused(c);
    StepOf(c, op, kind);
    InvOf(c.db, kind);
    AfterKeepsSettled(c.db, op, kind, OpAt(k));
    if k < c.pc {
      assert Settled(OpAt(k), KindAt(k), Get(c.db, KindAt(k)));
      if KindAt(k) == kind {
        EarlierRanks(k, c.pc);
      }
    }
  }

  lemma StepKeepsDurable(c: Config)
    requires Good(c) && c.pc < END
    ensures Durable(Step(c))
  {
    hide Placeholder, Placeable, Distinct, SettledUpTo;
    var op, kind := OpAt(c.pc), KindAt(c.pc);
    var t := Get(c.db, kind);
    NeverRefused(c);
    if op.Backfill? && Runs(op, kind, t) {
      OpRanks(c.pc);
      OpRanks(c.pc + 1);
      if t.email == Present(false) {
        assert Backfilled(kind, t.emails) == t.emails;
      }
    }
  }

  lemma StepKeepsGood(c: Config)
    requires Good(c)
    ensures Good(Step(c))
  {
    if c.pc < END {
      var op, kind := OpAt(c.pc), KindAt(c.pc);
      var t := Get(c.db, kind);
      NeverRefused(c);
      if Runs(op, kind, t) {
        ExecuteKeeps(op, kind, t);
      }
      StepKeepsDurable(c);
      forall k: nat | k < Step(c).pc && k < END
        ensures Settled(OpAt(k), KindAt(k), Get(Step(c).db, KindAt(k)))
      {
        StepKeepsSettled(c, k);
      }
    }
  }

  lemma AllSettled(c: Config, op: Op, kind: Kind)
    requires Good(c) && c.pc == END
    ensures Settled(op, kind, Get(c.db, kind))
  {
    var k := Rank(op) + (if kind.Users? then 0 else if kind.Invites? then 7 else 14);
    assert OPS[Rank(op)] == op;
    assert Settled(OpAt(k), KindAt(k), Get(c.db, KindAt(k)));
  }

  lemma GoodAtEndIsFinal(c: Config)
    requires Good(c) && c.pc == END
    ensures Final(c.db)
  {
    forall kind: Kind
      ensures var t := Get(c.db, kind);
              && t.email.Present? && t.emailIndex && !t.hash && t.hashIndexes == []
              && (!kind.Attempts? ==> t.email == Present(false) && NoNulls(t) && !t.hint)
    {
      AllSettled(c, AddEmail, kind);
      AllSettled(c, Tighten, kind);
      AllSettled(c, Backfill, kind);
      AllSettled(c, IndexEmail, kind);
      AllSettled(c, DropHashIndex, kind);
      AllSettled(c, DropHash, kind);
      AllSettled(c, DropHint, kind);
    }
    assert c.db.users == Get(c.db, Users) && c.db.invites == Get(c.db, Invites);
  }

  lemma EditKeepsTable(kind: Kind, t: Table, emails: map<nat, Option<string>>)
    requires TableInv(kind, t) && LegalEmails(kind, emails) && t.email.Present?
    ensures TableInv(kind, t.(emails := emails))
    ensures forall op: Op :: Settled(op, kind, t) ==> Settled(op, kind, t.(emails := emails))
  {
  }

  lemma EditKeepsGood(c: Config, kind: Kind, emails: map<nat, Option<string>>)
    requires Good(c)
    ensures Good(Next(c, Edit(kind, emails)))
  {
    hide TableInv, Settled, LegalEmails;
    if c.pc == END && LegalEmails(kind, emails) {
      GoodAtEndIsFinal(c);
      var c' := Next(c, Edit(kind, emails));
      EditKeepsTable(kind, Get(c.db, kind), emails);
      forall k: nat | k < END ensures Settled(OpAt(k), KindAt(k), Get(c'.db, KindAt(k))) {
        assert Settled(OpAt(k), KindAt(k), Get(c.db, KindAt(k)));
      }
    }
  }

  lemma {:induction false} RunKeepsGood(c: Config, events: seq<Event>)
    requires Good(c)
    ensures Good(Run(c, events))
    decreases |events|
  {
    if events != [] {
      match events[0] {
        case Advance => StepKeepsGood(c);
        case Edit(kind, emails) => EditKeepsGood(c, kind, emails);
        case _ =>
      }
      RunKeepsGood(Next(c, events[0]), events[1..]);
    }
  }

  lemma OriginalIsGood(db: Database)
    requires Original(db)
    ensures Good(Config(db, db, 0))
  {
    assert forall kind: Kind :: Get(db, kind).email.Absent?;
    assert Get(db, Users).email.Absent? && Get(db, Invites).email.Absent? && Get(db, Attempts).email.Absent?;
    assert Get(db, Users).hash && Get(db, Invites).hash && Get(db, Attempts).hash;
  }

  /**
   * However often the revision crashes, wherever it crashes, and however often a finished one is
   * replayed over e-mails the application has changed since: no statement is ever refused, and whenever
   * it is at its end the schema is the intended one.
   */
  lemma EveryRunConverges(db: Database, events: seq<Event>)
    requires Original(db)
    ensures var c := Run(Config(db, db, 0), events);
            && (c.pc == END ==> Final(c.db))
            && (c.pc < END && Runs(OpAt(c.pc), KindAt(c.pc), Get(c.db, KindAt(c.pc))) ==>
                  !Fails(OpAt(c.pc), KindAt(c.pc), Get(c.db, KindAt(c.pc))))
  {
    OriginalIsGood(db);
    RunKeepsGood(Config(db, db, 0), events);
    var c := Run(Config(db, db, 0), events);
    if c.pc == END {
      GoodAtEndIsFinal(c);
    } else {
      NeverRefused(c);
    }
  }

  // ---- it does reach its end --------------------------------------------------------

  /** Statements left, counting one for every index still to drop. */
  function Left(c: Config): nat {
    |c.db.users.hashIndexes| + |c.db.invites.hashIndexes| + |c.db.attempts.hashIndexes| + (if c.pc < END then END - c.pc else 0)
  }

  /** Only the statement that drops an index changes their number. */
  lemma AfterIndexes(op: Op, kind: Kind, db: Database, other: Kind)
    ensures |Get(After(op, kind, db), other).hashIndexes|
         == |Get(db, other).hashIndexes| - if op.DropHashIndex? && Runs(op, kind, Get(db, kind)) && other == kind then 1 else 0
  {
    hide Placeholder;
  }

  lemma StepMakesProgress(c: Config)
    requires Good(c) && c.pc < END
    ensures Left(Step(c)) < Left(c)
  {
    hide Good, Settled, Fails, Runs, After, Step, OpAt, KindAt;
    var op, kind := OpAt(c.pc), KindAt(c.pc);
    NeverRefused(c);
    StepOf(c, op, kind);
    AfterIndexes(op, kind, c.db, Users);
    AfterIndexes(op, kind, c.db, Invites);
    AfterIndexes(op, kind, c.db, Attempts);
  }

  /** The configuration an uninterrupted run ends in. */
  ghost function Finish(c: Config): Config
    requires Good(c)
    decreases Left(c)
  {
    if c.pc >= END then c
    else
      StepMakesProgress(c);
      StepKeepsGood(c);
      Finish(Step(c))
  }

  function Advances(n: nat): seq<Event> {
    if n == 0 then [] else [Advance] + Advances(n - 1)
  }

  /** From any state a run can be in, finitely many statements without another crash reach the end. */
  lemma {:induction false} Terminates(c: Config) returns (n: nat)
    requires Good(c)
    ensures Run(c, Advances(n)) == Finish(c) && Finish(c).pc == END
    decreases Left(c)
  {
    if c.pc >= END {
      n := 0;
    } else {
      StepMakesProgress(c);
      StepKeepsGood(c);
      var m := Terminates(Step(c));
      n := m + 1;
      assert Advances(n)[0] == Advance && Advances(n)[1..] == Advances(m);
    }
  }

  lemma FinalStepIsStable(c: Config)
    requires Final(c.db) && c.saved == c.db
    ensures Step(c).db == c.db && Step(c).saved == c.db
    ensures c.pc < END ==> Step(c).pc == c.pc + 1
  {
    var kind := KindAt(c.pc);
    var t := Get(c.db, kind);
    assert t.email.Present? && t.emailIndex && !t.hash && t.hashIndexes == [];
    if !kind.Attempts? {
      assert Backfilled(kind, t.emails) == t.emails;
    }
  }

  /** A finished schema is left alone: replaying the whole revision over it, or any part, changes nothing. */
  lemma {:induction false} FinalIsStable(c: Config, n: nat)
    requires Final(c.db) && c.saved == c.db
    ensures Run(c, Advances(n)).db == c.db && Run(c, Advances(n)).saved == c.db
    ensures c.pc <= END <= c.pc + n ==> Run(c, Advances(n)).pc == END
    decreases n
  {
    hide Final, Step;
    if n > 0 {
      FinalStepIsStable(c);
      assert Advances(n)[0] == Advance && Advances(n)[1..] == Advances(n - 1);
      if c.pc < END {
        FinalIsStable(Step(c), n - 1);
      } else {
        EndStays(c);
        FinalIsStable(Step(c), n - 1);
      }
    }
  }

  lemma EndStays(c: Config)
    requires c.pc >= END
    ensures Step(c) == c
  {
  }

  // ---- no row is lost, no e-mail is invented ------------------------------------------

  /** The e-mail of a row ahead of the revision: a column that is not there reads as NULL. */
  function EmailOf(t: Table, id: nat): Option<string>
    requires id in t.emails
  {
    if t.email.Absent? then None else t.emails[id]
  }

  /** `t` has the rows of `from`, each with its e-mail or, where that was NULL, with its placeholder. */
  predicate Tracks(kind: Kind, from: Table, t: Table) {
    && t.emails.Keys == from.emails.Keys
    && (t.email.Absent? ==> from.email.Absent?)
    && (t.email.Present? ==> forall id :: id in t.emails ==>
          || t.emails[id] == EmailOf(from, id)
          || (EmailOf(from, id).None? && !kind.Attempts? && t.emails[id] == Some(Placeholder(kind, id))))
  }

  predicate TracksAll(from: Database, db: Database) {
    Tracks(Users, from.users, db.users) && Tracks(Invites, from.invites, db.invites) && Tracks(Attempts, from.attempts, db.attempts)
  }

  /** A statement keeps the rows, leaves a filled e-mail alone and gives a NULL one nothing but its placeholder. */
  lemma ExecuteTracks(op: Op, kind: Kind, from: Table, t: Table)
    requires Tracks(kind, from, t) && Runs(op, kind, t)
    ensures Tracks(kind, from, Execute(op, kind, t))
  {
    hide Placeholder;
  }

  lemma StepTracks(from: Database, c: Config)
    requires TracksAll(from, c.db) && TracksAll(from, c.saved)
    ensures TracksAll(from, Step(c).db) && TracksAll(from, Step(c).saved)
  {
    hide OpAt, KindAt, Tracks, Runs, Fails, Execute;
    if c.pc < END {
      var kind, op := KindAt(c.pc), OpAt(c.pc);
      if Runs(op, kind, Get(c.db, kind)) {
        ExecuteTracks(op, kind, Get(from, kind), Get(c.db, kind));
      }
    }
  }

  lemma {:induction false} RunTracks(from: Database, c: Config, events: seq<Event>)
    requires TracksAll(from, c.db) && TracksAll(from, c.saved) && forall e :: e in events ==> !e.Edit?
    ensures TracksAll(from, Run(c, events).db)
    decreases |events|
  {
    hide TracksAll, Step;
    if events != [] {
      assert events[0] in events;
      StepTracks(from, c);
      RunTracks(from, Next(c, events[0]), events[1..]);
    }
  }

  /** A statement, a crash and a replay keep the rows of every table, in the database and in what survives a crash. */
  lemma EventKeepsRows(c: Config, e: Event, kind: Kind)
    requires !e.Edit? && Get(c.saved, kind).emails.Keys == Get(c.db, kind).emails.Keys
    ensures Get(Next(c, e).db, kind).emails.Keys == Get(c.db, kind).emails.Keys
    ensures Get(Next(c, e).saved, kind).emails.Keys == Get(c.db, kind).emails.Keys
  {
    hide OpAt, KindAt, Runs, Fails, Execute;
    if e.Advance? && c.pc < END {
      var op, table := OpAt(c.pc), KindAt(c.pc);
      if Runs(op, table, Get(c.db, table)) {
        ExecuteKeepsRows(op, table, Get(c.db, table));
      }
    }
  }

  lemma ExecuteKeepsRows(op: Op, kind: Kind, t: Table)
    requires Runs(op, kind, t)
    ensures Execute(op, kind, t).emails.Keys == t.emails.Keys
  {
    hide Placeholder;
  }

  /**
   * Wherever the revision crashes and however often it is replayed: at its end every table has the rows it
   * had, every e-mail that was there is still there, and every user and every invite without one carries
   * the placeholder that spells its id.
   */
  lemma RowsSurvive(db: Database, events: seq<Event>)
    requires Good(Config(db, db, 0)) && forall e :: e in events ==> !e.Edit?
    ensures var now := Run(Config(db, db, 0), events).db;
            && now.users.emails.Keys == db.users.emails.Keys
            && now.invites.emails.Keys == db.invites.emails.Keys
            && now.attempts.emails.Keys == db.attempts.emails.Keys
    ensures var c := Run(Config(db, db, 0), events);
            c.pc == END ==>
              && c.db.users.emails == (map id | id in db.users.emails ::
                    if db.users.email.Present? && db.users.emails[id].Some? then db.users.emails[id]
                    else Some("legacy-" + Decimal(id) + "@placeholder.invalid"))
              && c.db.invites.emails == (map id | id in db.invites.emails ::
                    if db.invites.email.Present? && db.invites.emails[id].Some? then db.invites.emails[id]
                    else Some("legacy-invite-" + Decimal(id) + "@placeholder.invalid"))
              && c.db.attempts.emails == (map id | id in db.attempts.emails ::
                    if db.attempts.email.Present? then db.attempts.emails[id] else None)
  {
    hide Run, Good, Final, Decimal, EmailOf;
    var start := Config(db, db, 0);
    StartTracks(db);
    RunTracks(db, start, events);
    RunKeepsGood(start, events);
    var c := Run(start, events);
    TrackedRows(db, c.db);
    if c.pc == END {
      GoodAtEndIsFinal(c);
      FinalRows(db, c.db);
    }
  }

  lemma StartTracks(db: Database)
    ensures TracksAll(db, db)
  {
    hide Placeholder;
  }

  lemma TrackedRows(from: Database, db: Database)
    requires TracksAll(from, db)
    ensures db.users.emails.Keys == from.users.emails.Keys
    ensures db.invites.emails.Keys == from.invites.emails.Keys
    ensures db.attempts.emails.Keys == from.attempts.emails.Keys
  {
    hide Placeholder;
  }

  lemma FinalRows(from: Database, db: Database)
    requires TracksAll(from, db) && Final(db)
    ensures db.users.emails == (map id | id in from.users.emails ::
          if from.users.email.Present? && from.users.emails[id].Some? then from.users.emails[id]
          else Some("legacy-" + Decimal(id) + "@placeholder.invalid"))
    ensures db.invites.emails == (map id | id in from.invites.emails ::
          if from.invites.email.Present? && from.invites.emails[id].Some? then from.invites.emails[id]
          else Some("legacy-invite-" + Decimal(id) + "@placeholder.invalid"))
    ensures db.attempts.emails == (map id | id in from.attempts.emails ::
          if from.attempts.email.Present? then from.attempts.emails[id] else None)
  {
    hide Decimal, Distinct;
    assert Get(db, Attempts).email.Present?;
  }

  /** The number a digit string spells. */
  function Value(s: string): nat
    requires forall i :: 0 <= i < |s| ==> '0' <= s[i] <= '9'
  {
    if s == "" then 0 else 10 * Value(s[..|s| - 1]) + (s[|s| - 1] as int - '0' as int)
  }

  /** The id in a placeholder is written in decimal: digits that spell it, with no leading zero. */
  lemma {:induction false} DecimalSpells(n: nat)
    ensures forall i :: 0 <= i < |Decimal(n)| ==> '0' <= Decimal(n)[i] <= '9'
    ensures Value(Decimal(n)) == n && (n > 0 ==> Decimal(n)[0] != '0')
  {
    var s := Decimal(n);
    assert s[|s| - 1] == Digit(n % 10);
    if n >= 10 {
      DecimalSpells(n / 10);
      assert s[..|s| - 1] == Decimal(n / 10);
    } else {
      assert s[..|s| - 1] == "";
    }
  }

  // ---- the revision itself ----------------------------------------------------------

  /** So an upgrade of a finished schema ends where it began. */
  lemma FinishOfFinal(c: Config)
    requires Good(c) && c.saved == c.db
    ensures Final(c.db) ==> Finish(c).db == c.db
  {
    hide Good, Final, Step;
    if Final(c.db) {
      var n := Terminates(c);
      FinalIsStable(c, n);
    }
  }

  lemma AdvancesOnly(n: nat)
    ensures forall e :: e in Advances(n) ==> e == Advance
  {
  }

  lemma FinishKeepsRows(db: Database)
    requires Good(Config(db, db, 0))
    ensures var now := Finish(Config(db, db, 0)).db;
            TracksAll(db, now) && Final(now)
  {
    hide Good, Final, Step, TracksAll, Finish;
    var c := Config(db, db, 0);
    var n := Terminates(c);
    AdvancesOnly(n);
    StartTracks(db);
    RunTracks(db, c, Advances(n));
    RunKeepsGood(c, Advances(n));
    GoodAtEndIsFinal(Finish(c));
  }

  class Revision {
    var db: Database

    constructor (db: Database)
      ensures this.db == db
    {
      this.db := db;
    }

    /** An uninterrupted upgrade, from whatever an earlier attempt left. */
    method Upgrade()
      requires Good(Config(db, db, 0))
      modifies this
      ensures db == Finish(Config(old(db), old(db), 0)).db && Final(db)
      ensures Final(old(db)) ==> db == old(db)
      ensures db.users.emails == (map id | id in old(db).users.emails ::
            if old(db).users.email.Present? && old(db).users.emails[id].Some? then old(db).users.emails[id]
            else Some("legacy-" + Decimal(id) + "@placeholder.invalid"))
      ensures db.invites.emails == (map id | id in old(db).invites.emails ::
            if old(db).invites.email.Present? && old(db).invites.emails[id].Some? then old(db).invites.emails[id]
            else Some("legacy-invite-" + Decimal(id) + "@placeholder.invalid"))
      ensures db.attempts.emails == (map id | id in old(db).attempts.emails ::
            if old(db).attempts.email.Present? then old(db).attempts.emails[id] else None)
    {
      hide Good, Final, TracksAll, Decimal;
      ghost var c := Config(db, db, 0);
      FinishOfFinal(c);
      FinishKeepsRows(db);
      c := UpgradeTable(Users, c);
      c := UpgradeTable(Invites, c);
      c := UpgradeTable(Attempts, c);
      GoodAtEndIsFinal(c);
      TrackedRows(old(db), db);
      FinalRows(old(db), db);
    }

    /** The guarded statements for one table, in order; `c` is the configuration they run in. */
    method UpgradeTable(kind: Kind, ghost c: Config) returns (ghost end: Config)
      requires Good(c) && c.db == db && c.pc == Start(kind)
      modifies this
      ensures Good(end) && end.db == db && end.pc == c.pc + 7 && Finish(end) == Finish(c)
    {
      end := AddAndFill(kind, c);
      end := TightenAndIndex(kind, end);
      end := DropIndexes(kind, end);
      end := DropOldColumns(kind, end);
    }

    method AddAndFill(kind: Kind, ghost c: Config) returns (ghost end: Config)
      requires Good(c) && c.db == db && c.pc == Start(kind)
      modifies this
      ensures Good(end) && end.db == db && end.pc == c.pc + 2 && Finish(end) == Finish(c)
    {
      AddEmailColumn(kind);
      end := Passed(c, AddEmail, kind);
      BackfillEmails(kind);
      end := Passed(end, Backfill, kind);
    }

    method TightenAndIndex(kind: Kind, ghost c: Config) returns (ghost end: Config)
      requires Good(c) && c.db == db && c.pc == Start(kind) + 2
      modifies this
      ensures Good(end) && end.db == db && end.pc == c.pc + 2 && Finish(end) == Finish(c)
    {
      TightenEmails(kind);
      end := Passed(c, Tighten, kind);
      CreateEmailIndex(kind);
      end := Passed(end, IndexEmail, kind);
    }

    method DropOldColumns(kind: Kind, ghost c: Config) returns (ghost end: Config)
      requires Good(c) && c.db == db && c.pc == Start(kind) + 5
      modifies this
      ensures Good(end) && end.db == db && end.pc == c.pc + 2 && Finish(end) == Finish(c)
    {
      DropHashColumn(kind);
      end := Passed(c, DropHash, kind);
      DropHintColumn(kind);
      end := Passed(end, DropHint, kind);
    }

    method AddEmailColumn(kind: Kind)
      modifies this
      ensures db == After(AddEmail, kind, old(db))
    {
      var t := Get(db, kind);
      if t.email.Absent? {
        db := Put(db, kind, t.(email := Present(true), emails := map id | id in t.emails :: None));
      }
    }

    method BackfillEmails(kind: Kind)
      modifies this
      ensures db == After(Backfill, kind, old(db))
    {
      var t := Get(db, kind);
      if !kind.Attempts? && t.email.Present? {
        db := Put(db, kind, t.(emails := Backfilled(kind, t.emails)));
      }
    }

    method TightenEmails(kind: Kind)
      modifies this
      ensures db == After(Tighten, kind, old(db))
    {
      var t := Get(db, kind);
      if !kind.Attempts? && t.email.Present? && t.email.nullable {
        db := Put(db, kind, t.(email := Present(false)));
      }
    }

    method CreateEmailIndex(kind: Kind)
      modifies this
      ensures db == After(IndexEmail, kind, old(db))
    {
      var t := Get(db, kind);
      if t.email.Present? && !t.emailIndex {
        db := Put(db, kind, t.(emailIndex := true));
      }
    }

    /** Drops the indexes on the hash column one by one. */
    method DropIndexes(kind: Kind, ghost c: Config) returns (ghost end: Config)
      requires Good(c) && c.db == db && c.pc == Start(kind) + 4
      modifies this
      ensures Good(end) && end.db == db && end.pc == c.pc + 1 && Finish(end) == Finish(c)
    {
      end := c;
      var names := if Get(db, kind).hash then Get(db, kind).hashIndexes else [];
      for i := 0 to |names|
        invariant Good(end) && end.db == db && Finish(end) == Finish(c) && end.pc >= c.pc
        invariant i < |names| ==> end.pc == c.pc && Get(db, kind).hash && Get(db, kind).hashIndexes == names[i..]
        invariant i == |names| > 0 ==> end.pc == c.pc + 1
        invariant i == 0 ==> end == c
      {
        assert names[i..][1..] == names[i + 1..];
        var t := Get(db, kind);
        db := Put(db, kind, t.(hashIndexes := names[i + 1..]));
        end := DroppedOne(end, kind);
      }
      if |names| == 0 {
        end := Skipped(end, kind);
      }
    }

    method DropHashColumn(kind: Kind)
      modifies this
      ensures db == After(DropHash, kind, old(db))
    {
      var t := Get(db, kind);
      if t.hash {
        db := Put(db, kind, t.(hash := false));
      }
    }

    method DropHintColumn(kind: Kind)
      modifies this
      ensures db == After(DropHint, kind, old(db))
    {
      var t := Get(db, kind);
      if !kind.Attempts? && t.hint {
        db := Put(db, kind, t.(hint := false));
      }
    }
  }

  function Start(kind: Kind): nat {
    match kind case Users => 0 case Invites => 7 case Attempts => 14
  }

  /** A statement that leaves the configuration good is one step of the uninterrupted run. */
  lemma StepFinishes(c: Config)
    requires Good(c) && c.pc < END
    ensures Good(Step(c)) && Finish(Step(c)) == Finish(c)
    ensures Runs(OpAt(c.pc), KindAt(c.pc), Get(c.db, KindAt(c.pc))) ==> !Fails(OpAt(c.pc), KindAt(c.pc), Get(c.db, KindAt(c.pc)))
  {
    hide Good, Step, Runs, Fails;
    StepKeepsGood(c);
    StepMakesProgress(c);
    NeverRefused(c);
  }

  lemma OpOf(op: Op, kind: Kind)
    ensures OpAt(Start(kind) + Rank(op)) == op && KindAt(Start(kind) + Rank(op)) == kind
  {
  }

  lemma PassedIs(c: Config, op: Op, kind: Kind)
    requires Good(c) && c.pc == Start(kind) + Rank(op)
    ensures Good(Step(c)) && Finish(Step(c)) == Finish(c) && Step(c).db == After(op, kind, c.db)
    ensures !op.DropHashIndex? ==> Step(c).pc == c.pc + 1
    ensures op.DropHashIndex? ==>
              Step(c).pc == if Runs(op, kind, Get(c.db, kind)) && |Get(c.db, kind).hashIndexes| > 1 then c.pc else c.pc + 1
  {
    hide Good, Step, Runs, Fails, OpAt, KindAt, After;
    OpOf(op, kind);
    StepFinishes(c);
    StepOf(c, op, kind);
  }

  ghost function Passed(c: Config, op: Op, kind: Kind): (end: Config)
    requires Good(c) && c.pc == Start(kind) + Rank(op) && !op.DropHashIndex?
    ensures Good(end) && Finish(end) == Finish(c) && end.pc == c.pc + 1 && end.db == After(op, kind, c.db)
  {
    PassedIs(c, op, kind);
    Step(c)
  }

  ghost function DroppedOne(c: Config, kind: Kind): (end: Config)
    requires Good(c) && c.pc == Start(kind) + 4 && Get(c.db, kind).hash && Get(c.db, kind).hashIndexes != []
    ensures var names := Get(c.db, kind).hashIndexes;
            && Good(end) && Finish(end) == Finish(c)
            && end.db == Put(c.db, kind, Get(c.db, kind).(hashIndexes := names[1..]))
            && end.pc == if |names| > 1 then c.pc else c.pc + 1
  {
    PassedIs(c, DropHashIndex, kind);
    Step(c)
  }

  ghost function Skipped(c: Config, kind: Kind): (end: Config)
    requires Good(c) && c.pc == Start(kind) + 4 && (!Get(c.db, kind).hash || Get(c.db, kind).hashIndexes == [])
    ensures Good(end) && Finish(end) == Finish(c) && end.db == c.db && end.pc == c.pc + 1
  {
    PassedIs(c, DropHashIndex, kind);
    Step(c)
  }
}
