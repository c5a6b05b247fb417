/** After-commit side effects and after-rollback compensations kept on a database session. */
module SessionHooks {

  /** A deferred callable: what it registers while it runs, and whether it raises afterwards. */
  datatype Thunk = Thunk(registers: seq<Registration>, raises: bool)
  datatype Registration = OnCommit(thunk: Thunk) | OnRollback(thunk: Thunk)

  /** A registered thunk; `id` numbers the registrations of the session. */
  datatype Entry = Entry(id: nat, thunk: Thunk)
  /** A thunk was called, and its exception, if it raised one, was logged; or it was forgotten. */
  datatype Event = Fired(id: nat, raised: bool) | Dropped(id: nat)

  /** The two lists kept on the session (an absent list is an empty one), and the history of fates. */
  datatype Hooks = Hooks(onCommit: seq<Entry>, onRollback: seq<Entry>, next: nat, log: seq<Event>)

  const EMPTY := Hooks([], [], 0, [])

  function Register(h: Hooks, r: Registration): Hooks {
    var e := Entry(h.next, r.thunk);
    match r
    case OnCommit(_) => h.(onCommit := h.onCommit + [e], next := h.next + 1)
    case OnRollback(_) => h.(onRollback := h.onRollback + [e], next := h.next + 1)
  }

  function RegisterAll(h: Hooks, rs: seq<Registration>): Hooks
    decreases |rs|
  {
    if rs == [] then h else RegisterAll(Register(h, rs[0]), rs[1..])
  }

  /** Running one thunk; an exception it raises is logged and swallowed. */
  function Fire(h: Hooks, e: Entry): Hooks {
    RegisterAll(h.(log := h.log + [Fired(e.id, e.thunk.raises)]), e.thunk.registers)
  }

  function FireAll(h: Hooks, entries: seq<Entry>): Hooks
    decreases |entries|
  {
    if entries == [] then h else FireAll(Fire(h, entries[0]), entries[1..])
  }

  function Fires(entries: seq<Entry>): seq<Event> {
    seq(|entries|, i requires 0 <= i < |entries| => Fired(entries[i].id, entries[i].thunk.raises))
  }

  function Drops(entries: seq<Entry>): seq<Event> {
    seq(|entries|, i requires 0 <= i < |entries| => Dropped(entries[i].id))
  }

  /** A commit forgets the compensations, then fires the side effects it found. */
  function Commit(h: Hooks): Hooks {
    FireAll(h.(onRollback := [], onCommit := [], log := h.log + Drops(h.onRollback)), h.onCommit)
  }

  /** A rollback fires the compensations it found, then forgets every side effect. */
  function Rollback(h: Hooks): Hooks {
    var fired := FireAll(h.(onRollback := []), h.onRollback);
    fired.(onCommit := [], log := fired.log + Drops(fired.onCommit))
  }

  datatype Op = Add(r: Registration) | DoCommit | DoRollback

  function Apply(h: Hooks, op: Op): Hooks {
    match op
    case Add(r) => Register(h, r)
    case DoCommit => Commit(h)
    case DoRollback => Rollback(h)
  }

  function Run(h: Hooks, ops: seq<Op>): Hooks
    decreases |ops|
  {
    if ops == [] then h else Run(Apply(h, ops[0]), ops[1..])
  }

  // ---- firing only adds to the lists ------------------------------------------------

  /** `to` extends `from` by registrations made since, with fresh numbers in rising order. */
  predicate Grown(from: Hooks, to: Hooks) {
    && from.next <= to.next
    && from.onCommit <= to.onCommit && from.onRollback <= to.onRollback
    && (forall i :: |from.onCommit| <= i < |to.onCommit| ==> from.next <= to.onCommit[i].id < to.next)
    && (forall i :: |from.onRollback| <= i < |to.onRollback| ==> from.next <= to.onRollback[i].id < to.next)
  }

  lemma {:induction false} RegisterAllGrows(h: Hooks, rs: seq<Registration>)
    ensures Grown(h, RegisterAll(h, rs)) && RegisterAll(h, rs).log == h.log
    decreases |rs|
  {
    if rs != [] {
      RegisterAllGrows(Register(h, rs[0]), rs[1..]);
    }
  }

  lemma {:induction false} FireAllGrows(h: Hooks, entries: seq<Entry>)
    ensures Grown(h, FireAll(h, entries)) && FireAll(h, entries).log == h.log + Fires(entries)
    decreases |entries|
  {
    if entries != [] {
      RegisterAllGrows(h.(log := h.log + [Fired(entries[0].id, entries[0].thunk.raises)]), entries[0].thunk.registers);
      FireAllGrows(Fire(h, entries[0]), entries[1..]);
      assert Fires(entries) == [Fired(entries[0].id, entries[0].thunk.raises)] + Fires(entries[1..]);
    }
  }

  /**
   * A commit decides every pending thunk: compensations are dropped, side effects fire once each, in
   * registration order; what they register stays pending for a later boundary.
   */
  lemma CommitDecides(h: Hooks)
    ensures Commit(h).log == h.log + Drops(h.onRollback) + Fires(h.onCommit)
    ensures forall e :: e in Commit(h).onCommit + Commit(h).onRollback ==> h.next <= e.id < Commit(h).next
    ensures var was, n, m := |h.log|, |h.onRollback|, |h.onCommit|;
            && |Commit(h).log| == was + n + m && Commit(h).log[..was] == h.log
            && (forall i :: 0 <= i < n ==> Commit(h).log[was + i] == Dropped(h.onRollback[i].id))
            && (forall i :: 0 <= i < m ==> Commit(h).log[was + n + i] == Fired(h.onCommit[i].id, h.onCommit[i].thunk.raises))
  {
    var start := h.(onRollback := [], onCommit := [], log := h.log + Drops(h.onRollback));
    FireAllGrows(start, h.onCommit);
  }

  /**
   * A rollback decides every pending thunk: compensations fire once each, in registration order; side
   * effects are dropped, the ones the compensations just registered included. A compensation registered
   * by a compensation waits for a later boundary.
   */
  lemma RollbackDecides(h: Hooks)
    ensures Rollback(h).onCommit == []
    ensures forall e :: e in Rollback(h).onRollback ==> h.next <= e.id < Rollback(h).next
    ensures exists late: seq<Entry> ::
              && Rollback(h).log == h.log + Fires(h.onRollback) + Drops(h.onCommit + late)
              && forall e :: e in late ==> h.next <= e.id < Rollback(h).next
    ensures var was, n, m := |h.log|, |h.onRollback|, |h.onCommit|;
            && |Rollback(h).log| >= was + n + m && Rollback(h).log[..was] == h.log
            && (forall i :: 0 <= i < n ==> Rollback(h).log[was + i] == Fired(h.onRollback[i].id, h.onRollback[i].thunk.raises))
            && (forall i :: 0 <= i < m ==> Rollback(h).log[was + n + i] == Dropped(h.onCommit[i].id))
  {
    var fired := FireAll(h.(onRollback := []), h.onRollback);
    FireAllGrows(h.(onRollback := []), h.onRollback);
    var late := fired.onCommit[|h.onCommit|..];
    assert fired.onCommit == h.onCommit + late;
    assert Rollback(h).log == h.log + Fires(h.onRollback) + Drops(h.onCommit + late);
  }

  // ---- from the registration to its fate --------------------------------------------

  /** What is registered after a commit is fired by a commit and dropped by a rollback; a compensation the other way round. */
  lemma RegistrationMeans(h: Hooks, t: Thunk)
    ensures Fired(h.next, t.raises) in Commit(Register(h, OnCommit(t))).log
    ensures Dropped(h.next) in Rollback(Register(h, OnCommit(t))).log
    ensures Dropped(h.next) in Commit(Register(h, OnRollback(t))).log
    ensures Fired(h.next, t.raises) in Rollback(Register(h, OnRollback(t))).log
  {
    FirstBoundaryDecides(h, OnCommit(t), [], true);
    FirstBoundaryDecides(h, OnCommit(t), [], false);
    FirstBoundaryDecides(h, OnRollback(t), [], true);
    FirstBoundaryDecides(h, OnRollback(t), [], false);
    var a, b := Register(h, OnCommit(t)), Register(h, OnRollback(t));
    assert a == RegisterAll(a, []) && b == RegisterAll(b, []);
  }

  lemma {:induction false} RunOfAdds(h: Hooks, rs: seq<Registration>, last: Op)
    ensures Run(h, Adds(rs) + [last]) == Apply(RegisterAll(h, rs), last)
    decreases |rs|
  {
    var ops := Adds(rs) + [last];
    if rs == [] {
      assert ops == [last];
      assert Run(h, ops) == Run(Apply(h, last), []);
    } else {
      assert ops[0] == Add(rs[0]) && ops[1..] == Adds(rs[1..]) + [last];
      RunOfAdds(Register(h, rs[0]), rs[1..], last);
    }
  }

  function Adds(rs: seq<Registration>): seq<Op> {
    seq(|rs|, i requires 0 <= i < |rs| => Add(rs[i]))
  }

  /** The first commit or rollback after a registration, whatever was registered in between, decides it. */
  lemma FirstBoundaryDecides(h: Hooks, r: Registration, between: seq<Registration>, commits: bool)
    ensures var ops := Adds([r] + between) + [if commits then DoCommit else DoRollback];
            var decided := if commits then Commit(RegisterAll(Register(h, r), between)) else Rollback(RegisterAll(Register(h, r), between));
            && Run(h, ops) == decided
            && (if r.OnCommit? == commits then Fired(h.next, r.thunk.raises) else Dropped(h.next)) in decided.log
  {
    hide Commit, Rollback;
    var last := if commits then DoCommit else DoRollback;
    RunOfAdds(h, [r] + between, last);
    assert ([r] + between)[1..] == between;
    var reg := Register(h, r);
    var all := RegisterAll(reg, between);
    RegisterAllGrows(reg, between);
    CommitDecides(all);
    RollbackDecides(all);
    if r.OnCommit? {
      var i := |h.onCommit|;
      assert reg.onCommit[i] == Entry(h.next, r.thunk) && all.onCommit[i] == reg.onCommit[i];
    } else {
      var i := |h.onRollback|;
      assert reg.onRollback[i] == Entry(h.next, r.thunk) && all.onRollback[i] == reg.onRollback[i];
    }
  }

  function Thunks(entries: seq<Entry>): seq<Thunk> {
    seq(|entries|, i requires 0 <= i < |entries| => entries[i].thunk)
  }

  /** The thunks of a list of registrations that wait for a commit, or those that wait for a rollback. */
  function Wanted(rs: seq<Registration>, commit: bool): seq<Thunk> {
    if rs == [] then []
    else (if rs[0].OnCommit? == commit then [rs[0].thunk] else []) + Wanted(rs[1..], commit)
  }

  function Asked(entries: seq<Entry>, commit: bool): seq<Thunk> {
    if entries == [] then [] else Wanted(entries[0].thunk.registers, commit) + Asked(entries[1..], commit)
  }

  lemma {:induction false} RegisterAllAdds(h: Hooks, rs: seq<Registration>)
    ensures Thunks(RegisterAll(h, rs).onCommit) == Thunks(h.onCommit) + Wanted(rs, true)
    ensures Thunks(RegisterAll(h, rs).onRollback) == Thunks(h.onRollback) + Wanted(rs, false)
    decreases |rs|
  {
    if rs != [] {
      RegisterAllAdds(Register(h, rs[0]), rs[1..]);
      assert rs[0].OnCommit? ==> Thunks(Register(h, rs[0]).onCommit) == Thunks(h.onCommit) + [rs[0].thunk];
      assert rs[0].OnRollback? ==> Thunks(Register(h, rs[0]).onRollback) == Thunks(h.onRollback) + [rs[0].thunk];
    }
  }

  lemma {:induction false} FireAllAsks(h: Hooks, entries: seq<Entry>)
    ensures Thunks(FireAll(h, entries).onCommit) == Thunks(h.onCommit) + Asked(entries, true)
    ensures Thunks(FireAll(h, entries).onRollback) == Thunks(h.onRollback) + Asked(entries, false)
    decreases |entries|
  {
    if entries != [] {
      RegisterAllAdds(h.(log := h.log + [Fired(entries[0].id, entries[0].thunk.raises)]), entries[0].thunk.registers);
      FireAllAsks(Fire(h, entries[0]), entries[1..]);
    }
  }

  /**
   * What waits after a commit is exactly what its side effects registered, list by list and in their order. After a
   * rollback only the compensations its compensations registered wait: their side effects were dropped with the rest.
   */
  lemma FiredThunksLeaveTheirs(h: Hooks)
    ensures Thunks(Commit(h).onCommit) == Asked(h.onCommit, true)
    ensures Thunks(Commit(h).onRollback) == Asked(h.onCommit, false)
    ensures Thunks(Rollback(h).onRollback) == Asked(h.onRollback, false) && Rollback(h).onCommit == []
    ensures |Rollback(h).log| == |h.log| + |h.onRollback| + |h.onCommit| + |Asked(h.onRollback, true)|
  {
    FireAllAsks(h.(onRollback := [], onCommit := [], log := h.log + Drops(h.onRollback)), h.onCommit);
    var start := h.(onRollback := []);
    FireAllAsks(start, h.onRollback);
    FireAllGrows(start, h.onRollback);
    var fired := FireAll(start, h.onRollback);
    assert |Thunks(fired.onCommit)| == |fired.onCommit|;
  }

  // ---- one fate for every thunk -----------------------------------------------------

  function Ids(entries: seq<Entry>): seq<nat> {
    seq(|entries|, i requires 0 <= i < |entries| => entries[i].id)
  }

  function LogIds(log: seq<Event>): seq<nat> {
    seq(|log|, i requires 0 <= i < |log| => log[i].id)
  }

  /** Every number once for each place it stands: waiting in a list, or decided in the history. */
  ghost function Places(h: Hooks): multiset<nat> {
    multiset(Ids(h.onCommit)) + multiset(Ids(h.onRollback)) + multiset(LogIds(h.log))
  }

  /** Each thunk registered so far stands in exactly one place once `held` is counted in. */
  ghost predicate OneFate(h: Hooks, held: multiset<nat>) {
    forall id: nat :: (Places(h) + held)[id] == if id < h.next then 1 else 0
  }

  predicate Rising(entries: seq<Entry>, next: nat) {
    && (forall i :: 0 <= i < |entries| ==> entries[i].id < next)
    && forall i, j :: 0 <= i < j < |entries| ==> entries[i].id < entries[j].id
  }

  ghost predicate Sound(h: Hooks) {
    OneFate(h, multiset{}) && Rising(h.onCommit, h.next) && Rising(h.onRollback, h.next)
  }

  lemma RegisterPlaces(h: Hooks, r: Registration)
    ensures Places(Register(h, r)) == Places(h) + multiset{h.next}
    ensures Rising(h.onCommit, h.next) ==> Rising(Register(h, r).onCommit, h.next + 1)
    ensures Rising(h.onRollback, h.next) ==> Rising(Register(h, r).onRollback, h.next + 1)
  {
    var h' := Register(h, r);
    if r.OnCommit? {
      assert Ids(h'.onCommit) == Ids(h.onCommit) + [h.next];
    } else {
      assert Ids(h'.onRollback) == Ids(h.onRollback) + [h.next];
    }
  }

  lemma {:induction false} RegisterAllFate(h: Hooks, rs: seq<Registration>, held: multiset<nat>)
    requires OneFate(h, held) && Rising(h.onCommit, h.next) && Rising(h.onRollback, h.next)
    ensures var h' := RegisterAll(h, rs);
            OneFate(h', held) && Rising(h'.onCommit, h'.next) && Rising(h'.onRollback, h'.next)
    decreases |rs|
  {
    if rs != [] {
      RegisterPlaces(h, rs[0]);
      var h' := Register(h, rs[0]);
      assert forall id: nat :: (Places(h') + held)[id] == (Places(h) + held)[id] + multiset{h.next}[id];
      RegisterAllFate(h', rs[1..], held);
    }
  }

  lemma {:induction false} FireAllFate(h: Hooks, entries: seq<Entry>)
    requires OneFate(h, multiset(Ids(entries))) && Rising(h.onCommit, h.next) && Rising(h.onRollback, h.next)
    ensures Sound(FireAll(h, entries))
    decreases |entries|
  {
    if entries == [] {
      assert Ids(entries) == [];
    } else {
      var e := entries[0];
      var logged := h.(log := h.log + [Fired(e.id, e.thunk.raises)]);
      var rest := multiset(Ids(entries[1..]));
      assert LogIds(logged.log) == LogIds(h.log) + [e.id];
      assert Ids(entries) == [e.id] + Ids(entries[1..]);
      assert Places(logged) + rest == Places(h) + multiset(Ids(entries));
      RegisterAllFate(logged, e.thunk.registers, rest);
      FireAllFate(Fire(h, e), entries[1..]);
    }
  }

  lemma CommitKeepsSound(h: Hooks)
    requires Sound(h)
    ensures Sound(Commit(h))
  {
    var start := h.(onRollback := [], onCommit := [], log := h.log + Drops(h.onRollback));
    assert LogIds(start.log) == LogIds(h.log) + Ids(h.onRollback);
    assert Ids(start.onCommit) == [] && Ids(start.onRollback) == [];
    assert Places(start) + multiset(Ids(h.onCommit)) == Places(h) + multiset{};
    FireAllFate(start, h.onCommit);
  }

  lemma RollbackKeepsSound(h: Hooks)
    requires Sound(h)
    ensures Sound(Rollback(h))
  {
    var start := h.(onRollback := []);
    assert Ids(start.onRollback) == [];
    assert Places(start) + multiset(Ids(h.onRollback)) == Places(h) + multiset{};
    FireAllFate(start, h.onRollback);
    var fired := FireAll(start, h.onRollback);
    assert LogIds(Rollback(h).log) == LogIds(fired.log) + Ids(fired.onCommit);
    assert Ids(Rollback(h).onCommit) == [];
    assert Places(Rollback(h)) + multiset{} == Places(fired) + multiset{};
  }

  lemma {:induction false} RunKeepsSound(h: Hooks, ops: seq<Op>)
    requires Sound(h)
    ensures Sound(Run(h, ops))
    decreases |ops|
  {
    if ops != [] {
      match ops[0] {
        case Add(r) => RegisterAllFate(h, [r], multiset{}); assert RegisterAll(h, [r]) == Register(h, r);
        case DoCommit => CommitKeepsSound(h);
        case DoRollback => RollbackKeepsSound(h);
      }
      RunKeepsSound(Apply(h, ops[0]), ops[1..]);
    }
  }

  /**
   * Over any run of registrations, commits and rollbacks, with thunks that raise or register more while
   * firing, every registered thunk is waiting once or was decided once, never both and never twice;
   * both lists stay in registration order.
   */
  lemma ExactlyOneFate(ops: seq<Op>, id: nat)
    ensures var h := Run(EMPTY, ops);
            && multiset(Ids(h.onCommit))[id] + multiset(Ids(h.onRollback))[id] + multiset(LogIds(h.log))[id]
               == (if id < h.next then 1 else 0)
            && Rising(h.onCommit, h.next) && Rising(h.onRollback, h.next)
  {
    assert Places(EMPTY) + multiset{} == multiset{};
    RunKeepsSound(EMPTY, ops);
    var h := Run(EMPTY, ops);
    assert (Places(h) + multiset{})[id] == if id < h.next then 1 else 0;
  }

  // ---- the listeners ----------------------------------------------------------------

  class Session {
    var onCommit: seq<Entry>
    var onRollback: seq<Entry>
    var next: nat
    var log: seq<Event>

    constructor ()
      ensures State() == EMPTY
    {
      onCommit, onRollback, next, log := [], [], 0, [];
    }

    function State(): Hooks
      reads this
    {
      Hooks(onCommit, onRollback, next, log)
    }

    method RunAfterCommit(thunk: Thunk)
      modifies this
      ensures State() == Register(old(State()), OnCommit(thunk))
      ensures onCommit == old(onCommit) + [Entry(old(next), thunk)] && onRollback == old(onRollback) && log == old(log)
    {
      onCommit := onCommit + [Entry(next, thunk)];
      next := next + 1;
    }

    method RunAfterRollback(thunk: Thunk)
      modifies this
      ensures State() == Register(old(State()), OnRollback(thunk))
      ensures onRollback == old(onRollback) + [Entry(old(next), thunk)] && onCommit == old(onCommit) && log == old(log)
    {
      onRollback := onRollback + [Entry(next, thunk)];
      next := next + 1;
    }

    /** Calls a thunk; `raised` tells the listener that it raised after its registrations. */
    method Call(e: Entry) returns (raised: bool)
      modifies this
      ensures State() == Fire(old(State()), e) && raised == e.thunk.raises
    {
      log := log + [Fired(e.id, e.thunk.raises)];
      var rs := e.thunk.registers;
      ghost var start := State();
      assert rs[0..] == rs;
      for i := 0 to |rs|
        invariant RegisterAll(State(), rs[i..]) == RegisterAll(start, rs)
      {
        assert rs[i..][1..] == rs[i + 1..];
        match rs[i] {
          case OnCommit(t) => RunAfterCommit(t);
          case OnRollback(t) => RunAfterRollback(t);
        }
      }
      raised := e.thunk.raises;
    }

    /** The loop both listeners share: every thunk is called, whatever the others raise. */
    method FireEach(thunks: seq<Entry>)
      modifies this
      ensures State() == FireAll(old(State()), thunks)
    {
      ghost var start := State();
      assert thunks[0..] == thunks;
      for i := 0 to |thunks|
        invariant FireAll(State(), thunks[i..]) == FireAll(start, thunks)
      {
        assert thunks[i..][1..] == thunks[i + 1..];
        var _ := Call(thunks[i]);
      }
    }

    method AfterCommit()
      modifies this
      ensures State() == Commit(old(State()))
    {
      log := log + Drops(onRollback);
      onRollback := [];
      var thunks := onCommit;
      onCommit := [];
      FireEach(thunks);
    }

    /** Two listeners in registration order: fire the compensations, then drop the side effects. */
    method AfterRollback()
      modifies this
      ensures State() == Rollback(old(State()))
    {
      var thunks := onRollback;
      onRollback := [];
      FireEach(thunks);
      log := log + Drops(onCommit);
      onCommit := [];
    }
  }
}
