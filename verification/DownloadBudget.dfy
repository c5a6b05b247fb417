/**
 * The download routes as an interleaved step system. Any number of requests run at once, each split
 * where another may come between: reading the payment mark, reading the durable record, the atomic
 * decrement, writing the mark, committing the rows, serving. Marks can be dropped at any moment.
 */
module DownloadBudget {
  import opened Text
  import opened PaidKeys

  // transfer_activity.PAID_TTL_SEC
  const PAID_TTL := 2 * 3600

  /**
   * `files` are the files whose bytes the request asks for, `budget` the counter of its share or link,
   * `partial` a range that starts above byte 0, `probe` a one-byte size probe, `review` access granted
   * only by review rights.
   */
  datatype Request = Request(key: PaidKey, files: seq<string>, budget: string, partial: bool, probe: bool, review: bool)

  predicate ValidRequest(r: Request) {
    && Plain(r.key)
    && (r.key.UserFile? || r.key.LinkFile? ==> r.files == [r.key.file])
    && !r.key.LinkPreview?
    && (r.key.LinkFile? || r.key.LinkZip? ==> !r.review)
  }

  predicate ByUser(k: PaidKey) {
    k.UserFile? || k.UserZip?
  }

  /** Only the single-file routes know the size probe. */
  predicate IsProbe(r: Request) {
    r.probe && (r.key.UserFile? || r.key.LinkFile?)
  }

  datatype LogRow = LogRow(user: Option<string>, file: string, at: int)
  datatype Audit = Audit(req: Request, took: bool, at: int)
  /** The limit of each budget, and the seconds a durable record counts (DOWNLOAD_RESUME_CREDIT_HOURS). */
  datatype Limits = Limits(of: map<string, nat>, credit: int)

  datatype Store = Store(
    now: int,
    remaining: map<string, nat>,
    marks: map<string, int>,
    rows: seq<LogRow>,
    audits: seq<Audit>)

  /** How a transfer came to be served. */
  datatype How = ByPayment | ByMark | ByRecord | ByProbe
  datatype Phase =
    | Arrived
    | MarkMissed
    | Free(how: How)
    | MustPay
    | Charged(took: bool)
    | Marked(took: bool)
    | Committed
    | Served(how: How)
    | Exhausted
    | Failed
  datatype Thread = Thread(req: Request, phase: Phase, decided: int)

  /** The two ghost histories: who took the charging branch, and who wrote which mark when. */
  datatype Charge = Charge(thread: nat, req: Request, at: int)
  datatype MarkEvent = MarkEvent(thread: nat, key: PaidKey, at: int)
  datatype State = State(
    store: Store,
    threads: map<nat, Thread>,
    charges: seq<Charge>,
    marked: seq<MarkEvent>)

  datatype Action =
    | Tick(seconds: nat)
    | LoseMark(key: string)
    | PreviewMark(link: string, file: string)
    | Arrive(t: nat, req: Request)
    | ReadMark(t: nat)
    | ReadRecord(t: nat)
    | Refuse(t: nat)
    | TakeUnit(t: nat)
    | WriteMark(t: nat, stored: bool)
    | Commit(t: nat)
    | Abort(t: nat)
    | Serve(t: nat)

  // ---- the evidence -----------------------------------------------------------------

  predicate MarkLive(s: Store, k: PaidKey) {
    Render(k) in s.marks && s.now < s.marks[Render(k)] + PAID_TTL
  }

  /** The durable record of an earlier payment; the public routes have none. */
  predicate Recorded(s: Store, r: Request, credit: int) {
    match r.key
    case UserFile(u, f) => exists row :: row in s.rows && row.user == Some(u) && row.file == f && s.now - credit <= row.at
    case UserZip(_, _, _) => exists a :: a in s.audits && a.req.key == r.key && s.now - credit <= a.at
    case _ => false
  }

  function Decide(hit: Option<How>, r: Request): Phase {
    if hit.Some? then Free(hit.value)
    else if IsProbe(r) then Free(ByProbe)
    else MustPay
  }

  /** What a request is told when nothing else runs beside it. */
  function Verdict(s: Store, r: Request, credit: int): Phase {
    if r.partial && MarkLive(s, r.key) then Decide(Some(ByMark), r)
    else if r.partial && ByUser(r.key) && Recorded(s, r, credit) then Decide(Some(ByRecord), r)
    else Decide(None, r)
  }

  /** One log row for every file the transfer covers. */
  function RowsFor(r: Request, files: seq<string>, at: int): seq<LogRow> {
    seq(|files|, i requires 0 <= i < |files| => LogRow(if ByUser(r.key) then Some(r.key.user) else None, files[i], at))
  }

  // ---- the steps --------------------------------------------------------------------

  function At(s: State, t: nat, phase: Phase): State
    requires t in s.threads
  {
    s.(threads := s.threads[t := s.threads[t].(phase := phase)])
  }

  function Decided(s: State, t: nat, phase: Phase): State
    requires t in s.threads
  {
    s.(threads := s.threads[t := s.threads[t].(phase := phase, decided := s.store.now)])
  }

  predicate Is(s: State, t: nat, phase: Phase) {
    t in s.threads && s.threads[t].phase == phase
  }

  /** A unit is in flight: taken from the counter, its rows not committed yet. */
  predicate Holds(th: Thread, budget: string) {
    (th.phase.Charged? || th.phase.Marked?) && th.phase.took && th.req.budget == budget
  }

  function DoReadMark(s: State, t: nat): State {
    if !Is(s, t, Arrived) then s
    else
      var r := s.threads[t].req;
      if r.partial && MarkLive(s.store, r.key) then Decided(s, t, Decide(Some(ByMark), r))
      else if r.partial && ByUser(r.key) then At(s, t, MarkMissed)
      else Decided(s, t, Decide(None, r))
  }

  function DoReadRecord(s: State, t: nat, credit: int): State {
    if !Is(s, t, MarkMissed) then s
    else
      var r := s.threads[t].req;
      Decided(s, t, Decide(if Recorded(s.store, r, credit) then Some(ByRecord) else None, r))
  }

  /** Any refusal ahead of the charge: access, maintenance, file state, a spent link. */
  function DoRefuse(s: State, t: nat): State {
    if t in s.threads
       && (s.threads[t].phase.Arrived? || s.threads[t].phase.MarkMissed? || s.threads[t].phase.Free? || s.threads[t].phase.MustPay?)
    then At(s, t, Failed) else s
  }

  /** The atomic "decrement if above zero", and the charging branch that follows it. */
  function DoTakeUnit(s: State, t: nat): State {
    if !Is(s, t, MustPay) then s
    else
      var r := s.threads[t].req;
      var left := s.store.remaining;
      var charges := s.charges + [Charge(t, r, s.store.now)];
      if r.review || r.budget !in left then At(s, t, Charged(false)).(charges := charges)
      else if left[r.budget] == 0 then At(s, t, Exhausted)
      else
        At(s, t, Charged(true)).(
          charges := charges,
          store := s.store.(remaining := left[r.budget := left[r.budget] - 1]))
  }

  function DoWriteMark(s: State, t: nat, stored: bool): State {
    if !(t in s.threads && s.threads[t].phase.Charged?) then s
    else
      var th := s.threads[t];
      var s' := At(s, t, Marked(th.phase.took));
      if !stored then s'
      else
        s'.(
          store := s.store.(marks := s.store.marks[Render(th.req.key) := s.store.now]),
          marked := s.marked + [MarkEvent(t, th.req.key, s.store.now)])
  }

  function DoCommit(s: State, t: nat): State {
    if !(t in s.threads && s.threads[t].phase.Marked?) then s
    else
      var th := s.threads[t];
      At(s, t, Committed).(
        store := s.store.(
          rows := s.store.rows + RowsFor(th.req, th.req.files, s.store.now),
          audits := s.store.audits + [Audit(th.req, th.phase.took, s.store.now)]))
  }

  /** A failure between the decrement and the commit: the transaction rolls back, the mark stays. */
  function DoAbort(s: State, t: nat): State {
    if Pending(s.threads, t).None? then s
    else
      var th := s.threads[t];
      var left := s.store.remaining;
      if !th.phase.took || th.req.budget !in left then At(s, t, Failed)
      else At(s, t, Failed).(store := s.store.(remaining := left[th.req.budget := left[th.req.budget] + 1]))
  }

  function DoServe(s: State, t: nat): State {
    if Is(s, t, Committed) then At(s, t, Served(ByPayment))
    else if t in s.threads && s.threads[t].phase.Free? then At(s, t, Served(s.threads[t].phase.how))
    else s
  }

  /** One step; an action that is not enabled changes nothing. */
  function Next(s: State, a: Action, limits: Limits): State {
    match a
    case Tick(d) => s.(store := s.store.(now := s.store.now + d))
    case LoseMark(k) => s.(store := s.store.(marks := s.store.marks - {k}))
    case PreviewMark(l, f) =>
      var k := LinkPreview(l, f);
      if Plain(k) then s.(store := s.store.(marks := s.store.marks[Render(k) := s.store.now])) else s
    case Arrive(t, r) =>
      if t in s.threads || !ValidRequest(r) then s
      else s.(threads := s.threads[t := Thread(r, Arrived, s.store.now)])
    case ReadMark(t) => DoReadMark(s, t)
    case ReadRecord(t) => DoReadRecord(s, t, limits.credit)
    case Refuse(t) => DoRefuse(s, t)
    case TakeUnit(t) => DoTakeUnit(s, t)
    case WriteMark(t, stored) => DoWriteMark(s, t, stored)
    case Commit(t) => DoCommit(s, t)
    case Abort(t) => DoAbort(s, t)
    case Serve(t) => DoServe(s, t)
  }

  function Run(s: State, actions: seq<Action>, limits: Limits): State
    decreases |actions|
  {
    if actions == [] then s else Run(Next(s, actions[0], limits), actions[1..], limits)
  }

  /** A server with full budgets and nothing remembered. */
  function Fresh(limits: Limits, now: int): State {
    State(Store(now, limits.of, map[], [], []), map[], [], [])
  }

  // ---- the budget invariant ---------------------------------------------------------

  ghost function Holders(threads: map<nat, Thread>, budget: string): set<nat> {
    set t | t in threads && Holds(threads[t], budget)
  }

  /** What thread `t` has in flight: whether it took a unit, and for which request. */
  function Pending(threads: map<nat, Thread>, t: nat): Option<(bool, Request)> {
    if t in threads && (threads[t].phase.Charged? || threads[t].phase.Marked?)
    then Some((threads[t].phase.took, threads[t].req)) else None
  }

  /** The committed charge records of a budget, review records left out. */
  function PaidRecords(audits: seq<Audit>, budget: string): nat {
    if audits == [] then 0
    else
      var last := audits[|audits| - 1];
      PaidRecords(audits[..|audits| - 1], budget) + if last.took && last.req.budget == budget then 1 else 0
  }

  ghost predicate BalancedAt(s: State, limits: Limits, b: string)
    requires b in limits.of
  {
    b in s.store.remaining && s.store.remaining[b] + |Holders(s.threads, b)| + PaidRecords(s.store.audits, b) == limits.of[b]
  }

  ghost predicate Balanced(s: State, limits: Limits) {
    && s.store.remaining.Keys == limits.of.Keys
    && forall b :: b in limits.of ==> BalancedAt(s, limits, b)
  }

  predicate TookIfLimited(took: bool, r: Request, limits: Limits) {
    took <==> !r.review && r.budget in limits.of
  }

  /** Units are taken exactly by the non-review requests of limited budgets. */
  ghost predicate TakesMatch(s: State, limits: Limits) {
    && (forall t :: Pending(s.threads, t).Some? ==>
          TookIfLimited(Pending(s.threads, t).value.0, Pending(s.threads, t).value.1, limits))
    && (forall a :: a in s.store.audits ==> TookIfLimited(a.took, a.req, limits))
  }

  function Unit(holds: bool): int {
    if holds then 1 else 0
  }

  /** How a change of one thread moves the number of units in flight. */
  lemma HoldersMove(threads: map<nat, Thread>, t: nat, th: Thread, b: string)
    ensures |Holders(threads[t := th], b)|
         == |Holders(threads, b)| + Unit(Holds(th, b)) - Unit(t in threads && Holds(threads[t], b))
  {
    var before, after := Holders(threads, b), Holders(threads[t := th], b);
    assert after - {t} == before - {t};
    assert t in after <==> Holds(th, b);
    assert t in before <==> t in threads && Holds(threads[t], b);
    assert |after - {t}| == |after| - Unit(t in after);
    assert |before - {t}| == |before| - Unit(t in before);
  }

  lemma QuietKeepsBalance(s: State, s': State, limits: Limits)
    requires Balanced(s, limits) && TakesMatch(s, limits)
    requires s'.store.remaining == s.store.remaining && s'.store.audits == s.store.audits
    requires forall t :: Pending(s'.threads, t) == Pending(s.threads, t)
    ensures Balanced(s', limits) && TakesMatch(s', limits)
  {
    forall b | b in limits.of ensures BalancedAt(s', limits, b) {
      assert BalancedAt(s, limits, b);
      forall t ensures t in Holders(s'.threads, b) <==> t in Holders(s.threads, b) {
        assert Pending(s'.threads, t) == Pending(s.threads, t);
      }
      assert Holders(s'.threads, b) == Holders(s.threads, b);
    }
  }

  lemma TakeUnitKeepsBalance(s: State, t: nat, limits: Limits)
    requires Balanced(s, limits) && TakesMatch(s, limits)
    ensures Balanced(DoTakeUnit(s, t), limits) && TakesMatch(DoTakeUnit(s, t), limits)
  {
    var s' := DoTakeUnit(s, t);
    if Is(s, t, MustPay) {
      forall u | Pending(s'.threads, u).Some?
        ensures TookIfLimited(Pending(s'.threads, u).value.0, Pending(s'.threads, u).value.1, limits)
      {
        if u != t {
          assert Pending(s'.threads, u) == Pending(s.threads, u);
        }
      }
      forall b | b in limits.of ensures BalancedAt(s', limits, b) {
        assert BalancedAt(s, limits, b);
        HoldersMove(s.threads, t, s'.threads[t], b);
      }
    }
  }

  lemma CommitKeepsBalance(s: State, t: nat, limits: Limits)
    requires Balanced(s, limits) && TakesMatch(s, limits)
    ensures Balanced(DoCommit(s, t), limits) && TakesMatch(DoCommit(s, t), limits)
  {
    var s' := DoCommit(s, t);
    if t in s.threads && s.threads[t].phase.Marked? {
      forall u | Pending(s'.threads, u).Some?
        ensures TookIfLimited(Pending(s'.threads, u).value.0, Pending(s'.threads, u).value.1, limits)
      {
        if u != t {
          assert Pending(s'.threads, u) == Pending(s.threads, u);
        }
      }
      assert Pending(s.threads, t).Some?;
      var audits := s'.store.audits;
      assert audits[..|audits| - 1] == s.store.audits;
      forall b | b in limits.of ensures BalancedAt(s', limits, b) {
        assert BalancedAt(s, limits, b);
        HoldersMove(s.threads, t, s'.threads[t], b);
      }
    }
  }

  lemma AbortKeepsBalance(s: State, t: nat, limits: Limits)
    requires Balanced(s, limits) && TakesMatch(s, limits)
    ensures Balanced(DoAbort(s, t), limits) && TakesMatch(DoAbort(s, t), limits)
  {
    var s' := DoAbort(s, t);
    if Pending(s.threads, t).Some? {
      forall u | Pending(s'.threads, u).Some?
        ensures TookIfLimited(Pending(s'.threads, u).value.0, Pending(s'.threads, u).value.1, limits)
      {
        if u != t {
          assert Pending(s'.threads, u) == Pending(s.threads, u);
        }
      }
      forall b | b in limits.of ensures BalancedAt(s', limits, b) {
        assert BalancedAt(s, limits, b);
        HoldersMove(s.threads, t, s'.threads[t], b);
      }
    }
  }

  /** Every other step leaves the counter, the records and what is in flight as they are. */
  lemma QuietStep(s: State, a: Action, limits: Limits, u: nat)
    requires !a.TakeUnit? && !a.Commit? && !a.Abort?
    ensures Pending(Next(s, a, limits).threads, u) == Pending(s.threads, u)
    ensures Next(s, a, limits).store.remaining == s.store.remaining && Next(s, a, limits).store.audits == s.store.audits
  {
    hide Recorded, MarkLive, Render, RowsFor, ValidRequest, IsProbe, ByUser, Plain;
  }

  lemma StepKeepsBalance(s: State, a: Action, limits: Limits)
    requires Balanced(s, limits) && TakesMatch(s, limits)
    ensures Balanced(Next(s, a, limits), limits) && TakesMatch(Next(s, a, limits), limits)
  {
    hide Balanced, TakesMatch, Pending, DoReadMark, DoReadRecord, DoRefuse, DoTakeUnit, DoWriteMark, DoCommit, DoAbort, DoServe;
    match a
    case TakeUnit(t) => TakeUnitKeepsBalance(s, t, limits);
    case Commit(t) => CommitKeepsBalance(s, t, limits);
    case Abort(t) => AbortKeepsBalance(s, t, limits);
    case _ =>
      forall u ensures Pending(Next(s, a, limits).threads, u) == Pending(s.threads, u) {
        QuietStep(s, a, limits, u);
      }
      QuietStep(s, a, limits, 0);
      QuietKeepsBalance(s, Next(s, a, limits), limits);
  }

  lemma FreshIsBalanced(limits: Limits, now: int)
    ensures Balanced(Fresh(limits, now), limits) && TakesMatch(Fresh(limits, now), limits)
  {
    forall b | b in limits.of ensures BalancedAt(Fresh(limits, now), limits, b) {
      assert Holders(Fresh(limits, now).threads, b) == {};
    }
  }

  lemma {:induction false} RunKeepsBalance(s: State, actions: seq<Action>, limits: Limits)
    requires Balanced(s, limits) && TakesMatch(s, limits)
    ensures Balanced(Run(s, actions, limits), limits) && TakesMatch(Run(s, actions, limits), limits)
    decreases |actions|
  {
    if actions != [] {
      StepKeepsBalance(s, actions[0], limits);
      RunKeepsBalance(Next(s, actions[0], limits), actions[1..], limits);
    }
  }

  /** The indices of the committed records that spent a unit of `b`. */
  ghost function Spent(audits: seq<Audit>, b: string): set<nat> {
    set i: nat | i < |audits| && audits[i].took && audits[i].req.budget == b
  }

  lemma {:induction false} PaidRecordsCounts(audits: seq<Audit>, b: string)
    ensures PaidRecords(audits, b) == |Spent(audits, b)|
  {
    if audits != [] {
      var n := |audits| - 1;
      PaidRecordsCounts(audits[..n], b);
      var rest := Spent(audits[..n], b);
      assert Spent(audits, b) == rest + if audits[n].took && audits[n].req.budget == b then {n} else {};
    }
  }

  /**
   * In every interleaving the counter has moved by the committed charge records plus the units still
   * in flight, so once nothing is in flight it has moved by the charge records alone. A record spent a
   * unit exactly if its budget is limited and it was no review.
   */
  lemma BudgetIsConserved(limits: Limits, now: int, actions: seq<Action>, b: string)
    requires b in limits.of
    ensures var s := Run(Fresh(limits, now), actions, limits);
            var spent := set i: nat | i < |s.store.audits| && !s.store.audits[i].req.review && s.store.audits[i].req.budget == b;
            var flying := set t | t in s.threads && (s.threads[t].phase.Charged? || s.threads[t].phase.Marked?)
                                  && !s.threads[t].req.review && s.threads[t].req.budget == b;
            && b in s.store.remaining
            && limits.of[b] == s.store.remaining[b] + |spent| + |flying|
            && (flying == {} ==> limits.of[b] == s.store.remaining[b] + |spent|)
    ensures forall a :: a in Run(Fresh(limits, now), actions, limits).store.audits ==>
              (a.took <==> !a.req.review && a.req.budget in limits.of)
  {
    hide Run;
    FreshIsBalanced(limits, now);
    RunKeepsBalance(Fresh(limits, now), actions, limits);
    var s := Run(Fresh(limits, now), actions, limits);
    assert BalancedAt(s, limits, b);
    PaidRecordsCounts(s.store.audits, b);
    var spent := set i: nat | i < |s.store.audits| && !s.store.audits[i].req.review && s.store.audits[i].req.budget == b;
    var flying := set t | t in s.threads && (s.threads[t].phase.Charged? || s.threads[t].phase.Marked?)
                          && !s.threads[t].req.review && s.threads[t].req.budget == b;
    assert forall i :: 0 <= i < |s.store.audits| ==> s.store.audits[i] in s.store.audits;
    assert spent == Spent(s.store.audits, b);
    forall t ensures t in flying <==> t in Holders(s.threads, b) {
      assert Pending(s.threads, t).Some? ==> TookIfLimited(Pending(s.threads, t).value.0, Pending(s.threads, t).value.1, limits);
    }
    assert flying == Holders(s.threads, b);
  }

  // ---- refinement of a sequential counter -------------------------------------------

  /** What a sequential counter sees of a step. */
  datatype Label = Take(budget: string) | Reject(budget: string) | Release(budget: string) | Quiet

  function LabelOf(s: State, a: Action): Label {
    if a.TakeUnit? && Is(s, a.t, MustPay) then
      var r := s.threads[a.t].req;
      if r.review || r.budget !in s.store.remaining then Quiet
      else if s.store.remaining[r.budget] == 0 then Reject(r.budget) else Take(r.budget)
    else if a.Abort? && Pending(s.threads, a.t).Some? && s.threads[a.t].phase.took
            && s.threads[a.t].req.budget in s.store.remaining then
      Release(s.threads[a.t].req.budget)
    else Quiet
  }

  /** The sequential counter: it takes only above zero, rejects only at zero, releases only below its limit. */
  function Count(left: map<string, nat>, seen: Label, limits: Limits): Option<map<string, nat>> {
    match seen
    case Take(b) => if b in left && left[b] > 0 then Some(left[b := left[b] - 1]) else None
    case Reject(b) => if b in left && left[b] == 0 then Some(left) else None
    case Release(b) => if b in left && b in limits.of && left[b] < limits.of[b] then Some(left[b := left[b] + 1]) else None
    case Quiet => Some(left)
  }

  function Labels(s: State, actions: seq<Action>, limits: Limits): seq<Label>
    decreases |actions|
  {
    if actions == [] then [] else [LabelOf(s, actions[0])] + Labels(Next(s, actions[0], limits), actions[1..], limits)
  }

  function CountAll(left: map<string, nat>, labels: seq<Label>, limits: Limits): Option<map<string, nat>> {
    if labels == [] then Some(left)
    else
      var next := Count(left, labels[0], limits);
      if next.None? then None else CountAll(next.value, labels[1..], limits)
  }

  lemma StepRefinesCounter(s: State, a: Action, limits: Limits)
    requires Balanced(s, limits) && TakesMatch(s, limits)
    ensures Count(s.store.remaining, LabelOf(s, a), limits) == Some(Next(s, a, limits).store.remaining)
  {
    if LabelOf(s, a).Release? {
      var b := s.threads[a.t].req.budget;
      assert BalancedAt(s, limits, b);
      assert a.t in Holders(s.threads, b);
    }
  }

  lemma {:induction false} RunRefines(s: State, actions: seq<Action>, limits: Limits)
    requires Balanced(s, limits) && TakesMatch(s, limits)
    ensures CountAll(s.store.remaining, Labels(s, actions, limits), limits) == Some(Run(s, actions, limits).store.remaining)
    decreases |actions|
  {
    if actions != [] {
      StepRefinesCounter(s, actions[0], limits);
      StepKeepsBalance(s, actions[0], limits);
      var labels := Labels(s, actions, limits);
      assert labels[1..] == Labels(Next(s, actions[0], limits), actions[1..], limits);
      RunRefines(Next(s, actions[0], limits), actions[1..], limits);
    }
  }

  /** Every interleaving is a legal run of the sequential counter, taken in the order of the decrements. */
  lemma InterleavingRefinesCounter(limits: Limits, now: int, actions: seq<Action>)
    ensures CountAll(limits.of, Labels(Fresh(limits, now), actions, limits), limits)
         == Some(Run(Fresh(limits, now), actions, limits).store.remaining)
  {
    FreshIsBalanced(limits, now);
    RunRefines(Fresh(limits, now), actions, limits);
  }
}
