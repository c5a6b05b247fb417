/** One download request from start to end, as the routes run it, against the step system. */
module DownloadHandler {
  import opened Text
  import opened PaidKeys
  import opened DownloadBudget

  /** A server state in which no other request is running. */
  function Alone(store: Store): State {
    State(store, map[], [], [])
  }

  /** The steps of one request: `stored` is whether Redis took the mark, `commits` whether the commit succeeds. */
  function Steps(r: Request, stored: bool, commits: bool): seq<Action> {
    [Arrive(0, r), ReadMark(0), ReadRecord(0), TakeUnit(0), WriteMark(0, stored),
     if commits then Commit(0) else Abort(0), Serve(0)]
  }

  /** The thread of the request after the evidence was read. */
  function AfterEvidence(store: Store, r: Request, limits: Limits): State {
    DoReadRecord(DoReadMark(Next(Alone(store), Arrive(0, r), limits), 0), 0, limits.credit)
  }

  /** The same steps, applied one after the other. */
  function Solo(store: Store, r: Request, limits: Limits, stored: bool, commits: bool): State {
    var charged := DoTakeUnit(AfterEvidence(store, r, limits), 0);
    var marked := DoWriteMark(charged, 0, stored);
    DoServe(if commits then DoCommit(marked, 0) else DoAbort(marked, 0), 0)
  }

  lemma {:induction false} RunVisits(states: seq<State>, actions: seq<Action>, limits: Limits)
    requires |states| == |actions| + 1
    requires forall j :: 0 <= j < |actions| ==> states[j + 1] == Next(states[j], actions[j], limits)
    ensures Run(states[0], actions, limits) == states[|actions|]
    decreases |actions|
  {
    if actions != [] {
      RunVisits(states[1..], actions[1..], limits);
    }
  }

  lemma SoloIsARun(store: Store, r: Request, limits: Limits, stored: bool, commits: bool)
    ensures Run(Alone(store), Steps(r, stored, commits), limits) == Solo(store, r, limits, stored, commits)
  {
    hide DoReadMark, DoReadRecord, DoTakeUnit, DoWriteMark, DoCommit, DoAbort, DoServe, ValidRequest;
    var steps := Steps(r, stored, commits);
    var s0 := Alone(store);
    var s1 := Next(s0, steps[0], limits);
    var s2 := Next(s1, steps[1], limits);
    var s3 := Next(s2, steps[2], limits);
    var s4 := Next(s3, steps[3], limits);
    var s5 := Next(s4, steps[4], limits);
    var s6 := Next(s5, steps[5], limits);
    RunVisits([s0, s1, s2, s3, s4, s5, s6, Next(s6, steps[6], limits)], steps, limits);
  }

  /** The state of a lone request: its store, and the phase of its only thread. */
  function Result(s: State): Option<(Store, Phase)> {
    if 0 in s.threads then Some((s.store, s.threads[0].phase)) else None
  }

  lemma EvidenceGivesVerdict(store: Store, r: Request, limits: Limits)
    requires ValidRequest(r)
    ensures AfterEvidence(store, r, limits) == Alone(store).(threads := map[0 := AfterEvidence(store, r, limits).threads[0]])
    ensures AfterEvidence(store, r, limits).threads[0].req == r
    ensures AfterEvidence(store, r, limits).threads[0].phase == Verdict(store, r, limits.credit)
  {
  }

  predicate TakesUnit(store: Store, r: Request) {
    !r.review && r.budget in store.remaining
  }

  /**
   * What a request does on its own. A free transfer and a spent budget leave the store as it was; a
   * payment that aborts keeps only its mark; one that commits moves the counter and adds its rows.
   */
  function Outcome(store: Store, r: Request, limits: Limits, stored: bool, commits: bool): (Store, Phase) {
    var verdict := Verdict(store, r, limits.credit);
    var took := TakesUnit(store, r);
    if verdict.Free? then (store, Served(verdict.how))
    else if took && store.remaining[r.budget] == 0 then (store, Exhausted)
    else
      var marked := store.(marks := if stored then store.marks[Render(r.key) := store.now] else store.marks);
      if !commits then (marked, Failed)
      else
        (marked.(
          remaining := if took then store.remaining[r.budget := store.remaining[r.budget] - 1] else store.remaining,
          rows := store.rows + RowsFor(r, r.files, store.now),
          audits := store.audits + [Audit(r, took, store.now)]), Served(ByPayment))
  }

  lemma ChargeOf(store: Store, r: Request, limits: Limits, stored: bool, commits: bool)
    requires ValidRequest(r) && Verdict(store, r, limits.credit) == MustPay
    requires TakesUnit(store, r) ==> store.remaining[r.budget] > 0
    ensures Result(Solo(store, r, limits, stored, commits)) == Some(Outcome(store, r, limits, stored, commits))
  {
    hide Verdict, ValidRequest, Render, RowsFor, AfterEvidence, DoTakeUnit, DoCommit, DoAbort, DoServe;
    EvidenceGivesVerdict(store, r, limits);
    var took := TakesUnit(store, r);
    var charged := DoTakeUnit(AfterEvidence(store, r, limits), 0);
    TakeUnitOf(AfterEvidence(store, r, limits));
    var marked := DoWriteMark(charged, 0, stored);
    assert 0 in marked.threads && marked.threads[0].phase == Marked(took) && marked.threads[0].req == r;
    assert marked.store == charged.store.(marks := marked.store.marks);
    SettleOf(marked);
    if took {
      var left := store.remaining;
      assert left[r.budget := left[r.budget] - 1][r.budget := left[r.budget]] == left;
    }
  }

  /** A handler that runs alone does exactly what its steps do in the interleaved system. */
  lemma HandlerIsARun(store: Store, r: Request, limits: Limits, stored: bool, commits: bool)
    requires ValidRequest(r)
    ensures Result(Run(Alone(store), Steps(r, stored, commits), limits)) == Some(Outcome(store, r, limits, stored, commits))
  {
    SoloIsARun(store, r, limits, stored, commits);
    EvidenceGivesVerdict(store, r, limits);
    if Verdict(store, r, limits.credit) == MustPay && !(TakesUnit(store, r) && store.remaining[r.budget] == 0) {
      ChargeOf(store, r, limits, stored, commits);
    }
  }

  lemma TakeUnitOf(s: State)
    requires Is(s, 0, MustPay)
    requires var r := s.threads[0].req; !r.review && r.budget in s.store.remaining ==> s.store.remaining[r.budget] > 0
    ensures var r := s.threads[0].req;
            var took := !r.review && r.budget in s.store.remaining;
            var left := s.store.remaining;
            var s' := DoTakeUnit(s, 0);
            && Is(s', 0, Charged(took)) && s'.threads[0].req == r
            && s'.store == if took then s.store.(remaining := left[r.budget := left[r.budget] - 1]) else s.store
  {
  }

  lemma SettleOf(s: State)
    requires 0 in s.threads && s.threads[0].phase.Marked?
    ensures var th := s.threads[0];
            Result(DoServe(DoCommit(s, 0), 0)) == Some(
              (s.store.(rows := s.store.rows + RowsFor(th.req, th.req.files, s.store.now),
                        audits := s.store.audits + [Audit(th.req, th.phase.took, s.store.now)]), Served(ByPayment)))
    ensures var th := s.threads[0];
            var left := s.store.remaining;
            Result(DoServe(DoAbort(s, 0), 0)) == Some(
              (if th.phase.took && th.req.budget in left
               then s.store.(remaining := left[th.req.budget := left[th.req.budget] + 1]) else s.store, Failed))
  {
  }

  class DownloadServer {
    var now: int
    var remaining: map<string, nat>
    var marks: map<string, int>
    var rows: seq<LogRow>
    var audits: seq<Audit>

    constructor (store: Store)
      ensures Store() == store
    {
      now, remaining, marks := store.now, store.remaining, store.marks;
      rows, audits := store.rows, store.audits;
    }

    function Store(): Store
      reads this
    {
      DownloadBudget.Store(now, remaining, marks, rows, audits)
    }

    /** The atomic decrement; no row matches a counter at zero. */
    method TryDecrement(budget: string) returns (allowed: bool)
      requires budget in remaining
      modifies this`remaining
      ensures allowed <==> old(remaining)[budget] > 0
      ensures remaining == if allowed then old(remaining)[budget := old(remaining)[budget] - 1] else old(remaining)
    {
      allowed := remaining[budget] > 0;
      if allowed {
        remaining := remaining[budget := remaining[budget] - 1];
      }
    }

    /** What lets a request through without paying: a live mark, a durable record, or its being a size probe. */
    method Evidence(r: Request, credit: int) returns (how: Option<How>)
      ensures Verdict(Store(), r, credit) == if how.Some? then Free(how.value) else MustPay
      ensures how != Some(ByPayment)
    {
      hide Render, MarkLive, Recorded;
      if r.partial && MarkLive(Store(), r.key) {
        return Some(ByMark);
      }
      if r.partial && ByUser(r.key) && Recorded(Store(), r, credit) {
        return Some(ByRecord);
      }
      return if IsProbe(r) then Some(ByProbe) else None;
    }

    /** The log rows of a transfer, file by file. */
    method LogFiles(r: Request) returns (pending: seq<LogRow>)
      ensures pending == RowsFor(r, r.files, now) && |pending| == |r.files|
      ensures forall k :: 0 <= k < |r.files| ==>
                pending[k] == LogRow(if r.key.UserFile? || r.key.UserZip? then Some(r.key.user) else None, r.files[k], now)
    {
      pending := [];
      for i := 0 to |r.files|
        invariant |pending| == i && pending == RowsFor(r, r.files[..i], now)
        invariant forall k :: 0 <= k < i ==>
                    pending[k] == LogRow(if r.key.UserFile? || r.key.UserZip? then Some(r.key.user) else None, r.files[k], now)
      {
        pending := pending + [LogRow(if ByUser(r.key) then Some(r.key.user) else None, r.files[i], now)];
      }
      assert r.files[..|r.files|] == r.files;
    }

    /** A whole request; its outcome is the phase its thread ends in. */
    method Download(r: Request, limits: Limits, stored: bool, commits: bool) returns (out: Phase)
      requires ValidRequest(r)
      modifies this
      ensures (Store(), out) == Outcome(old(Store()), r, limits, stored, commits)
      ensures out == Exhausted || (out.Served? && out.how != ByPayment) ==> Store() == old(Store())
      ensures out == Exhausted <==>
                Verdict(old(Store()), r, limits.credit) == MustPay && !r.review
                && r.budget in old(remaining) && old(remaining)[r.budget] == 0
      ensures out == Served(ByPayment) ==>
                && commits && Verdict(old(Store()), r, limits.credit) == MustPay
                && remaining == (if !r.review && r.budget in old(remaining)
                                 then old(remaining)[r.budget := old(remaining)[r.budget] - 1] else old(remaining))
                && audits == old(audits) + [Audit(r, !r.review && r.budget in old(remaining), now)]
                && |rows| == old(|rows|) + |r.files| && rows[..old(|rows|)] == old(rows)
                && forall k :: 0 <= k < |r.files| ==>
                     rows[old(|rows|) + k]
                     == LogRow(if r.key.UserFile? || r.key.UserZip? then Some(r.key.user) else None, r.files[k], now)
      ensures out == Failed ==> !commits && remaining == old(remaining) && rows == old(rows) && audits == old(audits)
      ensures out == Served(ByPayment) || out == Failed ==>
                marks == if stored then old(marks)[Render(r.key) := now] else old(marks)
    {
      hide ValidRequest, Render, Verdict, RowsFor;
      var how := Evidence(r, limits.credit);
      if how.Some? {
        return Served(how.value);
      }
      var took := !r.review && r.budget in remaining;
      if took {
        var allowed := TryDecrement(r.budget);
        if !allowed {
          return Exhausted;
        }
      }
      if stored {
        marks := marks[Render(r.key) := now];
      }
      var pending := LogFiles(r);
      if !commits {
        if took {
          remaining := remaining[r.budget := remaining[r.budget] + 1];
        }
        assert remaining == old(remaining);
        return Failed;
      }
      rows := rows + pending;
      assert forall k :: 0 <= k < |r.files| ==> rows[old(|rows|) + k] == pending[k];
      audits := audits + [Audit(r, took, now)];
      return Served(ByPayment);
    }
  }
}
