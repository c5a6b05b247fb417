/**
 * What a failing commit costs. The mark is written ahead of the commit, so a payment that is taken back may have
 * freed a continuation already. As long as no such payment is taken back, every free transfer is backed.
 */
module DownloadBacking {
  import opened Text
  import opened PaidKeys
  import opened DownloadBudget
  import opened DownloadHandler
  import opened DownloadLicence

  /** The action takes back a payment whose mark was stored. */
  predicate TakesBackAMark(s: State, a: Action) {
    a.Abort? && exists m :: m in s.marked && m.thread == a.t
  }

  /** No commit of a marked payment fails in the run. */
  predicate MarksAreHonoured(s: State, actions: seq<Action>, limits: Limits)
    decreases |actions|
  {
    actions == [] || (!TakesBackAMark(s, actions[0]) && MarksAreHonoured(Next(s, actions[0], limits), actions[1..], limits))
  }

  predicate Paying(p: Phase) {
    p.Marked? || p.Committed? || p == Served(ByPayment)
  }

  /** Everyone who wrote a mark is about to commit the payment for that key, or has. */
  ghost predicate MarkersStand(s: State) {
    forall m :: m in s.marked ==>
      m.thread in s.threads && s.threads[m.thread].req.key == m.key && Paying(s.threads[m.thread].phase)
  }

  ghost predicate HasRecord(s: State, r: Request) {
    exists a :: a in s.store.audits && a.req == r
  }

  ghost predicate CommittedIsRecorded(s: State) {
    forall t :: t in s.threads && (s.threads[t].phase.Committed? || s.threads[t].phase == Served(ByPayment)) ==>
      HasRecord(s, s.threads[t].req)
  }

  /** How one step moves one thread that has a mark, or a record. */
  lemma ThreadStep(s: State, a: Action, limits: Limits, t: nat)
    requires t in s.threads
    ensures var s' := Next(s, a, limits);
            && t in s'.threads && s'.threads[t].req == s.threads[t].req
            && (Paying(s.threads[t].phase) && !(a.Abort? && a.t == t) ==> Paying(s'.threads[t].phase))
            && (s'.threads[t].phase.Committed? && !s.threads[t].phase.Committed? ==> a == Commit(t) && s.threads[t].phase.Marked?)
            && (s'.threads[t].phase == Served(ByPayment) && s.threads[t].phase != Served(ByPayment) ==>
                  s.threads[t].phase.Committed? || s.threads[t].phase == Free(ByPayment))
  {
    hide Recorded, MarkLive, Render, RowsFor, ValidRequest, IsProbe;
  }

  lemma MarkStep(s: State, a: Action, limits: Limits, m: MarkEvent)
    requires m in Next(s, a, limits).marked && m !in s.marked
    ensures var s' := Next(s, a, limits);
            m.thread in s'.threads && s'.threads[m.thread].phase.Marked? && s'.threads[m.thread].req.key == m.key
  {
    hide Recorded, MarkLive, Render, RowsFor, ValidRequest, IsProbe;
  }

  lemma StepKeepsMarkers(s: State, a: Action, limits: Limits)
    requires MarkersStand(s) && !TakesBackAMark(s, a)
    ensures MarkersStand(Next(s, a, limits))
  {
    hide Next;
    var s' := Next(s, a, limits);
    forall m | m in s'.marked
      ensures m.thread in s'.threads && s'.threads[m.thread].req.key == m.key && Paying(s'.threads[m.thread].phase)
    {
      if m in s.marked {
        ThreadStep(s, a, limits, m.thread);
      } else {
        MarkStep(s, a, limits, m);
      }
    }
  }

  /** No thread is free by payment. */
  ghost predicate FreeIsFree(s: State) {
    forall t :: t in s.threads ==> s.threads[t].phase != Free(ByPayment)
  }

  lemma RecordStep(s: State, a: Action, limits: Limits)
    requires CommittedIsRecorded(s) && FreeIsFree(s)
    ensures CommittedIsRecorded(Next(s, a, limits))
  {
    hide Next;
    var s' := Next(s, a, limits);
    StepGrows(s, a, limits);
    assert forall x :: x in s.store.audits ==> x in s'.store.audits;
    forall t | t in s'.threads && (s'.threads[t].phase.Committed? || s'.threads[t].phase == Served(ByPayment))
      ensures HasRecord(s', s'.threads[t].req)
    {
      ArrivedOnly(s, a, limits, t);
      ThreadStep(s, a, limits, t);
      if a == Commit(t) && s.threads[t].phase.Marked? {
        CommitRecords(s, t, limits);
      } else {
        assert HasRecord(s, s.threads[t].req);
      }
    }
  }

  lemma ArrivedOnly(s: State, a: Action, limits: Limits, t: nat)
    requires t in Next(s, a, limits).threads
    ensures t in s.threads || Next(s, a, limits).threads[t].phase.Arrived?
  {
    hide Recorded, MarkLive, Render, RowsFor, ValidRequest, IsProbe;
  }

  lemma CommitRecords(s: State, t: nat, limits: Limits)
    requires t in s.threads && s.threads[t].phase.Marked?
    ensures HasRecord(Next(s, Commit(t), limits), s.threads[t].req)
  {
    var audit := Audit(s.threads[t].req, s.threads[t].phase.took, s.store.now);
    assert audit in DoCommit(s, t).store.audits;
  }

  lemma FreeStep(s: State, a: Action, limits: Limits)
    requires FreeIsFree(s)
    ensures FreeIsFree(Next(s, a, limits))
  {
    hide Recorded, MarkLive, Render, RowsFor, ValidRequest, IsProbe;
  }

  lemma {:induction false} RunKeepsBacking(s: State, actions: seq<Action>, limits: Limits)
    requires MarkersStand(s) && CommittedIsRecorded(s) && FreeIsFree(s) && MarksAreHonoured(s, actions, limits)
    ensures MarkersStand(Run(s, actions, limits)) && CommittedIsRecorded(Run(s, actions, limits))
    decreases |actions|
  {
    hide Next, MarkersStand, CommittedIsRecorded, FreeIsFree, TakesBackAMark;
    if actions != [] {
      StepKeepsMarkers(s, actions[0], limits);
      RecordStep(s, actions[0], limits);
      FreeStep(s, actions[0], limits);
      RunKeepsBacking(Next(s, actions[0], limits), actions[1..], limits);
    }
  }

  /** A payer of this very key whose payment is committed, or about to be. */
  ghost predicate BackedBy(s: State, p: nat, r: Request) {
    && p in s.threads && s.threads[p].req.key == r.key
    && (s.threads[p].phase.Marked? || HasRecord(s, s.threads[p].req))
  }

  /**
   * Unless the commit of a payment fails after its mark was stored, every transfer served free as a continuation
   * has a committed record that covers it, or a payer of the same key who is about to commit one.
   */
  lemma FreeTransfersAreBacked(limits: Limits, now: int, actions: seq<Action>, t: nat)
    requires MarksAreHonoured(Fresh(limits, now), actions, limits)
    requires var s := Run(Fresh(limits, now), actions, limits);
             t in s.threads && (s.threads[t].phase == Served(ByMark) || s.threads[t].phase == Served(ByRecord))
    ensures var s := Run(Fresh(limits, now), actions, limits);
            || (exists p :: BackedBy(s, p, s.threads[t].req))
            || (exists a :: a in s.store.audits && Covers(a.req, s.threads[t].req))
  {
    hide Run, Next, MarksAreEarned, RowsAreEarned, ChargesAreReal;
    var s := Run(Fresh(limits, now), actions, limits);
    RunKeepsBacking(Fresh(limits, now), actions, limits);
    RunKeepsEarned(Fresh(limits, now), actions, limits);
    assert Justified(s, t, limits.credit);
    if s.threads[t].phase == Served(ByMark) {
      var m :| m in s.marked && m.key == s.threads[t].req.key;
      assert BackedBy(s, m.thread, s.threads[t].req);
    }
  }

  // ---- a payment that is taken back -----------------------------------------------------

  function TakenBack(r: Request, again: Request): seq<Action> {
    [Arrive(0, r), ReadMark(0), TakeUnit(0), WriteMark(0, true), Abort(0), Arrive(1, again), ReadMark(1), Serve(1)]
  }

  /**
   * The condition is needed: a payment is marked, its commit fails, and a continuation is served free though no
   * payment was ever committed and the budget is as full as before.
   */
  lemma TakenBackPaymentFrees() returns (limits: Limits, r: Request, again: Request)
    ensures var s := Run(Fresh(limits, 0), TakenBack(r, again), limits);
            && 1 in s.threads && s.threads[1].phase == Served(ByMark)
            && s.store.audits == [] && s.store.remaining == limits.of
            && !(exists p :: BackedBy(s, p, s.threads[1].req))
  {
    limits := Limits(map["b" := 1], 3600);
    r := Request(LinkFile("l", "f"), ["f"], "b", false, false, false);
    again := r.(partial := true);
    PlainLink();
    TakenBackRun(limits, r, again);
  }

  lemma PlainLink()
    ensures Plain(LinkFile("l", "f"))
  {
    assert forall p :: p in Parts(LinkFile("l", "f")) ==> p == "link" || p == "l" || p == "file" || p == "f";
  }

  /** A lone request that pays, marks and is taken back leaves its mark. */
  lemma PaidAndTakenBack(limits: Limits, r: Request) returns (states: seq<State>)
    requires limits == Limits(map["b" := 1], 3600) && Plain(r.key)
    requires r == Request(LinkFile("l", "f"), ["f"], "b", false, false, false)
    ensures |states| == 6 && states[0] == Fresh(limits, 0)
    ensures forall j :: 0 <= j < 5 ==> states[j + 1] == Next(states[j], TakenBack(r, r)[j], limits)
    ensures states[5].threads == map[0 := Thread(r, Failed, 0)]
    ensures states[5].store == states[0].store.(marks := map[Render(r.key) := 0])
  {
    hide Render, Plain, DoWriteMark, DoAbort;
    var s0 := Fresh(limits, 0);
    var s1 := Next(s0, Arrive(0, r), limits);
    var s2 := Next(s1, ReadMark(0), limits);
    assert s2.threads == map[0 := Thread(r, MustPay, 0)] && s2.store == s0.store;
    var s3 := DoTakeUnit(s2, 0);
    assert s3.threads == map[0 := Thread(r, Charged(true), 0)] && s3.store == s0.store.(remaining := map["b" := 0]);
    TakeBack(s3, r);
    var s4 := DoWriteMark(s3, 0, true);
    states := [s0, s1, s2, s3, s4, DoAbort(s4, 0)];
  }

  lemma TakeBack(s: State, r: Request)
    requires s.threads == map[0 := Thread(r, Charged(true), 0)] && s.store.now == 0 && s.store.marks == map[]
    requires r.budget == "b" && s.store.remaining == map["b" := 0]
    ensures var end := DoAbort(DoWriteMark(s, 0, true), 0);
            && end.threads == map[0 := Thread(r, Failed, 0)]
            && end.store == s.store.(remaining := map["b" := 1], marks := map[Render(r.key) := 0])
  {
    hide Render;
    var s4 := DoWriteMark(s, 0, true);
    assert s4.threads == map[0 := Thread(r, Marked(true), 0)];
  }

  /** The continuation that comes after it is free. */
  lemma ServedOnTheMark(limits: Limits, s5: State, r: Request, again: Request) returns (states: seq<State>)
    requires Plain(r.key) && r.key.LinkFile? && again == r.(partial := true) && ValidRequest(again)
    requires s5.threads == map[0 := Thread(r, Failed, 0)] && s5.store.now == 0 && s5.store.marks == map[Render(r.key) := 0]
    ensures |states| == 4 && states[0] == s5
    ensures states[1] == Next(s5, Arrive(1, again), limits)
    ensures states[2] == Next(states[1], ReadMark(1), limits) && states[3] == Next(states[2], Serve(1), limits)
    ensures states[3].threads == map[0 := Thread(r, Failed, 0), 1 := Thread(again, Served(ByMark), 0)]
    ensures states[3].store == s5.store
  {
    hide Render, Plain;
    var s6 := Next(s5, Arrive(1, again), limits);
    assert s6.threads == map[0 := Thread(r, Failed, 0), 1 := Thread(again, Arrived, 0)];
    var s7 := DoReadMark(s6, 1);
    states := [s5, s6, s7, DoServe(s7, 1)];
  }

  /** The run, state by state. */
  lemma TakenBackRun(limits: Limits, r: Request, again: Request)
    requires limits == Limits(map["b" := 1], 3600) && Plain(r.key) && again == r.(partial := true)
    requires r == Request(LinkFile("l", "f"), ["f"], "b", false, false, false)
    ensures var s := Run(Fresh(limits, 0), TakenBack(r, again), limits);
            && s.threads == map[0 := Thread(r, Failed, 0), 1 := Thread(again, Served(ByMark), 0)]
            && s.store.audits == [] && s.store.remaining == limits.of
  {
    hide Render, Plain, Run, Next;
    var first := PaidAndTakenBack(limits, r);
    var second := ServedOnTheMark(limits, first[5], r, again);
    var states, actions := first + second[1..], TakenBack(r, again);
    forall j | 0 <= j < |actions| ensures states[j + 1] == Next(states[j], actions[j], limits) {
      assert j < 5 ==> actions[j] == TakenBack(r, r)[j];
    }
    RunVisits(states, actions, limits);
  }
}
