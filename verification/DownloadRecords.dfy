/** What a committed payment leaves behind, and what it buys: its rows, and the continuations it frees. */
module DownloadRecords {
  import opened Text
  import opened PaidKeys
  import opened DownloadBudget
  import opened DownloadLicence
  import opened DownloadBacking

  // ---- the rows of a payment --------------------------------------------------------

  /** The download_log row of one file of a request that committed at `at`: public routes know no user. */
  function Row(r: Request, k: nat, at: int): (row: LogRow)
    requires k < |r.files|
    ensures row.file == r.files[k] && row.at == at
    ensures row.user.Some? <==> r.key.UserFile? || r.key.UserZip?
    ensures row.user.Some? ==> row.user.value == r.key.user
  {
    LogRow(if r.key.UserFile? || r.key.UserZip? then Some(r.key.user) else None, r.files[k], at)
  }

  /** A commit appends one row per file, in the order of the files, and one audit record; nothing else moves. */
  lemma CommitAppendsRows(s: State, t: nat, limits: Limits)
    requires t in s.threads && s.threads[t].phase.Marked?
    ensures var r := s.threads[t].req;
            var before, after := s.store, Next(s, Commit(t), limits).store;
            && |after.rows| == |before.rows| + |r.files|
            && after.rows[..|before.rows|] == before.rows
            && (forall k :: 0 <= k < |r.files| ==> after.rows[|before.rows| + k] == Row(r, k, before.now))
            && after.audits == before.audits + [Audit(r, s.threads[t].phase.took, before.now)]
            && after.remaining == before.remaining && after.marks == before.marks && after.now == before.now
  {
    hide Recorded, MarkLive, Render, ValidRequest;
    var r, before, after := s.threads[t].req, s.store, Next(s, Commit(t), limits).store;
    assert after.rows == before.rows + RowsFor(r, r.files, before.now);
    forall k | 0 <= k < |r.files| ensures after.rows[|before.rows| + k] == Row(r, k, before.now) {
      assert after.rows[|before.rows| + k] == RowsFor(r, r.files, before.now)[k]
          == LogRow(if ByUser(r.key) then Some(r.key.user) else None, r.files[k], before.now);
    }
  }

  /** Every audit record has the row of each of its files; every row belongs to an audit record. */
  ghost predicate Logged(store: Store) {
    && (forall a, k :: a in store.audits && 0 <= k < |a.req.files| ==> Row(a.req, k, a.at) in store.rows)
    && (forall row :: row in store.rows ==>
          exists a, k :: a in store.audits && 0 <= k < |a.req.files| && row == Row(a.req, k, a.at))
  }

  lemma CommitKeepsLogged(s: State, t: nat, limits: Limits)
    requires Logged(s.store) && t in s.threads && s.threads[t].phase.Marked?
    ensures Logged(Next(s, Commit(t), limits).store)
  {
    hide Next, Row;
    CommitAppendsRows(s, t, limits);
    var r, before, after := s.threads[t].req, s.store, Next(s, Commit(t), limits).store;
    var added := Audit(r, s.threads[t].phase.took, before.now);
    assert forall i :: 0 <= i < |before.rows| ==> before.rows[i] == after.rows[i];
    forall a, k | a in after.audits && 0 <= k < |a.req.files| ensures Row(a.req, k, a.at) in after.rows {
      if a in before.audits {
        var i :| 0 <= i < |before.rows| && before.rows[i] == Row(a.req, k, a.at);
        assert after.rows[i] == Row(a.req, k, a.at);
      } else {
        assert after.rows[|before.rows| + k] == Row(r, k, before.now);
      }
    }
    forall row | row in after.rows
      ensures exists a, k :: a in after.audits && 0 <= k < |a.req.files| && row == Row(a.req, k, a.at)
    {
      var i :| 0 <= i < |after.rows| && after.rows[i] == row;
      if i < |before.rows| {
        assert row in before.rows;
        var a, k :| a in before.audits && 0 <= k < |a.req.files| && row == Row(a.req, k, a.at);
        assert a in after.audits;
      } else {
        var k := i - |before.rows|;
        assert after.rows[|before.rows| + k] == Row(added.req, k, added.at) && added in after.audits;
      }
    }
  }

  /** Only a commit touches the records. */
  lemma OthersKeepRecords(s: State, a: Action, limits: Limits)
    requires !(a.Commit? && a.t in s.threads && s.threads[a.t].phase.Marked?)
    ensures Next(s, a, limits).store.rows == s.store.rows && Next(s, a, limits).store.audits == s.store.audits
  {
    hide Recorded, MarkLive, Render, RowsFor, ValidRequest, IsProbe;
  }

  lemma {:induction false} RunKeepsLogged(s: State, actions: seq<Action>, limits: Limits)
    requires Logged(s.store)
    ensures Logged(Run(s, actions, limits).store)
    decreases |actions|
  {
    hide Next, Logged;
    if actions != [] {
      var a := actions[0];
      if a.Commit? && a.t in s.threads && s.threads[a.t].phase.Marked? {
        CommitKeepsLogged(s, a.t, limits);
      } else {
        OthersKeepRecords(s, a, limits);
        SameRecordsStayLogged(s.store, Next(s, a, limits).store);
      }
      RunKeepsLogged(Next(s, a, limits), actions[1..], limits);
    }
  }

  lemma SameRecordsStayLogged(before: Store, after: Store)
    requires Logged(before) && after.rows == before.rows && after.audits == before.audits
    ensures Logged(after)
  {
  }

  lemma {:induction false} RunKeepsRecorded(s: State, actions: seq<Action>, limits: Limits)
    requires CommittedIsRecorded(s) && FreeIsFree(s)
    ensures CommittedIsRecorded(Run(s, actions, limits))
    decreases |actions|
  {
    hide Next, CommittedIsRecorded, FreeIsFree;
    if actions != [] {
      RecordStep(s, actions[0], limits);
      FreeStep(s, actions[0], limits);
      RunKeepsRecorded(Next(s, actions[0], limits), actions[1..], limits);
    }
  }

  /**
   * In every run a transfer that paid and was served has its audit record, each audit record has its
   * download_log row for each of its files, and there is no other row.
   */
  lemma PaymentsAreLogged(limits: Limits, now: int, actions: seq<Action>)
    ensures var s := Run(Fresh(limits, now), actions, limits);
            forall t :: t in s.threads && s.threads[t].phase == Served(ByPayment) ==>
              exists a :: a in s.store.audits && a.req == s.threads[t].req
    ensures var s := Run(Fresh(limits, now), actions, limits);
            forall a, k :: a in s.store.audits && 0 <= k < |a.req.files| ==>
              LogRow(if a.req.key.UserFile? || a.req.key.UserZip? then Some(a.req.key.user) else None, a.req.files[k], a.at)
                in s.store.rows
    ensures var s := Run(Fresh(limits, now), actions, limits);
            forall row :: row in s.store.rows ==>
              exists a, k :: a in s.store.audits && 0 <= k < |a.req.files| && row.file == a.req.files[k] && row.at == a.at
                && row.user == if a.req.key.UserFile? || a.req.key.UserZip? then Some(a.req.key.user) else None
  {
    hide Run;
    RunKeepsLogged(Fresh(limits, now), actions, limits);
    RunKeepsRecorded(Fresh(limits, now), actions, limits);
    var s := Run(Fresh(limits, now), actions, limits);
    forall a, k | a in s.store.audits && 0 <= k < |a.req.files|
      ensures LogRow(if a.req.key.UserFile? || a.req.key.UserZip? then Some(a.req.key.user) else None, a.req.files[k], a.at)
                in s.store.rows
    {
      assert Row(a.req, k, a.at) in s.store.rows;
    }
    forall row | row in s.store.rows
      ensures exists a, k :: a in s.store.audits && 0 <= k < |a.req.files| && row.file == a.req.files[k] && row.at == a.at
                && row.user == if a.req.key.UserFile? || a.req.key.UserZip? then Some(a.req.key.user) else None
    {
      var a, k :| a in s.store.audits && 0 <= k < |a.req.files| && row == Row(a.req, k, a.at);
    }
  }

  // ---- what a payment buys ----------------------------------------------------------

  /** The mark at `k` is there and no older than `at`. */
  predicate Remembers(store: Store, k: string, at: int) {
    k in store.marks && at <= store.marks[k] && at <= store.now
  }

  lemma {:induction false} MarkLasts(s: State, actions: seq<Action>, limits: Limits, k: string, at: int)
    requires Remembers(s.store, k, at) && LoseMark(k) !in actions
    ensures Remembers(Run(s, actions, limits).store, k, at)
    decreases |actions|
  {
    hide Recorded, MarkLive, Render, RowsFor, ValidRequest, IsProbe;
    if actions != [] {
      assert actions[0] in actions;
      MarkLasts(Next(s, actions[0], limits), actions[1..], limits, k, at);
    }
  }

  /**
   * A payment whose mark was stored frees every continuation of its key that is read within the two hours
   * after it, whatever else ran in between, unless Redis lost that mark.
   */
  lemma PaymentFreesItsKey(s: State, t: nat, actions: seq<Action>, limits: Limits, u: nat)
    requires t in s.threads && s.threads[t].phase.Charged?
    requires LoseMark(Render(s.threads[t].req.key)) !in actions
    requires var m := Run(Next(s, WriteMark(t, true), limits), actions, limits);
             && u in m.threads && m.threads[u].phase == Arrived && m.threads[u].req.partial
             && m.threads[u].req.key == s.threads[t].req.key && m.store.now < s.store.now + 7200
    ensures var m := Run(Next(s, WriteMark(t, true), limits), actions, limits);
            && Next(m, ReadMark(u), limits).threads[u].phase == Free(ByMark)
            && Next(Next(m, ReadMark(u), limits), Serve(u), limits).threads[u].phase == Served(ByMark)
  {
    hide Render, ValidRequest, Run;
    MarkLasts(Next(s, WriteMark(t, true), limits), actions, limits, Render(s.threads[t].req.key), s.store.now);
  }

  lemma {:induction false} RecordsLast(s: State, actions: seq<Action>, limits: Limits)
    ensures s.store.rows <= Run(s, actions, limits).store.rows && s.store.audits <= Run(s, actions, limits).store.audits
    decreases |actions|
  {
    hide Recorded, MarkLive, Render, RowsFor, ValidRequest, IsProbe;
    if actions != [] {
      RecordsLast(Next(s, actions[0], limits), actions[1..], limits);
    }
  }

  /** The continuations a committed payment of `paid` frees: its files one by one, and its own archive. */
  predicate Continues(r: Request, paid: Request) {
    || (r.key.UserFile? && (paid.key.UserFile? || paid.key.UserZip?) && r.key.user == paid.key.user && r.key.file in paid.files)
    || (r.key.UserZip? && r.key == paid.key)
  }

  /**
   * A committed payment of a signed-in user frees every continuation of what it covered within the credit
   * time, whatever else ran in between: also when every mark is gone.
   */
  lemma RecordFreesItsFiles(s: State, t: nat, actions: seq<Action>, limits: Limits, u: nat)
    requires t in s.threads && s.threads[t].phase.Marked?
    requires var m := Run(Next(s, Commit(t), limits), actions, limits);
             && u in m.threads && m.threads[u].phase == MarkMissed
             && Continues(m.threads[u].req, s.threads[t].req) && m.store.now <= s.store.now + limits.credit
    ensures var m := Run(Next(s, Commit(t), limits), actions, limits);
            Next(m, ReadRecord(u), limits).threads[u].phase == Free(ByRecord)
  {
    hide Render, ValidRequest, Run, DoCommit, RowsFor, Row, MarkLive;
    CommitAppendsRows(s, t, limits);
    var paid, n := s.threads[t].req, Next(s, Commit(t), limits);
    var m := Run(n, actions, limits);
    RecordsLast(n, actions, limits);
    var r := m.threads[u].req;
    if r.key.UserFile? {
      var k :| 0 <= k < |paid.files| && paid.files[k] == r.key.file;
      var row := Row(paid, k, s.store.now);
      assert n.store.rows[|s.store.rows| + k] == row;
      assert m.store.rows[|s.store.rows| + k] == row;
      assert row in m.store.rows && row.user == Some(r.key.user) && row.file == r.key.file;
    } else {
      var audit := Audit(paid, s.threads[t].phase.took, s.store.now);
      assert n.store.audits[|s.store.audits|] == audit;
      assert m.store.audits[|s.store.audits|] == audit;
      assert audit in m.store.audits;
    }
  }

  /** Who has to pay: no live mark and no record for a continuation, and no size probe on a single-file route. */
  lemma MustPayExactly(store: Store, r: Request, credit: int)
    ensures Verdict(store, r, credit) == MustPay <==>
      && !(r.partial && Render(r.key) in store.marks && store.now < store.marks[Render(r.key)] + 7200)
      && !(r.partial && r.key.UserFile?
           && exists row :: row in store.rows && row.user == Some(r.key.user) && row.file == r.key.file
                            && store.now - credit <= row.at)
      && !(r.partial && r.key.UserZip?
           && exists a :: a in store.audits && a.req.key == r.key && store.now - credit <= a.at)
      && !(r.probe && (r.key.UserFile? || r.key.LinkFile?))
    ensures Verdict(store, r, credit) != MustPay ==>
              Verdict(store, r, credit) in [Free(ByMark), Free(ByRecord), Free(ByProbe)]
  {
    hide Render;
  }
}
