/** Why every free transfer was paid for: by the same payer, for the same resource, inside the window. */
module DownloadLicence {
  import opened Text
  import opened PaidKeys
  import opened DownloadBudget

  /** The charged request `c` covers what `r` asks for, for the same payer. */
  predicate Covers(c: Request, r: Request) {
    match r.key
    case UserFile(u, f) =>
      || c.key == r.key
      || (c.key.UserZip? && c.key.user == u && f in c.files)
    case _ => c.key == r.key
  }

  /** Thread `t` is on the paying side: it took the charging branch and is no free continuation. */
  predicate Payer(s: State, t: nat, r: Request) {
    && t in s.threads && s.threads[t].req == r
    && (s.threads[t].phase.Charged? || s.threads[t].phase.Marked? || s.threads[t].phase.Committed?
        || s.threads[t].phase == Served(ByPayment) || s.threads[t].phase == Failed)
  }

  ghost predicate ChargedBy(s: State, t: nat, r: Request, at: int) {
    exists c :: c in s.charges && c.thread == t && c.req == r && c.at <= at
  }

  /** A payer's mark for `k`, written between `from` (exclusive) and `upto`. */
  ghost predicate MarkedWithin(s: State, k: PaidKey, from: int, upto: int) {
    exists m :: m in s.marked && m.key == k && from < m.at <= upto
  }

  /** An earlier charge that covers `r`, no later than `upto`. */
  ghost predicate Paid(s: State, r: Request, upto: int) {
    exists c :: c in s.charges && Covers(c.req, r) && c.at <= upto
  }

  /** A committed record that covers `r`, dated between `from` and `upto`, with its charge before it. */
  ghost predicate RecordedWithin(s: State, r: Request, from: int, upto: int) {
    exists a, c :: a in s.store.audits && Covers(a.req, r) && from <= a.at <= upto
                   && c in s.charges && c.req == a.req && c.at <= a.at
  }

  // ---- the invariant ----------------------------------------------------------------

  /** Every mark in the store is a preview's or was written by a payer of that key. */
  ghost predicate MarksAreEarned(s: State) {
    && (forall k :: k in s.store.marks ==>
          && s.store.marks[k] <= s.store.now
          && (|| (exists p: PaidKey :: p.LinkPreview? && Plain(p) && Render(p) == k)
              || (exists m :: m in s.marked && Render(m.key) == k && m.at == s.store.marks[k])))
    && (forall m :: m in s.marked ==>
          && Plain(m.key) && !m.key.LinkPreview?
          && exists c :: c in s.charges && c.thread == m.thread && c.req.key == m.key && c.at <= m.at)
  }

  ghost predicate RowsAreEarned(s: State) {
    && (forall row :: row in s.store.rows && row.user.Some? ==>
          exists a :: a in s.store.audits && ByUser(a.req.key) && a.req.key.user == row.user.value
                      && row.file in a.req.files && a.at == row.at)
    && (forall a :: a in s.store.audits ==>
          exists c :: c in s.charges && c.req == a.req && c.at <= a.at && a.at <= s.store.now)
  }

  ghost predicate ChargesAreReal(s: State) {
    forall c :: c in s.charges ==> ValidRequest(c.req) && c.at <= s.store.now && Payer(s, c.thread, c.req)
  }

  /** What a thread's phase says about the history. */
  ghost predicate Justified(s: State, t: nat, credit: int)
    requires t in s.threads
  {
    var th := s.threads[t];
    && ValidRequest(th.req) && th.decided <= s.store.now
    && match th.phase
       case MarkMissed => th.req.partial && ByUser(th.req.key)
       case Charged(_) => ChargedBy(s, t, th.req, s.store.now)
       case Marked(_) => ChargedBy(s, t, th.req, s.store.now)
       case Committed => ChargedBy(s, t, th.req, s.store.now)
       case Free(how) => Licensed(s, th, how, credit)
       case Served(how) => if how == ByPayment then ChargedBy(s, t, th.req, s.store.now) else Licensed(s, th, how, credit)
       case _ => true
  }

  ghost predicate Licensed(s: State, th: Thread, how: How, credit: int) {
    match how
    case ByPayment => false
    case ByProbe => IsProbe(th.req)
    case ByMark =>
      th.req.partial && MarkedWithin(s, th.req.key, th.decided - PAID_TTL, th.decided) && Paid(s, th.req, th.decided)
    case ByRecord => th.req.partial && ByUser(th.req.key) && RecordedWithin(s, th.req, th.decided - credit, th.decided)
  }

  ghost predicate Earned(s: State, credit: int) {
    && MarksAreEarned(s) && RowsAreEarned(s) && ChargesAreReal(s)
    && forall t :: t in s.threads ==> Justified(s, t, credit)
  }

  /** The histories and the clock only grow. */
  predicate Grows(s: State, s': State) {
    s.charges <= s'.charges && s.marked <= s'.marked && s.store.audits <= s'.store.audits && s.store.now <= s'.store.now
  }

  lemma StepGrows(s: State, a: Action, limits: Limits)
    ensures Grows(s, Next(s, a, limits))
  {
  }

  lemma LicenceSurvives(s: State, s': State, th: Thread, how: How, credit: int)
    requires Grows(s, s') && Licensed(s, th, how, credit)
    ensures Licensed(s', th, how, credit)
  {
    assert forall a :: a in s.store.audits ==> a in s'.store.audits;
    assert forall c :: c in s.charges ==> c in s'.charges;
    assert forall m :: m in s.marked ==> m in s'.marked;
  }

  lemma UntouchedStaysJustified(s: State, s': State, t: nat, credit: int)
    requires Grows(s, s') && t in s.threads && t in s'.threads && s'.threads[t] == s.threads[t]
    requires Justified(s, t, credit)
    ensures Justified(s', t, credit)
  {
    var th := s.threads[t];
    assert forall c :: c in s.charges ==> c in s'.charges;
    if th.phase.Free? || (th.phase.Served? && th.phase.how != ByPayment) {
      LicenceSurvives(s, s', th, th.phase.how, credit);
    }
  }

  /** A live mark read by a real request was written by a payer of that very key, inside the window. */
  lemma LiveMarkIsALicence(s: State, r: Request)
    requires MarksAreEarned(s) && ChargesAreReal(s)
    requires ValidRequest(r) && MarkLive(s.store, r.key)
    ensures MarkedWithin(s, r.key, s.store.now - PAID_TTL, s.store.now)
    ensures Paid(s, r, s.store.now)
  {
    var k := Render(r.key);
    assert !(exists p: PaidKey :: p.LinkPreview? && Plain(p) && Render(p) == k) by {
      forall p: PaidKey | p.LinkPreview? && Plain(p) && Render(p) == k ensures false {
        RenderInjective(p, r.key);
      }
    }
    var m :| m in s.marked && Render(m.key) == k && m.at == s.store.marks[k];
    RenderInjective(m.key, r.key);
    var c :| c in s.charges && c.thread == m.thread && c.req.key == m.key && c.at <= m.at;
    assert Covers(c.req, r);
  }

  /** A durable record accepted as evidence goes back to a charge that covers the request. */
  lemma RecordIsALicence(s: State, r: Request, credit: int)
    requires RowsAreEarned(s) && ChargesAreReal(s)
    requires ValidRequest(r) && Recorded(s.store, r, credit)
    ensures RecordedWithin(s, r, s.store.now - credit, s.store.now)
  {
    if r.key.UserFile? {
      var row :| row in s.store.rows && row.user == Some(r.key.user) && row.file == r.key.file && s.store.now - credit <= row.at;
      var a :| a in s.store.audits && ByUser(a.req.key) && a.req.key.user == row.user.value
               && row.file in a.req.files && a.at == row.at;
      var c :| c in s.charges && c.req == a.req && c.at <= a.at && a.at <= s.store.now;
      assert Covers(a.req, r);
    } else {
      var a :| a in s.store.audits && a.req.key == r.key && s.store.now - credit <= a.at;
      var c :| c in s.charges && c.req == a.req && c.at <= a.at && a.at <= s.store.now;
      assert Covers(a.req, r);
    }
  }

  // ---- every step keeps it ----------------------------------------------------------

  /** A mark at `k` that some preview or some payer accounts for. */
  ghost predicate Accounted(s: State, k: string)
    requires k in s.store.marks
  {
    || (exists p: PaidKey :: p.LinkPreview? && Plain(p) && Render(p) == k)
    || (exists m :: m in s.marked && Render(m.key) == k && m.at == s.store.marks[k])
  }

  /** A store whose marks are old ones, or one new one that is accounted for, by a history that grew likewise. */
  lemma MarksStayEarned(s: State, s': State, k: string)
    requires MarksAreEarned(s) && Grows(s, s')
    requires forall k' :: k' in s'.store.marks && k' != k ==> k' in s.store.marks && s'.store.marks[k'] == s.store.marks[k']
    requires k in s'.store.marks ==>
               || (k in s.store.marks && s'.store.marks[k] == s.store.marks[k])
               || (s'.store.marks[k] <= s'.store.now && Accounted(s', k))
    requires forall m :: m in s'.marked && m !in s.marked ==>
               Plain(m.key) && !m.key.LinkPreview?
               && exists c :: c in s'.charges && c.thread == m.thread && c.req.key == m.key && c.at <= m.at
    ensures MarksAreEarned(s')
  {
    hide Render, Plain;
    assert forall c :: c in s.charges ==> c in s'.charges;
    assert forall m :: m in s.marked ==> m in s'.marked;
  }

  lemma WriteMarkKeepsMarks(s: State, t: nat, stored: bool, credit: int)
    requires Earned(s, credit) && t in s.threads && s.threads[t].phase.Charged?
    ensures MarksAreEarned(DoWriteMark(s, t, stored))
  {
    hide Render, RowsAreEarned, ChargesAreReal, MarksAreEarned, Licensed, Payer;
    var s' := DoWriteMark(s, t, stored);
    assert Justified(s, t, credit);
    var m := MarkEvent(t, s.threads[t].req.key, s.store.now);
    assert stored ==> m in s'.marked;
    MarksStayEarned(s, s', Render(m.key));
  }

  lemma StepKeepsMarks(s: State, a: Action, limits: Limits)
    requires Earned(s, limits.credit)
    ensures MarksAreEarned(Next(s, a, limits))
  {
    hide Recorded, MarkLive, Render, RowsFor, RowsAreEarned, ChargesAreReal, MarksAreEarned, Justified, ValidRequest;
    var s' := Next(s, a, limits);
    StepGrows(s, a, limits);
    if a.WriteMark? && s' != s {
      WriteMarkKeepsMarks(s, a.t, a.stored, limits.credit);
    } else if a.PreviewMark? && s' != s {
      MarksStayEarned(s, s', Render(LinkPreview(a.link, a.file)));
    } else {
      MarksStayEarned(s, s', "");
    }
  }

  lemma CommitKeepsRows(s: State, t: nat, credit: int)
    requires Earned(s, credit) && t in s.threads && s.threads[t].phase.Marked?
    ensures RowsAreEarned(DoCommit(s, t))
  {
    hide MarksAreEarned, ChargesAreReal, Licensed, Payer, ValidRequest;
    var s' := DoCommit(s, t);
    var th := s.threads[t];
    assert Justified(s, t, credit);
    var c :| c in s.charges && c.thread == t && c.req == th.req && c.at <= s.store.now;
    var added := RowsFor(th.req, th.req.files, s.store.now);
    assert s'.store.rows == s.store.rows + added;
    assert forall row :: row in added ==>
      row.at == s.store.now && row.file in th.req.files
      && (row.user.Some? ==> ByUser(th.req.key) && row.user.value == th.req.key.user);
    assert c in s'.charges;
    assert s'.store.audits == s.store.audits + [Audit(th.req, th.phase.took, s.store.now)];
  }

  lemma StepKeepsRows(s: State, a: Action, limits: Limits)
    requires Earned(s, limits.credit)
    ensures RowsAreEarned(Next(s, a, limits))
  {
    hide Recorded, MarkLive, Render, RowsFor, MarksAreEarned, ChargesAreReal, Licensed, Payer, Justified;
    var s' := Next(s, a, limits);
    StepGrows(s, a, limits);
    if a.Commit? && s' != s {
      CommitKeepsRows(s, a.t, limits.credit);
    } else {
      assert s'.store.rows == s.store.rows && s'.store.audits == s.store.audits;
      assert forall c :: c in s.charges ==> c in s'.charges;
    }
  }

  lemma StepKeepsCharges(s: State, a: Action, limits: Limits)
    requires Earned(s, limits.credit)
    ensures ChargesAreReal(Next(s, a, limits))
  {
    hide Recorded, MarkLive, Render, RowsFor, MarksAreEarned, RowsAreEarned, Licensed, ValidRequest;
    var s' := Next(s, a, limits);
    StepGrows(s, a, limits);
    forall c | c in s'.charges
      ensures ValidRequest(c.req) && c.at <= s'.store.now && Payer(s', c.thread, c.req)
    {
      if c in s.charges {
        assert Payer(s, c.thread, c.req);
      } else {
        assert a.TakeUnit? && c == Charge(a.t, s.threads[a.t].req, s.store.now);
        assert Justified(s, a.t, limits.credit);
      }
    }
  }

  lemma ReadMarkIsJustified(s: State, t: nat, credit: int)
    requires Earned(s, credit) && t in s.threads
    ensures Justified(DoReadMark(s, t), t, credit)
  {
    var s' := DoReadMark(s, t);
    assert Justified(s, t, credit);
    if Is(s, t, Arrived) {
      var th := s.threads[t];
      if th.req.partial && MarkLive(s.store, th.req.key) {
        LiveMarkIsALicence(s, th.req);
        assert s'.charges == s.charges && s'.marked == s.marked;
        assert s'.threads[t] == Thread(th.req, Free(ByMark), s.store.now);
        LicenceSurvives(s, s', s'.threads[t], ByMark, credit);
      }
    }
  }

  lemma ReadRecordIsJustified(s: State, t: nat, credit: int)
    requires Earned(s, credit) && t in s.threads
    ensures Justified(DoReadRecord(s, t, credit), t, credit)
  {
    var s' := DoReadRecord(s, t, credit);
    assert Justified(s, t, credit);
    if Is(s, t, MarkMissed) {
      var th := s.threads[t];
      if Recorded(s.store, th.req, credit) {
        RecordIsALicence(s, th.req, credit);
        assert s'.charges == s.charges && s'.marked == s.marked;
        assert s'.threads[t] == Thread(th.req, Free(ByRecord), s.store.now);
        LicenceSurvives(s, s', s'.threads[t], ByRecord, credit);
      }
    }
  }

  lemma StepKeepsThreads(s: State, a: Action, limits: Limits)
    requires Earned(s, limits.credit)
    ensures forall t :: t in Next(s, a, limits).threads ==> Justified(Next(s, a, limits), t, limits.credit)
  {
    var s' := Next(s, a, limits);
    StepGrows(s, a, limits);
    forall t | t in s'.threads ensures Justified(s', t, limits.credit) {
      if t in s.threads && s'.threads[t] == s.threads[t] {
        UntouchedStaysJustified(s, s', t, limits.credit);
      } else {
        OnlyTheNamedThreadMoves(s, a, limits, t);
        MovedThreadIsJustified(s, a, limits, t);
      }
    }
  }

  lemma TakeUnitIsJustified(s: State, t: nat, credit: int)
    requires Earned(s, credit) && Is(s, t, MustPay)
    ensures Justified(DoTakeUnit(s, t), t, credit)
  {
    var s' := DoTakeUnit(s, t);
    assert Justified(s, t, credit);
    var c := Charge(t, s.threads[t].req, s.store.now);
    assert s'.threads[t].phase.Charged? ==> c in s'.charges;
  }

  lemma ServeIsJustified(s: State, t: nat, credit: int)
    requires Earned(s, credit) && t in s.threads
    ensures Justified(DoServe(s, t), t, credit)
  {
    var s' := DoServe(s, t);
    var th := s.threads[t];
    assert Justified(s, t, credit);
    if th.phase.Free? {
      LicenceSurvives(s, s', s'.threads[t], th.phase.how, credit);
    }
  }

  /** Past the decrement a thread keeps the charge it was justified by. */
  lemma PayingThreadIsJustified(s: State, s': State, t: nat, credit: int)
    requires Earned(s, credit) && t in s.threads && t in s'.threads && Grows(s, s')
    requires s.threads[t].phase.Charged? || s.threads[t].phase.Marked?
    requires s'.threads[t] == s.threads[t].(phase := s'.threads[t].phase)
    requires s'.threads[t].phase.Marked? || s'.threads[t].phase.Committed? || s'.threads[t].phase.Failed?
    ensures Justified(s', t, credit)
  {
    assert Justified(s, t, credit);
    assert forall c :: c in s.charges ==> c in s'.charges;
  }

  predicate NamesThread(a: Action, t: nat) {
    !a.Tick? && !a.LoseMark? && !a.PreviewMark? && a.t == t
  }

  lemma OnlyTheNamedThreadMoves(s: State, a: Action, limits: Limits, t: nat)
    requires t in Next(s, a, limits).threads && (t in s.threads ==> Next(s, a, limits).threads[t] != s.threads[t])
    ensures NamesThread(a, t)
  {
  }

  lemma StoppedThreadIsJustified(s: State, s': State, t: nat, credit: int)
    requires Earned(s, credit) && t in s.threads && t in s'.threads && Grows(s, s')
    requires s'.threads[t] == s.threads[t].(phase := Failed)
    ensures Justified(s', t, credit)
  {
    assert Justified(s, t, credit);
  }

  lemma MovedThreadIsJustified(s: State, a: Action, limits: Limits, t: nat)
    requires Earned(s, limits.credit) && NamesThread(a, t)
    requires t in Next(s, a, limits).threads && (t in s.threads ==> Next(s, a, limits).threads[t] != s.threads[t])
    ensures Justified(Next(s, a, limits), t, limits.credit)
  {
    var s' := Next(s, a, limits);
    match a {
      case Arrive(_, _) =>
      case ReadMark(_) => ReadMarkIsJustified(s, t, limits.credit);
      case ReadRecord(_) => ReadRecordIsJustified(s, t, limits.credit);
      case Refuse(_) => StoppedThreadIsJustified(s, s', t, limits.credit);
      case TakeUnit(_) => TakeUnitIsJustified(s, t, limits.credit);
      case WriteMark(_, _) => PayingThreadIsJustified(s, s', t, limits.credit);
      case Commit(_) => PayingThreadIsJustified(s, s', t, limits.credit);
      case Abort(_) => StoppedThreadIsJustified(s, s', t, limits.credit);
      case Serve(_) => ServeIsJustified(s, t, limits.credit);
    }
  }

  lemma StepKeepsEarned(s: State, a: Action, limits: Limits)
    requires Earned(s, limits.credit)
    ensures Earned(Next(s, a, limits), limits.credit)
  {
    StepKeepsMarks(s, a, limits);
    StepKeepsRows(s, a, limits);
    StepKeepsCharges(s, a, limits);
    StepKeepsThreads(s, a, limits);
  }

  lemma {:induction false} RunKeepsEarned(s: State, actions: seq<Action>, limits: Limits)
    requires Earned(s, limits.credit)
    ensures Earned(Run(s, actions, limits), limits.credit)
    decreases |actions|
  {
    if actions != [] {
      StepKeepsEarned(s, actions[0], limits);
      RunKeepsEarned(Next(s, actions[0], limits), actions[1..], limits);
    }
  }

  // ---- what holds of every transfer that was served ---------------------------------

  /**
   * Whatever the interleaving, a transfer that was served either took the charging branch itself, is a
   * size probe on a single-file route, or follows an earlier charge by the same payer for the same file
   * or the same archive.
   */
  lemma ServedTransfersArePaid(limits: Limits, now: int, actions: seq<Action>, t: nat)
    requires var s := Run(Fresh(limits, now), actions, limits); t in s.threads && s.threads[t].phase.Served?
    ensures var s := Run(Fresh(limits, now), actions, limits);
            var th := s.threads[t];
            match th.phase.how
            case ByPayment => ChargedBy(s, t, th.req, s.store.now)
            case ByProbe => IsProbe(th.req)
            case ByMark => th.req.partial && Paid(s, th.req, th.decided)
            case ByRecord =>
              && th.req.partial && ByUser(th.req.key) && Paid(s, th.req, th.decided)
              && RecordedWithin(s, th.req, th.decided - limits.credit, th.decided)
  {
    RunKeepsEarned(Fresh(limits, now), actions, limits);
    var s := Run(Fresh(limits, now), actions, limits);
    assert Justified(s, t, limits.credit);
  }

  /**
   * On a public link a free continuation decided at time d has a mark of its own key written inside the
   * window that ends at d, by a thread that took the charging branch and that is no free continuation
   * itself: continuations never extend the licence they use.
   */
  lemma LinkLicenceIsBounded(limits: Limits, now: int, actions: seq<Action>, t: nat)
    requires var s := Run(Fresh(limits, now), actions, limits);
             && t in s.threads && !ByUser(s.threads[t].req.key)
             && s.threads[t].phase.Served? && (s.threads[t].phase.how.ByMark? || s.threads[t].phase.how.ByRecord?)
    ensures var s := Run(Fresh(limits, now), actions, limits);
            var th := s.threads[t];
            && th.phase.how == ByMark
            && exists m, c ::
                 && m in s.marked && m.key == th.req.key && th.decided - 7200 < m.at <= th.decided
                 && c in s.charges && c.thread == m.thread && c.req.key == th.req.key && c.at <= m.at
                 && Payer(s, m.thread, c.req) && m.thread != t
  {
    RunKeepsEarned(Fresh(limits, now), actions, limits);
    var s := Run(Fresh(limits, now), actions, limits);
    var th := s.threads[t];
    assert Justified(s, t, limits.credit);
    var m :| m in s.marked && m.key == th.req.key && th.decided - PAID_TTL < m.at <= th.decided;
    var c :| c in s.charges && c.thread == m.thread && c.req.key == m.key && c.at <= m.at;
    assert Payer(s, c.thread, c.req);
  }

  // ---- losing marks -----------------------------------------------------------------

  /** The store with some marks lost. */
  predicate FewerMarks(less: Store, more: Store) {
    && less == more.(marks := less.marks)
    && forall k :: k in less.marks ==> k in more.marks && less.marks[k] == more.marks[k]
  }

  /** Losing marks never frees a request: what is free with fewer marks is free with all of them. */
  lemma LosingMarksOnlyCharges(less: Store, more: Store, r: Request, credit: int)
    requires FewerMarks(less, more)
    ensures Verdict(less, r, credit).Free? ==> Verdict(more, r, credit).Free?
    ensures Verdict(more, r, credit) == MustPay ==> Verdict(less, r, credit) == MustPay
    ensures Verdict(more, r, credit) != Verdict(less, r, credit) ==>
              Verdict(more, r, credit) == Free(ByMark) && MarkLive(more, r.key) && !MarkLive(less, r.key)
  {
    assert MarkLive(less, r.key) ==> MarkLive(more, r.key);
  }
}
