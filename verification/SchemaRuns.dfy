/** The database pointer over any sequence of update and rollback jobs. */
module SchemaRuns {
  import opened Text
  import opened UpdateLog
  import opened JobOutcome
  import opened Checkout

  /** The image in use knows the pointer, and the rollback file pairs a tag with a revision its image knows. */
  predicate SchemaOk(tree: string -> nat, host: Host) {
    && host.pointer <= tree(host.tag)
    && (RecordedHead(host).Revision? ==> RecordedHead(host).rev <= tree(host.rollback.value.tag))
  }

  /** The target knows the revision its first start finds, and an update finds its way back or needs none. */
  predicate Suits(tree: string -> nat, job: Job, host: Host) {
    && FoundByTarget(job, host) <= tree(job.target)
    && (job.update ==> job.head.Some? || tree(job.target) <= tree(host.tag))
  }

  /** The job suits the host, and a version resolved from a floating tag is that of a backend running on this database. */
  predicate Fits(tree: string -> nat, job: Job, host: Host) {
    Suits(tree, job, host) && host.pointer <= tree(job.anchor)
  }

  /** Every app start finds a pointer its image knows. */
  predicate SafeBoots(tree: string -> nat, boots: seq<Boot>) {
    forall i :: 0 <= i < |boots| ==> boots[i].found <= tree(boots[i].tag)
  }

  /** One fitting job keeps the schema invariant and starts no image on a revision it does not know. */
  lemma JobKeepsSchema(tree: string -> nat, before: Host, after: Host, v: View, out: Outcome)
    requires Ended(tree, before, after, v, out) && SchemaOk(tree, before)
    requires v.setup.job.Some? ==> Fits(tree, v.setup.job.value, before)
    ensures SchemaOk(tree, after) && SafeBoots(tree, v.boots)
  {
    hide Verified, Terminal, CausedBy;
    if v.setup.job.Some? {
      StampedRollback(tree, before, after, v, out);
    }
  }

  /** A rollback that gets past its stamp found a revision the image in use knows. */
  lemma StampedRollback(tree: string -> nat, before: Host, after: Host, v: View, out: Outcome)
    requires Ended(tree, before, after, v, out) && SchemaOk(tree, before) && v.setup.job.Some?
    ensures out != Exit(2) && out != Exit(5) ==> FoundByTarget(v.setup.job.value, before) <= tree(before.tag)
  {
    hide Verified, Terminal, ExitIs, RaisedIs;
  }

  /** A rollback to the recorded tag with its recorded revision suits every host that keeps the invariant. */
  lemma RecordedRollbackSuits(tree: string -> nat, host: Host, job: Job)
    requires SchemaOk(tree, host) && !job.update
    requires host.rollback.Some? && host.rollback.value.tag == job.target && host.rollback.value.head.Revision?
    ensures Suits(tree, job, host)
  {
  }

  /**
   * The starts of any rollback, and of an update with a captured pointer, are safe exactly when the target knows
   * the revision it will find.
   */
  lemma SafeExactlyWhenTargetKnows(tree: string -> nat, before: Host, after: Host, v: View, out: Outcome)
    requires Ended(tree, before, after, v, out) && SchemaOk(tree, before) && v.setup.job.Some?
    requires v.setup.job.value.update ==> v.setup.job.value.head.Some?
    ensures SafeBoots(tree, v.boots) <==>
              v.boots == [] || FoundByTarget(v.setup.job.value, before) <= tree(v.setup.job.value.target)
  {
    hide Verified, Terminal, CausedBy;
    assert v.boots != [] ==> v.boots[0] == Boot(v.setup.job.value.target, FoundByTarget(v.setup.job.value, before));
  }

  // ---- runs -------------------------------------------------------------------------

  /** Between jobs the app may restart on the image in use; a job may end in any of its ways. */
  datatype Step = Restart(after: Host) | RunOf(view: View, out: Outcome, after: Host)

  ghost predicate Possible(tree: string -> nat, before: Host, step: Step) {
    match step
    case Restart(after) => after == before.(pointer := after.pointer) && Migrates(tree(before.tag), before.pointer, after.pointer)
    case RunOf(v, out, after) =>
      Ended(tree, before, after, v, out) && (v.setup.job.Some? ==> Fits(tree, v.setup.job.value, before))
  }

  function HostAfter(start: Host, steps: seq<Step>): Host {
    if steps == [] then start else steps[|steps| - 1].after
  }

  ghost predicate PossibleAt(tree: string -> nat, start: Host, steps: seq<Step>, i: nat)
    requires i < |steps|
  {
    Possible(tree, HostAfter(start, steps[..i]), steps[i])
  }

  ghost predicate Run(tree: string -> nat, start: Host, steps: seq<Step>) {
    forall i: nat :: i < |steps| ==> PossibleAt(tree, start, steps, i)
  }

  lemma StepKeepsSchema(tree: string -> nat, before: Host, step: Step)
    requires SchemaOk(tree, before) && Possible(tree, before, step)
    ensures SchemaOk(tree, step.after)
    ensures step.RunOf? ==> SafeBoots(tree, step.view.boots)
  {
    hide Ended, Fits, SafeBoots;
    if step.RunOf? {
      JobKeepsSchema(tree, before, step.after, step.view, step.out);
    }
  }

  /** Over any run, the schema invariant holds after every step and every app start is safe. */
  lemma {:induction false} RunKeepsSchema(tree: string -> nat, start: Host, steps: seq<Step>)
    requires SchemaOk(tree, start) && Run(tree, start, steps)
    ensures SchemaOk(tree, HostAfter(start, steps))
    ensures forall i :: 0 <= i < |steps| && steps[i].RunOf? ==> SafeBoots(tree, steps[i].view.boots)
  {
    hide Possible, SafeBoots, SchemaOk;
    if steps != [] {
      var n := |steps| - 1;
      var earlier := steps[..n];
      forall i: nat | i < n ensures PossibleAt(tree, start, earlier, i) {
        assert PossibleAt(tree, start, steps, i) && earlier[..i] == steps[..i];
      }
      RunKeepsSchema(tree, start, earlier);
      assert forall i :: 0 <= i < n ==> steps[i] == earlier[i];
      assert PossibleAt(tree, start, steps, n);
      StepKeepsSchema(tree, HostAfter(start, earlier), steps[n]);
    }
  }

  // ---- what can go wrong ---------------------------------------------------------------

  /** A rollback whose recorded revision the image in use does not know ends with the host as it was. */
  lemma UnknownRevisionChangesNothing(tree: string -> nat, before: Host, after: Host, v: View, out: Outcome)
    requires Ended(tree, before, after, v, out)
    requires v.setup.job.Some? && !v.setup.job.value.update && !Stampable(tree, before)
    ensures after == before && v.boots == [] && (out == Exit(2) || out == Exit(5))
  {
    hide OnTarget, OnPrevious, RecordKept, Verified, Terminal;
  }

  /**
   * After a rollback that left a migration behind, the rollback file names the newer version; a second
   * rollback cannot go there, because the older image does not know the recorded revision.
   */
  lemma RollbackForwardFails(tree: string -> nat, h0: Host, h1: Host, h2: Host, v1: View, v2: View, out2: Outcome)
    requires Ended(tree, h0, h1, v1, Exit(0)) && v1.setup.job.Some? && !v1.setup.job.value.update
    requires v1.setup.job.value.head.Some? && v1.recorded == Some(true)
    requires tree(v1.setup.job.value.target) < h0.pointer
    requires Ended(tree, h1, h2, v2, out2) && v2.setup.job.Some? && !v2.setup.job.value.update
    ensures h1.rollback == Some(Record(v1.setup.job.value.anchor, Revision(h0.pointer)))
    ensures h2 == h1 && (out2 == Exit(2) || out2 == Exit(5))
  {
    hide OnPrevious, Verified, Terminal, Stampable;
    HealthyRollback(tree, h0, h1, v1);
    assert !Stampable(tree, h1) by { NotStampable(tree, h1); }
    UnknownRevisionChangesNothing(tree, h1, h2, v2, out2);
  }

  lemma NotStampable(tree: string -> nat, host: Host)
    requires RecordedHead(host).Revision? && tree(host.tag) < RecordedHead(host).rev
    ensures !Stampable(tree, host)
  {
  }

  lemma HealthyRollback(tree: string -> nat, h0: Host, h1: Host, v: View)
    requires Ended(tree, h0, h1, v, Exit(0)) && v.setup.job.Some? && !v.setup.job.value.update
    requires v.setup.job.value.head.Some? && v.recorded == Some(true)
    ensures h1.tag == v.setup.job.value.target && h1.rollback == Some(Record(v.setup.job.value.anchor, Revision(h0.pointer)))
    ensures h1.others == h0.others && v.boots == [Boot(h1.tag, FoundByTarget(v.setup.job.value, h0))]
  {
    hide Verified, Stampable;
  }

  /**
   * An update and the rollback to what it recorded: .env is back as it was, and the old release starts on
   * exactly the revision it was left at, whatever was migrated in between.
   */
  lemma RollbackUndoesUpdate(tree: string -> nat, h0: Host, h1: Host, h2: Host, h3: Host, v1: View, v3: View)
    requires Ended(tree, h0, h1, v1, Exit(0)) && v1.status == Some(Healthy) && v1.setup.job.Some? && v1.setup.job.value.update
    requires v1.setup.job.value.head.Some? && v1.recorded == Some(true) && !Floating(h0.tag)
    requires h2 == h1.(pointer := h2.pointer)
    requires Ended(tree, h2, h3, v3, Exit(0)) && v3.setup.job.Some? && !v3.setup.job.value.update
    requires v3.setup.job.value.head.Some? && v3.recorded == Some(true) && v3.setup.job.value.target == h2.rollback.value.tag
    ensures h3.tag == h0.tag && h3.others == h0.others
    ensures v3.boots == [Boot(h0.tag, h0.pointer)]
    ensures h3.rollback == Some(Record(v3.setup.job.value.anchor, Revision(h2.pointer)))
  {
    hide OnPrevious, Verified, Stampable, OnTarget;
    HealthyRollback(tree, h2, h3, v3);
  }

  // ---- when a job is safe ------------------------------------------------------------------

  /** Whatever the commands answer, no log of the job starts an image on a revision it does not know. */
  ghost predicate AlwaysSafe(tree: string -> nat, before: Host, job: Job) {
    forall log, after, out | EndsIn(tree, before, job, log, after, out) :: SafeBoots(tree, Seen(log).boots)
  }

  /** A lawful log of the job, from the host it began on to the host it left. */
  ghost predicate EndsIn(tree: string -> nat, before: Host, job: Job, log: seq<Event>, after: Host, out: Outcome) {
    Lawful(log) && Ended(tree, before, after, Seen(log), out) && Seen(log).setup.job == Some(job)
  }

  /** An update is safe exactly when the target knows the pointer, and the pointer was captured or there is nothing to migrate. */
  lemma UpdateIsSafeIff(tree: string -> nat, before: Host, job: Job)
    requires SchemaOk(tree, before) && Describes(job, before) && job.update
    ensures AlwaysSafe(tree, before, job) <==>
              before.pointer <= tree(job.target) && (job.head.Some? || tree(job.target) <= tree(before.tag))
  {
    hide SafeBoots, Ended, SchemaOk, Lawful, Seen;
    if Suits(tree, job, before) {
      SuitedIsSafe(tree, before, job);
    } else {
      var log, after, out := UnsafeUpdate(tree, before, job);
      assert EndsIn(tree, before, job, log, after, out);
    }
  }

  /** A rollback is safe exactly when it stops at its stamp, or the target knows the revision it will find. */
  lemma RollbackIsSafeIff(tree: string -> nat, before: Host, job: Job)
    requires SchemaOk(tree, before) && Describes(job, before) && !job.update
    ensures AlwaysSafe(tree, before, job) <==>
              !Stampable(tree, before) || FoundByTarget(job, before) <= tree(job.target)
  {
    hide SafeBoots, Ended, SchemaOk, Lawful, Seen;
    if !Stampable(tree, before) {
      forall log, after, out | EndsIn(tree, before, job, log, after, out) ensures SafeBoots(tree, Seen(log).boots) {
        UnknownRevisionChangesNothing(tree, before, after, Seen(log), out);
        NoBootsAreSafe(tree);
      }
    } else if Suits(tree, job, before) {
      SuitedIsSafe(tree, before, job);
    } else {
      var log, after := UnsafeRollback(tree, before, job);
      assert EndsIn(tree, before, job, log, after, Exit(3));
    }
  }

  lemma NoBootsAreSafe(tree: string -> nat)
    ensures SafeBoots(tree, [])
  {
  }

  lemma SuitedIsSafe(tree: string -> nat, before: Host, job: Job)
    requires SchemaOk(tree, before) && Suits(tree, job, before)
    ensures AlwaysSafe(tree, before, job)
  {
    hide SafeBoots, Ended, SchemaOk, Lawful, Seen;
    forall log, after, out | EndsIn(tree, before, job, log, after, out) ensures SafeBoots(tree, Seen(log).boots) {
      SuitedBootsAreSafe(tree, before, after, Seen(log), out);
    }
  }

  lemma SuitedBootsAreSafe(tree: string -> nat, before: Host, after: Host, v: View, out: Outcome)
    requires Ended(tree, before, after, v, out) && SchemaOk(tree, before)
    requires v.setup.job.Some? && Suits(tree, v.setup.job.value, before)
    ensures SafeBoots(tree, v.boots)
  {
    hide Verified, Terminal, CausedBy;
  }

  // ---- logs of unsafe jobs -----------------------------------------------------------------

  lemma Extend(log: seq<Event>, v: View, e: Event) returns (longer: seq<Event>)
    requires Lawful(log) && Seen(log) == v && Permitted(v, e)
    ensures Lawful(longer) && Seen(longer) == Observe(v, e)
  {
    hide Permitted, Observe, Lawful, Seen;
    LawfulAppend(log, e);
    longer := log + [e];
  }

  /** A job with its images pulled and nothing on the host changed. */
  function Prepared(s: Setup, stamped: Option<nat>): View {
    NOTHING.(setup := s, status := Some(Status.Pulling), shown := Some(Status.Pulling), stamped := stamped)
  }

  /** The job after .env and the rollback file, which is not replaced, with the app about to start. */
  function Switched(s: Setup, job: Job): View {
    NOTHING.(setup := s, status := Some(Restarting), shown := Some(Restarting), tag := Some(job.target),
             recorded := if job.previous == job.target then None else Some(false))
  }

  function Pulling(job: Job, pulled: set<Image>): Setup {
    NO_SETUP.(job := Some(job), pulled := pulled)
  }

  lemma PullingLog(job: Job) returns (log: seq<Event>)
    requires Anchored(job)
    ensures Lawful(log) && Seen(log) == Prepared(Pulling(job, AppImages(job.target)), None)
  {
    hide Lawful, Seen, AppImages, Prepared;
    log := BegunLog(job);
    var pulled: set<Image> := {};
    for i := 0 to |IMAGES_TO_PULL|
      invariant Lawful(log) && Seen(log) == Prepared(Pulling(job, pulled), None)
      invariant pulled == set k | 0 <= k < i :: App(IMAGES_TO_PULL[k], job.target)
    {
      log := PulledLog(log, job, pulled, App(IMAGES_TO_PULL[i], job.target));
      pulled := pulled + {App(IMAGES_TO_PULL[i], job.target)};
    }
    AllImages(job.target);
  }

  lemma BegunLog(job: Job) returns (log: seq<Event>)
    requires Anchored(job)
    ensures Lawful(log) && Seen(log) == Prepared(Pulling(job, {}), None)
  {
    hide Lawful, Seen, Gate;
    EmptyLog();
    log := Extend([], NOTHING, Began(job, Some(job.anchor), job.head));
    log := Extend(log, NOTHING.(setup := Pulling(job, {})), Report(Status.Pulling, true));
    if job.update {
      log := Extend(log, Prepared(Pulling(job, {}), None), Planned(SKIP, false));
    }
  }

  lemma PulledLog(log: seq<Event>, job: Job, pulled: set<Image>, image: Image) returns (longer: seq<Event>)
    requires Lawful(log) && Seen(log) == Prepared(Pulling(job, pulled), None)
    ensures Lawful(longer) && Seen(longer) == Prepared(Pulling(job, pulled + {image}), None)
  {
    hide Lawful, Seen, Gate;
    longer := Extend(log, Prepared(Pulling(job, pulled), None), Pulled(image, true));
  }

  lemma EmptyLog()
    ensures Lawful([]) && Seen([]) == NOTHING
  {
  }

  lemma AllImages(tag: string)
    ensures AppImages(tag) == set k | 0 <= k < |IMAGES_TO_PULL| :: App(IMAGES_TO_PULL[k], tag)
  {
    assert forall name :: name in IMAGES_TO_PULL <==> exists k :: 0 <= k < |IMAGES_TO_PULL| && IMAGES_TO_PULL[k] == name;
  }

  lemma PulledOpensGate(job: Job, s: Setup)
    requires s.job == Some(job) && s.plan == SKIP && !s.required && s.pulled == AppImages(job.target)
    ensures forall v: View :: v.setup == s ==> Gate(v)
  {
  }

  /** From the prepared job to the app start. */
  lemma SwitchLog(start: seq<Event>, job: Job, s: Setup, stamped: Option<nat>) returns (log: seq<Event>)
    requires Lawful(start) && Seen(start) == Prepared(s, stamped)
    requires s.job == Some(job) && s.plan == SKIP && !s.required && s.pulled == AppImages(job.target)
    requires if job.update then s.pruned else ReadBackIsDone(Prepared(s, stamped))
    ensures Lawful(log) && Seen(log) == Switched(s, job).(stamped := stamped)
  {
    hide Lawful, Seen, AppImages, Gate, ReadBackIsDone;
    PulledOpensGate(job, s);
    var v := Prepared(s, stamped);
    log := Extend(start, v, WroteTag(job.target, true));
    v := v.(tag := Some(job.target));
    if job.previous != job.target {
      log := Extend(log, v, Recorded(job.anchor, job.head, false));
      v := v.(recorded := Some(false));
    }
    log := Extend(log, v, Report(Restarting, true));
  }

  function Missed(expected: Option<string>, notTag: Option<string>): Event {
    Probed(Probe(expected, notTag, None))
  }

  /** The update whose target starts and never answers, at the point where it begins to heal itself. */
  function Healing(job: Job, s: Setup, found: nat): View {
    Switched(s, job).(status := Some(RollingBack), shown := Some(RollingBack), boots := [Boot(job.target, found)],
                      probe := Some(Probe(Some(job.target), None, None)))
  }

  lemma HealingLog(job: Job, found: nat) returns (log: seq<Event>, s: Setup)
    requires job.update && Anchored(job)
    ensures s.job == Some(job) && (forall v: View :: v.setup == s ==> Gate(v))
    ensures Lawful(log) && Seen(log) == Healing(job, s, found)
  {
    hide Lawful, Seen, AppImages, Gate;
    log := PullingLog(job);
    s := Pulling(job, AppImages(job.target));
    log := Extend(log, Prepared(s, None), Pruned({}));
    s := s.(pruned := true);
    log := SwitchLog(log, job, s, None);
    PulledOpensGate(job, s);
    var v := Switched(s, job);
    log := Extend(log, v, Up(Boot(job.target, found), true));
    v := v.(boots := [Boot(job.target, found)]);
    log := Extend(log, v, Missed(Some(job.target), None));
    v := v.(probe := Some(Probe(Some(job.target), None, None)), failed := Some(Missed(Some(job.target), None)));
    log := Extend(log, v, Report(RollingBack, true));
  }

  /** The stamp back fails: the update ends on its target. */
  lemma StuckLog(before: Host, job: Job, tree: string -> nat) returns (log: seq<Event>, after: Host)
    requires Describes(job, before) && job.update && job.head.Some?
    ensures EndsIn(tree, before, job, log, after, Exit(10))
    ensures Seen(log).boots == [Boot(job.target, before.pointer)]
  {
    hide Lawful, Seen, Gate;
    var s;
    log, s := HealingLog(job, before.pointer);
    var v, miss := Healing(job, s, before.pointer), Stamped(job.target, job.head.value, false);
    log := Extend(log, v, miss);
    log := Extend(log, v.(failed := Some(miss)), Report(Failed, true));
    after := before.(tag := job.target);
  }

  /** Nothing is stamped: the previous image starts on what the target has migrated. */
  lemma MigratedLog(before: Host, job: Job, tree: string -> nat, migrated: nat) returns (log: seq<Event>, after: Host)
    requires Describes(job, before) && job.update && job.head.None? && Migrates(tree(job.target), before.pointer, migrated)
    ensures EndsIn(tree, before, job, log, after, Exit(12))
    ensures Seen(log).boots == [Boot(job.target, before.pointer), Boot(before.tag, migrated)]
  {
    hide Lawful, Seen, Gate;
    var s;
    log, s := HealingLog(job, before.pointer);
    var v, boot := Healing(job, s, before.pointer), Boot(before.tag, migrated);
    log := Extend(log, v, WroteTag(job.previous, true));
    v := v.(tag := Some(job.previous));
    log := Extend(log, v, Up(boot, true));
    v := v.(boots := v.boots + [boot], probe := None);
    log := Extend(log, v, Missed(Restored(job), Some(job.target)));
    v := v.(probe := Some(Probe(Restored(job), Some(job.target), None)), failed := Some(Missed(Restored(job), Some(job.target))));
    log := Extend(log, v, Report(Failed, true));
    after := before.(pointer := migrated);
  }

  lemma UnsafeUpdate(tree: string -> nat, before: Host, job: Job) returns (log: seq<Event>, after: Host, out: Outcome)
    requires Describes(job, before) && job.update
    requires tree(job.target) < before.pointer || (job.head.None? && tree(before.tag) < tree(job.target))
    ensures EndsIn(tree, before, job, log, after, out) && !SafeBoots(tree, Seen(log).boots)
    ensures job.head.None? ==> out == Exit(12)
  {
    hide Lawful, Seen, Ended;
    if job.head.Some? {
      log, after := StuckLog(before, job, tree);
      out := Exit(10);
      assert Seen(log).boots[0] == Boot(job.target, before.pointer);
    } else {
      var migrated := if before.pointer <= tree(job.target) then tree(job.target) else before.pointer;
      log, after := MigratedLog(before, job, tree, migrated);
      out := Exit(12);
      assert Seen(log).boots[0] == Boot(job.target, before.pointer) && Seen(log).boots[1] == Boot(before.tag, migrated);
    }
  }

  /** A rollback that can be stamped reaches its app start, which fails. */
  lemma UnsafeRollback(tree: string -> nat, before: Host, job: Job) returns (log: seq<Event>, after: Host)
    requires Describes(job, before) && !job.update && Stampable(tree, before)
    requires tree(job.target) < FoundByTarget(job, before)
    ensures EndsIn(tree, before, job, log, after, Exit(3)) && !SafeBoots(tree, Seen(log).boots)
  {
    hide Lawful, Seen, AppImages, Gate;
    var found, stamped;
    log, found, stamped := StampedLog(tree, before, job);
    var s := Pulling(job, AppImages(job.target)).(readBack := Some(RecordedHead(before)));
    log := SwitchLog(log, job, s, stamped);
    PulledOpensGate(job, s);
    var v, boot := Switched(s, job).(stamped := stamped), Boot(job.target, found);
    log := Extend(log, v, Up(boot, false));
    v := v.(boots := [boot], stamped := None, failed := Some(Up(boot, false)));
    log := Extend(log, v, Report(Failed, true));
    after := before.(tag := job.target, pointer := found);
    assert Seen(log).boots[0] == boot;
  }

  lemma StampedLog(tree: string -> nat, before: Host, job: Job) returns (log: seq<Event>, found: nat, stamped: Option<nat>)
    requires Describes(job, before) && !job.update && Stampable(tree, before)
    ensures found == FoundByTarget(job, before) && Lawful(log)
    ensures Seen(log) == Prepared(Pulling(job, AppImages(job.target)).(readBack := Some(RecordedHead(before))), stamped)
    ensures ReadBackIsDone(Seen(log))
  {
    hide Lawful, Seen, AppImages, Gate;
    log := PullingLog(job);
    var s, head := Pulling(job, AppImages(job.target)), RecordedHead(before);
    log := Extend(log, Prepared(s, None), ReadBack(head));
    s := s.(readBack := Some(head));
    PulledOpensGate(job, s);
    found, stamped := before.pointer, None;
    if head.Revision? {
      log := Extend(log, Prepared(s, None), Stamped(job.previous, head.rev, true));
      found, stamped := head.rev, Some(head.rev);
    }
  }

  /** Two releases, the second with one migration more. */
  function TwoReleases(tag: string): nat {
    if tag == "v2.0.0" then 2 else 1
  }

  /**
   * A job whose pointer could not be captured: the new release migrates and does not answer, the stamp is
   * skipped, and the old release starts on a revision it does not know.
   */
  lemma UncapturedPointerIsUnsafe() returns (before: Host, job: Job, log: seq<Event>, after: Host)
    ensures SchemaOk(TwoReleases, before) && job.update && job.head.None? && before.pointer <= TwoReleases(job.target)
    ensures Lawful(log) && Seen(log).setup.job == Some(job) && Ended(TwoReleases, before, after, Seen(log), Exit(12))
    ensures !SafeBoots(TwoReleases, Seen(log).boots)
  {
    hide Lawful, Seen, Ended, SafeBoots;
    job := Job(true, "v2.0.0", "v1.0.0", "v1.0.0", None);
    before := Host("v1.0.0", [], 1, None);
    var out;
    log, after, out := UnsafeUpdate(TwoReleases, before, job);
  }
}
