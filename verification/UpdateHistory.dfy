/** What the order kept by a job's log means for the events in it. */
module UpdateHistory {
  import opened Text
  import opened Checkout
  import opened UpdateLog
  import HealthWait

  /** Every event was permitted by what came before it. */
  lemma LawfulAt(log: seq<Event>, i: nat)
    requires Lawful(log) && i < |log|
    ensures Permitted(Seen(log[..i]), log[i])
  {
    hide Permitted, Observe, Seen;
    assert InOrder(log, i);
  }

  /** What one more event adds to the summary. */
  lemma SeenStep(log: seq<Event>, i: nat)
    requires i < |log|
    ensures Seen(log[..i + 1]) == Observe(Seen(log[..i]), log[i])
  {
    hide Observe;
    assert log[..i + 1][..i] == log[..i];
  }

  // ---- backups ----------------------------------------------------------------------

  /** Events that change the host for good. */
  predicate Changes(e: Event) {
    e.FastForwarded? || e.Stamped? || e.Stopped? || e.Recreated? || e.WroteTag? || e.Up?
  }

  /** The plan of the job calls for a backup. */
  predicate Asked(e: Event) {
    e.Planned? && e.required
  }

  predicate Took(e: Event) {
    e.BackedUp? && e.name.Some?
  }

  lemma BackupStep(v: View, e: Event)
    requires Permitted(v, e)
    ensures var w := Observe(v, e);
            && (w.setup.backup.Some? ==> w.setup.backup == v.setup.backup || (Took(e) && w.setup.backup == e.name))
            && (v.setup.backup.Some? ==> w.setup.backup == v.setup.backup)
            && (Took(e) ==> w.setup.backup == e.name)
            && (v.setup.required || Asked(e) ==> w.setup.required)
    ensures Changes(e) && v.setup.required ==> v.setup.backup.Some?
    ensures e.Pruned? && v.setup.backup.Some? ==> v.setup.backup.value in e.left
  {
  }

  lemma {:induction false} BackupIsTrue(log: seq<Event>, n: nat)
    requires Lawful(log) && n <= |log|
    ensures Seen(log[..n]).setup.backup.Some? ==> exists j :: 0 <= j < n && Took(log[j])
    ensures forall i :: 0 <= i < n && Asked(log[i]) ==> Seen(log[..n]).setup.required
    ensures forall i :: 0 <= i < n && Took(log[i]) ==> Seen(log[..n]).setup.backup == log[i].name
  {
    hide Seen, Lawful, Permitted, Observe;
    if n == 0 {
      SeenNothing(log);
    } else {
      BackupIsTrue(log, n - 1);
      LawfulAt(log, n - 1);
      SeenStep(log, n - 1);
      BackupStep(Seen(log[..n - 1]), log[n - 1]);
    }
  }

  lemma SeenNothing(log: seq<Event>)
    ensures Seen(log[..0]) == NOTHING
  {
  }

  /** Once a backup is asked for, nothing on the host changes before one has been taken. */
  lemma BackupComesFirst(log: seq<Event>, k: nat, i: nat)
    requires Lawful(log) && k < i < |log| && Asked(log[k]) && Changes(log[i])
    ensures exists j :: 0 <= j < i && Took(log[j])
  {
    hide Seen, Lawful, Permitted, Observe;
    LawfulAt(log, i);
    BackupIsTrue(log, i);
    BackupStep(Seen(log[..i]), log[i]);
  }

  /** The backup this job took is still there after its own retention. */
  lemma BackupOutlivesPrune(log: seq<Event>, j: nat, i: nat)
    requires Lawful(log) && j < i < |log| && Took(log[j]) && log[i].Pruned?
    ensures log[j].name.value in log[i].left
  {
    hide Seen, Lawful, Permitted, Observe;
    LawfulAt(log, i);
    BackupIsTrue(log, i);
    BackupStep(Seen(log[..i]), log[i]);
  }

  // ---- images -----------------------------------------------------------------------

  lemma PullStep(v: View, e: Event)
    ensures forall image :: image in Observe(v, e).setup.pulled ==> image in v.setup.pulled || e == Pulled(image, true)
  {
  }

  lemma {:induction false} PulledIsTrue(log: seq<Event>, n: nat, image: Image)
    requires n <= |log| && image in Seen(log[..n]).setup.pulled
    ensures exists j :: 0 <= j < n && log[j] == Pulled(image, true)
  {
    hide Seen, Observe;
    if n == 0 {
      SeenNothing(log);
    } else {
      SeenStep(log, n - 1);
      PullStep(Seen(log[..n - 1]), log[n - 1]);
      if image in Seen(log[..n - 1]).setup.pulled {
        PulledIsTrue(log, n - 1, image);
      }
    }
  }

  lemma RecreateNeedsImage(v: View, e: Event)
    requires Permitted(v, e) && e.Recreated?
    ensures Infra(e.image) in v.setup.pulled
  {
    assert e.svc in v.setup.plan.services && v.setup.plan.images[e.svc] == e.image;
    assert Infra(e.image) in InfraImages(v.setup.plan);
  }

  /** Every infra service is recreated from an image pulled earlier in the same job. */
  lemma ImageComesFirst(log: seq<Event>, i: nat)
    requires Lawful(log) && i < |log| && log[i].Recreated?
    ensures exists j :: 0 <= j < i && log[j] == Pulled(Infra(log[i].image), true)
  {
    hide Seen, Lawful, Permitted, Observe;
    LawfulAt(log, i);
    RecreateNeedsImage(Seen(log[..i]), log[i]);
    PulledIsTrue(log, i, Infra(log[i].image));
  }

  /** The images of every app and updater service, on the job's target. */
  lemma ChangeNeedsAppImages(v: View, e: Event, job: Job)
    requires Permitted(v, e) && Changes(e) && v.setup.job == Some(job)
    ensures forall name :: name in ["backend", "worker", "frontend", "updater-shim", "updater-executor"] ==>
              App(name, job.target) in v.setup.pulled
  {
    assert Gate(v);
    forall name | name in ["backend", "worker", "frontend", "updater-shim", "updater-executor"]
      ensures App(name, job.target) in v.setup.pulled
    {
      assert name in IMAGES_TO_PULL;
      assert App(name, job.target) in AppImages(job.target);
    }
  }

  /** Nothing on the host changes before all five images of the target were pulled. */
  lemma AppImagesComeFirst(log: seq<Event>, b: nat, i: nat, name: string)
    requires Lawful(log) && b < i < |log| && log[b].Began? && Changes(log[i])
    requires name in ["backend", "worker", "frontend", "updater-shim", "updater-executor"]
    ensures exists j :: 0 <= j < i && log[j] == Pulled(App(name, log[b].job.target), true)
  {
    hide Seen, Lawful, Permitted, Observe, Changes;
    LawfulAt(log, i);
    JobIsTrue(log, b, i);
    ChangeNeedsAppImages(Seen(log[..i]), log[i], log[b].job);
    PulledIsTrue(log, i, App(name, log[b].job.target));
  }

  // ---- the end ----------------------------------------------------------------------

  predicate Ends(e: Event) {
    e.Report? && Terminal(Some(e.status))
  }

  lemma EndStep(v: View, e: Event)
    requires Permitted(v, e)
    ensures Terminal(v.status) ==>
              && e.ShimUp? && Observe(v, e).status == v.status == Some(Healthy)
              && v.setup.job.Some? && e.tag == v.setup.job.value.target
    ensures Ends(e) ==> Observe(v, e).status == Some(e.status)
  {
  }

  /** A terminal status is the last word of a job: after it, only the shim of a healthy one is recreated, on the target. */
  lemma NothingAfterTheEnd(log: seq<Event>, i: nat, k: nat)
    requires Lawful(log) && i < k < |log| && Ends(log[i])
    ensures log[k].ShimUp? && log[i].status == Healthy
    ensures forall b :: 0 <= b < k && log[b].Began? ==> log[k].tag == log[b].job.target
  {
    hide Seen, Lawful, Permitted, Observe;
    EndStays(log, i, k);
    LawfulAt(log, k);
    EndStep(Seen(log[..k]), log[k]);
    forall b | 0 <= b < k && log[b].Began? ensures log[k].tag == log[b].job.target {
      JobIsTrue(log, b, k);
    }
  }

  lemma {:induction false} EndStays(log: seq<Event>, i: nat, n: nat)
    requires Lawful(log) && i < n <= |log| && Ends(log[i])
    ensures Seen(log[..n]).status == Some(log[i].status)
  {
    hide Seen, Lawful, Permitted, Observe;
    LawfulAt(log, n - 1);
    SeenStep(log, n - 1);
    EndStep(Seen(log[..n - 1]), log[n - 1]);
    if i < n - 1 {
      EndStays(log, i, n - 1);
    }
  }

  // ---- infra services ---------------------------------------------------------------

  /** `top` is a service recreated earlier. */
  predicate Reached(v: View, top: string) {
    v.attempts != [] && Rank(top) <= Rank(v.attempts[|v.attempts| - 1])
  }

  lemma RecreateStep(v: View, e: Event, top: string)
    requires Permitted(v, e)
    ensures Reached(v, top) ==> Reached(Observe(v, e), top) && (e.Recreated? ==> Rank(top) < Rank(e.svc))
    ensures e.Recreated? ==> Reached(Observe(v, e), e.svc)
  {
    hide Rank, Gate, Part;
  }

  lemma RankNames(a: string, b: string)
    requires Rank(a) < Rank(b)
    ensures b != "db"
    ensures b == "redis" ==> a == "db"
    ensures b == "clamav" ==> a in ["db", "redis"]
    ensures b == "tusd" ==> a in ["db", "redis", "clamav"]
  {
  }

  lemma {:induction false} ReachedIsTrue(log: seq<Event>, i: nat, n: nat)
    requires Lawful(log) && i < n <= |log| && log[i].Recreated?
    ensures Reached(Seen(log[..n]), log[i].svc)
  {
    hide Seen, Lawful, Permitted, Observe, Reached;
    LawfulAt(log, n - 1);
    SeenStep(log, n - 1);
    RecreateStep(Seen(log[..n - 1]), log[n - 1], log[i].svc);
    if i < n - 1 {
      ReachedIsTrue(log, i, n - 1);
    }
  }

  /** Infra services are recreated at most once each, db before redis before clamav before tusd. */
  lemma RecreatesInOrder(log: seq<Event>, i: nat, k: nat)
    requires Lawful(log) && i < k < |log| && log[i].Recreated? && log[k].Recreated?
    ensures Rank(log[i].svc) < Rank(log[k].svc) && log[k].svc != "db"
    ensures log[k].svc == "redis" ==> log[i].svc == "db"
    ensures log[k].svc == "clamav" ==> log[i].svc in ["db", "redis"]
    ensures log[k].svc == "tusd" ==> log[i].svc in ["db", "redis", "clamav"]
  {
    hide Seen, Lawful, Permitted, Observe, Reached, Rank;
    LawfulAt(log, k);
    ReachedIsTrue(log, i, k);
    RecreateStep(Seen(log[..k]), log[k], log[i].svc);
    RankNames(log[i].svc, log[k].svc);
  }

  lemma CameUpStep(v: View, e: Event)
    requires Permitted(v, e) && e.Recreated? && e.ok
    ensures CameUp(e.seen, e.image)
  {
    hide Gate, MayRecreate, CameUp;
  }

  /** A service counts as recreated only on an observation of it running on the release's image, not crash-looping. */
  lemma RecreatedCameUp(log: seq<Event>, i: nat)
    requires Lawful(log) && i < |log| && log[i].Recreated? && log[i].ok
    ensures log[i].seen.Some? && log[i].seen.value.info.Some?
    ensures var seen := log[i].seen.value.info.value;
            && seen.status == "running" && seen.image == log[i].image && seen.health in ["healthy", ""]
            && (seen.restarts.None? || seen.restarts.value < 3)
  {
    hide Seen, Lawful, Permitted;
    LawfulAt(log, i);
    CameUpStep(Seen(log[..i]), log[i]);
  }

  // ---- failures ----------------------------------------------------------------------

  /** A start of the app that failed, or a wait for it. */
  predicate FailedLaunch(e: Event) {
    Fails(e) && (e.Up? || e.Probed?)
  }

  predicate StartsHealing(e: Event) {
    e.Report? && e.status == RollingBack
  }

  lemma FailureStep(v: View, e: Event)
    requires Permitted(v, e)
    ensures Fails(e) ==> Observe(v, e).failed == Some(e) && v.status != Some(Healthy) && Observe(v, e).status == v.status
    ensures v.failed.Some? && v.status != Some(Healthy) ==>
              && (e.Report? || (e.Started? && v.failed.value.Recreated?))
              && Observe(v, e).failed == (if StartsHealing(e) then None else v.failed)
              && Observe(v, e).status != Some(Healthy)
    ensures v.failed.Some? && v.status == Some(Healthy) ==> e.ShimUp?
    ensures StartsHealing(e) ==> v.failed.Some? && (v.failed.value.Up? || v.failed.value.Probed?)
    ensures Observe(v, e).failed.Some? ==> Observe(v, e).failed == v.failed || (Fails(e) && Observe(v, e).failed == Some(e))
  {
    hide Gate;
  }

  /** A failure nobody has answered yet, in a job that is not healthy. */
  predicate Open(v: View, e: Event) {
    v.failed == Some(e) && v.status != Some(Healthy)
  }

  lemma {:induction false} FailureStays(log: seq<Event>, i: nat, n: nat)
    requires Lawful(log) && i < n <= |log| && Fails(log[i])
    ensures Open(Seen(log[..n]), log[i]) || (FailedLaunch(log[i]) && exists r :: i < r < n && StartsHealing(log[r]))
  {
    hide Seen, Lawful, Permitted, Observe, Fails, StartsHealing;
    LawfulAt(log, n - 1);
    SeenStep(log, n - 1);
    FailureStep(Seen(log[..n - 1]), log[n - 1]);
    if i < n - 1 {
      FailureStays(log, i, n - 1);
    }
  }

  /**
   * A failed pull, backup, stamp, data service or .env write is never ignored: all that may follow it is a start of
   * the old containers, after a data service, and the report of the end.
   */
  lemma FailureEndsChanges(log: seq<Event>, i: nat, k: nat)
    requires Lawful(log) && i < k < |log|
    requires match log[i]
             case Pulled(_, ok) => !ok
             case BackedUp(name) => name.None?
             case ReadBack(head) => head.Malformed?
             case Stamped(_, _, ok) => !ok
             case Recreated(svc, _, ok, _) => svc in ["db", "redis"] && !ok
             case WroteTag(_, ok) => !ok
             case _ => false
    ensures log[k].Report? || (log[k].Started? && log[i].Recreated?)
  {
    hide Seen, Lawful, Permitted, Observe;
    FailureStays(log, i, k);
    LawfulAt(log, k);
    FailureStep(Seen(log[..k]), log[k]);
  }

  /** After a failed app start a job only reports, until it has announced that it heals itself. */
  lemma FailedLaunchIsAnswered(log: seq<Event>, i: nat, k: nat)
    requires Lawful(log) && i < k < |log|
    requires (log[i].Up? && !log[i].ok) || (log[i].Probed? && !Accepts(log[i].probe))
    ensures log[k].Report? || exists r :: i < r < k && StartsHealing(log[r])
  {
    hide Seen, Lawful, Permitted, Observe, StartsHealing;
    FailureStays(log, i, k);
    LawfulAt(log, k);
    FailureStep(Seen(log[..k]), log[k]);
  }

  lemma {:induction false} FailedIsTrue(log: seq<Event>, n: nat)
    requires Lawful(log) && n <= |log|
    ensures Seen(log[..n]).failed.Some? ==> exists i :: 0 <= i < n && log[i] == Seen(log[..n]).failed.value && Fails(log[i])
  {
    hide Seen, Lawful, Permitted, Observe, Fails;
    if n == 0 {
      SeenNothing(log);
    } else {
      FailedIsTrue(log, n - 1);
      LawfulAt(log, n - 1);
      SeenStep(log, n - 1);
      FailureStep(Seen(log[..n - 1]), log[n - 1]);
    }
  }

  /** A job heals itself only after its app did not start or did not answer. */
  lemma HealingNeedsAFailedLaunch(log: seq<Event>, k: nat)
    requires Lawful(log) && k < |log| && StartsHealing(log[k])
    ensures exists i :: 0 <= i < k && FailedLaunch(log[i])
  {
    hide Seen, Lawful, Permitted, Observe, Fails, StartsHealing;
    LawfulAt(log, k);
    FailureStep(Seen(log[..k]), log[k]);
    FailedIsTrue(log, k);
  }

  // ---- the app goes down and comes back -------------------------------------------------

  predicate Revives(e: Event) {
    e.Started? || e.Up?
  }

  lemma DownStep(v: View, e: Event)
    requires Permitted(v, e)
    ensures var w := Observe(v, e);
            && (w.listed.Some? ==> w.listed == v.listed || e == Listed(w.listed.value))
            && (w.down != [] ==> (w.down == v.down && !Revives(e)) || e == Stopped(w.down))
            && (v.down != [] && !Revives(e) ==> w.down == v.down)
            && (e.Stopped? ==> w.down == e.containers != [])
            && (e.Started? ==> e.containers == v.down)
    ensures e.Recreated? && e.svc in DATA_SERVICES ==> v.listed == Some(v.down)
  {
    hide Gate, Part, Rank;
  }

  /** The containers told to stop at `s` are still down before event `n`. */
  predicate DownSince(log: seq<Event>, s: nat, n: nat, containers: seq<string>) {
    s < n <= |log| && log[s] == Stopped(containers) && forall t :: s < t < n ==> !Revives(log[t])
  }

  lemma {:induction false} DownIsTrue(log: seq<Event>, n: nat)
    requires Lawful(log) && n <= |log|
    ensures Seen(log[..n]).listed.Some? ==> exists l :: 0 <= l < n && log[l] == Listed(Seen(log[..n]).listed.value)
    ensures Seen(log[..n]).down != [] ==> exists s :: 0 <= s < n && DownSince(log, s, n, Seen(log[..n]).down)
  {
    hide Seen, Lawful, Permitted, Observe, Revives;
    if n == 0 {
      SeenNothing(log);
    } else {
      DownIsTrue(log, n - 1);
      LawfulAt(log, n - 1);
      SeenStep(log, n - 1);
      DownStep(Seen(log[..n - 1]), log[n - 1]);
      var v, w := Seen(log[..n - 1]), Seen(log[..n]);
      if w.down != [] {
        if log[n - 1] == Stopped(w.down) {
          assert DownSince(log, n - 1, n, w.down);
        } else {
          var s :| 0 <= s < n - 1 && DownSince(log, s, n - 1, v.down);
          assert DownSince(log, s, n, w.down);
        }
      }
    }
  }

  /** A data service is recreated only while every app container that was found is down. */
  lemma DataLayerOnlyWhileDown(log: seq<Event>, i: nat) returns (containers: seq<string>)
    requires Lawful(log) && i < |log| && log[i].Recreated? && log[i].svc in ["db", "redis"]
    ensures exists l :: 0 <= l < i && log[l] == Listed(containers)
    ensures containers == [] || exists s :: 0 <= s < i && DownSince(log, s, i, containers)
  {
    hide Seen, Lawful, Permitted, Observe, DownSince;
    LawfulAt(log, i);
    DownIsTrue(log, i);
    DownStep(Seen(log[..i]), log[i]);
    containers := Seen(log[..i]).down;
  }

  lemma {:induction false} DownUntilRevived(log: seq<Event>, s: nat, n: nat)
    requires Lawful(log) && s < n <= |log| && log[s].Stopped?
    ensures (Seen(log[..n]).down == log[s].containers && log[s].containers != [])
            || exists t :: s < t < n && (log[t] == Started(log[s].containers) || log[t].Up?)
  {
    hide Seen, Lawful, Permitted, Observe;
    LawfulAt(log, n - 1);
    SeenStep(log, n - 1);
    DownStep(Seen(log[..n - 1]), log[n - 1]);
    if s < n - 1 {
      DownUntilRevived(log, s, n - 1);
    }
  }

  /** When a job ends with nothing down, each stop was answered by starting the same containers or by an app start. */
  lemma EveryStopIsAnswered(log: seq<Event>, s: nat)
    requires Lawful(log) && s < |log| && log[s].Stopped? && Seen(log).down == []
    ensures exists t :: s < t < |log| && (log[t] == Started(log[s].containers) || log[t].Up?)
  {
    hide Seen, Lawful;
    DownUntilRevived(log, s, |log|);
    assert log[..|log|] == log;
  }

  // ---- tags, starts and probes -----------------------------------------------------------

  predicate Writes(e: Event) {
    e.WroteTag? && e.ok
  }

  lemma TagStep(v: View, e: Event)
    ensures var w := Observe(v, e);
            && (w.tag.Some? ==> (w.tag == v.tag && !Writes(e)) || e == WroteTag(w.tag.value, true))
            && (w.probe.Some? ==> (w.probe == v.probe && !e.Up?) || e == Probed(w.probe.value))
            && (w.stamped.Some? ==> (w.stamped == v.stamped && !e.Up?) || (e.Stamped? && e.ok && w.stamped == Some(e.rev)))
            && (w.setup.job.Some? ==> w.setup.job == v.setup.job || (e.Began? && e.job == w.setup.job.value))
  {
  }

  /** The last tag written before event `n`. */
  predicate LastTag(log: seq<Event>, w: nat, n: nat, tag: string) {
    w < n <= |log| && log[w] == WroteTag(tag, true) && forall t :: w < t < n ==> !Writes(log[t])
  }

  /** A probe, and no app start between it and event `n`. */
  predicate LastProbe(log: seq<Event>, p: nat, n: nat, probe: Probe) {
    p < n <= |log| && log[p] == Probed(probe) && forall t :: p < t < n ==> !log[t].Up?
  }

  lemma {:induction false} TagIsTrue(log: seq<Event>, n: nat)
    requires n <= |log|
    ensures Seen(log[..n]).tag.Some? ==> exists w :: 0 <= w < n && LastTag(log, w, n, Seen(log[..n]).tag.value)
    ensures Seen(log[..n]).probe.Some? ==> exists p :: 0 <= p < n && LastProbe(log, p, n, Seen(log[..n]).probe.value)
  {
    hide Seen, Observe, Writes;
    if n == 0 {
      SeenNothing(log);
    } else {
      TagIsTrue(log, n - 1);
      SeenStep(log, n - 1);
      TagStep(Seen(log[..n - 1]), log[n - 1]);
      var v, w := Seen(log[..n - 1]), Seen(log[..n]);
      if w.tag.Some? {
        if log[n - 1] == WroteTag(w.tag.value, true) {
          assert LastTag(log, n - 1, n, w.tag.value);
        } else {
          var k :| 0 <= k < n - 1 && LastTag(log, k, n - 1, v.tag.value);
          assert LastTag(log, k, n, w.tag.value);
        }
      }
      if w.probe.Some? {
        if log[n - 1] == Probed(w.probe.value) {
          assert LastProbe(log, n - 1, n, w.probe.value);
        } else {
          var k :| 0 <= k < n - 1 && LastProbe(log, k, n - 1, v.probe.value);
          assert LastProbe(log, k, n, w.probe.value);
        }
      }
    }
  }

  lemma {:induction false} JobIsTrue(log: seq<Event>, b: nat, n: nat)
    requires Lawful(log) && b < n <= |log| && log[b].Began?
    ensures Seen(log[..n]).setup.job == Some(log[b].job)
  {
    hide Seen, Lawful, Permitted, Observe;
    LawfulAt(log, n - 1);
    SeenStep(log, n - 1);
    JobStep(Seen(log[..n - 1]), log[n - 1]);
    if b < n - 1 {
      JobIsTrue(log, b, n - 1);
    }
  }

  lemma JobStep(v: View, e: Event)
    requires Permitted(v, e)
    ensures v.setup.job.Some? ==> Observe(v, e).setup.job == v.setup.job
    ensures e.Began? ==> Observe(v, e).setup.job == Some(e.job)
  {
  }

  lemma SetUpStep(v: View, e: Event)
    requires Permitted(v, e) && e.Began?
    ensures SetUp(e.job, e.reply, e.captured)
  {
  }

  /** The anchor is the version the backend reported for a floating tag, if it named one, and else the tag in .env. */
  lemma AnchorIsAnswer(log: seq<Event>, b: nat)
    requires Lawful(log) && b < |log| && log[b].Began?
    ensures var job := log[b].job;
            && job.head == log[b].captured
            && job.anchor == (if job.previous in ["latest", ""] && log[b].reply.Some?
                                 && log[b].reply.value !in ["latest", "unknown", ""]
                              then log[b].reply.value else job.previous)
  {
    hide Seen, Lawful, Permitted, Observe;
    LawfulAt(log, b);
    SetUpStep(Seen(log[..b]), log[b]);
  }

  lemma FinalStep(v: View, e: Event, job: Job)
    requires Permitted(v, e) && v.setup.job == Some(job)
    ensures e.Report? && e.status == Healthy ==> v.tag == Some(job.target) && Verified(v, Some(job.target), None)
    ensures e.Report? && e.status == RolledBack ==>
              job.update && v.tag == Some(job.previous) && Verified(v, Restored(job), Some(job.target))
    ensures e.Recreated? && e.svc !in DATA_SERVICES ==> v.tag == Some(job.target) && Verified(v, Some(job.target), None)
    ensures e.Up? ==> v.tag == Some(e.boot.tag)
  {
    hide Rank, Part;
  }

  /**
   * A job is reported healthy, and clamav and tusd are touched, only with .env last written to the target
   * and a probe since the last app start in which the backend named the target as its version.
   */
  lemma HealthyIsProved(log: seq<Event>, b: nat, i: nat) returns (w: nat, p: nat, probe: Probe)
    requires Lawful(log) && b < i < |log| && log[b].Began?
    requires (log[i].Report? && log[i].status == Healthy) || (log[i].Recreated? && log[i].svc !in DATA_SERVICES)
    ensures LastTag(log, w, i, log[b].job.target)
    ensures LastProbe(log, p, i, probe) && probe.reply == Some(Some(log[b].job.target))
  {
    hide Seen, Lawful, Permitted, Observe, LastTag, LastProbe;
    LawfulAt(log, i);
    JobIsTrue(log, b, i);
    TagIsTrue(log, i);
    var v := Seen(log[..i]);
    FinalStep(v, log[i], log[b].job);
    w :| LastTag(log, w, i, v.tag.value);
    p :| LastProbe(log, p, i, v.probe.value);
    probe := v.probe.value;
  }

  /** The restored version is accepted, and with a known anchor nothing else is. */
  lemma RestoredAnswers(job: Job, reply: Option<Option<string>>)
    ensures job.anchor !in ["latest", ""] ==>
              (Accepts(Probe(Restored(job), Some(job.target), reply)) <==> reply == Some(Some(job.anchor)))
    ensures job.anchor in ["latest", ""] ==>
              (Accepts(Probe(Restored(job), Some(job.target), reply)) <==>
                 reply.Some? && (reply.value.None? || (reply.value.value != "" && reply.value.value != job.target)))
  {
  }

  /** The started target is accepted exactly when it names itself. */
  lemma TargetAnswers(target: string, reply: Option<Option<string>>)
    ensures Accepts(Probe(Some(target), None, reply)) <==> reply == Some(Some(target))
  {
  }

  /**
   * An update is reported rolled back only with .env back on the previous tag and a probe since that answered as
   * the restored version, and never as the failed target.
   */
  lemma RolledBackIsProved(log: seq<Event>, b: nat, i: nat) returns (w: nat, p: nat, probe: Probe)
    requires Lawful(log) && b < i < |log| && log[b].Began? && log[i].Report? && log[i].status == RolledBack
    ensures log[b].job.update && LastTag(log, w, i, log[b].job.previous) && LastProbe(log, p, i, probe)
    ensures probe == Probe(Restored(log[b].job), Some(log[b].job.target), probe.reply) && Accepts(probe)
    ensures log[b].job.anchor !in ["latest", ""] ==> probe.reply == Some(Some(log[b].job.anchor))
    ensures log[b].job.anchor != log[b].job.target ==> probe.reply != Some(Some(log[b].job.target))
  {
    hide Seen, Lawful, Permitted, Observe, LastTag, LastProbe, Accepts, Restored;
    LawfulAt(log, i);
    JobIsTrue(log, b, i);
    TagIsTrue(log, i);
    var v := Seen(log[..i]);
    FinalStep(v, log[i], log[b].job);
    w :| LastTag(log, w, i, v.tag.value);
    p :| LastProbe(log, p, i, v.probe.value);
    probe := v.probe.value;
    RestoredAnswers(log[b].job, probe.reply);
  }

  /** The app is only ever started on the tag .env was last written to. */
  lemma StartsFollowTheTag(log: seq<Event>, b: nat, i: nat) returns (w: nat)
    requires Lawful(log) && b < i < |log| && log[b].Began? && log[i].Up?
    ensures LastTag(log, w, i, log[i].boot.tag)
  {
    hide Seen, Lawful, Permitted, Observe, LastTag;
    LawfulAt(log, i);
    JobIsTrue(log, b, i);
    TagIsTrue(log, i);
    FinalStep(Seen(log[..i]), log[i], log[b].job);
    w :| LastTag(log, w, i, Seen(log[..i]).tag.value);
  }

  lemma RecordStep(v: View, e: Event)
    requires Permitted(v, e)
    ensures Observe(v, e).recorded.Some? ==> v.recorded.Some? || e.Recorded?
    ensures e.Recorded? && v.setup.job.Some? ==> e.tag == v.setup.job.value.anchor && e.captured == v.setup.job.value.head
    ensures e.Recorded? ==> v.setup.job.Some?
    ensures e.Up? && v.setup.job.Some? && v.setup.job.value.previous != v.setup.job.value.target ==> v.recorded.Some?
  {
    hide Rank, Part;
  }

  lemma {:induction false} RecordIsTrue(log: seq<Event>, n: nat)
    requires Lawful(log) && n <= |log|
    ensures Seen(log[..n]).recorded.Some? ==> exists j :: 0 <= j < n && log[j].Recorded?
  {
    hide Seen, Lawful, Permitted, Observe;
    if n == 0 {
      SeenNothing(log);
    } else {
      RecordIsTrue(log, n - 1);
      LawfulAt(log, n - 1);
      SeenStep(log, n - 1);
      RecordStep(Seen(log[..n - 1]), log[n - 1]);
    }
  }

  /** A job that changes the version tries to record the one it leaves, with its schema revision, before it starts an app. */
  lemma RecordComesFirst(log: seq<Event>, b: nat, i: nat) returns (j: nat)
    requires Lawful(log) && b < i < |log| && log[b].Began? && log[i].Up? && log[b].job.previous != log[b].job.target
    ensures b < j < i && log[j].Recorded? && log[j].tag == log[b].job.anchor && log[j].captured == log[b].job.head
  {
    hide Seen, Lawful, Permitted, Observe;
    LawfulAt(log, i);
    JobIsTrue(log, b, i);
    RecordStep(Seen(log[..i]), log[i]);
    RecordIsTrue(log, i);
    j :| 0 <= j < i && log[j].Recorded?;
    LawfulAt(log, j);
    RecordStep(Seen(log[..j]), log[j]);
    NothingBeforeBegan(log, b, j);
    JobIsTrue(log, b, j);
  }

  /** A job begins on an empty log. */
  lemma NothingBeforeBegan(log: seq<Event>, b: nat, j: nat)
    requires Lawful(log) && b < |log| && log[b].Began? && j < |log| && log[j].Recorded?
    ensures b < j
  {
    hide Seen, Lawful, Permitted, Observe;
    LawfulAt(log, b);
    BeganAtNothing(Seen(log[..b]), log[b]);
    if j < b {
      RecordLasts(log, j, b);
    }
  }

  lemma BeganAtNothing(v: View, e: Event)
    requires Permitted(v, e) && e.Began?
    ensures v.recorded.None?
  {
  }

  lemma RecordedStays(v: View, e: Event)
    ensures v.recorded.Some? || e.Recorded? ==> Observe(v, e).recorded.Some?
  {
  }

  lemma {:induction false} RecordLasts(log: seq<Event>, j: nat, n: nat)
    requires j < n <= |log| && log[j].Recorded?
    ensures Seen(log[..n]).recorded.Some?
  {
    hide Seen, Observe;
    SeenStep(log, n - 1);
    RecordedStays(Seen(log[..n - 1]), log[n - 1]);
    if j < n - 1 {
      RecordLasts(log, j, n - 1);
    }
  }

  // ---- the database pointer ---------------------------------------------------------------

  /** The pointer was stamped to `rev` with `tag`'s image, and no app was started between that and event `n`. */
  predicate StampedSince(log: seq<Event>, s: nat, n: nat, tag: string, rev: nat) {
    s < n <= |log| && log[s] == Stamped(tag, rev, true) && forall t :: s < t < n ==> !log[t].Up?
  }

  function StampImage(job: Job): string {
    if job.update then job.target else job.previous
  }

  lemma StampStep(v: View, e: Event, job: Job)
    requires Permitted(v, e) && v.setup.job == Some(job)
    ensures e.Stamped? ==> e.tag == StampImage(job)
    ensures e.WroteTag? && job.update && e.tag != job.target ==>
              e.tag == job.previous && (job.head.Some? ==> v.stamped == job.head)
    ensures e.WroteTag? && !job.update ==>
              v.setup.readBack.Some? && (v.setup.readBack.value.Revision? ==> v.stamped == Some(v.setup.readBack.value.rev))
  {
    hide Rank, Part, Gate;
  }

  lemma BeganStep(v: View, e: Event)
    requires Permitted(v, e) && e.Began?
    ensures Observe(v, e).stamped.None?
  {
  }

  lemma {:induction false} StampIsTrue(log: seq<Event>, b: nat, n: nat)
    requires Lawful(log) && b < n <= |log| && log[b].Began?
    ensures Seen(log[..n]).stamped.Some? ==>
              exists s :: 0 <= s < n && StampedSince(log, s, n, StampImage(log[b].job), Seen(log[..n]).stamped.value)
  {
    hide Seen, Lawful, Permitted, Observe;
    LawfulAt(log, n - 1);
    SeenStep(log, n - 1);
    var v, w := Seen(log[..n - 1]), Seen(log[..n]);
    TagStep(v, log[n - 1]);
    if b < n - 1 {
      JobIsTrue(log, b, n - 1);
      StampStep(v, log[n - 1], log[b].job);
      StampIsTrue(log, b, n - 1);
      if w.stamped.Some? {
        if log[n - 1] == Stamped(StampImage(log[b].job), w.stamped.value, true) {
          assert StampedSince(log, n - 1, n, StampImage(log[b].job), w.stamped.value);
        } else {
          var s :| 0 <= s < n - 1 && StampedSince(log, s, n - 1, StampImage(log[b].job), v.stamped.value);
          assert StampedSince(log, s, n, StampImage(log[b].job), w.stamped.value);
        }
      }
    } else {
      BeganStep(v, log[b]);
    }
  }

  /**
   * The way back goes through the pointer: .env leaves a failed update's target only after the captured
   * revision was stamped with the target's image.
   */
  lemma AutoRollbackStampsFirst(log: seq<Event>, b: nat, i: nat) returns (s: nat)
    requires Lawful(log) && b < i < |log| && log[b].Began? && log[b].job.update && log[b].job.head.Some?
    requires log[i].WroteTag? && log[i].tag != log[b].job.target
    ensures log[i].tag == log[b].job.previous
    ensures StampedSince(log, s, i, log[b].job.target, log[b].job.head.value)
  {
    hide Seen, Lawful, Permitted, Observe, StampedSince;
    LawfulAt(log, i);
    JobIsTrue(log, b, i);
    StampIsTrue(log, b, i);
    StampStep(Seen(log[..i]), log[i], log[b].job);
    s :| StampedSince(log, s, i, log[b].job.target, log[b].job.head.value);
  }

  lemma ReadBackStep(v: View, e: Event)
    requires Permitted(v, e)
    ensures e.ReadBack? ==> Observe(v, e).setup.readBack == Some(e.head)
    ensures v.setup.readBack.Some? && v.setup.job.Some? ==> Observe(v, e).setup.readBack == v.setup.readBack
    ensures e.ReadBack? ==> v.setup.job.Some?
  {
  }

  lemma {:induction false} ReadBackIsTrue(log: seq<Event>, r: nat, n: nat)
    requires Lawful(log) && r < n <= |log| && log[r].ReadBack?
    ensures Seen(log[..n]).setup.readBack == Some(log[r].head) && Seen(log[..n]).setup.job.Some?
  {
    hide Seen, Lawful, Permitted, Observe;
    LawfulAt(log, n - 1);
    SeenStep(log, n - 1);
    ReadBackStep(Seen(log[..n - 1]), log[n - 1]);
    JobStep(Seen(log[..n - 1]), log[n - 1]);
    if r < n - 1 {
      ReadBackIsTrue(log, r, n - 1);
    }
  }

  /** A rollback job touches .env only after the recorded revision was stamped with the image it is leaving. */
  lemma RollbackStampsFirst(log: seq<Event>, b: nat, r: nat, i: nat) returns (s: nat)
    requires Lawful(log) && b < i < |log| && log[b].Began? && !log[b].job.update && log[i].WroteTag?
    requires r < i && log[r].ReadBack? && log[r].head.Revision?
    ensures StampedSince(log, s, i, log[b].job.previous, log[r].head.rev)
  {
    hide Seen, Lawful, Permitted, Observe, StampedSince;
    LawfulAt(log, i);
    JobIsTrue(log, b, i);
    ReadBackIsTrue(log, r, i);
    StampIsTrue(log, b, i);
    StampStep(Seen(log[..i]), log[i], log[b].job);
    s :| StampedSince(log, s, i, log[b].job.previous, log[r].head.rev);
  }
}
