/** What an update or rollback job does to the host, step by step, and the order it has to keep. */
module UpdateLog {
  import opened Text
  import opened Checkout
  import HealthWait

  /** Progress a job reports; the last three end it. */
  datatype Status = Pulling | Restarting | RollingBack | Healthy | RolledBack | Failed

  predicate Terminal(s: Option<Status>) {
    s.Some? && (s.value.Healthy? || s.value.RolledBack? || s.value.Failed?)
  }

  datatype Image = App(name: string, tag: string) | Infra(ref: string)

  const IMAGES_TO_PULL := ["backend", "worker", "frontend", "updater-shim", "updater-executor"]

  /** A recorded schema revision, as read back from the rollback file. */
  datatype Head = Missing | Revision(rev: nat) | Malformed

  /**
   * A job that passed its checks: the tag in .env when it began, the version a later rollback returns to,
   * and the schema revision of the database, None when it could not be read.
   */
  datatype Job = Job(update: bool, target: string, previous: string, anchor: string, head: Option<nat>)

  predicate Floating(tag: string) {
    tag == "latest" || tag == ""
  }

  /** The version a restored backend will report, None when the floating tag was not resolved. */
  function Restored(job: Job): Option<string> {
    if Floating(job.anchor) then None else Some(job.anchor)
  }

  /**
   * What the answers of the running backend make of a job: `reply` is the version it reported, None when it was not
   * asked or gave none, and `captured` the revision it read.
   */
  predicate SetUp(job: Job, reply: Option<string>, captured: Option<nat>) {
    && job.anchor == (if Floating(job.previous) && reply.Some? && NamesVersion(reply.value) then reply.value else job.previous)
    && job.head == captured
  }

  predicate NamesVersion(reply: string) {
    reply !in ["latest", "unknown", ""]
  }

  /** An app start: the image's tag, and the schema revision it found. */
  datatype Boot = Boot(tag: string, found: nat)

  /** The probe that ended a wait for the backend; no reply when the deadline passed. */
  datatype Probe = Probe(expected: Option<string>, notTag: Option<string>, reply: Option<Option<string>>)

  predicate Accepts(p: Probe) {
    p.reply.Some? && HealthWait.Matches(p.expected, p.notTag, p.reply.value)
  }

  datatype Event =
    | Began(job: Job, reply: Option<string>, captured: Option<nat>)
    | Planned(plan: InfraPlan, required: bool)
    | Report(status: Status, landed: bool)
    | Pulled(pulled: Image, ok: bool)
    | BackedUp(name: Option<string>)
    | Pruned(left: set<string>)
    | FastForwarded(commit: string, ok: bool)
    | ReadBack(head: Head)
    | Stamped(tag: string, rev: nat, ok: bool)
    | Listed(containers: seq<string>)
    | Stopped(containers: seq<string>)
    | Started(containers: seq<string>)
    | Recreated(svc: string, image: string, ok: bool, seen: Option<HealthWait.Turn>)
    | WroteTag(tag: string, ok: bool)
    | Recorded(tag: string, captured: Option<nat>, landed: bool)
    | Up(boot: Boot, ok: bool)
    | Probed(probe: Probe)
    | ShimUp(tag: string, ok: bool)

  /** What is settled before .env moves. */
  datatype Setup = Setup(
    job: Option<Job>,
    planned: InfraPlan,
    plan: InfraPlan,                 // what is left of it: nothing after a failed fast-forward
    required: bool,                  // a backup has to come first
    pulled: set<Image>,
    backup: Option<string>,
    pruned: bool,
    forwarded: Option<string>,       // the commit the checkout was moved to
    readBack: Option<Head>)          // the revision a rollback found in the rollback file

  /** What a log amounts to so far. */
  datatype View = View(
    setup: Setup,
    status: Option<Status>,          // the last one issued
    shown: Option<Status>,           // the last one that reached the job file
    stamped: Option<nat>,            // the revision stamped since the last app start
    listed: Option<seq<string>>,     // the app's containers before the data layer is touched
    down: seq<string>,               // containers told to stop and not started or replaced since
    attempts: seq<string>,           // infra services recreated, in order
    failed: Option<Event>,           // the command whose failure the job has to answer for
    tag: Option<string>,             // the last tag written to .env
    recorded: Option<bool>,          // whether the rollback file was replaced, once that was tried
    boots: seq<Boot>,
    probe: Option<Probe>,            // the wait since the last app start
    shim: bool)                      // the shim was recreated, or that was tried

  const NO_SETUP := Setup(job := None, planned := SKIP, plan := SKIP, required := false, pulled := {}, backup := None,
                          pruned := false, forwarded := None, readBack := None)

  const NOTHING := View(setup := NO_SETUP, status := None, shown := None, stamped := None, listed := None, down := [],
                        attempts := [], failed := None, tag := None, recorded := None, boots := [], probe := None,
                        shim := false)

  /** Results that end a job, or make an update heal itself. */
  predicate Fails(e: Event) {
    match e
    case Pulled(_, ok) => !ok
    case BackedUp(name) => name.None?
    case ReadBack(head) => head.Malformed?
    case Stamped(_, _, ok) => !ok
    case Recreated(svc, _, ok, _) => svc in DATA_SERVICES && !ok
    case WroteTag(_, ok) => !ok
    case Up(_, ok) => !ok
    case Probed(probe) => !Accepts(probe)
    case _ => false
  }

  /** The summary after one more event. */
  function Observe(v: View, e: Event): View {
    Effect(v, e).(failed := if Fails(e) then Some(e) else if e.Report? && e.status == RollingBack then None else v.failed)
  }

  function Effect(v: View, e: Event): View {
    match e
    case Report(status, landed) => v.(status := Some(status), shown := if landed then Some(status) else v.shown)
    case Stamped(_, rev, ok) => if ok then v.(stamped := Some(rev)) else v
    case Listed(containers) => v.(listed := Some(containers))
    case Stopped(containers) => v.(down := containers)
    case Started(_) => v.(down := [])
    case Recreated(svc, _, _, _) => v.(attempts := v.attempts + [svc])
    case WroteTag(tag, ok) => if ok then v.(tag := Some(tag)) else v
    case Recorded(_, _, landed) => v.(recorded := Some(landed))
    case Up(boot, _) => v.(boots := v.boots + [boot], down := [], stamped := None, probe := None)
    case Probed(probe) => v.(probe := Some(probe))
    case ShimUp(_, _) => v.(shim := true)
    case _ => v.(setup := Settle(v.setup, e))
  }

  function Settle(s: Setup, e: Event): Setup {
    match e
    case Began(job, _, _) => s.(job := Some(job))
    case Planned(plan, required) => s.(planned := plan, plan := plan, required := required)
    case Pulled(image, ok) => if ok then s.(pulled := s.pulled + {image}) else s
    case BackedUp(name) => s.(backup := name)
    case Pruned(_) => s.(pruned := true)
    case FastForwarded(commit, ok) => if ok then s.(forwarded := Some(commit)) else s.(plan := SKIP)
    case ReadBack(head) => s.(readBack := Some(head))
    case _ => s
  }

  function Seen(log: seq<Event>): View {
    if log == [] then NOTHING else Observe(Seen(log[..|log| - 1]), log[|log| - 1])
  }

  function AppImages(tag: string): set<Image> {
    set name | name in IMAGES_TO_PULL :: App(name, tag)
  }

  function InfraImages(plan: InfraPlan): set<Image> {
    set svc | svc in plan.services && svc in plan.images :: Infra(plan.images[svc])
  }

  /** Nothing on the host changes before this holds: every image is here, and a required backup too. */
  predicate Gate(v: View) {
    && v.setup.job.Some?
    && AppImages(v.setup.job.value.target) + InfraImages(v.setup.plan) <= v.setup.pulled
    && (v.setup.required ==> v.setup.backup.Some?)
  }

  /** The planned services of one kind, in plan order. */
  function Part(services: seq<string>, data: bool): seq<string> {
    if services == [] then []
    else if (services[0] in DATA_SERVICES) == data then [services[0]] + Part(services[1..], data)
    else Part(services[1..], data)
  }

  /** The only app containers that exist have been told to stop. */
  predicate AppIsDown(v: View) {
    v.listed.Some? && v.down == v.listed.value
  }

  predicate Verified(v: View, expected: Option<string>, notTag: Option<string>) {
    v.probe.Some? && v.probe.value.expected == expected && v.probe.value.notTag == notTag && Accepts(v.probe.value)
  }

  /** A recreate comes once per service and in plan order, from a pulled image, at the right side of the app start. */
  predicate MayRecreate(v: View, svc: string, image: string) {
    && svc in v.setup.plan.services && svc in v.setup.plan.images && v.setup.plan.images[svc] == image
    && (v.attempts != [] ==> Rank(v.attempts[|v.attempts| - 1]) < Rank(svc))
    && if svc in DATA_SERVICES then AppIsDown(v) && v.tag.None?
       else v.setup.job.Some? && v.tag == Some(v.setup.job.value.target) && Verified(v, Some(v.setup.job.value.target), None)
  }

  /** The wait for a recreated service ended at an observation of it up on the image. */
  predicate CameUp(seen: Option<HealthWait.Turn>, image: string) {
    seen.Some? && HealthWait.Convinces(seen.value, image)
  }

  /** A recorded revision was read, and stamped if there was one. */
  predicate ReadBackIsDone(v: View) {
    match v.setup.readBack
    case None => false
    case Some(Missing) => true
    case Some(Malformed) => false
    case Some(Revision(rev)) => v.stamped == Some(rev)
  }

  /** The data layer is done, or the database pointer is back, before .env moves. */
  predicate MayWriteTag(v: View, tag: string) {
    && v.setup.job.Some?
    && if v.status == Some(RollingBack) then
         && v.setup.job.value.update && tag == v.setup.job.value.previous && v.tag == Some(v.setup.job.value.target)
         && (v.setup.job.value.head.Some? ==> v.stamped == v.setup.job.value.head)
       else
         && tag == v.setup.job.value.target && v.tag.None? && v.attempts == Part(v.setup.plan.services, true)
         && if v.setup.job.value.update then
              v.setup.pruned && (v.setup.plan.ffCommit.Some? ==> v.setup.forwarded == v.setup.plan.ffCommit)
            else ReadBackIsDone(v)
  }

  predicate MayReport(v: View, s: Status) {
    match s
    case Healthy =>
      v.setup.job.Some? && v.tag == Some(v.setup.job.value.target) && Verified(v, Some(v.setup.job.value.target), None)
      && v.attempts == Part(v.setup.plan.services, true) + Part(v.setup.plan.services, false) && v.status == Some(Restarting)
    case RolledBack =>
      v.setup.job.Some? && v.setup.job.value.update
      && v.status == Some(RollingBack) && v.tag == Some(v.setup.job.value.previous)
      && Verified(v, Restored(v.setup.job.value), Some(v.setup.job.value.target))
    case RollingBack => false
    case Failed => v.setup.job.None?
    case _ => true
  }

  /** An update whose new app did not come up heals itself. */
  predicate Heals(v: View) {
    && v.setup.job.Some? && v.setup.job.value.update && |v.boots| == 1
    && v.failed.Some? && (v.failed.value.Up? || v.failed.value.Probed?)
  }

  /** After a failure: the old containers back up, and then the one report that fits. */
  predicate MayRecover(v: View, e: Event) {
    match e
    case Started(containers) => v.failed.Some? && v.failed.value.Recreated? && containers == v.down != []
    case Report(Failed, _) => !Heals(v) && (v.failed.Some? && v.failed.value.Recreated? ==> v.down == [])
    case Report(RollingBack, _) => Heals(v)
    case _ => false
  }

  /** Whether an event may follow a log. */
  predicate Permitted(v: View, e: Event) {
    if Terminal(v.status) then
      v.status == Some(Healthy) && e.ShimUp? && v.setup.job.Some? && e.tag == v.setup.job.value.target
    else if v.failed.Some? then MayRecover(v, e)
    else Follows(v, e)
  }

  /** Whether an event may follow a log without a failure to answer for. */
  predicate Follows(v: View, e: Event) {
    match e
    case Began(job, reply, captured) => v == NOTHING && SetUp(job, reply, captured)
    case Planned(_, _) => v.setup.job.Some? && v.setup == NO_SETUP.(job := v.setup.job)
    case Report(status, _) => MayReport(v, status)
    case Pulled(_, _) => v.tag.None?
    case BackedUp(_) => v.setup.required && v.attempts == [] && v.tag.None? && v.setup.backup.None?
    case Pruned(left) =>
      (v.setup.required ==> v.setup.backup.Some?) && (v.setup.backup.Some? ==> v.setup.backup.value in left)
    case FastForwarded(commit, _) => Gate(v) && v.setup.plan.ffCommit == Some(commit) && v.attempts == []
    case ReadBack(_) => v.setup.job.Some? && !v.setup.job.value.update && v.setup.readBack.None?
    case Stamped(tag, rev, _) => Gate(v) && MayStamp(v, v.setup.job.value, tag, rev)
    case Listed(_) => v.listed.None?
    case Stopped(containers) =>
      Gate(v) && v.listed == Some(containers) && containers != [] && v.down == [] && v.attempts == []
      && Part(v.setup.plan.services, true) != []
    case Started(_) => false
    case Recreated(svc, image, ok, seen) => Gate(v) && MayRecreate(v, svc, image) && (ok ==> CameUp(seen, image))
    case WroteTag(tag, _) => Gate(v) && MayWriteTag(v, tag)
    case Recorded(tag, head, _) => Gate(v) && v.recorded.None? && v.boots == [] && MayRecord(v, v.setup.job.value, tag, head)
    case Up(boot, _) => Gate(v) && MayStart(v, v.setup.job.value, boot.tag)
    case Probed(_) => v.boots != [] && v.probe.None?
    case ShimUp(_, _) => false
  }

  /** An update stamps on its way back, with the new image; a rollback before it leaves the image in use. */
  predicate MayStamp(v: View, job: Job, tag: string, rev: nat) {
    if v.status == Some(RollingBack) then job.update && tag == job.target && v.tag == Some(tag) && job.head == Some(rev)
    else !job.update && tag == job.previous && v.tag.None? && v.attempts == [] && v.setup.readBack == Some(Revision(rev))
  }

  predicate MayRecord(v: View, job: Job, tag: string, head: Option<nat>) {
    v.tag == Some(job.target) && job.previous != job.target && tag == job.anchor && head == job.head
  }

  predicate MayStart(v: View, job: Job, tag: string) {
    && v.tag == Some(tag) && (job.previous != job.target ==> v.recorded.Some?)
    && if v.status == Some(RollingBack) then |v.boots| == 1 else v.status == Some(Restarting) && v.boots == []
  }

  /** Event `i` of a log may follow the ones before it. */
  predicate InOrder(log: seq<Event>, i: nat)
    requires i < |log|
  {
    Permitted(Seen(log[..i]), log[i])
  }

  /** Every event of the log may follow the ones before it. */
  ghost predicate Lawful(log: seq<Event>) {
    forall i: nat :: i < |log| ==> InOrder(log, i)
  }

  /** One more permitted event keeps a log lawful. */
  lemma LawfulAppend(log: seq<Event>, e: Event)
    requires Lawful(log) && Permitted(Seen(log), e)
    ensures Lawful(log + [e]) && Seen(log + [e]) == Observe(Seen(log), e)
  {
    hide Permitted, Observe, Seen;
    forall i: nat | i < |log| + 1 ensures InOrder(log + [e], i) {
      if i < |log| {
        assert InOrder(log, i);
        assert (log + [e])[..i] == log[..i];
      } else {
        assert (log + [e])[..i] == log;
      }
    }
    SeenAppend(log, e);
  }

  lemma SeenAppend(log: seq<Event>, e: Event)
    ensures Seen(log + [e]) == Observe(Seen(log), e)
  {
    hide Observe;
    assert (log + [e])[..|log + [e]| - 1] == log;
  }

  // ---- plans -------------------------------------------------------------------------

  predicate WellFormed(plan: InfraPlan) {
    InSyncOrder(plan.services) && forall svc :: svc in plan.services ==> svc in plan.images && svc in INFRA_SYNC_ORDER
  }

  lemma {:induction false} PartIs(services: seq<string>, data: bool)
    requires InSyncOrder(services)
    ensures InSyncOrder(Part(services, data))
    ensures forall svc :: svc in Part(services, data) <==> svc in services && (svc in DATA_SERVICES) == data
  {
    if services != [] {
      TailInOrder(services);
      PartIs(services[1..], data);
    }
  }

  lemma TailInOrder(services: seq<string>)
    requires InSyncOrder(services) && services != []
    ensures InSyncOrder(services[1..])
    ensures forall svc :: svc in services <==> svc == services[0] || svc in services[1..]
    ensures forall svc :: svc in services[1..] ==> Rank(services[0]) < Rank(svc)
  {
    assert services == [services[0]] + services[1..];
    assert forall i, j :: 0 <= i < j < |services[1..]| ==>
      services[1..][i] == services[i + 1] && services[1..][j] == services[j + 1];
  }

  lemma DataRanksFirst(svc: string)
    ensures svc in DATA_SERVICES ==> Rank(svc) < 2
    ensures svc in INFRA_SYNC_ORDER && svc !in DATA_SERVICES ==> 2 <= Rank(svc)
  {
  }

  /** The services before the app start and the ones after it make up the plan, in its order. */
  lemma {:induction false} PartsJoin(services: seq<string>)
    requires InSyncOrder(services) && forall svc :: svc in services ==> svc in INFRA_SYNC_ORDER
    ensures Part(services, true) + Part(services, false) == services
  {
    hide Rank;
    if services != [] {
      TailInOrder(services);
      PartsJoin(services[1..]);
      var rest := Part(services[1..], true);
      assert rest != [] ==> rest[0] in rest;
      PartIs(services[1..], true);
      DataRanksFirst(services[0]);
      if rest != [] {
        DataRanksFirst(rest[0]);
      }
    }
  }

  lemma PlanParts(plan: InfraPlan)
    requires WellFormed(plan)
    ensures Part(plan.services, true) + Part(plan.services, false) == plan.services
  {
    PartsJoin(plan.services);
  }

  lemma PartOfNone(services: seq<string>, data: bool)
    ensures Part(services[..0], data) == []
  {
  }

  lemma {:induction false} PartAppend(services: seq<string>, svc: string, data: bool)
    ensures Part(services + [svc], data) == Part(services, data) + (if (svc in DATA_SERVICES) == data then [svc] else [])
  {
    if services != [] {
      PartAppend(services[1..], svc, data);
      assert (services + [svc])[1..] == services[1..] + [svc];
    }
  }

  /** When the loop over the plan reaches a service that is not part of the data layer, all before it rank lower. */
  lemma NextInPlan(services: seq<string>, i: nat)
    requires InSyncOrder(services) && i < |services| && services[i] in INFRA_SYNC_ORDER
    ensures services[..i + 1] == services[..i] + [services[i]]
    ensures var before := Part(services, true) + Part(services[..i], false);
            services[i] !in DATA_SERVICES && before != [] ==> Rank(before[|before| - 1]) < Rank(services[i])
  {
    hide Rank, Part;
    ghost var before := Part(services, true) + Part(services[..i], false);
    assert before != [] ==> before[|before| - 1] in before;
    PartIs(services, true);
    PartIs(services[..i], false);
    DataRanksFirst(services[i]);
    forall svc | svc in Part(services, true) ensures Rank(svc) < 2 {
      DataRanksFirst(svc);
    }
  }
}
