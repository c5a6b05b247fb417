/** The self-update executor: one run of a job against a host where any command may fail. */
module Executor {
  import opened Text
  import opened Checkout
  import opened UpdateLog
  import opened JobOutcome
  import EnvFile
  import Backups
  import HealthWait

  /** The job's options after validation. */
  datatype Options = Options(backup: bool, backupOnDbChange: bool, keep: nat, maxAge: nat)

  /** The characters `\d` matches: decimal digits of any script, none of them whitespace. */
  type Decimals = f: char -> bool | forall c :: f(c) ==> !IsSpace(c) witness c => '0' <= c <= '9'

  predicate Digits(decimal: Decimals, s: string) {
    s != "" && forall c :: c in s ==> decimal(c)
  }

  /** `v\d+\.\d+\.\d+`, the whole string. */
  predicate IsReleaseTag(decimal: Decimals, tag: string) {
    exists i, j :: 0 < i < j < |tag| && IsDotted(decimal, tag, i, j)
  }

  predicate IsDotted(decimal: Decimals, tag: string, i: int, j: int) {
    && 0 < i < j < |tag| && tag[0] == 'v' && tag[i] == '.' && tag[j] == '.'
    && Digits(decimal, tag[1..i]) && Digits(decimal, tag[i + 1..j]) && Digits(decimal, tag[j + 1..|tag|])
  }

  /** What counts as a release tag: 'v' and three runs of digits between two dots, nothing before or after. */
  lemma ReleaseTagsAre(decimal: Decimals, tag: string)
    ensures IsReleaseTag(decimal, tag) <==>
              exists a, b, c ::
                && a != "" && b != "" && c != "" && tag == "v" + a + "." + b + "." + c
                && (forall d :: d in a + b + c ==> decimal(d))
  {
    hide IsDotted;
    if IsReleaseTag(decimal, tag) {
      var i, j :| 0 < i < j < |tag| && IsDotted(decimal, tag, i, j);
      DottedParts(decimal, tag, i, j);
    }
    if a, b, c :| a != "" && b != "" && c != "" && tag == "v" + a + "." + b + "." + c
                  && (forall d :: d in a + b + c ==> decimal(d)) {
      DottedIs(decimal, a, b, c);
    }
  }

  lemma DottedParts(decimal: Decimals, tag: string, i: int, j: int)
    requires IsDotted(decimal, tag, i, j)
    ensures var a, b, c := tag[1..i], tag[i + 1..j], tag[j + 1..];
            && a != "" && b != "" && c != "" && tag == "v" + a + "." + b + "." + c
            && (forall d :: d in a + b + c ==> decimal(d))
  {
    var a, b, c := tag[1..i], tag[i + 1..j], tag[j + 1..];
    assert c == tag[j + 1..|tag|];
    assert tag == [tag[0]] + a + [tag[i]] + b + [tag[j]] + c;
    assert tag == "v" + a + "." + b + "." + c;
  }

  lemma DottedIs(decimal: Decimals, a: string, b: string, c: string)
    requires a != "" && b != "" && c != "" && (forall d :: d in a + b + c ==> decimal(d))
    ensures IsReleaseTag(decimal, "v" + a + "." + b + "." + c)
  {
    var tag := "v" + a + "." + b + "." + c;
    var i, j := 1 + |a|, 2 + |a| + |b|;
    assert tag[1..i] == a && tag[i + 1..j] == b && tag[j + 1..|tag|] == c;
    assert IsDotted(decimal, tag, i, j);
  }

  predicate TagChar(decimal: Decimals, c: char) {
    c == 'v' || c == '.' || decimal(c)
  }

  lemma DigitAt(decimal: Decimals, tag: string, from: nat, to: nat, k: nat)
    requires from <= k < to <= |tag| && Digits(decimal, tag[from..to])
    ensures TagChar(decimal, tag[k])
  {
    assert tag[k] in tag[from..to];
  }

  lemma DottedChars(decimal: Decimals, tag: string, i: int, j: int, k: nat)
    requires IsDotted(decimal, tag, i, j) && k < |tag|
    ensures TagChar(decimal, tag[k])
  {
    if 1 <= k < i {
      DigitAt(decimal, tag, 1, i, k);
    } else if i < k < j {
      DigitAt(decimal, tag, i + 1, j, k);
    } else if j < k {
      DigitAt(decimal, tag, j + 1, |tag|, k);
    }
  }

  lemma ReleaseTagChars(decimal: Decimals, tag: string)
    requires IsReleaseTag(decimal, tag)
    ensures forall k :: 0 <= k < |tag| ==> TagChar(decimal, tag[k])
  {
    var i, j :| 0 < i < j < |tag| && IsDotted(decimal, tag, i, j);
    forall k | 0 <= k < |tag| ensures TagChar(decimal, tag[k]) {
      DottedChars(decimal, tag, i, j, k);
    }
  }

  lemma TagCharsAreWritable(decimal: Decimals, tag: string)
    requires tag != "" && forall k :: 0 <= k < |tag| ==> TagChar(decimal, tag[k])
    ensures EnvFile.Writable(tag)
  {
    hide EnvFile.Writable;
    EnvFile.CleanIsWritable(tag);
  }

  /** A release tag goes into .env as it is, and is not a floating one. */
  lemma ReleaseTagIsWritable(decimal: Decimals, tag: string)
    requires IsReleaseTag(decimal, tag)
    ensures EnvFile.Writable(tag) && !Floating(tag)
  {
    ReleaseTagChars(decimal, tag);
    TagCharsAreWritable(decimal, tag);
  }

  /** The plan follows the survey, a backup is called for by the options, and only a failed fast-forward drops the plan. */
  ghost predicate Chosen(s: Setup, options: Options, survey: Survey) {
    && s.job.Some?
    && (if s.job.value.update then PlanIs(survey, s.planned) else s.planned == SKIP)
    && (s.required <==> s.job.value.update && (options.backup || ("db" in s.planned.services && options.backupOnDbChange)))
    && (s.plan == s.planned || (s.plan == SKIP && s.planned.ffCommit.Some? && s.forwarded.None?))
  }

  /** Retention of `before` under the job's limits at some clock; or none, when the backup root is missing or a link. */
  ghost predicate Retained(
      options: Options, protect: Option<string>, listed: string -> bool, stampOf: string -> Option<int>,
      before: set<string>, after: set<string>)
  {
    after == before
    || exists p: Backups.Policy, listing ::
         p.keep == options.keep && p.maxAge == options.maxAge && p.protect == protect
         && IsRetention(p, listed, stampOf, listing, before, after)
  }

  /**
   * `listing` is all that counts as a backup, newest first, each with the stamp its name parses to; of it the
   * survivors are left, and nothing else is touched.
   */
  ghost predicate IsRetention(
      p: Backups.Policy, listed: string -> bool, stampOf: string -> Option<int>, listing: seq<Backups.Entry>,
      before: set<string>, after: set<string>)
  {
    && Backups.NewestFirst(listing) && Backups.Names(listing) == (set n | n in before && listed(n))
    && (forall e :: e in listing ==> e.stamp == stampOf(e.name))
    && after == before - Backups.Names(listing) + Backups.Names(Backups.Survivors(p, listing, 0))
  }

  lemma RetentionOf(
      options: Options, p: Backups.Policy, listed: string -> bool, stampOf: string -> Option<int>, listing: seq<Backups.Entry>,
      before: set<string>, after: set<string>)
    requires p.keep == options.keep && p.maxAge == options.maxAge && IsRetention(p, listed, stampOf, listing, before, after)
    ensures Retained(options, p.protect, listed, stampOf, before, after)
  {
  }

  /** The backup directories a job leaves: those there were and the one it took, after retention. */
  ghost predicate BackupsLeft(
      s: Setup, options: Options, listed: string -> bool, stampOf: string -> Option<int>, before: set<string>, after: set<string>)
  {
    if s.pruned then
      Retained(options, s.backup, listed, stampOf, before + (if s.backup.Some? then {s.backup.value} else {}), after)
    else after == before
  }

  class Executor {
    /** The last schema revision the image of a tag knows, and the parse of a backup's name. */
    const tree: string -> nat
    const stampOf: string -> Option<int>
    const decimal: Decimals

    const dotenv: EnvFile.EnvFile
    const root: Backups.BackupRoot

    var pointer: nat
    var rollback: Option<Record>
    var jobFile: Option<Status>

    ghost var log: seq<Event>
    ghost var view: View

    constructor (tree: string -> nat, stampOf: string -> Option<int>, decimal: Decimals,
                 dotenv: EnvFile.EnvFile, root: Backups.BackupRoot, pointer: nat, rollback: Option<Record>, jobFile: Option<Status>)
      ensures this.tree == tree && this.stampOf == stampOf && this.decimal == decimal
      ensures this.dotenv == dotenv && this.root == root
      ensures this.pointer == pointer && this.rollback == rollback && this.jobFile == jobFile
      ensures Valid() && view == NOTHING
    {
      this.tree, this.stampOf, this.decimal, this.dotenv, this.root := tree, stampOf, decimal, dotenv, root;
      this.pointer, this.rollback, this.jobFile := pointer, rollback, jobFile;
      log, view := [], NOTHING;
    }

    /** The log of the current job keeps the order, `view` sums it up, and the job file shows the last status that landed. */
    ghost predicate Valid()
      reads this
    {
      Lawful(log) && view == Seen(log) && (view.shown.Some? ==> jobFile == view.shown)
    }

    ghost function Tag(): string
      reads dotenv
    {
      EnvFile.ReadTag(dotenv.text)
    }

    ghost function Others(): seq<string>
      reads dotenv
    {
      EnvFile.OtherLines(EnvFile.Lines(dotenv.text))
    }

    ghost function Now(): Host
      reads this, dotenv
    {
      Host(Tag(), Others(), pointer, rollback)
    }

    ghost method Note(e: Event)
      requires Lawful(log) && view == Seen(log) && Permitted(view, e)
      modifies `log, `view
      ensures Lawful(log) && view == Seen(log)
      ensures log == old(log) + [e] && view == Observe(old(view), e)
    {
      LawfulAppend(log, e);
      log, view := log + [e], Observe(view, e);
    }

    // ---- commands ---------------------------------------------------------------------

    /** The write may be lost: then the job file keeps what it showed. */
    method ReportStatus(status: Status)
      requires Valid() && Permitted(view, Report(status, true))
      modifies `jobFile, `log, `view
      ensures Valid()
      ensures view == old(view).(status := Some(status), shown := view.shown,
                                 failed := if status == RollingBack then None else old(view).failed)
      ensures view.shown == Some(status) || (view.shown == old(view.shown) && jobFile == old(jobFile))
    {
      var landed: bool := *;
      if landed {
        jobFile := Some(status);
      }
      Note(Report(status, landed));
    }

    method Pull(image: Image) returns (ok: bool)
      requires Valid() && Permitted(view, Pulled(image, true))
      modifies `log, `view
      ensures Valid()
      ensures view == if ok then old(view).(setup := old(view).setup.(pulled := old(view).setup.pulled + {image}))
                      else old(view).(failed := Some(Pulled(image, false)))
    {
      ok := *;
      Note(Pulled(image, ok));
    }

    /** `alembic stamp` with an image: both revisions have to be in its tree. */
    method Stamp(tag: string, rev: nat) returns (ok: bool)
      requires Valid() && Permitted(view, Stamped(tag, rev, true))
      modifies `pointer, `log, `view
      ensures Valid()
      ensures ok ==> old(pointer) <= tree(tag) && rev <= tree(tag)
      ensures pointer == if ok then rev else old(pointer)
      ensures view == if ok then old(view).(stamped := Some(rev)) else old(view).(failed := Some(Stamped(tag, rev, false)))
    {
      ok := *;
      ok := ok && pointer <= tree(tag) && rev <= tree(tag);
      if ok {
        pointer := rev;
      }
      Note(Stamped(tag, rev, ok));
    }

    /** A container that starts on an image runs its migrations, all or some, if it can resolve the pointer. */
    method Migrate(tag: string)
      modifies `pointer
      ensures Migrates(tree(tag), old(pointer), pointer)
    {
      var reached: nat := *;
      if pointer <= reached <= tree(tag) {
        pointer := reached;
      }
    }

    method ComposeUp(tag: string) returns (ok: bool)
      requires Valid() && Permitted(view, Up(Boot(tag, pointer), true))
      modifies `pointer, `log, `view
      ensures Valid() && Migrates(tree(tag), old(pointer), pointer)
      ensures view == old(view).(boots := old(view).boots + [Boot(tag, old(pointer))],
                                 down := [], stamped := None, probe := None,
                                 failed := if ok then None else Some(Up(Boot(tag, old(pointer)), false)))
    {
      ok := *;
      Note(Up(Boot(tag, pointer), ok));
      Migrate(tag);
    }

    method WaitForBackend(expected: Option<string>, notTag: Option<string>) returns (ok: bool)
      requires Valid() && Permitted(view, Probed(Probe(expected, notTag, None)))
      modifies `log, `view
      ensures Valid() && (ok <==> Verified(view, expected, notTag))
      ensures view.probe.Some?
              && view == old(view).(probe := view.probe, failed := if ok then None else Some(Probed(view.probe.value)))
    {
      var polls := HealthWait.PollBackend();
      var timeout: nat := *;
      var last;
      ok, last := HealthWait.WaitForBackendHealth(expected, notTag, timeout, polls.start, polls.probes);
      Note(Probed(Probe(expected, notTag, if ok then polls.probes(last).reply else None)));
    }

    /** Compose brings the service up on the image, and it becomes healthy in time. */
    method RecreateInfra(svc: string, image: string) returns (ok: bool)
      requires Valid() && Permitted(view, Recreated(svc, image, false, None))
      modifies `log, `view
      ensures Valid()
      ensures view == old(view).(attempts := old(view).attempts + [svc],
                                 failed := if svc in DATA_SERVICES && !ok then Some(Recreated(svc, image, false, None)) else None)
    {
      hide Valid, Seen, Lawful, HealthWait.Accepted, HealthWait.BecomesReady;
      var up: bool := *;
      var seen := None;
      if up {
        seen := AwaitService(svc, image);
      }
      ok := seen.Some?;
      NoteRecreated(svc, image, seen);
    }

    /** The observation a wait over an arbitrary poll stream ended at, if it ended well. */
    method AwaitService(svc: string, image: string) returns (seen: Option<HealthWait.Turn>)
      ensures seen.Some? ==> CameUp(seen, image)
    {
      hide HealthWait.Accepted, HealthWait.BecomesReady, HealthWait.Ticks, HealthWait.Convinces;
      var polls := HealthWait.PollService();
      var budget: nat := *;
      var ok, last := HealthWait.WaitServiceHealthy(svc, image, budget, polls.start, polls.turns, polls.loading);
      if ok {
        HealthWait.AcceptedConvinces(polls.turns, image, last);
      }
      seen := if ok then Some(polls.turns(last)) else None;
    }

    ghost method NoteRecreated(svc: string, image: string, seen: Option<HealthWait.Turn>)
      requires Valid() && Permitted(view, Recreated(svc, image, false, None)) && (seen.Some? ==> CameUp(seen, image))
      modifies `log, `view
      ensures Valid()
      ensures view == old(view).(attempts := old(view).attempts + [svc],
                                 failed := if svc in DATA_SERVICES && seen.None?
                                           then Some(Recreated(svc, image, false, None)) else None)
    {
      Note(Recreated(svc, image, seen.Some?, seen));
    }

    method WriteTag(tag: string) returns (raised: bool)
      requires Valid() && Permitted(view, WroteTag(tag, true)) && EnvFile.Writable(tag)
      modifies dotenv, `log, `view
      ensures Valid() && Others() == old(Others())
      ensures Tag() == if raised then old(Tag()) else tag
      ensures view == if raised then old(view).(failed := Some(WroteTag(tag, false))) else old(view).(tag := Some(tag))
    {
      EnvFile.WriteThenRead(dotenv.text, tag);
      var replaced: bool := *;
      raised := dotenv.WriteCurrentTag(tag, replaced);
      Note(WroteTag(tag, !raised));
    }

    /** The replace of the rollback file may fail without a word. */
    method WriteRollbackFile(tag: string, head: Option<nat>)
      requires Valid() && Permitted(view, Recorded(tag, head, true))
      modifies `rollback, `log, `view
      ensures Valid() && view.recorded.Some? && view == old(view).(recorded := view.recorded)
      ensures rollback == if view.recorded.value then Some(Record(tag, HeadOf(head))) else old(rollback)
    {
      hide Seen;
      var landed: bool := *;
      if landed {
        rollback := Some(Record(tag, HeadOf(head)));
      }
      Note(Recorded(tag, head, landed));
    }

    // ---- before anything changes --------------------------------------------------------

    /** The version a running backend reports, when it names one. */
    method ResolveRunningVersion() returns (version: Option<string>, ghost reply: Option<string>)
      ensures version == if reply.Some? && NamesVersion(reply.value) then reply else None
      ensures version.Some? ==> version.value != "latest" && version.value != "unknown" && version.value != ""
    {
      version := *;
      reply := version;
      if version.Some? && version.value in ["latest", "unknown", ""] {
        version := None;
      }
    }

    /** The revision the running backend's image sees; None when it could not be read. */
    method CaptureHead() returns (head: Option<nat>, ghost answered: bool)
      ensures head == if answered then Some(pointer) else None
    {
      var answer: bool := *;
      answered := answer;
      head := if answer then Some(pointer) else None;
    }

    /** Reads where the host stands; only then does the job count as begun. */
    method Preflight(update: bool, target: string) returns (job: Job, ghost reply: Option<string>, ghost answered: bool)
      requires Valid() && view == NOTHING
      modifies `jobFile, `log, `view
      ensures Valid() && view == NOTHING.(setup := NO_SETUP.(job := Some(job)), status := Some(Pulling), shown := view.shown)
      ensures job.update == update && job.target == target && Describes(job, Now())
      ensures job.anchor == (if (job.previous == "latest" || job.previous == "") && reply.Some?
                                && reply.value !in ["latest", "unknown", ""]
                             then reply.value else job.previous)
      ensures job.head == if answered then Some(pointer) else None
    {
      hide Valid, Seen, Lawful, EnvFile.ReadTag, EnvFile.OtherLines, EnvFile.Lines;
      var previous := dotenv.ReadCurrentTag();
      var anchor := previous;
      reply := None;
      if Floating(previous) {
        var running;
        running, reply := ResolveRunningVersion();
        if running.Some? {
          anchor := running.value;
        }
      }
      var head;
      head, answered := CaptureHead();
      job := Job(update, target, previous, anchor, head);
      Begin(job, reply, if answered then Some(pointer) else None);
      ReportStatus(Pulling);
    }

    ghost method Begin(job: Job, reply: Option<string>, captured: Option<nat>)
      requires Valid() && view == NOTHING && SetUp(job, reply, captured)
      modifies `log, `view
      ensures Valid() && log == old(log) + [Began(job, reply, captured)] && view == NOTHING.(setup := NO_SETUP.(job := Some(job)))
    {
      Note(Began(job, reply, captured));
    }

    method PullAppImages(tag: string) returns (ok: bool)
      requires Valid() && !Terminal(view.status) && view.failed.None? && view.tag.None?
      modifies `log, `view
      ensures Valid() && old(view).setup.pulled <= view.setup.pulled
      ensures view == old(view).(setup := old(view).setup.(pulled := view.setup.pulled), failed := view.failed)
      ensures if ok then view.failed.None? else view.failed.Some? && view.failed.value.Pulled?
      ensures ok ==> AppImages(tag) <= view.setup.pulled
    {
      hide Valid;
      for i := 0 to |IMAGES_TO_PULL|
        invariant Valid() && old(view).setup.pulled <= view.setup.pulled
        invariant view == old(view).(setup := old(view).setup.(pulled := view.setup.pulled))
        invariant forall k :: 0 <= k < i ==> App(IMAGES_TO_PULL[k], tag) in view.setup.pulled
      {
        ok := Pull(App(IMAGES_TO_PULL[i], tag));
        if !ok {
          return;
        }
      }
      ok := true;
    }

    method PullInfraImages(plan: InfraPlan) returns (ok: bool)
      requires Valid() && !Terminal(view.status) && view.failed.None? && view.tag.None?
      requires forall svc :: svc in plan.services ==> svc in plan.images
      modifies `log, `view
      ensures Valid() && old(view).setup.pulled <= view.setup.pulled
      ensures view == old(view).(setup := old(view).setup.(pulled := view.setup.pulled), failed := view.failed)
      ensures if ok then view.failed.None? else view.failed.Some? && view.failed.value.Pulled?
      ensures ok ==> InfraImages(plan) <= view.setup.pulled
    {
      hide Valid;
      for i := 0 to |plan.services|
        invariant Valid() && old(view).setup.pulled <= view.setup.pulled
        invariant view == old(view).(setup := old(view).setup.(pulled := view.setup.pulled))
        invariant forall k :: 0 <= k < i ==> Infra(plan.images[plan.services[k]]) in view.setup.pulled
      {
        ok := Pull(Infra(plan.images[plan.services[i]]));
        if !ok {
          return;
        }
      }
      ok := true;
    }

    /** The dump and the snapshot either become one new directory under the backup root, or leave nothing behind. */
    method TakeBackup() returns (name: Option<string>)
      requires Valid() && Permitted(view, BackedUp(None))
      modifies root, `log, `view
      ensures Valid()
      ensures view == old(view).(setup := old(view).setup.(backup := name),
                                 failed := if name.None? then Some(BackedUp(None)) else None)
      ensures root.names == old(root.names) + (if name.Some? then {name.value} else {})
      ensures name.Some? ==> name.value !in old(root.names) && root.listed(name.value)
    {
      hide Seen, Gate;
      var made: string := *;
      var ok: bool := *;
      name := None;
      if ok && made !in root.names && root.listed(made) {
        root.names := root.names + {made};
        name := Some(made);
      }
      Note(BackedUp(name));
    }

    /** Retention over what is there now; skipped when the backup root is missing or a link. */
    method PruneBackups(options: Options, protect: Option<string>)
      requires Valid() && !Terminal(view.status) && view.failed.None?
      requires view.setup.backup == protect && (view.setup.required ==> protect.Some?)
      requires protect.Some? ==> protect.value in root.names && root.listed(protect.value)
      modifies root, `log, `view
      ensures Valid() && view == old(view).(setup := old(view).setup.(pruned := true))
      ensures Retained(options, protect, root.listed, stampOf, old(root.names), root.names)
    {
      hide Seen, Gate, Backups.Survivors, Backups.NameLess, Backups.Names, Backups.NewestFirst;
      var usable: bool := *;
      if usable {
        var now: int := *;
        var stuck: set<string> := *;
        var p := Backups.Policy(options.keep, options.maxAge, protect, now, stuck);
        var entries := root.List(stampOf);
        if protect.Some? {
          Backups.ProtectedSurvives(p, entries, protect.value);
        }
        root.Prune(entries, p);
        RetentionOf(options, p, root.listed, stampOf, entries, old(root.names), root.names);
      }
      Note(Pruned(root.names));
    }

    /** Git moves the checkout to the release's commit, or the infra part of the job is dropped. */
    method FastForwardCheckout(commit: string) returns (ok: bool)
      requires Valid() && Permitted(view, FastForwarded(commit, true))
      modifies `log, `view
      ensures Valid()
      ensures view == old(view).(setup := if ok then old(view).setup.(forwarded := Some(commit))
                                          else old(view).setup.(plan := SKIP))
    {
      ok := *;
      Note(FastForwarded(commit, ok));
    }

    /** An update's backup, retention and fast-forward; the plan that is left afterwards. */
    method SecureAndSync(job: Job, options: Options, plan: InfraPlan) returns (code: int, left: InfraPlan)
      requires Valid() && view.setup.job == Some(job) && job.update && view.setup.plan == plan && view.status == Some(Pulling)
      requires view.setup.required == (options.backup || ("db" in plan.services && options.backupOnDbChange))
      requires AppImages(job.target) + InfraImages(plan) <= view.setup.pulled
      requires view.setup.backup.None? && !view.setup.pruned && view.tag.None? && view.attempts == [] && view.failed.None?
      modifies root, `jobFile, `log, `view
      ensures Valid() && (code == 0 || code == 6)
      ensures code == 0 ==>
                && Gate(view)
                && (left == plan
                    || (left == SKIP && plan.ffCommit.Some? && view.setup.forwarded == old(view).setup.forwarded))
                && view == old(view).(setup := old(view).setup.(backup := view.setup.backup, plan := left, pruned := true,
                                                                forwarded := view.setup.forwarded))
                && (left.ffCommit.Some? ==> view.setup.forwarded == left.ffCommit)
      ensures BackupsLeft(view.setup, options, root.listed, stampOf, old(root.names), root.names)
      ensures code == 6 ==> left == plan
                            && view == old(view).(status := Some(Failed), shown := view.shown, failed := Some(BackedUp(None)))
    {
      hide Valid, Seen, AppImages, Retained;
      ghost var nothing: set<string> := {};
      assert root.names + nothing == root.names;
      left := plan;
      var forced := "db" in plan.services && options.backupOnDbChange;
      var backup: Option<string> := None;
      if options.backup || forced {
        backup := TakeBackup();
        if backup.None? {
          ReportStatus(Failed);
          return 6, left;
        }
      }
      PruneBackups(options, backup);
      if plan.ffCommit.Some? {
        var ok := FastForwardCheckout(plan.ffCommit.value);
        if !ok {
          left := SKIP;
        }
      }
      code := 0;
    }

    /** A rollback puts the database pointer back to the recorded revision, with the image now in use. */
    method StampBack(job: Job) returns (code: int)
      requires Valid() && view.setup.job == Some(job) && !job.update && Gate(view) && view.status == Some(Pulling)
      requires view.tag.None? && view.setup.readBack.None? && view.attempts == [] && view.failed.None?
      modifies `pointer, `jobFile, `log, `view
      ensures Valid() && (code == 0 || code == 5)
      ensures code == 0 ==>
                && Gate(view) && ReadBackIsDone(view)
                && view == old(view).(setup := old(view).setup.(readBack := view.setup.readBack), stamped := view.stamped)
      ensures var host := Host(job.previous, [], old(pointer), rollback);
              && (code == 0 ==> pointer == FoundByTarget(job, host) && Stampable(tree, host))
              && (code == 5 ==> pointer == old(pointer))
      ensures code == 5 ==> view == old(view).(setup := old(view).setup.(readBack := view.setup.readBack),
                                                       status := Some(Failed), shown := view.shown, failed := view.failed)
                            && Blamed(view, 5)
    {
      hide Seen;
      var head := if rollback.Some? then rollback.value.head else Missing;
      Note(ReadBack(head));
      if head.Malformed? {
        ReportStatus(Failed);
        return 5;
      }
      if head.Revision? {
        var ok := Stamp(job.previous, head.rev);
        if !ok {
          ReportStatus(Failed);
          return 5;
        }
      }
      code := 0;
    }

    // ---- the data layer ---------------------------------------------------------------------

    /** The containers of backend and worker that exist. */
    method StopApp() returns (stopped: seq<string>)
      requires Valid() && Gate(view) && !Terminal(view.status) && view.failed.None?
      requires view.listed.None? && view.attempts == [] && view.down == []
      requires Part(view.setup.plan.services, true) != []
      modifies `log, `view
      ensures Valid() && view == old(view).(listed := Some(stopped), down := stopped)
    {
      hide Seen, Part;
      stopped := *;
      Note(Listed(stopped));
      if stopped != [] {
        Note(Stopped(stopped));
      }
    }

    /** The old app comes back after a data service did not. */
    method StartApp(tag: string, stopped: seq<string>)
      requires Valid() && !Terminal(view.status) && view.failed.Some? && view.failed.value.Recreated? && view.down == stopped
      modifies `pointer, `log, `view
      ensures Valid() && view == old(view).(down := [])
      ensures Migrates(tree(tag), old(pointer), pointer)
    {
      hide Seen;
      if stopped != [] {
        Note(Started(stopped));
        Migrate(tag);
      }
    }

    method SyncDataLayer(job: Job, plan: InfraPlan) returns (code: int)
      requires Valid() && view.setup.job == Some(job) && view.setup.plan == plan && WellFormed(plan) && Gate(view)
      requires view.status == Some(Pulling) && view.tag.None? && view.listed.None?
      requires view.down == [] && view.attempts == [] && view.failed.None?
      modifies `pointer, `jobFile, `log, `view
      ensures Valid() && (code == 0 || code == 20)
      ensures code == 0 ==>
                && pointer == old(pointer) && (view.status == Some(Pulling) || view.status == Some(Restarting))
                && view == old(view).(status := view.status, shown := view.shown, listed := view.listed, down := view.down,
                                      attempts := Part(plan.services, true))
      ensures code == 20 ==>
                && plan.services != [] && Migrates(tree(job.previous), old(pointer), pointer)
                && view == old(view).(status := Some(Failed), shown := view.shown, listed := view.listed,
                                      attempts := view.attempts, failed := view.failed)
                && Blamed(view, 20)
    {
      hide Valid, Seen, Lawful, AppImages, InfraImages, Part, WellFormed, AppIsDown;
      if Part(plan.services, true) == [] {
        return 0;
      }
      PlanParts(plan);
      ReportStatus(Restarting);
      var stopped := StopApp();
      var ok := RecreateDataLayer(plan, stopped);
      if !ok {
        StartApp(job.previous, stopped);
        ReportStatus(Failed);
        return 20;
      }
      code := 0;
    }

    /** db and redis in order, with the app down; the first that does not come back ends the loop. */
    method RecreateDataLayer(plan: InfraPlan, ghost stopped: seq<string>) returns (ok: bool)
      requires Valid() && view.setup.plan == plan && WellFormed(plan) && Gate(view) && view.status == Some(Restarting)
      requires view.tag.None? && view.attempts == [] && view.failed.None?
      requires view.listed == Some(stopped) && view.down == stopped
      modifies `log, `view
      ensures Valid()
      ensures ok ==> view == old(view).(attempts := Part(plan.services, true))
      ensures !ok ==> view == old(view).(attempts := view.attempts, failed := view.failed) && Blamed(view, 20)
    {
      hide Valid, Seen, Lawful, AppImages, InfraImages, Part, Rank, DATA_SERVICES, INFRA_SYNC_ORDER;
      var services := Part(plan.services, true);
      PartIs(plan.services, true);
      for i := 0 to |services|
        invariant Valid() && Gate(view)
        invariant view == old(view).(attempts := services[..i])
      {
        ok := RecreateInfra(services[i], plan.images[services[i]]);
        if !ok {
          return;
        }
      }
      ok := true;
    }

    // ---- the switch -----------------------------------------------------------------------

    /** .env names the target, and the rollback file the version it replaced; the second write may be lost. */
    method SwitchTag(job: Job) returns (raised: bool)
      requires Valid() && view.setup.job == Some(job) && !Terminal(view.status) && view.failed.None? && Gate(view)
      requires MayWriteTag(view, job.target) && EnvFile.Writable(job.target)
      requires view.status != Some(RollingBack) && view.boots == [] && view.recorded.None?
      modifies `rollback, dotenv, `log, `view
      ensures Valid() && Others() == old(Others())
      ensures raised ==> Tag() == old(Tag()) && rollback == old(rollback)
                         && view == old(view).(failed := Some(WroteTag(job.target, false)))
      ensures !raised ==> Tag() == job.target && view == old(view).(tag := Some(job.target), recorded := view.recorded)
      ensures !raised ==> (view.recorded.Some? <==> job.previous != job.target)
      ensures rollback == if !raised && view.recorded == Some(true) then Some(Record(job.anchor, HeadOf(job.head)))
                          else old(rollback)
    {
      hide Valid, Seen, Lawful, AppImages, InfraImages, Part,
           EnvFile.Writable, EnvFile.ReadTag, EnvFile.OtherLines, EnvFile.Lines;
      raised := WriteTag(job.target);
      if !raised && job.previous != job.target {
        WriteRollbackFile(job.anchor, job.head);
      }
    }

    /** Starts the app on a tag and waits for it: 1 when it does not start, 2 when no probe is accepted. */
    method Launch(tag: string, expected: Option<string>, notTag: Option<string>) returns (misses: nat)
      requires Valid() && Permitted(view, Up(Boot(tag, pointer), true)) && view.setup.job.Some?
      modifies `pointer, `log, `view
      ensures Valid() && Migrates(tree(tag), old(pointer), pointer)
      ensures view == old(view).(down := [], stamped := None, probe := view.probe, failed := view.failed,
                                 boots := old(view).boots + [Boot(tag, old(pointer))])
      ensures misses <= 2
      ensures match misses
              case 0 => view.failed.None? && Verified(view, expected, notTag)
              case 1 => view.failed.Some? && view.failed.value.Up?
              case _ => view.failed.Some? && view.failed.value.Probed?
    {
      hide Valid, Seen, Lawful, Gate, Verified;
      var up := ComposeUp(tag);
      if !up {
        return 1;
      }
      var healthy := WaitForBackend(expected, notTag);
      misses := if healthy then 0 else 2;
    }

    /** The app on the previous tag again, and a probe that accepts it. */
    method RestoreApp(job: Job) returns (out: Outcome)
      requires Valid() && view.setup.job == Some(job) && job.update && view.status == Some(RollingBack) && Gate(view)
      requires view.tag == Some(job.previous) && |view.boots| == 1 && (job.previous != job.target ==> view.recorded.Some?)
      requires view.failed.None?
      modifies `pointer, `jobFile, `log, `view
      ensures Valid() && Migrates(tree(job.previous), old(pointer), pointer)
      ensures view == old(view).(status := view.status, shown := view.shown, stamped := None, down := [], probe := view.probe,
                                 boots := old(view).boots + [Boot(job.previous, old(pointer))], failed := view.failed)
      ensures out == Exit(0) || out == Exit(11) || out == Exit(12)
      ensures if out == Exit(0) then
                view.failed.None? && view.status == Some(RolledBack) && Verified(view, Restored(job), Some(job.target))
              else view.status == Some(Failed) && Blamed(view, out.code)
    {
      hide Valid, Seen, Lawful, AppImages, InfraImages, Accepts, Restored, MayRecreate, MayWriteTag, MayStamp, MayRecord;
      var misses := Launch(job.previous, Restored(job), Some(job.target));
      if misses != 0 {
        ReportStatus(Failed);
        return Exit(10 + misses);
      }
      ReportStatus(RolledBack);
      out := Exit(0);
    }

    /** The database pointer back to where it was captured; without a captured revision it stays. */
    method PointBack(job: Job) returns (ok: bool)
      requires Valid() && view.setup.job == Some(job) && job.update && view.status == Some(Restarting) && Gate(view)
      requires view.tag == Some(job.target) && Heals(view)
      modifies `pointer, `jobFile, `log, `view
      ensures Valid()
      ensures ok ==> view == old(view).(status := Some(RollingBack), shown := view.shown, stamped := view.stamped, failed := None)
                     && (job.head.Some? ==>
                           view.stamped == job.head && old(pointer) <= tree(job.target) && job.head.value <= tree(job.target))
                     && pointer == if job.head.Some? then job.head.value else old(pointer)
      ensures !ok ==> job.head.Some? && pointer == old(pointer)
                      && view == old(view).(status := Some(Failed), shown := view.shown, failed := view.failed)
                      && Blamed(view, 10)
    {
      hide Valid, Seen, Lawful, AppImages, InfraImages;
      ReportStatus(RollingBack);
      if job.head.Some? {
        ok := Stamp(job.target, job.head.value);
        if !ok {
          ReportStatus(Failed);
          return;
        }
      }
      ok := true;
    }

    /**
     * After a failed update: the pointer back first, by the new image, then .env, then the app, then a probe.
     * It never reports success while the app is not back.
     */
    method AutoRollback(job: Job) returns (out: Outcome)
      requires Valid() && view.setup.job == Some(job) && job.update && view.status == Some(Restarting) && Gate(view)
      requires view.tag == Some(job.target) && Tag() == job.target && view.down == [] && |view.boots| == 1
      requires EnvFile.Writable(job.previous) && (job.previous != job.target ==> view.recorded.Some?) && Heals(view)
      modifies dotenv, `pointer, `jobFile, `log, `view
      ensures Valid() && Others() == old(Others())
      ensures view.setup == old(view).setup && view.recorded == old(view).recorded
      ensures Healed(tree, job, old(view), view, old(pointer), pointer, Tag(), out)
    {
      hide Valid, Seen, Lawful, AppImages, InfraImages, Part, Accepts, Restored,
           EnvFile.Writable, EnvFile.ReadTag, EnvFile.OtherLines, EnvFile.Lines;
      var back := PointBack(job);
      if !back {
        return Exit(10);
      }
      var raised := WriteTag(job.previous);
      if raised {
        return Raised;
      }
      out := RestoreApp(job);
    }

    /** clamav and tusd, with the new app running; a failure only warns. */
    method SyncRemainingInfra(job: Job, plan: InfraPlan)
      requires Valid() && view.setup.job == Some(job) && view.setup.plan == plan && WellFormed(plan) && Gate(view)
      requires view.status == Some(Restarting) && view.tag == Some(job.target) && view.failed.None?
      requires Verified(view, Some(job.target), None) && view.attempts == Part(plan.services, true)
      modifies `log, `view
      ensures Valid() && view == old(view).(attempts := plan.services)
    {
      hide Valid, Seen, Lawful, AppImages, InfraImages, Accepts, Part, WellFormed;
      PartOfNone(plan.services, false);
      PlanParts(plan);
      for i := 0 to |plan.services|
        invariant Valid()
        invariant view == old(view).(attempts := Part(plan.services, true) + Part(plan.services[..i], false))
      {
        SyncRemainingService(job, plan, i);
      }
      assert plan.services[..|plan.services|] == plan.services;
    }

    /** One turn of that loop; db and redis have had theirs. */
    method SyncRemainingService(job: Job, plan: InfraPlan, i: nat)
      requires Valid() && view.setup.job == Some(job) && view.setup.plan == plan && WellFormed(plan) && Gate(view)
      requires view.status == Some(Restarting) && view.tag == Some(job.target) && view.failed.None?
      requires Verified(view, Some(job.target), None) && i < |plan.services|
      requires view.attempts == Part(plan.services, true) + Part(plan.services[..i], false)
      modifies `log, `view
      ensures Valid()
      ensures view == old(view).(attempts := Part(plan.services, true) + Part(plan.services[..i + 1], false))
    {
      hide Valid, Seen, Lawful, AppImages, InfraImages, Accepts, Part, Rank, Gate, INFRA_SYNC_ORDER, DATA_SERVICES;
      var svc := plan.services[i];
      NextInPlan(plan.services, i);
      PartAppend(plan.services[..i], svc, false);
      ghost var data, rest := Part(plan.services, true), Part(plan.services[..i], false);
      assert data + (rest + [svc]) == view.attempts + [svc] && data + (rest + []) == view.attempts;
      if svc !in DATA_SERVICES {
        var ok := RecreateInfra(svc, plan.images[svc]);
      }
    }

    method RecreateShim(tag: string)
      requires Valid() && Permitted(view, ShimUp(tag, true))
      modifies `log, `view
      ensures Valid() && view == old(view).(shim := true)
    {
      var ok: bool := *;
      Note(ShimUp(tag, ok));
    }

    /** From .env naming the target to the end of the job; `before` is the host the job began on. */
    method StartAndVerify(job: Job, plan: InfraPlan, ghost before: Host) returns (out: Outcome)
      requires Valid() && view.setup.job == Some(job) && view.setup.plan == plan && WellFormed(plan) && Gate(view)
      requires view.status == Some(Pulling) || view.status == Some(Restarting)
      requires view.tag == Some(job.target) && Tag() == job.target && EnvFile.Writable(job.previous)
      requires view.boots == [] && view.failed.None? && view.probe.None? && view.attempts == Part(plan.services, true)
      requires Describes(job, before) && pointer == FoundByTarget(job, before) && RecordKept(job, before, Now(), view)
      modifies dotenv, `pointer, `jobFile, `log, `view
      ensures Valid() && Others() == old(Others()) && view.setup == old(view).setup && view.recorded == old(view).recorded
      ensures out != Exit(2) && out != Exit(5)
      ensures match out
              case Exit(code) => ExitIs(tree, job, before, Now(), view, code)
              case Raised => RaisedIs(tree, job, before, Now(), view)
    {
      hide Valid, Seen, Lawful, AppImages, InfraImages, WellFormed, Verified, Part, EnvFile.ReadTag, EnvFile.OtherLines,
           ExitIs, RaisedIs, OnTarget, FoundByTarget, Describes, Blamed, Heals;
      var code := RestartApp(job, before);
      if code != 0 {
        out := Recover(job, code, before);
        return;
      }
      Complete(job, plan, before);
      out := Exit(0);
    }

    /** Starts the app on the target and waits for it; 0 when it answers as the target. */
    method RestartApp(job: Job, ghost before: Host) returns (code: int)
      requires Valid() && view.setup.job == Some(job) && Gate(view)
      requires view.status == Some(Pulling) || view.status == Some(Restarting)
      requires view.tag == Some(job.target) && view.boots == [] && pointer == FoundByTarget(job, before)
      requires (job.previous != job.target ==> view.recorded.Some?) && view.failed.None? && view.probe.None?
      modifies `pointer, `jobFile, `log, `view
      ensures Valid() && OnTarget(tree, job, before, view, job.target, pointer)
      ensures view == old(view).(status := Some(Restarting), shown := view.shown, down := [], stamped := None,
                                 boots := view.boots, probe := view.probe, failed := view.failed)
      ensures code == 0 || code == 3 || code == 4
      ensures if code == 0 then view.failed.None? && Verified(view, Some(job.target), None)
              else Blamed(view, code) && (job.update ==> Heals(view))
    {
      hide Valid, Seen, Lawful, AppImages, InfraImages, Verified, FoundByTarget;
      ReportStatus(Restarting);
      var misses := Launch(job.target, Some(job.target), None);
      code := if misses == 0 then 0 else 2 + misses;
    }

    /** The new app has answered: the rest of the plan, the terminal status, and only then the shim. */
    method Complete(job: Job, plan: InfraPlan, ghost before: Host)
      requires Valid() && view.setup.job == Some(job) && view.setup.plan == plan && WellFormed(plan) && Gate(view)
      requires view.status == Some(Restarting) && view.tag == Some(job.target) && view.down == []
      requires view.failed.None? && view.attempts == Part(plan.services, true) && Verified(view, Some(job.target), None)
      requires OnTarget(tree, job, before, view, Tag(), pointer) && RecordKept(job, before, Now(), view)
      modifies `jobFile, `log, `view
      ensures Valid() && view.setup == old(view).setup && view.recorded == old(view).recorded
      ensures ExitIs(tree, job, before, Now(), view, 0)
    {
      hide Valid, Seen, Lawful, AppImages, InfraImages, WellFormed, Part, EnvFile.ReadTag, EnvFile.OtherLines, OnPrevious;
      ghost var data, rest := Part(plan.services, true), Part(plan.services, false);
      assert data + rest == plan.services by { PlanParts(plan); }
      SyncRemainingInfra(job, plan);
      ReportStatus(Healthy);
      RecreateShim(job.target);
    }

    /** An update heals itself; a rollback fails where it stands. */
    method Recover(job: Job, code: int, ghost before: Host) returns (out: Outcome)
      requires Valid() && view.setup.job == Some(job) && view.status == Some(Restarting) && Gate(view)
      requires view.tag == Some(job.target) && Tag() == job.target && EnvFile.Writable(job.previous) && view.down == []
      requires Describes(job, before) && RecordKept(job, before, Now(), view) && (code == 3 || code == 4)
      requires Blamed(view, code) && (job.update ==> Heals(view))
      requires OnTarget(tree, job, before, view, Tag(), pointer)
      modifies dotenv, `pointer, `jobFile, `log, `view
      ensures Valid() && Others() == old(Others()) && view.setup == old(view).setup && view.recorded == old(view).recorded
      ensures out != Exit(2) && out != Exit(5)
      ensures match out
              case Exit(code) => ExitIs(tree, job, before, Now(), view, code)
              case Raised => RaisedIs(tree, job, before, Now(), view)
    {
      hide Valid, Seen, Lawful, Gate, Healed, EnvFile.ReadTag, EnvFile.OtherLines, CausedBy, ExitIs, RaisedIs, Describes, Heals;
      if job.update {
        ghost var v0, p0 := view, pointer;
        out := AutoRollback(job);
        HealedEnds(tree, job, before, Now(), v0, view, p0, out);
      } else {
        FailRollback(job, code, before);
        out := Exit(code);
      }
    }

    method FailRollback(job: Job, code: int, ghost before: Host)
      requires Valid() && view.setup.job == Some(job) && !job.update && view.status == Some(Restarting) && view.down == []
      requires Blamed(view, code) && (code == 3 || code == 4)
      requires OnTarget(tree, job, before, view, Tag(), pointer) && RecordKept(job, before, Now(), view)
      modifies `jobFile, `log, `view
      ensures Valid() && view.setup == old(view).setup && view.recorded == old(view).recorded
      ensures ExitIs(tree, job, before, Now(), view, code)
    {
      hide Valid, Seen, Lawful, Gate, EnvFile.ReadTag, EnvFile.OtherLines, Verified;
      ReportStatus(Failed);
    }

    // ---- the job ---------------------------------------------------------------------------

    /** Plans, pulls, and then either secures an update or stamps back for a rollback; 0 leaves the gate open. */
    method Prepare(job: Job, options: Options, survey: Survey) returns (code: int, plan: InfraPlan)
      requires Valid() && view == NOTHING.(setup := NO_SETUP.(job := Some(job)), status := Some(Pulling), shown := view.shown)
      modifies root, `pointer, `jobFile, `log, `view
      ensures Valid() && view.setup.job == Some(job) && view.setup.plan == plan && WellFormed(plan)
      ensures view == NOTHING.(setup := view.setup, status := view.status, shown := view.shown, stamped := view.stamped,
                               failed := view.failed)
      ensures Chosen(view.setup, options, survey) && BackupsLeft(view.setup, options, root.listed, stampOf, old(root.names), root.names)
      ensures code == 0 && job.update ==> view.setup.pruned && (plan.ffCommit.Some? ==> view.setup.forwarded == plan.ffCommit)
      ensures code in {0, 2, 5, 6} && (code == 5 ==> !job.update) && (code == 6 ==> job.update)
      ensures if code == 0 then view.status == Some(Pulling) && view.failed.None?
              else view.status == Some(Failed) && Blamed(view, code)
      ensures var host := Host(job.previous, [], old(pointer), rollback);
              && (code == 0 ==> pointer == FoundByTarget(job, host) && (!job.update ==> Stampable(tree, host)))
              && (code != 0 ==> pointer == old(pointer))
      ensures code == 0 ==> Gate(view)
      ensures !job.update ==> plan == SKIP
      ensures code == 0 && !job.update ==> ReadBackIsDone(view)
    {
      hide Valid, Seen, Lawful, AppImages, InfraImages, Rank, INFRA_SYNC_ORDER, Retained;
      plan := MakePlan(job, options, survey);
      var pulled := PullAppImages(job.target);
      if pulled {
        pulled := PullInfraImages(plan);
      }
      if !pulled {
        ReportStatus(Failed);
        return 2, plan;
      }
      if job.update {
        code, plan := SecureAndSync(job, options, plan);
      } else {
        code := StampBack(job);
      }
    }

    /** Updates only; a rollback leaves the infra services alone. */
    method MakePlan(job: Job, options: Options, survey: Survey) returns (plan: InfraPlan)
      requires Valid() && view.setup == NO_SETUP.(job := Some(job)) && !Terminal(view.status) && view.failed.None?
      modifies `log, `view
      ensures Valid() && WellFormed(plan)
      ensures view == old(view).(setup := old(view).setup.(planned := plan, plan := plan, required := view.setup.required))
      ensures if job.update then PlanIs(survey, plan) else plan == SKIP
      ensures view.setup.required <==> job.update && (options.backup || ("db" in plan.services && options.backupOnDbChange))
    {
      hide Seen;
      plan := SKIP;
      if job.update {
        plan := PlanInfra(survey);
        Note(Planned(plan, options.backup || ("db" in plan.services && options.backupOnDbChange)));
      }
    }

    /** Anything that is not a well-formed job is refused before the host is even looked at. */
    method RunJob(action: Option<string>, target: Option<string>, options: Options, survey: Survey) returns (out: Outcome)
      requires Valid()
      modifies this, dotenv, root
      ensures Valid() && Ended(tree, old(Now()), Now(), view, out)
      ensures view.setup.job.Some? <==>
                action in {None, Some("update"), Some("rollback")} && target.Some? && IsReleaseTag(decimal, target.value)
      ensures view.setup.job.Some? ==>
                && view.setup.job.value.target == target.value
                && (view.setup.job.value.update <==> action != Some("rollback"))
                && Chosen(view.setup, options, survey)
      ensures BackupsLeft(view.setup, options, root.listed, stampOf, old(root.names), root.names)
    {
      hide Valid, Seen, Lawful, Digits, Chosen, RaisedIs, Stampable, EnvFile.ReadTag, EnvFile.OtherLines;
      StartLog();
      if action.Some? && action.value != "update" && action.value != "rollback" {
        ReportStatus(Failed);
        return Exit(1);
      }
      if target.None? || target.value == "" || !IsReleaseTag(decimal, target.value) {
        ReportStatus(Failed);
        return Exit(1);
      }
      var job, reply, answered := Preflight(action != Some("rollback"), target.value);
      out := RunValidJob(job, options, survey);
    }

    ghost method StartLog()
      modifies `log, `view
      ensures Valid() && view == NOTHING
    {
      log, view := [], NOTHING;
    }

    method RunValidJob(job: Job, options: Options, survey: Survey) returns (out: Outcome)
      requires Valid() && view == NOTHING.(setup := NO_SETUP.(job := Some(job)), status := Some(Pulling), shown := view.shown)
      requires IsReleaseTag(decimal, job.target) && Describes(job, Now())
      modifies dotenv, root, `pointer, `rollback, `jobFile, `log, `view
      ensures Valid() && view.setup.job == Some(job) && Ended(tree, old(Now()), Now(), view, out)
      ensures Chosen(view.setup, options, survey) && BackupsLeft(view.setup, options, root.listed, stampOf, old(root.names), root.names)
    {
      hide Valid, Seen, Lawful, AppImages, InfraImages, Part, EnvFile.ReadTag, EnvFile.OtherLines, EnvFile.Writable,
           IsReleaseTag, PlanIs, CausedBy, Accepts, BackupsLeft;
      ghost var before := Now();
      ReleaseTagIsWritable(decimal, job.target);
      EnvFile.ReadTagIsWritable(dotenv.text);
      var code, plan := Prepare(job, options, survey);
      if code != 0 {
        return Exit(code);
      }
      out := Deploy(job, plan, before);
    }

    /** The gate is open: the data layer, then .env, then the app. */
    method Deploy(job: Job, plan: InfraPlan, ghost before: Host) returns (out: Outcome)
      requires Valid() && view.setup.job == Some(job) && view.setup.plan == plan && WellFormed(plan) && Gate(view)
      requires view.status == Some(Pulling) && view.failed.None? && view.tag.None? && view.listed.None? && view.recorded.None?
      requires view.down == [] && view.attempts == [] && view.boots == [] && view.probe.None?
      requires if job.update then view.setup.pruned && (plan.ffCommit.Some? ==> view.setup.forwarded == plan.ffCommit)
               else plan == SKIP && ReadBackIsDone(view)
      requires EnvFile.Writable(job.target) && EnvFile.Writable(job.previous)
      requires Describes(job, before) && pointer == FoundByTarget(job, before) && before == Now().(pointer := before.pointer)
      modifies dotenv, `pointer, `rollback, `jobFile, `log, `view
      ensures Valid() && Others() == old(Others()) && view.setup == old(view).setup
      ensures out != Exit(2) && out != Exit(5)
      ensures match out
              case Exit(code) => ExitIs(tree, job, before, Now(), view, code)
              case Raised => RaisedIs(tree, job, before, Now(), view)
    {
      hide Valid, Seen, Lawful, AppImages, InfraImages, Part, EnvFile.ReadTag, EnvFile.OtherLines, EnvFile.Writable,
           OnTarget, OnPrevious, PutBack, Accepts;
      var code := SyncDataLayer(job, plan);
      if code != 0 {
        return Exit(code);
      }
      var raised := SwitchTag(job);
      if raised {
        return Raised;
      }
      out := StartAndVerify(job, plan, before);
    }
  }
}
