/** Where a finished job leaves the host. */
module JobOutcome {
  import opened Text
  import opened UpdateLog

  /** The rollback file: the tag to return to, and the schema revision recorded with it. */
  datatype Record = Record(tag: string, head: Head)

  /** FH_TAG, the other lines of .env, the schema revision of the database, and the rollback file. */
  datatype Host = Host(tag: string, others: seq<string>, pointer: nat, rollback: Option<Record>)

  /** The exit code, or the exception of a .env that could not be rewritten. */
  datatype Outcome = Exit(code: int) | Raised

  /** An app start moves the pointer up, possibly part-way, and only within the image's own tree. */
  predicate Migrates(limit: nat, before: nat, after: nat) {
    after == before || before <= after <= limit
  }

  function HeadOf(captured: Option<nat>): Head {
    if captured.Some? then Revision(captured.value) else Missing
  }

  function RecordedHead(host: Host): Head {
    if host.rollback.Some? then host.rollback.value.head else Missing
  }

  /** The job was set up from this host. */
  predicate Describes(job: Job, host: Host) {
    && job.previous == host.tag
    && (job.head.Some? ==> job.head.value == host.pointer)
    && Anchored(job)
  }

  /** The anchor is the tag in .env, or a version in place of a floating one. */
  predicate Anchored(job: Job) {
    job.anchor == job.previous || (Floating(job.previous) && NamesVersion(job.anchor))
  }

  /** The stamp before a rollback can be done by the image now in use. */
  predicate Stampable(tree: string -> nat, host: Host) {
    match RecordedHead(host)
    case Missing => true
    case Malformed => false
    case Revision(rev) => host.pointer <= tree(host.tag) && rev <= tree(host.tag)
  }

  /** The schema revision the target's first start finds. */
  function FoundByTarget(job: Job, host: Host): nat {
    if !job.update && RecordedHead(host).Revision? then RecordedHead(host).rev else host.pointer
  }

  /** The rollback file after .env moved to another tag: the version it left, unless that write was lost. */
  predicate RecordKept(job: Job, before: Host, after: Host, v: View) {
    && (v.recorded.Some? <==> job.previous != job.target)
    && after.rollback == if v.recorded == Some(true) then Some(Record(job.anchor, HeadOf(job.head))) else before.rollback
  }

  /** The app was started on the target once, and nothing else has moved the pointer since. */
  predicate OnTarget(tree: string -> nat, job: Job, before: Host, v: View, tag: string, pointer: nat) {
    var found := FoundByTarget(job, before);
    tag == job.target && v.boots == [Boot(job.target, found)] && Migrates(tree(job.target), found, pointer)
  }

  /** The app was started on the target, the pointer put back where it was captured, and .env restored or not. */
  ghost predicate PutBack(tree: string -> nat, job: Job, before: Host, v: View, pointer: nat) {
    && job.update && |v.boots| > 0 && v.boots[0] == Boot(job.target, before.pointer)
    && (if job.head.Some? then pointer == before.pointer <= tree(job.target)
        else Migrates(tree(job.target), before.pointer, pointer))
  }

  ghost predicate OnPrevious(tree: string -> nat, job: Job, before: Host, v: View, tag: string, pointer: nat) {
    && tag == before.tag && |v.boots| == 2 && v.boots[1].tag == before.tag
    && PutBack(tree, job, before, v, v.boots[1].found)
    && Migrates(tree(before.tag), v.boots[1].found, pointer)
  }

  /** FH_TAG and the rollback file have not been touched, and no app was started on a new tag. */
  predicate Untouched(before: Host, after: Host, v: View) {
    after.tag == before.tag && after.rollback == before.rollback && v.tag.None? && v.boots == []
  }

  /** The failure an exit code stands for. */
  predicate CausedBy(code: int, e: Event) {
    match code
    case 2 => e.Pulled?
    case 3 => e.Up?
    case 4 => e.Probed?
    case 5 => e.ReadBack? || e.Stamped?
    case 6 => e.BackedUp?
    case 10 => e.Stamped?
    case 11 => e.Up?
    case 12 => e.Probed?
    case 20 => e.Recreated?
    case _ => false
  }

  predicate Blamed(v: View, code: int) {
    v.failed.Some? && CausedBy(code, v.failed.value)
  }

  ghost predicate ExitIs(tree: string -> nat, job: Job, before: Host, after: Host, v: View, code: int) {
    && v.down == []
    && (if code == 0 then v.failed.None? && (v.status == Some(Healthy) || v.status == Some(RolledBack))
        else Blamed(v, code) && v.status == Some(Failed))
    && match code
       case 0 =>
         RecordKept(job, before, after, v)
         && (if v.status == Some(Healthy) then
               OnTarget(tree, job, before, v, after.tag, after.pointer) && v.attempts == v.setup.plan.services
               && v.probe.Some? && v.probe.value.reply == Some(Some(job.target)) && v.shim
             else
               OnPrevious(tree, job, before, v, after.tag, after.pointer)
               && Verified(v, Restored(job), Some(job.target)))
       case 2 => Untouched(before, after, v) && after.pointer == before.pointer
       case 3 => !job.update && OnTarget(tree, job, before, v, after.tag, after.pointer) && RecordKept(job, before, after, v)
       case 4 => !job.update && OnTarget(tree, job, before, v, after.tag, after.pointer) && RecordKept(job, before, after, v)
       case 5 => !job.update && Untouched(before, after, v) && after.pointer == before.pointer
       case 6 => job.update && Untouched(before, after, v) && after.pointer == before.pointer
       case 10 => job.update && job.head.Some? && OnTarget(tree, job, before, v, after.tag, after.pointer)
                  && RecordKept(job, before, after, v)
       case 11 => OnPrevious(tree, job, before, v, after.tag, after.pointer) && RecordKept(job, before, after, v)
       case 12 => OnPrevious(tree, job, before, v, after.tag, after.pointer) && RecordKept(job, before, after, v)
       case 20 => job.update && Untouched(before, after, v)
                  && Migrates(tree(before.tag), before.pointer, after.pointer)
       case _ => false
  }

  /** Only a .env that cannot be rewritten raises: at the switch to the target, or on the way back. */
  ghost predicate RaisedIs(tree: string -> nat, job: Job, before: Host, after: Host, v: View) {
    && !Terminal(v.status) && v.failed.Some? && v.failed.value.WroteTag?
    && if v.tag.None? then Untouched(before, after, v) && after.pointer == FoundByTarget(job, before)
       else
         && after.tag == job.target && |v.boots| == 1 && PutBack(tree, job, before, v, after.pointer)
         && RecordKept(job, before, after, v)
  }

  /** What a job may do to a host, over every outcome of every command. */
  ghost predicate Ended(tree: string -> nat, before: Host, after: Host, v: View, out: Outcome) {
    && after.others == before.others
    && if v.setup.job.None? then out == Exit(1) && after == before && v.boots == [] && v.status == Some(Failed)
       else
         var job := v.setup.job.value;
         && Describes(job, before)
         && (!job.update && !Stampable(tree, before) ==> out == Exit(2) || out == Exit(5))
         && match out
            case Exit(code) => ExitIs(tree, job, before, after, v, code)
            case Raised => RaisedIs(tree, job, before, after, v)
  }

  /** What a self-healing update makes of view `v0` and pointer `p0`. */
  ghost predicate Healed(tree: string -> nat, job: Job, v0: View, v: View, p0: nat, p: nat, tag: string, out: Outcome) {
    && v.setup == v0.setup && v.recorded == v0.recorded && v.down == []
    && match out
       case Raised =>
         && tag == job.target && v.boots == v0.boots && v.tag == v0.tag && v.status == Some(RollingBack)
         && v.failed == Some(WroteTag(job.previous, false))
         && (if job.head.Some? then p == job.head.value && p0 <= tree(job.target) && p <= tree(job.target) else p == p0)
       case Exit(10) =>
         tag == job.target && v.boots == v0.boots && v.status == Some(Failed) && p == p0 && job.head.Some? && Blamed(v, 10)
       case Exit(code) =>
         && (code == 0 || code == 11 || code == 12)
         && tag == job.previous && |v.boots| == 2 && |v0.boots| > 0 && v.boots[0] == v0.boots[0]
         && v.boots[1].tag == job.previous
         && Migrates(tree(job.previous), v.boots[1].found, p)
         && (if job.head.Some? then v.boots[1].found == job.head.value && job.head.value <= tree(job.target)
             else v.boots[1].found == p0)
         && (if code == 0 then v.failed.None? && v.status == Some(RolledBack) && Verified(v, Restored(job), Some(job.target))
             else v.status == Some(Failed) && Blamed(v, code))
  }

  /** Seen from the host the job began on. */
  lemma HealedEnds(tree: string -> nat, job: Job, before: Host, after: Host, v0: View, v: View, p0: nat, out: Outcome)
    requires |v0.boots| > 0 && v0.tag == Some(job.target)
    requires Healed(tree, job, v0, v, p0, after.pointer, after.tag, out) && job.update && Describes(job, before)
    requires OnTarget(tree, job, before, v0, job.target, p0) && RecordKept(job, before, after, v0)
    ensures out != Exit(2) && out != Exit(5)
    ensures match out
            case Exit(code) => ExitIs(tree, job, before, after, v, code)
            case Raised => RaisedIs(tree, job, before, after, v)
  {
    hide Verified, CausedBy;
  }

  /** The exit code tells the truth: about the status the job ended on, about .env, and about the app. */
  lemma EndStatesAreTruthful(tree: string -> nat, before: Host, after: Host, v: View, out: Outcome)
    requires Ended(tree, before, after, v, out)
    ensures match out
            case Raised => !Terminal(v.status)
            case Exit(code) =>
              && code in {0, 1, 2, 3, 4, 5, 6, 10, 11, 12, 20}
              && (code == 0 <==> v.status == Some(Healthy) || v.status == Some(RolledBack))
              && (code != 0 <==> v.status == Some(Failed))
              && (code in {1, 2, 5, 6, 20} ==> after.tag == before.tag && after.rollback == before.rollback && v.boots == [])
              && (code in {3, 4, 10} ==> v.setup.job.Some? && after.tag == v.setup.job.value.target)
              && (code in {11, 12} ==> after.tag == before.tag)
              && (code in {0, 1} <==> v.failed.None? || v.setup.job.None?)
              && (code == 2 ==> v.failed.value.Pulled?)
              && (code in {3, 11} ==> v.failed.value.Up?)
              && (code in {4, 12} ==> v.failed.value.Probed?)
              && (code == 5 ==> v.failed.value.ReadBack? || v.failed.value.Stamped?)
              && (code == 6 ==> v.failed.value.BackedUp?)
              && (code == 10 ==> v.failed.value.Stamped?)
              && (code == 20 ==> v.failed.value.Recreated?)
    ensures v.status == Some(Healthy) ==>
              v.setup.job.Some? && after.tag == v.setup.job.value.target
              && v.probe.Some? && v.probe.value.reply == Some(Some(after.tag))
    ensures v.status == Some(RolledBack) ==>
              v.setup.job.Some? && v.setup.job.value.update && after.tag == before.tag
              && v.probe.Some? && v.probe.value.reply.Some?
              && (v.setup.job.value.anchor !in ["latest", ""] ==>
                    v.probe.value.reply == Some(Some(v.setup.job.value.anchor)))
              && (v.setup.job.value.anchor != v.setup.job.value.target ==>
                    v.probe.value.reply != Some(Some(v.setup.job.value.target)))
    ensures after.others == before.others
  {
    hide Stampable, Migrates;
  }

  /**
   * After an automatic rollback whose record landed, the rollback file names the version that is running again:
   * the tag in .env itself, unless that one floats.
   */
  lemma HealedJobRecordsItself(tree: string -> nat, before: Host, after: Host, v: View, out: Outcome)
    requires Ended(tree, before, after, v, out) && v.status == Some(RolledBack) && v.recorded == Some(true)
    ensures v.setup.job.Some? && after.rollback == Some(Record(v.setup.job.value.anchor, HeadOf(v.setup.job.value.head)))
    ensures !Floating(after.tag) ==> after.rollback.value.tag == after.tag
  {
    hide Stampable, Migrates, Verified;
  }
}
