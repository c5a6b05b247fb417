/** The polling loops that decide whether a service, redis or the backend is up. */
module HealthWait {
  import opened Text

  const POLL_SECONDS := 3
  const CRASH_LOOP_RESTARTS := 3
  const STABLE_SECONDS := 10.0

  /** What `docker inspect` says of a container; `restarts` is None when it is not a number. */
  datatype Info = Info(status: string, health: string, image: string, restarts: Option<nat>)

  /** One turn of a loop: the three clock reads of the turn, and the observation, None when it failed. */
  datatype Turn = Turn(at: real, first: real, later: real, info: Option<Info>)

  /** Clock reads rise within a turn, and every turn ends in a three-second sleep. */
  ghost predicate Ticks(turns: nat -> Turn) {
    && turns(0).at > 0.0
    && forall k: nat :: turns(k).at <= turns(k).first <= turns(k).later
                        && turns(k).later + POLL_SECONDS as real <= turns(k + 1).at
  }

  predicate CrashLoops(t: Turn) {
    t.info.Some? && t.info.value.restarts.Some? && t.info.value.restarts.value >= CRASH_LOOP_RESTARTS
  }

  predicate UpOnRelease(t: Turn, want: string) {
    t.info.Some? && t.info.value.image == want && t.info.value.status == "running"
  }

  /** Running on the release without a healthcheck. */
  predicate Waiting(t: Turn, want: string) {
    UpOnRelease(t, want) && t.info.value.health == ""
  }

  /** An observed turn `j` from which every observation up to `k` was waiting; failed ones do not break a run. */
  ghost predicate Unbroken(turns: nat -> Turn, want: string, j: nat, k: nat) {
    && j <= k && turns(j).info.Some?
    && forall i: nat :: j <= i <= k && turns(i).info.Some? ==> Waiting(turns(i), want)
  }

  /** Turn `k` shows a service that counts as healthy. */
  ghost predicate Accepted(turns: nat -> Turn, want: string, k: nat) {
    && !CrashLoops(turns(k)) && UpOnRelease(turns(k), want)
    && (|| turns(k).info.value.health == "healthy"
        || exists j: nat :: Unbroken(turns, want, j, k) && turns(k).later - turns(j).first >= STABLE_SECONDS)
  }

  /** One turn's effect on the `running_since` variable. */
  function Stepped(t: Turn, want: string, before: Option<real>): Option<real> {
    if t.info.None? then before
    else if !Waiting(t, want) then None
    else if before.Some? then before else Some(t.first)
  }

  /** The variable after turns 0..n-1. */
  function Since(turns: nat -> Turn, want: string, n: nat): Option<real> {
    if n == 0 then None else Stepped(turns(n - 1), want, Since(turns, want, n - 1))
  }

  /** The variable is unset, or the start of an unbroken run. */
  ghost predicate StartsRun(turns: nat -> Turn, want: string, since: Option<real>, n: nat) {
    since.Some? ==> exists j: nat :: Unbroken(turns, want, j, n) && turns(j).first == since.value
  }

  /** No unbroken run starts earlier. */
  ghost predicate IsEarliest(turns: nat -> Turn, want: string, since: Option<real>, n: nat) {
    forall j: nat :: Unbroken(turns, want, j, n) ==> since.Some? && since.value <= turns(j).first
  }

  /** The variable holds the start of the longest unbroken run, and nothing when there is no run. */
  lemma {:induction false} SinceIsRunStart(turns: nat -> Turn, want: string, n: nat)
    requires Ticks(turns)
    ensures StartsRun(turns, want, Since(turns, want, n + 1), n)
    ensures IsEarliest(turns, want, Since(turns, want, n + 1), n)
  {
    hide StartsRun, IsEarliest, Waiting, Stepped;
    if n == 0 {
      FirstTurn(turns, want);
    } else {
      SinceIsRunStart(turns, want, n - 1);
      StartStep(turns, want, Since(turns, want, n), n);
      EarliestStep(turns, want, Since(turns, want, n), n);
    }
  }

  lemma FirstTurn(turns: nat -> Turn, want: string)
    ensures StartsRun(turns, want, Since(turns, want, 1), 0) && IsEarliest(turns, want, Since(turns, want, 1), 0)
  {
    hide Waiting;
    assert Waiting(turns(0), want) && turns(0).info.Some? ==> Unbroken(turns, want, 0, 0);
  }

  lemma StartStep(turns: nat -> Turn, want: string, before: Option<real>, n: nat)
    requires n > 0 && StartsRun(turns, want, before, n - 1)
    ensures StartsRun(turns, want, Stepped(turns(n), want, before), n)
  {
    hide Waiting;
    if Stepped(turns(n), want, before).Some? {
      if before.Some? {
        var j: nat :| Unbroken(turns, want, j, n - 1) && turns(j).first == before.value;
        assert Unbroken(turns, want, j, n);
      } else {
        assert Unbroken(turns, want, n, n);
      }
    }
  }

  lemma EarliestStep(turns: nat -> Turn, want: string, before: Option<real>, n: nat)
    requires Ticks(turns) && n > 0
    requires StartsRun(turns, want, before, n - 1) && IsEarliest(turns, want, before, n - 1)
    ensures IsEarliest(turns, want, Stepped(turns(n), want, before), n)
  {
    hide Waiting;
    var after := Stepped(turns(n), want, before);
    forall j: nat | Unbroken(turns, want, j, n) ensures after.Some? && after.value <= turns(j).first {
      if j < n {
        assert Unbroken(turns, want, j, n - 1);
      } else if before.Some? {
        var j': nat :| Unbroken(turns, want, j', n - 1) && turns(j').first == before.value;
        ClockRises(turns, j', n);
      }
    }
  }

  lemma {:induction false} ClockRises(turns: nat -> Turn, j: nat, k: nat)
    requires Ticks(turns) && j <= k
    ensures turns(j).at + (POLL_SECONDS * (k - j)) as real <= turns(k).at
    ensures turns(j).first <= turns(k).first && 0.0 < turns(k).at
  {
    if k > 0 {
      ClockRises(turns, if j < k then j else k - 1, k - 1);
    }
  }

  lemma AcceptedBySince(turns: nat -> Turn, want: string, k: nat)
    requires Ticks(turns) && UpOnRelease(turns(k), want) && !CrashLoops(turns(k))
    ensures Accepted(turns, want, k) <==>
              || turns(k).info.value.health == "healthy"
              || (Since(turns, want, k + 1).Some? && turns(k).later - Since(turns, want, k + 1).value >= STABLE_SECONDS)
  {
    SinceIsRunStart(turns, want, k);
  }

  /** What a turn does to the variable, and when it cannot be accepted. */
  lemma TurnOf(turns: nat -> Turn, want: string, n: nat)
    ensures Since(turns, want, 0) == None && Since(turns, want, n + 1) == Stepped(turns(n), want, Since(turns, want, n))
    ensures CrashLoops(turns(n)) || !UpOnRelease(turns(n), want) ==> !Accepted(turns, want, n)
  {
  }

  /**
   * Waits until a recreated service is up on the release. `last` is the turn it ended at; the clock read
   * before the first turn is `start`. True means turn `last` was accepted; false means it was a crash
   * loop, the deadline, or redis still loading. No earlier turn was accepted or looping.
   */
  method WaitServiceHealthy(service: string, want: string, budget: nat, start: real, turns: nat -> Turn, loading: nat -> Answer)
    returns (ok: bool, last: nat)
    requires Ticks(turns) && start <= turns(0).at && Answers(loading) && turns(0).at <= loading(0).at
    ensures last <= budget / 3 + 1
    ensures forall i: nat :: i < last ==> !Accepted(turns, want, i) && !CrashLoops(turns(i))
    ensures var deadline := start + budget as real;
            ok <==> turns(last).at < deadline && Accepted(turns, want, last)
                    && (service == "redis" ==> BecomesReady(loading, deadline))
    ensures !ok ==> turns(last).at >= start + budget as real || CrashLoops(turns(last)) || service == "redis"
  {
    hide Accepted, Unbroken, Since, Ticks, BecomesReady;
    var deadline := start + budget as real;
    var runningSince: Option<real> := None;
    last := 0;
    TurnOf(turns, want, 0);
    while turns(last).at < deadline
      invariant last <= budget / POLL_SECONDS + 1
      invariant runningSince == Since(turns, want, last)
      invariant forall i: nat :: i < last ==> !Accepted(turns, want, i) && !CrashLoops(turns(i))
      invariant turns(0).at + (POLL_SECONDS * last) as real <= turns(last).at
      decreases budget / POLL_SECONDS + 1 - last
    {
      var t := turns(last);
      TurnOf(turns, want, last);
      if t.info.Some? {
        if CrashLoops(t) {
          return false, last;
        }
        runningSince := if !Waiting(t, want) then None
                        else if runningSince.None? || runningSince.value == 0.0 then Some(t.first) else runningSince;
        SinceIsPositive(turns, want, last);
        if UpOnRelease(t, want) {
          AcceptedBySince(turns, want, last);
          if t.info.value.health == "healthy" || (runningSince.Some? && t.later - runningSince.value >= STABLE_SECONDS) {
            if service == "redis" {
              ok := RedisReady(deadline, loading, budget, start);
              return;
            }
            return true, last;
          }
        }
      }
      ClockRises(turns, 0, last + 1);
      last := last + 1;
    }
    return false, last;
  }

  lemma {:induction false} SinceIsPositive(turns: nat -> Turn, want: string, n: nat)
    requires Ticks(turns)
    ensures Since(turns, want, n).Some? ==> Since(turns, want, n).value > 0.0
  {
    if n > 0 {
      SinceIsPositive(turns, want, n - 1);
      ClockRises(turns, 0, n - 1);
    }
  }

  /** An observation that can end a wait well. */
  predicate Convinces(t: Turn, want: string) {
    !CrashLoops(t) && UpOnRelease(t, want) && (t.info.value.health == "healthy" || t.info.value.health == "")
  }

  lemma AcceptedConvinces(turns: nat -> Turn, want: string, k: nat)
    requires Accepted(turns, want, k)
    ensures Convinces(turns(k), want)
  {
    if turns(k).info.value.health != "healthy" {
      var j: nat :| Unbroken(turns, want, j, k);
      assert Waiting(turns(k), want);
    }
  }

  /** A run of observations without a healthcheck, from `j` to `k`, that has lasted ten seconds. */
  ghost predicate StoodTenSeconds(turns: nat -> Turn, want: string, j: nat, k: nat) {
    && j <= k && turns(j).info.Some? && turns(k).later - turns(j).first >= 10.0
    && forall i: nat :: j <= i <= k && turns(i).info.Some? ==>
         var seen := turns(i).info.value;
         seen.status == "running" && seen.image == want && seen.health == ""
  }

  /** Acceptance written out: fewer than three restarts, running on the image, and healthy or up for ten seconds. */
  lemma AcceptedIs(turns: nat -> Turn, want: string, k: nat)
    ensures Accepted(turns, want, k) <==>
              && turns(k).info.Some?
              && var seen := turns(k).info.value;
                 && (seen.restarts.None? || seen.restarts.value < 3)
                 && seen.status == "running" && seen.image == want
                 && (seen.health == "healthy" || exists j: nat :: StoodTenSeconds(turns, want, j, k))
    ensures CrashLoops(turns(k)) <==>
              turns(k).info.Some? && turns(k).info.value.restarts.Some? && turns(k).info.value.restarts.value >= 3
  {
    forall j: nat
      ensures StoodTenSeconds(turns, want, j, k) <==> Unbroken(turns, want, j, k) && turns(k).later - turns(j).first >= STABLE_SECONDS
    {
      assert forall i: nat :: Waiting(turns(i), want) <==>
        turns(i).info.Some? && turns(i).info.value.status == "running" && turns(i).info.value.image == want
        && turns(i).info.value.health == "";
    }
  }

  /** Any poll stream whose clock rises. */
  type Polling = p: PollStream |
    Ticks(p.turns) && p.start <= p.turns(0).at && Answers(p.loading) && p.turns(0).at <= p.loading(0).at
    witness PollStream(0.0, (k: nat) => Turn(Tick(k), Tick(k), Tick(k), None), (k: nat) => Answer(Tick(k), false))

  function Tick(k: nat): real {
    (POLL_SECONDS * k + 1) as real
  }

  datatype PollStream = PollStream(start: real, turns: nat -> Turn, loading: nat -> Answer)

  type Probing = p: ProbeStream | Probes(p.probes) && p.start <= p.probes(0).at
    witness ProbeStream(0.0, (k: nat) => Probe(Tick(k), None))

  datatype ProbeStream = ProbeStream(start: real, probes: nat -> Probe)

  method PollService() returns (polls: Polling) {
    polls := *;
  }

  method PollBackend() returns (polls: Probing) {
    polls := *;
  }

  // ---- redis ------------------------------------------------------------------------

  /** One DBSIZE poll: its clock read, and whether the reply was an integer. */
  datatype Answer = Answer(at: real, integer: bool)

  ghost predicate Answers(polls: nat -> Answer) {
    forall k: nat :: polls(k).at + POLL_SECONDS as real <= polls(k + 1).at
  }

  /** Some poll ahead of the deadline gets an integer reply. */
  ghost predicate BecomesReady(polls: nat -> Answer, deadline: real) {
    exists i: nat :: ReadyBy(polls, deadline, i)
  }

  predicate ReadyBy(polls: nat -> Answer, deadline: real, i: nat) {
    polls(i).at < deadline && polls(i).integer
  }

  lemma {:induction false} PollsRise(polls: nat -> Answer, j: nat, k: nat)
    requires Answers(polls) && j <= k
    ensures polls(j).at + (POLL_SECONDS * (k - j)) as real <= polls(k).at
  {
    if j < k {
      PollsRise(polls, j, k - 1);
    }
  }

  method RedisReady(deadline: real, polls: nat -> Answer, budget: nat, start: real) returns (ok: bool)
    requires Answers(polls) && start <= polls(0).at && deadline == start + budget as real
    ensures ok <==> BecomesReady(polls, deadline)
    ensures ok <==> exists i: nat :: polls(i).at < deadline && polls(i).integer
  {
    var k: nat := 0;
    while polls(k).at < deadline
      invariant k <= budget / POLL_SECONDS + 1
      invariant forall i: nat :: i < k ==> !ReadyBy(polls, deadline, i)
      invariant polls(0).at + (POLL_SECONDS * k) as real <= polls(k).at
      decreases budget / POLL_SECONDS + 1 - k
    {
      if polls(k).integer {
        assert ReadyBy(polls, deadline, k);
        assert polls(k).at < deadline && polls(k).integer;
        return true;
      }
      PollsRise(polls, 0, k + 1);
      k := k + 1;
    }
    forall i: nat ensures !ReadyBy(polls, deadline, i) && !(polls(i).at < deadline && polls(i).integer) {
      if i >= k {
        PollsRise(polls, k, i);
      }
    }
    return false;
  }

  // ---- the backend ------------------------------------------------------------------

  /** One health probe: its clock read, and the version field of a parsed reply, None when the probe failed. */
  datatype Probe = Probe(at: real, reply: Option<Option<string>>)

  ghost predicate Probes(probes: nat -> Probe) {
    forall k: nat :: probes(k).at + POLL_SECONDS as real <= probes(k + 1).at
  }

  /** Whether a reported version, possibly missing, is the expected one. */
  predicate Matches(expected: Option<string>, notTag: Option<string>, running: Option<string>) {
    running == expected || (expected.None? && running.Some? && running.value != "" && running != notTag)
  }

  /** A known version is matched by itself alone. */
  lemma KnownVersionAccepts(expected: string, notTag: Option<string>, running: Option<string>)
    ensures Matches(Some(expected), notTag, running) <==> running == Some(expected)
  {
  }

  /** With no expected version, a reply without a version is accepted too. */
  lemma UnknownVersionAccepts(notTag: string, running: Option<string>)
    ensures Matches(None, Some(notTag), running) <==> running.None? || (running.value != "" && running.value != notTag)
  {
  }

  predicate Healthy(probe: Probe, expected: Option<string>, notTag: Option<string>) {
    probe.reply.Some? && Matches(expected, notTag, probe.reply.value)
  }

  lemma {:induction false} ProbesRise(probes: nat -> Probe, j: nat, k: nat)
    requires Probes(probes) && j <= k
    ensures probes(j).at + (POLL_SECONDS * (k - j)) as real <= probes(k).at
  {
    if j < k {
      ProbesRise(probes, j, k - 1);
    }
  }

  /** True exactly when some probe ahead of the deadline is healthy; `last` is that probe. */
  method WaitForBackendHealth(expected: Option<string>, notTag: Option<string>, timeout: nat, start: real, probes: nat -> Probe)
    returns (ok: bool, last: nat)
    requires Probes(probes) && start <= probes(0).at
    ensures last <= timeout / 3 + 1
    ensures ok ==> probes(last).at < start + timeout as real && Healthy(probes(last), expected, notTag)
    ensures !ok ==> forall i: nat :: probes(i).at < start + timeout as real ==> !Healthy(probes(i), expected, notTag)
  {
    var deadline := start + timeout as real;
    last := 0;
    while probes(last).at < deadline
      invariant last <= timeout / POLL_SECONDS + 1
      invariant forall i: nat :: i < last ==> !Healthy(probes(i), expected, notTag)
      invariant probes(0).at + (POLL_SECONDS * last) as real <= probes(last).at
      decreases timeout / POLL_SECONDS + 1 - last
    {
      if Healthy(probes(last), expected, notTag) {
        return true, last;
      }
      ProbesRise(probes, 0, last + 1);
      last := last + 1;
    }
    forall i: nat | probes(i).at < deadline ensures !Healthy(probes(i), expected, notTag) {
      if i >= last {
        ProbesRise(probes, last, i);
      }
    }
    return false, last;
  }
}
