/** The host checkout: which files carry local changes, and when a fast-forward leaves them alone. */
module Checkout {
  import opened Text

  // ---- git status, NUL-separated ----------------------------------------------------

  const NUL := '\0'

  /** One entry of `git status --porcelain=v1 -z`: two status letters, a path, and the source of a rename or copy. */
  datatype StatusEntry = StatusEntry(x: char, y: char, path: string, source: Option<string>)

  predicate HasSource(x: char, y: char) {
    x == 'R' || y == 'R' || x == 'C' || y == 'C'
  }

  predicate ValidEntry(e: StatusEntry) {
    && e.x != NUL && e.y != NUL
    && e.path != "" && NUL !in e.path
    && (e.source.Some? <==> HasSource(e.x, e.y))
    && (e.source.Some? ==> e.source.value != "" && NUL !in e.source.value)
  }

  /** The fields git prints for an entry, each closed by a NUL. */
  function Tokens(e: StatusEntry): seq<string> {
    [[e.x, e.y, ' '] + e.path] + if e.source.Some? then [e.source.value] else []
  }

  function AllTokens(entries: seq<StatusEntry>): seq<string> {
    if entries == [] then [] else Tokens(entries[0]) + AllTokens(entries[1..])
  }

  function Printed(entries: seq<StatusEntry>): string {
    Join(AllTokens(entries) + [""], NUL)
  }

  /** Destination and source paths of the entries. */
  function PathsOf(entries: seq<StatusEntry>): set<string> {
    if entries == [] then {}
    else
      {entries[0].path} + (if entries[0].source.Some? then {entries[0].source.value} else {}) + PathsOf(entries[1..])
  }

  /** What the decoder collects from a token list. */
  function Decoded(tokens: seq<string>): set<string>
    decreases |tokens|
  {
    if tokens == [] then {}
    else if |tokens[0]| < 4 then Decoded(tokens[1..])
    else if HasSource(tokens[0][0], tokens[0][1]) then
      if |tokens| == 1 then {tokens[0][3..]}
      else {tokens[0][3..]} + (if tokens[1] != "" then {tokens[1]} else {}) + Decoded(tokens[2..])
    else {tokens[0][3..]} + Decoded(tokens[1..])
  }

  lemma {:induction false} DecodedPrinted(entries: seq<StatusEntry>)
    requires forall e :: e in entries ==> ValidEntry(e)
    ensures Decoded(AllTokens(entries) + [""]) == PathsOf(entries)
    ensures forall t :: t in AllTokens(entries) ==> NUL !in t
  {
    if entries == [] {
      assert AllTokens(entries) + [""] == [""];
    } else {
      var e := entries[0];
      assert ValidEntry(e);
      DecodedPrinted(entries[1..]);
      var rest := AllTokens(entries[1..]) + [""];
      var all := AllTokens(entries) + [""];
      var head := [e.x, e.y, ' '] + e.path;
      assert all == Tokens(e) + rest;
      assert all[0] == head && head[3..] == e.path && |head| >= 4;
      if e.source.Some? {
        assert all[1] == e.source.value && all[2..] == rest;
      } else {
        assert all[1..] == rest;
      }
    }
  }

  lemma {:induction false} PathsAre(entries: seq<StatusEntry>)
    ensures forall p :: p in PathsOf(entries) <==> exists e :: e in entries && (e.path == p || e.source == Some(p))
  {
    if entries != [] {
      PathsAre(entries[1..]);
      assert forall e :: e in entries <==> e == entries[0] || e in entries[1..];
    }
  }

  /** What git prints: per entry two letters, a space, the path and a NUL, and the source of a rename or copy with its own NUL. */
  lemma PrintedIs(e: StatusEntry, rest: seq<StatusEntry>)
    ensures Printed([]) == ""
    ensures Printed([e] + rest) ==
              [e.x, e.y, ' '] + e.path + "\0" + (if e.source.Some? then e.source.value + "\0" else "") + Printed(rest)
  {
    var all := AllTokens([e] + rest) + [""];
    var tail := AllTokens(rest) + [""];
    assert ([e] + rest)[1..] == rest;
    var head := [e.x, e.y, ' '] + e.path;
    if e.source.Some? {
      assert all == [head] + ([e.source.value] + tail);
      JoinCons(e.source.value, tail);
      JoinCons(head, [e.source.value] + tail);
      assert head + "\0" + (e.source.value + "\0" + Printed(rest)) == head + "\0" + (e.source.value + "\0") + Printed(rest);
    } else {
      assert all == [head] + tail;
      JoinCons(head, tail);
      assert head + "\0" + Printed(rest) == head + "\0" + "" + Printed(rest);
    }
  }

  lemma JoinCons(part: string, parts: seq<string>)
    requires parts != []
    ensures Join([part] + parts, NUL) == part + "\0" + Join(parts, NUL)
  {
    assert ([part] + parts)[1..] == parts;
  }

  /** Which entries git prints: the second path is there exactly for a rename or a copy. */
  lemma ValidIs(e: StatusEntry)
    ensures ValidEntry(e) <==>
              && e.x != '\0' && e.y != '\0' && e.path != "" && '\0' !in e.path
              && (e.source.Some? <==> e.x == 'R' || e.x == 'C' || e.y == 'R' || e.y == 'C')
              && (e.source.Some? ==> e.source.value != "" && '\0' !in e.source.value)
  {
  }

  /** For every list of entries, renames and copies included, the decoder finds exactly their paths. */
  lemma StatusRoundTrip(entries: seq<StatusEntry>)
    requires forall e :: e in entries ==> ValidEntry(e)
    ensures Decoded(Split(Printed(entries), NUL)) == PathsOf(entries)
    ensures forall p :: p in Decoded(Split(Printed(entries), NUL)) <==>
                          exists e :: e in entries && (e.path == p || e.source == Some(p))
  {
    DecodedPrinted(entries);
    PathsAre(entries);
    var tokens := AllTokens(entries) + [""];
    assert forall t :: t in tokens ==> t in AllTokens(entries) || t == "";
    SplitJoin(tokens, NUL);
  }

  /** The decoder itself; None when git failed. */
  method DirtyPaths(output: Option<string>) returns (paths: Option<set<string>>)
    ensures paths == if output.None? then None else Some(Decoded(Split(output.value, NUL)))
  {
    if output.None? {
      return None;
    }
    var tokens := Split(output.value, NUL);
    var found: set<string> := {};
    var i := 0;
    assert tokens[0..] == tokens;
    while i < |tokens|
      invariant 0 <= i
      invariant Decoded(tokens) == found + if i < |tokens| then Decoded(tokens[i..]) else {}
      decreases |tokens| - i
    {
      var entry := tokens[i];
      ghost var rest := tokens[i..];
      assert rest[1..] == tokens[i + 1..];
      assert |rest| > 1 ==> rest[1] == tokens[i + 1] && rest[2..] == tokens[i + 2..];
      i := i + 1;
      if |entry| < 4 {
        continue;
      }
      found := found + {entry[3..]};
      if HasSource(entry[0], entry[1]) {
        if i < |tokens| && tokens[i] != "" {
          found := found + {tokens[i]};
        }
        i := i + 1;
      }
    }
    return Some(found);
  }

  // ---- trees and fast-forwards ------------------------------------------------------

  type Content = string
  /** The files of a commit. */
  type Tree = map<string, Content>

  /** The files on disk, the paths in the index, and the paths git ignores. */
  datatype WorkTree = WorkTree(files: Tree, index: set<string>, ignored: set<string>)

  function At(t: Tree, path: string): Option<Content> {
    if path in t then Some(t[path]) else None
  }

  /** Paths that differ between two commits. */
  function Diff(a: Tree, b: Tree): set<string> {
    set p | p in a.Keys + b.Keys && At(a, p) != At(b, p)
  }

  predicate Tracked(w: WorkTree, head: Tree, p: string) {
    p in head || p in w.index
  }

  /** What `git status` without untracked files reports. */
  predicate LocalChange(w: WorkTree, head: Tree, p: string) {
    Tracked(w, head, p) && At(w.files, p) != At(head, p)
  }

  predicate Untracked(w: WorkTree, head: Tree, p: string) {
    !Tracked(w, head, p) && p in w.files
  }

  /**
   * A file the merge would have to overwrite though it is neither the old commit's nor the new one's. Only an
   * ignored untracked file may be overwritten, and a tracked file that is merely missing is written again.
   */
  predicate InTheWay(w: WorkTree, head: Tree, release: Tree, p: string) {
    && p in w.files && At(w.files, p) != At(head, p) && At(w.files, p) != At(release, p)
    && (Untracked(w, head, p) ==> p !in w.ignored)
  }

  /** `git merge --ff-only`: refused when a file is in the way, else every path that differs takes the new content. */
  function FastForward(w: WorkTree, head: Tree, release: Tree): Option<Tree> {
    var touched := Diff(head, release);
    if exists p :: p in touched && InTheWay(w, head, release, p) then None
    else Some(map p | p in (w.files.Keys - touched) + (touched * release.Keys) :: if p in touched then release[p] else w.files[p])
  }

  /**
   * A fast-forward that touches no local change is refused only for an untracked file of the release's own name,
   * and never for a tracked one. When it goes through, every local change and every file git does not track and
   * does not ignore is as it was, and every other tracked path is the release's.
   */
  lemma FastForwardKeepsLocalChanges(w: WorkTree, head: Tree, release: Tree)
    requires forall p :: p in Diff(head, release) ==> !LocalChange(w, head, p)
    ensures FastForward(w, head, release).None? <==>
              exists p :: p in Diff(head, release) && Untracked(w, head, p) && InTheWay(w, head, release, p)
    ensures FastForward(w, head, release).Some? ==>
              var after := FastForward(w, head, release).value;
              forall p ::
                && (LocalChange(w, head, p) ==> At(after, p) == At(w.files, p))
                && (Untracked(w, head, p) && p !in w.ignored ==> At(after, p) == At(w.files, p))
                && (p !in Diff(head, release) ==> At(after, p) == At(w.files, p))
                && (Tracked(w, head, p) && !LocalChange(w, head, p) ==> At(after, p) == At(release, p))
  {
    var touched := Diff(head, release);
    forall p | p in touched && InTheWay(w, head, release, p) ensures Untracked(w, head, p) {
      assert !LocalChange(w, head, p);
    }
    if FastForward(w, head, release).Some? {
      var after := FastForward(w, head, release).value;
      forall p
        ensures LocalChange(w, head, p) ==> At(after, p) == At(w.files, p)
        ensures Untracked(w, head, p) && p !in w.ignored ==> At(after, p) == At(w.files, p)
        ensures p !in touched ==> At(after, p) == At(w.files, p)
        ensures Tracked(w, head, p) && !LocalChange(w, head, p) ==> At(after, p) == At(release, p)
      {
        TouchedOrKept(w, head, release, p);
      }
    }
  }

  /** One path of a fast-forward that goes through. */
  lemma TouchedOrKept(w: WorkTree, head: Tree, release: Tree, p: string)
    requires FastForward(w, head, release).Some?
    ensures var after := FastForward(w, head, release).value;
            && At(after, p) == (if p in Diff(head, release) then At(release, p) else At(w.files, p))
            && (p in Diff(head, release) ==> !InTheWay(w, head, release, p))
            && (p in Diff(head, release) <==> At(head, p) != At(release, p))
  {
  }

  /** A modified file that the release touches makes git refuse; the plan skips it before that. */
  lemma TouchedChangeIsRefused(w: WorkTree, head: Tree, release: Tree, p: string)
    requires p in Diff(head, release) && LocalChange(w, head, p)
    requires p in w.files && At(w.files, p) != At(release, p)
    ensures FastForward(w, head, release).None?
  {
    assert InTheWay(w, head, release, p);
  }

  /**
   * The fast-forward the plan allows, from what git reports: `entries` name every tracked path with a local
   * change, and `changed` is the difference of the two commits.
   */
  lemma AllowedFastForwardIsSafe(w: WorkTree, head: Tree, release: Tree, entries: seq<StatusEntry>, changed: set<string>)
    requires forall e :: e in entries ==> ValidEntry(e)
    requires forall p :: LocalChange(w, head, p) ==> p in PathsOf(entries)
    requires changed == Diff(head, release) && changed !! Decoded(Split(Printed(entries), NUL))
    ensures FastForward(w, head, release).None? <==>
              exists p :: p in changed && Untracked(w, head, p) && InTheWay(w, head, release, p)
    ensures FastForward(w, head, release).Some? ==>
              var after := FastForward(w, head, release).value;
              forall p ::
                && (LocalChange(w, head, p) ==> At(after, p) == At(w.files, p))
                && (Untracked(w, head, p) && p !in w.ignored ==> At(after, p) == At(w.files, p))
                && (p !in changed ==> At(after, p) == At(w.files, p))
                && (Tracked(w, head, p) && !LocalChange(w, head, p) ==> At(after, p) == At(release, p))
  {
    StatusRoundTrip(entries);
    assert forall p :: p in changed ==> !LocalChange(w, head, p);
    FastForwardKeepsLocalChanges(w, head, release);
  }

  // ---- the plan ---------------------------------------------------------------------

  /** Infra services in the order an update brings them to the release. */
  const INFRA_SYNC_ORDER := ["db", "redis", "clamav", "tusd"]
  const DATA_SERVICES := {"db", "redis"}

  /** What the executor decided: the services to recreate with their images, and a commit to move to. */
  datatype InfraPlan = InfraPlan(services: seq<string>, images: map<string, string>, ffCommit: Option<string>, skipped: bool)

  const SKIP := InfraPlan([], map[], None, true)

  /** The answers of git and docker that the plan is made from. */
  datatype Survey = Survey(
    usable: bool,            // infra sync is on, no override file, a full clone at the release's own commit
    head: string,
    tagCommit: string,
    headIsAncestor: bool,    // git merge-base --is-ancestor HEAD tag
    tagIsAncestor: bool,     // git merge-base --is-ancestor tag HEAD
    changed: Option<set<string>>,
    status: Option<string>,
    blocked: bool,           // some file is not writable by the owner
    newConfigReads: bool,    // the release's compose file resolves against this host
    infraDiffers: bool,      // an ahead checkout carries infra changes of its own
    drift: string -> bool,   // the service differs from the release, judged before bind-mounted files
    mounts: string -> set<string>,
    present: string -> bool, // the service is defined and has a container
    image: string -> string)

  /** The relation of the checkout to the release; git answers one of these four. */
  datatype Position = AtRelease | Behind | Ahead | Diverged

  function PositionOf(s: Survey): Position {
    if s.head == s.tagCommit then AtRelease
    else if s.headIsAncestor then Behind
    else if s.tagIsAncestor then Ahead
    else Diverged
  }

  predicate Changes(s: Survey, touched: set<string>, svc: string) {
    s.present(svc) && (s.drift(svc) || s.mounts(svc) * touched != {})
  }

  /** Every reason to leave the infra services alone. */
  predicate Skips(s: Survey) {
    || !s.usable
    || (PositionOf(s) == Behind &&
        (s.changed.None? || s.status.None? || s.blocked
         || s.changed.value * Decoded(Split(s.status.value, NUL)) != {}
         || ("docker-compose.yml" in s.changed.value && !s.newConfigReads)))
    || (PositionOf(s) == Ahead && s.infraDiffers)
    || PositionOf(s) == Diverged
  }

  /** The plan a survey leads to. */
  ghost predicate PlanIs(s: Survey, plan: InfraPlan) {
    if Skips(s) then plan == SKIP
    else
      var touched := if PositionOf(s) == Behind then s.changed.value else {};
      && !plan.skipped
      && plan.ffCommit == (if PositionOf(s) == Behind then Some(s.tagCommit) else None)
      && (forall svc :: svc in plan.services <==> svc in INFRA_SYNC_ORDER && Changes(s, touched, svc))
      && plan.images == map svc | svc in plan.services :: s.image(svc)
  }

  method PlanInfra(s: Survey) returns (plan: InfraPlan)
    ensures PlanIs(s, plan) && InSyncOrder(plan.services)
    ensures plan.ffCommit.Some? ==>
              s.changed.Some? && s.status.Some? && s.changed.value !! Decoded(Split(s.status.value, NUL))
    ensures plan.skipped ==> plan.services == [] && plan.images == map[] && plan.ffCommit == None
    ensures plan.skipped <==>
              || !s.usable
              || (s.head != s.tagCommit && s.headIsAncestor &&
                  (s.changed.None? || s.status.None? || s.blocked
                   || (exists p :: p in s.changed.value && p in Decoded(Split(s.status.value, '\0')))
                   || ("docker-compose.yml" in s.changed.value && !s.newConfigReads)))
              || (s.head != s.tagCommit && !s.headIsAncestor && s.tagIsAncestor && s.infraDiffers)
              || (s.head != s.tagCommit && !s.headIsAncestor && !s.tagIsAncestor)
    ensures !plan.skipped ==>
              && plan.ffCommit == (if s.head != s.tagCommit && s.headIsAncestor then Some(s.tagCommit) else None)
              && (plan.ffCommit.Some? ==> s.changed.Some?)
              && (forall svc :: svc in plan.services <==>
                    && svc in ["db", "redis", "clamav", "tusd"] && s.present(svc)
                    && (s.drift(svc) || (plan.ffCommit.Some? && s.mounts(svc) * s.changed.value != {})))
              && plan.images == map svc | svc in plan.services :: s.image(svc)
  {
    if !s.usable {
      return SKIP;
    }
    var touched: set<string> := {};
    var ffCommit := None;
    if s.head == s.tagCommit {
    } else if s.headIsAncestor {
      var dirty := DirtyPaths(s.status);
      if s.changed.None? || dirty.None? {
        return SKIP;
      }
      touched := s.changed.value;
      if touched * dirty.value != {} || s.blocked {
        return SKIP;
      }
      assert forall p :: p in touched && p in dirty.value ==> p in touched * dirty.value;
      if "docker-compose.yml" in touched && !s.newConfigReads {
        return SKIP;
      }
      ffCommit := Some(s.tagCommit);
    } else if s.tagIsAncestor {
      if s.infraDiffers {
        return SKIP;
      }
    } else {
      return SKIP;
    }
    var services: seq<string> := [];
    for i := 0 to |INFRA_SYNC_ORDER|
      invariant services == Planned(s, touched, i)
    {
      var svc := INFRA_SYNC_ORDER[i];
      if s.present(svc) && (s.drift(svc) || s.mounts(svc) * touched != {}) {
        services := services + [svc];
      }
    }
    PlannedIs(s, touched, |INFRA_SYNC_ORDER|);
    plan := InfraPlan(services, map svc | svc in services :: s.image(svc), ffCommit, false);
  }

  function Planned(s: Survey, touched: set<string>, n: nat): seq<string>
    requires n <= |INFRA_SYNC_ORDER|
  {
    if n == 0 then []
    else Planned(s, touched, n - 1) + if Changes(s, touched, INFRA_SYNC_ORDER[n - 1]) then [INFRA_SYNC_ORDER[n - 1]] else []
  }

  /** Each service at most once, db before redis before clamav before tusd. */
  predicate InSyncOrder(services: seq<string>) {
    forall i, j :: 0 <= i < j < |services| ==> Rank(services[i]) < Rank(services[j])
  }

  function Rank(svc: string): nat {
    if svc == "db" then 0 else if svc == "redis" then 1 else if svc == "clamav" then 2 else if svc == "tusd" then 3 else 4
  }

  lemma {:induction false} PlannedIs(s: Survey, touched: set<string>, n: nat)
    requires n <= |INFRA_SYNC_ORDER|
    ensures forall svc :: svc in Planned(s, touched, n) <==> svc in INFRA_SYNC_ORDER[..n] && Changes(s, touched, svc)
    ensures InSyncOrder(Planned(s, touched, n))
    ensures forall svc :: svc in Planned(s, touched, n) ==> Rank(svc) < n
  {
    if n > 0 {
      PlannedIs(s, touched, n - 1);
      assert INFRA_SYNC_ORDER[..n] == INFRA_SYNC_ORDER[..n - 1] + [INFRA_SYNC_ORDER[n - 1]];
      assert Rank(INFRA_SYNC_ORDER[n - 1]) == n - 1;
    }
  }
}
