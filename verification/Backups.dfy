/** Retention of the pre-update backups. */
module Backups {
  import opened Text

  /** A backup directory: its name, and the second its name was stamped with, None when that does not parse. */
  datatype Entry = Entry(name: string, stamp: Option<int>)

  /** Limits in force at clock `now`, the age in the clock's unit; 0 means no limit. `stuck` are the directories that cannot be removed. */
  datatype Policy = Policy(keep: nat, maxAge: nat, protect: Option<string>, now: int, stuck: set<string>)

  predicate TooMany(p: Policy, index: nat) {
    p.keep > 0 && index >= p.keep
  }

  predicate TooOld(p: Policy, e: Entry) {
    e.stamp.Some? && p.maxAge > 0 && p.now - e.stamp.value > p.maxAge
  }

  /** Whether retention wants the entry at `index` of the listing, newest first, gone. */
  predicate Doomed(p: Policy, e: Entry, index: nat) {
    && index > 0 && p.protect != Some(e.name) && e.stamp.Some?
    && (TooMany(p, index) || TooOld(p, e))
  }

  predicate Removed(p: Policy, e: Entry, index: nat) {
    Doomed(p, e, index) && e.name !in p.stuck
  }

  /** What is left of a listing whose first element stands at `index`. */
  function Survivors(p: Policy, listing: seq<Entry>, index: nat): seq<Entry> {
    if listing == [] then []
    else
      var rest := Survivors(p, listing[1..], index + 1);
      if Removed(p, listing[0], index) then rest else [listing[0]] + rest
  }

  /** Python's string order. */
  predicate NameLess(a: string, b: string) {
    b != "" && (a == "" || a[0] < b[0] || (a[0] == b[0] && NameLess(a[1..], b[1..])))
  }

  /** A directory listing sorted by name, newest first. */
  predicate NewestFirst(listing: seq<Entry>) {
    forall i, j :: 0 <= i < j < |listing| ==> NameLess(listing[j].name, listing[i].name)
  }

  lemma {:induction false} NameLessIrreflexive(a: string)
    ensures !NameLess(a, a)
  {
    if a != "" {
      NameLessIrreflexive(a[1..]);
    }
  }

  function Names(listing: seq<Entry>): set<string> {
    set e | e in listing :: e.name
  }

  lemma {:induction false} SurvivorsWithin(p: Policy, listing: seq<Entry>, index: nat)
    ensures forall e :: e in Survivors(p, listing, index) ==> e in listing
    ensures NewestFirst(listing) ==> NewestFirst(Survivors(p, listing, index))
  {
    if listing != [] {
      SurvivorsWithin(p, listing[1..], index + 1);
      var rest := Survivors(p, listing[1..], index + 1);
      if NewestFirst(listing) {
        assert forall i, j :: 0 <= i < j < |listing[1..]| ==>
          listing[1..][i] == listing[i + 1] && listing[1..][j] == listing[j + 1];
        forall j | 0 <= j < |rest| ensures NameLess(rest[j].name, listing[0].name) {
          assert rest[j] in listing[1..];
          var k :| 0 <= k < |listing[1..]| && listing[1..][k] == rest[j];
          assert listing[k + 1] == rest[j];
        }
      }
    }
  }

  /** An entry is left exactly when it is the newest, the protected one, unparsable, inside both limits, or cannot be removed. */
  lemma {:induction false} SurvivesIff(p: Policy, listing: seq<Entry>, index: nat, i: nat)
    requires NewestFirst(listing) && i < |listing|
    ensures listing[i] in Survivors(p, listing, index) <==>
              || index + i == 0 || p.protect == Some(listing[i].name) || listing[i].stamp.None?
              || listing[i].name in p.stuck
              || ((p.keep == 0 || index + i < p.keep) && (p.maxAge == 0 || p.now - listing[i].stamp.value <= p.maxAge))
  {
    var rest := listing[1..];
    SurvivorsWithin(p, rest, index + 1);
    assert forall k, j :: 0 <= k < j < |rest| ==> rest[k] == listing[k + 1] && rest[j] == listing[j + 1];
    if i == 0 {
      assert listing[0] !in rest by {
        if listing[0] in rest {
          var k :| 0 <= k < |rest| && rest[k] == listing[0];
          assert NameLess(listing[k + 1].name, listing[0].name);
          NameLessIrreflexive(listing[0].name);
        }
      }
    } else {
      SurvivesIff(p, rest, index + 1, i - 1);
      assert listing[i] != listing[0] by {
        assert NameLess(listing[i].name, listing[0].name);
        NameLessIrreflexive(listing[0].name);
      }
    }
  }

  /** Pruning what was pruned changes nothing, though every entry may have moved to a smaller index. */
  lemma {:induction false} PruneTwice(p: Policy, listing: seq<Entry>, index: nat, again: nat)
    requires again <= index
    ensures Survivors(p, Survivors(p, listing, index), again) == Survivors(p, listing, index)
  {
    if listing != [] {
      if Removed(p, listing[0], index) {
        PruneTwice(p, listing[1..], index + 1, again);
      } else {
        PruneTwice(p, listing[1..], index + 1, again + 1);
      }
    }
  }

  function Parseable(listing: seq<Entry>): nat {
    if listing == [] then 0 else (if listing[0].stamp.Some? then 1 else 0) + Parseable(listing[1..])
  }

  predicate HoldsProtected(p: Policy, listing: seq<Entry>) {
    exists e :: e in listing && p.protect == Some(e.name)
  }

  /** With a count limit and nothing stuck, at most `keep` parseable entries are left, and the protected one beside them. */
  lemma {:induction false} PruneBounds(p: Policy, listing: seq<Entry>, index: nat)
    requires p.keep > 0 && p.stuck == {} && NewestFirst(listing)
    ensures Parseable(Survivors(p, listing, index))
         <= (if index < p.keep then p.keep - index else 0) + (if HoldsProtected(p, listing) then 1 else 0)
  {
    if listing != [] {
      var rest := listing[1..];
      assert forall k, j :: 0 <= k < j < |rest| ==> rest[k] == listing[k + 1] && rest[j] == listing[j + 1];
      PruneBounds(p, rest, index + 1);
      assert HoldsProtected(p, rest) ==> HoldsProtected(p, listing);
      if p.protect == Some(listing[0].name) {
        assert listing[0] in listing;
        assert !HoldsProtected(p, rest) by {
          if HoldsProtected(p, rest) {
            var k :| 0 <= k < |rest| && p.protect == Some(rest[k].name);
            assert NameLess(listing[k + 1].name, listing[0].name);
            NameLessIrreflexive(listing[0].name);
          }
        }
      }
    }
  }

  /** The order is decided at the first difference, and a beginning comes ahead of what it begins. */
  lemma {:induction false} NameLessIs(same: string, x: char, y: char, s: string, t: string)
    requires x < y
    ensures NameLess(same + [x] + s, same + [y] + t) && !NameLess(same + [y] + t, same + [x] + s)
    ensures NameLess(same, same + [x] + s) && !NameLess(same + [x] + s, same)
  {
    var a, b := same + [x] + s, same + [y] + t;
    if same != "" {
      NameLessIs(same[1..], x, y, s, t);
      assert a[1..] == same[1..] + [x] + s && b[1..] == same[1..] + [y] + t;
    }
  }

  lemma {:induction false} NameLessTotal(a: string, b: string)
    requires a != b
    ensures NameLess(a, b) || NameLess(b, a)
  {
    if a != "" && b != "" && a[0] == b[0] {
      assert a == [a[0]] + a[1..] && b == [b[0]] + b[1..];
      NameLessTotal(a[1..], b[1..]);
    }
  }

  lemma {:induction false} NameLessTransitive(a: string, b: string, c: string)
    requires NameLess(a, b) && NameLess(b, c)
    ensures NameLess(a, c)
  {
    if a != "" && a[0] == b[0] == c[0] {
      NameLessTransitive(a[1..], b[1..], c[1..]);
    }
  }

  /** The listing with one more entry in its place. */
  function Inserted(listing: seq<Entry>, e: Entry): seq<Entry> {
    if listing == [] || NameLess(listing[0].name, e.name) then [e] + listing
    else [listing[0]] + Inserted(listing[1..], e)
  }

  lemma {:induction false} InsertedIsSorted(listing: seq<Entry>, e: Entry)
    requires NewestFirst(listing) && e.name !in Names(listing)
    ensures NewestFirst(Inserted(listing, e))
    ensures Names(Inserted(listing, e)) == Names(listing) + {e.name}
    ensures forall x :: x in Inserted(listing, e) <==> x == e || x in listing
  {
    if listing == [] {
      NamesOfCons(e, []);
    } else {
      var first, rest := listing[0], listing[1..];
      assert listing == [first] + rest;
      NamesOfCons(first, rest);
      HeadIsNewest(listing);
      if NameLess(first.name, e.name) {
        NamesOfCons(e, listing);
        forall n | n in Names(rest) ensures NameLess(n, e.name) {
          NameLessTransitive(n, first.name, e.name);
        }
        PrependIsSorted(e, listing);
      } else {
        InsertedIsSorted(rest, e);
        NamesOfCons(first, Inserted(rest, e));
        NameLessTotal(first.name, e.name);
        PrependIsSorted(first, Inserted(rest, e));
      }
    }
  }

  lemma PrependIsSorted(first: Entry, rest: seq<Entry>)
    requires NewestFirst(rest) && forall n :: n in Names(rest) ==> NameLess(n, first.name)
    ensures NewestFirst([first] + rest)
  {
    forall j | 0 <= j < |rest| ensures NameLess(rest[j].name, first.name) {
      assert rest[j] in rest;
    }
  }

  lemma HeadIsNewest(listing: seq<Entry>)
    requires NewestFirst(listing) && listing != []
    ensures NewestFirst(listing[1..])
    ensures forall n :: n in Names(listing[1..]) ==> NameLess(n, listing[0].name)
  {
    var rest := listing[1..];
    assert forall i, j :: 0 <= i < j < |rest| ==> rest[i] == listing[i + 1] && rest[j] == listing[j + 1];
    forall n | n in Names(rest) ensures NameLess(n, listing[0].name) {
      var j :| 0 <= j < |rest| && rest[j].name == n;
      assert NameLess(listing[j + 1].name, listing[0].name);
    }
  }

  /** The backup just taken is still there after the prune that follows it. */
  lemma ProtectedSurvives(p: Policy, listing: seq<Entry>, name: string)
    requires NewestFirst(listing) && name in Names(listing) && p.protect == Some(name)
    ensures name in Names(Survivors(p, listing, 0))
  {
    var i :| 0 <= i < |listing| && listing[i].name == name;
    SurvivesIff(p, listing, 0, i);
  }

  /** The names that count as backups. */
  function Listed(names: set<string>, listed: string -> bool): set<string> {
    set n | n in names && listed(n)
  }

  /**
   * The backup directory. `listed` is what makes an entry a backup: a directory and no link, a name of the expected
   * shape, and a manifest inside.
   */
  class BackupRoot {
    var names: set<string>
    const listed: string -> bool

    constructor (names: set<string>, listed: string -> bool)
      ensures this.names == names && this.listed == listed
    {
      this.names, this.listed := names, listed;
    }

    /** The backups there are, newest name first; `stampOf` parses the start of a name. */
    method List(stampOf: string -> Option<int>) returns (entries: seq<Entry>)
      ensures NewestFirst(entries) && Names(entries) == (set n | n in names && listed(n))
      ensures forall e :: e in entries ==> e.stamp == stampOf(e.name)
    {
      entries := [];
      var left := names;
      while left != {}
        invariant NewestFirst(entries) && left <= names && Names(entries) == Listed(names - left, listed)
        invariant forall e :: e in entries ==> e.stamp == stampOf(e.name)
      {
        var name :| name in left;
        if listed(name) {
          InsertedIsSorted(entries, Entry(name, stampOf(name)));
          entries := Inserted(entries, Entry(name, stampOf(name)));
        }
        left := left - {name};
      }
    }

    /** `entries` is the sorted listing; a directory that cannot be removed stays without an error. */
    method Prune(entries: seq<Entry>, p: Policy)
      requires NewestFirst(entries) && Names(entries) <= names
      modifies this
      ensures names == old(names) - Names(entries) + Names(Survivors(p, entries, 0))
    {
      ghost var others := names - Names(entries);
      ghost var kept: set<string> := {};
      assert names - others == Names(entries);
      PruneStarts(p, entries);
      for index := 0 to |entries|
        invariant others <= names && others !! Names(entries)
        invariant Midway(p, entries, index, names - others, kept)
      {
        PruneStep(p, entries, index, names - others, kept);
        var e := entries[index];
        assert e.name in Names(entries);
        assert names - {e.name} - others == names - others - {e.name};
        if index != 0 && p.protect != Some(e.name) && e.stamp.Some? {
          var tooMany := p.keep > 0 && index >= p.keep;
          var tooOld := p.maxAge > 0 && p.now - e.stamp.value > p.maxAge;
          if tooMany || tooOld {
            Rmtree(e.name, p);
          }
        }
        kept := if Removed(p, e, index) then kept else kept + {e.name};
      }
      PruneEnds(p, entries, names - others, kept);
    }

    /** A removal that ignores its errors. */
    method Rmtree(name: string, p: Policy)
      modifies this
      ensures names == if name in p.stuck then old(names) else old(names) - {name}
    {
      if name !in p.stuck {
        names := names - {name};
      }
    }
  }

  lemma NamesOfCons(e: Entry, rest: seq<Entry>)
    ensures Names([e] + rest) == {e.name} + Names(rest)
  {
    assert forall x :: x in [e] + rest <==> x == e || x in rest;
  }

  lemma NameIsUnique(entries: seq<Entry>, index: nat)
    requires NewestFirst(entries) && index < |entries|
    ensures entries[index].name !in Names(entries[..index]) && entries[index].name !in Names(entries[index + 1..])
  {
    NameLessIrreflexive(entries[index].name);
    forall e | e in entries[..index] ensures e.name != entries[index].name {
      var i :| 0 <= i < index && entries[i] == e;
      assert NameLess(entries[index].name, entries[i].name);
    }
    forall e | e in entries[index + 1..] ensures e.name != entries[index].name {
      var i :| index < i < |entries| && entries[i] == e;
      assert NameLess(entries[i].name, entries[index].name);
    }
  }

  /** The loop has reached `index`; `kept` are the names it has let through. */
  ghost predicate Midway(p: Policy, entries: seq<Entry>, index: nat, names: set<string>, kept: set<string>) {
    && index <= |entries| && kept <= Names(entries[..index])
    && names == kept + Names(entries[index..])
    && kept + Names(Survivors(p, entries[index..], index)) == Names(Survivors(p, entries, 0))
  }

  lemma PruneStarts(p: Policy, entries: seq<Entry>)
    ensures Midway(p, entries, 0, Names(entries), {})
  {
    assert entries[0..] == entries;
  }

  lemma PruneEnds(p: Policy, entries: seq<Entry>, names: set<string>, kept: set<string>)
    requires Midway(p, entries, |entries|, names, kept)
    ensures names == Names(Survivors(p, entries, 0))
  {
    assert entries[|entries|..] == [];
  }

  lemma PruneStep(p: Policy, entries: seq<Entry>, index: nat, names: set<string>, kept: set<string>)
    requires NewestFirst(entries) && index < |entries| && Midway(p, entries, index, names, kept)
    ensures Removed(p, entries[index], index) ==> Midway(p, entries, index + 1, names - {entries[index].name}, kept)
    ensures !Removed(p, entries[index], index) ==> Midway(p, entries, index + 1, names, kept + {entries[index].name})
  {
    var e, rest := entries[index], entries[index + 1..];
    assert entries[index..] == [e] + rest;
    assert ([e] + rest)[1..] == rest;
    NamesOfCons(e, rest);
    NamesOfCons(e, Survivors(p, rest, index + 1));
    NameIsUnique(entries, index);
    assert forall x :: x in entries[..index + 1] <==> x in entries[..index] || x == e;
    assert e in entries[..index + 1];
  }
}
