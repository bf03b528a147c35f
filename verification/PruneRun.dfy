/** Candidate selection and the deletion loop, as the tool runs them over a listing. */
module PruneRun {
  import opened Wrappers
  import opened Ordering
  import opened RetentionHolds
  import opened Prune

  datatype Item = Item(id: string, valid: bool, passed: bool)

  datatype Act = Keep | Delete | Skip

  datatype Why =
    | NotValid | NewestValid | NewestVerified | UnreadableHold | HeldBy(hold: string) | BeyondKeep | WithinKeep

  datatype Decision = Decision(id: string, act: Act, why: Why)

  // The listing is in name order, and names are unique in a directory.
  ghost predicate Listing(items: seq<Item>) {
    forall i, k :: 0 <= i < k < |items| ==> Less(items[i].id, items[k].id)
  }

  ghost function ValidIds(items: seq<Item>): set<string> {
    set it | it in items && it.valid :: it.id
  }

  ghost function VerifiedIds(items: seq<Item>): set<string> {
    set it | it in items && it.valid && it.passed :: it.id
  }

  ghost function Verdict(items: seq<Item>, holds: seq<Entry>, keep: nat, it: Item): Decision {
    var find := Find(holds, it.id);
    if !it.valid then Decision(it.id, Skip, NotValid)
    else if IsNewest(ValidIds(items), it.id) then Decision(it.id, Keep, NewestValid)
    else if IsNewest(VerifiedIds(items), it.id) then Decision(it.id, Keep, NewestVerified)
    else if find == Raises then Decision(it.id, Skip, UnreadableHold)
    else if find.Held? then Decision(it.id, Keep, HeldBy(find.id))
    else if keep <= |Newer(ValidIds(items), it.id)| then Decision(it.id, Delete, BeyondKeep)
    else Decision(it.id, Keep, WithinKeep)
  }

  ghost function Deletes(decisions: seq<Decision>): set<string> {
    set d | d in decisions && d.act == Delete :: d.id
  }

  /** Acting on the verdicts deletes exactly what the retention rule lets go. */
  lemma VerdictsDelete(items: seq<Item>, holds: seq<Entry>, keep: nat, decisions: seq<Decision>)
    requires keep >= 1
    requires forall it :: it in items ==> Verdict(items, holds, keep, it) in decisions
    requires forall d :: d in decisions ==> exists it :: it in items && d == Verdict(items, holds, keep, it)
    ensures Deletes(decisions) == Deletable(ValidIds(items), VerifiedIds(items), holds, keep)
  {
    forall id | id in Deletable(ValidIds(items), VerifiedIds(items), holds, keep) ensures id in Deletes(decisions) {
      var it :| it in items && it.valid && it.id == id;
      assert Verdict(items, holds, keep, it) in decisions;
    }
  }

  // ---------------------------------------------------------------- newest first

  ghost predicate NewestFirst(s: seq<Item>) {
    forall i, k :: 0 <= i < k < |s| ==> Less(s[k].id, s[i].id)
  }

  ghost function Ids(s: seq<Item>): set<string> {
    set it | it in s :: it.id
  }

  lemma {:induction false} IdsCount(s: seq<Item>)
    requires NewestFirst(s)
    ensures |Ids(s)| == |s|
  {
    if s != [] {
      var n := |s| - 1;
      IdsCount(s[..n]);
      assert s == s[..n] + [s[n]];
      assert Ids(s) == Ids(s[..n]) + {s[n].id};
      forall i | 0 <= i < n ensures s[i].id != s[n].id { LessIrreflexive(s[n].id); }
      assert s[n].id !in Ids(s[..n]);
    }
  }

  // In the newest-first list the position counts the newer ones.
  lemma PositionIsRank(s: seq<Item>, k: nat)
    requires NewestFirst(s) && k < |s|
    ensures Newer(Ids(s), s[k].id) == Ids(s[..k]) && |Newer(Ids(s), s[k].id)| == k
  {
    forall id ensures id in Newer(Ids(s), s[k].id) <==> id in Ids(s[..k]) {
      if id in Newer(Ids(s), s[k].id) {
        var i :| 0 <= i < |s| && s[i].id == id;
        LessIrreflexive(id);
        LessIrreflexive(s[k].id);
        if i > k { LessTransitive(s[k].id, id, s[k].id); }
        assert i < k && s[..k][i] == s[i];
      }
      if id in Ids(s[..k]) {
        var it :| it in s[..k] && it.id == id;
        assert it in s;
      }
    }
    IdsCount(s[..k]);
  }

  method NewestFirstOf(items: seq<Item>) returns (sorted: seq<Item>)
    requires Listing(items)
    ensures NewestFirst(sorted)
    ensures forall it :: it in sorted <==> it in items && it.valid
    ensures Ids(sorted) == ValidIds(items)
  {
    sorted := [];
    for i := 0 to |items|
      invariant NewestFirst(sorted)
      invariant forall it :: it in sorted <==> it in items[..i] && it.valid
    {
      assert forall it :: it in sorted ==> it in items[..i];
      assert forall it :: it in items[..i] ==> Less(it.id, items[i].id);
      assert items[..i + 1] == items[..i] + [items[i]];
      if items[i].valid {
        sorted := [items[i]] + sorted;
      }
    }
    assert items[..|items|] == items;
  }

  // The first that passed verification is the newest that did.
  method NewestPassed(sorted: seq<Item>) returns (newest: Option<string>)
    requires NewestFirst(sorted)
    ensures var verified := set it | it in sorted && it.passed :: it.id;
            forall id :: IsNewest(verified, id) <==> newest == Some(id)
  {
    newest := None;
    ghost var verified := set it | it in sorted && it.passed :: it.id;
    for i := 0 to |sorted|
      invariant newest.None? && forall k :: 0 <= k < i ==> !sorted[k].passed
    {
      if sorted[i].passed {
        newest := Some(sorted[i].id);
        assert sorted[i].id in verified;
        forall id | id in verified && id != sorted[i].id ensures sorted[i].id in Newer(verified, id) {}
        assert Newer(verified, sorted[i].id) == {} by {
          forall id | id in verified ensures !Less(sorted[i].id, id) {
            LessIrreflexive(id);
            if Less(sorted[i].id, id) && Less(id, sorted[i].id) { LessTransitive(id, sorted[i].id, id); }
          }
        }
        return;
      }
    }
  }

  lemma FirstIsNewest(s: seq<Item>, k: nat)
    requires NewestFirst(s) && k < |s|
    ensures IsNewest(Ids(s), s[k].id) <==> s[k].id == s[0].id
  {
    PositionIsRank(s, k);
    PositionIsRank(s, 0);
    if k > 0 { LessIrreflexive(s[k].id); assert s[0].id in Newer(Ids(s), s[k].id); }
  }

  // The decision on one backup of the newest-first list.
  method Decide(sorted: seq<Item>, k: nat, newestVerified: Option<string>, holds: seq<Entry>, keep: nat,
                ghost items: seq<Item>) returns (d: Decision)
    requires NewestFirst(sorted) && k < |sorted| && sorted[k].valid && keep >= 1
    requires Ids(sorted) == ValidIds(items)
    requires forall id :: IsNewest(VerifiedIds(items), id) <==> newestVerified == Some(id)
    ensures d == Verdict(items, holds, keep, sorted[k])
  {
    FirstIsNewest(sorted, k);
    PositionIsRank(sorted, k);
    var id := sorted[k].id;
    if id == sorted[0].id {
      return Decision(id, Keep, NewestValid);
    }
    if newestVerified == Some(id) {
      return Decision(id, Keep, NewestVerified);
    }
    var held := ActiveHoldForBackup(holds, id);
    if held == Raises {
      return Decision(id, Skip, UnreadableHold);
    }
    if held != NoHold {
      return Decision(id, Keep, HeldBy(held.id));
    }
    if k >= keep {
      return Decision(id, Delete, BeyondKeep);
    }
    return Decision(id, Keep, WithinKeep);
  }

  ghost predicate OnlyVerdicts(items: seq<Item>, holds: seq<Entry>, keep: nat, decisions: seq<Decision>) {
    forall d :: d in decisions ==> exists it :: it in items && d == Verdict(items, holds, keep, it)
  }

  /** The decisions are exactly the verdicts of the listed entries, and the deletions among them exactly what the
      retention rule lets go; an unreleased hold that cannot be read makes that nothing. */
  method SelectPruneCandidates(items: seq<Item>, holds: seq<Entry>, keep: int) returns (r: Result<seq<Decision>, string>)
    requires Listing(items)
    ensures r.Err? <==> keep < 1
    ensures r.Ok? ==> forall it :: it in items ==> Verdict(items, holds, keep, it) in r.value
    ensures r.Ok? ==> OnlyVerdicts(items, holds, keep, r.value)
    ensures r.Ok? ==> Deletes(r.value) == Deletable(ValidIds(items), VerifiedIds(items), holds, keep)
  {
    if keep < 1 {
      return Err("keep must be >= 1");
    }
    var sorted := NewestFirstOf(items);
    var newestVerified := NewestPassed(sorted);
    assert VerifiedIds(items) == set it | it in sorted && it.passed :: it.id;
    hide Verdict, Deletable, IsNewest, ValidIds, VerifiedIds, NewestFirst, Listing, OnlyVerdicts;
    var skips := SkipInvalid(items, holds, keep);
    var choices := DecideValid(sorted, newestVerified, holds, keep, items);
    VerdictsJoin(items, holds, keep, sorted, skips, choices);
    VerdictsOnly(items, holds, keep, skips + choices);
    return Ok(skips + choices);
  }

  lemma VerdictsJoin(items: seq<Item>, holds: seq<Entry>, keep: nat, sorted: seq<Item>,
                     skips: seq<Decision>, choices: seq<Decision>)
    requires forall it :: it in sorted <==> it in items && it.valid
    requires forall it :: it in items && !it.valid ==> Verdict(items, holds, keep, it) in skips
    requires forall it :: it in sorted ==> Verdict(items, holds, keep, it) in choices
    requires OnlyVerdicts(items, holds, keep, skips) && OnlyVerdicts(items, holds, keep, choices)
    ensures forall it :: it in items ==> Verdict(items, holds, keep, it) in skips + choices
    ensures OnlyVerdicts(items, holds, keep, skips + choices)
  {
    hide Verdict;
  }

  lemma VerdictsOnly(items: seq<Item>, holds: seq<Entry>, keep: nat, decisions: seq<Decision>)
    requires keep >= 1 && OnlyVerdicts(items, holds, keep, decisions)
    requires forall it :: it in items ==> Verdict(items, holds, keep, it) in decisions
    ensures Deletes(decisions) == Deletable(ValidIds(items), VerifiedIds(items), holds, keep)
  {
    hide Verdict;
    VerdictsDelete(items, holds, keep, decisions);
  }

  method DecideValid(sorted: seq<Item>, newestVerified: Option<string>, holds: seq<Entry>, keep: nat,
                     ghost items: seq<Item>) returns (decisions: seq<Decision>)
    requires NewestFirst(sorted) && keep >= 1 && Ids(sorted) == ValidIds(items)
    requires forall it :: it in sorted ==> it in items && it.valid
    requires forall id :: IsNewest(VerifiedIds(items), id) <==> newestVerified == Some(id)
    ensures forall it :: it in sorted ==> Verdict(items, holds, keep, it) in decisions
    ensures OnlyVerdicts(items, holds, keep, decisions)
  {
    hide Verdict, IsNewest, ValidIds, VerifiedIds, Ids, NewestFirst;
    decisions := [];
    for k := 0 to |sorted|
      invariant forall i :: 0 <= i < k ==> Verdict(items, holds, keep, sorted[i]) in decisions
      invariant OnlyVerdicts(items, holds, keep, decisions)
    {
      assert sorted[k] in sorted;
      var d := Decide(sorted, k, newestVerified, holds, keep, items);
      decisions := decisions + [d];
    }
  }

  // Entries that are not valid backups are never candidates.
  method SkipInvalid(items: seq<Item>, ghost holds: seq<Entry>, ghost keep: nat) returns (decisions: seq<Decision>)
    ensures forall it :: it in items && !it.valid ==> Verdict(items, holds, keep, it) in decisions
    ensures OnlyVerdicts(items, holds, keep, decisions)
  {
    decisions := [];
    for i := 0 to |items|
      invariant forall k :: 0 <= k < i && !items[k].valid ==> Verdict(items, holds, keep, items[k]) in decisions
      invariant OnlyVerdicts(items, holds, keep, decisions)
    {
      if !items[i].valid {
        decisions := decisions + [Decision(items[i].id, Skip, NotValid)];
        assert items[i] in items;
      }
    }
  }

  // ---------------------------------------------------------------- deleting

  // What the file system does when one backup is to be deleted.
  datatype Removal = Removed | Refused

  class BackupRoot {
    var items: seq<Item>
    var holds: seq<Entry>

    constructor (items: seq<Item>, holds: seq<Entry>)
      requires Listing(items)
      ensures this.items == items && this.holds == holds
    {
      this.items := items;
      this.holds := holds;
    }

    ghost predicate Valid() reads this {
      Listing(items)
    }

    // Take one backup out of the listing.
    method Remove(id: string)
      requires Valid()
      modifies this`items
      ensures Valid() && forall it :: it in items <==> it in old(items) && it.id != id
    {
      var rest := [];
      for i := 0 to |items|
        invariant Listing(rest) && items == old(items)
        invariant forall it :: it in rest <==> it in items[..i] && it.id != id
      {
        assert forall it :: it in items[..i] ==> Less(it.id, items[i].id);
        assert items[..i + 1] == items[..i] + [items[i]];
        if items[i].id != id { rest := rest + [items[i]]; }
      }
      assert items[..|items|] == items;
      items := rest;
    }

    // Delete one candidate if no hold has appeared and the file system lets it go.
    method DeleteOne(d: Decision, removal: Removal) returns (gone: bool)
      requires Valid()
      modifies this`items
      ensures Valid() && (gone <==> Find(holds, d.id) == NoHold && removal.Removed?)
      ensures forall it :: it in items <==> it in old(items) && !(gone && it.id == d.id)
    {
      var held := ActiveHoldForBackup(holds, d.id);
      gone := held == NoHold && removal == Removed;
      if gone {
        Remove(d.id);
      }
    }

    /** With the root locked the candidates are computed again, and each is deleted only if it is still free.
        Whatever fails, nothing but candidates goes; when nothing fails, all of them go. */
    method PruneBackups(keep: int, removal: string -> Removal) returns (r: Result<set<string>, string>)
      requires Valid()
      modifies this`items
      ensures Valid()
      ensures keep < 1 ==> r.Err? && items == old(items)
      ensures keep >= 1 ==>
                var candidates := Deletable(ValidIds(old(items)), VerifiedIds(old(items)), holds, keep);
                && (forall it :: it in items <==> it in old(items) && !(it.id in candidates && removal(it.id).Removed?))
                && (r.Ok? <==> forall id :: id in candidates ==> removal(id).Removed?)
                && (r.Ok? ==> r.value == candidates)
    {
      var selected := SelectPruneCandidates(items, holds, keep);
      if selected.Err? {
        return Err(selected.error);
      }
      var decisions := selected.value;
      var deleted, failed := {}, false;
      ghost var before := items;
      hide Deletable, Verdict, OnlyVerdicts, Listing, ValidIds, VerifiedIds;
      for i := 0 to |decisions|
        invariant Valid()
        invariant deleted == Gone(decisions[..i], removal)
        invariant forall it :: it in items <==> it in before && it.id !in deleted
        invariant failed <==> deleted != Deletes(decisions[..i])
      {
        assert decisions[..i + 1] == decisions[..i] + [decisions[i]];
        OneMore(decisions[..i], decisions[i], removal);
        var d := decisions[i];
        if d.act == Delete {
          CandidateIsFree(before, holds, keep, decisions, d);
          var gone := DeleteOne(d, removal(d.id));
          if gone {
            deleted := deleted + {d.id};
          } else {
            failed := true;
          }
        }
      }
      assert decisions[..|decisions|] == decisions;
      GoneIsRemoved(decisions, removal);
      if failed {
        return Err("prune partially failed");
      }
      return Ok(deleted);
    }
  }

  ghost function Gone(decisions: seq<Decision>, removal: string -> Removal): set<string> {
    set id | id in Deletes(decisions) && removal(id).Removed?
  }

  lemma OneMore(decisions: seq<Decision>, d: Decision, removal: string -> Removal)
    ensures Deletes(decisions + [d]) == Deletes(decisions) + if d.act == Delete then {d.id} else {}
    ensures Gone(decisions + [d], removal) ==
            Gone(decisions, removal) + if d.act == Delete && removal(d.id).Removed? then {d.id} else {}
    ensures Gone(decisions, removal) <= Deletes(decisions)
  {
    assert forall e :: e in decisions + [d] <==> e in decisions || e == d;
    assert forall id :: id in Deletes(decisions) ==> exists e :: e in decisions && e.act == Delete && e.id == id;
    assert d in decisions + [d];
  }

  lemma GoneIsRemoved(decisions: seq<Decision>, removal: string -> Removal)
    ensures Gone(decisions, removal) == Deletes(decisions) <==> forall id :: id in Deletes(decisions) ==> removal(id).Removed?
  {
  }

  lemma CandidateIsFree(items: seq<Item>, holds: seq<Entry>, keep: nat, decisions: seq<Decision>, d: Decision)
    requires OnlyVerdicts(items, holds, keep, decisions) && d in decisions && d.act == Delete
    ensures Find(holds, d.id) == NoHold
  {
  }
}
