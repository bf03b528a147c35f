/** Count-based retention: which backups a prune deletes, and how prunes combine. */
module Prune {
  import opened Wrappers
  import opened Ordering
  import opened RetentionHolds

  // ---------------------------------------------------------------- what may be deleted, as sets

  // Backup ids start with a timestamp, so a greater name is a newer backup.
  function Newer(valid: set<string>, id: string): set<string> {
    set other | other in valid && Less(id, other)
  }

  ghost predicate IsNewest(ids: set<string>, id: string) {
    id in ids && Newer(ids, id) == {}
  }

  // What protects a backup regardless of the count.
  ghost predicate Free(verified: set<string>, holds: seq<Entry>, id: string) {
    !IsNewest(verified, id) && Find(holds, id) == NoHold
  }

  ghost function Deletable(valid: set<string>, verified: set<string>, holds: seq<Entry>, keep: nat): set<string> {
    set id | id in valid && keep <= |Newer(valid, id)| && Free(verified, holds, id)
  }

  ghost function Pruned(valid: set<string>, verified: set<string>, holds: seq<Entry>, keep: nat): set<string> {
    valid - Deletable(valid, verified, holds, keep)
  }

  // ---------------------------------------------------------------- order and counting

  lemma {:induction false} Oldest(ids: set<string>) returns (oldest: string)
    requires ids != {}
    ensures oldest in ids && Newer(ids, oldest) == ids - {oldest}
  {
    var x :| x in ids;
    var rest := ids - {x};
    LessIrreflexive(x);
    if rest == {} {
      oldest := x;
    } else {
      var y := Oldest(rest);
      LessTotal(x, y);
      LessIrreflexive(y);
      if Less(x, y) {
        oldest := x;
        forall z | z in rest ensures Less(x, z) {
          if z != y {
            assert z in Newer(rest, y);
            LessTransitive(x, y, z);
          }
        }
      } else {
        oldest := y;
        forall z | z in ids && z != y ensures Less(y, z) {
          assert z == x || z in Newer(rest, y);
        }
      }
    }
  }

  lemma NewerShrinks(valid: set<string>, a: string, b: string)
    requires b in Newer(valid, a)
    ensures Newer(valid, b) < Newer(valid, a) && |Newer(valid, b)| < |Newer(valid, a)|
  {
    LessIrreflexive(b);
    forall z | z in Newer(valid, b) ensures z in Newer(valid, a) { LessTransitive(a, b, z); }
    SmallerSet(Newer(valid, b), Newer(valid, a));
  }

  lemma SmallerSet<T>(a: set<T>, b: set<T>)
    ensures a <= b ==> |a| <= |b|
    ensures a < b ==> |a| < |b|
  {
    if a <= b { assert b == a + (b - a); assert |b| == |a| + |b - a|; }
  }

  // Deleting only from beyond the newest k leaves at least k newer than anything that had k newer.
  lemma {:induction false} StillBeyond(valid: set<string>, gone: set<string>, id: string, k: nat)
    requires id in valid && k <= |Newer(valid, id)|
    requires forall x :: x in gone ==> x in valid && k <= |Newer(valid, x)|
    ensures k <= |Newer(valid - gone, id)|
    decreases |Newer(valid, id)|
  {
    var newer := Newer(valid, id);
    if |newer| == k {
      forall z | z in newer ensures z in Newer(valid - gone, id) { NewerShrinks(valid, id, z); }
      SmallerSet(newer, Newer(valid - gone, id));
    } else {
      var next := Oldest(newer);
      NewerShrinks(valid, id, next);
      assert Newer(valid, next) == newer - {next} by {
        forall z ensures z in Newer(valid, next) <==> z in newer - {next} {
          assert z in Newer(newer, next) <==> z in newer - {next};
        }
      }
      StillBeyond(valid, gone, next, k);
      forall z | z in Newer(valid - gone, next) ensures z in Newer(valid - gone, id) { LessTransitive(id, next, z); }
      SmallerSet(Newer(valid - gone, next), Newer(valid - gone, id));
    }
  }

  lemma NotBeyond(valid: set<string>, gone: set<string>, id: string)
    ensures |Newer(valid - gone, id)| <= |Newer(valid, id)|
  {
    assert Newer(valid - gone, id) <= Newer(valid, id);
    SmallerSet(Newer(valid - gone, id), Newer(valid, id));
  }

  // ---------------------------------------------------------------- what a prune keeps

  /** One unreleased hold that cannot be read stops every deletion. */
  lemma MalformedHoldStopsPrune(valid: set<string>, verified: set<string>, holds: seq<Entry>, keep: nat, i: nat)
    requires i < |holds| && Live(holds[i]) && holds[i].acquired.Malformed?
    ensures Deletable(valid, verified, holds, keep) == {}
  {
    forall id | id in valid ensures Find(holds, id) != NoHold { FreeIffEveryHoldIsElsewhere(holds, id); }
  }

  /** Pruning resumed after any part of its deletions, or followed by a stricter prune, ends where the
      stricter prune alone would have ended. */
  lemma PruneResumes(valid: set<string>, verified: set<string>, holds: seq<Entry>, k1: nat, k2: nat, gone: set<string>)
    requires verified <= valid && k2 <= k1
    requires gone <= Deletable(valid, verified, holds, k1)
    ensures Pruned(valid - gone, verified - gone, holds, k2) == Pruned(valid, verified, holds, k2)
  {
    forall id | id in valid - gone ensures k2 <= |Newer(valid - gone, id)| <==> k2 <= |Newer(valid, id)| {
      NotBeyond(valid, gone, id);
      if k2 <= |Newer(valid, id)| { StillBeyond(valid, gone, id, k2); }
    }
    forall id | id in valid - gone ensures Free(verified - gone, holds, id) <==> Free(verified, holds, id) {
      NewestKept(valid, verified, holds, k1, gone, id);
    }
  }

  // The newest verified backup is never deleted, so no other one takes its place.
  lemma NewestKept(valid: set<string>, verified: set<string>, holds: seq<Entry>, k: nat, gone: set<string>, id: string)
    requires verified <= valid && gone <= Deletable(valid, verified, holds, k)
    requires id !in gone
    ensures IsNewest(verified - gone, id) <==> IsNewest(verified, id)
  {
    if id in verified && Newer(verified, id) != {} {
      var newest := Newest(verified, id);
      assert newest in Newer(verified - gone, id);
    }
    if IsNewest(verified, id) { assert Newer(verified - gone, id) == {}; }
  }

  lemma {:induction false} Newest(ids: set<string>, id: string) returns (newest: string)
    requires Newer(ids, id) != {}
    ensures IsNewest(ids, newest) && newest in Newer(ids, id)
    decreases |Newer(ids, id)|
  {
    var next :| next in Newer(ids, id);
    NewerShrinks(ids, id, next);
    if Newer(ids, next) == {} { newest := next; } else { newest := Newest(ids, next); LessTransitive(id, next, newest); }
  }

  /** prune(k1) then prune(k2) is prune(min(k1, k2)); in particular pruning twice changes nothing. */
  lemma PrunesCombine(valid: set<string>, verified: set<string>, holds: seq<Entry>, k1: nat, k2: nat)
    requires verified <= valid
    ensures var once := Pruned(valid, verified, holds, k1);
            Pruned(once, verified * once, holds, k2) ==
              Pruned(valid, verified, holds, if k1 < k2 then k1 else k2)
  {
    var gone := Deletable(valid, verified, holds, k1);
    var once := valid - gone;
    assert verified * once == verified - gone;
    if k2 <= k1 {
      PruneResumes(valid, verified, holds, k1, k2, gone);
    } else {
      forall id | id in once ensures id !in Deletable(once, verified * once, holds, k2) {
        NotBeyond(valid, gone, id);
        NewestKept(valid, verified, holds, k1, gone, id);
      }
    }
  }
}
