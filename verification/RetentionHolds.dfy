/** The hold directory as a listing, and the search for the hold that protects a backup. */
module RetentionHolds {

  datatype Acquired = Absent | Malformed | Parsed(backup: string)

  // One entry of the holds directory, in name order; `named` is whether the name is a hold id.
  datatype Entry = Entry(id: string, directory: bool, named: bool, released: bool, acquired: Acquired)

  datatype Search = NoHold | Held(id: string) | Raises

  // An entry the search opens: a hold that was acquired and not released.
  predicate Live(e: Entry) {
    e.directory && e.named && !e.released && !e.acquired.Absent?
  }

  predicate Protects(e: Entry, backup: string) {
    Live(e) && e.acquired == Parsed(backup)
  }

  function Find(holds: seq<Entry>, backup: string): Search {
    if holds == [] then NoHold
    else if Live(holds[0]) && holds[0].acquired.Malformed? then Raises
    else if Protects(holds[0], backup) then Held(holds[0].id)
    else Find(holds[1..], backup)
  }

  method ActiveHoldForBackup(holds: seq<Entry>, backup: string) returns (r: Search)
    ensures r == Find(holds, backup)
  {
    var i := 0;
    while i < |holds|
      invariant i <= |holds| && Find(holds, backup) == Find(holds[i..], backup)
    {
      var child := holds[i];
      i := i + 1;
      if !child.directory || !child.named || child.released || child.acquired.Absent? {
        continue;
      }
      if child.acquired.Malformed? {
        return Raises;
      }
      if child.acquired.backup == backup {
        return Held(child.id);
      }
    }
    return NoHold;
  }

  /** A backup is free exactly when every unreleased hold was read and is for another backup: one malformed
      unreleased hold anywhere keeps every backup from being reported free. */
  lemma {:induction false} FreeIffEveryHoldIsElsewhere(holds: seq<Entry>, backup: string)
    ensures Find(holds, backup) == NoHold <==>
            forall i :: 0 <= i < |holds| && Live(holds[i]) ==> holds[i].acquired.Parsed? && holds[i].acquired.backup != backup
  {
    if holds != [] {
      FreeIffEveryHoldIsElsewhere(holds[1..], backup);
      assert forall i :: 0 < i < |holds| ==> holds[i] == holds[1..][i - 1];
    }
  }

  /** The hold reported is a live one on this backup, and everything opened before it was well formed. */
  lemma {:induction false} HeldIsFirstMatch(holds: seq<Entry>, backup: string) returns (k: nat)
    requires Find(holds, backup) != NoHold
    ensures k < |holds| && Live(holds[k])
    ensures forall i :: 0 <= i < k && Live(holds[i]) ==> holds[i].acquired.Parsed? && holds[i].acquired.backup != backup
    ensures Find(holds, backup) == if holds[k].acquired.Malformed? then Raises else Held(holds[k].id)
    ensures holds[k].acquired.Malformed? || Protects(holds[k], backup)
  {
    if Live(holds[0]) && (holds[0].acquired.Malformed? || Protects(holds[0], backup)) {
      k := 0;
    } else {
      var k' := HeldIsFirstMatch(holds[1..], backup);
      k := k' + 1;
      assert forall i :: 0 < i < |holds| ==> holds[i] == holds[1..][i - 1];
    }
  }
}
