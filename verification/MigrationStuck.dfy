/** Open migrations that no recovery ever resolves: what every recovery refuses it refuses for good. */
module MigrationStuck {
  import opened Wrappers
  import opened Phases
  import opened CurrentState
  import opened MigrationProtocol
  import opened MigrationInvariant
  import opened MigrationSteps
  import opened MigrationFrame
  import opened MigrationSafety
  import opened MigrationLiveness
  import MigrationRecovery

  predicate Concluding(r: Recoverer) {
    r.at.Republishing? || r.at.Completing? || r.at.Resolving?
  }

  // Recorded as needing recovery, and not resolved.
  predicate Awaits(d: Disk, id: Id) {
    && id in d.journals && d.journals[id].result == Some(RequiresRecovery) && d.journals[id].resolution.None?
    && d.journals[id].plan.Some?
  }

  // No action applies: not the heads, not the document, or not the hold.
  ghost predicate Refused(d: Disk, id: Id) {
    Awaits(d, id) && forall action, h :: !Acceptable(d, id, action, h)
  }

  ghost predicate NobodyConcludes(s: Sys, id: Id) {
    forall pid: Pid :: pid in s.procs && s.procs[pid].Recovering? && s.procs[pid].r.id == id ==> !Concluding(s.procs[pid].r)
  }

  ghost predicate Hopeless(s: Sys, id: Id) {
    Refused(s.disk, id) && NobodyConcludes(s, id)
  }

  // ---------------------------------------------------------------- what a recovery looks at stays as it is

  ghost predicate HoldsSame(hs: map<Id, Hold>, ks: map<Id, Hold>, id: Id) {
    && (forall h :: h in hs && hs[h].migration == id ==> h in ks && ks[h] == hs[h])
    && (forall h :: h in ks && ks[h].migration == id ==> h in hs && ks[h] == hs[h])
  }

  ghost predicate Frozen(d: Disk, n: Disk, id: Id) {
    && id in d.journals && id in n.journals
    && n.journals[id].plan == d.journals[id].plan && n.journals[id].result == d.journals[id].result
    && n.journals[id].resolution == d.journals[id].resolution
    && n.current == d.current && n.live == d.live && HoldsSame(d.holds, n.holds, id)
  }

  lemma FrozenRefuses(d: Disk, n: Disk, id: Id)
    requires Refused(d, id) && Frozen(d, n, id)
    ensures Refused(n, id)
  {
    forall action, h ensures !Acceptable(n, id, action, h) {
      assert !Acceptable(d, id, action, h);
    }
  }

  // No migration is in its locked section: it would have an open journal of its own.
  lemma NoOwner(d: Disk, id: Id, m: Migrator)
    requires OneOpen(d.journals) && Awaits(d, id) && OwnerInv(m, d)
    ensures Closed(m.at) && m.id != id && m.id in d.journals
  {
    hide PlanOk, OwnerHold, OwnerState;
    assert Unresolved(d.journals, id);
    assert !Closed(m.at) ==> Unresolved(d.journals, m.id);
  }

  lemma ClosedLeaves(d: Disk, m: Migrator, o: Oracle)
    requires Closed(m.at)
    ensures var n := MigrateTurn(d, m, o).disk; n.current == d.current && n.live == d.live && n.journals == d.journals
  {
  }

  lemma UnlockedOrPlanning(d: Disk, m: Migrator, o: Oracle)
    requires MigratorInv(m, d) && !OwnerInv(m, d)
    ensures MigrateTurn(d, m, o).disk.current == d.current && MigrateTurn(d, m, o).disk.live == d.live
    ensures !HoldsRollout(Migrating(m)) || m.at == Planning
    ensures FailInv(m, d) || MigrateTurn(d, m, o).disk.holds == d.holds
  {
    hide OwnerInv, MayPlan, PlanFor, MayAppend;
  }

  // A handler releases its hold only if Alembic was never started.
  lemma HandlerKeepsHolds(d: Disk, m: Migrator, o: Oracle)
    requires FailInv(m, d) && m.id in d.begun
    ensures MigrateTurn(d, m, o).disk.holds == d.holds
  {
    hide MayAppend;
  }

  lemma AwaitingIsBegun(d: Disk, id: Id)
    requires DiskInv(d) && Awaits(d, id)
    ensures id in d.begun && Unresolved(d.journals, id) && OneOpen(d.journals) && PlanOk(id, d.journals[id].plan.value)
  {
    hide OpensOk, HoldsOk, CurrentOk, QuietOk, PlanOk, IsPath;
    assert JournalOk(id, d.journals[id], id in d.begun);
  }

  lemma FrameFreezes(d: Disk, n: Disk, id: Id, reach: Reach)
    requires Awaits(d, id) && Frame(d, n, reach) && n.current == d.current && n.live == d.live
    requires id in reach.own ==> !reach.locked && n.holds == d.holds
    ensures Frozen(d, n, id)
  {
    assert Extends(d.journals[id], n.journals[id], reach);
  }

  lemma MigrationFreezes(d: Disk, id: Id, m: Migrator, o: Oracle)
    requires DiskInv(d) && Awaits(d, id) && MigratorInv(m, d)
    ensures Frozen(d, MigrateTurn(d, m, o).disk, id)
  {
    var n, reach := MigrateTurn(d, m, o).disk, ReachOf(d, Migrating(m), o);
    hide DiskInv, OwnerInv, FailInv, MigrateTurn, Frame;
    AwaitingIsBegun(d, id);
    MigrateMoves(d, m, o);
    if OwnerInv(m, d) {
      NoOwner(d, id, m);
      ClosedLeaves(d, m, o);
    } else {
      UnlockedOrPlanning(d, m, o);
      if FailInv(m, d) && m.id == id { HandlerKeepsHolds(d, m, o); }
    }
    hide Frozen, MigratorInv;
    FrameFreezes(d, n, id, reach);
  }

  // ---------------------------------------------------------------- recoveries

  lemma OthersDoNotConclude(d: Disk, id: Id, r: Recoverer)
    requires DiskInv(d) && Awaits(d, id) && RecovererInv(r, d) && (r.id == id ==> !Concluding(r))
    ensures !Concluding(r)
    ensures r.at == RecoverReleasing ==> r.id != id && r.hold in d.holds && d.holds[r.hold].migration == r.id
  {
    hide JournalsOk, OpensOk, HoldsOk, CurrentOk, QuietOk, HeadSet;
    assert Unresolved(d.journals, id);
    assert Concluding(r) ==> Unresolved(d.journals, r.id);
  }

  lemma OtherPointsLeaveIt(d: Disk, id: Id, r: Recoverer, o: Oracle)
    requires !Concluding(r) && r.at != Checking && id in d.journals
    requires r.at == RecoverReleasing ==> r.id != id && r.hold in d.holds && d.holds[r.hold].migration == r.id
    ensures var t := RecoverTurn(d, r, o);
            && Frozen(d, t.disk, id)
            && (t.proc.Some? ==> t.proc.value.Recovering? && !Concluding(t.proc.value.r))
  {
    hide CheckTurn, RepublishTurn, CompleteTurn, ResolveTurn, MayRecover;
  }

  lemma CheckChangesNothing(d: Disk, id: Id, r: Recoverer, o: Oracle)
    requires id in d.journals
    ensures Frozen(d, CheckTurn(d, r, o).disk, id)
    ensures var t := CheckTurn(d, r, o); t.proc.Some? ==> t.proc.value.Recovering? && t.proc.value.r.id == r.id
  {
    hide HoldMatches;
  }

  lemma CheckRefuses(d: Disk, id: Id, r: Recoverer, o: Oracle)
    requires DiskInv(d) && Refused(d, id) && RecovererInv(r, d) && r.id == id && r.at == Checking
    ensures CheckTurn(d, r, o) == Turn(d, None)
  {
    AwaitingIsBegun(d, id);
    assert !Acceptable(d, id, r.action, o.pick);
    hide DiskInv, HoldMatches, HeadSet;
  }

  lemma RecoveryFreezes(d: Disk, id: Id, r: Recoverer, o: Oracle)
    requires DiskInv(d) && Refused(d, id) && RecovererInv(r, d) && (r.id == id ==> !Concluding(r))
    ensures var t := RecoverTurn(d, r, o);
            && Frozen(d, t.disk, id)
            && (t.proc.Some? && t.proc.value.Recovering? && t.proc.value.r.id == id ==> !Concluding(t.proc.value.r))
  {
    hide DiskInv, Acceptable, RecovererInv, Concluding, CheckTurn, Frozen;
    OthersDoNotConclude(d, id, r);
    if r.at == Checking {
      CheckChangesNothing(d, id, r, o);
      if r.id == id { CheckRefuses(d, id, r, o); }
    } else {
      OtherPointsLeaveIt(d, id, r, o);
    }
  }

  lemma PruneFreezes(d: Disk, id: Id, p: Proc, o: Oracle)
    requires p.Pruning? && id in d.journals
    ensures Frozen(d, PruneTurn(d, p, o).disk, id)
    ensures var t := PruneTurn(d, p, o); t.proc.Some? ==> t.proc.value.Pruning?
  {
    hide BackupHeld;
  }

  // ---------------------------------------------------------------- every run

  lemma TurnFreezes(s: Sys, id: Id, pid: Pid, o: Oracle)
    requires Inv(s) && Hopeless(s, id) && pid in s.procs
    ensures var t := TurnOf(s.disk, s.procs[pid], o);
            && Frozen(s.disk, t.disk, id)
            && (t.proc.Some? && t.proc.value.Recovering? && t.proc.value.r.id == id ==> !Concluding(t.proc.value.r))
  {
    hide MigratorInv, RecovererInv, MigrateTurn, RecoverTurn, DiskInv, LocksOk, OwnersApart, Acceptable, Concluding, Frozen;
    var p := s.procs[pid];
    assert ProcInv(p, s.disk);
    match p
    case Migrating(m) =>
      MigrationFreezes(s.disk, id, m, o);
      KindKept(s.disk, p, o);
      hide TurnOf;
      TurnOfMigrating(s.disk, m, o);
    case Recovering(r) => RecoveryFreezes(s.disk, id, r, o);
    case Pruning(_, _) => PruneFreezes(s.disk, id, p, o);
  }

  lemma FrozenSelf(d: Disk, id: Id)
    requires id in d.journals
    ensures Frozen(d, d, id)
  {
  }

  lemma HopelessStays(s: Sys, t: Sys, id: Id)
    requires Inv(s) && Hopeless(s, id) && Next(s, t)
    ensures Hopeless(t, id) && Frozen(s.disk, t.disk, id)
  {
    hide DiskInv, TurnOf, LocksOk, OwnersApart, ProcsOk, Acceptable, Frozen, Refused;
    FrozenSelf(s.disk, id) by { AwaitsHasJournal(s.disk, id); }
    if pid: Pid, o: Oracle :| pid in s.procs && t == Advance(s, pid, o) {
      TurnFreezes(s, id, pid, o);
      FrozenRefuses(s.disk, t.disk, id);
    }
  }

  lemma AwaitsHasJournal(d: Disk, id: Id)
    requires Refused(d, id)
    ensures id in d.journals
  {
  }

  /** What no action applies to stays so: nobody may plan while a journal is open, so the heads, current.json and the
      holds of that migration are what they are for good. */
  lemma {:induction false} HopelessForever(run: seq<Sys>, k: nat, id: Id)
    requires IsSegment(run) && Reachable(run[0]) && k < |run| && Hopeless(run[0], id)
    ensures Hopeless(run[k], id)
  {
    hide *;
    if k > 0 {
      HopelessForever(run, k - 1, id);
      SegmentReachable(run, k - 1);
      ReachableInv(run[k - 1]);
      SegmentStep(run, k);
      HopelessStays(run[k - 1], run[k], id);
    }
  }

  lemma SegmentStep(run: seq<Sys>, k: nat)
    requires IsSegment(run) && 0 < k < |run|
    ensures Next(run[k - 1], run[k])
  {
    hide Next;
  }

  // ---------------------------------------------------------------- published, and not resolved

  // Open for recovery, already published, and nobody about to resolve it.
  ghost predicate Stranded(s: Sys, id: Id) {
    Awaits(s.disk, id) && PublishedBy(s.disk.current, id, s.disk.journals[id].plan.value) && NobodyConcludes(s, id)
  }

  lemma StrandedIsHopeless(s: Sys, id: Id)
    requires Inv(s) && Stranded(s, id)
    ensures Hopeless(s, id)
  {
    AwaitingIsBegun(s.disk, id);
    MigrationRecovery.PublishedMatchesNoDigest(s.disk, id, s.disk.journals[id].plan.value);
    hide Inv, PlanOk, PublishedBy, HoldMatches;
  }

  lemma StaysStranded(s: Sys, t: Sys, id: Id)
    requires Inv(s) && Stranded(s, id) && Next(s, t)
    ensures Stranded(t, id)
  {
    hide Inv, Next, PublishedBy, Acceptable, HoldsSame;
    StrandedIsHopeless(s, id);
    HopelessStays(s, t, id);
  }

  /** A migration open for recovery whose document is already published is resolved by no later recovery: both
      digests are stale, and nothing else ever writes current.json again. */
  lemma {:induction false} StrandedForever(run: seq<Sys>, i: nat, k: nat, id: Id)
    requires IsRun(run) && i <= k < |run| && Stranded(run[i], id)
    ensures Stranded(run[k], id)
  {
    hide *;
    if i < k {
      StrandedForever(run, i, k - 1, id);
      RunInv(run, k - 1);
      RunStep(run, k);
      StaysStranded(run[k - 1], run[k], id);
    }
  }

  /** And this is where accept_target leaves it when it dies between publishing and resolving, from every state in
      which it would have succeeded. */
  lemma DyingAfterPublishing(s: Sys, pid: Pid, id: Id, h: Id) returns (t: Sys)
    requires Reachable(s) && pid !in s.procs && s.rollout.None? && s.session.None?
    requires Unresolved(s.disk.journals, id) && s.disk.journals[id].result == Some(RequiresRecovery)
    requires Acceptable(s.disk, id, AcceptTarget, h)
    ensures Reachable(t) && Stranded(t, id)
  {
    hide Leads, Reachable, HoldMatches, Inv, PublishedBy, HoldsRollout, Concluding, Crash, Next;
    FreeLock(s);
    var plan := s.disk.journals[id].plan.value;
    CompactDigest(s, id);
    var t1, r1 := ReachChecking(s, pid, id, AcceptTarget, plan, s.disk.current);
    var t2, r2 := Accepts(s, t1, pid, r1, h);
    t := Crash(t2, pid);
    LeadsReachable(s, t2);
    CrashIsNext(t2, pid);
    ReachableOn(t2, t);
    OthersAfterCrash(t2, pid);
    forall q: Pid | q in t.procs && t.procs[q].Recovering? ensures !Concluding(t.procs[q].r) {
      assert t.procs[q] == s.procs[q];
      ConcludingHolds(s.procs[q]);
    }
  }

  lemma FreeLock(s: Sys)
    requires Reachable(s) && s.rollout.None?
    ensures forall q: Pid :: q in s.procs ==> !HoldsRollout(s.procs[q])
  {
    ReachableInv(s);
    hide Reachable, DiskInv, ProcsOk, OwnersApart, HoldsRollout;
  }

  lemma OthersAfterCrash(s: Sys, pid: Pid)
    requires pid in s.procs
    ensures var t := Crash(s, pid);
            t.disk == s.disk && forall q: Pid :: q in t.procs ==> q != pid && q in s.procs && t.procs[q] == s.procs[q]
  {
  }

  lemma ConcludingHolds(p: Proc)
    requires p.Recovering? && !HoldsRollout(p)
    ensures !Concluding(p.r)
  {
  }
}
