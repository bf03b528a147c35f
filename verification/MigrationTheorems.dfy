/** The guarantees of the migration transaction, over every run. */
module MigrationTheorems {
  import opened Wrappers
  import opened Phases
  import opened CurrentState
  import opened MigrationProtocol
  import opened MigrationInvariant
  import opened MigrationSteps
  import opened MigrationFrame
  import opened MigrationSafety

  // ---------------------------------------------------------------- saved state and live database

  /** With no migration open, current.json is well formed and names exactly the live heads. */
  lemma SavedHeadsAreLive(s: Sys)
    requires Reachable(s) && forall id :: id in s.disk.journals ==> !Blocks(s.disk.journals[id])
    ensures Accepted(s.disk.current) && HeadSet(s.disk.current) == s.disk.live
  {
    ReachableInv(s);
    hide Reachable, Accepted, HeadSet, JournalsOk, OpensOk, HoldsOk, LocksOk, OwnersApart, ProcsOk;
  }

  lemma OneMigrationOpen(s: Sys, a: Id, b: Id)
    requires Reachable(s) && Unresolved(s.disk.journals, a) && Unresolved(s.disk.journals, b)
    ensures a == b
  {
    ReachableInv(s);
    hide Reachable, Accepted, HeadSet, JournalsOk, OpensOk, HoldsOk, LocksOk, OwnersApart, ProcsOk;
  }

  /** While a migration is open, current.json is the very document it was planned from, or the one it published. */
  lemma OpenMigrationOwnsCurrent(s: Sys, id: Id)
    requires Reachable(s) && Unresolved(s.disk.journals, id) && s.disk.journals[id].plan.Some?
    ensures OfIndented(s.disk.current) == s.disk.journals[id].plan.value.base
            || (id in s.disk.begun && PublishedBy(s.disk.current, id, s.disk.journals[id].plan.value))
    ensures id !in s.disk.begun ==> HeadSet(s.disk.current) == s.disk.live
  {
    ReachableInv(s);
    hide Reachable, Accepted, HeadSet, PublishedBy, JournalsOk, HoldsOk, LocksOk, OwnersApart, ProcsOk, HasActiveHold;
    assert OpensOk(s.disk);
  }

  // ---------------------------------------------------------------- the backup a migration may need

  /** Once Alembic was started for an open migration, a hold still protects a backup that is still there. */
  lemma OpenMigrationKeepsItsBackup(s: Sys, id: Id) returns (h: Id)
    requires Reachable(s) && Unresolved(s.disk.journals, id) && id in s.disk.begun
    ensures ActiveHold(s.disk.holds, h, id) && s.disk.holds[h].backup in s.disk.backups
  {
    ReachableInv(s);
    hide Reachable, Accepted, HeadSet, PublishedBy, JournalsOk, LocksOk, OwnersApart, ProcsOk;
    assert OpensOk(s.disk);
    h :| ActiveHold(s.disk.holds, h, id);
  }

  lemma ReleasedHoldIsSettled(s: Sys, h: Id)
    requires Reachable(s) && h in s.disk.holds && s.disk.holds[h].released && s.disk.holds[h].migration in s.disk.begun
    ensures s.disk.holds[h].migration in s.disk.journals && Settled(s.disk.journals[s.disk.holds[h].migration])
  {
    ReachableInv(s);
    hide Reachable, Accepted, HeadSet, PublishedBy, JournalsOk, OpensOk, LocksOk, OwnersApart, ProcsOk, Settled;
  }

  // ---------------------------------------------------------------- a journal's log and result

  // Every phase but the last two terminal ones is reached only through the phases before it.
  lemma {:induction false} CommittedLog(log: seq<Phase>)
    requires IsPath(log) && log != []
    ensures Rank(log[|log| - 1]) >= 5 && log[|log| - 1] != Failed ==> Started in log
    ensures log[|log| - 1] == Failed || log[|log| - 1] == RequiresRecovery ==> StateCommitted !in log
    ensures log[|log| - 1] == Failed ==> Started !in log
    ensures log[|log| - 1] == Committed ==> StateCommitted in log
    ensures PreMutation(log[|log| - 1]) ==> Started !in log
  {
    var n := |log| - 1;
    assert log == log[..n] + [log[n]];
    if n > 0 {
      CommittedLog(log[..n]);
      assert Legal(log[n - 1], log[n]);
      assert log[..n][n - 1] == log[n - 1];
      if StateCommitted in log[..n] { RankBelowLast(log[..n], StateCommitted); }
    }
  }

  /** What a result says about the run that wrote it, whichever of the terminal writes failed. */
  lemma ResultMatchesLog(s: Sys, id: Id)
    requires Reachable(s) && id in s.disk.journals
    ensures var j := s.disk.journals[id];
            && IsPath(j.log) && |j.log| <= 11
            && (j.result.Some? ==> j.log != [] && j.result.value == j.log[|j.log| - 1])
            && (j.result == Some(Failed) ==> Started !in j.log && id !in s.disk.begun)
            && (j.result == Some(RequiresRecovery) ==>
                  Started in j.log && StateCommitted !in j.log && id in s.disk.begun)
            && (j.result == Some(Committed) ==> StateCommitted in j.log && id in s.disk.begun)
            && (j.result.Some? ==> j.result.value in {Committed, Failed, RequiresRecovery})
            && (j.resolution.Some? ==> j.result == Some(RequiresRecovery))
            && (id in s.disk.begun ==> Started in j.log)
  {
    hide Reachable, Inv, IsPath, PlanOk;
    ReachableInv(s);
    JournalInReachable(s, id);
    var j := s.disk.journals[id];
    if j.log != [] { CommittedLog(j.log); }
    LogsAreShort(j.log, [], [], []);
  }

  lemma JournalInReachable(s: Sys, id: Id)
    requires Inv(s) && id in s.disk.journals
    ensures JournalOk(id, s.disk.journals[id], id in s.disk.begun)
  {
    hide JournalOk, OpensOk, HoldsOk, CurrentOk, QuietOk, LocksOk, OwnersApart, ProcsOk;
  }

  // ---------------------------------------------------------------- history only grows

  ghost predicate Kept(d: Disk, n: Disk) {
    && (forall id :: id in d.journals ==> id in n.journals && Grown(d.journals[id], n.journals[id]))
    && (forall h :: h in d.holds ==> h in n.holds && (n.holds[h] == d.holds[h] || n.holds[h] == d.holds[h].(released := true)))
    && d.begun <= n.begun
  }

  ghost predicate Grown(j: Journal, k: Journal) {
    && j.log <= k.log && (j.plan.Some? ==> k.plan == j.plan) && (j.result.Some? ==> k.result == j.result)
    && (j.resolution.Some? ==> k.resolution == j.resolution)
  }

  lemma StepKeeps(s: Sys, t: Sys)
    requires Inv(s) && Next(s, t)
    ensures Kept(s.disk, t.disk)
  {
    hide DiskInv, TurnOf, ProcInv, Starts, LocksOk, OwnersApart;
    if t.disk != s.disk {
      var pid: Pid, o: Oracle :| pid in s.procs && t == Advance(s, pid, o);
      TurnMoves(s.disk, s.procs[pid], o);
    }
  }

  /** Plans, results and resolutions are written once, logs only extended, releases permanent, in every run. */
  lemma {:induction false} HistoryIsKept(run: seq<Sys>, i: nat, k: nat)
    requires IsRun(run) && i <= k < |run|
    ensures Kept(run[i].disk, run[k].disk)
  {
    hide Inv, IsRun, Kept;
    if i == k {
      KeptComposes(run[i].disk, run[i].disk, run[i].disk);
    } else {
      HistoryIsKept(run, i, k - 1);
      RunInv(run, k - 1);
      RunStep(run, k);
      StepKeeps(run[k - 1], run[k]);
      KeptComposes(run[i].disk, run[k - 1].disk, run[k].disk);
    }
  }

  lemma KeptComposes(a: Disk, b: Disk, c: Disk)
    ensures Kept(a, a)
    ensures Kept(a, b) && Kept(b, c) ==> Kept(a, c)
  {
  }

  // ---------------------------------------------------------------- what recovery cannot repair

  // The process died before it wrote a result, and no failure handler is left to write one.
  ghost predicate Orphaned(s: Sys, id: Id) {
    && id in s.disk.journals && s.disk.journals[id].result.None?
    && forall pid: Pid :: pid in s.procs && Owner(s.procs[pid]) ==> s.procs[pid].m.id != id
  }

  predicate SameJournal(d: Disk, n: Disk, id: Id) {
    id in d.journals && id in n.journals && n.journals[id] == d.journals[id]
  }

  lemma SameJournalComposes(a: Disk, b: Disk, c: Disk, id: Id)
    requires SameJournal(a, b, id) && SameJournal(b, c, id)
    ensures SameJournal(a, c, id)
  {
  }

  lemma OrphanHasJournal(s: Sys, id: Id)
    requires Orphaned(s, id)
    ensures SameJournal(s.disk, s.disk, id)
  {
  }

  lemma RecoveryLeavesMissingResult(d: Disk, r: Recoverer, o: Oracle)
    requires RecovererInv(r, d) && r.id in d.journals && d.journals[r.id].result.None?
    ensures RecoverTurn(d, r, o).disk.journals == d.journals
  {
    hide HeadSet, Publish, PublishEvent, HoldMatches;
  }

  lemma OthersLeaveOrphan(s: Sys, id: Id, pid: Pid, o: Oracle)
    requires Inv(s) && Orphaned(s, id) && pid in s.procs
    ensures SameJournal(s.disk, TurnOf(s.disk, s.procs[pid], o).disk, id)
  {
    hide DiskInv, MigratorInv, RecovererInv, MigrateTurn, RecoverTurn, HoldFrame, BegunFrame, LocksOk, OwnersApart,
      HoldsRollout, HoldsSession, Extends;
    var p := s.procs[pid];
    assert ProcInv(p, s.disk);
    TurnMoves(s.disk, p, o);
    if p.Recovering? && p.r.id == id { RecoveryLeavesMissingResult(s.disk, p.r, o); }
  }

  lemma OrphanStays(s: Sys, t: Sys, id: Id)
    requires Inv(s) && Orphaned(s, id) && Next(s, t)
    ensures Orphaned(t, id) && SameJournal(s.disk, t.disk, id)
  {
    hide DiskInv, TurnOf, LocksOk, OwnersApart, ProcInv;
    if pid: Pid, o: Oracle :| pid in s.procs && t == Advance(s, pid, o) {
      OthersLeaveOrphan(s, id, pid, o);
      NoNewOwner(s, id, pid, o);
    }
  }

  lemma NoNewOwner(s: Sys, id: Id, pid: Pid, o: Oracle)
    requires Inv(s) && Orphaned(s, id) && pid in s.procs
    ensures var next := TurnOf(s.disk, s.procs[pid], o).proc;
            next.Some? && Owner(next.value) ==> next.value.m.id != id
  {
    var p := s.procs[pid];
    assert ProcInv(p, s.disk);
    hide DiskInv, MigratorInv, TurnOf, LocksOk, OwnersApart;
    KindKept(s.disk, p, o);
    if p.Migrating? {
      TurnOfMigrating(s.disk, p.m, o);
      IdKept(s.disk, p.m, o);
      PlanningOwnsNothing(p.m);
    }
  }

  lemma PlanningOwnsNothing(m: Migrator)
    ensures m.at == Planning ==> !HasJournal(m)
  {
  }

  /** A journal left without a result stays exactly as it is: no recovery, at any later time, resolves it. */
  lemma {:induction false} OrphanForever(run: seq<Sys>, i: nat, k: nat, id: Id)
    requires IsRun(run) && i <= k < |run| && Orphaned(run[i], id)
    ensures Orphaned(run[k], id) && SameJournal(run[i].disk, run[k].disk, id)
  {
    hide *;
    if i == k {
      OrphanHasJournal(run[i], id);
    } else {
      OrphanForever(run, i, k - 1, id);
      RunInv(run, k - 1);
      RunStep(run, k);
      OrphanStays(run[k - 1], run[k], id);
      SameJournalComposes(run[i].disk, run[k - 1].disk, run[k].disk, id);
    }
  }

  /** And as long as it is there, no migration gets past its gates. */
  lemma OrphanBlocks(s: Sys, id: Id, pid: Pid, o: Oracle)
    requires Orphaned(s, id) && pid in s.procs && s.procs[pid].Migrating? && s.procs[pid].m.at == Planning
    ensures TurnOf(s.disk, s.procs[pid], o) == Turn(s.disk, None)
  {
    assert Blocks(s.disk.journals[id]);
  }
}
