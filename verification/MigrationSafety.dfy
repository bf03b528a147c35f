/** What holds of the shared state in every reachable state, whatever is interleaved and whatever crashes. */
module MigrationSafety {
  import opened Wrappers
  import opened Phases
  import opened CurrentState
  import opened MigrationProtocol
  import opened MigrationInvariant
  import opened MigrationSteps
  import opened MigrationFrame
  import MigrationRecovery

  // ---------------------------------------------------------------- the invariant of the whole system

  // A lock is held by the process that is at a point where it holds it, and by no other.
  ghost predicate LocksOk(s: Sys) {
    && (forall pid: Pid :: pid in s.procs ==> (s.rollout == Some(pid) <==> HoldsRollout(s.procs[pid])))
    && (forall pid: Pid :: pid in s.procs ==> (s.session == Some(pid) <==> HoldsSession(s.procs[pid])))
    && (s.rollout.Some? ==> s.rollout.value in s.procs)
    && (s.session.Some? ==> s.session.value in s.procs)
  }

  // No two migrations write one journal.
  ghost predicate OwnersApart(procs: map<Pid, Proc>) {
    forall a: Pid, b: Pid :: a in procs && b in procs && a != b && Owner(procs[a]) && Owner(procs[b]) ==>
      procs[a].m.id != procs[b].m.id
  }

  predicate Owner(p: Proc) {
    p.Migrating? && HasJournal(p.m)
  }

  ghost predicate ProcsOk(procs: map<Pid, Proc>, d: Disk) {
    forall pid: Pid :: pid in procs ==> ProcInv(procs[pid], d)
  }

  ghost predicate Inv(s: Sys) {
    DiskInv(s.disk) && LocksOk(s) && OwnersApart(s.procs) && ProcsOk(s.procs, s.disk)
  }

  lemma InitInv(s: Sys)
    requires Init(s)
    ensures Inv(s)
  {
    hide Accepted, HeadSet;
  }

  lemma StartInv(s: Sys, pid: Pid, p: Proc)
    requires Inv(s) && pid !in s.procs && Starts(p)
    ensures Inv(s.(procs := s.procs[pid := p]))
  {
    hide DiskInv, OwnerInv, FailInv;
  }

  lemma CrashInv(s: Sys, pid: Pid)
    requires Inv(s) && pid in s.procs
    ensures Inv(Crash(s, pid))
  {
    hide DiskInv, ProcInv, HoldsRollout, HoldsSession;
  }

  // ---------------------------------------------------------------- one step of one process

  // An unlocked recovery has only read so far.
  lemma UnlockedRecoveryReads(d: Disk, r: Recoverer, o: Oracle)
    requires !HoldsRollout(Recovering(r))
    ensures RecoverTurn(d, r, o).disk == d
  {
  }

  // The disk after another process's step still satisfies what this one knows.
  lemma OtherUndisturbed(d: Disk, p: Proc, q: Proc, o: Oracle)
    requires ProcInv(p, d) && ProcInv(q, d)
    requires !(HoldsRollout(p) && HoldsRollout(q)) && !(HoldsSession(p) && HoldsSession(q))
    requires Owner(p) && Owner(q) ==> p.m.id != q.m.id
    ensures ProcInv(q, TurnOf(d, p, o).disk)
  {
    var n := TurnOf(d, p, o).disk;
    var reach := ReachOf(d, p, o);
    TurnMoves(d, p, o);
    if p.Recovering? && !HoldsRollout(p) { UnlockedRecoveryReads(d, p.r, o); }
    match q
    case Migrating(m) =>
      JournalIsThere(m, d);
      hide TurnOf, Frame, MigratorInv, HoldsSession;
      MigratorStable(m, d, n, reach);
    case Recovering(r) =>
      hide TurnOf, Frame, MigratorInv, RecovererInv, HoldsSession;
      RecovererStable(r, d, n, reach);
    case Pruning(_, _) =>
  }

  lemma JournalIsThere(m: Migrator, d: Disk)
    requires MigratorInv(m, d)
    ensures HasJournal(m) ==> m.id in d.journals
  {
    hide PlanOk, OwnerHold, OwnerState;
  }

  lemma OthersUndisturbed(s: Sys, pid: Pid, o: Oracle)
    requires Inv(s) && pid in s.procs
    ensures forall q: Pid :: q in s.procs && q != pid ==> ProcInv(s.procs[q], TurnOf(s.disk, s.procs[pid], o).disk)
  {
    hide DiskInv, ProcInv, TurnOf, HasJournal, HoldsRollout, HoldsSession;
    forall q: Pid | q in s.procs && q != pid ensures ProcInv(s.procs[q], TurnOf(s.disk, s.procs[pid], o).disk) {
      OtherUndisturbed(s.disk, s.procs[pid], s.procs[q], o);
    }
  }

  // A migration takes an id no journal has, and keeps it.
  lemma IdKept(d: Disk, m: Migrator, o: Oracle)
    requires MigratorInv(m, d)
    ensures var next := MigrateTurn(d, m, o).proc;
            next.Some? && next.value.Migrating? && HasJournal(next.value.m) ==>
              if m.at == Planning then next.value.m.id !in d.journals
              else HasJournal(m) && next.value.m.id == m.id
  {
    hide OwnerInv, FailInv, MayAppend, Publish, PublishEvent, Upgrade, PlanFor;
  }

  lemma KindKept(d: Disk, p: Proc, o: Oracle)
    ensures var next := TurnOf(d, p, o).proc; next.Some? ==> (next.value.Migrating? <==> p.Migrating?)
  {
    hide MayAppend, Publish, PublishEvent, Upgrade, PlanFor, MayPlan;
  }

  lemma OwnersStayApart(s: Sys, pid: Pid, o: Oracle)
    requires Inv(s) && pid in s.procs
    ensures var next := TurnOf(s.disk, s.procs[pid], o).proc;
            next.Some? ==> OwnersApart(s.procs[pid := next.value])
  {
    var p := s.procs[pid];
    hide DiskInv, ProcInv, MigratorInv, TurnOf, HasJournal;
    KindKept(s.disk, p, o);
    if p.Migrating? {
      assert MigratorInv(p.m, s.disk) by { assert ProcInv(p, s.disk); MigratingInv(p, s.disk); }
      TurnOfMigrating(s.disk, p.m, o);
      IdKept(s.disk, p.m, o);
      forall q: Pid | q in s.procs && s.procs[q].Migrating? && HasJournal(s.procs[q].m)
        ensures s.procs[q].m.id in s.disk.journals
      {
        MigratingInv(s.procs[q], s.disk);
        JournalIsThere(s.procs[q].m, s.disk);
      }
    }
  }

  lemma MigratingInv(p: Proc, d: Disk)
    requires ProcInv(p, d) && p.Migrating?
    ensures MigratorInv(p.m, d)
  {
  }

  lemma TurnOfMigrating(d: Disk, m: Migrator, o: Oracle)
    ensures TurnOf(d, Migrating(m), o) == MigrateTurn(d, m, o)
  {
    hide MigrateTurn;
  }

  lemma AdvanceLocks(s: Sys, pid: Pid, o: Oracle)
    requires LocksOk(s) && pid in s.procs
    ensures LocksOk(Advance(s, pid, o))
  {
    hide TurnOf, HoldsRollout, HoldsSession;
  }

  lemma AdvanceInv(s: Sys, pid: Pid, o: Oracle)
    requires Inv(s) && pid in s.procs
    ensures Inv(Advance(s, pid, o))
  {
    hide DiskInv, ProcInv, TurnOf, HoldsRollout, HoldsSession, HasJournal;
    MigrationRecovery.TurnGood(s.disk, s.procs[pid], o);
    OthersUndisturbed(s, pid, o);
    OwnersStayApart(s, pid, o);
    AdvanceLocks(s, pid, o);
  }

  lemma NextInv(s: Sys, t: Sys)
    requires Inv(s) && Next(s, t)
    ensures Inv(t)
  {
    hide Inv, Advance, Crash, Starts;
    if pid: Pid, p: Proc :| pid !in s.procs && Starts(p) && t == s.(procs := s.procs[pid := p]) {
      StartInv(s, pid, p);
    } else if pid: Pid :| pid in s.procs && t == Crash(s, pid) {
      CrashInv(s, pid);
    } else {
      var pid: Pid, o: Oracle :| pid in s.procs && t == Advance(s, pid, o);
      AdvanceInv(s, pid, o);
    }
  }

  lemma RunStep(run: seq<Sys>, k: nat)
    requires IsRun(run) && 0 < k < |run|
    ensures Next(run[k - 1], run[k])
  {
    hide Next, Init;
  }

  lemma {:induction false} RunInv(run: seq<Sys>, k: nat)
    requires IsRun(run) && k < |run|
    ensures Inv(run[k])
  {
    hide Inv, Next, Init;
    if k == 0 {
      InitInv(run[0]);
    } else {
      RunInv(run, k - 1);
      RunStep(run, k);
      NextInv(run[k - 1], run[k]);
    }
  }

  lemma ReachableInv(s: Sys)
    requires Reachable(s)
    ensures Inv(s)
  {
    hide Inv, Init, Next;
    var run :| IsRun(run) && run[|run| - 1] == s;
    RunInv(run, |run| - 1);
  }
}
