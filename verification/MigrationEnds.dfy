/** How calls end when every one of their last steps goes through: failures are recorded and holds released. */
module MigrationEnds {
  import opened Wrappers
  import opened Phases
  import opened CurrentState
  import opened MigrationProtocol
  import opened MigrationInvariant
  import opened MigrationSteps
  import opened MigrationFrame
  import opened MigrationSafety
  import opened MigrationLiveness
  import opened MigrationProgress
  import MigrationTheorems

  // A process taken forward by itself, each of its calls ending normally, until it is done.
  ghost function Left(s: Sys, pid: Pid, n: nat): Sys
    decreases n
  {
    if n == 0 || pid !in s.procs then s else Left(Advance(s, pid, QUIET), pid, n - 1)
  }

  lemma {:induction false} LeftIsReachable(s: Sys, pid: Pid, n: nat)
    requires Reachable(s)
    ensures Reachable(Left(s, pid, n))
    decreases n
  {
    hide Reachable, Advance;
    if n > 0 && pid in s.procs {
      assert Next(s, Advance(s, pid, QUIET));
      hide Next;
      ReachableOn(s, Advance(s, pid, QUIET));
      LeftIsReachable(Advance(s, pid, QUIET), pid, n - 1);
    }
  }

  lemma {:induction false} LeftAdds(s: Sys, pid: Pid, a: nat, b: nat)
    ensures Left(s, pid, a + b) == Left(Left(s, pid, a), pid, b)
    decreases a
  {
    hide Advance;
    if a > 0 && pid in s.procs { LeftAdds(Advance(s, pid, QUIET), pid, a - 1, b); }
  }

  lemma LeftOnce(s: Sys, pid: Pid)
    requires pid in s.procs
    ensures Left(s, pid, 1) == Advance(s, pid, QUIET)
  {
    hide Advance;
    assert Left(Advance(s, pid, QUIET), pid, 0) == Advance(s, pid, QUIET);
  }

  // Once it is done nothing more happens.
  lemma LeftIsDone(s: Sys, pid: Pid, n: nat, k: nat)
    requires pid !in Left(s, pid, n).procs && n <= k
    ensures Left(s, pid, k) == Left(s, pid, n)
  {
    LeftAdds(s, pid, n, k - n);
  }

  lemma EndsNow(s: Sys, pid: Pid, d: Disk)
    requires Inv(s) && pid in s.procs && TurnOf(s.disk, s.procs[pid], QUIET) == Turn(d, None)
    ensures var n := Left(s, pid, 1); Inv(n) && n.disk == d && pid !in n.procs
  {
    AdvanceInv(s, pid, QUIET);
    LeftOnce(s, pid);
    hide Inv, TurnOf, HoldsRollout, HoldsSession;
  }

  lemma GoesNow(s: Sys, pid: Pid, d: Disk, p: Proc)
    requires Inv(s) && pid in s.procs && TurnOf(s.disk, s.procs[pid], QUIET) == Turn(d, Some(p))
    requires HoldsRollout(p) ==> HoldsRollout(s.procs[pid])
    requires HoldsSession(p) ==> s.session.None?
    ensures var n := Left(s, pid, 1); Inv(n) && n.disk == d && pid in n.procs && n.procs[pid] == p
    ensures !HoldsSession(p) && s.session.None? ==> Left(s, pid, 1).session.None?
  {
    LocksOf(s, pid);
    AdvanceInv(s, pid, QUIET);
    LeftOnce(s, pid);
    hide Inv, TurnOf, HoldsRollout, HoldsSession;
  }

  lemma LocksOf(s: Sys, pid: Pid)
    requires Inv(s) && pid in s.procs
    ensures HoldsRollout(s.procs[pid]) <==> s.rollout == Some(pid)
    ensures HoldsSession(s.procs[pid]) <==> s.session == Some(pid)
  {
    hide DiskInv, ProcsOk, OwnersApart, HoldsRollout, HoldsSession;
  }

  // ---------------------------------------------------------------- the failure handler

  // What the last phase must be for the terminal one to be logged.
  predicate TakesTerminal(log: seq<Phase>, post: bool) {
    log != [] &&
    var last := log[|log| - 1];
    if post then last in {Started, CommandCompleted, TargetHeadsVerified, Stabilized}
    else last in {Planned, BackupStarted, BackupVerified, HoldAcquired, Revalidated}
  }

  lemma TakesTerminalIff(log: seq<Phase>, post: bool)
    ensures TakesTerminal(log, post) <==> MayAppend(log, Terminal(post))
  {
  }

  function EndJournal(j: Journal, post: bool): Journal {
    if TakesTerminal(j.log, post)
    then j.(log := j.log + [if post then RequiresRecovery else Failed], result := Some(if post then RequiresRecovery else Failed))
    else j
  }

  function EndHolds(holds: map<Id, Hold>, hold: Option<Id>, post: bool): map<Id, Hold> {
    if post || hold.None? || hold.value !in holds then holds else holds[hold.value := holds[hold.value].(released := true)]
  }

  function AfterRecording(d: Disk, m: Migrator): Disk
    requires m.id in d.journals && m.at.FailAppending?
  {
    d.(journals := d.journals[m.id := EndJournal(d.journals[m.id], m.at.post)])
  }

  lemma FailerKnows(d: Disk, m: Migrator)
    requires DiskInv(d) && MigratorInv(m, d) && m.at.FailAppending?
    ensures m.id in d.journals && (m.id in d.begun <==> m.at.post)
    ensures TakesTerminal(d.journals[m.id].log, m.at.post) ==> d.journals[m.id].result.None?
    ensures m.hold.Some? ==> m.hold.value in d.holds
  {
    assert FailInv(m, d);
    hide OpensOk, HoldsOk, CurrentOk, QuietOk, OneOpen, PlanOk, IsPath;
    assert JournalOk(m.id, d.journals[m.id], m.id in d.begun);
  }

  // The turns of the handler, one by one.
  lemma RecordingTurns(d: Disk, m: Migrator)
    requires m.at.FailAppending? && m.id in d.journals
    requires TakesTerminal(d.journals[m.id].log, m.at.post) ==> d.journals[m.id].result.None?
    ensures var post := m.at.post; var t := MigrateTurn(d, m, QUIET);
            if !TakesTerminal(d.journals[m.id].log, post) then t == AfterHandler(d, m, post) && AfterRecording(d, m) == d
            else
              && t.proc == Some(Migrating(m.(at := FailResult(post))))
              && MigrateTurn(t.disk, m.(at := FailResult(post)), QUIET)
                 == AfterHandler(AfterRecording(d, m), m.(at := FailResult(post)), post)
  {
    TakesTerminalIff(d.journals[m.id].log, m.at.post);
    hide MayAppend, TakesTerminal;
    assert d.journals[m.id := d.journals[m.id]] == d.journals;
  }

  lemma ReleasingTurns(d: Disk, m: Migrator)
    requires m.hold.Some? && m.hold.value in d.holds
    ensures MigrateTurn(d, m.(at := FailOpening), QUIET) == Goes(d, m, FailReleasing)
    ensures MigrateTurn(d, m.(at := FailReleasing), QUIET) == Turn(d.(holds := EndHolds(d.holds, m.hold, false)), None)
    ensures MigrateTurn(d, m.(at := OpeningRelease), QUIET) == Goes(d, m, Releasing)
    ensures MigrateTurn(d, m.(at := Releasing), QUIET) == Turn(d.(holds := EndHolds(d.holds, m.hold, false)), None)
  {
    assert d.holds[m.hold.value].released ==> d.holds[m.hold.value := d.holds[m.hold.value].(released := true)] == d.holds;
  }

  lemma MigratingAt(s: Sys, pid: Pid, m: Migrator)
    requires Inv(s) && pid in s.procs && s.procs[pid] == Migrating(m)
    ensures DiskInv(s.disk) && MigratorInv(m, s.disk)
    ensures TurnOf(s.disk, s.procs[pid], QUIET) == MigrateTurn(s.disk, m, QUIET)
  {
    assert ProcInv(s.procs[pid], s.disk);
    hide DiskInv, MigratorInv, MigrateTurn, LocksOk, OwnersApart;
  }

  lemma Records(s: Sys, pid: Pid, m: Migrator) returns (n: nat)
    requires Inv(s) && pid in s.procs && s.procs[pid] == Migrating(m) && m.at.FailAppending? && s.session.None?
    ensures n <= 2 && m.id in s.disk.journals
    ensures var t := Left(s, pid, n);
            && Inv(t) && t.disk == AfterRecording(s.disk, m)
            && if m.at.post || m.hold.None? then pid !in t.procs
               else t.session.None? && pid in t.procs && t.procs[pid] == Migrating(m.(at := FailOpening))
  {
    hide Inv, DiskInv, MigratorInv, MigrateTurn, TurnOf, Left, TakesTerminal, EndJournal;
    MigratingAt(s, pid, m);
    FailerKnows(s.disk, m);
    RecordingTurns(s.disk, m);
    if !TakesTerminal(s.disk.journals[m.id].log, m.at.post) {
      n := 1;
      if m.at.post || m.hold.None? { EndsNow(s, pid, s.disk); } else { GoesNow(s, pid, s.disk, Migrating(m.(at := FailOpening))); }
    } else {
      n := 2;
      var m1, d := m.(at := FailResult(m.at.post)), MigrateTurn(s.disk, m, QUIET).disk;
      GoesNow(s, pid, d, Migrating(m1));
      var t := Left(s, pid, 1);
      MigratingAt(t, pid, m1);
      if m.at.post || m.hold.None? {
        EndsNow(t, pid, AfterRecording(s.disk, m));
      } else {
        GoesNow(t, pid, AfterRecording(s.disk, m), Migrating(m1.(at := FailOpening)));
      }
      LeftAdds(s, pid, 1, 1);
    }
  }

  // Opening the backup root and releasing, for the handler as for a committed migration.
  lemma LetsGo(s: Sys, pid: Pid, m: Migrator)
    requires Inv(s) && pid in s.procs && s.procs[pid] == Migrating(m) && (m.at.FailOpening? || m.at.OpeningRelease?)
    requires s.session.None? && m.hold.Some? && m.hold.value in s.disk.holds
    ensures var t := Left(s, pid, 2);
            Inv(t) && pid !in t.procs && t.disk == s.disk.(holds := EndHolds(s.disk.holds, m.hold, false))
  {
    ReleasingTurns(s.disk, m);
    var m1 := m.(at := if m.at.FailOpening? then FailReleasing else Releasing);
    assert m == m.(at := m.at) && HoldsRollout(Migrating(m1)) == HoldsRollout(Migrating(m));
    assert m.at.FailOpening? ==> m.(at := FailOpening) == m;
    assert m.at.OpeningRelease? ==> m.(at := OpeningRelease) == m;
    hide Inv, DiskInv, MigratorInv, MigrateTurn, TurnOf, Left, EndHolds, HoldsRollout;
    MigratingAt(s, pid, m);
    GoesNow(s, pid, s.disk, Migrating(m1));
    var t := Left(s, pid, 1);
    MigratingAt(t, pid, m1);
    EndsNow(t, pid, s.disk.(holds := EndHolds(s.disk.holds, m.hold, false)));
    LeftAdds(s, pid, 1, 1);
  }

  /** From every reachable state in which a failed migration's handler is next, with the backup root free: left to itself
      it ends with the terminal phase logged and the same result stored, if the last phase allows that, and with the
      hold of a migration that never touched the database released. Nothing else changes. */
  lemma FailureIsRecorded(s: Sys, pid: Pid, m: Migrator)
    requires Reachable(s) && pid in s.procs && s.procs[pid] == Migrating(m) && m.at.FailAppending? && s.session.None?
    ensures m.id in s.disk.journals && (m.id in s.disk.begun <==> m.at.post)
    ensures var t := Left(s, pid, 4);
            && Reachable(t) && pid !in t.procs
            && t.disk == s.disk.(journals := s.disk.journals[m.id := EndJournal(s.disk.journals[m.id], m.at.post)],
                                 holds := EndHolds(s.disk.holds, m.hold, m.at.post))
  {
    hide Reachable, Inv, DiskInv, MigratorInv, Left, EndJournal, TakesTerminal;
    ReachableInv(s);
    LeftIsReachable(s, pid, 4);
    MigratingAt(s, pid, m);
    FailerKnows(s.disk, m);
    var n := Records(s, pid, m);
    if m.at.post || m.hold.None? {
      LeftIsDone(s, pid, n, 4);
    } else {
      LetsGo(Left(s, pid, n), pid, m.(at := FailOpening));
      LeftAdds(s, pid, n, 2);
      LeftIsDone(s, pid, n + 2, 4);
    }
  }

  /** A committed migration left to itself releases its hold. */
  lemma CommittedReleases(s: Sys, pid: Pid, m: Migrator)
    requires Reachable(s) && pid in s.procs && s.procs[pid] == Migrating(m) && m.at.OpeningRelease? && s.session.None?
    ensures m.id in s.disk.journals && s.disk.journals[m.id].result == Some(Committed) && m.hold.Some?
    ensures var t := Left(s, pid, 2);
            && Reachable(t) && pid !in t.procs && t.disk == s.disk.(holds := t.disk.holds)
            && m.hold.value in t.disk.holds && t.disk.holds[m.hold.value].released && t.disk.holds[m.hold.value].migration == m.id
  {
    hide Reachable, Inv, DiskInv, MigratorInv, Left;
    ReachableInv(s);
    LeftIsReachable(s, pid, 2);
    MigratingAt(s, pid, m);
    ClosedKnows(s.disk, m);
    LetsGo(s, pid, m);
  }

  lemma ClosedKnows(d: Disk, m: Migrator)
    requires MigratorInv(m, d) && m.at.OpeningRelease?
    ensures m.id in d.journals && d.journals[m.id].result == Some(Committed)
    ensures m.hold.Some? && m.hold.value in d.holds && d.holds[m.hold.value].migration == m.id
  {
    assert OwnerInv(m, d);
    hide PlanOk, OwnerState;
  }

  // ---------------------------------------------------------------- recoveries

  lemma RecoveringAt(s: Sys, pid: Pid, r: Recoverer)
    requires Inv(s) && pid in s.procs && s.procs[pid] == Recovering(r)
    ensures DiskInv(s.disk) && RecovererInv(r, s.disk)
    ensures TurnOf(s.disk, s.procs[pid], QUIET) == RecoverTurn(s.disk, r, QUIET)
  {
    assert ProcInv(s.procs[pid], s.disk);
    hide DiskInv, RecovererInv, RecoverTurn, LocksOk, OwnersApart;
  }

  lemma RecoveryReleasingTurns(d: Disk, r: Recoverer)
    requires r.hold in d.holds
    ensures RecoverTurn(d, r.(at := RecoverOpening), QUIET) == Continues(d, r, RecoverReleasing)
    ensures RecoverTurn(d, r.(at := RecoverReleasing), QUIET) == Turn(d.(holds := EndHolds(d.holds, Some(r.hold), false)), None)
  {
    assert d.holds[r.hold].released ==> d.holds[r.hold := d.holds[r.hold].(released := true)] == d.holds;
  }

  /** A recovery that comes to opening the backup root and is left to itself ends with its hold released. */
  lemma RecoveryReleases(s: Sys, pid: Pid, r: Recoverer)
    requires Reachable(s) && pid in s.procs && s.procs[pid] == Recovering(r) && r.at.RecoverOpening? && s.session.None?
    ensures r.hold in s.disk.holds && s.disk.holds[r.hold].migration == r.id
    ensures var t := Left(s, pid, 2);
            Reachable(t) && pid !in t.procs && t.disk == s.disk.(holds := EndHolds(s.disk.holds, Some(r.hold), false))
  {
    ReachableInv(s);
    LeftIsReachable(s, pid, 2);
    hide Reachable, Inv, DiskInv, RecoverTurn, TurnOf, Left, EndHolds, HeadSet;
    RecoveringAt(s, pid, r);
    RecoveryReleasingTurns(s.disk, r);
    assert r == r.(at := RecoverOpening);
    var r1 := r.(at := RecoverReleasing);
    GoesNow(s, pid, s.disk, Recovering(r1));
    var t := Left(s, pid, 1);
    RecoveringAt(t, pid, r1);
    EndsNow(t, pid, s.disk.(holds := EndHolds(s.disk.holds, Some(r.hold), false)));
    LeftAdds(s, pid, 1, 1);
  }

  lemma {:induction false} LeftLeads(from: Sys, s: Sys, pid: Pid, n: nat)
    requires Leads(from, s)
    ensures Leads(from, Left(s, pid, n))
    decreases n
  {
    hide Leads, Advance;
    if n > 0 && pid in s.procs {
      assert Next(s, Advance(s, pid, QUIET));
      hide Next;
      LeadsOn(from, s, Advance(s, pid, QUIET));
      LeftLeads(from, Advance(s, pid, QUIET), pid, n - 1);
    }
  }

  // ---------------------------------------------------------------- one hold a migration

  ghost predicate OneHoldEach(holds: map<Id, Hold>) {
    forall g, h :: g in holds && h in holds && holds[g].migration == holds[h].migration ==> g == h
  }

  // Holds stay what they are but for being released, or a migration that has none adds its own.
  ghost predicate HoldsKept(hs: map<Id, Hold>, ks: map<Id, Hold>) {
    && (forall h :: h in hs ==> h in ks && ks[h].migration == hs[h].migration)
    && (forall g, h :: g in ks && g !in hs && h in ks && ks[g].migration == ks[h].migration ==> g == h)
  }

  lemma KeptIsOneEach(hs: map<Id, Hold>, ks: map<Id, Hold>)
    requires OneHoldEach(hs) && HoldsKept(hs, ks)
    ensures OneHoldEach(ks)
  {
    forall g, h | g in ks && h in ks && ks[g].migration == ks[h].migration ensures g == h {}
  }

  lemma SameHoldsKept(hs: map<Id, Hold>)
    ensures HoldsKept(hs, hs)
  {
  }

  lemma ReleaseKeeps(d: Disk, hold: Option<Id>, o: Oracle)
    ensures HoldsKept(d.holds, ReleaseTurn(d, hold, o).disk.holds)
  {
  }

  lemma MigrationKeepsHolds(d: Disk, m: Migrator, o: Oracle)
    requires MigratorInv(m, d)
    ensures HoldsKept(d.holds, MigrateTurn(d, m, o).disk.holds)
  {
    ReleaseKeeps(d, m.hold, o);
    SameHoldsKept(d.holds);
    if m.at == AcquiringHold {
      assert OwnerHold(m, d.holds, d.backups);
      hide OwnerInv, FailInv;
    } else {
      OtherHolds(d, m, o);
    }
  }

  lemma OtherHolds(d: Disk, m: Migrator, o: Oracle)
    requires m.at != AcquiringHold
    ensures var n := MigrateTurn(d, m, o).disk; n.holds == d.holds || n == ReleaseTurn(d, m.hold, o).disk
  {
    hide MayAppend, MayPlan, PlanFor, Publish, PublishEvent, ReleaseTurn;
  }

  lemma RecoveryKeepsHolds(d: Disk, r: Recoverer, o: Oracle)
    ensures HoldsKept(d.holds, RecoverTurn(d, r, o).disk.holds)
  {
    ReleaseKeeps(d, Some(r.hold), o);
    SameHoldsKept(d.holds);
    hide HoldsKept, ReleaseTurn, Publish, PublishEvent, HoldMatches, MayRecover;
  }

  lemma TurnKeepsHolds(d: Disk, p: Proc, o: Oracle)
    requires ProcInv(p, d)
    ensures HoldsKept(d.holds, TurnOf(d, p, o).disk.holds)
  {
    SameHoldsKept(d.holds);
    hide HoldsKept, MigratorInv, RecovererInv, MigrateTurn, RecoverTurn, BackupHeld;
    match p
    case Migrating(m) => MigrationKeepsHolds(d, m, o);
    case Recovering(r) => RecoveryKeepsHolds(d, r, o);
    case Pruning(_, _) =>
  }

  lemma StepKeepsHolds(s: Sys, t: Sys)
    requires Inv(s) && Next(s, t) && OneHoldEach(s.disk.holds)
    ensures OneHoldEach(t.disk.holds)
  {
    hide DiskInv, TurnOf, ProcInv, Starts, LocksOk, OwnersApart, OneHoldEach, HoldsKept;
    if t.disk != s.disk {
      var pid: Pid, o: Oracle :| pid in s.procs && t == Advance(s, pid, o);
      TurnKeepsHolds(s.disk, s.procs[pid], o);
      KeptIsOneEach(s.disk.holds, TurnOf(s.disk, s.procs[pid], o).disk.holds);
    }
  }

  lemma {:induction false} OneHoldInRun(run: seq<Sys>, k: nat)
    requires IsRun(run) && k < |run|
    ensures OneHoldEach(run[k].disk.holds)
  {
    if k > 0 {
      hide *;
      OneHoldInRun(run, k - 1);
      RunInv(run, k - 1);
      RunStep(run, k);
      StepKeepsHolds(run[k - 1], run[k]);
    } else {
      hide Next, Accepted, HeadSet;
    }
  }

  /** No migration ever has two holds. */
  lemma OneHoldAMigration(s: Sys, g: Id, h: Id)
    requires Reachable(s) && g in s.disk.holds && h in s.disk.holds
    requires s.disk.holds[g].migration == s.disk.holds[h].migration
    ensures g == h
  {
    hide Next, Init;
    var run :| IsRun(run) && run[|run| - 1] == s;
    OneHoldInRun(run, |run| - 1);
  }

  lemma ReleasedIsFree(s: Sys, h: Id, holds: map<Id, Hold>)
    requires Reachable(s) && h in s.disk.holds && holds == EndHolds(s.disk.holds, Some(h), false)
    ensures !HasActiveHold(holds, s.disk.holds[h].migration)
  {
    hide Reachable;
    forall g | g in holds && holds[g].migration == s.disk.holds[h].migration ensures g == h {
      OneHoldAMigration(s, g, h);
    }
  }

  // ---------------------------------------------------------------- release_hold, and both accept actions

  lemma ReachRelease(s: Sys, pid: Pid, id: Id, plan: Plan, h: Id, before: Current) returns (t: Sys, r: Recoverer)
    requires pid !in s.procs && s.rollout.None? && s.session.None?
    requires id in s.disk.journals && s.disk.journals[id].plan == Some(plan)
    requires s.disk.journals[id].result == Some(Committed) && s.disk.journals[id].resolution.None?
    requires HoldMatches(s.disk, h, id, plan)
    ensures Leads(s, t) && t.disk == s.disk && t.session.None? && pid in t.procs && t.procs[pid] == Recovering(r)
    ensures r.at == RecoverOpening && r.id == id && r.hold == h
  {
    hide Leads, HoldMatches;
    var r0 := Recoverer(Reading, id, ReleaseHold, None, plan, before, "");
    var t0 := Begins(s, pid, Recovering(r0));
    var r1 := r0.(at := RecoverWantLock, seen := Some(Committed));
    assert ReadTurn(s.disk, r0) == Turn(s.disk, Some(Recovering(r1)));
    var t1 := Advances(s, t0, pid, QUIET, s.disk, Recovering(r1));
    var r2 := r1.(at := Checking);
    var t2 := Advances(s, t1, pid, QUIET, s.disk, Recovering(r2));
    r := r2.(at := RecoverOpening, hold := h, before := s.disk.current);
    assert CheckTurn(s.disk, r2, QUIET.(pick := h)) == Turn(s.disk, Some(Recovering(r)));
    t := Advances(s, t2, pid, QUIET.(pick := h), s.disk, Recovering(r));
  }

  /** From every reachable state with a committed migration whose hold is still active and fits its plan, release_hold by
      itself frees its backup and changes nothing else. */
  lemma ReleaseHoldFrees(s: Sys, pid: Pid, id: Id, h: Id) returns (t: Sys)
    requires Reachable(s) && pid !in s.procs && s.rollout.None? && s.session.None?
    requires id in s.disk.journals && s.disk.journals[id].result == Some(Committed) && s.disk.journals[id].plan.Some?
    requires HoldMatches(s.disk, h, id, s.disk.journals[id].plan.value)
    ensures Leads(s, t) && Reachable(t) && pid !in t.procs && !HasActiveHold(t.disk.holds, id)
    ensures t.disk == s.disk.(holds := s.disk.holds[h := s.disk.holds[h].(released := true)])
  {
    CommittedIsUnresolved(s, id);
    hide Leads, Reachable, Left, HasActiveHold;
    var u, r := ReachRelease(s, pid, id, s.disk.journals[id].plan.value, h, s.disk.current);
    LeadsReachable(s, u);
    RecoveryReleases(u, pid, r);
    t := Left(u, pid, 2);
    LeftLeads(s, u, pid, 2);
    ReleasedIsFree(s, h, t.disk.holds);
  }

  lemma CommittedIsUnresolved(s: Sys, id: Id)
    requires Reachable(s) && id in s.disk.journals && s.disk.journals[id].result == Some(Committed)
    ensures s.disk.journals[id].resolution.None?
  {
    ReachableInv(s);
    hide Reachable, OpensOk, HoldsOk, CurrentOk, QuietOk, OneOpen, PlanOk, IsPath, LocksOk, OwnersApart, ProcsOk;
    assert JournalOk(id, s.disk.journals[id], id in s.disk.begun);
  }

  /** And where an accept action applies, that recovery ends with the migration resolved, nothing open and its backup free. */
  lemma AcceptFrees(s: Sys, pid: Pid, id: Id, action: Action, h: Id) returns (t: Sys)
    requires Reachable(s) && pid !in s.procs && s.rollout.None? && s.session.None?
    requires Unresolved(s.disk.journals, id) && s.disk.journals[id].result == Some(RequiresRecovery)
    requires Acceptable(s.disk, id, action, h)
    ensures Leads(s, t) && Reachable(t) && pid !in t.procs && !HasActiveHold(t.disk.holds, id)
    ensures id in t.disk.journals && t.disk.journals[id].resolution == Some(action)
    ensures forall other :: !Unresolved(t.disk.journals, other)
    ensures HeadSet(t.disk.current) == t.disk.live
  {
    hide Leads, Reachable, Left, HasActiveHold, HeadSet, EndHolds;
    var u := RecoveryResolves(s, pid, id, action, h);
    RecoveryReleases(u, pid, u.procs[pid].r);
    t := Left(u, pid, 2);
    LeftLeads(s, u, pid, 2);
    ReleasedIsFree(s, h, t.disk.holds);
  }

  // ---------------------------------------------------------------- a prune by itself

  ghost function Free(d: Disk, todo: set<Id>): set<Id> {
    set backup | backup in todo && !BackupHeld(d, backup)
  }

  lemma PruneAdvances(from: Sys, s: Sys, pid: Pid, o: Oracle, n: Disk, todo: set<Id>) returns (t: Sys)
    requires Leads(from, s) && pid in s.procs && s.procs[pid].Pruning?
    requires PruneTurn(s.disk, s.procs[pid], o) == Turn(n, Some(Pruning(true, todo)))
    requires s.session.None? || s.session == Some(pid)
    ensures Leads(from, t) && t.disk == n && t.procs == s.procs[pid := Pruning(true, todo)] && t.session == Some(pid)
  {
    hide PruneTurn, Leads;
    t := Advance(s, pid, o);
    assert Next(s, t);
    LeadsOn(from, s, t);
  }

  lemma {:induction false} PruneGoesOn(from: Sys, s: Sys, pid: Pid, todo: set<Id>) returns (t: Sys)
    requires Leads(from, s) && pid in s.procs && s.procs[pid] == Pruning(true, todo) && s.session == Some(pid)
    ensures Leads(from, t) && t.disk == s.disk.(backups := s.disk.backups - Free(s.disk, todo))
    ensures t.procs == s.procs[pid := Pruning(true, {})] && t.session == Some(pid)
    decreases todo
  {
    hide Leads, BackupHeld;
    if todo == {} {
      t := s;
    } else {
      var backup :| backup in todo;
      var n := PruneTurn(s.disk, s.procs[pid], QUIET.(pick := backup)).disk;
      var u := PruneAdvances(from, s, pid, QUIET.(pick := backup), n, todo - {backup});
      assert n.holds == s.disk.holds;
      SameHeld(s.disk, n);
      t := PruneGoesOn(from, u, pid, todo - {backup});
      assert Free(s.disk, todo) == Free(s.disk, todo - {backup}) + if BackupHeld(s.disk, backup) then {} else {backup};
    }
  }

  lemma SameHeld(d: Disk, n: Disk)
    requires n.holds == d.holds
    ensures forall backup :: BackupHeld(n, backup) <==> BackupHeld(d, backup)
  {
  }

  /** A prune by itself deletes exactly those of its candidates that no unreleased hold is for. */
  lemma FreeBackupsGo(s: Sys, pid: Pid, todo: set<Id>) returns (t: Sys)
    requires pid !in s.procs && s.session.None?
    ensures Leads(s, t) && pid !in t.procs && t.disk == s.disk.(backups := s.disk.backups - Free(s.disk, todo))
  {
    hide Leads, BackupHeld, Free;
    var s0 := Begins(s, pid, Pruning(false, {}));
    var s1 := PruneAdvances(s, s0, pid, QUIET.(todo := todo), s.disk, todo);
    var s2 := PruneGoesOn(s, s1, pid, todo);
    assert PruneTurn(s2.disk, s2.procs[pid], QUIET) == Turn(s2.disk, None);
    t := Advance(s2, pid, QUIET);
    assert Next(s2, t);
    LeadsOn(s, s2, t);
  }
}
