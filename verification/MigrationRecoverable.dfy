/** Which open migrations can still be resolved, exactly, and a reachable one that could be and is lost. */
module MigrationRecoverable {
  import opened Wrappers
  import opened Phases
  import opened CurrentState
  import opened MigrationProtocol
  import opened MigrationInvariant
  import opened MigrationSteps
  import opened MigrationFrame
  import opened MigrationSafety
  import opened MigrationLiveness
  import opened MigrationProgress
  import opened MigrationStuck
  import MigrationTheorems

  // ---------------------------------------------------------------- the exact condition

  // Nobody is at work on this journal: no migration of its own, no recovery past its checks.
  ghost predicate Unattended(s: Sys, id: Id) {
    && NobodyConcludes(s, id)
    && forall pid: Pid :: pid in s.procs && Owner(s.procs[pid]) ==> s.procs[pid].m.id != id
  }

  // It recorded that it needs recovery, and one of the two actions fits heads, document and hold.
  ghost predicate Recoverable(d: Disk, id: Id) {
    && id in d.journals && d.journals[id].result == Some(RequiresRecovery)
    && exists action, h :: Acceptable(d, id, action, h)
  }

  ghost predicate CanBeResolved(s: Sys, id: Id) {
    exists t :: Leads(s, t) && !Unresolved(t.disk.journals, id)
  }

  lemma {:induction false} UnusedPid(used: set<Pid>) returns (pid: Pid)
    ensures forall q :: q in used ==> q < pid
  {
    if used == {} {
      pid := 0;
    } else {
      var q :| q in used;
      var n := UnusedPid(used - {q});
      pid := if q < n then n else q + 1;
      assert forall p :: p in used ==> p == q || p in used - {q};
    }
  }

  lemma {:induction false} LeadsAlong(s: Sys, run: seq<Sys>, k: nat)
    requires IsSegment(run) && Leads(s, run[0]) && k < |run|
    ensures Leads(s, run[k])
  {
    hide Leads, Next;
    if k > 0 {
      LeadsAlong(s, run, k - 1);
      LeadsOn(s, run[k - 1], run[k]);
    }
  }

  lemma LeadsThrough(s: Sys, t: Sys, u: Sys)
    requires Leads(s, t) && Leads(t, u)
    ensures Leads(s, u)
  {
    hide Next;
    var run :| IsSegment(run) && run[0] == t && run[|run| - 1] == u;
    LeadsAlong(s, run, |run| - 1);
  }

  lemma Crashes(s: Sys, t: Sys, pid: Pid) returns (u: Sys)
    requires Leads(s, t) && pid in t.procs
    ensures Leads(s, u) && u == Crash(t, pid)
  {
    hide Leads;
    u := Crash(t, pid);
    assert Next(t, u);
    LeadsOn(s, t, u);
  }

  // Whoever holds a lock may die, and the locks are free over the same disk.
  lemma Freed(s: Sys) returns (t: Sys)
    requires Reachable(s)
    ensures Leads(s, t) && t.disk == s.disk && t.rollout.None? && t.session.None?
  {
    ReachableInv(s);
    hide Reachable, Leads, DiskInv, ProcsOk, OwnersApart, HoldsRollout, HoldsSession;
    LeadsSelf(s);
    t := s;
    if s.rollout.Some? { t := Crashes(s, t, s.rollout.value); }
    if t.session.Some? { t := Crashes(s, t, t.session.value); }
  }

  lemma RecoverableResolves(s: Sys, id: Id)
    requires Reachable(s) && Unresolved(s.disk.journals, id) && Recoverable(s.disk, id)
    ensures CanBeResolved(s, id)
  {
    hide Reachable, Leads, Acceptable;
    var action, h :| Acceptable(s.disk, id, action, h);
    var t := Freed(s);
    LeadsReachable(s, t);
    var pid := UnusedPid(t.procs.Keys);
    var u := RecoveryResolves(t, pid, id, action, h);
    LeadsThrough(s, t, u);
    assert !Unresolved(u.disk.journals, id);
  }

  lemma HopelessIsNot(s: Sys, id: Id)
    requires Reachable(s) && Hopeless(s, id)
    ensures !CanBeResolved(s, id)
  {
    hide Reachable, Hopeless, Next;
    forall t | Leads(s, t) ensures Unresolved(t.disk.journals, id) {
      var run :| IsSegment(run) && run[0] == s && run[|run| - 1] == t;
      HopelessForever(run, |run| - 1, id);
      HopelessIsOpen(t, id);
    }
  }

  lemma HopelessIsOpen(s: Sys, id: Id)
    requires Hopeless(s, id)
    ensures Unresolved(s.disk.journals, id)
  {
  }

  lemma {:induction false} OrphanAlong(run: seq<Sys>, k: nat, id: Id)
    requires IsSegment(run) && Reachable(run[0]) && k < |run| && MigrationTheorems.Orphaned(run[0], id)
    ensures MigrationTheorems.Orphaned(run[k], id)
  {
    hide *;
    if k > 0 {
      OrphanAlong(run, k - 1, id);
      SegmentReachable(run, k - 1);
      ReachableInv(run[k - 1]);
      SegmentStep(run, k);
      MigrationTheorems.OrphanStays(run[k - 1], run[k], id);
    }
  }

  lemma OrphanIsNot(s: Sys, id: Id)
    requires Reachable(s) && MigrationTheorems.Orphaned(s, id)
    ensures !CanBeResolved(s, id)
  {
    hide Reachable, Next;
    forall t | Leads(s, t) ensures Unresolved(t.disk.journals, id) {
      var run :| IsSegment(run) && run[0] == s && run[|run| - 1] == t;
      OrphanAlong(run, |run| - 1, id);
    }
  }

  // What an open journal can be.
  lemma OpenKinds(s: Sys, id: Id)
    requires Reachable(s) && Unresolved(s.disk.journals, id)
    ensures var j := s.disk.journals[id]; j.result.None? || Awaits(s.disk, id)
  {
    ReachableInv(s);
    hide Reachable, IsPath, PlanOk, OpensOk, HoldsOk, CurrentOk, QuietOk, LocksOk, OwnersApart, ProcsOk;
    assert JournalOk(id, s.disk.journals[id], id in s.disk.begun);
  }

  /** From every reachable state with nobody at work on an open journal: some run closes it exactly when it recorded that
      it needs recovery and the live heads, current.json and an active hold are those of one of the two actions. */
  lemma ResolvedIff(s: Sys, id: Id)
    requires Reachable(s) && Unresolved(s.disk.journals, id) && Unattended(s, id)
    ensures CanBeResolved(s, id) <==> Recoverable(s.disk, id)
  {
    OpenKinds(s, id);
    hide Reachable, CanBeResolved, Acceptable, Owner;
    if Recoverable(s.disk, id) {
      RecoverableResolves(s, id);
    } else if s.disk.journals[id].result.None? {
      OrphanIsNot(s, id);
    } else {
      HopelessIsNot(s, id);
    }
  }

  // ---------------------------------------------------------------- a migration that needs recovery

  // The hold, once there, is the one a recovery looks for.
  ghost predicate Fits(m: Migrator, d: Disk) {
    && m.plan.graph == ""
    && (Position(m.at) > 6 ==> m.hold.Some? && HoldMatches(d, m.hold.value, m.id, m.plan))
  }

  lemma FitsOn(d: Disk, m: Migrator, o: Oracle, next: Migrator)
    requires StepsOn(d, m, o, next) && Fits(m, d) && Position(m.at) < 12 && o.graph == ""
    ensures Fits(next, MigrateTurn(d, m, o).disk)
  {
    hide MayAppend, PublishEvent, Publish, PlanFor, MayPlan;
  }

  // A migration by itself gets as far as Alembic.
  lemma {:induction false} ReachesAlembic(from: Sys, s: Sys, pid: Pid, m: Migrator) returns (t: Sys, n: Migrator)
    requires Leads(from, s) && Inv(s) && Sole(s, pid, m) && OnTrack(m, s.disk) && Fits(m, s.disk) && Position(m.at) <= 12
    ensures Leads(from, t) && Inv(t) && Sole(t, pid, n) && Fits(n, t.disk) && Position(n.at) == 12 && n.id == m.id
    decreases 12 - Position(m.at)
  {
    hide Leads, Inv, Next, Sole, OnTrack, OwnerInv, DiskInv, StepsOn, Fits;
    SoleIsOwner(s, pid, m);
    if Position(m.at) == 12 {
      t, n := s, m;
    } else {
      var o, next := GoesOn(s.disk, m);
      NextPosition(s.disk, m, o, next);
      FitsOn(s.disk, m, o, next);

      var u := SoleAdvances(s, pid, m, o, next);
      LeadsOn(from, s, u);
      t, n := ReachesAlembic(from, u, pid, next);
    }
  }

  // What the owner knows where Alembic is about to start.
  lemma AtAlembic(d: Disk, m: Migrator)
    requires OwnerInv(m, d) && Position(m.at) == 12
    ensures m.at == Upgrading && m.id in d.journals && d.journals[m.id].plan == Some(m.plan)
    ensures d.journals[m.id].result.None? && d.journals[m.id].resolution.None? && OfIndented(d.current) == m.plan.base
    ensures d.journals[m.id].log != [] && d.journals[m.id].log[|d.journals[m.id].log| - 1] == Started
  {
    hide PlanOk, OwnerHold;
    assert HAPPY[..6][5] == Started;
  }

  // Alembic leaves the target heads and raises, and the handler records it.
  function Recorded(d: Disk, m: Migrator): Disk
    requires m.id in d.journals
  {
    WriteResult(AppendEvent(Upgrade(d, m.id, m.plan.target), m.id, RequiresRecovery), m.id, RequiresRecovery)
  }

  lemma HandlerTurns(d: Disk, m: Migrator)
    requires OwnerInv(m, d) && Position(m.at) == 12
    ensures m.id in d.journals
    ensures var up := Upgrade(d, m.id, m.plan.target); var logged := AppendEvent(up, m.id, RequiresRecovery);
            && MigrateTurn(d, m, QUIET.(outcome := Raised, heads := m.plan.target))
               == Turn(up, Some(Migrating(m.(at := FailAppending(true)))))
            && MigrateTurn(up, m.(at := FailAppending(true)), QUIET) == Turn(logged, Some(Migrating(m.(at := FailResult(true)))))
            && MigrateTurn(logged, m.(at := FailResult(true)), QUIET) == Turn(Recorded(d, m), None)
  {
    AtAlembic(d, m);
    hide OwnerInv, Position;
  }

  // The last step of a process.
  lemma Leaves(s: Sys, pid: Pid, o: Oracle)
    requires Inv(s) && pid in s.procs && s.procs.Keys == {pid} && TurnOf(s.disk, s.procs[pid], o).proc.None?
    ensures Next(s, Advance(s, pid, o)) && Advance(s, pid, o).disk == TurnOf(s.disk, s.procs[pid], o).disk
    ensures var t := Advance(s, pid, o); t.procs == map[] && t.rollout.None? && t.session.None?
  {
    hide TurnOf, DiskInv, ProcsOk, OwnersApart, HoldsRollout, HoldsSession;
    assert s.procs - {pid} == map[];
  }

  lemma GoesAlone(from: Sys, s: Sys, pid: Pid, m: Migrator, o: Oracle, n: Disk, next: Migrator) returns (t: Sys)
    requires Leads(from, s) && Inv(s) && s.procs == map[pid := Migrating(m)]
    requires MigrateTurn(s.disk, m, o) == Turn(n, Some(Migrating(next)))
    ensures Leads(from, t) && Inv(t) && t.procs == map[pid := Migrating(next)] && t.disk == n
  {
    hide Leads, Inv, MigrateTurn, TurnOf, Advance, Next;
    assert pid in s.procs && s.procs[pid] == Migrating(m) && s.procs.Keys == {pid};
    OnlyItsLocks(s, pid);
    TurnOfMigrating(s.disk, m, o);
    Unhindered(s, pid, o, Migrating(next));
    AdvanceInv(s, pid, o);
    t := Advance(s, pid, o);
    LeadsOn(from, s, t);
    assert map[pid := Migrating(m)][pid := Migrating(next)] == map[pid := Migrating(next)];
  }

  lemma OnlyItsLocks(s: Sys, pid: Pid)
    requires Inv(s) && s.procs.Keys == {pid}
    ensures s.rollout.None? || s.rollout == Some(pid)
    ensures s.session.None? || s.session == Some(pid)
  {
    hide DiskInv, ProcsOk, OwnersApart, HoldsRollout, HoldsSession;
  }

  lemma FailsAfterAlembic(from: Sys, s: Sys, pid: Pid, m: Migrator) returns (t: Sys)
    requires Leads(from, s) && Inv(s) && Sole(s, pid, m) && Position(m.at) == 12
    ensures Leads(from, t) && t.procs == map[] && t.rollout.None? && t.session.None?
    ensures m.id in s.disk.journals && t.disk == Recorded(s.disk, m)
  {
    hide Leads, Inv, OwnerInv, DiskInv, MigrateTurn, Position, TurnOf, Advance, Next, Recorded;
    SoleIsOwner(s, pid, m);
    HandlerTurns(s.disk, m);
    var up := Upgrade(s.disk, m.id, m.plan.target);
    var m1, m2 := m.(at := FailAppending(true)), m.(at := FailResult(true));
    var t1 := GoesAlone(from, s, pid, m, QUIET.(outcome := Raised, heads := m.plan.target), up, m1);
    var t2 := GoesAlone(from, t1, pid, m1, QUIET, AppendEvent(up, m.id, RequiresRecovery), m2);
    assert pid in t2.procs && t2.procs[pid] == Migrating(m2) && t2.procs.Keys == {pid};
    TurnOfMigrating(t2.disk, m2, QUIET);
    Leaves(t2, pid, QUIET);
    t := Advance(t2, pid, QUIET);
    LeadsOn(from, t2, t);
  }

  lemma RecordedIsAcceptable(d: Disk, m: Migrator)
    requires OwnerInv(m, d) && Fits(m, d) && Position(m.at) == 12
    ensures m.id in d.journals && m.hold.Some?
    ensures var n := Recorded(d, m);
            && Awaits(n, m.id) && Unresolved(n.journals, m.id) && Acceptable(n, m.id, AcceptTarget, m.hold.value)
  {
    AtAlembic(d, m);
    hide OwnerInv, Position;
  }

  /** From every reachable state in which nothing is open and nobody is at work, a migration can come to need recovery with
      accept_target applying. */
  lemma ComesToAwait(s: Sys, o: Oracle, m: Migrator) returns (t: Sys, h: Id)
    requires Reachable(s) && s.procs == map[] && s.rollout.None? && s.session.None?
    requires (forall id :: !Unresolved(s.disk.journals, id)) && o.pick !in s.disk.journals
    requires o.heads != {} && o.heads != HeadSet(s.disk.current) && o.outcome == Done && o.graph == "" && m.at == WantLock
    ensures Reachable(t) && t.procs == map[] && t.rollout.None? && t.session.None?
    ensures Unresolved(t.disk.journals, o.pick) && Awaits(t.disk, o.pick) && Acceptable(t.disk, o.pick, AcceptTarget, h)
  {
    MayPlanIff(s, o);
    hide Reachable, Leads, MayPlan, Inv, OwnerInv, Recorded, Acceptable, HeadSet, PlanFor;
    var u, next := MigrationLiveness.JournalCreated(s, 0, o, m);
    LeadsReachable(s, u);
    ReachableInv(u);
    var v, n := ReachesAlembic(s, u, 0, next);
    SoleIsOwner(v, 0, n);
    RecordedIsAcceptable(v.disk, n);
    h := n.hold.value;
    t := FailsAfterAlembic(s, v, 0, n);
    LeadsReachable(s, t);
  }

  /** The concrete case: a first migration fails after Alembic, accept_target applies, publishes and dies, and no run
      resolves the journal any more. */
  lemma StrandedHappens() returns (s: Sys, t: Sys, id: Id)
    ensures Reachable(s) && Recoverable(s.disk, id) && CanBeResolved(s, id)
    ensures Reachable(t) && Stranded(t, id) && !CanBeResolved(t, id)
  {
    var first, o := FirstState();
    var plan := Plan({}, {}, "", "", "", OfIndented(first.disk.current), OfIndented(first.disk.current));
    hide Reachable, CanBeResolved, Acceptable, Inv, Hopeless, Stranded;
    var h;
    MayPlanIff(first, o);
    s, h := ComesToAwait(first, o.(graph := ""), Migrator(WantLock, "", plan, first.disk.current, "", None));
    id := o.pick;
    RecoverableResolves(s, id);
    t := DyingAfterPublishing(s, 0, id, h);
    ReachableInv(t);
    StrandedIsHopeless(t, id);
    HopelessIsNot(t, id);
  }
}
