/** A migration left to itself can always be completed: the protocol is safe, and it is not stuck. */
module MigrationProgress {
  import opened Wrappers
  import opened Phases
  import opened CurrentState
  import opened MigrationProtocol
  import opened MigrationInvariant
  import opened MigrationSteps
  import opened MigrationSafety
  import opened MigrationLiveness
  import MigrationTheorems

  // How far along the locked section a point is.
  function Position(at: MigrateAt): (n: nat)
    ensures n <= 23
  {
    match at
    case WritingPlan => 0
    case Appending(phase) => AppendPosition(phase)
    case OpeningSession => 3
    case CreatingBackup => 4
    case AcquiringHold => 6
    case ClosingSession => 8
    case CheckingSource => 9
    case Upgrading => 12
    case CheckingTarget => 14
    case ComparingState => 17
    case Publishing => 18
    case WritingResult => 21
    case OpeningRelease => 22
    case _ => 23
  }

  function AppendPosition(phase: Phase): (n: nat)
    ensures n <= 23
  {
    match phase
    case Planned => 1
    case BackupStarted => 2
    case BackupVerified => 5
    case HoldAcquired => 7
    case Revalidated => 10
    case Started => 11
    case CommandCompleted => 13
    case TargetHeadsVerified => 15
    case Stabilized => 16
    case StateCommitted => 19
    case Committed => 20
    case Failed => 23
    case RequiresRecovery => 23
  }

  // Once Alembic was run, completing takes the target heads to be live.
  predicate OnTrack(m: Migrator, d: Disk) {
    Position(m.at) > 12 ==> d.live == m.plan.target
  }

  lemma {:induction false} Longer(used: set<string>) returns (n: nat)
    ensures forall x :: x in used ==> |x| < n
  {
    if used == {} {
      n := 0;
    } else {
      var x :| x in used;
      var k := Longer(used - {x});
      n := if |x| < k then k else |x| + 1;
      assert forall y :: y in used ==> y == x || y in used - {x};
    }
  }

  lemma UnusedId(used: set<string>) returns (id: string)
    ensures id !in used
  {
    var n := Longer(used);
    id := seq(n, _ => 'a');
  }

  // ---------------------------------------------------------------- one step on

  ghost predicate StepsOn(d: Disk, m: Migrator, o: Oracle, next: Migrator) {
    && MigrateTurn(d, m, o).proc == Some(Migrating(next))
    && Position(next.at) == Position(m.at) + 1 && next.id == m.id && OnTrack(next, MigrateTurn(d, m, o).disk)
  }

  lemma AppendsOn(d: Disk, m: Migrator) returns (next: Migrator)
    requires OwnerInv(m, d) && m.at.Appending? && OnTrack(m, d)
    ensures StepsOn(d, m, QUIET, next)
  {
    hide OwnerInv, MayAppend, Fails, HoldTurn, PlanTurn, PublishTurn, ReleaseTurn, FailTurn;
    OwnerLog(m, d);
    HappyStep(m.at.phase);
    AfterPosition(m.at.phase);
    hide After, Position;
    next := m.(at := After(m.at.phase), before := if m.at.phase == BackupStarted then d.current else m.before);
  }

  lemma AfterPosition(phase: Phase)
    requires phase != Failed && phase != RequiresRecovery
    ensures Position(After(phase)) == Position(Appending(phase)) + 1
    ensures Position(After(phase)) > 12 ==> Position(Appending(phase)) > 12 || phase == Started
    ensures phase == Started ==> Position(After(phase)) == 12
  {
  }

  lemma OwnerLog(m: Migrator, d: Disk)
    requires OwnerInv(m, d)
    ensures m.id in d.journals && d.journals[m.id].log == HAPPY[..Logged(m.at)]
    ensures !Closed(m.at) ==> d.journals[m.id].result.None?
    ensures Closed(m.at) ==> d.journals[m.id].result == Some(Committed)
    ensures Owning(m.at)
  {
    hide PlanOk, OwnerHold, OwnerState;
  }

  lemma SourceIsLive(d: Disk, m: Migrator)
    requires DiskInv(d) && OwnerInv(m, d) && BeforeUpgrade(m.at) && m.at != WritingPlan
    ensures d.live == m.plan.source
  {
    assert Unresolved(d.journals, m.id);
    hide Accepted, PublishedBy, JournalsOk, OneOpen, HoldsOk, CurrentOk, QuietOk, OwnerHold, HasActiveHold;
  }

  lemma Compared(d: Disk, m: Migrator)
    requires OwnerInv(m, d) && m.at == ComparingState
    ensures OfIndented(d.current) == m.plan.base
  {
    hide OwnerJournal, OwnerHold;
  }

  lemma LooksOn(d: Disk, m: Migrator) returns (next: Migrator)
    requires DiskInv(d) && OwnerInv(m, d) && OnTrack(m, d)
    requires m.at in {OpeningSession, ClosingSession, CheckingSource, CheckingTarget, ComparingState}
    ensures StepsOn(d, m, QUIET, next)
  {
    hide DiskInv, OwnerInv, Fails, HoldTurn, PlanTurn, AppendTurn, PublishTurn, ReleaseTurn, FailTurn;
    if m.at == CheckingSource { SourceIsLive(d, m); }
    if m.at == ComparingState { Compared(d, m); }
    match m.at
    case OpeningSession => next := m.(at := CreatingBackup);
    case ClosingSession => next := m.(at := CheckingSource);
    case CheckingSource => next := m.(at := Appending(Revalidated));
    case CheckingTarget => next := m.(at := Appending(TargetHeadsVerified));
    case ComparingState => next := m.(at := Publishing);
  }

  // The names made up must be new, and Alembic must come to the target.
  lemma CreatesOn(d: Disk, m: Migrator) returns (o: Oracle, next: Migrator)
    requires OwnerInv(m, d) && OnTrack(m, d)
    requires m.at == CreatingBackup || m.at == AcquiringHold || m.at == Upgrading
    ensures StepsOn(d, m, o, next) && o.graph == "" && o.outcome == Done
  {
    hide OwnerInv, Fails, PlanTurn, AppendTurn, PublishTurn, ReleaseTurn, FailTurn;
    match m.at
    case CreatingBackup =>
      var id := UnusedId(d.backups);
      o, next := QUIET.(pick := id), m.(at := Appending(BackupVerified), backup := id);
    case AcquiringHold =>
      var id := UnusedId(d.holds.Keys);
      o, next := QUIET.(pick := id), m.(at := Appending(HoldAcquired), hold := Some(id));
    case Upgrading => o, next := QUIET.(heads := m.plan.target), m.(at := Appending(CommandCompleted));
  }

  lemma WritesOn(d: Disk, m: Migrator) returns (next: Migrator)
    requires DiskInv(d) && OwnerInv(m, d) && OnTrack(m, d)
    requires m.at == WritingPlan || m.at == Publishing || m.at == WritingResult
    ensures StepsOn(d, m, QUIET, next)
  {
    hide DiskInv, OwnerInv, Publish, PublishEvent, Accepted, PublishedBy, Fails, PlanTurn, AppendTurn, HoldTurn,
      ReleaseTurn, FailTurn;
    OwnerLog(m, d);
    if m.at == Publishing { PublishOwner(d, m, ""); }
    match m.at
    case WritingPlan => next := m.(at := Appending(Planned));
    case Publishing => next := m.(at := Appending(StateCommitted));
    case WritingResult => next := m.(at := OpeningRelease);
  }

  lemma PositionsBefore(m: Migrator)
    requires Position(m.at) < 22
    ensures m.at.Appending? || m.at in {OpeningSession, ClosingSession, CheckingSource, CheckingTarget, ComparingState}
            || m.at in {CreatingBackup, AcquiringHold, Upgrading, WritingPlan, Publishing, WritingResult}
  {
  }

  lemma GoesOn(d: Disk, m: Migrator) returns (o: Oracle, next: Migrator)
    requires DiskInv(d) && OwnerInv(m, d) && OnTrack(m, d) && Position(m.at) < 22
    ensures StepsOn(d, m, o, next) && o.graph == "" && o.outcome == Done
  {
    PositionsBefore(m);
    hide DiskInv, OwnerInv, OnTrack, StepsOn, Position, Owning;
    o := QUIET;
    if m.at.Appending? {
      next := AppendsOn(d, m);
    } else if m.at in {OpeningSession, ClosingSession, CheckingSource, CheckingTarget, ComparingState} {
      next := LooksOn(d, m);
    } else if m.at == CreatingBackup || m.at == AcquiringHold || m.at == Upgrading {
      o, next := CreatesOn(d, m);
    } else {
      next := WritesOn(d, m);
    }
  }

  // ---------------------------------------------------------------- to the end

  // One migration in its locked section, and nobody else.
  ghost predicate Sole(s: Sys, pid: Pid, m: Migrator) {
    s.procs == map[pid := Migrating(m)] && Position(m.at) <= 22
  }

  lemma SoleIsOwner(s: Sys, pid: Pid, m: Migrator)
    requires Inv(s) && Sole(s, pid, m)
    ensures OwnerInv(m, s.disk) && DiskInv(s.disk)
    ensures s.rollout.None? || s.rollout == Some(pid)
    ensures s.session.None? || s.session == Some(pid)
  {
    assert pid in s.procs && ProcInv(s.procs[pid], s.disk);
    hide OwnerInv, DiskInv, OwnersApart;
  }

  // A process whose locks are free or its own takes its step.
  lemma Unhindered(s: Sys, pid: Pid, o: Oracle, p: Proc)
    requires pid in s.procs && TurnOf(s.disk, s.procs[pid], o).proc == Some(p)
    requires s.rollout.None? || s.rollout == Some(pid)
    requires s.session.None? || s.session == Some(pid)
    ensures Next(s, Advance(s, pid, o)) && Advance(s, pid, o).disk == TurnOf(s.disk, s.procs[pid], o).disk
    ensures Advance(s, pid, o).procs == s.procs[pid := p]
  {
    hide TurnOf, HoldsRollout, HoldsSession;
  }

  lemma SoleAdvances(s: Sys, pid: Pid, m: Migrator, o: Oracle, next: Migrator) returns (t: Sys)
    requires Inv(s) && Sole(s, pid, m) && StepsOn(s.disk, m, o, next) && Position(m.at) < 22
    ensures Next(s, t) && Inv(t) && Sole(t, pid, next) && OnTrack(next, t.disk) && t.disk == MigrateTurn(s.disk, m, o).disk
  {
    hide Inv, MigrateTurn, TurnOf, OwnerInv, DiskInv, OnTrack, Advance, Next;
    SoleIsOwner(s, pid, m);
    TurnOfMigrating(s.disk, m, o);
    Unhindered(s, pid, o, Migrating(next));
    AdvanceInv(s, pid, o);
    t := Advance(s, pid, o);
    assert map[pid := Migrating(m)][pid := Migrating(next)] == map[pid := Migrating(next)];
  }

  /** From every state it can get into, a migration that is alone in its locked section can go on until its result
      is committed; after Alembic that takes no more than the target heads being live. */
  lemma {:induction false} CanComplete(from: Sys, s: Sys, pid: Pid, m: Migrator) returns (t: Sys)
    requires Leads(from, s) && Inv(s) && Sole(s, pid, m) && OnTrack(m, s.disk)
    ensures Leads(from, t) && m.id in t.disk.journals && t.disk.journals[m.id].result == Some(Committed)
    ensures t.disk.journals[m.id].plan == Some(m.plan)
    ensures if Position(m.at) == 22 then t == s else PublishedBy(t.disk.current, m.id, m.plan) && t.disk.live == m.plan.target
    decreases 22 - Position(m.at)
  {
    hide Leads, Inv, Next, Sole, OnTrack, OwnerInv, DiskInv, StepsOn, PublishedBy, MigrateTurn;
    SoleIsOwner(s, pid, m);
    SolePosition(s, pid, m);
    if Position(m.at) == 22 {
      t := s;
      OwnerLog(m, s.disk);
      LastIsClosed(m);
      LastHasPlan(m, s.disk);
    } else {
      var o, next := GoesOn(s.disk, m);
      NextPosition(s.disk, m, o, next);
      PlanStays(s.disk, m, o, next);
      var u := SoleAdvances(s, pid, m, o, next);
      LeadsOn(from, s, u);
      if Position(m.at) == 21 { ResultKeepsTheRest(s.disk, m, o); }
      t := CanComplete(from, u, pid, next);
    }
  }

  lemma SolePosition(s: Sys, pid: Pid, m: Migrator)
    requires Sole(s, pid, m)
    ensures Position(m.at) <= 22
  {
  }

  lemma NextPosition(d: Disk, m: Migrator, o: Oracle, next: Migrator)
    requires StepsOn(d, m, o, next)
    ensures Position(next.at) == Position(m.at) + 1 && next.id == m.id
  {
    hide MigrateTurn;
  }

  lemma PlanStays(d: Disk, m: Migrator, o: Oracle, next: Migrator)
    requires StepsOn(d, m, o, next) && Position(m.at) < 22
    ensures next.plan == m.plan
  {
    hide AppendEvent, MayAppend, Publish, PublishEvent, Upgrade, WriteResult, WritePlan, AddHold, FailTurn, ReleaseTurn, PlanTurn;
  }

  lemma LastHasPlan(m: Migrator, d: Disk)
    requires OwnerInv(m, d) && Position(m.at) == 22
    ensures m.id in d.journals && d.journals[m.id].plan == Some(m.plan)
  {
  }

  // Writing the result leaves the database and the document as they are.
  lemma ResultKeepsTheRest(d: Disk, m: Migrator, o: Oracle)
    requires OwnerInv(m, d) && Position(m.at) == 21
    ensures PublishedBy(d.current, m.id, m.plan) && d.live == m.plan.target
    ensures MigrateTurn(d, m, o).disk.current == d.current && MigrateTurn(d, m, o).disk.live == d.live
  {
    assert m.at == WritingResult;
    hide PublishedBy;
  }

  lemma LastIsClosed(m: Migrator)
    requires Position(m.at) == 22
    ensures Closed(m.at)
  {
  }

  /** A migration may begin exactly when nothing is open, its name is free and its target heads are others than those
      that are saved: in a reachable state with nothing open the saved heads are live, so the drift gate never fires. */
  lemma MayPlanIff(s: Sys, o: Oracle)
    requires Reachable(s)
    ensures MayPlan(s.disk, o) <==>
              && (forall id :: !Unresolved(s.disk.journals, id)) && o.pick !in s.disk.journals
              && o.heads != {} && o.heads != HeadSet(s.disk.current)
  {
    if forall id :: !Unresolved(s.disk.journals, id) {
      forall id | id in s.disk.journals ensures !Blocks(s.disk.journals[id]) { assert !Unresolved(s.disk.journals, id); }
      MigrationTheorems.SavedHeadsAreLive(s);
    }
    hide Reachable, HeadSet;
  }

  /** So from every reachable state in which nothing is open and nobody is at work, a migration to any other heads can
      commit: with the plan that was drawn up, the target heads live and saved, and the document carrying its contract. */
  lemma MigrationCanCommit(s: Sys, o: Oracle, m: Migrator) returns (t: Sys)
    requires Reachable(s) && s.procs == map[] && s.rollout.None? && s.session.None?
    requires (forall id :: !Unresolved(s.disk.journals, id)) && o.pick !in s.disk.journals
    requires o.heads != {} && o.heads != HeadSet(s.disk.current) && o.outcome == Done && m.at == WantLock
    ensures Reachable(t) && o.pick in t.disk.journals && t.disk.journals[o.pick].result == Some(Committed)
    ensures t.disk.journals[o.pick].plan.Some? && HeadSet(t.disk.current) == t.disk.live == o.heads
    ensures var plan := t.disk.journals[o.pick].plan.value;
            && plan.source == HeadSet(s.disk.current) && plan.target == o.heads && plan.base == OfIndented(s.disk.current)
            && plan.release == o.release && plan.contract == o.contract && plan.graph == o.graph
    ensures var database := t.disk.current.database;
            && database.lastMigration == Some(o.pick) && database.contract == Some(o.contract) && database.schemaRelease == o.release
  {
    MayPlanIff(s, o);
    PlanIsDrawn(s.disk, o.pick, o);
    MigrationTheorems.SavedHeadsAreLive(s);
    hide Reachable, Leads, MayPlan, Inv, OwnerInv, PlanFor, HeadSet;
    var u, next := MigrationLiveness.JournalCreated(s, 0, o, m);
    LeadsReachable(s, u);
    ReachableInv(u);
    t := CanComplete(s, u, 0, next);
    LeadsReachable(s, t);
  }

  lemma PlanIsDrawn(d: Disk, id: Id, o: Oracle)
    ensures var plan := PlanFor(d, id, o);
            && plan.source == d.live && plan.target == o.heads && plan.base == OfIndented(d.current)
            && plan.release == o.release && plan.contract == o.contract && plan.graph == o.graph
  {
    hide Publish, PublishEvent;
  }

  /** The concrete case: a first migration commits. */
  lemma CommitsHappen() returns (t: Sys, id: Id)
    ensures Reachable(t) && id in t.disk.journals && t.disk.journals[id].result == Some(Committed)
  {
    var s, o := FirstState();
    var plan := Plan({}, {}, "", "", "", OfIndented(s.disk.current), OfIndented(s.disk.current));
    MayPlanIff(s, o);
    hide Reachable, MayPlan;
    t := MigrationCanCommit(s, o, Migrator(WantLock, "", plan, s.disk.current, "", None));
    id := o.pick;
  }
}
