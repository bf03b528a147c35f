/** What each process knows at each point of its run, and what its next step does. */
module MigrationSteps {
  import opened Wrappers
  import opened Phases
  import opened CurrentState
  import opened MigrationProtocol
  import opened MigrationInvariant

  const HAPPY: seq<Phase> :=
    [Planned, BackupStarted, BackupVerified, HoldAcquired, Revalidated, Started,
     CommandCompleted, TargetHeadsVerified, Stabilized, StateCommitted, Committed]

  // How many events the log holds when the transaction is at this point.
  function Logged(at: MigrateAt): (n: nat)
    ensures n <= 11
  {
    match at
    case Appending(phase) => Rank(phase)
    case OpeningSession => 2
    case CreatingBackup => 2
    case AcquiringHold => 3
    case ClosingSession => 4
    case CheckingSource => 4
    case Upgrading => 6
    case CheckingTarget => 7
    case ComparingState => 9
    case Publishing => 9
    case WritingResult => 11
    case OpeningRelease => 11
    case Releasing => 11
    case _ => 0
  }

  // The points at which the process holds the rollout lock and owns an open journal.
  predicate Owning(at: MigrateAt) {
    match at
    case WantLock => false
    case Planning => false
    case Appending(phase) => phase != Failed && phase != RequiresRecovery
    case FailAppending(_) => false
    case FailResult(_) => false
    case FailOpening => false
    case FailReleasing => false
    case _ => true
  }

  predicate Failing(at: MigrateAt) {
    at.FailAppending? || at.FailResult? || at.FailOpening? || at.FailReleasing?
  }

  predicate Closed(at: MigrateAt) {
    at.OpeningRelease? || at.Releasing?
  }

  predicate BeforeUpgrade(at: MigrateAt) {
    match at
    case Appending(phase) => PreMutation(phase) || phase == Started
    case WritingPlan => true
    case OpeningSession => true
    case CreatingBackup => true
    case AcquiringHold => true
    case ClosingSession => true
    case CheckingSource => true
    case Upgrading => true
    case _ => false
  }

  predicate BeforeHold(at: MigrateAt) {
    match at
    case Appending(phase) => phase in {Planned, BackupStarted, BackupVerified}
    case WritingPlan => true
    case OpeningSession => true
    case CreatingBackup => true
    case AcquiringHold => true
    case _ => false
  }

  predicate AfterPublish(at: MigrateAt) {
    at == Appending(StateCommitted) || at == Appending(Committed) || at == WritingResult
  }

  predicate TargetLive(at: MigrateAt) {
    AfterPublish(at) || at == Appending(TargetHeadsVerified) || at == Appending(Stabilized)
    || at == ComparingState || at == Publishing
  }

  predicate Loaded(at: MigrateAt) {
    at != WritingPlan && at != Appending(Planned) && at != Appending(BackupStarted)
  }

  ghost predicate OwnerJournal(m: Migrator, journals: map<Id, Journal>, begun: set<Id>) {
    && m.id in journals && PlanOk(m.id, m.plan)
    && journals[m.id] == Journal(if m.at == WritingPlan then None else Some(m.plan), HAPPY[..Logged(m.at)],
                                 if Closed(m.at) then Some(Committed) else None, None)
    && (m.id in begun <==> !BeforeUpgrade(m.at))
  }

  ghost predicate OwnerHold(m: Migrator, holds: map<Id, Hold>, backups: set<Id>) {
    && (if BeforeHold(m.at) then m.hold == None else m.hold.Some? && ActiveHold(holds, m.hold.value, m.id))
    && (forall h :: h in holds && holds[h].migration == m.id ==> m.hold == Some(h))
    && (m.at == Appending(BackupVerified) || m.at == AcquiringHold ==> m.backup in backups)
  }

  ghost predicate OwnerState(m: Migrator, current: Current, live: set<string>) {
    && (!AfterPublish(m.at) && !Closed(m.at) ==> OfIndented(current) == m.plan.base)
    && (!AfterPublish(m.at) && !Closed(m.at) && Loaded(m.at) ==> m.before == current)
    && (AfterPublish(m.at) ==> PublishedBy(current, m.id, m.plan))
    && (TargetLive(m.at) ==> live == m.plan.target)
  }

  ghost predicate OwnerInv(m: Migrator, d: Disk) {
    && Owning(m.at)
    && OwnerJournal(m, d.journals, d.begun)
    && OwnerHold(m, d.holds, d.backups)
    && OwnerState(m, d.current, d.live)
  }

  // The failure handler runs without the rollout lock; this is all it relies on.
  ghost predicate FailInv(m: Migrator, d: Disk) {
    && Failing(m.at) && m.id in d.journals
    && (m.hold.Some? ==> m.hold.value in d.holds && d.holds[m.hold.value].migration == m.id)
    && match m.at
       case FailAppending(post) => m.id in d.begun <==> post
       case FailResult(post) =>
         && (m.id in d.begun <==> post)
         && d.journals[m.id].log != [] && d.journals[m.id].log[|d.journals[m.id].log| - 1] == Terminal(post)
       case _ => m.id !in d.begun
  }

  ghost predicate MigratorInv(m: Migrator, d: Disk) {
    m.at == WantLock || m.at == Planning || OwnerInv(m, d) || FailInv(m, d)
  }

  ghost predicate RecovererJournal(r: Recoverer, j: Journal) {
    && j.plan == Some(r.plan)
    && (r.action == ReleaseHold ==> j.result == Some(Committed))
    && (r.action != ReleaseHold ==>
          (r.seen == None && StateCommitted in j.log) ||
          (r.seen == Some(RequiresRecovery) && j.result == Some(RequiresRecovery)))
  }

  ghost predicate RecovererInv(r: Recoverer, d: Disk) {
    r.at != Reading ==>
      && r.id in d.journals && RecovererJournal(r, d.journals[r.id])
      && (r.at.Republishing? || r.at.Completing? || r.at.Resolving? ==>
            r.action != ReleaseHold && r.seen.Some? && Unresolved(d.journals, r.id))
      && (r.at.Republishing? ==>
            d.live == r.plan.target && r.before == d.current && OfIndented(d.current) == r.plan.base)
      && (r.at.Completing? || r.at.Resolving? ==> HeadSet(d.current) == d.live)
      && (r.at.RecoverOpening? || r.at.RecoverReleasing? ==> Settled(d.journals[r.id]))
      && (!r.at.RecoverWantLock? && !r.at.Checking? ==> r.hold in d.holds && d.holds[r.hold].migration == r.id)
  }

  ghost predicate ProcInv(p: Proc, d: Disk) {
    match p
    case Migrating(m) => MigratorInv(m, d)
    case Recovering(r) => RecovererInv(r, d)
    case Pruning(_, _) => true
  }

  ghost predicate GoodTurn(t: Turn) {
    DiskInv(t.disk) && (t.proc.Some? ==> ProcInv(t.proc.value, t.disk))
  }

  // ---------------------------------------------------------------- the happy log

  lemma HappyStep(phase: Phase)
    requires phase != Failed && phase != RequiresRecovery
    ensures HAPPY[Rank(phase)] == phase && MayAppend(HAPPY[..Rank(phase)], phase)
    ensures HAPPY[..Rank(phase)] + [phase] == HAPPY[..Rank(phase) + 1]
  {
    var log := HAPPY[..Rank(phase)];
    if phase != Planned {
      assert log[|log| - 1] == HAPPY[Rank(phase) - 1];
      assert Legal(HAPPY[Rank(phase) - 1], phase);
    }
  }

  lemma AfterIsOwning(m: Migrator)
    requires m.at.Appending? && Owning(m.at)
    ensures var next := After(m.at.phase);
            && Owning(next) && Logged(next) == Rank(m.at.phase) + 1 && !Closed(next) && next != WritingPlan
            && (BeforeUpgrade(next) <==> BeforeUpgrade(m.at)) && (BeforeHold(next) <==> BeforeHold(m.at))
            && (AfterPublish(next) <==> AfterPublish(m.at)) && (TargetLive(next) ==> TargetLive(m.at))
            && next != Appending(BackupVerified)
            && (Loaded(m.at) ==> Loaded(next)) && (m.at.phase == BackupStarted ==> Loaded(next))
            && (Loaded(next) && !Loaded(m.at) ==> m.at.phase == BackupStarted)
            && (next == AcquiringHold ==> m.at == Appending(BackupVerified))
  {
  }

  // ---------------------------------------------------------------- failing

  // Raising anywhere hands over to the failure handler with what it needs.
  lemma OwnerFails(m: Migrator, d: Disk, n: Disk)
    requires OwnerInv(m, d) && !Closed(m.at) && m.at != Upgrading
    requires m.id in n.journals && n.begun == d.begun
    requires forall h :: h in d.holds ==> h in n.holds && n.holds[h].migration == d.holds[h].migration
    ensures FailInv(m.(at := FailAppending(PostMutation(m.at))), n)
  {
    hide PlanOk, HeadSet, PublishedBy;
  }

  lemma OwnerHasJournal(m: Migrator, d: Disk)
    requires OwnerInv(m, d)
    ensures m.id in d.journals && m.at != WantLock && m.at != Planning
  {
  }

  lemma FailsGood(d: Disk, m: Migrator)
    requires DiskInv(d) && OwnerInv(m, d) && !Closed(m.at) && m.at != Upgrading
    ensures GoodTurn(Fails(d, m))
  {
    hide DiskInv, OwnerInv, FailInv, PostMutation, Closed;
    OwnerHasJournal(m, d);
    OwnerFails(m, d, d);
  }

  lemma WritesGood(d: Disk, written: Disk, m: Migrator, next: Migrator, o: Oracle)
    requires DiskInv(d) && OwnerInv(m, d) && !Closed(m.at) && m.at != Upgrading
    requires DiskInv(written) && MigratorInv(next, written)
    requires m.id in written.journals && written.begun == d.begun
    requires forall h :: h in d.holds ==> h in written.holds && written.holds[h].migration == d.holds[h].migration
    ensures GoodTurn(Writes(d, written, m, next, o))
  {
    hide DiskInv, OwnerInv, FailInv, PostMutation, Closed;
    assert m.id in d.journals by { OwnerHasJournal(m, d); }
    OwnerFails(m, d, d);
    OwnerFails(m, d, written);
  }

  // ---------------------------------------------------------------- the steps of run_migration

  lemma PlanForOk(d: Disk, id: Id, o: Oracle)
    requires DiskInv(d) && MayPlan(d, o) && id == o.pick
    ensures PlanOk(id, PlanFor(d, id, o)) && PlanFor(d, id, o).base == OfIndented(d.current)
  {
    hide HeadSet, Accepted, Publish, JournalsOk, OpensOk, HoldsOk;
  }

  lemma PlanTurnGood(d: Disk, m: Migrator, o: Oracle)
    requires DiskInv(d) && m.at == Planning
    ensures GoodTurn(PlanTurn(d, m, o))
  {
    if o.outcome != Raised && MayPlan(d, o) {
      assert forall id :: !Unresolved(d.journals, id);
      JournalCreated(d, o.pick);
      PlanForOk(d, o.pick, o);
      var next := m.(id := o.pick, plan := PlanFor(d, o.pick, o), hold := None);
      NewOwner(d, next);
      hide DiskInv, OwnerInv, PlanFor, MayPlan;
    }
  }

  lemma NewOwner(d: Disk, m: Migrator)
    requires DiskInv(d) && m.id !in d.journals && m.hold == None
    requires PlanOk(m.id, m.plan) && m.plan.base == OfIndented(d.current)
    ensures OwnerInv(m.(at := WritingPlan), NewJournal(d, m.id))
    ensures FailInv(m.(at := FailAppending(false)), NewJournal(d, m.id))
  {
    hide HeadSet, Accepted, PlanOk, OpenOk, JournalOk;
    assert HAPPY[..0] == [];
  }

  lemma WritePlanGood(d: Disk, m: Migrator, o: Oracle)
    requires DiskInv(d) && OwnerInv(m, d) && m.at == WritingPlan
    ensures GoodTurn(MigrateTurn(d, m, o))
  {
    var written := WritePlan(d, m.id, m.plan);
    WritePlanOwner(d, m);
    hide DiskInv, OwnerInv, GoodTurn, PlanOk;
    PlanWritten(d, m.id, m.plan);
    WritesGood(d, written, m, m.(at := Appending(Planned)), o);
  }

  lemma WritePlanOwner(d: Disk, m: Migrator)
    requires OwnerInv(m, d) && m.at == WritingPlan
    ensures OwnerInv(m.(at := Appending(Planned)), WritePlan(d, m.id, m.plan))
    ensures d.journals[m.id] == Journal(None, [], None, None) && m.id !in d.begun
    ensures PlanOk(m.id, m.plan) && OfIndented(d.current) == m.plan.base
  {
    hide PlanOk, HeadSet;
    assert HAPPY[..0] == [];
  }

  lemma AppendGood(d: Disk, m: Migrator, o: Oracle)
    requires DiskInv(d) && OwnerInv(m, d) && m.at.Appending?
    ensures GoodTurn(MigrateTurn(d, m, o))
  {
    var phase := m.at.phase;
    HappyStep(phase);
    AfterIsOwning(m);
    var written := AppendEvent(d, m.id, phase);
    EventAppended(d, m.id, phase);
    var next := m.(at := After(phase), before := if phase == BackupStarted then d.current else m.before);
    AppendOwner(d, m, next);
    WritesGood(d, written, m, next, o);
    hide DiskInv, OwnerInv, GoodTurn, MayAppend;
  }

  lemma AppendOwner(d: Disk, m: Migrator, next: Migrator)
    requires OwnerInv(m, d) && m.at.Appending?
    requires next == m.(at := After(m.at.phase), before := if m.at.phase == BackupStarted then d.current else m.before)
    ensures OwnerInv(next, AppendEvent(d, m.id, m.at.phase))
  {
    HappyStep(m.at.phase);
    AfterIsOwning(m);
    hide PlanOk, PublishedBy, HeadSet, Owning, BeforeUpgrade, BeforeHold, AfterPublish, TargetLive, Loaded, After;
  }

  // Steps that change nothing on disk: they open or close a session, or compare what they read.
  lemma QuietStepGood(d: Disk, m: Migrator, o: Oracle)
    requires DiskInv(d) && OwnerInv(m, d)
    requires m.at in {OpeningSession, ClosingSession, CheckingSource, CheckingTarget, ComparingState}
    ensures GoodTurn(MigrateTurn(d, m, o))
  {
    hide DiskInv, FailInv, OwnerInv, GoodTurn;
    FailsGood(d, m);
    if m.at == OpeningSession { GoesGood(d, m, CreatingBackup); }
    if m.at == ClosingSession { GoesGood(d, m, CheckingSource); }
    if m.at == CheckingSource { GoesGood(d, m, Appending(Revalidated)); }
    if m.at == CheckingTarget && d.live == m.plan.target { GoesGood(d, m, Appending(TargetHeadsVerified)); }
    if m.at == ComparingState { TargetStaysLive(d, m); GoesGood(d, m, Publishing); }
  }

  lemma TargetStaysLive(d: Disk, m: Migrator)
    requires OwnerInv(m, d) && m.at == ComparingState
    ensures d.live == m.plan.target
  {
    hide OwnerJournal, OwnerHold;
  }

  // The process goes on to a point about which nothing further is claimed.
  lemma GoesGood(d: Disk, m: Migrator, to: MigrateAt)
    requires DiskInv(d) && OwnerInv(m, d) && Owning(to)
    requires m.at != WritingPlan && to != WritingPlan && Logged(to) == Logged(m.at) && Closed(to) == Closed(m.at)
    requires BeforeUpgrade(to) == BeforeUpgrade(m.at) && BeforeHold(to) == BeforeHold(m.at)
    requires AfterPublish(to) == AfterPublish(m.at) && (Loaded(to) ==> Loaded(m.at))
    requires to != Appending(BackupVerified) && to != AcquiringHold && (TargetLive(to) ==> d.live == m.plan.target)
    ensures OwnerInv(m.(at := to), d) && GoodTurn(Goes(d, m, to))
  {
    hide DiskInv, PlanOk, PublishedBy, HeadSet, Owning, Logged, Closed, BeforeUpgrade, BeforeHold, AfterPublish,
      TargetLive, Loaded;
  }

  lemma CreateBackupGood(d: Disk, m: Migrator, o: Oracle)
    requires DiskInv(d) && OwnerInv(m, d) && m.at == CreatingBackup
    ensures GoodTurn(MigrateTurn(d, m, o))
  {
    var written := d.(backups := d.backups + {o.pick});
    var next := m.(at := Appending(BackupVerified), backup := o.pick);
    hide DiskInv, OwnerInv, GoodTurn, FailInv;
    CreateBackupOwner(d, m, o.pick);
    BackupCreated(d, o.pick);
    OwnerHasJournal(m, d);
    WritesGood(d, written, m, next, o);
    FailsGood(d, m);
  }

  lemma CreateBackupOwner(d: Disk, m: Migrator, backup: Id)
    requires OwnerInv(m, d) && m.at == CreatingBackup
    ensures OwnerInv(m.(at := Appending(BackupVerified), backup := backup), d.(backups := d.backups + {backup}))
  {
    hide PlanOk, PublishedBy, HeadSet;
  }

  lemma HoldGood(d: Disk, m: Migrator, o: Oracle)
    requires DiskInv(d) && OwnerInv(m, d) && m.at == AcquiringHold
    ensures GoodTurn(MigrateTurn(d, m, o))
  {
    if o.pick !in d.holds {
      var hold := Hold(m.id, m.backup, m.plan.source, o.graph, false);
      HoldAdded(d, o.pick, hold);
      HoldOwner(d, m, o.pick, hold);
      hide DiskInv, OwnerInv, GoodTurn, FailInv;
      OwnerHasJournal(m, d);
      WritesGood(d, AddHold(d, o.pick, hold), m, m.(at := Appending(HoldAcquired), hold := Some(o.pick)), o);
    } else {
      FailsGood(d, m);
    }
  }

  lemma HoldOwner(d: Disk, m: Migrator, h: Id, hold: Hold)
    requires OwnerInv(m, d) && m.at == AcquiringHold && h !in d.holds
    requires hold == Hold(m.id, m.backup, m.plan.source, hold.graph, false)
    ensures OwnerInv(m.(at := Appending(HoldAcquired), hold := Some(h)), AddHold(d, h, hold))
  {
    hide PlanOk, PublishedBy, HeadSet;
  }

  lemma UpgradeGood(d: Disk, m: Migrator, o: Oracle)
    requires DiskInv(d) && OwnerInv(m, d) && m.at == Upgrading
    ensures GoodTurn(MigrateTurn(d, m, o))
  {
    UpgradeOwner(d, m, o.heads);
    hide OwnerInv, FailInv, PlanOk, HasActiveHold, HeadSet, DiskInv;
    Upgraded(d, m.id, o.heads);
  }

  lemma UpgradeOwner(d: Disk, m: Migrator, heads: set<string>)
    requires OwnerInv(m, d) && m.at == Upgrading
    ensures Unresolved(d.journals, m.id) && m.id !in d.begun && d.journals[m.id].plan.Some?
    ensures Started in d.journals[m.id].log && StateCommitted !in d.journals[m.id].log
    ensures HasActiveHold(d.holds, m.id)
    ensures forall h :: h in d.holds && d.holds[h].migration == m.id ==> !d.holds[h].released
    ensures OwnerInv(m.(at := Appending(CommandCompleted)), Upgrade(d, m.id, heads))
    ensures FailInv(m.(at := FailAppending(true)), Upgrade(d, m.id, heads))
  {
    hide PlanOk, PublishedBy, HeadSet;
    assert HAPPY[..6][5] == Started;
    assert ActiveHold(d.holds, m.hold.value, m.id);
  }

  // What the migrator writes is exactly what its plan promised.
  lemma PublishOwner(d: Disk, m: Migrator, at: string)
    requires DiskInv(d) && OwnerInv(m, d) && m.at == Publishing
    ensures var next := Publish(m.before, PublishEvent(m.plan, m.id, at));
            next.Some? && Accepted(next.value) && PublishedBy(next.value, m.id, m.plan)
  {
    PublisherKnows(d, m);
    hide DiskInv, OwnerInv, PlanOk, Accepted, HeadSet, Publish;
    MigrationPublishes(m.before, m.plan.release, m.plan.target, m.id, m.plan.contract, at);
  }

  lemma PublisherKnows(d: Disk, m: Migrator)
    requires DiskInv(d) && OwnerInv(m, d) && m.at == Publishing
    ensures Accepted(m.before) && m.plan.target != {}
  {
    hide Accepted, HeadSet, PublishedBy, JournalsOk, OpensOk, HoldsOk, QuietOk, OneOpen, OwnerHold;
  }

  lemma PublishGood(d: Disk, m: Migrator, o: Oracle)
    requires DiskInv(d) && OwnerInv(m, d) && m.at == Publishing
    ensures GoodTurn(MigrateTurn(d, m, o))
  {
    PublishOwner(d, m, o.at);
    var next := Publish(m.before, PublishEvent(m.plan, m.id, o.at)).value;
    var written := d.(current := next);
    PublishedOwner(d, m, next);
    hide DiskInv, OwnerInv, FailInv, Accepted, PublishedBy, Publish;
    CurrentPublished(d, m.id, next);
    OwnerHasJournal(m, d);
    WritesGood(d, written, m, m.(at := Appending(StateCommitted)), o);
  }

  lemma PublishedOwner(d: Disk, m: Migrator, next: Current)
    requires OwnerInv(m, d) && m.at == Publishing && PublishedBy(next, m.id, m.plan)
    ensures OwnerInv(m.(at := Appending(StateCommitted)), d.(current := next))
    ensures Unresolved(d.journals, m.id) && m.id in d.begun && d.journals[m.id].plan == Some(m.plan)
  {
    hide PlanOk, PublishedBy, HeadSet;
  }

  lemma ResultGood(d: Disk, m: Migrator, o: Oracle)
    requires DiskInv(d) && OwnerInv(m, d) && m.at == WritingResult
    ensures GoodTurn(MigrateTurn(d, m, o))
  {
    ResultOwner(d, m);
    hide DiskInv, OwnerInv, FailInv, PublishedBy;
    CommittedWritten(d, m.id);
    OwnerHasJournal(m, d);
    WritesGood(d, WriteResult(d, m.id, Committed), m, m.(at := OpeningRelease), o);
  }

  lemma ResultOwner(d: Disk, m: Migrator)
    requires OwnerInv(m, d) && m.at == WritingResult
    ensures d.journals[m.id] == Journal(Some(m.plan), HAPPY, None, None)
    ensures PublishedBy(d.current, m.id, m.plan) && d.live == m.plan.target
    ensures OwnerInv(m.(at := OpeningRelease), WriteResult(d, m.id, Committed))
  {
    hide PlanOk, PublishedBy, HeadSet;
    assert HAPPY[..11] == HAPPY;
  }

  lemma ClosedGood(d: Disk, m: Migrator, o: Oracle)
    requires DiskInv(d) && OwnerInv(m, d) && Closed(m.at)
    ensures GoodTurn(MigrateTurn(d, m, o))
  {
    hide DiskInv, OwnerInv, FailInv, GoodTurn, Settled;
    ClosedOwner(d, m);
    if m.at == Releasing { ReleaseGood(d, m.hold, o); } else { OpeningGood(d, m, o); }
  }

  lemma OpeningGood(d: Disk, m: Migrator, o: Oracle)
    requires DiskInv(d) && OwnerInv(m, d) && m.at == OpeningRelease
    ensures GoodTurn(Goes(d, m, Releasing)) && GoodTurn(Turn(d, None))
  {
    ClosedOwner(d, m);
    hide DiskInv, OwnerInv;
  }

  lemma ReleaseGood(d: Disk, hold: Option<Id>, o: Oracle)
    requires DiskInv(d) && hold.Some? && hold.value in d.holds
    requires d.holds[hold.value].migration in d.begun ==>
               d.holds[hold.value].migration in d.journals && Settled(d.journals[d.holds[hold.value].migration])
    ensures GoodTurn(ReleaseTurn(d, hold, o))
  {
    hide DiskInv;
    HoldReleased(d, hold.value);
  }

  lemma ClosedOwner(d: Disk, m: Migrator)
    requires OwnerInv(m, d) && Closed(m.at)
    ensures m.hold.Some? && m.hold.value in d.holds && d.holds[m.hold.value].migration == m.id
    ensures m.id in d.journals && Settled(d.journals[m.id])
    ensures m.at == OpeningRelease ==> OwnerInv(m.(at := Releasing), d)
  {
    hide PlanOk, PublishedBy, HeadSet;
  }

  // ---------------------------------------------------------------- the failure handler

  lemma OpenForTerminal(d: Disk, id: Id, post: bool)
    requires JournalsOk(d.journals, d.begun) && id in d.journals
    requires MayAppend(d.journals[id].log, Terminal(post))
    ensures d.journals[id].result.None? && d.journals[id].plan.Some?
  {
    hide PlanOk, IsPath;
  }

  lemma HandlerAppendGood(d: Disk, m: Migrator, o: Oracle)
    requires DiskInv(d) && FailInv(m, d) && m.at.FailAppending?
    ensures GoodTurn(FailTurn(d, m, o))
  {
    hide DiskInv, MayAppend, GoodTurn, AfterHandler;
    var post := m.at.post;
    if MayAppend(d.journals[m.id].log, Terminal(post)) {
      var written := AppendEvent(d, m.id, Terminal(post));
      HandlerWrites(d, m, post);
      AfterHandlerGood(written, m, post);
    }
    AfterHandlerGood(d, m, post);
  }

  lemma HandlerWrites(d: Disk, m: Migrator, post: bool)
    requires DiskInv(d) && FailInv(m, d) && m.at == FailAppending(post)
    requires MayAppend(d.journals[m.id].log, Terminal(post))
    ensures var written := AppendEvent(d, m.id, Terminal(post));
            DiskInv(written) && GoodTurn(Goes(written, m, FailResult(post)))
  {
    hide JournalsOk, OneOpen, OpensOk, HoldsOk, CurrentOk, QuietOk, MayAppend;
    OpenForTerminal(d, m.id, post);
    hide DiskInv;
    EventAppended(d, m.id, Terminal(post));
    HandlerLogged(d, m, post);
  }

  lemma HandlerLogged(d: Disk, m: Migrator, post: bool)
    requires FailInv(m, d) && m.at == FailAppending(post)
    ensures FailInv(m.(at := FailResult(post)), AppendEvent(d, m.id, Terminal(post)))
  {
  }

  lemma AfterHandlerGood(d: Disk, m: Migrator, post: bool)
    requires DiskInv(d) && m.id in d.journals && (m.id in d.begun <==> post)
    requires m.hold.Some? ==> m.hold.value in d.holds && d.holds[m.hold.value].migration == m.id
    ensures GoodTurn(AfterHandler(d, m, post))
  {
    hide DiskInv;
  }

  lemma HandlerResultGood(d: Disk, m: Migrator, o: Oracle)
    requires DiskInv(d) && FailInv(m, d) && m.at.FailResult?
    ensures GoodTurn(FailTurn(d, m, o))
  {
    hide DiskInv;
    var post := m.at.post;
    AfterHandlerGood(d, m, post);
    if d.journals[m.id].result.None? {
      if post { RecoveryRequired(d, m.id); } else { FailedWritten(d, m.id); }
      AfterHandlerGood(WriteResult(d, m.id, Terminal(post)), m, post);
    }
  }

  lemma HandlerReleaseGood(d: Disk, m: Migrator, o: Oracle)
    requires DiskInv(d) && FailInv(m, d) && (m.at == FailOpening || m.at == FailReleasing)
    ensures GoodTurn(FailTurn(d, m, o))
  {
    hide DiskInv;
    if m.at == FailReleasing && m.hold.Some? { ReleaseGood(d, m.hold, o); }
  }

  lemma MigrateTurnGood(d: Disk, m: Migrator, o: Oracle)
    requires DiskInv(d) && MigratorInv(m, d)
    ensures GoodTurn(MigrateTurn(d, m, o))
  {
    hide DiskInv, OwnerJournal, OwnerHold, OwnerState;
    if Failing(m.at) {
      match m.at
      case FailAppending(_) => HandlerAppendGood(d, m, o);
      case FailResult(_) => HandlerResultGood(d, m, o);
      case FailOpening => HandlerReleaseGood(d, m, o);
      case FailReleasing => HandlerReleaseGood(d, m, o);
    } else if m.at == Planning {
      PlanTurnGood(d, m, o);
    } else if m.at != WantLock {
      OwnerTurnGood(d, m, o);
    }
  }

  lemma OwnerTurnGood(d: Disk, m: Migrator, o: Oracle)
    requires DiskInv(d) && OwnerInv(m, d)
    ensures GoodTurn(MigrateTurn(d, m, o))
  {
    hide DiskInv, OwnerJournal, OwnerHold, OwnerState, MigrateTurn, GoodTurn;
    match m.at
    case WritingPlan => WritePlanGood(d, m, o);
    case Appending(_) => AppendGood(d, m, o);
    case CreatingBackup => CreateBackupGood(d, m, o);
    case AcquiringHold => HoldGood(d, m, o);
    case Upgrading => UpgradeGood(d, m, o);
    case Publishing => PublishGood(d, m, o);
    case WritingResult => ResultGood(d, m, o);
    case OpeningRelease => ClosedGood(d, m, o);
    case Releasing => ClosedGood(d, m, o);
    case _ => QuietStepGood(d, m, o);
  }
}
