/** What a step of one process leaves alone, and why the others go on knowing what they knew. */
module MigrationFrame {
  import opened Wrappers
  import opened Phases
  import opened CurrentState
  import opened MigrationProtocol
  import opened MigrationInvariant
  import opened MigrationSteps

  // How far a process can reach: the journals it owns, the locks it holds, and whether it writes events.
  datatype Reach = Reach(own: set<Id>, locked: bool, session: bool, appends: bool)

  // Everything written into a journal stays there; only a lock holder resolves, only a migration logs.
  ghost predicate Extends(j: Journal, k: Journal, reach: Reach) {
    && j.log <= k.log
    && (j.plan.Some? ==> k.plan == j.plan)
    && (j.result.Some? ==> k.result == j.result)
    && (j.resolution.Some? ==> k.resolution == j.resolution)
    && (!reach.locked ==> k.resolution == j.resolution)
    && (!reach.appends ==> k.log == j.log)
  }

  ghost predicate JournalFrame(js: map<Id, Journal>, ks: map<Id, Journal>, reach: Reach) {
    && (forall id :: id in js ==> id in ks && Extends(js[id], ks[id], reach))
    && (forall id :: id in js && id !in reach.own ==> ks[id] == js[id])
    && ks.Keys <= js.Keys + reach.own
  }

  ghost predicate HoldFrame(hs: map<Id, Hold>, ks: map<Id, Hold>, own: set<Id>) {
    && (forall h :: h in hs ==> h in ks && (ks[h] == hs[h] || (hs[h].migration in own && ks[h] == hs[h].(released := true))))
    && (forall h :: h in ks && h !in hs ==> ks[h].migration in own)
  }

  ghost predicate BegunFrame(d: Disk, n: Disk, reach: Reach) {
    && d.begun <= n.begun <= d.begun + reach.own
    && (!reach.locked || !reach.appends ==> n.begun == d.begun)
  }

  ghost predicate Frame(d: Disk, n: Disk, reach: Reach) {
    && JournalFrame(d.journals, n.journals, reach)
    && HoldFrame(d.holds, n.holds, reach.own)
    && BegunFrame(d, n, reach)
    && (!reach.locked ==> n.current == d.current && n.live == d.live)
    && (!reach.session ==> n.backups == d.backups)
  }

  ghost function ReachOf(d: Disk, p: Proc, o: Oracle): Reach {
    match p
    case Migrating(m) =>
      var own := if m.at == WantLock then {} else if m.at == Planning then {o.pick} - d.journals.Keys else {m.id};
      Reach(own, HoldsRollout(p), HoldsSession(p), true)
    case Recovering(r) => Reach({r.id}, HoldsRollout(p), HoldsSession(p), false)
    case Pruning(_, _) => Reach({}, false, HoldsSession(p), false)
  }

  // ---------------------------------------------------------------- the durable writes stay in their frame

  lemma Unmoved(d: Disk, reach: Reach)
    ensures Frame(d, d, reach)
  {
  }

  lemma JournalMoved(d: Disk, id: Id, j: Journal, reach: Reach)
    requires id in reach.own && (id in d.journals ==> Extends(d.journals[id], j, reach))
    ensures Frame(d, d.(journals := d.journals[id := j]), reach)
  {
  }

  lemma HoldMoved(d: Disk, h: Id, hold: Hold, reach: Reach)
    requires hold.migration in reach.own
    requires h in d.holds ==> hold == d.holds[h].(released := true)
    ensures Frame(d, AddHold(d, h, hold), reach)
  {
  }

  lemma BackupsMoved(d: Disk, backups: set<Id>, reach: Reach)
    requires reach.session
    ensures Frame(d, d.(backups := backups), reach)
  {
  }

  lemma DatabaseMoved(d: Disk, id: Id, heads: set<string>, reach: Reach)
    requires reach.locked && reach.appends && id in reach.own
    ensures Frame(d, Upgrade(d, id, heads), reach)
  {
  }

  lemma CurrentMoved(d: Disk, next: Current, reach: Reach)
    requires reach.locked
    ensures Frame(d, d.(current := next), reach)
  {
  }

  lemma ReleaseMoved(d: Disk, hold: Option<Id>, o: Oracle, reach: Reach)
    requires hold.Some? && hold.value in d.holds ==> d.holds[hold.value].migration in reach.own
    ensures Frame(d, ReleaseTurn(d, hold, o).disk, reach)
  {
    Unmoved(d, reach);
    if hold.Some? && hold.value in d.holds {
      HoldMoved(d, hold.value, d.holds[hold.value].(released := true), reach);
    }
  }

  // ---------------------------------------------------------------- every step stays in its frame

  lemma OwnerKnows(m: Migrator, d: Disk)
    requires OwnerInv(m, d)
    ensures m.id in d.journals && d.journals[m.id].resolution.None?
    ensures m.at == WritingPlan ==> d.journals[m.id].plan.None?
    ensures m.hold.Some? ==> m.hold.value in d.holds && d.holds[m.hold.value].migration == m.id
    ensures m.at != WantLock && m.at != Planning
  {
    hide PlanOk, OwnerState;
  }

  lemma OwnerWritesJournal(d: Disk, m: Migrator, o: Oracle)
    requires OwnerInv(m, d) && (m.at.WritingPlan? || m.at.Appending? || m.at.WritingResult?)
    ensures Frame(d, MigrateTurn(d, m, o).disk, ReachOf(d, Migrating(m), o))
  {
    var reach := ReachOf(d, Migrating(m), o);
    OwnerKnows(m, d);
    hide OwnerInv, Frame, MayAppend, After, PostMutation;
    Unmoved(d, reach);
    var j := d.journals[m.id];
    match m.at
    case WritingPlan => JournalMoved(d, m.id, j.(plan := Some(m.plan)), reach);
    case Appending(phase) => JournalMoved(d, m.id, j.(log := j.log + [phase]), reach);
    case WritingResult => if j.result.None? { JournalMoved(d, m.id, j.(result := Some(Committed)), reach); }
  }

  lemma OwnerMovesRest(d: Disk, m: Migrator, o: Oracle)
    requires OwnerInv(m, d) && !m.at.WritingPlan? && !m.at.Appending? && !m.at.WritingResult?
    ensures Frame(d, MigrateTurn(d, m, o).disk, ReachOf(d, Migrating(m), o))
  {
    var reach := ReachOf(d, Migrating(m), o);
    OwnerKnows(m, d);
    OwnerIsOwning(m, d);
    hide OwnerInv, Frame, PublishEvent, Publish, PostMutation, AppendTurn, ReleaseTurn, PlanTurn, FailTurn, Owning;
    Unmoved(d, reach);
    match m.at
    case CreatingBackup => BackupsMoved(d, d.backups + {o.pick}, reach);
    case AcquiringHold =>
      if o.pick !in d.holds { HoldMoved(d, o.pick, Hold(m.id, m.backup, m.plan.source, o.graph, false), reach); }
    case Upgrading => DatabaseMoved(d, m.id, o.heads, reach);
    case Publishing =>
      var next := Publish(m.before, PublishEvent(m.plan, m.id, o.at));
      if next.Some? { CurrentMoved(d, next.value, reach); }
    case Releasing => ReleaseMoved(d, m.hold, o, reach);
    case _ =>
  }

  lemma OwnerIsOwning(m: Migrator, d: Disk)
    requires OwnerInv(m, d)
    ensures !Failing(m.at)
  {
    hide OwnerJournal, OwnerHold, OwnerState;
  }

  lemma OwnerMoves(d: Disk, m: Migrator, o: Oracle)
    requires OwnerInv(m, d)
    ensures Frame(d, MigrateTurn(d, m, o).disk, ReachOf(d, Migrating(m), o))
  {
    hide *;
    if m.at.WritingPlan? || m.at.Appending? || m.at.WritingResult? {
      OwnerWritesJournal(d, m, o);
    } else {
      OwnerMovesRest(d, m, o);
    }
  }

  lemma HandlerKnows(m: Migrator, d: Disk)
    requires FailInv(m, d)
    ensures m.id in d.journals && Failing(m.at)
    ensures m.hold.Some? && m.hold.value in d.holds ==> d.holds[m.hold.value].migration == m.id
  {
  }

  lemma HandlerMoves(d: Disk, m: Migrator, o: Oracle)
    requires FailInv(m, d)
    ensures Frame(d, MigrateTurn(d, m, o).disk, ReachOf(d, Migrating(m), o))
  {
    var reach := ReachOf(d, Migrating(m), o);
    HandlerKnows(m, d);
    Unmoved(d, reach);
    hide FailInv, Frame, MayAppend;
    match m.at
    case FailAppending(post) =>
      JournalMoved(d, m.id, d.journals[m.id].(log := d.journals[m.id].log + [Terminal(post)]), reach);
    case FailResult(post) =>
      if d.journals[m.id].result.None? {
        JournalMoved(d, m.id, d.journals[m.id].(result := Some(Terminal(post))), reach);
      }
    case FailOpening =>
    case FailReleasing => ReleaseMoved(d, m.hold, o, reach);
  }

  lemma MigrateMoves(d: Disk, m: Migrator, o: Oracle)
    requires MigratorInv(m, d)
    ensures Frame(d, MigrateTurn(d, m, o).disk, ReachOf(d, Migrating(m), o))
  {
    hide OwnerInv, FailInv, PlanFor;
    var reach := ReachOf(d, Migrating(m), o);
    if OwnerInv(m, d) {
      OwnerMoves(d, m, o);
    } else if FailInv(m, d) {
      HandlerMoves(d, m, o);
    } else {
      Unmoved(d, reach);
      if o.pick !in d.journals && m.at == Planning {
        JournalMoved(d, o.pick, Journal(None, [], None, None), reach);
      }
    }
  }

  lemma RecoverMoves(d: Disk, r: Recoverer, o: Oracle)
    requires RecovererInv(r, d)
    ensures Frame(d, RecoverTurn(d, r, o).disk, ReachOf(d, Recovering(r), o))
  {
    var reach := ReachOf(d, Recovering(r), o);
    assert r.at != Reading ==> r.id in d.journals;
    assert r.at == Completing ==> r.seen.Some?;
    assert r.at == RecoverReleasing ==> r.hold in d.holds && d.holds[r.hold].migration == r.id;
    Unmoved(d, reach);
    hide RecovererInv, Frame, PublishEvent, Publish, HoldMatches;
    match r.at
    case Republishing =>
      var next := Publish(r.before, PublishEvent(r.plan, r.id, o.at));
      if next.Some? { CurrentMoved(d, next.value, reach); }
    case Resolving =>
      if d.journals[r.id].resolution.None? {
        JournalMoved(d, r.id, d.journals[r.id].(resolution := Some(r.action)), reach);
      }
    case RecoverReleasing => ReleaseMoved(d, Some(r.hold), o, reach);
    case _ =>
  }

  lemma TurnMoves(d: Disk, p: Proc, o: Oracle)
    requires ProcInv(p, d)
    ensures Frame(d, TurnOf(d, p, o).disk, ReachOf(d, p, o))
  {
    hide MigratorInv, RecovererInv, MigrateTurn, RecoverTurn, Frame;
    match p
    case Migrating(m) => MigrateMoves(d, m, o);
    case Recovering(r) => RecoverMoves(d, r, o);
    case Pruning(deleting, todo) =>
      var reach := ReachOf(d, p, o);
      Unmoved(d, reach);
      if deleting { BackupsMoved(d, d.backups - {o.pick}, reach); }
  }

  // ---------------------------------------------------------------- the others are not disturbed

  predicate HasJournal(m: Migrator) {
    m.at != WantLock && m.at != Planning
  }

  lemma OwnerStable(m: Migrator, d: Disk, n: Disk, reach: Reach)
    requires OwnerInv(m, d) && Frame(d, n, reach) && m.id !in reach.own && !reach.locked
    requires HoldsSession(Migrating(m)) ==> !reach.session
    ensures OwnerInv(m, n)
  {
    hide PlanOk, PublishedBy;
    assert n.journals[m.id] == d.journals[m.id];
    assert forall h :: h in n.holds && n.holds[h].migration == m.id ==> h in d.holds && n.holds[h] == d.holds[h];
  }

  lemma HandlerStable(m: Migrator, d: Disk, n: Disk, reach: Reach)
    requires FailInv(m, d) && Frame(d, n, reach) && (m.id in reach.own ==> !reach.appends)
    ensures FailInv(m, n)
  {
    assert n.journals[m.id].log == d.journals[m.id].log;
    assert m.id in n.begun <==> m.id in d.begun;
  }

  lemma RecovererStable(r: Recoverer, d: Disk, n: Disk, reach: Reach)
    requires RecovererInv(r, d) && Frame(d, n, reach)
    requires HoldsRollout(Recovering(r)) ==> !reach.locked
    ensures RecovererInv(r, n)
  {
    hide HeadSet;
    if r.at != Reading {
      assert Extends(d.journals[r.id], n.journals[r.id], reach);
    }
  }

  lemma MigratorStable(m: Migrator, d: Disk, n: Disk, reach: Reach)
    requires MigratorInv(m, d) && Frame(d, n, reach)
    requires HoldsRollout(Migrating(m)) ==> !reach.locked && (m.id in reach.own && HasJournal(m) ==> n == d)
    requires HoldsSession(Migrating(m)) ==> !reach.session
    requires HasJournal(m) && m.id in reach.own ==> !reach.appends
    ensures MigratorInv(m, n)
  {
    if OwnerInv(m, d) {
      if n != d { OwnerStable(m, d, n, reach); }
    } else if FailInv(m, d) {
      HandlerStable(m, d, n, reach);
    }
  }
}
