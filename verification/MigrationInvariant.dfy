/** What every durable write of the migration protocol keeps true of the shared state. */
module MigrationInvariant {
  import opened Wrappers
  import opened Phases
  import opened CurrentState
  import opened MigrationProtocol
  import EventLog

  // The plan describes the state it was computed from, and names a migration that state does not know.
  ghost predicate PlanOk(id: Id, plan: Plan) {
    && plan.base.OfIndented? && HeadSet(plan.base.doc) == plan.source
    && plan.base.doc.database.lastMigration != Some(id)
    && plan.expected.OfCompact?
    && plan.target != {} && plan.target != plan.source
  }

  ghost predicate JournalOk(id: Id, j: Journal, begun: bool) {
    && IsPath(j.log)
    && (j.log != [] ==> j.plan.Some?)
    && (j.plan.Some? ==> PlanOk(id, j.plan.value))
    && (j.result.Some? ==> j.log != [] && j.log[|j.log| - 1] == j.result.value)
    && (j.result.Some? ==> j.result.value in {Committed, Failed, RequiresRecovery})
    && (j.resolution.Some? ==> j.result == Some(RequiresRecovery))
    && (begun ==> Started in j.log)
    && (j.result == Some(RequiresRecovery) || StateCommitted in j.log ==> begun)
  }

  ghost predicate PublishedBy(c: Current, id: Id, plan: Plan) {
    && c.database.lastMigration == Some(id) && c.database.contract == Some(plan.contract)
    && c.database.schemaRelease == plan.release && HeadSet(c) == plan.target
  }

  // What is known of the database and current.json while a journal is open.
  ghost predicate OpenBefore(j: Journal, current: Current, live: set<string>) {
    && HeadSet(current) == live
    && (j.plan.Some? ==> OfIndented(current) == j.plan.value.base)
  }

  ghost predicate OpenAfter(id: Id, j: Journal, current: Current, holds: map<Id, Hold>) {
    && j.plan.Some? && HasActiveHold(holds, id)
    && (OfIndented(current) == j.plan.value.base || PublishedBy(current, id, j.plan.value))
    && (StateCommitted in j.log ==> PublishedBy(current, id, j.plan.value))
  }

  ghost predicate OpenOk(id: Id, j: Journal, begun: bool, current: Current, live: set<string>, holds: map<Id, Hold>) {
    if begun then OpenAfter(id, j, current, holds) else OpenBefore(j, current, live)
  }

  ghost predicate HoldOk(hold: Hold, journals: map<Id, Journal>, begun: set<Id>, backups: set<Id>) {
    && hold.migration in journals
    && (!hold.released ==> hold.backup in backups)
    && (hold.released && hold.migration in begun ==> Settled(journals[hold.migration]))
  }

  ghost predicate JournalsOk(journals: map<Id, Journal>, begun: set<Id>) {
    && (forall id :: id in journals ==> JournalOk(id, journals[id], id in begun))
    && begun <= journals.Keys
  }

  ghost predicate OneOpen(journals: map<Id, Journal>) {
    forall a, b :: Unresolved(journals, a) && Unresolved(journals, b) ==> a == b
  }

  ghost predicate OpensOk(d: Disk) {
    forall id :: Unresolved(d.journals, id) ==>
      OpenOk(id, d.journals[id], id in d.begun, d.current, d.live, d.holds)
  }

  ghost predicate HoldsOk(holds: map<Id, Hold>, journals: map<Id, Journal>, begun: set<Id>, backups: set<Id>) {
    forall h :: h in holds ==> HoldOk(holds[h], journals, begun, backups)
  }

  ghost predicate CurrentOk(current: Current, journals: map<Id, Journal>) {
    && Accepted(current)
    && (current.database.lastMigration.Some? ==> current.database.lastMigration.value in journals)
  }

  ghost predicate QuietOk(journals: map<Id, Journal>, current: Current, live: set<string>) {
    (forall id :: !Unresolved(journals, id)) ==> HeadSet(current) == live
  }

  ghost predicate DiskInv(d: Disk) {
    && JournalsOk(d.journals, d.begun) && OneOpen(d.journals) && OpensOk(d)
    && HoldsOk(d.holds, d.journals, d.begun, d.backups)
    && CurrentOk(d.current, d.journals) && QuietOk(d.journals, d.current, d.live)
  }

  // ---------------------------------------------------------------- one lemma a durable write

  lemma JournalCreated(d: Disk, id: Id)
    requires DiskInv(d) && id !in d.journals && forall other :: !Unresolved(d.journals, other)
    ensures DiskInv(NewJournal(d, id))
  {
    hide HeadSet, Accepted, JournalOk, OpenOk;
    var n := NewJournal(d, id);
    EmptyJournal(d, id);
    assert Unresolved(n.journals, id);
    forall other | Unresolved(n.journals, other) ensures other == id {
      assert !Unresolved(d.journals, other);
    }
  }

  lemma EmptyJournal(d: Disk, id: Id)
    requires QuietOk(d.journals, d.current, d.live) && forall other :: !Unresolved(d.journals, other)
    ensures JournalOk(id, Journal(None, [], None, None), false)
    ensures OpenOk(id, Journal(None, [], None, None), false, d.current, d.live, d.holds)
  {
    hide HeadSet;
  }

  lemma PlanWritten(d: Disk, id: Id, plan: Plan)
    requires DiskInv(d) && id in d.journals && id !in d.begun
    requires d.journals[id] == Journal(None, [], None, None)
    requires PlanOk(id, plan) && OfIndented(d.current) == plan.base
    ensures DiskInv(WritePlan(d, id, plan))
  {
    hide HeadSet, Accepted, PlanOk, HasActiveHold;
    SameOpens(d, WritePlan(d, id, plan), id);
  }

  // A write that leaves a journal's status of being open alone.
  lemma SameOpens(d: Disk, n: Disk, id: Id)
    requires id in d.journals && id in n.journals && n.journals == d.journals[id := n.journals[id]]
    requires Blocks(d.journals[id]) == Blocks(n.journals[id])
    ensures forall other :: Unresolved(n.journals, other) <==> Unresolved(d.journals, other)
  {
  }

  lemma EventAppended(d: Disk, id: Id, phase: Phase)
    requires DiskInv(d) && id in d.journals && d.journals[id].result.None? && d.journals[id].plan.Some?
    requires MayAppend(d.journals[id].log, phase)
    requires phase == StateCommitted ==> id in d.begun && PublishedBy(d.current, id, d.journals[id].plan.value)
    ensures DiskInv(AppendEvent(d, id, phase))
  {
    hide HeadSet, Accepted, HasActiveHold, PublishedBy, JournalOk, OpenOk, MayAppend;
    JournalGrows(id, d.journals[id], phase, id in d.begun);
    OpenGrows(d, id, phase);
    SameOpens(d, AppendEvent(d, id, phase), id);
  }

  lemma JournalGrows(id: Id, j: Journal, phase: Phase, begun: bool)
    requires JournalOk(id, j, begun) && j.result.None? && j.plan.Some? && MayAppend(j.log, phase)
    requires phase == StateCommitted ==> begun
    ensures JournalOk(id, j.(log := j.log + [phase]), begun)
  {
    hide PlanOk, IsPath, MayAppend;
    PathExtends(j.log, phase);
  }

  lemma OpenGrows(d: Disk, id: Id, phase: Phase)
    requires id in d.journals
    requires phase == StateCommitted ==>
               id in d.begun && d.journals[id].plan.Some? && PublishedBy(d.current, id, d.journals[id].plan.value)
    requires OpenOk(id, d.journals[id], id in d.begun, d.current, d.live, d.holds)
    ensures OpenOk(id, AppendEvent(d, id, phase).journals[id], id in d.begun, d.current, d.live, d.holds)
  {
    hide HeadSet, HasActiveHold, PublishedBy;
    var log := d.journals[id].log;
    assert StateCommitted in log + [phase] ==> StateCommitted in log || phase == StateCommitted;
  }

  lemma PathExtends(log: seq<Phase>, phase: Phase)
    requires IsPath(log) && MayAppend(log, phase)
    ensures IsPath(log + [phase])
    ensures Started in log ==> Started in log + [phase]
    ensures StateCommitted in log + [phase] ==> StateCommitted in log || phase == StateCommitted
  {
    assert (log + [phase])[..|log|] == log;
  }

  lemma BackupCreated(d: Disk, backup: Id)
    requires DiskInv(d)
    ensures DiskInv(d.(backups := d.backups + {backup}))
  {
    hide HeadSet, Accepted, JournalOk, OpenOk;
  }

  lemma HoldAdded(d: Disk, h: Id, hold: Hold)
    requires DiskInv(d) && h !in d.holds
    requires hold.migration in d.journals && hold.backup in d.backups && !hold.released
    ensures DiskInv(AddHold(d, h, hold))
  {
    hide HeadSet, Accepted, JournalOk, PublishedBy;
    var n := AddHold(d, h, hold);
    forall id | HasActiveHold(d.holds, id) ensures HasActiveHold(n.holds, id) {
      var k :| ActiveHold(d.holds, k, id);
      assert ActiveHold(n.holds, k, id);
    }
  }

  // Once the one open journal closes, nothing is open.
  lemma NothingOpenAfter(d: Disk, n: Disk, id: Id)
    requires OneOpen(d.journals) && Unresolved(d.journals, id)
    requires id in n.journals && n.journals == d.journals[id := n.journals[id]] && !Blocks(n.journals[id])
    ensures forall other :: !Unresolved(n.journals, other)
  {
    forall other ensures !Unresolved(n.journals, other) {
      assert Unresolved(d.journals, other) ==> other == id;
    }
  }

  lemma CommittedWritten(d: Disk, id: Id)
    requires DiskInv(d) && id in d.journals && d.journals[id].result.None?
    requires d.journals[id].log != [] && d.journals[id].log[|d.journals[id].log| - 1] == Committed
    requires d.journals[id].plan.Some? && PublishedBy(d.current, id, d.journals[id].plan.value)
    requires d.live == d.journals[id].plan.value.target
    ensures DiskInv(WriteResult(d, id, Committed))
  {
    var n := WriteResult(d, id, Committed);
    assert HeadSet(d.current) == d.live;
    hide HeadSet, Accepted, PlanOk, IsPath, OpenOk, PublishedBy;
    NothingOpenAfter(d, n, id);
  }

  lemma FailedWritten(d: Disk, id: Id)
    requires DiskInv(d) && id in d.journals && d.journals[id].result.None? && id !in d.begun
    requires d.journals[id].log != [] && d.journals[id].log[|d.journals[id].log| - 1] == Failed
    ensures DiskInv(WriteResult(d, id, Failed))
  {
    var n := WriteResult(d, id, Failed);
    assert OpenBefore(d.journals[id], d.current, d.live);
    NothingOpenAfter(d, n, id);
    hide HeadSet, Accepted, PlanOk, IsPath, HasActiveHold, PublishedBy;
  }

  lemma RecoveryRequired(d: Disk, id: Id)
    requires DiskInv(d) && id in d.journals && id in d.begun && d.journals[id].result.None?
    requires d.journals[id].log != [] && d.journals[id].log[|d.journals[id].log| - 1] == RequiresRecovery
    ensures DiskInv(WriteResult(d, id, RequiresRecovery))
  {
    ResultBeforeResolution(d, id);
    hide HeadSet, Accepted, JournalOk, OpenOk, JournalsOk, HoldOk, OneOpen;
    var n := WriteResult(d, id, RequiresRecovery);
    SameOpens(d, n, id);
    OpenIgnoresResult(id, d.journals[id], RequiresRecovery, d);
    RecoveryJournal(d, id);
    RecoveryRest(d, id);
  }

  lemma RecoveryJournal(d: Disk, id: Id)
    requires JournalsOk(d.journals, d.begun) && id in d.journals && id in d.begun && d.journals[id].result.None?
    requires d.journals[id].log != [] && d.journals[id].log[|d.journals[id].log| - 1] == RequiresRecovery
    ensures JournalsOk(WriteResult(d, id, RequiresRecovery).journals, d.begun)
  {
    JournalRecovers(id, d.journals[id]);
    JournalReplaced(d.journals, id, d.journals[id].(result := Some(RequiresRecovery)), d.begun);
  }

  lemma RecoveryRest(d: Disk, id: Id)
    requires OneOpen(d.journals) && HoldsOk(d.holds, d.journals, d.begun, d.backups)
    requires id in d.journals && d.journals[id].result.None? && d.journals[id].resolution.None?
    ensures OneOpen(WriteResult(d, id, RequiresRecovery).journals)
    ensures HoldsOk(d.holds, WriteResult(d, id, RequiresRecovery).journals, d.begun, d.backups)
  {
    SameOpens(d, WriteResult(d, id, RequiresRecovery), id);
  }

  lemma ResultBeforeResolution(d: Disk, id: Id)
    requires JournalsOk(d.journals, d.begun) && id in d.journals && d.journals[id].result.None?
    ensures d.journals[id].resolution.None?
  {
  }

  lemma JournalRecovers(id: Id, j: Journal)
    requires JournalOk(id, j, true) && j.result.None?
    requires j.log != [] && j.log[|j.log| - 1] == RequiresRecovery
    ensures JournalOk(id, j.(result := Some(RequiresRecovery)), true)
  {
    hide PlanOk, IsPath;
  }

  lemma JournalReplaced(journals: map<Id, Journal>, id: Id, j: Journal, begun: set<Id>)
    requires JournalsOk(journals, begun) && id in journals && JournalOk(id, j, id in begun)
    ensures JournalsOk(journals[id := j], begun)
  {
    hide JournalOk;
  }

  lemma OpenIgnoresResult(id: Id, j: Journal, status: Phase, d: Disk)
    ensures OpenOk(id, j.(result := Some(status)), id in d.begun, d.current, d.live, d.holds) ==
            OpenOk(id, j, id in d.begun, d.current, d.live, d.holds)
  {
    hide HeadSet, HasActiveHold, PublishedBy;
  }

  lemma ResolutionWritten(d: Disk, id: Id, action: Action)
    requires DiskInv(d) && Unresolved(d.journals, id) && d.journals[id].result == Some(RequiresRecovery)
    requires HeadSet(d.current) == d.live
    ensures DiskInv(WriteResolution(d, id, action))
  {
    var n := WriteResolution(d, id, action);
    JournalResolves(d, id, action);
    hide HeadSet, Accepted, JournalOk, JournalsOk, OpenOk;
    NothingOpenAfter(d, n, id);
  }

  lemma JournalResolves(d: Disk, id: Id, action: Action)
    requires JournalsOk(d.journals, d.begun) && id in d.journals && d.journals[id].result == Some(RequiresRecovery)
    ensures JournalsOk(WriteResolution(d, id, action).journals, d.begun)
  {
    var j := d.journals[id];
    assert JournalOk(id, j.(resolution := Some(action)), id in d.begun) by {
      assert JournalOk(id, j, id in d.begun);
      hide PlanOk, IsPath;
    }
    JournalReplaced(d.journals, id, j.(resolution := Some(action)), d.begun);
  }

  lemma Upgraded(d: Disk, id: Id, heads: set<string>)
    requires DiskInv(d) && Unresolved(d.journals, id) && id !in d.begun
    requires d.journals[id].plan.Some? && Started in d.journals[id].log && StateCommitted !in d.journals[id].log
    requires HasActiveHold(d.holds, id)
    requires forall h :: h in d.holds && d.holds[h].migration == id ==> !d.holds[h].released
    ensures DiskInv(Upgrade(d, id, heads))
  {
    var n := Upgrade(d, id, heads);
    hide HeadSet, Accepted, PlanOk, IsPath, HasActiveHold, PublishedBy;
    forall other | Unresolved(n.journals, other)
      ensures other == id && OpenAfter(id, n.journals[id], n.current, n.holds)
    {
    }
  }

  lemma CurrentPublished(d: Disk, id: Id, next: Current)
    requires DiskInv(d) && Unresolved(d.journals, id) && id in d.begun
    requires Accepted(next) && PublishedBy(next, id, d.journals[id].plan.value)
    ensures DiskInv(d.(current := next))
  {
    var n := d.(current := next);
    hide HeadSet, Accepted, PlanOk, IsPath, HasActiveHold;
    forall other | Unresolved(n.journals, other) ensures other == id {}
  }

  lemma HoldReleased(d: Disk, h: Id)
    requires DiskInv(d) && h in d.holds
    requires d.holds[h].migration in d.begun ==> Settled(d.journals[d.holds[h].migration])
    ensures DiskInv(Release(d, h))
  {
    hide HeadSet, Accepted, PlanOk, IsPath, PublishedBy;
    var n := Release(d, h);
    var m := d.holds[h].migration;
    assert m in d.begun ==> !Unresolved(d.journals, m);
    forall id | Unresolved(d.journals, id) && id in d.begun ensures HasActiveHold(n.holds, id) {
      var k :| ActiveHold(d.holds, k, id);
      assert k != h;
      assert ActiveHold(n.holds, k, id);
    }
  }

  lemma BackupDeleted(d: Disk, backup: Id)
    requires DiskInv(d) && !BackupHeld(d, backup)
    ensures DiskInv(d.(backups := d.backups - {backup}))
  {
    hide HeadSet, Accepted, JournalOk, OpenOk;
  }
}
