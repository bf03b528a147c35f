/** The steps of recovery and of prune. */
module MigrationRecovery {
  import opened Wrappers
  import opened Phases
  import opened CurrentState
  import opened MigrationProtocol
  import opened MigrationInvariant
  import opened MigrationSteps

  lemma ReadGood(d: Disk, r: Recoverer)
    requires DiskInv(d) && r.at == Reading
    ensures GoodTurn(ReadTurn(d, r))
  {
    hide DiskInv;
  }

  // Once current.json has been published, its digest is neither of the two the plan recorded.
  lemma PublishedMatchesNoDigest(d: Disk, id: Id, plan: Plan)
    requires PlanOk(id, plan) && PublishedBy(d.current, id, plan)
    ensures OfIndented(d.current) != plan.base && OfIndented(d.current) != plan.expected
  {
  }

  lemma CommittedStateIsPublished(d: Disk, id: Id)
    requires DiskInv(d) && Unresolved(d.journals, id) && StateCommitted in d.journals[id].log
    ensures d.journals[id].plan.Some? && PlanOk(id, d.journals[id].plan.value)
    ensures PublishedBy(d.current, id, d.journals[id].plan.value)
  {
    hide HeadSet, Accepted, IsPath, HasActiveHold, HoldsOk, QuietOk, OneOpen;
  }

  /** The gate admits a journal with no result only in `state_committed`, and there both digests are stale:
      such a recovery always ends without writing anything. */
  lemma MissingResultIsNeverRecovered(d: Disk, r: Recoverer, o: Oracle)
    requires DiskInv(d) && RecovererInv(r, d) && r.at == Checking && r.action != ReleaseHold && r.seen.None?
    ensures RecoverTurn(d, r, o) == Turn(d, None)
  {
    if Unresolved(d.journals, r.id) {
      CommittedStateIsPublished(d, r.id);
      PublishedMatchesNoDigest(d, r.id, r.plan);
    }
    hide DiskInv, PlanOk, PublishedBy;
  }

  /** The expected digest is over the compact rendering, so accept_target never finds it on disk. */
  lemma ExpectedDigestNeverMatches(d: Disk, id: Id, plan: Plan)
    requires PlanOk(id, plan)
    ensures OfIndented(d.current) != plan.expected
  {
  }

  lemma ContinuesGood(d: Disk, r: Recoverer, at: RecoverAt)
    requires DiskInv(d) && RecovererInv(r.(at := at), d)
    ensures GoodTurn(Continues(d, r, at))
  {
    hide DiskInv, RecovererInv;
  }

  lemma CheckGood(d: Disk, r: Recoverer, o: Oracle)
    requires DiskInv(d) && RecovererInv(r, d) && r.at == Checking
    ensures GoodTurn(CheckTurn(d, r, o))
  {
    assert GoodTurn(Turn(d, None));
    if HoldMatches(d, o.pick, r.id, r.plan) && o.outcome == Done {
      var next := r.(hold := o.pick, before := d.current);
      if r.action == ReleaseHold {
        CheckReleaseGood(d, r, next);
      } else if r.seen.None? {
        MissingResultIsNeverRecovered(d, r, o);
      } else {
        CheckAcceptGood(d, r, o, next);
      }
      hide DiskInv, RecovererInv, GoodTurn;
    }
  }

  lemma CheckReleaseGood(d: Disk, r: Recoverer, next: Recoverer)
    requires DiskInv(d) && RecovererInv(r, d) && r.at == Checking && r.action == ReleaseHold
    requires next == r.(hold := next.hold, before := d.current) && ActiveHold(d.holds, next.hold, r.id)
    ensures GoodTurn(Continues(d, next, RecoverOpening))
  {
    hide DiskInv;
    ContinuesGood(d, next, RecoverOpening);
  }

  lemma CheckAcceptGood(d: Disk, r: Recoverer, o: Oracle, next: Recoverer)
    requires DiskInv(d) && RecovererInv(r, d) && r.at == Checking && r.action != ReleaseHold && r.seen.Some?
    requires next == r.(hold := o.pick, before := d.current) && HoldMatches(d, o.pick, r.id, r.plan) && o.outcome == Done
    ensures GoodTurn(CheckTurn(d, r, o))
  {
    assert GoodTurn(Turn(d, None));
    PlanIsOk(d, r);
    ExpectedDigestNeverMatches(d, r.id, r.plan);
    if Unresolved(d.journals, r.id) && OfIndented(d.current) == r.plan.base {
      if r.action == AcceptSource && d.live == r.plan.source {
        assert RecovererInv(next.(at := Completing), d) by { hide DiskInv; }
        ContinuesGood(d, next, Completing);
      } else if r.action == AcceptTarget && d.live == r.plan.target {
        assert RecovererInv(next.(at := Republishing), d) by { hide DiskInv; }
        ContinuesGood(d, next, Republishing);
      }
    }
    hide DiskInv, RecovererInv, GoodTurn, PlanOk;
  }

  lemma PlanIsOk(d: Disk, r: Recoverer)
    requires DiskInv(d) && RecovererInv(r, d) && r.at != Reading
    ensures PlanOk(r.id, r.plan)
  {
    hide HeadSet, Accepted, IsPath, OpensOk, HoldsOk, QuietOk, OneOpen;
  }

  lemma RepublishFacts(d: Disk, r: Recoverer, at: string)
    requires DiskInv(d) && RecovererInv(r, d) && r.at == Republishing
    ensures var next := Publish(r.before, PublishEvent(r.plan, r.id, at));
            next.Some? && Accepted(next.value) && PublishedBy(next.value, r.id, r.plan)
  {
    PlanIsOk(d, r);
    RecovererBegun(d, r);
    assert r.before == d.current;
    hide DiskInv, RecovererInv, Publish, HeadSet, Accepted;
    MigrationPublishes(r.before, r.plan.release, r.plan.target, r.id, r.plan.contract, at);
  }

  lemma RepublishGood(d: Disk, r: Recoverer, o: Oracle)
    requires DiskInv(d) && RecovererInv(r, d) && r.at == Republishing
    ensures GoodTurn(RepublishTurn(d, r, o))
  {
    RepublishFacts(d, r, o.at);
    RecovererBegun(d, r);
    var next := Publish(r.before, PublishEvent(r.plan, r.id, o.at)).value;
    hide DiskInv, Publish, Accepted, PublishedBy, GoodTurn;
    RepublishedRecoverer(d, r, next);
    CurrentPublished(d, r.id, next);
    hide RecovererInv;
    ContinuesGood(d.(current := next), r, Completing);
    EndGood(d);
    EndGood(d.(current := next));
  }

  lemma EndGood(d: Disk)
    requires DiskInv(d)
    ensures GoodTurn(Turn(d, None))
  {
  }

  lemma RepublishedRecoverer(d: Disk, r: Recoverer, next: Current)
    requires RecovererInv(r, d) && r.at == Republishing && PublishedBy(next, r.id, r.plan)
    ensures RecovererInv(r.(at := Completing), d.(current := next))
    ensures Unresolved(d.journals, r.id) && d.journals[r.id].plan == Some(r.plan)
  {
    hide HeadSet;
  }

  lemma RecovererBegun(d: Disk, r: Recoverer)
    requires DiskInv(d) && RecovererInv(r, d) && (r.at == Republishing || r.at == Completing || r.at == Resolving)
    ensures r.id in d.begun && d.journals[r.id].result == Some(RequiresRecovery) && Accepted(d.current)
  {
    hide HeadSet, Accepted, IsPath, OpensOk, HoldsOk, QuietOk, OneOpen;
    if StateCommitted in d.journals[r.id].log {}
  }

  lemma CompleteGood(d: Disk, r: Recoverer, o: Oracle)
    requires DiskInv(d) && RecovererInv(r, d) && r.at == Completing
    ensures GoodTurn(CompleteTurn(d, r, o))
  {
    hide DiskInv;
  }

  lemma ResolverKnows(d: Disk, r: Recoverer)
    requires RecovererInv(r, d) && r.at == Resolving
    ensures Unresolved(d.journals, r.id) && d.journals[r.id].result == Some(RequiresRecovery)
    ensures HeadSet(d.current) == d.live
  {
    hide HeadSet;
  }

  lemma ResolveGood(d: Disk, r: Recoverer, o: Oracle)
    requires DiskInv(d) && RecovererInv(r, d) && r.at == Resolving
    ensures GoodTurn(ResolveTurn(d, r, o))
  {
    RecovererBegun(d, r);
    ResolverKnows(d, r);
    hide DiskInv, GoodTurn, RecovererInv, Settled, HeadSet, Unresolved;
    EndGood(d);
    var written := WriteResolution(d, r.id, r.action);
    ResolutionWritten(d, r.id, r.action);
    ResolvedRecoverer(d, r);
    EndGood(written);
    ContinuesGood(written, r, RecoverOpening);
  }

  lemma ResolvedRecoverer(d: Disk, r: Recoverer)
    requires RecovererInv(r, d) && r.at == Resolving && d.journals[r.id].resolution.None?
    ensures RecovererInv(r.(at := RecoverOpening), WriteResolution(d, r.id, r.action))
  {
    hide HeadSet;
  }

  lemma RecoverTurnGood(d: Disk, r: Recoverer, o: Oracle)
    requires DiskInv(d) && RecovererInv(r, d)
    ensures GoodTurn(RecoverTurn(d, r, o))
  {
    assert GoodTurn(Turn(d, None));
    match r.at
    case Reading => ReadGood(d, r);
    case RecoverWantLock => LockGood(d, r);
    case Checking => CheckGood(d, r, o);
    case Republishing => RepublishGood(d, r, o);
    case Completing => CompleteGood(d, r, o);
    case Resolving => ResolveGood(d, r, o);
    case RecoverOpening => LockGood(d, r);
    case RecoverReleasing =>
      ReleasingRecoverer(d, r);
      ReleaseGood(d, Some(r.hold), o);
  }

  lemma LockGood(d: Disk, r: Recoverer)
    requires DiskInv(d) && RecovererInv(r, d)
    ensures r.at == RecoverWantLock ==> GoodTurn(Continues(d, r, Checking))
    ensures r.at == RecoverOpening ==> GoodTurn(Continues(d, r, RecoverReleasing))
  {
    hide DiskInv;
  }

  lemma ReleasingRecoverer(d: Disk, r: Recoverer)
    requires RecovererInv(r, d) && r.at == RecoverReleasing
    ensures r.hold in d.holds && d.holds[r.hold].migration == r.id && r.id in d.journals && Settled(d.journals[r.id])
  {
  }

  lemma PruneTurnGood(d: Disk, p: Proc, o: Oracle)
    requires DiskInv(d) && p.Pruning?
    ensures GoodTurn(PruneTurn(d, p, o))
  {
    if !BackupHeld(d, o.pick) { BackupDeleted(d, o.pick); }
    hide DiskInv, BackupHeld;
  }

  lemma TurnGood(d: Disk, p: Proc, o: Oracle)
    requires DiskInv(d) && ProcInv(p, d)
    ensures GoodTurn(TurnOf(d, p, o))
  {
    hide DiskInv, MigratorInv, RecovererInv, MigrateTurn, RecoverTurn, PruneTurn, GoodTurn;
    match p
    case Migrating(m) => MigrateTurnGood(d, m, o);
    case Recovering(r) => RecoverTurnGood(d, r, o);
    case Pruning(_, _) => PruneTurnGood(d, p, o);
  }
}
