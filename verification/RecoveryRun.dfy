/** recover_migration as it is written: a gate, the checks under the lock, then the writes in their order. */
module RecoveryRun {
  import opened Wrappers
  import opened Phases
  import opened CurrentState
  import opened MigrationProtocol
  import opened MigrationRun

  class Recovery {
    const script: nat -> Oracle
    const id: Id
    const action: Action

    var disk: Disk
    var calls: nat
    var seen: Option<Phase>
    var plan: Plan
    var before: Current
    var hold: Id

    ghost var at: RecoverAt
    ghost var running: bool
    ghost const origin: Turn

    constructor (disk: Disk, id: Id, action: Action, plan: Plan, before: Current, script: nat -> Oracle)
      ensures Follows() && running && at == Reading && calls == 0
      ensures this.disk == disk && this.id == id && this.action == action
      ensures origin == Turn(disk, Some(Recovering(Recoverer(Reading, id, action, None, plan, before, ""))))
    {
      this.script, this.disk, this.id, this.action := script, disk, id, action;
      calls, seen, this.plan, this.before, hold := 0, None, plan, before, "";
      at, running := Reading, true;
      origin := Turn(disk, Some(Recovering(Recoverer(Reading, id, action, None, plan, before, ""))));
    }

    ghost function Me(): Recoverer
      reads this
    {
      Recoverer(at, id, action, seen, plan, before, hold)
    }

    ghost function Here(): Turn
      reads this
    {
      Turn(disk, if running then Some(Recovering(Me())) else None)
    }

    ghost predicate Follows()
      reads this
    {
      Steps(origin, script, calls) == Here()
    }

    method Ask() returns (o: Oracle)
      requires Follows() && running
      modifies this`calls
      ensures calls == old(calls) + 1 && o == script(old(calls))
      ensures Steps(origin, script, calls) == RecoverTurn(disk, Me(), o)
    {
      hide RecoverTurn;
      o := script(calls);
      calls := calls + 1;
    }

    // The gate, before any lock: what the journal already says decides whether to try at all.
    method ReadJournal() returns (refused: bool)
      requires Follows() && running && at == Reading
      modifies this`calls, this`at, this`running, this`seen, this`plan
      ensures Follows() && (if refused then !running else running && at == RecoverWantLock && calls == old(calls) + 1)
      ensures refused <==> id !in disk.journals || !MayRecover(disk.journals[id], action)
      ensures !refused ==> seen == disk.journals[id].result && disk.journals[id].plan == Some(plan)
    {
      hide Steps, CheckTurn, RepublishTurn, CompleteTurn, ResolveTurn, ReleaseTurn, MayRecover;
      var o := Ask();
      refused := id !in disk.journals || !MayRecover(disk.journals[id], action);
      if refused {
        running := false;
        return;
      }
      JournalHasPlan(disk.journals[id], action);
      seen, plan, at := disk.journals[id].result, disk.journals[id].plan.value, RecoverWantLock;
    }

    static lemma JournalHasPlan(j: Journal, action: Action)
      requires MayRecover(j, action)
      ensures j.plan.Some?
    {
    }

    method TakeLock() returns (raised: bool)
      requires Follows() && running && at == RecoverWantLock
      modifies this`calls, this`at, this`running
      ensures Follows() && (if raised then !running else running && at == Checking && calls == old(calls) + 1)
      ensures raised <==> script(old(calls)).outcome != Done
    {
      hide Steps, ReadTurn, CheckTurn, RepublishTurn, CompleteTurn, ResolveTurn, ReleaseTurn;
      var o := Ask();
      raised := o.outcome != Done;
      if raised { running := false; } else { at := Checking; }
    }

    // The hold, the live heads and the digest of current.json, each read under the lock.
    method Check() returns (next: RecoverAt, raised: bool)
      requires Follows() && running && at == Checking
      modifies this`calls, this`at, this`running, this`before, this`hold
      ensures Follows() && (if raised then !running else running && at == next)
      ensures !raised ==> HoldMatches(disk, hold, id, plan)
      ensures !raised ==> next == RecoverOpening || next == Completing || next == Republishing
      ensures !raised && next != RecoverOpening ==> Unresolved(disk.journals, id) && action != ReleaseHold
      ensures !raised && next == Republishing ==> disk.live == plan.target && OfIndented(disk.current) == plan.base
      ensures !raised && next == RecoverOpening ==> action == ReleaseHold
      ensures !raised <==> script(old(calls)).outcome == Done && Fits(disk, script(old(calls)).pick, plan)
      ensures !raised ==> hold == script(old(calls)).pick && before == disk.current && calls == old(calls) + 1
      ensures !raised ==> next == if action == ReleaseHold then RecoverOpening
                                  else if Republishes(disk, plan) then Republishing else Completing
    {
      hide Steps, ReadTurn, RepublishTurn, CompleteTurn, ResolveTurn, ReleaseTurn, HoldMatches;
      var o := Ask();
      next, raised := Checking, true;
      if HoldMatches(disk, o.pick, id, plan) && o.outcome == Done {
        var digest := OfIndented(disk.current);
        match action
        case ReleaseHold => next, raised := RecoverOpening, false;
        case AcceptSource =>
          if Unresolved(disk.journals, id) && disk.live == plan.source && digest == plan.base {
            next, raised := Completing, false;
          }
        case AcceptTarget =>
          if Unresolved(disk.journals, id) && disk.live == plan.target {
            if digest == plan.expected {
              next, raised := Completing, false;
            } else if digest == plan.base {
              next, raised := Republishing, false;
            }
          }
      }
      if raised { running := false; } else { hold, before, at := o.pick, disk.current, next; }
    }

    // What the checks ask of the disk: the hold, and for accepting an open journal, the heads and the document.
    ghost predicate Fits(d: Disk, h: Id, p: Plan) {
      && HoldMatches(d, h, id, p)
      && match action
         case ReleaseHold => true
         case AcceptSource => Unresolved(d.journals, id) && d.live == p.source && OfIndented(d.current) == p.base
         case AcceptTarget =>
           && Unresolved(d.journals, id) && d.live == p.target
           && (OfIndented(d.current) == p.expected || OfIndented(d.current) == p.base)
    }

    // The document is still the one planned from, so accepting the target publishes it first.
    ghost predicate Republishes(d: Disk, p: Plan) {
      action == AcceptTarget && OfIndented(d.current) != p.expected
    }

    method Republish() returns (raised: bool)
      requires Follows() && running && at == Republishing
      modifies this`calls, this`at, this`running, this`disk
      ensures Follows() && (if raised then !running else running && at == Completing)
      ensures !raised ==> Publish(before, PublishEvent(plan, id, script(old(calls)).at)) == Some(disk.current)
      ensures disk == old(disk).(current := disk.current)
      ensures calls == old(calls) + 1
      ensures !raised <==> script(old(calls)).outcome == Done && Publish(before, PublishEvent(plan, id, script(old(calls)).at)).Some?
    {
      hide Steps, ReadTurn, CheckTurn, CompleteTurn, ResolveTurn, ReleaseTurn, Publish, PublishEvent;
      var o := Ask();
      var next := Publish(before, PublishEvent(plan, id, o.at));
      raised := next.None? || o.outcome != Done;
      if next.Some? && o.outcome != Raised { disk := disk.(current := next.value); }
      if raised { running := false; } else { at := Completing; }
    }

    // A result that was missing when the gate was evaluated is supplied first.
    method Complete() returns (raised: bool)
      requires Follows() && running && at == Completing
      modifies this`calls, this`at, this`running, this`disk
      ensures Follows() && (if raised then !running else running && at == Resolving)
      ensures !raised && seen.None? && action == AcceptTarget ==>
                id in disk.journals && disk.journals[id].result == Some(Committed)
      ensures seen.Some? ==> !raised && disk == old(disk)
      ensures calls == old(calls) + 1 && disk == old(disk).(journals := disk.journals)
      ensures id in old(disk).journals ==>
                id in disk.journals && disk.journals[id].resolution == old(disk).journals[id].resolution
      ensures !raised && id in old(disk).journals ==>
                disk.journals[id].result
                == (if seen.None? && action == AcceptTarget then Some(Committed) else old(disk).journals[id].result)
      ensures id in old(disk).journals && old(disk).journals[id].result == seen ==>
                (raised <==> seen.None? && action == AcceptTarget && script(old(calls)).outcome != Done)
    {
      hide Steps, ReadTurn, CheckTurn, RepublishTurn, ResolveTurn, ReleaseTurn;
      var o := Ask();
      if seen.Some? || action != AcceptTarget {
        at := Resolving;
        return false;
      }
      raised := id !in disk.journals || disk.journals[id].result.Some? || o.outcome != Done;
      if id in disk.journals && disk.journals[id].result.None? && o.outcome != Raised {
        disk := WriteResult(disk, id, Committed);
      }
      if raised { running := false; } else { at := Resolving; }
    }

    method Resolve() returns (raised: bool)
      requires Follows() && running && at == Resolving
      modifies this`calls, this`at, this`running, this`disk
      ensures Follows() && (if raised then !running else running && at == RecoverOpening)
      ensures !raised ==> id in disk.journals && disk.journals[id].resolution == Some(action)
      ensures disk == old(disk) || (id in old(disk).journals && disk == WriteResolution(old(disk), id, action))
      ensures calls == old(calls) + 1
      ensures !raised <==> id in old(disk).journals && old(disk).journals[id].resolution.None? && script(old(calls)).outcome == Done
    {
      hide Steps, ReadTurn, CheckTurn, RepublishTurn, CompleteTurn, ReleaseTurn;
      var o := Ask();
      raised := id !in disk.journals || disk.journals[id].resolution.Some? || o.outcome != Done;
      if id in disk.journals && disk.journals[id].resolution.None? && o.outcome != Raised {
        disk := WriteResolution(disk, id, action);
      }
      if raised { running := false; } else { at := RecoverOpening; }
    }

    // The backup root is opened and the hold released; here, unlike after a migration, a failure is raised.
    method ReleaseTheHold() returns (raised: bool)
      requires Follows() && running && at == RecoverOpening
      modifies this`calls, this`at, this`running, this`disk
      ensures Follows() && !running
      ensures !raised <==> script(old(calls)).outcome == Done && script(old(calls) + 1).outcome == Done
                           && hold in old(disk).holds && !old(disk).holds[hold].released
      ensures !raised ==> disk == Release(old(disk), hold)
      ensures disk == old(disk) || (hold in old(disk).holds && disk == Release(old(disk), hold))
    {
      hide Steps, ReadTurn, CheckTurn, RepublishTurn, CompleteTurn, ResolveTurn;
      var session := Ask();
      if session.outcome != Done {
        running := false;
        return true;
      }
      at := RecoverReleasing;
      assert Follows();
      var o := Ask();
      raised := hold !in disk.holds || disk.holds[hold].released || o.outcome != Done;
      if hold in disk.holds && !disk.holds[hold].released && o.outcome != Raised {
        disk := Release(disk, hold);
      }
      running := false;
    }

    // ---------------------------------------------------------------- when it succeeds

    // Each call ends normally; with release_hold these are the lock, the checks, the backup root and the release.
    ghost predicate ReleaseGoesThrough(d: Disk) {
      && id in d.journals && d.journals[id].plan.Some? && Fits(d, script(2).pick, d.journals[id].plan.value)
      && script(1).outcome == Done && script(2).outcome == Done && script(3).outcome == Done && script(4).outcome == Done
    }

    // With an accept action, in between, the document, the result that was missing, and the resolution.
    ghost predicate AcceptGoesThrough(d: Disk) {
      && id in d.journals && d.journals[id].plan.Some? && Fits(d, script(2).pick, d.journals[id].plan.value)
      && script(1).outcome == Done && script(2).outcome == Done
      && var p := d.journals[id].plan.value; var c := if Republishes(d, p) then 4 else 3;
         && (c == 4 ==> script(3).outcome == Done && Publish(d.current, PublishEvent(p, id, script(3).at)).Some?)
         && (d.journals[id].result.None? && action == AcceptTarget ==> script(c).outcome == Done)
         && script(c + 1).outcome == Done && script(c + 2).outcome == Done && script(c + 3).outcome == Done
    }

    ghost predicate GoesThrough(d: Disk) {
      if action == ReleaseHold then ReleaseGoesThrough(d) else AcceptGoesThrough(d)
    }

    // What an accepted migration comes to: heads and backups are as they were, the document is the one on disk or the
    // planned one published at that moment, and a result that was missing is supplied with the target.
    ghost predicate Accepted(d: Disk, p: Plan)
      reads `disk
    {
      && disk.live == d.live && disk.backups == d.backups && id in d.journals && id in disk.journals
      && (if Republishes(d, p) then Publish(d.current, PublishEvent(p, id, script(3).at)) == Some(disk.current)
          else disk.current == d.current)
      && disk.journals[id].result
         == (if action == AcceptTarget && d.journals[id].result.None? then Some(Committed) else d.journals[id].result)
    }

    // Everything from the lock on.
    method Proceed() returns (raised: bool)
      requires Follows() && running && at == RecoverWantLock && calls == 1 && id in disk.journals
      requires disk.journals[id].plan == Some(plan) && seen == disk.journals[id].result && disk.journals[id].resolution.None?
      modifies this`calls, this`at, this`running, this`before, this`hold, this`disk
      ensures Follows() && !running && (!raised <==> GoesThrough(old(disk)))
      ensures !raised && action != ReleaseHold ==> id in disk.journals && disk.journals[id].resolution == Some(action)
      ensures !raised ==> hold == script(2).pick && hold in old(disk).holds && !old(disk).holds[hold].released
                          && disk.holds == old(disk).holds[hold := old(disk).holds[hold].(released := true)]
      ensures !raised && action == ReleaseHold ==> disk == old(disk).(holds := disk.holds)
      ensures !raised && action != ReleaseHold ==> Accepted(old(disk), plan)
    {
      hide Follows, HoldMatches, Fits, Republishes, Publish, PublishEvent;
      ghost var d := disk;
      raised := TakeLock();
      if raised { return; }
      var next;
      next, raised := Check();
      if raised { return; }
      HoldIsActive(d, hold, plan);
      if next == RecoverOpening {
        raised := ReleaseTheHold();
        return;
      }
      raised := Accept(next, d);
    }

    // The checks have passed, the heads are the action's.
    method Accept(next: RecoverAt, ghost d: Disk) returns (raised: bool)
      requires Follows() && running && at == next && calls == 3 && disk == d && id in d.journals && before == d.current
      requires next == if Republishes(d, plan) then Republishing else Completing
      requires d.journals[id].plan == Some(plan) && seen == d.journals[id].result && d.journals[id].resolution.None?
      requires Fits(d, script(2).pick, plan) && script(1).outcome == Done && script(2).outcome == Done
      requires action != ReleaseHold && hold == script(2).pick && hold in d.holds && !d.holds[hold].released
      modifies this`calls, this`at, this`running, this`disk
      ensures Follows() && !running && (!raised <==> AcceptGoesThrough(d))
      ensures !raised ==> id in disk.journals && disk.journals[id].resolution == Some(action)
      ensures !raised ==> disk.holds == d.holds[hold := d.holds[hold].(released := true)]
      ensures !raised ==> Accepted(d, plan)
    {
      hide Follows, HoldMatches, Fits, Republishes, Publish, PublishEvent;
      raised := false;
      if next == Republishing {
        raised := Republish();
        if raised { return; }
      }
      raised := Complete();
      if raised { return; }
      raised := Resolve();
      if raised { return; }
      raised := ReleaseTheHold();
    }

    lemma HoldIsActive(d: Disk, h: Id, p: Plan)
      requires Fits(d, h, p)
      ensures h in d.holds && !d.holds[h].released
    {
    }

    /** The whole call: it runs the protocol to its end. A migration resolved before is answered with its resolution; a
        journal the gate refuses is left exactly as it was; otherwise it answers its action exactly when every call
        went through, and then its hold is released, and the action is on disk as the resolution if it accepts. */
    method RecoverMigration() returns (outcome: Option<Action>)
      requires Follows() && running && at == Reading && calls == 0
      modifies this
      ensures Follows() && !running
      ensures outcome == if id !in old(disk).journals then None
                         else if old(disk).journals[id].resolution.Some? then old(disk).journals[id].resolution
                         else if MayRecover(old(disk).journals[id], action) && GoesThrough(old(disk)) then Some(action) else None
      ensures id !in old(disk).journals || !MayRecover(old(disk).journals[id], action) ==> disk == old(disk)
      ensures outcome.Some? && outcome != Some(ReleaseHold) ==>
                id in disk.journals && disk.journals[id].resolution == outcome
      ensures id in old(disk).journals && MayRecover(old(disk).journals[id], action) && outcome.Some? ==>
                && script(2).pick in disk.holds && disk.holds[script(2).pick].released
                && HoldMatches(old(disk), script(2).pick, id, old(disk).journals[id].plan.value)
                && (if action == ReleaseHold then disk == old(disk).(holds := disk.holds)
                    else Accepted(old(disk), old(disk).journals[id].plan.value))
    {
      hide Follows, HoldMatches;
      var refused := ReadJournal();
      if refused {
        return if id in disk.journals then disk.journals[id].resolution else None;
      }
      ghost var d := disk;
      hide GoesThrough, Fits;
      var raised := Proceed();
      if raised { return None; }
      FitsHold(d);
      return Some(action);
    }

    lemma FitsHold(d: Disk)
      requires GoesThrough(d)
      ensures id in d.journals && d.journals[id].plan.Some? && HoldMatches(d, script(2).pick, id, d.journals[id].plan.value)
    {
      hide HoldMatches, Publish, PublishEvent;
    }
  }
}
