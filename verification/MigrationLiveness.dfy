/** What recovery can and cannot reach: runs that resolve a migration, and runs that leave one open for good. */
module MigrationLiveness {
  import opened Wrappers
  import opened Phases
  import opened CurrentState
  import opened Ordering
  import opened MigrationProtocol
  import opened MigrationInvariant
  import opened MigrationSteps
  import opened MigrationFrame
  import opened MigrationSafety
  import MigrationRecovery
  import MigrationTheorems

  ghost predicate IsSegment(run: seq<Sys>) {
    run != [] && forall i, k :: 0 <= i < k < |run| && k == i + 1 ==> Next(run[i], run[k])
  }

  ghost predicate Leads(s: Sys, t: Sys) {
    exists run :: IsSegment(run) && run[0] == s && run[|run| - 1] == t
  }

  lemma LeadsSelf(s: Sys)
    ensures Leads(s, s)
  {
    assert IsSegment([s]) && [s][0] == s;
  }

  lemma LeadsOn(s: Sys, t: Sys, u: Sys)
    requires Leads(s, t) && Next(t, u)
    ensures Leads(s, u)
  {
    hide Next;
    var run :| IsSegment(run) && run[0] == s && run[|run| - 1] == t;
    var more := run + [u];
    assert forall i, k :: 0 <= i < k < |run| && k == i + 1 ==> more[i] == run[i] && more[k] == run[k];
    assert IsSegment(more) && more[0] == s && more[|more| - 1] == u;
  }

  lemma ReachableOn(s: Sys, t: Sys)
    requires Reachable(s) && Next(s, t)
    ensures Reachable(t)
  {
    hide Next, Init;
    var run :| IsRun(run) && run[|run| - 1] == s;
    var more := run + [t];
    assert IsRun(more) && more[|more| - 1] == t;
  }

  lemma {:induction false} SegmentReachable(run: seq<Sys>, k: nat)
    requires IsSegment(run) && Reachable(run[0]) && k < |run|
    ensures Reachable(run[k])
  {
    hide Next, Reachable;
    if k > 0 {
      SegmentReachable(run, k - 1);
      ReachableOn(run[k - 1], run[k]);
    }
  }

  lemma LeadsReachable(s: Sys, t: Sys)
    requires Reachable(s) && Leads(s, t)
    ensures Reachable(t)
  {
    hide Next, Reachable;
    var run :| IsSegment(run) && run[0] == s && run[|run| - 1] == t;
    SegmentReachable(run, |run| - 1);
  }

  // One step of a process that need not wait.
  lemma Advances(from: Sys, s: Sys, pid: Pid, o: Oracle, n: Disk, p: Proc) returns (t: Sys)
    requires Leads(from, s) && pid in s.procs && TurnOf(s.disk, s.procs[pid], o) == Turn(n, Some(p))
    requires HoldsRollout(p) ==> s.rollout.None? || s.rollout == Some(pid)
    requires !HoldsSession(p) && s.session.None?
    ensures Leads(from, t) && t.disk == n && t.procs == s.procs[pid := p]
    ensures t.session.None? && t.rollout == LockAfter(s.rollout, pid, HoldsRollout(p))
  {
    hide TurnOf, HoldsRollout, HoldsSession, Leads;
    t := Advance(s, pid, o);
    assert Next(s, t);
    LeadsOn(from, s, t);
  }

  lemma Begins(s: Sys, pid: Pid, p: Proc) returns (t: Sys)
    requires pid !in s.procs && Starts(p)
    ensures Leads(s, t) && t == s.(procs := s.procs[pid := p])
  {
    LeadsSelf(s);
    t := s.(procs := s.procs[pid := p]);
    assert Next(s, t);
    LeadsOn(s, s, t);
  }

  // ---------------------------------------------------------------- recovery that works

  const QUIET: Oracle := Oracle(Done, "", {}, "", "", "", "", {})

  // The database is where the chosen action expects it, and current.json is still the planned document.
  predicate Acceptable(d: Disk, id: Id, action: Action, h: Id) {
    && id in d.journals && d.journals[id].plan.Some? && action != ReleaseHold
    && var plan := d.journals[id].plan.value;
       && HoldMatches(d, h, id, plan) && OfIndented(d.current) == plan.base
       && d.live == if action == AcceptSource then plan.source else plan.target
  }

  lemma ReachChecking(s: Sys, pid: Pid, id: Id, action: Action, plan: Plan, before: Current) returns (t: Sys, r: Recoverer)
    requires pid !in s.procs && s.rollout.None? && s.session.None? && action != ReleaseHold
    requires Unresolved(s.disk.journals, id) && s.disk.journals[id].plan == Some(plan)
    requires s.disk.journals[id].result == Some(RequiresRecovery)
    ensures Leads(s, t) && t.disk == s.disk && t.procs == s.procs[pid := Recovering(r)]
    ensures t.rollout == Some(pid) && t.session.None?
    ensures r.at == Checking && r.id == id && r.action == action && r.plan == plan && r.seen.Some?
  {
    hide Leads;
    var r0 := Recoverer(Reading, id, action, None, plan, before, "");
    var t0 := Begins(s, pid, Recovering(r0));
    var r1 := r0.(at := RecoverWantLock, seen := Some(RequiresRecovery));
    assert ReadTurn(s.disk, r0) == Turn(s.disk, Some(Recovering(r1)));
    var t1 := Advances(s, t0, pid, QUIET, s.disk, Recovering(r1));
    r := r1.(at := Checking);
    t := Advances(s, t1, pid, QUIET, s.disk, Recovering(r));
  }

  lemma Resolves(s: Sys, t: Sys, pid: Pid, r: Recoverer) returns (u: Sys)
    requires Leads(s, t) && pid in t.procs && t.procs[pid] == Recovering(r) && r.at == Completing && r.seen.Some?
    requires t.rollout == Some(pid) && t.session.None?
    requires r.id in t.disk.journals && t.disk.journals[r.id].resolution.None?
    ensures Leads(s, u) && u.disk == WriteResolution(t.disk, r.id, r.action)
    ensures pid in u.procs && u.procs[pid] == Recovering(r.(at := RecoverOpening)) && u.session.None?
  {
    hide Leads;
    var r1 := r.(at := Resolving);
    assert CompleteTurn(t.disk, r, QUIET) == Turn(t.disk, Some(Recovering(r1)));
    var t1 := Advances(s, t, pid, QUIET, t.disk, Recovering(r1));
    var n := WriteResolution(t.disk, r.id, r.action);
    var r2 := r.(at := RecoverOpening);
    assert ResolveTurn(t.disk, r1, QUIET) == Turn(n, Some(Recovering(r2)));
    u := Advances(s, t1, pid, QUIET, n, Recovering(r2));
  }

  lemma PublishSucceeds(s: Sys, id: Id, at: string)
    requires Reachable(s) && id in s.disk.journals && s.disk.journals[id].plan.Some?
    ensures var next := Publish(s.disk.current, PublishEvent(s.disk.journals[id].plan.value, id, at));
            next.Some? && PublishedBy(next.value, id, s.disk.journals[id].plan.value)
  {
    ReachableInv(s);
    assert JournalOk(id, s.disk.journals[id], id in s.disk.begun);
    var plan := s.disk.journals[id].plan.value;
    MigrationPublishes(s.disk.current, plan.release, plan.target, id, plan.contract, at);
  }

  // The check passes and, for accept_target, current.json is published first.
  lemma Accepts(s: Sys, t: Sys, pid: Pid, r: Recoverer, h: Id) returns (u: Sys, r2: Recoverer)
    requires Reachable(s) && Leads(s, t) && t.disk == s.disk && pid in t.procs && t.procs[pid] == Recovering(r)
    requires t.rollout == Some(pid) && t.session.None?
    requires r.at == Checking && r.seen.Some? && Acceptable(s.disk, r.id, r.action, h)
    requires Unresolved(s.disk.journals, r.id) && s.disk.journals[r.id].plan == Some(r.plan)
    requires OfIndented(s.disk.current) != r.plan.expected
    ensures Leads(s, u) && pid in u.procs && u.procs[pid] == Recovering(r2) && r2.at == Completing && r2.seen.Some?
    ensures u.rollout == Some(pid) && u.session.None? && r2.id == r.id && r2.action == r.action
    ensures u.disk.journals == s.disk.journals && u.disk.holds == s.disk.holds && r2.hold == h
    ensures r.action == AcceptTarget ==> PublishedBy(u.disk.current, r.id, r.plan)
    ensures u.procs == t.procs[pid := Recovering(r2)]
  {
    hide Leads, Reachable, PublishEvent, Publish, PublishedBy;
    var d := s.disk;
    var o := QUIET.(pick := h);
    var next := r.(hold := h, before := d.current);
    if r.action == AcceptSource {
      r2 := next.(at := Completing);
      assert CheckTurn(d, r, o) == Turn(d, Some(Recovering(r2)));
      u := Advances(s, t, pid, o, d, Recovering(r2));
    } else {
      var r1 := next.(at := Republishing);
      assert CheckTurn(d, r, o) == Turn(d, Some(Recovering(r1)));
      var t1 := Advances(s, t, pid, o, d, Recovering(r1));
      PublishSucceeds(s, r.id, "");
      var written := Publish(d.current, PublishEvent(r.plan, r.id, "")).value;
      r2 := next.(at := Completing);
      assert RepublishTurn(d, r1, QUIET) == Turn(d.(current := written), Some(Recovering(r2)));
      u := Advances(s, t1, pid, QUIET, d.(current := written), Recovering(r2));
    }
  }

  /** A migration that recorded migration_requires_recovery is resolved whenever its action applies, and then
      nothing is open and current.json names the live heads. */
  lemma RecoveryResolves(s: Sys, pid: Pid, id: Id, action: Action, h: Id) returns (t: Sys)
    requires Reachable(s) && pid !in s.procs && s.rollout.None? && s.session.None?
    requires Unresolved(s.disk.journals, id) && s.disk.journals[id].result == Some(RequiresRecovery)
    requires Acceptable(s.disk, id, action, h)
    ensures Leads(s, t) && Reachable(t) && id in t.disk.journals && t.disk.journals[id].resolution == Some(action)
    ensures (forall other :: other in t.disk.journals ==> !Blocks(t.disk.journals[other]))
    ensures HeadSet(t.disk.current) == t.disk.live
    ensures t.session.None? && t.disk.holds == s.disk.holds && pid in t.procs && AboutToRelease(t.procs[pid], id, h)
  {
    hide Leads, Reachable, HoldMatches, HeadSet;
    var plan := s.disk.journals[id].plan.value;
    CompactDigest(s, id);
    var t1, r1 := ReachChecking(s, pid, id, action, plan, s.disk.current);
    var t2, r2 := Accepts(s, t1, pid, r1, h);
    t := Resolves(s, t2, pid, r2);
    LeadsReachable(s, t);
    AllElseClosed(s, id, t);
    MigrationTheorems.SavedHeadsAreLive(t);
  }

  // A recovery that has resolved its migration and goes on to release this hold.
  predicate AboutToRelease(p: Proc, id: Id, h: Id) {
    p.Recovering? && p.r.at.RecoverOpening? && p.r.id == id && p.r.hold == h
  }

  lemma CompactDigest(s: Sys, id: Id)
    requires Reachable(s) && id in s.disk.journals && s.disk.journals[id].plan.Some?
    ensures s.disk.journals[id].plan.value.expected.OfCompact?
  {
    ReachableInv(s);
    hide Reachable, IsPath, HeadSet;
    assert JournalOk(id, s.disk.journals[id], id in s.disk.begun);
  }

  lemma AllElseClosed(s: Sys, id: Id, t: Sys)
    requires Reachable(s) && Unresolved(s.disk.journals, id) && s.disk.journals[id].result == Some(RequiresRecovery)
    requires exists action :: t.disk.journals == s.disk.journals[id := s.disk.journals[id].(resolution := Some(action))]
    ensures forall other :: other in t.disk.journals ==> !Blocks(t.disk.journals[other])
  {
    ReachableInv(s);
    hide Reachable, JournalsOk, OpensOk, HoldsOk, CurrentOk, QuietOk, LocksOk, OwnersApart, ProcsOk;
    forall other | other in t.disk.journals ensures !Blocks(t.disk.journals[other]) {
      assert Unresolved(s.disk.journals, other) ==> other == id;
    }
  }

  /** Otherwise recovery writes nothing: once the checks fail the process just ends. */
  lemma RecoveryRefuses(s: Sys, pid: Pid, o: Oracle)
    requires Reachable(s) && pid in s.procs && s.procs[pid].Recovering?
    requires s.procs[pid].r.at == Checking && s.procs[pid].r.action != ReleaseHold
    requires !Acceptable(s.disk, s.procs[pid].r.id, s.procs[pid].r.action, o.pick)
    ensures TurnOf(s.disk, s.procs[pid], o) == Turn(s.disk, None)
  {
    ReachableInv(s);
    var r := s.procs[pid].r;
    assert ProcInv(s.procs[pid], s.disk);
    CompactDigest(s, r.id);
    hide Reachable, Inv, HeadSet, HoldMatches;
  }

  // ---------------------------------------------------------------- recovery that never will

  /** From every reachable state in which a migration may begin, dying right after its journal was created
      leaves that journal without a result: an orphan, which blocks every later migration. */
  lemma DyingLeavesAnOrphan(s: Sys, pid: Pid, o: Oracle, m: Migrator) returns (t: Sys)
    requires Reachable(s) && pid !in s.procs && s.rollout.None? && s.session.None?
    requires MayPlan(s.disk, o) && o.outcome == Done && m.at == WantLock
    ensures Reachable(t) && MigrationTheorems.Orphaned(t, o.pick) && pid !in t.procs
  {
    hide *;
    var t2, next := JournalCreated(s, pid, o, m);
    t := Crash(t2, pid);
    LeadsReachable(s, t2);
    CrashIsNext(t2, pid);
    ReachableOn(t2, t);
    NewOwnerDies(t2, pid, next);
  }

  lemma JournalCreated(s: Sys, pid: Pid, o: Oracle, m: Migrator) returns (t: Sys, next: Migrator)
    requires pid !in s.procs && s.rollout.None? && s.session.None?
    requires MayPlan(s.disk, o) && o.outcome == Done && m.at == WantLock
    ensures Leads(s, t) && t.procs == s.procs[pid := Migrating(next)]
    ensures next.id == o.pick && next.at == WritingPlan && t.disk == NewJournal(s.disk, o.pick)
    ensures next.plan == PlanFor(s.disk, o.pick, o) && next.plan.graph == o.graph
    ensures next.id in t.disk.journals && t.disk.journals[next.id] == Journal(None, [], None, None)
  {
    assert PlanFor(s.disk, o.pick, o).graph == o.graph;
    hide Leads, MayPlan, PlanFor;
    var t0 := Begins(s, pid, Migrating(m));
    var m1 := m.(at := Planning);
    var t1 := Advances(s, t0, pid, QUIET, s.disk, Migrating(m1));
    next := m1.(id := o.pick, plan := PlanFor(s.disk, o.pick, o), hold := None, at := WritingPlan);
    assert PlanTurn(s.disk, m1, o) == Turn(NewJournal(s.disk, o.pick), Some(Migrating(next)));
    t := Advances(s, t1, pid, o, NewJournal(s.disk, o.pick), Migrating(next));
  }

  lemma CrashIsNext(s: Sys, pid: Pid)
    requires pid in s.procs
    ensures Next(s, Crash(s, pid)) && pid !in Crash(s, pid).procs
  {
  }

  lemma NewOwnerDies(s: Sys, pid: Pid, m: Migrator)
    requires Reachable(s) && pid in s.procs && s.procs[pid] == Migrating(m) && m.at == WritingPlan
    requires m.id in s.disk.journals && s.disk.journals[m.id] == Journal(None, [], None, None)
    ensures MigrationTheorems.Orphaned(Crash(s, pid), m.id)
  {
    hide Reachable;
    CrashedOwnerOrphans(s, pid);
  }

  lemma CrashedOwnerOrphans(s: Sys, pid: Pid)
    requires Reachable(s) && pid in s.procs && Owner(s.procs[pid])
    requires s.procs[pid].m.id in s.disk.journals && s.disk.journals[s.procs[pid].m.id].result.None?
    ensures MigrationTheorems.Orphaned(Crash(s, pid), s.procs[pid].m.id)
  {
    ReachableInv(s);
    hide Reachable, DiskInv, LocksOk, ProcsOk;
  }

  // A deployment just bootstrapped, ready for its first migration.
  lemma FirstState() returns (s: Sys, o: Oracle)
    ensures Reachable(s) && s.procs == map[] && s.rollout.None? && s.session.None?
    ensures MayPlan(s.disk, o) && o.outcome == Done
  {
    var current := Current(ApplicationState("r", "", map[], ""), DatabaseState(["a"], "r", None, None, ["r"]), "");
    assert Elements(["a"]) == {"a"} by { assert ["a"][0] == "a"; }
    s := Sys(Disk(map[], current, {"a"}, map[], {}, {}), None, None, map[]);
    o := Oracle(Done, "m", {"b"}, "r", "c", "g", "t", {});
    assert Init(s);
    assert IsRun([s]) && [s][|[s]| - 1] == s;
    assert "b" in o.heads && "b" !in s.disk.live;
  }

  /** The concrete case: not every open migration can be recovered. */
  lemma OrphansHappen() returns (s: Sys, id: Id)
    ensures Reachable(s) && MigrationTheorems.Orphaned(s, id)
  {
    var s0, o := FirstState();
    var plan := Plan({}, {}, "", "", "", OfIndented(s0.disk.current), OfIndented(s0.disk.current));
    hide Reachable;
    s := DyingLeavesAnOrphan(s0, 0, o, Migrator(WantLock, "", plan, s0.disk.current, "", None));
    id := o.pick;
  }
}
