/** What every interleaving of bootstrap runs, failure handlers and crashes keeps true, also when a handler writes
    what it checked long before. */
module BootstrapSafety {
  import opened Wrappers
  import opened Phases
  import opened BootstrapProtocol

  // ---------------------------------------------------------------- the invariant

  // Committed, by an event or by the result: the live heads are those of the plan.
  ghost predicate JournalOk(j: Journal, live: Database) {
    && (BootCommitted in j.events.Values || IsCommitted(j) ==> j.plan.Some? && live == Heads(j.plan.value.heads))
    && (IsCommitted(j) ==> Matches(j, j.plan.value))
  }

  ghost predicate AllOk(journals: map<Id, Journal>, live: Database) {
    forall id :: id in journals ==> JournalOk(journals[id], live)
  }

  predicate Blank(journals: map<Id, Journal>, id: Id) {
    id in journals && journals[id].result.None?
  }

  predicate CommittedAt(journals: map<Id, Journal>, id: Id) {
    id in journals && IsCommitted(journals[id])
  }

  // One journal at most has no result, one at most is committed, and there are never both.
  ghost predicate OneAtWork(journals: map<Id, Journal>) {
    forall a, b :: Blank(journals, a) || CommittedAt(journals, a) ==> Blank(journals, b) || CommittedAt(journals, b) ==> a == b
  }

  ghost predicate DiskInv(d: Disk) {
    AllOk(d.journals, d.live) && OneAtWork(d.journals)
  }

  predicate HasJournal(at: At) {
    !at.WantLock? && !at.Inspecting? && !at.Choosing? && !at.Preparing?
  }

  predicate HasPlan(at: At) {
    HasJournal(at) && !at.WritingPlan? && !at.FailAppending? && !at.FailResult?
  }

  predicate BeforeAlembic(at: At) {
    at.Preparing? || at.AppendingFresh? || at.AppendingSchema? || at.Upgrading?
  }

  predicate Closing(at: At) {
    at.WritingKnown? || at.WritingResult?
  }

  predicate TargetSeen(at: At) {
    at.KnownVerified? || at.KnownCommitted? || at.AppendingVerified? || at.AppendingCommitted? || Closing(at)
  }

  predicate Recent(at: At) {
    at.Choosing? || at.Preparing? || at.WritingPlan? || at.AppendingPlanned? || at.ReadingLatest?
    || at.StartingPostgres? || at.AppendingPostgres? || at.Reinspecting? || at.Deciding?
  }

  predicate SeenIsLive(seen: Freshness, live: Database) {
    match seen
    case Uninitialized => live.Empty?
    case Initialized(heads) => live == Heads(heads)
    case Unclear => true
  }

  // Every other journal has a result: nobody but this run is at work.
  ghost predicate OthersClosed(journals: map<Id, Journal>, id: Id) {
    forall other :: Blank(journals, other) ==> other == id
  }

  ghost predicate RunInv(r: Run, d: Disk) {
    && (HasJournal(r.at) ==> r.id in d.journals)
    && (r.writable ==> HasJournal(r.at))
    && (HasPlan(r.at) ==> d.journals[r.id].plan == Some(r.identity))
    && (r.at.Preparing? ==> forall id :: !Blank(d.journals, id))
    && (Locked(r) && HasJournal(r.at) ==> OthersClosed(d.journals, r.id))
    && (Recent(r.at) ==> SeenIsLive(r.seen, d.live))
    && (BeforeAlembic(r.at) ==> d.live.Empty?)
    && (TargetSeen(r.at) ==> d.live == Heads(r.identity.heads))
    && (Closing(r.at) && r.pending.Result? ==> forall id :: !CommittedAt(d.journals, id))
    && (r.pending.Result? ==> Closing(r.at) || r.at.FailResult?)
    && (r.pending.Event? ==> Appending(r.at) || r.at.FailAppending?)
  }

  ghost predicate LockOk(s: Sys) {
    && (forall pid: Pid :: pid in s.runs ==> (s.lock == Some(pid) <==> Locked(s.runs[pid])))
    && (s.lock.Some? ==> s.lock.value in s.runs)
  }

  ghost predicate Inv(s: Sys) {
    && DiskInv(s.disk) && LockOk(s)
    && forall pid: Pid :: pid in s.runs ==> RunInv(s.runs[pid], s.disk)
  }

  // ---------------------------------------------------------------- what a step writes

  ghost predicate Creates(d: Disk, r: Run, n: Disk) {
    r.at.Preparing? && exists id :: id !in d.journals && n == Create(d, id)
  }

  ghost predicate Plans(d: Disk, r: Run, n: Disk) {
    r.at.WritingPlan? && r.id in d.journals && d.journals[r.id].plan.None? && n == WritePlan(d, r.id, r.identity)
  }

  ghost predicate Logs(d: Disk, r: Run, n: Disk) {
    r.pending.Event? && r.id in d.journals && n == WriteEvent(d, r.id, r.pending.number, StatusOf(r))
  }

  ghost predicate Concludes(d: Disk, r: Run, n: Disk) {
    r.pending.Result? && r.id in d.journals && n == WriteOutcome(d, r.id, OutcomeOf(r))
  }

  // A step writes one thing at most; only Alembic changes the database.
  ghost predicate Effect(d: Disk, r: Run, n: Disk) {
    n == d || (r.at.Upgrading? && n.journals == d.journals) || Creates(d, r, n) || Plans(d, r, n) || Logs(d, r, n) || Concludes(d, r, n)
  }

  lemma AppendsEffect(d: Disk, r: Run, o: Oracle)
    requires Appending(r.at)
    ensures Effect(d, r, Appends(d, r, EventAt(r.at), AfterEvent(r), o).disk)
  {
    hide MayLog, AfterEvent, EventAt, WriteEvent;
  }

  lemma TerminalEffect(d: Disk, r: Run, o: Oracle, failed: Turn)
    requires failed.disk == d
    ensures Effect(d, r, TerminalTurn(d, r, o, failed).disk)
  {
    hide WriteOutcome, OutcomeOf;
  }

  lemma FailAppendEffect(d: Disk, r: Run, o: Oracle)
    ensures Effect(d, r, FailAppendTurn(d, r, o).disk)
  {
    hide MayLog, StatusOf, WriteEvent, EventName, LatestIn;
  }

  lemma AppendIsTurn(d: Disk, r: Run, o: Oracle)
    requires Appending(r.at)
    ensures TurnOf(d, r, o) == Appends(d, r, EventAt(r.at), AfterEvent(r), o)
  {
    hide Appends, EventAt, AfterEvent;
  }

  lemma ChooseIsTurn(d: Disk, r: Run, o: Oracle)
    requires r.at == Choosing
    ensures TurnOf(d, r, o) == ChooseTurn(d, r, o)
  {
    hide ChooseTurn;
  }

  lemma WriteIsTurn(d: Disk, r: Run, o: Oracle)
    ensures Closing(r.at) ==> TurnOf(d, r, o) == TerminalTurn(d, r, o, Fails(d, r))
    ensures r.at.FailResult? ==> TurnOf(d, r, o) == TerminalTurn(d, r, o, Turn(d, None))
    ensures r.at.FailAppending? ==> TurnOf(d, r, o) == FailAppendTurn(d, r, o)
    ensures r.at.Preparing? ==> TurnOf(d, r, o) == PrepareTurn(d, r, o)
    ensures r.at.Deciding? ==> TurnOf(d, r, o) == DecideTurn(d, r, o)
  {
    hide TerminalTurn, FailAppendTurn, Fails, PrepareTurn, DecideTurn;
  }

  predicate OnlyLooks(at: At) {
    at.WantLock? || at.Inspecting? || at.Choosing? || at.ReadingLatest? || at.StartingPostgres?
    || at.Reinspecting? || at.Deciding? || at.Probing?
  }

  lemma NothingWritten(d: Disk, r: Run, o: Oracle)
    requires OnlyLooks(r.at)
    ensures TurnOf(d, r, o).disk == d
  {
    hide SearchRaises, MayResume, Unresolved, CommittedFor, Inspect, LatestIn;
  }

  lemma PreparesEffect(d: Disk, r: Run, o: Oracle)
    requires r.at.Preparing? || r.at.WritingPlan? || r.at.Upgrading?
    ensures Effect(d, r, TurnOf(d, r, o).disk)
  {
    hide Logs, Concludes;
  }

  lemma TurnEffect(d: Disk, r: Run, o: Oracle)
    ensures Effect(d, r, TurnOf(d, r, o).disk)
  {
    WriteIsTurn(d, r, o);
    if OnlyLooks(r.at) {
      NothingWritten(d, r, o);
      hide *;
      NothingIsAnEffect(d, r);
    } else if r.at.Preparing? || r.at.WritingPlan? || r.at.Upgrading? {
      hide Effect, TurnOf;
      PreparesEffect(d, r, o);
    } else if Appending(r.at) {
      hide Effect, TurnOf, Appends, EventAt, AfterEvent;
      AppendIsTurn(d, r, o);
      AppendsEffect(d, r, o);
    } else {
      hide Effect, TurnOf, TerminalTurn, FailAppendTurn;
      TerminalEffect(d, r, o, Fails(d, r));
      TerminalEffect(d, r, o, Turn(d, None));
      FailAppendEffect(d, r, o);
    }
  }

  lemma NothingIsAnEffect(d: Disk, r: Run)
    ensures Effect(d, r, d)
  {
  }

  // ---------------------------------------------------------------- the disk

  lemma Created(d: Disk, id: Id)
    requires DiskInv(d) && id !in d.journals && d.live.Empty? && forall other :: !Blank(d.journals, other)
    ensures DiskInv(Create(d, id))
  {
    var n := Create(d, id);
    forall other | other != id ensures !CommittedAt(n.journals, other) && !Blank(n.journals, other) {
      assert !Blank(d.journals, other);
      assert other in d.journals ==> JournalOk(d.journals[other], d.live);
    }
  }

  lemma PlanWritten(d: Disk, id: Id, plan: Identity)
    requires DiskInv(d) && id in d.journals && d.journals[id].plan.None?
    ensures DiskInv(WritePlan(d, id, plan))
  {
    var n := WritePlan(d, id, plan);
    assert JournalOk(d.journals[id], d.live);
    assert forall other :: Blank(n.journals, other) <==> Blank(d.journals, other);
    assert forall other :: CommittedAt(n.journals, other) <==> CommittedAt(d.journals, other);
  }

  lemma EventWritten(d: Disk, id: Id, number: nat, phase: BootPhase)
    requires DiskInv(d) && id in d.journals
    requires phase == BootCommitted ==> d.journals[id].plan.Some? && d.live == Heads(d.journals[id].plan.value.heads)
    ensures DiskInv(WriteEvent(d, id, number, phase))
  {
    hide EventName;
    var n := WriteEvent(d, id, number, phase);
    assert JournalOk(d.journals[id], d.live);
    assert forall p :: p in n.journals[id].events.Values ==> p == phase || p in d.journals[id].events.Values;
    assert forall other :: Blank(n.journals, other) <==> Blank(d.journals, other);
    assert forall other :: CommittedAt(n.journals, other) <==> CommittedAt(d.journals, other);
  }

  /** A result may be written over another one: what must hold is that a committed one is for the live heads, with no
      committed journal before it and no other journal at work. */
  lemma ResultWritten(d: Disk, id: Id, outcome: Outcome)
    requires DiskInv(d) && id in d.journals
    requires outcome.status == BootCommitted ==>
               && d.journals[id].plan.Some? && d.live == Heads(d.journals[id].plan.value.heads)
               && outcome.revision == d.journals[id].plan.value.revision
               && outcome.heads == d.journals[id].plan.value.heads
               && OthersClosed(d.journals, id) && forall other :: !CommittedAt(d.journals, other)
    ensures DiskInv(WriteOutcome(d, id, outcome))
  {
    var n := WriteOutcome(d, id, outcome);
    assert JournalOk(d.journals[id], d.live);
    assert AllOk(n.journals, n.live);
    forall other | other != id ensures Blank(n.journals, other) == Blank(d.journals, other) && CommittedAt(n.journals, other) == CommittedAt(d.journals, other) {}
    hide AllOk, JournalOk, IsCommitted;
    assert !Blank(n.journals, id);
  }

  lemma Upgraded(d: Disk, after: Database)
    requires DiskInv(d) && d.live.Empty?
    ensures DiskInv(d.(live := after))
  {
    forall id | id in d.journals ensures JournalOk(d.journals[id], after) { assert JournalOk(d.journals[id], d.live); }
  }

  // Only a run under the lock that has seen the target writes `committed`.
  lemma CommitsKnowTheTarget(r: Run, d: Disk)
    requires RunInv(r, d) && StatusOf(r) == BootCommitted && (r.pending.Event? || r.pending.Result?)
    ensures TargetSeen(r.at) && HasPlan(r.at) && Locked(r)
    ensures r.pending.Result? ==> Closing(r.at)
  {
    hide OthersClosed, Blank, CommittedAt, SeenIsLive;
  }

  lemma DiskGood(d: Disk, r: Run, n: Disk)
    requires DiskInv(d) && RunInv(r, d) && Effect(d, r, n)
    ensures DiskInv(n)
  {
    hide DiskInv, SeenIsLive, WriteEvent, WriteOutcome, WritePlan, StatusOf;
    if Creates(d, r, n) {
      var id :| id !in d.journals && n == Create(d, id);
      Created(d, id);
    } else if Plans(d, r, n) {
      PlanWritten(d, r.id, r.identity);
    } else if Logs(d, r, n) {
      if StatusOf(r) == BootCommitted { CommitsKnowTheTarget(r, d); }
      EventWritten(d, r.id, r.pending.number, StatusOf(r));
    } else if Concludes(d, r, n) {
      if StatusOf(r) == BootCommitted { CommitsKnowTheTarget(r, d); }
      ResultWritten(d, r.id, OutcomeOf(r));
    } else if n != d {
      Upgraded(d, n.live);
    }
  }

  // ---------------------------------------------------------------- what a step leaves of the others' knowledge

  // Nothing a run knows is lost: no journal, plan or result is taken away, and none is made committed or begun.
  ghost predicate Keeps(d: Disk, n: Disk) {
    && n.live == d.live && d.journals.Keys <= n.journals.Keys
    && (forall id :: id in d.journals && d.journals[id].plan.Some? ==> n.journals[id].plan == d.journals[id].plan)
    && (forall id :: Blank(n.journals, id) ==> Blank(d.journals, id))
    && (forall id :: CommittedAt(n.journals, id) ==> CommittedAt(d.journals, id))
  }

  lemma KeepsRun(d: Disk, n: Disk, q: Run)
    requires RunInv(q, d) && Keeps(d, n)
    ensures RunInv(q, n)
  {
    hide SeenIsLive, Blank, CommittedAt;
  }

  lemma EventKeeps(d: Disk, r: Run, n: Disk)
    requires Logs(d, r, n) || Plans(d, r, n)
    ensures Keeps(d, n)
  {
    hide EventName, StatusOf;
  }

  lemma ResultKeeps(d: Disk, r: Run, n: Disk)
    requires Concludes(d, r, n) && StatusOf(r) != BootCommitted
    ensures Keeps(d, n)
  {
    hide StatusOf;
  }

  /** A handler without the lock changes neither the database nor a plan, takes nothing away, and makes no journal
      committed: what the run under the lock knows survives it. */
  lemma UnlockedKeeps(d: Disk, r: Run, n: Disk)
    requires RunInv(r, d) && !Locked(r) && Effect(d, r, n)
    ensures Keeps(d, n)
  {
    if StatusOf(r) == BootCommitted && (r.pending.Event? || r.pending.Result?) { CommitsKnowTheTarget(r, d); }
    hide RunInv, Keeps, StatusOf, Logs, Concludes;
    if Logs(d, r, n) { EventKeeps(d, r, n); }
    else if Concludes(d, r, n) { ResultKeeps(d, r, n); }
    else if n == d { SameKeeps(d); }
    else { assert Plans(d, r, n); EventKeeps(d, r, n); }
  }

  lemma SameKeeps(d: Disk)
    ensures Keeps(d, d)
  {
  }

  // A run without the lock knows only that its journal exists.
  lemma JournalsRemain(d: Disk, r: Run, n: Disk)
    requires Effect(d, r, n)
    ensures d.journals.Keys <= n.journals.Keys
  {
    hide StatusOf, OutcomeOf, EventName;
    if Creates(d, r, n) {
      var id :| id !in d.journals && n == Create(d, id);
    }
  }

  // ---------------------------------------------------------------- what the run itself knows next

  ghost predicate Knows(t: Turn) {
    t.run.Some? ==> RunInv(t.run.value, t.disk)
  }

  lemma FailsKnows(d: Disk, r: Run)
    requires r.writable ==> r.id in d.journals
    ensures Knows(Fails(d, r))
  {
    hide SeenIsLive, OthersClosed;
  }

  lemma FailsAfter(d: Disk, r: Run, n: Disk)
    requires RunInv(r, d) && Effect(d, r, n)
    ensures Knows(Fails(n, r))
  {
    JournalsRemain(d, r, n);
    hide Effect, SeenIsLive, OthersClosed;
    FailsKnows(n, r);
  }

  lemma NextAtAsksNoMore(at: At)
    requires Appending(at)
    ensures HasPlan(at) && HasPlan(NextAt(at)) && !NextAt(at).WantLock?
    ensures BeforeAlembic(NextAt(at)) ==> BeforeAlembic(at)
    ensures TargetSeen(NextAt(at)) ==> TargetSeen(at)
    ensures Recent(NextAt(at)) ==> Recent(at)
  {
  }

  lemma AfterEventKeeps(r: Run)
    ensures var next := AfterEvent(r);
            && next.at == NextAt(r.at) && next.id == r.id && next.identity == r.identity && next.seen == r.seen
            && next.pending.Nothing? && next.writable == r.writable
  {
    hide NextAt, EventAt;
  }

  lemma AfterEventKnows(r: Run, d: Disk)
    requires RunInv(r, d) && Appending(r.at)
    ensures RunInv(AfterEvent(r), d)
  {
    hide SeenIsLive, OthersClosed, Appending, AfterEvent, NextAt;
    NextAtAsksNoMore(r.at);
    AfterEventKeeps(r);
  }

  lemma AppendChecked(d: Disk, r: Run, next: Run, o: Oracle)
    requires RunInv(r, d) && Appending(r.at) && !r.pending.Event?
    ensures Knows(Appends(d, r, EventAt(r.at), next, o))
  {
    hide MayLog, EventAt, SeenIsLive, OthersClosed;
    FailsKnows(d, r);
    hide Fails;
    assert RunInv(r.(pending := Event(|d.journals[r.id].events| + 1)), d);
    hide RunInv;
  }

  lemma AppendWritten(d: Disk, r: Run, n: Disk, o: Oracle)
    requires RunInv(r, d) && Appending(r.at) && Logs(d, r, n)
    ensures Knows(Writes(d, n, r, AfterEvent(r), o))
  {
    EventKeeps(d, r, n);
    FailsAfter(d, r, n);
    FailsAfter(d, r, d);
    hide RunInv, Keeps, Appending, Fails, AfterEvent, Logs;
    KeepsRun(d, n, r);
    AfterEventKnows(r, n);
  }

  lemma AppendsKnows(d: Disk, r: Run, o: Oracle)
    requires RunInv(r, d) && Appending(r.at)
    ensures Knows(Appends(d, r, EventAt(r.at), AfterEvent(r), o))
  {
    assert r.id in d.journals && StatusOf(r) == EventAt(r.at);
    hide RunInv, AfterEvent, EventAt, StatusOf, Appending, Writes, MayLog, WriteEvent, Fails;
    if r.pending.Event? {
      AppendWritten(d, r, WriteEvent(d, r.id, r.pending.number, StatusOf(r)), o);
    } else {
      AppendChecked(d, r, AfterEvent(r), o);
    }
  }

  lemma NoneCommitted(d: Disk, id: Id)
    requires DiskInv(d) && Blank(d.journals, id)
    ensures forall other :: !CommittedAt(d.journals, other)
  {
  }

  lemma ResultChecked(d: Disk, r: Run)
    requires DiskInv(d) && RunInv(r, d) && (Closing(r.at) || r.at.FailResult?) && Blank(d.journals, r.id)
    ensures RunInv(r.(pending := Result), d)
  {
    NoneCommitted(d, r.id);
    hide DiskInv, SeenIsLive, OthersClosed;
  }

  lemma ResultFails(d: Disk, r: Run)
    requires RunInv(r, d) && r.id in d.journals && r.pending.Result?
    ensures Knows(Fails(WriteOutcome(d, r.id, OutcomeOf(r)), r))
  {
    FailsAfter(d, r, WriteOutcome(d, r.id, OutcomeOf(r)));
  }

  lemma TerminalKnows(d: Disk, r: Run, o: Oracle, failed: Turn)
    requires DiskInv(d) && RunInv(r, d) && (Closing(r.at) || r.at.FailResult?)
    requires failed == if Closing(r.at) then Fails(d, r) else Turn(d, None)
    ensures Knows(TerminalTurn(d, r, o, failed))
  {
    FailsKnows(d, r);
    if Blank(d.journals, r.id) { ResultChecked(d, r); }
    if r.id in d.journals && r.pending.Result? {
      ResultFails(d, r);
      assert Fails(WriteOutcome(d, r.id, OutcomeOf(r)), r) == Fails(d, r).(disk := WriteOutcome(d, r.id, OutcomeOf(r)));
    }
    hide RunInv, DiskInv, Fails, OutcomeOf, WriteOutcome;
  }

  lemma FailAppendKnows(d: Disk, r: Run, o: Oracle)
    requires RunInv(r, d) && r.at.FailAppending?
    ensures Knows(FailAppendTurn(d, r, o))
  {
    hide MayLog, StatusOf, EventName, LatestIn, SeenIsLive, OthersClosed;
    assert r.id in d.journals;
    var onward := r.(at := FailResult, pending := Nothing);
    assert RunInv(onward, d);
    assert RunInv(r.(pending := Event(|d.journals[r.id].events| + 1)), d);
    if r.pending.Event? { assert RunInv(onward, WriteEvent(d, r.id, r.pending.number, StatusOf(r))); }
    hide RunInv, WriteEvent;
  }

  lemma ChooseKnows(d: Disk, r: Run, o: Oracle)
    requires DiskInv(d) && RunInv(r, d) && r.at == Choosing
    ensures Knows(ChooseTurn(d, r, o))
  {
    NobodyElse(d, r.identity);
    NobodyResumed(d, r);
    assert r.seen == Uninitialized ==> d.live.Empty?;
    assert r.pending.Nothing? && !r.writable;
    assert forall id :: Blank(d.journals, id) ==> Unresolved(d.journals, id);
    assert forall id :: MayResume(d, r, id) ==> d.journals[id].plan == Some(r.identity) && id in d.journals;
    hide SeenIsLive, DiskInv, OthersClosed, Blank, Unresolved, SearchRaises, CommittedFor, MayResume;
  }

  lemma NobodyElse(d: Disk, identity: Identity)
    requires DiskInv(d)
    ensures forall id :: CommittedFor(d.journals, id, identity) ==> OthersClosed(d.journals, id)
    ensures !SearchRaises(d.journals, identity) ==>
              forall id :: CommittedFor(d.journals, id, identity) ==> id in d.journals && d.journals[id].plan == Some(identity)
  {
    hide AllOk;
    forall id | CommittedFor(d.journals, id, identity) ensures OthersClosed(d.journals, id) {
      assert CommittedAt(d.journals, id);
    }
  }

  lemma NobodyResumed(d: Disk, r: Run)
    ensures forall id :: MayResume(d, r, id) ==> OthersClosed(d.journals, id)
  {
    assert forall id :: Blank(d.journals, id) ==> Unresolved(d.journals, id);
  }

  lemma PrepareKnows(d: Disk, r: Run, o: Oracle)
    requires RunInv(r, d) && r.at == Preparing
    ensures Knows(PrepareTurn(d, r, o))
  {
    hide SeenIsLive;
    var n := Create(d, o.pick);
    assert OthersClosed(n.journals, o.pick) by {
      forall other | Blank(n.journals, other) ensures other == o.pick { assert !Blank(d.journals, other); }
    }
  }

  lemma PlanKnows(d: Disk, r: Run, o: Oracle)
    requires RunInv(r, d) && r.at == WritingPlan
    ensures Knows(TurnOf(d, r, o))
  {
    FailsKnows(d, r);
    var n := WritePlan(d, r.id, r.identity);
    if d.journals[r.id].plan.None? {
      assert Plans(d, r, n);
      EventKeeps(d, r, n);
      FailsAfter(d, r, n);
      hide SeenIsLive, OthersClosed;
      KeepsRun(d, n, r);
      assert RunInv(r.(at := AppendingPlanned), n);
    }
    hide RunInv, Keeps, Fails, Effect;
  }

  lemma GoesKnows(d: Disk, r: Run, at: At)
    requires RunInv(r, d) && HasPlan(r.at) && HasPlan(at) && Locked(r) && r.pending.Nothing? && !Recent(at)
    requires BeforeAlembic(at) ==> d.live.Empty?
    requires TargetSeen(at) ==> d.live == Heads(r.identity.heads)
    ensures Knows(Goes(d, r, at))
  {
    hide SeenIsLive, OthersClosed;
  }

  lemma DecideKnows(d: Disk, r: Run, o: Oracle)
    requires RunInv(r, d) && r.at == Deciding
    ensures Knows(DecideTurn(d, r, o))
  {
    assert r.seen == Initialized(r.identity.heads) ==> d.live == Heads(r.identity.heads);
    assert r.seen == Uninitialized ==> d.live.Empty?;
    assert r.pending.Nothing? && r.id in d.journals;
    FailsKnows(d, r);
    hide RunInv, SeenIsLive, Fails, Goes;
    if r.seen == Initialized(r.identity.heads) {
      GoesKnows(d, r, KnownVerified);
      GoesKnows(d, r, KnownCommitted);
      GoesKnows(d, r, WritingKnown);
    } else if r.seen == Uninitialized {
      GoesKnows(d, r, AppendingFresh);
      GoesKnows(d, r, AppendingSchema);
      GoesKnows(d, r, Upgrading);
    }
  }

  lemma CallsKnows(d: Disk, r: Run, at: At, o: Oracle)
    requires (r.writable ==> r.id in d.journals) && RunInv(r.(at := at), d)
    ensures Knows(Calls(d, r, at, o))
  {
    hide RunInv, Fails;
    FailsKnows(d, r);
  }

  lemma InspectKnows(d: Disk, r: Run, o: Oracle)
    requires RunInv(r, d) && (r.at.Inspecting? || r.at.Reinspecting?)
    ensures Knows(TurnOf(d, r, o))
  {
    hide OthersClosed, Calls, Knows;
    var seen := r.(seen := Inspect(d.live, o.clear));
    if r.at.Inspecting? {
      CallsKnows(d, seen.(healthy := o.healthy), Choosing, o);
    } else {
      CallsKnows(d, seen, Deciding, o);
    }
  }

  lemma StartKnows(d: Disk, r: Run, o: Oracle)
    requires RunInv(r, d) && (r.at.WantLock? || r.at.StartingPostgres? || r.at.ReadingLatest?)
    ensures Knows(TurnOf(d, r, o))
  {
    hide OthersClosed, Calls, SeenIsLive, LatestIn;
    if r.at.StartingPostgres? {
      CallsKnows(d, r, AppendingPostgres, o);
      CallsKnows(d, r, Reinspecting, o);
    }
  }

  lemma ProbeKnows(d: Disk, r: Run, o: Oracle)
    requires RunInv(r, d) && r.at.Probing?
    ensures Knows(TurnOf(d, r, o))
  {
    hide OthersClosed, Calls, Knows, Fails, SeenIsLive;
    FailsKnows(d, r);
    if d.live == Heads(r.identity.heads) { CallsKnows(d, r, AppendingVerified, o); }
  }

  lemma UpgradeKnows(d: Disk, r: Run, o: Oracle)
    requires RunInv(r, d) && r.at.Upgrading?
    ensures Knows(TurnOf(d, r, o))
  {
    hide Calls, Knows, SeenIsLive, OthersClosed;
    CallsKnows(d.(live := o.after), r.(schema := true),
               if r.latest == Some(SchemaStarted) then AppendingCompleted else Probing, o);
  }

  lemma TurnKnows(d: Disk, r: Run, o: Oracle)
    requires DiskInv(d) && RunInv(r, d)
    ensures Knows(TurnOf(d, r, o))
  {
    WriteIsTurn(d, r, o);
    hide DiskInv, RunInv, Knows, TurnOf, TerminalTurn, FailAppendTurn, Fails, PrepareTurn, DecideTurn, EventAt, AfterEvent, Appends;
    match r.at
    case Choosing => ChooseIsTurn(d, r, o); ChooseKnows(d, r, o);
    case Preparing => PrepareKnows(d, r, o);
    case WritingPlan => PlanKnows(d, r, o);
    case Upgrading => UpgradeKnows(d, r, o);
    case WritingKnown => TerminalKnows(d, r, o, Fails(d, r));
    case WritingResult => TerminalKnows(d, r, o, Fails(d, r));
    case FailAppending => FailAppendKnows(d, r, o);
    case FailResult => TerminalKnows(d, r, o, Turn(d, None));
    case WantLock => StartKnows(d, r, o);
    case Inspecting => InspectKnows(d, r, o);
    case ReadingLatest => StartKnows(d, r, o);
    case StartingPostgres => StartKnows(d, r, o);
    case Reinspecting => InspectKnows(d, r, o);
    case Deciding => DecideKnows(d, r, o);
    case Probing => ProbeKnows(d, r, o);
    case _ => AppendIsTurn(d, r, o); AppendsKnows(d, r, o);
  }

  // ---------------------------------------------------------------- every history

  lemma Undisturbed(d: Disk, r: Run, n: Disk, q: Run)
    requires RunInv(r, d) && RunInv(q, d) && Effect(d, r, n) && !(Locked(r) && Locked(q))
    ensures RunInv(q, n)
  {
    if Locked(q) {
      UnlockedKeeps(d, r, n);
      KeepsRun(d, n, q);
    } else {
      JournalsRemain(d, r, n);
      hide Effect, OthersClosed, SeenIsLive;
    }
  }

  // The turn of one run, the others unharmed.
  lemma AdvanceRuns(s: Sys, pid: Pid, o: Oracle)
    requires Inv(s) && pid in s.runs
    ensures var turn := TurnOf(s.disk, s.runs[pid], o);
            && DiskInv(turn.disk) && Knows(turn)
            && forall q: Pid :: q in s.runs && q != pid ==> RunInv(s.runs[q], turn.disk)
  {
    var r, n := s.runs[pid], TurnOf(s.disk, s.runs[pid], o).disk;
    hide DiskInv, RunInv, Knows, TurnOf, Locked, Effect;
    TurnEffect(s.disk, r, o);
    TurnKnows(s.disk, r, o);
    DiskGood(s.disk, r, n);
    forall q: Pid | q in s.runs && q != pid ensures RunInv(s.runs[q], n) {
      Undisturbed(s.disk, r, n, s.runs[q]);
    }
  }

  lemma AdvanceInv(s: Sys, pid: Pid, o: Oracle)
    requires Inv(s) && pid in s.runs
    ensures Inv(Advance(s, pid, o))
  {
    hide DiskInv, RunInv, TurnOf, Locked;
    AdvanceRuns(s, pid, o);
  }

  lemma BeginInv(s: Sys, pid: Pid, identity: Identity)
    requires Inv(s) && pid !in s.runs
    ensures Inv(s.(runs := s.runs[pid := Begin(identity)]))
  {
    hide DiskInv, OthersClosed, SeenIsLive;
    assert RunInv(Begin(identity), s.disk);
    hide RunInv;
  }

  lemma CrashInv(s: Sys, pid: Pid)
    requires Inv(s) && pid in s.runs
    ensures Inv(Crash(s, pid))
  {
    hide DiskInv, RunInv;
  }

  lemma NextInv(s: Sys, t: Sys)
    requires Inv(s) && Next(s, t)
    ensures Inv(t)
  {
    hide Inv, Advance, Crash, Begin;
    if pid: Pid, o: Oracle :| pid in s.runs && t == Advance(s, pid, o) {
      AdvanceInv(s, pid, o);
    } else if pid: Pid :| pid in s.runs && t == Crash(s, pid) {
      CrashInv(s, pid);
    } else {
      var pid: Pid, identity: Identity :| pid !in s.runs && t == s.(runs := s.runs[pid := Begin(identity)]);
      BeginInv(s, pid, identity);
    }
  }

  lemma InitInv(s: Sys)
    requires Init(s)
    ensures Inv(s)
  {
  }

  lemma HistoryStep(history: seq<Sys>, k: nat)
    requires IsHistory(history) && 0 < k < |history|
    ensures Next(history[k - 1], history[k])
  {
    hide Next, Init;
    assert StepAt(history, k);
  }

  lemma {:induction false} HistoryInv(history: seq<Sys>, k: nat)
    requires IsHistory(history) && k < |history|
    ensures Inv(history[k])
  {
    hide Inv, Next, Init;
    if k == 0 {
      InitInv(history[0]);
    } else {
      HistoryInv(history, k - 1);
      HistoryStep(history, k);
      NextInv(history[k - 1], history[k]);
    }
  }
}
