/** run_bootstrap_db as it is written: find or create the journal, bring the database up, close the journal, with
    the failure handler outside the lock. Each call is one step of the protocol, except that an append and a result
    are checked in one step and written in another. */
module BootstrapRun {
  import opened Wrappers
  import opened Phases
  import opened BootstrapProtocol
  import opened BootstrapProgress
  import BootstrapSafety
  import BootstrapLogs
  import EventLog

  ghost function Then(t: Turn, o: Oracle): Turn {
    if t.run.None? then t else TurnOf(t.disk, t.run.value, o)
  }

  ghost function Steps(t: Turn, script: nat -> Oracle, n: nat): Turn {
    if n == 0 then t else Then(Steps(t, script, n - 1), script(n - 1))
  }

  // ---------------------------------------------------------------- the choice of a journal, case by case

  // How the run came by its journal.
  datatype Case = Created | Resumed | Recognised

  // What the search and the first inspection allow: refusal, a new journal, or this one.
  ghost predicate Choice(d: Disk, identity: Identity, seen: Freshness, how: Option<Case>, id: Id) {
    if how.None? then
      || SearchRaises(d.journals, identity)
      || ((exists other :: Unresolved(d.journals, other)) && forall other :: !MayResume(d, Begin(identity), other))
      || ((forall other :: !Unresolved(d.journals, other) && !CommittedFor(d.journals, other, identity)) && seen != Uninitialized)
    else
      && !SearchRaises(d.journals, identity)
      && if how == Some(Resumed) then MayResume(d, Begin(identity), id)
         else
           && (forall other :: !Unresolved(d.journals, other))
           && if how == Some(Recognised) then CommittedFor(d.journals, id, identity)
              else seen == Uninitialized && forall other :: !CommittedFor(d.journals, other, identity)
  }

  lemma OpenIn(journals: map<Id, Journal>, id: Id)
    requires Unresolved(journals, id)
    ensures id in journals
  {
  }

  lemma Refuses(d: Disk, r: Run, o: Oracle)
    requires o.ending != Done || SearchRaises(d.journals, r.identity)
    ensures ChooseTurn(d, r, o) == Turn(d, None)
    ensures o.ending == Done ==> forall id :: Choice(d, r.identity, r.seen, None, id)
  {
    hide SearchRaises, MayResume, Unresolved, CommittedFor;
  }

  lemma Resumes(d: Disk, r: Run, o: Oracle, id: Id)
    requires o.ending == Done && !SearchRaises(d.journals, r.identity)
    requires Unresolved(d.journals, id) && d.journals[id].plan == Some(r.identity)
    requires forall other :: Unresolved(d.journals, other) ==> other == id
    ensures ChooseTurn(d, r, o) == Turn(d, Some(r.(at := ReadingLatest, id := id, writable := true, resumed := true)))
    ensures Choice(d, r.identity, r.seen, Some(Resumed), id)
  {
    assert MayResume(d, r, id);
    hide SearchRaises, Unresolved;
  }

  lemma RefusesOther(d: Disk, r: Run, o: Oracle, unresolved: seq<Id>)
    requires o.ending == Done && unresolved != []
    requires forall id :: id in unresolved <==> Unresolved(d.journals, id)
    requires unresolved[0] in d.journals
    requires d.journals[unresolved[0]].plan != Some(r.identity) ||
             (exists i :: 0 <= i < |unresolved| && unresolved[i] != unresolved[0])
    ensures ChooseTurn(d, r, o) == Turn(d, None) && forall id :: Choice(d, r.identity, r.seen, None, id)
  {
    hide SearchRaises, Unresolved;
    assert Unresolved(d.journals, unresolved[0]);
    assert forall i :: 0 <= i < |unresolved| ==> unresolved[i] in unresolved;
    assert forall id :: !MayResume(d, r, id) && !MayResume(d, Begin(r.identity), id);
  }

  lemma Recognises(d: Disk, r: Run, o: Oracle, id: Id)
    requires o.ending == Done && !SearchRaises(d.journals, r.identity) && forall other :: !Unresolved(d.journals, other)
    requires forall other :: CommittedFor(d.journals, other, r.identity) <==> other == id
    ensures ChooseTurn(d, r, o) == Turn(d, Some(r.(at := ReadingLatest, id := id, found := true)))
    ensures Choice(d, r.identity, r.seen, Some(Recognised), id)
  {
    hide SearchRaises, Unresolved, CommittedFor;
    assert CommittedFor(d.journals, id, r.identity);
  }

  lemma Creates(d: Disk, r: Run, o: Oracle)
    requires o.ending == Done && !SearchRaises(d.journals, r.identity) && forall other :: !Unresolved(d.journals, other)
    requires forall other :: !CommittedFor(d.journals, other, r.identity)
    ensures ChooseTurn(d, r, o) == if r.seen != Uninitialized then Turn(d, None) else Goes(d, r, Preparing)
    ensures r.seen != Uninitialized ==> forall id :: Choice(d, r.identity, r.seen, None, id)
    ensures r.seen == Uninitialized ==> forall id :: Choice(d, r.identity, r.seen, Some(Created), id)
  {
    hide SearchRaises, Unresolved, CommittedFor;
  }

  // ---------------------------------------------------------------- what becomes of the results

  function ResultOf(d: Disk, id: Id): Option<Outcome> {
    if id in d.journals then d.journals[id].result else None
  }

  ghost predicate KeepsResults(d: Disk, n: Disk) {
    forall id :: ResultOf(n, id) == ResultOf(d, id)
  }

  // The journal has a result now; a committed one exactly if it had none, or a committed one, before.
  ghost predicate IsClosed(d: Disk, n: Disk, id: Id) {
    && id in n.journals && n.journals[id].result.Some?
    && (IsCommitted(n.journals[id]) <==> ResultOf(d, id).None? || ResultOf(d, id).value.status == BootCommitted)
  }

  lemma EventKeepsResults(d: Disk, id: Id, number: nat, phase: BootPhase)
    requires id in d.journals
    ensures KeepsResults(d, WriteEvent(d, id, number, phase)) && WriteEvent(d, id, number, phase).live == d.live
  {
  }

  lemma ChecksEvent(d: Disk, r: Run, phase: BootPhase, next: Run, o: Oracle)
    requires r.pending.Nothing?
    ensures Appends(d, r, phase, next, o) ==
            if r.id in d.journals && MayLog(d.journals[r.id], phase) && o.ending == Done
            then Turn(d, Some(r.(pending := Event(|d.journals[r.id].events| + 1)))) else Fails(d, r)
  {
    hide MayLog, WriteEvent, Fails;
  }

  // An append to a log that is a path.
  lemma AppendsTo(d: Disk, id: Id, log: seq<BootPhase>, phase: BootPhase)
    ensures Logged(d, id, log) ==> id in d.journals && (MayLog(d.journals[id], phase) <==> MayFollow(LastOf(log), phase))
    ensures Logged(d, id, log) && MayFollow(LastOf(log), phase) ==>
              Logged(WriteEvent(d, id, |d.journals[id].events| + 1, phase), id, log + [phase])
  {
    if Logged(d, id, log) {
      LoggedReads(d, id, log, phase);
      assert id in d.journals;
      hide Logged, MayFollow, WriteEvent, MayLog;
      if MayFollow(LastOf(log), phase) { LoggedWrites(d, id, log, phase); }
    }
  }

  lemma InJournals(d: Disk, id: Id, log: seq<BootPhase>)
    ensures Logged(d, id, log) ==> id in d.journals
  {
  }

  lemma LiveKeepsResults(d: Disk)
    ensures forall live: Database :: KeepsResults(d, d.(live := live))
  {
  }

  lemma StaysLogged(d: Disk, id: Id)
    ensures forall live: Database, log :: Logged(d, id, log) ==> Logged(d.(live := live), id, log)
  {
  }

  lemma NewLog(d: Disk, id: Id, identity: Identity)
    ensures Logged(WritePlan(Create(d, id), id, identity), id, [])
  {
    BootstrapLogs.EmptyLog();
    hide EventLog.FilesOf;
  }

  // ---------------------------------------------------------------- when the call succeeds

  ghost predicate AllDone(script: nat -> Oracle, first: nat, n: nat) {
    forall i: nat :: first <= i < first + n ==> script(i).ending == Done
  }

  lemma Split(script: nat -> Oracle, k: nat, m: nat, n: nat)
    ensures AllDone(script, k, m + n) <==> AllDone(script, k, m) && AllDone(script, k + m, n)
    ensures AllDone(script, k, 0)
  {
  }

  predicate IsEarly(latest: Option<BootPhase>) {
    latest == Some(BootPlanned) || latest == Some(PostgresStarted)
  }

  // An event is two calls, and so is a result where there is none yet.
  function ToFreshness(latest: Option<BootPhase>): nat {
    if IsEarly(latest) then 2 else 0
  }

  function ToNext(latest: Option<BootPhase>): nat {
    ToFreshness(latest) + if IsEarly(latest) || latest == Some(FreshnessVerified) then 2 else 0
  }

  function ToResult(free: bool): nat {
    if free then 2 else 1
  }

  // From Alembic on: the completion, the probe, and two more events.
  function FromAlembic(latest: Option<BootPhase>, free: bool): nat {
    (if latest == Some(SchemaCompleted) then 5 else 7) + ToResult(free)
  }

  // PostgreSQL's start is logged by a run that may write and has found nothing beyond the plan.
  predicate LogsStart(how: Case, healthy: bool, latest: Option<BootPhase>) {
    !healthy && !how.Recognised? && (latest.None? || latest == Some(BootPlanned))
  }

  // The reading, and unless it is up the start, perhaps its event, and another inspection.
  function ToDecision(how: Case, healthy: bool, latest: Option<BootPhase>): nat {
    if healthy then 1 else if LogsStart(how, healthy, latest) then 5 else 3
  }

  ghost predicate ComesUp(script: nat -> Oracle, k: nat, how: Case, healthy: bool, latest: Option<BootPhase>) {
    && AllDone(script, k + 1, ToDecision(how, healthy, latest) - 1)
    && (LogsStart(how, healthy, latest) ==> latest.Some?)
  }

  function SeenThen(script: nat -> Oracle, k: nat, how: Case, healthy: bool, latest: Option<BootPhase>, seen: Freshness, live: Database): Freshness {
    if healthy then seen else Inspect(live, script(k + ToDecision(how, healthy, latest) - 1).clear)
  }

  function LatestThen(how: Case, healthy: bool, latest: Option<BootPhase>): Option<BootPhase> {
    if LogsStart(how, healthy, latest) then Some(PostgresStarted) else latest
  }

  function LogThen(how: Case, healthy: bool, log: seq<BootPhase>): seq<BootPhase> {
    if LogsStart(how, healthy, LastOf(log)) then log + [PostgresStarted] else log
  }

  function LogBefore(log: seq<BootPhase>): seq<BootPhase> {
    var verified := if IsEarly(LastOf(log)) then log + [FreshnessVerified] else log;
    if LastOf(verified) == Some(FreshnessVerified) then verified + [SchemaStarted] else verified
  }

  lemma LastBefore(log: seq<BootPhase>, free: bool)
    ensures var last := LastOf(LogBefore(log));
            && (Unfinished(LastOf(log)) <==> last == Some(SchemaStarted) || last == Some(SchemaCompleted))
            && (Unfinished(LastOf(log)) ==> FromAlembic(last, free) == FromAlembic(LastOf(log), free))
  {
  }

  // What is kept call by call is kept over all of them.
  lemma Keeping(d: Disk, id: Id)
    ensures KeepsResults(d, d)
    ensures forall n, m: Disk :: KeepsResults(d, n) && KeepsResults(n, m) ==> KeepsResults(d, m)
    ensures forall n :: KeepsResults(d, n) ==> ResultOf(n, id) == ResultOf(d, id)
    ensures forall n, m: Disk :: KeepsResults(d, n) && IsClosed(n, m, id) ==> IsClosed(d, m, id)
  {
  }

  lemma OnlyAfterCompletion(log: seq<BootPhase>)
    ensures MayFollow(LastOf(log), BootHeadsVerified) <==> LastOf(log) == Some(SchemaCompleted)
    ensures MayFollow(LastOf(log + [BootHeadsVerified]), BootCommitted)
  {
  }

  lemma LastThen(how: Case, healthy: bool, log: seq<BootPhase>)
    ensures LastOf(LogThen(how, healthy, log)) == LatestThen(how, healthy, LastOf(log))
  {
  }

  lemma ReadsLast(d: Disk, id: Id, log: seq<BootPhase>)
    ensures Logged(d, id, log) ==> id in d.journals && LatestIn(d.journals[id]) == LastOf(log)
  {
    if Logged(d, id, log) { LoggedReads(d, id, log, BootPlanned); }
  }

  // The schema is created: the log has not gone past it, and Alembic leaves the target.
  ghost predicate SchemaComes(script: nat -> Oracle, k: nat, heads: set<string>, latest: Option<BootPhase>, free: bool) {
    && Unfinished(latest) && AllDone(script, k, ToNext(latest) + 1 + FromAlembic(latest, free))
    && script(k + ToNext(latest)).after == Heads(heads)
  }

  // The decision and what follows it: the target is there, or the database is empty.
  ghost predicate Ends(script: nat -> Oracle, k: nat, heads: set<string>, how: Case, latest: Option<BootPhase>, seen: Freshness, free: bool) {
    && AllDone(script, k, 1)
    && if seen == Initialized(heads) then
         !how.Created? && (how.Resumed? ==> AllDone(script, k + 1, ToNext(latest) + ToResult(free)))
       else seen == Uninitialized && !how.Recognised? && SchemaComes(script, k + 1, heads, latest, free)
  }

  ghost predicate WorksOut(script: nat -> Oracle, k: nat, heads: set<string>, how: Case, healthy: bool, latest: Option<BootPhase>,
                           seen: Freshness, live: Database, free: bool) {
    && ComesUp(script, k, how, healthy, latest)
    && Ends(script, k + ToDecision(how, healthy, latest), heads, how, LatestThen(how, healthy, latest),
            SeenThen(script, k, how, healthy, latest, seen, live), free)
  }

  // Four calls for a new journal under a free name.
  ghost predicate CreatedWorksOut(script: nat -> Oracle, k: nat, heads: set<string>, healthy: bool, seen: Freshness, d: Disk) {
    && script(k).pick !in d.journals && AllDone(script, k, 4)
    && WorksOut(script, k + 4, heads, Created, healthy, Some(BootPlanned), seen, d.live, true)
  }

  // The whole call: the lock, the first inspection and the choice, and the rest.
  ghost predicate Chosen(script: nat -> Oracle, k: nat, d: Disk, identity: Identity, healthy: bool, seen: Freshness) {
    && AllDone(script, k, 1) && !SearchRaises(d.journals, identity)
    && if exists id :: Unresolved(d.journals, id) then
         exists id :: MayResume(d, Begin(identity), id) && WorksOut(script, k + 1, identity.heads, Resumed, healthy,
                        LatestIn(d.journals[id]), seen, d.live, d.journals[id].result.None?)
       else if exists id :: CommittedFor(d.journals, id, identity) then
         exists id :: CommittedFor(d.journals, id, identity) && WorksOut(script, k + 1, identity.heads, Recognised, healthy,
                        LatestIn(d.journals[id]), seen, d.live, false)
       else
         seen == Uninitialized && CreatedWorksOut(script, k + 1, identity.heads, healthy, seen, d)
  }

  ghost predicate Succeeds(script: nat -> Oracle, d: Disk, identity: Identity) {
    && AllDone(script, 0, 2)
    && Chosen(script, 2, d, identity, script(1).healthy, Inspect(d.live, script(1).clear))
  }

  // Every call goes through, every inspection is clear, and Alembic leaves the target.
  ghost predicate Calm(script: nat -> Oracle, heads: set<string>) {
    forall i: nat :: script(i).ending == Done && script(i).clear && script(i).after == Heads(heads)
  }

  /** With calls like these a first bootstrap of an empty database succeeds, and so does every resumed one over the
      target heads or, before the schema was checked, over an empty database. */
  lemma CalmCallsSucceed(script: nat -> Oracle, d: Disk, identity: Identity)
    requires Calm(script, identity.heads)
    ensures d.live.Empty? && script(3).pick !in d.journals
            && (forall id :: !Unresolved(d.journals, id) && !CommittedFor(d.journals, id, identity)) ==>
              Succeeds(script, d, identity)
    ensures forall id :: MayResume(d, Begin(identity), id) && !SearchRaises(d.journals, identity) ==>
              var latest := LatestIn(d.journals[id]);
              (d.live == Heads(identity.heads) && latest.Some?) || (d.live.Empty? && Unfinished(latest)) ==>
                Succeeds(script, d, identity)
  {
    assert forall k: nat, n: nat :: AllDone(script, k, n);
    assert forall k: nat :: script(k).clear && script(k).after == Heads(identity.heads);
    hide AllDone, Calm, LatestIn, Unresolved, CommittedFor;
    forall id | MayResume(d, Begin(identity), id) ensures Unresolved(d.journals, id) {}
    hide MayResume;
  }

  // Every journal's log is a path of the table.
  ghost predicate PathLogs(d: Disk) {
    forall id :: id in d.journals ==> Logged(d, id, EventLog.Listing(d.journals[id].events))
  }

  lemma ChoiceDecides(script: nat -> Oracle, k: nat, d: Disk, identity: Identity, healthy: bool, seen: Freshness, how: Option<Case>, id: Id)
    requires AllDone(script, k, 1) && Choice(d, identity, seen, how, id)
    ensures how.None? ==> !Chosen(script, k, d, identity, healthy, seen)
    ensures how == Some(Created) ==>
              (Chosen(script, k, d, identity, healthy, seen) <==> CreatedWorksOut(script, k + 1, identity.heads, healthy, seen, d))
    ensures how == Some(Resumed) || how == Some(Recognised) ==>
              && id in d.journals
              && (Chosen(script, k, d, identity, healthy, seen) <==>
                    WorksOut(script, k + 1, identity.heads, how.value, healthy, LatestIn(d.journals[id]), seen, d.live, ResultOf(d, id).None?))
  {
    hide AllDone, SearchRaises, WorksOut, LatestIn, CreatedWorksOut, Matches, IsCommitted;
    if how == Some(Resumed) {
      assert Unresolved(d.journals, id);
      assert forall other :: MayResume(d, Begin(identity), other) ==> other == id;
    } else if how == Some(Recognised) {
      assert forall other :: CommittedFor(d.journals, other, identity) ==> other == id by { OneFor(d, identity, id); }
      CommittedHasResult(d, identity, id);
    }
    hide Unresolved, CommittedFor, MayResume;
  }

  lemma OneFor(d: Disk, identity: Identity, id: Id)
    requires !SearchRaises(d.journals, identity) && CommittedFor(d.journals, id, identity)
    ensures forall other :: CommittedFor(d.journals, other, identity) ==> other == id
  {
    hide CommittedFor, Matches;
  }

  lemma CommittedHasResult(d: Disk, identity: Identity, id: Id)
    requires CommittedFor(d.journals, id, identity)
    ensures id in d.journals && ResultOf(d, id).Some?
  {
  }

  lemma NotChosen(script: nat -> Oracle, k: nat, d: Disk, identity: Identity, healthy: bool, seen: Freshness)
    requires !AllDone(script, k, 1)
    ensures !Chosen(script, k, d, identity, healthy, seen)
  {
  }

  lemma PathLogAt(d: Disk, id: Id)
    requires PathLogs(d) && id in d.journals
    ensures Logged(d, id, EventLog.Listing(d.journals[id].events))
    ensures LastOf(EventLog.Listing(d.journals[id].events)) == LatestIn(d.journals[id])
  {
    LoggedReads(d, id, EventLog.Listing(d.journals[id].events), BootPlanned);
  }

  class Bootstrap {
    const script: nat -> Oracle
    const identity: Identity

    var disk: Disk
    var calls: nat
    var id: Id
    var writable: bool
    var resumed: bool
    var found: bool
    var healthy: bool
    var latest: Option<BootPhase>
    var seen: Freshness
    var schema: bool

    ghost var at: At
    ghost var pending: Pending
    ghost var running: bool
    ghost const origin: Turn

    constructor (disk: Disk, identity: Identity, script: nat -> Oracle)
      ensures Follows() && IsAt(WantLock) && Fresh() && calls == 0
      ensures this.disk == disk && this.identity == identity && origin == Turn(disk, Some(Begin(identity)))
    {
      this.script, this.identity, this.disk := script, identity, disk;
      calls, id, latest, seen := 0, "", None, Unclear;
      writable, resumed, found, healthy, schema := false, false, false, false, false;
      at, running, pending := WantLock, true, Nothing;
      origin := Turn(disk, Some(Begin(identity)));
    }

    ghost function Me(): Run
      reads this
    {
      Run(at, identity, id, writable, resumed, found, healthy, latest, seen, schema, pending)
    }

    ghost function Here(): Turn
      reads this
    {
      Turn(disk, if running then Some(Me()) else None)
    }

    /** The stores and the locals are what the protocol reaches in as many steps as calls were made. */
    ghost predicate Follows()
      reads this
    {
      Steps(origin, script, calls) == Here()
    }

    ghost predicate Fresh()
      reads this
    {
      !writable && !resumed && !found && !schema
    }

    ghost predicate IsAt(place: At)
      reads this
    {
      running && at == place && pending.Nothing?
    }

    // Raising: the handler is next if there is a journal to write into.
    ghost predicate Failing()
      reads this
    {
      if writable then IsAt(FailAppending) else !running
    }

    method Ask() returns (o: Oracle)
      requires Follows() && running
      modifies this`calls
      ensures calls == old(calls) + 1 && o == script(old(calls)) && (AllDone(script, old(calls), 1) <==> o.ending == Done)
      ensures Steps(origin, script, calls) == TurnOf(disk, Me(), o)
    {
      hide TurnOf;
      o := script(calls);
      calls := calls + 1;
    }

    // Go on, or raise.
    ghost method Leave(raised: bool, next: At)
      modifies this`at, this`running, this`pending
      ensures if raised then Failing() else running == old(running) && at == next && pending.Nothing?
      ensures raised && writable ==> running
    {
      pending := Nothing;
      if !raised {
        at := next;
      } else if writable {
        running, at := true, FailAppending;
      } else {
        running := false;
      }
    }

    // ---------------------------------------------------------------- calls that only look

    method TakeLock() returns (raised: bool)
      requires Follows() && IsAt(WantLock)
      modifies this`calls, this`at, this`running, this`pending
      ensures Follows() && (if raised then !running else IsAt(Inspecting)) && calls == old(calls) + 1
      ensures raised <==> !AllDone(script, old(calls), 1)
    {
      hide Steps, ChooseTurn, DecideTurn, FailAppendTurn, TerminalTurn, Appends;
      var o := Ask();
      raised := o.ending != Done;
      if raised { running := false; } else { at := Inspecting; }
    }

    method InspectFreshness() returns (raised: bool)
      requires Follows() && IsAt(Inspecting) && !writable
      modifies this`calls, this`at, this`running, this`pending, this`seen, this`healthy
      ensures Follows() && (if raised then !running else IsAt(Choosing)) && calls == old(calls) + 1
      ensures raised <==> !AllDone(script, old(calls), 1)
      ensures !raised ==> seen == Inspect(disk.live, script(old(calls)).clear) && healthy == script(old(calls)).healthy
    {
      hide Steps, ChooseTurn, DecideTurn, FailAppendTurn, TerminalTurn, Appends, Inspect;
      var o := Ask();
      raised := o.ending != Done;
      if raised { running := false; } else { at, seen, healthy := Choosing, Inspect(disk.live, o.clear), o.healthy; }
    }

    // Resume the one open journal if it is for this very release, else recognise a committed one, else create.
    method Choose(children: seq<Id>) returns (create: bool, raised: bool)
      requires Follows() && IsAt(Choosing) && Fresh()
      requires forall id :: id in children <==> id in disk.journals
      requires forall i, k :: 0 <= i < k < |children| ==> children[i] != children[k]
      modifies this`calls, this`at, this`running, this`pending, this`id, this`writable, this`resumed, this`found
      ensures Follows() && !schema
      ensures if raised then !running else IsAt(if create then Preparing else ReadingLatest)
      ensures (create ==> Fresh()) && (raised ==> !writable) && !(found && resumed) && calls == old(calls) + 1
      ensures create || raised || (How() != Created && (writable <==> !found))
      ensures if AllDone(script, old(calls), 1)
              then Choice(disk, identity, seen, if raised then None else Some(if create then Created else How()), id)
              else raised
    {
      hide Steps, TurnOf, AllDone, Choice, ChooseTurn, SearchRaises, CommittedFor, Unresolved, MayResume;
      var o := Ask();
      BootstrapSafety.ChooseIsTurn(disk, Me(), o);
      var unresolved := FindUnresolvedBootstraps(children, disk.journals);
      var committed := FindMatchingCommittedBootstrap(children, disk.journals, identity);
      create, raised := false, true;
      if o.ending != Done || committed.Err? {
        Refuses(disk, Me(), o);
        running := false;
      } else if unresolved != [] {
        assert forall i :: 0 <= i < |unresolved| ==> unresolved[i] in unresolved;
        OpenIn(disk.journals, unresolved[0]);
        if (forall i :: 0 <= i < |unresolved| ==> unresolved[i] == unresolved[0])
           && disk.journals[unresolved[0]].plan == Some(identity) {
          Resumes(disk, Me(), o, unresolved[0]);
          id, writable, resumed, raised, at := unresolved[0], true, true, false, ReadingLatest;
        } else {
          RefusesOther(disk, Me(), o, unresolved);
          running := false;
        }
      } else if committed.value.Some? {
        Recognises(disk, Me(), o, committed.value.value);
        id, found, raised, at := committed.value.value, true, false, ReadingLatest;
      } else {
        Creates(disk, Me(), o);
        if seen != Uninitialized {
          running := false;
        } else {
          create, raised, at := true, false, Preparing;
        }
      }
    }

    method ReadLatest() returns (up: bool)
      requires Follows() && IsAt(ReadingLatest)
      modifies this`calls, this`at, this`latest
      ensures Follows() && (at == if up then Deciding else StartingPostgres) && up == healthy && calls == old(calls) + 1
      ensures latest == if id in disk.journals then LatestIn(disk.journals[id]) else None
    {
      hide Steps, ChooseTurn, DecideTurn, FailAppendTurn, TerminalTurn, Appends;
      var o := Ask();
      latest := if id in disk.journals then LatestIn(disk.journals[id]) else None;
      up := healthy;
      at := if healthy then Deciding else StartingPostgres;
    }

    method StartPostgres() returns (log: bool, raised: bool)
      requires Follows() && IsAt(StartingPostgres)
      modifies this`calls, this`at, this`running, this`pending
      ensures Follows() && (if raised then Failing() else IsAt(if log then AppendingPostgres else Reinspecting))
      ensures (log <==> writable && (latest.None? || latest == Some(BootPlanned))) && calls == old(calls) + 1
      ensures raised <==> !AllDone(script, old(calls), 1)
    {
      hide Steps, ChooseTurn, DecideTurn, FailAppendTurn, TerminalTurn, Appends;
      var o := Ask();
      raised := o.ending != Done;
      log := writable && (latest.None? || latest == Some(BootPlanned));
      Leave(raised, if log then AppendingPostgres else Reinspecting);
    }

    method Reinspect() returns (raised: bool)
      requires Follows() && IsAt(Reinspecting)
      modifies this`calls, this`at, this`running, this`pending, this`seen
      ensures Follows() && (if raised then Failing() else IsAt(Deciding)) && calls == old(calls) + 1
      ensures seen == Inspect(disk.live, script(old(calls)).clear) && (raised <==> !AllDone(script, old(calls), 1))
    {
      hide Steps, ChooseTurn, DecideTurn, FailAppendTurn, TerminalTurn, Appends, Inspect;
      var o := Ask();
      raised := o.ending != Done;
      seen := Inspect(disk.live, o.clear);
      Leave(raised, Deciding);
    }

    method Probe() returns (raised: bool)
      requires Follows() && IsAt(Probing)
      modifies this`calls, this`at, this`running, this`pending
      ensures Follows() && (if raised then Failing() else IsAt(AppendingVerified))
      ensures raised <==> !(AllDone(script, old(calls), 1) && disk.live == Heads(identity.heads))
      ensures calls == old(calls) + 1
    {
      hide Steps, ChooseTurn, DecideTurn, FailAppendTurn, TerminalTurn, Appends;
      var o := Ask();
      raised := disk.live != Heads(identity.heads) || o.ending != Done;
      Leave(raised, AppendingVerified);
    }

    predicate Early()
      reads this`latest
    {
      IsEarly(latest)
    }

    ghost function How(): Case
      reads this`found, this`resumed
    {
      if found then Recognised else if resumed then Resumed else Created
    }

    // Where a journal of this status is closed, and where its schema is created.
    ghost function KnownAt(): At
      reads this`latest
    {
      if Early() then KnownVerified else if latest == Some(FreshnessVerified) then KnownCommitted else WritingKnown
    }

    ghost function FreshAt(): At
      reads this`latest
    {
      if Early() then AppendingFresh else if latest == Some(FreshnessVerified) then AppendingSchema else Upgrading
    }

    // Which way the database's condition leads: already at the target, or proven empty.
    method Decide() returns (known: bool, raised: bool)
      requires Follows() && IsAt(Deciding)
      modifies this`calls, this`at, this`running, this`pending
      ensures Follows()
      ensures raised ==> Failing()
      ensures (known <==> seen == Initialized(identity.heads)) && calls == old(calls) + 1
      ensures raised <==> !AllDone(script, old(calls), 1) ||
                            (if known then How() == Created else found || seen != Uninitialized)
      ensures !raised ==> if known && !writable then !running else IsAt(if known then KnownAt() else FreshAt())
    {
      hide Steps, ChooseTurn, FailAppendTurn, TerminalTurn, Appends;
      var o := Ask();
      BootstrapSafety.WriteIsTurn(disk, Me(), o);
      hide TurnOf;
      known := seen == Initialized(identity.heads);
      raised := o.ending != Done || if known then !found && !resumed else found || seen != Uninitialized;
      if known && !raised && !writable {
        running := false;
      } else {
        Leave(raised, if known then KnownAt() else FreshAt());
      }
    }

    // ---------------------------------------------------------------- calls that write

    // The directory is this run's only once the call that makes it has returned.
    method PrepareDir() returns (raised: bool)
      requires Follows() && IsAt(Preparing) && !writable
      modifies this`calls, this`at, this`running, this`pending, this`disk, this`id, this`writable
      ensures Follows() && (if raised then !running && !writable else IsAt(WritingPlan) && writable)
      ensures KeepsResults(old(disk), disk) && calls == old(calls) + 1
      ensures raised <==> script(old(calls)).pick in old(disk.journals) || !AllDone(script, old(calls), 1)
      ensures !raised ==> disk == Create(old(disk), id) && id !in old(disk.journals)
    {
      hide Steps, ChooseTurn, DecideTurn, FailAppendTurn, TerminalTurn, Appends;
      var o := Ask();
      raised := o.pick in disk.journals || o.ending != Done;
      if o.pick !in disk.journals && o.ending != Raised { disk := Create(disk, o.pick); }
      if raised { running := false; } else { id, writable, at := o.pick, true, WritingPlan; }
    }

    method WriteBootstrapPlan() returns (raised: bool)
      requires Follows() && IsAt(WritingPlan)
      modifies this`calls, this`at, this`running, this`pending, this`disk
      ensures Follows() && (if raised then Failing() else IsAt(AppendingPlanned))
      ensures KeepsResults(old(disk), disk) && calls == old(calls) + 1
      ensures raised <==> id !in old(disk.journals) || old(disk).journals[id].plan.Some? || !AllDone(script, old(calls), 1)
      ensures !raised ==> id in old(disk.journals) && disk == WritePlan(old(disk), id, identity)
    {
      hide Steps, ChooseTurn, DecideTurn, FailAppendTurn, TerminalTurn, Appends;
      var o := Ask();
      raised := id !in disk.journals || disk.journals[id].plan.Some? || o.ending != Done;
      if id in disk.journals && disk.journals[id].plan.None? && o.ending != Raised { disk := WritePlan(disk, id, identity); }
      Leave(raised, AppendingPlanned);
    }

    // append_bootstrap_event, at one of the points where the run appends; `tracks` where it also notes the status.
    method Append(phase: BootPhase, tracks: bool, ghost log: seq<BootPhase>) returns (raised: bool)
      requires Follows() && IsAt(at) && Appending(at) && phase == EventAt(at)
      requires tracks <==> at.AppendingPostgres? || at.KnownVerified? || at.AppendingFresh? || at.AppendingSchema?
      modifies this`calls, this`at, this`running, this`pending, this`disk, this`latest
      ensures Follows() && (if raised then Failing() else IsAt(NextAt(old(at))))
      ensures latest == if tracks && !raised then Some(phase) else old(latest)
      ensures disk == old(disk) || (id in old(disk.journals) && MayLog(old(disk).journals[id], phase)
                && disk == WriteEvent(old(disk), id, |old(disk).journals[id].events| + 1, phase))
      ensures KeepsResults(old(disk), disk) && disk.live == old(disk.live)
      ensures Logged(old(disk), id, log) ==> (raised <==> !(MayFollow(LastOf(log), phase) && AllDone(script, old(calls), 2)))
      ensures !raised ==> calls == old(calls) + 2 && (Logged(old(disk), id, log) ==> Logged(disk, id, log + [phase]))
    {
      hide Follows, MayLog, EventAt, NextAt, WriteEvent, Appending, MayFollow, Logged;
      AppendsTo(disk, id, log, phase);
      var number;
      number, raised := CheckEvent(phase);
      if raised { return; }
      raised := WriteEventFile(number, phase, tracks);
    }

    // Listing, reading the last file, the table, the name.
    method CheckEvent(phase: BootPhase) returns (number: nat, raised: bool)
      requires Follows() && IsAt(at) && Appending(at) && phase == EventAt(at)
      modifies this`calls, this`at, this`running, this`pending
      ensures Follows()
      ensures (raised ==> Failing()) && calls == old(calls) + 1
      ensures !raised <==> id in disk.journals && MayLog(disk.journals[id], phase) && AllDone(script, old(calls), 1)
      ensures !raised ==> running && at == old(at) && pending == Event(number) && number == |disk.journals[id].events| + 1
    {
      hide Steps, TurnOf, AllDone, MayLog, EventAt, NextAt, Appending, Appends, AfterEvent;
      var o := Ask();
      BootstrapSafety.AppendIsTurn(disk, Me(), o);
      ChecksEvent(disk, Me(), phase, AfterEvent(Me()), o);
      raised := id !in disk.journals || !MayLog(disk.journals[id], phase) || o.ending != Done;
      number := if raised then 0 else |disk.journals[id].events| + 1;
      if raised { Leave(true, at); } else { pending := Event(number); }
    }

    // The replacement of the file that was checked for.
    method WriteEventFile(number: nat, phase: BootPhase, tracks: bool) returns (raised: bool)
      requires Follows() && running && pending == Event(number) && Appending(at) && phase == EventAt(at) && id in disk.journals
      requires tracks <==> at.AppendingPostgres? || at.KnownVerified? || at.AppendingFresh? || at.AppendingSchema?
      modifies this`calls, this`at, this`running, this`pending, this`disk, this`latest
      ensures Follows() && (if raised then Failing() else IsAt(NextAt(old(at))))
      ensures latest == if tracks && !raised then Some(phase) else old(latest)
      ensures disk == old(disk) || disk == WriteEvent(old(disk), id, number, phase)
      ensures KeepsResults(old(disk), disk) && disk.live == old(disk.live) && calls == old(calls) + 1
      ensures raised <==> !AllDone(script, old(calls), 1)
      ensures !raised ==> disk == WriteEvent(old(disk), id, number, phase)
    {
      hide Steps, TurnOf, MayLog, EventAt, NextAt, WriteEvent, Appending;
      var o := Ask();
      BootstrapSafety.AppendIsTurn(disk, Me(), o);
      raised := o.ending != Done;
      EventKeepsResults(disk, id, number, phase);
      if o.ending != Raised { disk := WriteEvent(disk, id, number, phase); }
      if tracks && !raised { latest := Some(phase); }
      Leave(raised, NextAt(at));
    }

    method RunAlembicUpgrade() returns (raised: bool)
      requires Follows() && IsAt(Upgrading)
      modifies this`calls, this`at, this`running, this`pending, this`disk, this`schema
      ensures Follows()
      ensures if raised then Failing()
              else IsAt(if latest == Some(SchemaStarted) then AppendingCompleted else Probing)
      ensures KeepsResults(old(disk), disk) && calls == old(calls) + 1 && (raised <==> !AllDone(script, old(calls), 1))
      ensures disk == old(disk).(live := script(old(calls)).after)
    {
      hide Steps, ChooseTurn, DecideTurn, FailAppendTurn, TerminalTurn, Appends;
      hide AllDone, KeepsResults, ResultOf;
      LiveKeepsResults(disk);
      var o := Ask();
      schema := true;
      disk := disk.(live := o.after);
      raised := o.ending != Done;
      Leave(raised, if latest == Some(SchemaStarted) then AppendingCompleted else Probing);
    }

    // _write_terminal for a committed run: a result that is seen is left alone, and the call still returns.
    method WriteCommitted() returns (raised: bool)
      requires Follows() && IsAt(at) && (at == WritingResult || at == WritingKnown)
      modifies this`calls, this`at, this`running, this`pending, this`disk
      ensures Follows() && (if raised then Failing() else !running)
      ensures !raised ==> IsClosed(old(disk), disk, id)
      ensures disk.live == old(disk.live)
      ensures id in old(disk.journals) ==> (raised <==> !AllDone(script, old(calls), ToResult(ResultOf(old(disk), id).None?)))
    {
      hide Follows;
      var free;
      free, raised := CheckResult();
      if raised || !free { return; }
      raised := WriteResultFile();
    }

    // Is there a result already?
    method CheckResult() returns (free: bool, raised: bool)
      requires Follows() && IsAt(at) && (at == WritingResult || at == WritingKnown)
      modifies this`calls, this`at, this`running, this`pending
      ensures Follows()
      ensures (raised ==> Failing()) && calls == old(calls) + 1
      ensures raised <==> id !in disk.journals || !AllDone(script, old(calls), 1)
      ensures !raised ==> (free <==> disk.journals[id].result.None?)
      ensures !raised ==> if free then running && at == old(at) && pending == Result else !running
    {
      hide Steps, ChooseTurn, DecideTurn, FailAppendTurn, Appends, EventName, MayLog;
      var o := Ask();
      BootstrapSafety.WriteIsTurn(disk, Me(), o);
      hide TurnOf;
      raised := id !in disk.journals || o.ending != Done;
      free := !raised && disk.journals[id].result.None?;
      if raised { Leave(true, at); } else if free { pending := Result; } else { running := false; }
    }

    method WriteResultFile() returns (raised: bool)
      requires Follows() && running && pending == Result && (at == WritingResult || at == WritingKnown) && id in disk.journals
      modifies this`calls, this`at, this`running, this`pending, this`disk
      ensures Follows() && (if raised then Failing() else !running)
      ensures !raised ==> id in disk.journals && IsCommitted(disk.journals[id])
      ensures disk.live == old(disk.live) && calls == old(calls) + 1 && (raised <==> !AllDone(script, old(calls), 1))
    {
      hide Steps, ChooseTurn, DecideTurn, FailAppendTurn, Appends, EventName, MayLog;
      var o := Ask();
      BootstrapSafety.WriteIsTurn(disk, Me(), o);
      hide TurnOf;
      raised := o.ending != Done;
      if o.ending != Raised { disk := WriteOutcome(disk, id, Outcome(BootCommitted, identity.revision, identity.heads)); }
      if raised { Leave(true, at); } else { running := false; }
    }

    // ---------------------------------------------------------------- the failure handler

    method HandleFailure()
      requires Follows() && IsAt(FailAppending)
      modifies this`calls, this`at, this`running, this`pending, this`disk
      ensures Follows() && !running && disk.live == old(disk.live)
    {
      hide Follows;
      var go := AppendTerminal();
      if !go { return; }
      var free := LookForResult();
      if free { WriteTerminalResult(); }
    }

    function Terminal(): BootPhase
      reads this`schema
    {
      if schema then BootRequiresRecovery else BootFailed
    }

    method AppendTerminal() returns (go: bool)
      requires Follows() && IsAt(FailAppending)
      modifies this`calls, this`at, this`running, this`pending, this`disk
      ensures Follows() && disk.live == old(disk.live) && (if go then IsAt(FailResult) else !running)
    {
      hide Follows;
      var stands, number;
      stands, go, number := CheckTerminal();
      if stands { go := WriteTerminalEvent(number); }
    }

    // What the journal refuses is swallowed, and the handler goes on to the result.
    method CheckTerminal() returns (stands: bool, go: bool, number: nat)
      requires Follows() && IsAt(FailAppending)
      modifies this`calls, this`at, this`running, this`pending
      ensures Follows()
      ensures stands ==> running && at == FailAppending && pending == Event(number) && id in disk.journals
      ensures !stands ==> if go then IsAt(FailResult) else !running
    {
      hide Steps, MayLog, ChooseTurn, DecideTurn, TerminalTurn, Appends, LatestIn, EventName;
      var o := Ask();
      BootstrapSafety.WriteIsTurn(disk, Me(), o);
      hide TurnOf;
      stands, go, number := false, false, 0;
      if id !in disk.journals {
        running := false;
      } else if LatestIn(disk.journals[id]).None? || !MayLog(disk.journals[id], Terminal()) {
        at, go := FailResult, true;
      } else if o.ending != Done {
        running := false;
      } else {
        stands, number := true, |disk.journals[id].events| + 1;
        pending := Event(number);
      }
    }

    method WriteTerminalEvent(number: nat) returns (go: bool)
      requires Follows() && running && at == FailAppending && pending == Event(number) && id in disk.journals
      modifies this`calls, this`at, this`running, this`pending, this`disk
      ensures Follows() && disk.live == old(disk.live) && (if go then IsAt(FailResult) else !running)
    {
      hide Steps, MayLog, ChooseTurn, DecideTurn, TerminalTurn, Appends, LatestIn, EventName;
      var o := Ask();
      BootstrapSafety.WriteIsTurn(disk, Me(), o);
      hide TurnOf;
      go := if o.ending == Raised then EventName(number, Terminal()) in disk.journals[id].events && o.clear else o.ending == Done;
      if o.ending != Raised { disk := WriteEvent(disk, id, number, Terminal()); }
      if go { at, pending := FailResult, Nothing; } else { running := false; }
    }

    method LookForResult() returns (free: bool)
      requires Follows() && IsAt(FailResult)
      modifies this`calls, this`running, this`pending
      ensures Follows() && if free then running && at == FailResult && pending == Result && id in disk.journals else !running
    {
      hide Steps, MayLog, ChooseTurn, DecideTurn, FailAppendTurn, Appends, EventName;
      var o := Ask();
      BootstrapSafety.WriteIsTurn(disk, Me(), o);
      hide TurnOf;
      free := id in disk.journals && o.ending == Done && disk.journals[id].result.None?;
      if free { pending := Result; } else { running := false; }
    }

    method WriteTerminalResult()
      requires Follows() && running && at == FailResult && pending == Result && id in disk.journals
      modifies this`calls, this`running, this`disk
      ensures Follows() && !running && disk.live == old(disk.live)
    {
      hide Steps, MayLog, ChooseTurn, DecideTurn, FailAppendTurn, Appends, EventName;
      var o := Ask();
      BootstrapSafety.WriteIsTurn(disk, Me(), o);
      hide TurnOf;
      if o.ending != Raised { disk := WriteOutcome(disk, id, Outcome(Terminal(), identity.revision, identity.heads)); }
      running := false;
    }

    // ---------------------------------------------------------------- the transaction

    // A new journal, its plan and its first event.
    method CreateJournal() returns (raised: bool)
      requires Follows() && IsAt(Preparing) && !writable
      modifies this`calls, this`at, this`running, this`pending, this`disk, this`id, this`writable, this`latest
      ensures Follows() && (if raised then Failing() else IsAt(ReadingLatest))
      ensures KeepsResults(old(disk), disk)
      ensures raised <==> script(old(calls)).pick in old(disk.journals) || !AllDone(script, old(calls), 4)
      ensures !raised ==> Logged(disk, id, [BootPlanned]) && ResultOf(disk, id).None? && disk.live == old(disk.live)
      ensures !raised ==> writable && calls == old(calls) + 4
    {
      hide Follows, MayLog, WriteEvent, EventName, Logged;
      raised := PrepareDir();
      if raised { return; }
      raised := WriteBootstrapPlan();
      if raised { return; }
      NewLog(old(disk), id, identity);
      assert [] + [BootPlanned] == [BootPlanned];
      raised := Append(BootPlanned, false, []);
    }

    // PostgreSQL is up and its condition known.
    method BringUp(ghost log: seq<BootPhase>) returns (raised: bool)
      requires Follows() && IsAt(ReadingLatest) && (writable <==> !found)
      modifies this`calls, this`at, this`running, this`pending, this`disk, this`latest, this`seen
      ensures Follows() && (if raised then Failing() else IsAt(Deciding))
      ensures KeepsResults(old(disk), disk) && disk.live == old(disk.live)
      ensures Logged(old(disk), id, log) ==> (raised <==> !ComesUp(script, old(calls), How(), healthy, LastOf(log)))
      ensures !raised && Logged(old(disk), id, log) ==>
                && calls == old(calls) + ToDecision(How(), healthy, LastOf(log))
                && latest == LatestThen(How(), healthy, LastOf(log)) && Logged(disk, id, LogThen(How(), healthy, log))
                && seen == SeenThen(script, old(calls), How(), healthy, LastOf(log), old(seen), disk.live)
    {
      hide Follows, MayLog, WriteEvent, EventName, Logged, Inspect, AllDone, LatestIn, KeepsResults;
      Keeping(disk, id);
      ReadsLast(disk, id, log);
      Split(script, calls + 1, 1, 1);
      var up := ReadLatest();
      if up { return false; }
      raised := StartAndInspect(log);
    }

    // PostgreSQL alone is started, and the database looked at again.
    method StartAndInspect(ghost log: seq<BootPhase>) returns (raised: bool)
      requires Follows() && IsAt(StartingPostgres)
      modifies this`calls, this`at, this`running, this`pending, this`disk, this`latest, this`seen
      ensures Follows() && (if raised then Failing() else IsAt(Deciding))
      ensures KeepsResults(old(disk), disk) && disk.live == old(disk.live)
      ensures var logs := writable && (old(latest).None? || old(latest) == Some(BootPlanned)); var n := if logs then 4 else 2;
              Logged(old(disk), id, log) && old(latest) == LastOf(log) ==>
                && (raised <==> !AllDone(script, old(calls), n) || (logs && old(latest).None?))
                && (!raised ==> calls == old(calls) + n && seen == Inspect(disk.live, script(old(calls) + n - 1).clear)
                                && latest == (if logs then Some(PostgresStarted) else old(latest))
                                && Logged(disk, id, if logs then log + [PostgresStarted] else log))
    {
      hide Follows, MayLog, WriteEvent, EventName, Logged, Inspect, AllDone, KeepsResults;
      Keeping(disk, id);
      Split(script, calls, 1, 3);
      Split(script, calls + 1, 2, 1);
      Split(script, calls, 1, 1);
      var starts;
      starts, raised := StartPostgres();
      if raised { return; }
      if starts {
        raised := Append(PostgresStarted, true, log);
        if raised { return; }
      }
      raised := Reinspect();
    }

    // The database was found at the target: close the journal from wherever it stands.
    method CloseKnown(ghost log: seq<BootPhase>) returns (raised: bool)
      requires Follows() && IsAt(KnownAt())
      modifies this`calls, this`at, this`running, this`pending, this`disk, this`latest
      ensures Follows() && (if raised then Failing() else !running)
      ensures !raised ==> IsClosed(old(disk), disk, id)
      ensures Logged(old(disk), id, log) && old(latest) == LastOf(log) ==>
                (raised <==> !AllDone(script, old(calls), ToNext(old(latest)) + ToResult(ResultOf(old(disk), id).None?)))
    {
      hide Follows, MayLog, WriteEvent, EventName, Logged;
      InJournals(disk, id, log);
      ghost var l := log;
      if Early() {
        raised := Append(FreshnessVerified, true, l);
        if raised { return; }
        l := l + [FreshnessVerified];
      }
      if latest == Some(FreshnessVerified) {
        raised := Append(BootCommitted, false, l);
        if raised { return; }
        l := l + [BootCommitted];
      }
      InJournals(disk, id, l);
      raised := WriteCommitted();
    }

    // The database was proven empty: create the schema and check what it came to.
    method CreateSchema(ghost log: seq<BootPhase>) returns (raised: bool)
      requires Follows() && IsAt(FreshAt())
      modifies this`calls, this`at, this`running, this`pending, this`disk, this`latest, this`schema
      ensures Follows() && (if raised then Failing() else !running)
      ensures !raised ==> IsClosed(old(disk), disk, id) && disk.live == Heads(identity.heads)
      ensures Logged(old(disk), id, log) && old(latest) == LastOf(log) ==>
                (raised <==> !SchemaComes(script, old(calls), identity.heads, old(latest), ResultOf(old(disk), id).None?))
    {
      hide Follows, MayLog, WriteEvent, EventName, Logged, AllDone, LogBefore, KeepsResults, IsClosed, ToNext, FromAlembic, Unfinished;
      Keeping(disk, id);
      ghost var free := ResultOf(disk, id).None?;
      Split(script, calls, ToNext(latest), 1 + FromAlembic(latest, free));
      Split(script, calls + ToNext(latest), 1, FromAlembic(latest, free));
      LastBefore(log, free);
      raised := LogSchemaStart(log);
      if raised { return; }
      StaysLogged(disk, id);
      raised := RunAlembicUpgrade();
      if raised { return; }
      raised := FinishSchema(LogBefore(log));
    }

    // The events before Alembic.
    method LogSchemaStart(ghost log: seq<BootPhase>) returns (raised: bool)
      requires Follows() && IsAt(FreshAt())
      modifies this`calls, this`at, this`running, this`pending, this`disk, this`latest
      ensures Follows() && (if raised then Failing() else IsAt(Upgrading))
      ensures KeepsResults(old(disk), disk)
      ensures Logged(old(disk), id, log) && old(latest) == LastOf(log) ==>
                && (raised <==> !AllDone(script, old(calls), ToNext(old(latest))))
                && (!raised ==> calls == old(calls) + ToNext(old(latest)) && Logged(disk, id, LogBefore(log))
                                && latest == LastOf(LogBefore(log)))
    {
      hide Follows, MayLog, WriteEvent, EventName, Logged, AllDone;
      Split(script, calls, 2, 2);
      Split(script, calls, 0, 0);
      ghost var l := log;
      if Early() {
        raised := Append(FreshnessVerified, true, l);
        if raised { return; }
        l := l + [FreshnessVerified];
      }
      if latest == Some(FreshnessVerified) {
        raised := Append(SchemaStarted, true, l);
        if raised { return; }
        l := l + [SchemaStarted];
      }
      raised := false;
    }

    // After Alembic: its completion, and the check of what it came to.
    method FinishSchema(ghost log: seq<BootPhase>) returns (raised: bool)
      requires Follows() && IsAt(if latest == Some(SchemaStarted) then AppendingCompleted else Probing)
      modifies this`calls, this`at, this`running, this`pending, this`disk, this`latest
      ensures Follows() && (if raised then Failing() else !running)
      ensures !raised ==> IsClosed(old(disk), disk, id) && disk.live == Heads(identity.heads)
      ensures Logged(old(disk), id, log) && old(latest) == LastOf(log) ==>
                (raised <==> !(&& (LastOf(log) == Some(SchemaStarted) || LastOf(log) == Some(SchemaCompleted))
                               && old(disk.live) == Heads(identity.heads)
                               && AllDone(script, old(calls), FromAlembic(LastOf(log), ResultOf(old(disk), id).None?))))
    {
      hide Follows, MayLog, WriteEvent, EventName, Logged, AllDone;
      Split(script, calls, 2, 5 + ToResult(ResultOf(disk, id).None?));
      ghost var l := log;
      if latest == Some(SchemaStarted) {
        raised := Append(SchemaCompleted, false, l);
        if raised { return; }
        l := l + [SchemaCompleted];
      }
      raised := VerifyAndCommit(l);
    }

    method VerifyAndCommit(ghost log: seq<BootPhase>) returns (raised: bool)
      requires Follows() && IsAt(Probing)
      modifies this`calls, this`at, this`running, this`pending, this`disk, this`latest
      ensures Follows() && (if raised then Failing() else !running)
      ensures !raised ==> IsClosed(old(disk), disk, id) && disk.live == Heads(identity.heads)
      ensures Logged(old(disk), id, log) ==>
                (raised <==> !(LastOf(log) == Some(SchemaCompleted) && old(disk.live) == Heads(identity.heads)
                               && AllDone(script, old(calls), 5 + ToResult(ResultOf(old(disk), id).None?))))
    {
      hide Follows, MayLog, WriteEvent, EventName, Logged, AllDone, KeepsResults, IsClosed, MayFollow;
      ghost var rest := ToResult(ResultOf(disk, id).None?);
      Split(script, calls, 1, 4 + rest);
      Split(script, calls + 1, 2, 2 + rest);
      Keeping(disk, id);
      OnlyAfterCompletion(log);
      raised := Probe();
      if raised { return; }
      raised := Append(BootHeadsVerified, false, log);
      if raised { return; }
      raised := LogAndWriteCommitted(log + [BootHeadsVerified]);
    }

    method LogAndWriteCommitted(ghost log: seq<BootPhase>) returns (raised: bool)
      requires Follows() && IsAt(AppendingCommitted)
      modifies this`calls, this`at, this`running, this`pending, this`disk, this`latest
      ensures Follows() && (if raised then Failing() else !running) && disk.live == old(disk.live)
      ensures !raised ==> IsClosed(old(disk), disk, id)
      ensures Logged(old(disk), id, log) && MayFollow(LastOf(log), BootCommitted) ==>
                (raised <==> !AllDone(script, old(calls), 2 + ToResult(ResultOf(old(disk), id).None?)))
    {
      hide Follows, MayLog, WriteEvent, EventName, Logged, AllDone, KeepsResults, IsClosed, MayFollow;
      Split(script, calls, 2, ToResult(ResultOf(disk, id).None?));
      Keeping(disk, id);
      raised := Append(BootCommitted, false, log);
      if raised { return; }
      InJournals(disk, id, log + [BootCommitted]);
      raised := WriteCommitted();
    }

    /** The whole call: it runs the protocol to its end, and succeeds exactly when every call it comes to does, the
        choice falls on a journal, the log takes what is due, and the database is, or comes to be, at the target. */
    method RunBootstrapDb() returns (ok: bool)
      requires Follows() && IsAt(WantLock) && Fresh() && calls == 0
      modifies this
      ensures Follows() && !running
      ensures ok ==> seen == Initialized(identity.heads) || disk.live == Heads(identity.heads)
      ensures ok && writable ==> IsClosed(old(disk), disk, id)
      ensures PathLogs(old(disk)) ==> (ok <==> Succeeds(script, old(disk), identity))
    {
      hide Follows, Chosen, Inspect;
      var raised := TakeLock();
      if raised { return false; }
      raised := InspectFreshness();
      if raised { return false; }
      raised := Guarded();
      if raised && writable {
        HandleFailure();
      }
      return !raised;
    }

    // What runs under the lock once the database was looked at.
    method Guarded() returns (raised: bool)
      requires Follows() && IsAt(Choosing) && Fresh()
      modifies this
      ensures Follows() && (if raised then Failing() else !running)
      ensures !raised ==> seen == Initialized(identity.heads) || disk.live == Heads(identity.heads)
      ensures !raised && writable ==> IsClosed(old(disk), disk, id)
      ensures PathLogs(old(disk)) ==>
                (!raised <==> Chosen(script, old(calls), old(disk), identity, old(healthy), old(seen)))
    {
      hide Follows, MayLog, WriteEvent, EventName, Choice, Logged, WorksOut, CreatedWorksOut, LatestIn, Inspect, AllDone,
           IsClosed, KeepsResults, Chosen, PathLogs, SearchRaises;
      ghost var d := disk;
      ghost var k := calls;
      ghost var looked := seen;
      if !AllDone(script, k, 1) { NotChosen(script, k, d, identity, healthy, seen); }
      var children := Children(disk.journals);
      var create;
      create, raised := Choose(children);
      ghost var how := if raised then None else Some(if create then Created else How());
      if AllDone(script, k, 1) { ChoiceDecides(script, k, d, identity, healthy, looked, how, id); }
      if raised { return; }
      if create {
        raised := CreateAndCarry();
      } else {
        if PathLogs(d) { PathLogAt(d, id); }
        raised := Carry(EventLog.Listing(disk.journals[id].events));
      }
    }

    method CreateAndCarry() returns (raised: bool)
      requires Follows() && IsAt(Preparing) && Fresh()
      modifies this`calls, this`at, this`running, this`pending, this`disk, this`latest, this`seen, this`schema, this`id, this`writable
      ensures Follows() && (if raised then Failing() else !running)
      ensures !raised ==> seen == Initialized(identity.heads) || disk.live == Heads(identity.heads)
      ensures !raised && writable ==> IsClosed(old(disk), disk, id)
      ensures !raised <==> CreatedWorksOut(script, old(calls), identity.heads, healthy, old(seen), old(disk))
    {
      hide Follows, MayLog, WriteEvent, EventName, Logged, WorksOut, Inspect, AllDone, IsClosed, KeepsResults;
      ghost var d := disk;
      raised := CreateJournal();
      if raised { return; }
      Keeping(d, id);
      raised := Carry([BootPlanned]);
    }

    // From the reading of the journal's latest status on.
    method Carry(ghost log: seq<BootPhase>) returns (raised: bool)
      requires Follows() && IsAt(ReadingLatest) && (writable <==> !found) && !(found && resumed) && !schema
      modifies this`calls, this`at, this`running, this`pending, this`disk, this`latest, this`seen, this`schema
      ensures Follows() && (if raised then Failing() else !running)
      ensures !raised ==> seen == Initialized(identity.heads) || disk.live == Heads(identity.heads)
      ensures !raised && writable ==> IsClosed(old(disk), disk, id)
      ensures Logged(old(disk), id, log) ==>
                (!raised <==> WorksOut(script, old(calls), identity.heads, How(), healthy, LastOf(log), old(seen),
                                       old(disk.live), ResultOf(old(disk), id).None?))
    {
      hide Follows, MayLog, WriteEvent, EventName, Logged, Inspect, SchemaComes, ComesUp, AllDone, IsClosed, KeepsResults,
           SeenThen, LatestThen, LogThen, ToDecision, ToNext, ToResult, KnownAt, FreshAt;
      Keeping(disk, id);
      raised := BringUp(log);
      if raised { return; }
      var known;
      known, raised := Decide();
      if raised { return; }
      ghost var l := LogThen(How(), healthy, log);
      LastThen(How(), healthy, log);
      if known {
        if writable {
          raised := CloseKnown(l);
        }
      } else {
        raised := CreateSchema(l);
      }
    }
  }

  // The directory listing.
  method Children(journals: map<Id, Journal>) returns (children: seq<Id>)
    ensures forall id :: id in children <==> id in journals
    ensures forall i, k :: 0 <= i < k < |children| ==> children[i] != children[k]
  {
    var rest := journals.Keys;
    children := [];
    while rest != {}
      invariant rest <= journals.Keys
      invariant forall id :: id in children <==> id in journals && id !in rest
      invariant forall i, k :: 0 <= i < k < |children| ==> children[i] != children[k]
      decreases |rest|
    {
      var id :| id in rest;
      rest := rest - {id};
      children := children + [id];
    }
  }

  // ---------------------------------------------------------------- why that suffices

  // The system with this run in it, holding the lock if its place says so, or gone.
  ghost function Alone(t: Turn, pid: Pid): Sys {
    if t.run.None? then Sys(t.disk, None, map[])
    else Sys(t.disk, if Locked(t.run.value) then Some(pid) else None, map[pid := t.run.value])
  }

  /** Each call of a run by itself is a step of the protocol's histories, or changes nothing. */
  lemma EveryCallIsAStep(t: Turn, pid: Pid, script: nat -> Oracle, n: nat)
    ensures var before, after := Alone(Steps(t, script, n), pid), Alone(Steps(t, script, n + 1), pid);
            after == before || Next(before, after)
  {
    var was := Steps(t, script, n);
    hide TurnOf, Locked;
    if was.run.Some? {
      var o := script(n);
      var s := Alone(was, pid);
      assert s.runs[pid] == was.run.value;
      var next := TurnOf(was.disk, was.run.value, o);
      assert map[pid := was.run.value] - {pid} == map[];
      if next.run.Some? { assert map[pid := was.run.value][pid := next.run.value] == map[pid := next.run.value]; }
      assert Advance(s, pid, o) == Alone(next, pid);
    }
  }
}
