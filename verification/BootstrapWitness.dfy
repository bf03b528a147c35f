/** Histories of the bootstrap that do happen: a committed result that is overwritten, a run that succeeds over another
    result, a log that breaks, and a journal without a plan. */
module BootstrapWitness {
  import opened Wrappers
  import opened Phases
  import opened BootstrapProtocol
  import opened BootstrapSafety
  import opened BootstrapLogs
  import opened BootstrapOverlap
  import opened BootstrapTheorems
  import EventLog

  // ---------------------------------------------------------------- going on

  function Last(history: seq<Sys>): Sys
    requires history != []
  {
    history[|history| - 1]
  }

  function After(s: Sys, pid: Pid, t: Turn): Sys {
    Sys(t.disk, LockAfter(s.lock, pid, t.run.Some? && Locked(t.run.value)),
        if t.run.Some? then s.runs[pid := t.run.value] else s.runs - {pid})
  }

  lemma Longer(history: seq<Sys>, t: Sys)
    requires IsHistory(history) && Next(Last(history), t)
    ensures IsHistory(history + [t])
  {
    hide Next;
    var more := history + [t];
    forall k: nat | 0 < k < |more| ensures StepAt(more, k) {
      if k < |history| { assert StepAt(history, k); }
    }
  }

  lemma Go(history: seq<Sys>, pid: Pid, o: Oracle, t: Turn) returns (more: seq<Sys>)
    requires IsHistory(history) && pid in Last(history).runs && TurnOf(Last(history).disk, Last(history).runs[pid], o) == t
    requires t.run.Some? && Locked(t.run.value) ==> Last(history).lock.None? || Last(history).lock == Some(pid)
    ensures IsHistory(more) && history <= more && |more| == |history| + 1 && Last(more) == After(Last(history), pid, t)
  {
    assert history != [];
    hide TurnOf, Locked, IsHistory;
    var s := Last(history);
    assert Advance(s, pid, o) == After(s, pid, t);
    more := history + [After(s, pid, t)];
    Longer(history, After(s, pid, t));
  }

  lemma Enter(history: seq<Sys>, pid: Pid, identity: Identity) returns (more: seq<Sys>)
    requires IsHistory(history) && pid !in Last(history).runs && identity.heads != {}
    ensures IsHistory(more) && history <= more && |more| == |history| + 1
    ensures Last(more) == Last(history).(runs := Last(history).runs[pid := Begin(identity)])
  {
    assert history != [];
    hide IsHistory;
    var t := Last(history).(runs := Last(history).runs[pid := Begin(identity)]);
    more := history + [t];
    Longer(history, t);
  }

  // ---------------------------------------------------------------- a run that gets as far as Alembic

  const J: Id := "j"
  const Calmly: Oracle := Oracle(Done, J, true, true, Empty)

  // One journal, with this log and result.
  ghost function Store(identity: Identity, log: seq<BootPhase>, result: Option<Outcome>, live: Database): Disk {
    Disk(map[J := Journal(Some(identity), EventLog.FilesOf(log, BootSuffix), result)], live)
  }

  // A run beside others that do not hold the lock, and a run with nobody beside it.
  ghost function Beside(d: Disk, others: map<Pid, Run>, pid: Pid, r: Run): Sys {
    Sys(d, if Locked(r) then Some(pid) else None, others[pid := r])
  }

  ghost function Alone(d: Disk, r: Run): Sys {
    Beside(d, map[], 1, r)
  }

  lemma GoBeside(history: seq<Sys>, d: Disk, others: map<Pid, Run>, pid: Pid, r: Run, o: Oracle, n: Disk, next: Run)
    returns (more: seq<Sys>)
    requires IsHistory(history) && Last(history) == Beside(d, others, pid, r) && TurnOf(d, r, o) == Turn(n, Some(next))
    ensures IsHistory(more) && history <= more && Last(more) == Beside(n, others, pid, next)
  {
    hide TurnOf, IsHistory, Locked;
    more := Go(history, pid, o, Turn(n, Some(next)));
    assert others[pid := r][pid := next] == others[pid := next];
  }

  lemma GoAlone(history: seq<Sys>, d: Disk, r: Run, o: Oracle, n: Disk, next: Run) returns (more: seq<Sys>)
    requires IsHistory(history) && Last(history) == Alone(d, r) && TurnOf(d, r, o) == Turn(n, Some(next))
    ensures IsHistory(more) && Last(more) == Alone(n, next)
  {
    hide TurnOf, IsHistory, Beside;
    more := GoBeside(history, d, map[], 1, r, o, n, next);
  }

  // The run as it is once its journal is there.
  function Mine(at: At, identity: Identity, latest: Option<BootPhase>): Run {
    Run(at, identity, J, true, false, false, true, latest, Uninitialized, false, Nothing)
  }

  // The run that has looked at an empty database.
  function Looked(at: At, identity: Identity): Run {
    Begin(identity).(at := at, seen := Uninitialized, healthy := true)
  }

  lemma UpToPreparing(identity: Identity) returns (history: seq<Sys>)
    requires identity.heads != {}
    ensures IsHistory(history) && Last(history) == Alone(Disk(map[], Empty), Looked(Preparing, identity))
  {
    var d := Disk(map[], Empty);
    var s := Sys(d, None, map[]);
    assert Init(s) && IsHistory([s]);
    hide IsHistory, SearchRaises, Unresolved, CommittedFor;
    history := Enter([s], 1, identity);
    var r := Begin(identity);
    assert map[][1 := r] == map[1 := r];
    history := GoAlone(history, d, r, Calmly, d, r.(at := Inspecting));
    history := GoAlone(history, d, r.(at := Inspecting), Calmly, d, Looked(Choosing, identity));
    NoneInNothing(identity);
    ChoosesNew(d, Looked(Choosing, identity));
    history := GoAlone(history, d, Looked(Choosing, identity), Calmly, d, Looked(Preparing, identity));
  }

  lemma Opening(identity: Identity) returns (history: seq<Sys>)
    requires identity.heads != {}
    ensures IsHistory(history)
    ensures Last(history) == Alone(Store(identity, [], None, Empty), Mine(AppendingPlanned, identity, None))
  {
    history := UpToPreparing(identity);
    hide IsHistory;
    var created := Create(Disk(map[], Empty), J);
    assert created.journals == map[J := Journal(None, map[], None)];
    history := GoAlone(history, Disk(map[], Empty), Looked(Preparing, identity), Calmly, created, Mine(WritingPlan, identity, None));
    EmptyLog();
    var planned := WritePlan(created, J, identity);
    assert planned == Store(identity, [], None, Empty);
    history := GoAlone(history, created, Mine(WritingPlan, identity, None), Calmly, planned, Mine(AppendingPlanned, identity, None));
  }

  lemma ChoosesNew(d: Disk, r: Run)
    requires r.at == Choosing && r.seen == Uninitialized
    requires forall id :: !Unresolved(d.journals, id) && !CommittedFor(d.journals, id, r.identity)
    ensures TurnOf(d, r, Calmly) == Goes(d, r, Preparing)
  {
    assert !SearchRaises(d.journals, r.identity);
    ChooseIsTurn(d, r, Calmly);
    hide TurnOf, SearchRaises, Unresolved, CommittedFor, MayResume;
  }

  lemma NoneInNothing(identity: Identity)
    ensures forall id :: !Unresolved(map[], id) && !CommittedFor(map[], id, identity)
  {
  }

  // A legal append to a path log: the check, and later the write.
  lemma MayAppendTo(identity: Identity, log: seq<BootPhase>, phase: BootPhase, live: Database)
    requires IsBootPath(log) && (if log == [] then phase == BootPlanned else BootLegal(log[|log| - 1], phase))
    ensures var d := Store(identity, log, None, live); var j := d.journals[J];
            && MayLog(j, phase) && |j.events| == |log| && LatestIn(j) == (if log == [] then None else Some(log[|log| - 1]))
            && WriteEvent(d, J, |log| + 1, phase) == Store(identity, log + [phase], None, live)
    ensures IsBootPath(log + [phase])
  {
    hide IsBootPath, BootSuffix, EventLog.FilesOf, EventLog.Listing, EventLog.FileName, BootLegal;
    PathIsShort(log);
    FilesOfLog(log);
    FreshFile(log, phase);
    EventLog.NextNameIsFree(log, phase, BootSuffix);
    var d := Store(identity, log, None, live);
    assert WriteEvent(d, J, |log| + 1, phase).journals == Store(identity, log + [phase], None, live).journals;
  }

  lemma AppendsBeside(history: seq<Sys>, others: map<Pid, Run>, pid: Pid, identity: Identity, log: seq<BootPhase>, live: Database, r: Run)
    returns (more: seq<Sys>)
    requires IsHistory(history) && Last(history) == Beside(Store(identity, log, None, live), others, pid, r)
    requires Appending(r.at) && r.pending.Nothing? && r.id == J
    requires IsBootPath(log) && (if log == [] then EventAt(r.at) == BootPlanned else BootLegal(log[|log| - 1], EventAt(r.at)))
    ensures IsHistory(more) && IsBootPath(log + [EventAt(r.at)])
    ensures Last(more) == Beside(Store(identity, log + [EventAt(r.at)], None, live), others, pid, AfterEvent(r))
  {
    hide IsHistory, IsBootPath, MayLog, WriteEvent, TurnOf, LatestIn, EventAt, NextAt, AfterEvent, BootLegal, Beside;
    var d := Store(identity, log, None, live);
    MayAppendTo(identity, log, EventAt(r.at), live);
    AppendIsTurn(d, r, Calmly);
    var standing := r.(pending := Event(|log| + 1));
    more := GoBeside(history, d, others, pid, r, Calmly, d, standing);
    SameEvent(r, standing);
    AppendIsTurn(d, standing, Calmly);
    more := GoBeside(more, d, others, pid, standing, Calmly, Store(identity, log + [EventAt(r.at)], None, live), AfterEvent(r));
  }

  lemma SameEvent(r: Run, standing: Run)
    requires standing == r.(pending := standing.pending)
    ensures AfterEvent(standing) == AfterEvent(r)
  {
    hide NextAt, EventAt;
  }

  // One append is the next in line.
  lemma AppendsNext(history: seq<Sys>, identity: Identity, log: seq<BootPhase>, r: Run, phase: BootPhase, longer: seq<BootPhase>)
    returns (more: seq<Sys>)
    requires IsHistory(history) && Last(history) == Alone(Store(identity, log, None, Empty), r) && longer == log + [phase]
    requires Appending(r.at) && r.pending.Nothing? && r.id == J && phase == EventAt(r.at)
    requires IsBootPath(log) && (if log == [] then phase == BootPlanned else BootLegal(log[|log| - 1], phase))
    ensures IsHistory(more) && Last(more) == Alone(Store(identity, longer, None, Empty), AfterEvent(r)) && IsBootPath(longer)
  {
    hide IsHistory, IsBootPath, Appending, EventAt, BootLegal, AfterEvent, Beside;
    more := AppendsBeside(history, map[], 1, identity, log, Empty, r);
  }

  lemma LatestIsRead(identity: Identity, log: seq<BootPhase>, result: Option<Outcome>, live: Database, r: Run)
    requires IsBootPath(log) && log != [] && r.at.ReadingLatest? && r.id == J && r.healthy
    ensures var d := Store(identity, log, result, live);
            TurnOf(d, r, Calmly) == Turn(d, Some(r.(at := Deciding, latest := Some(log[|log| - 1]))))
  {
    FilesOfLog(log);
    hide IsBootPath, EventLog.FilesOf, EventLog.Listing;
  }

  lemma FirstDecision(d: Disk, identity: Identity)
    ensures TurnOf(d, Mine(Deciding, identity, Some(BootPlanned)), Calmly)
            == Turn(d, Some(Mine(AppendingFresh, identity, Some(BootPlanned))))
  {
    WriteIsTurn(d, Mine(Deciding, identity, Some(BootPlanned)), Calmly);
    hide TurnOf;
  }

  lemma AlembicRaises(d: Disk, identity: Identity, live: Database)
    ensures TurnOf(d, Mine(Upgrading, identity, Some(SchemaStarted)), Calmly.(ending := Raised, after := live))
            == Turn(d.(live := live), Some(Mine(FailAppending, identity, Some(SchemaStarted)).(schema := true)))
  {
  }

  lemma AfterEvents(identity: Identity)
    ensures AfterEvent(Mine(AppendingPlanned, identity, None)) == Mine(ReadingLatest, identity, None)
    ensures AfterEvent(Mine(AppendingFresh, identity, Some(BootPlanned))) == Mine(AppendingSchema, identity, Some(FreshnessVerified))
    ensures AfterEvent(Mine(AppendingSchema, identity, Some(FreshnessVerified))) == Mine(Upgrading, identity, Some(SchemaStarted))
  {
  }

  lemma UpToDecided(identity: Identity) returns (history: seq<Sys>)
    requires identity.heads != {}
    ensures IsHistory(history) && IsBootPath([BootPlanned])
    ensures Last(history) == Alone(Store(identity, [BootPlanned], None, Empty), Mine(AppendingFresh, identity, Some(BootPlanned)))
  {
    history := Opening(identity);
    hide IsHistory, IsBootPath, Alone, TurnOf, AfterEvent;
    EmptyPath();
    AfterEvents(identity);
    history := AppendsNext(history, identity, [], Mine(AppendingPlanned, identity, None), BootPlanned, [BootPlanned]);
    var d, decided := Store(identity, [BootPlanned], None, Empty), Mine(Deciding, identity, Some(BootPlanned));
    LatestIsRead(identity, [BootPlanned], None, Empty, Mine(ReadingLatest, identity, None));
    FirstDecision(d, identity);
    history := GoAlone(history, d, Mine(ReadingLatest, identity, None), Calmly, d, decided);
    history := GoAlone(history, d, decided, Calmly, d, Mine(AppendingFresh, identity, Some(BootPlanned)));
  }

  // Everything up to Alembic, which leaves what it leaves and an error.
  lemma UpToAlembic(identity: Identity, live: Database) returns (history: seq<Sys>)
    requires identity.heads != {}
    ensures IsHistory(history) && IsBootPath([BootPlanned, FreshnessVerified, SchemaStarted])
    ensures Last(history) == Alone(Store(identity, [BootPlanned, FreshnessVerified, SchemaStarted], None, live),
                                   Mine(FailAppending, identity, Some(SchemaStarted)).(schema := true))
  {
    history := UpToDecided(identity);
    hide IsHistory, IsBootPath, Alone, TurnOf, AfterEvent;
    AfterEvents(identity);
    history := AppendsNext(history, identity, [BootPlanned], Mine(AppendingFresh, identity, Some(BootPlanned)),
                           FreshnessVerified, [BootPlanned, FreshnessVerified]);
    history := AppendsNext(history, identity, [BootPlanned, FreshnessVerified], Mine(AppendingSchema, identity, Some(FreshnessVerified)),
                           SchemaStarted, [BootPlanned, FreshnessVerified, SchemaStarted]);
    var log := [BootPlanned, FreshnessVerified, SchemaStarted];
    AlembicRaises(Store(identity, log, None, Empty), identity, live);
    history := GoAlone(history, Store(identity, log, None, Empty), Mine(Upgrading, identity, Some(SchemaStarted)),
                       Calmly.(ending := Raised, after := live), Store(identity, log, None, live),
                       Mine(FailAppending, identity, Some(SchemaStarted)).(schema := true));
  }

  lemma EmptyPath()
    ensures IsBootPath([])
  {
  }

  const Died: seq<BootPhase> := [BootPlanned, FreshnessVerified, SchemaStarted, BootRequiresRecovery]

  function Handling(identity: Identity): Run {
    Mine(FailResult, identity, Some(SchemaStarted)).(schema := true)
  }

  // The handler's append to a path log.
  lemma HandlerChecks(identity: Identity, log: seq<BootPhase>, live: Database, r: Run)
    requires IsBootPath(log) && log != [] && BootLegal(log[|log| - 1], StatusOf(r))
    requires r.at.FailAppending? && r.id == J && r.pending.Nothing?
    ensures var d := Store(identity, log, None, live); TurnOf(d, r, Calmly) == Turn(d, Some(r.(pending := Event(|log| + 1))))
  {
    WriteIsTurn(Store(identity, log, None, live), r, Calmly);
    hide TurnOf, IsBootPath, MayLog, LatestIn, WriteEvent, EventName, EventLog.FilesOf, StatusOf, BootLegal;
    MayAppendTo(identity, log, StatusOf(r), live);
  }

  lemma HandlerWrites(identity: Identity, log: seq<BootPhase>, live: Database, r: Run)
    requires IsBootPath(log) && log != [] && BootLegal(log[|log| - 1], StatusOf(r))
    requires r.at.FailAppending? && r.id == J && r.pending == Event(|log| + 1)
    ensures TurnOf(Store(identity, log, None, live), r, Calmly)
            == Turn(Store(identity, log + [StatusOf(r)], None, live), Some(r.(at := FailResult, pending := Nothing)))
    ensures IsBootPath(log + [StatusOf(r)])
  {
    WriteIsTurn(Store(identity, log, None, live), r, Calmly);
    hide TurnOf, IsBootPath, MayLog, LatestIn, WriteEvent, EventName, EventLog.FilesOf, StatusOf, BootLegal;
    MayAppendTo(identity, log, StatusOf(r), live);
  }

  // The handler has logged its event and is about to look for a result.
  lemma UpToResult(identity: Identity, live: Database) returns (history: seq<Sys>)
    requires identity.heads != {}
    ensures IsHistory(history) && IsBootPath(Died)
    ensures Last(history) == Alone(Store(identity, Died, None, live), Handling(identity))
  {
    history := UpToAlembic(identity, live);
    hide IsHistory, IsBootPath, Alone, TurnOf;
    var r := Mine(FailAppending, identity, Some(SchemaStarted)).(schema := true);
    var log := [BootPlanned, FreshnessVerified, SchemaStarted];
    var d := Store(identity, log, None, live);
    HandlerChecks(identity, log, live, r);
    HandlerWrites(identity, log, live, r.(pending := Event(4)));
    assert log + [BootRequiresRecovery] == Died;
    history := GoAlone(history, d, r, Calmly, d, r.(pending := Event(4)));
    history := GoAlone(history, d, r.(pending := Event(4)), Calmly, Store(identity, Died, None, live), Handling(identity));
  }

  // ---------------------------------------------------------------- the run that comes next

  function Theirs(at: At, identity: Identity): Run {
    Run(at, identity, J, true, true, false, true, Some(BootRequiresRecovery), Initialized(identity.heads), false, Nothing)
  }

  lemma ResumesIt(identity: Identity, log: seq<BootPhase>, result: Option<Outcome>, live: Database, r: Run)
    requires r.at == Choosing && r.identity == identity && (result.None? || result.value.status == BootRequiresRecovery)
    ensures var d := Store(identity, log, result, live);
            TurnOf(d, r, Calmly) == Turn(d, Some(r.(at := ReadingLatest, id := J, writable := true, resumed := true)))
  {
    hide EventLog.FilesOf;
    var d := Store(identity, log, result, live);
    assert MayResume(d, r, J);
    assert forall id :: MayResume(d, r, id) ==> id == J;
    assert forall id :: !CommittedFor(d.journals, id, identity);
    assert Unresolved(d.journals, J);
    ChooseIsTurn(d, r, Calmly);
    hide TurnOf, MayResume, Unresolved, CommittedFor;
  }

  lemma TheyLook(d: Disk, identity: Identity)
    requires d.live == Heads(identity.heads)
    ensures var r := Begin(identity);
            && TurnOf(d, r, Calmly) == Turn(d, Some(r.(at := Inspecting)))
            && TurnOf(d, r.(at := Inspecting), Calmly)
               == Turn(d, Some(r.(at := Choosing, seen := Initialized(identity.heads), healthy := true)))
  {
  }

  lemma TheyDecide(d: Disk, identity: Identity)
    ensures TurnOf(d, Theirs(Deciding, identity), Calmly) == Turn(d, Some(Theirs(WritingKnown, identity)))
  {
    WriteIsTurn(d, Theirs(Deciding, identity), Calmly);
    hide TurnOf;
  }

  // It resumes the journal over the target heads, whoever is beside it without the lock.
  lemma Resuming(history: seq<Sys>, others: map<Pid, Run>, identity: Identity, result: Option<Outcome>) returns (more: seq<Sys>)
    requires identity.heads != {} && (result.None? || result.value.status == BootRequiresRecovery)
    requires IsHistory(history) && IsBootPath(Died) && 2 !in others
    requires Last(history) == Sys(Store(identity, Died, result, Heads(identity.heads)), None, others)
    ensures IsHistory(more)
    ensures Last(more) == Beside(Store(identity, Died, result, Heads(identity.heads)), others, 2, Theirs(WritingKnown, identity))
  {
    more := Enter(history, 2, identity);
    hide IsHistory, IsBootPath, EventLog.FilesOf, TurnOf;
    var d := Store(identity, Died, result, Heads(identity.heads));
    var r := Begin(identity);
    var seen := r.(at := Choosing, seen := Initialized(identity.heads), healthy := true);
    TheyLook(d, identity);
    ResumesIt(identity, Died, result, Heads(identity.heads), seen);
    LatestIsRead(identity, Died, result, Heads(identity.heads), Theirs(ReadingLatest, identity).(latest := None));
    assert Died[|Died| - 1] == BootRequiresRecovery;
    TheyDecide(d, identity);
    assert Last(more) == Beside(d, others, 2, r);
    hide Beside;
    more := GoBeside(more, d, others, 2, r, Calmly, d, r.(at := Inspecting));
    more := GoBeside(more, d, others, 2, r.(at := Inspecting), Calmly, d, seen);
    more := GoBeside(more, d, others, 2, seen, Calmly, d, Theirs(ReadingLatest, identity).(latest := None));
    more := GoBeside(more, d, others, 2, Theirs(ReadingLatest, identity).(latest := None), Calmly, d, Theirs(Deciding, identity));
    more := GoBeside(more, d, others, 2, Theirs(Deciding, identity), Calmly, d, Theirs(WritingKnown, identity));
  }

  // Looking for a result, finding none, and writing one, as a run does at its end and a handler does.
  lemma ResultIsFree(identity: Identity, live: Database, r: Run)
    requires (r.at.WritingKnown? || r.at.FailResult?) && r.id == J && r.pending.Nothing?
    ensures var d := Store(identity, Died, None, live); TurnOf(d, r, Calmly) == Turn(d, Some(r.(pending := Result)))
  {
    hide EventLog.FilesOf, Died;
    WriteIsTurn(Store(identity, Died, None, live), r, Calmly);
    hide TurnOf;
  }

  lemma ResultIsWritten(identity: Identity, result: Option<Outcome>, live: Database, r: Run)
    requires (r.at.WritingKnown? || r.at.FailResult?) && r.id == J && r.pending.Result?
    ensures TurnOf(Store(identity, Died, result, live), r, Calmly)
            == Turn(Store(identity, Died, Some(OutcomeOf(r)), live), None)
  {
    hide EventLog.FilesOf, Died, OutcomeOf;
    var d := Store(identity, Died, result, live);
    WriteIsTurn(d, r, Calmly);
    hide TurnOf;
    assert WriteOutcome(d, J, OutcomeOf(r)).journals == Store(identity, Died, Some(OutcomeOf(r)), live).journals;
  }

  lemma ResultIsSeen(identity: Identity, outcome: Outcome, live: Database, r: Run)
    requires r.at.WritingKnown? && r.id == J && r.pending.Nothing?
    ensures var d := Store(identity, Died, Some(outcome), live); TurnOf(d, r, Calmly) == Turn(d, None)
  {
    hide EventLog.FilesOf, Died;
    WriteIsTurn(Store(identity, Died, Some(outcome), live), r, Calmly);
    hide TurnOf;
  }

  function Waiting(identity: Identity): Run {
    Handling(identity).(pending := Result)
  }

  lemma UpToWaiting(identity: Identity, live: Database) returns (history: seq<Sys>)
    requires identity.heads != {}
    ensures IsHistory(history) && IsBootPath(Died)
    ensures Last(history) == Sys(Store(identity, Died, None, live), None, map[1 := Waiting(identity)])
  {
    history := UpToResult(identity, live);
    hide IsHistory, IsBootPath, EventLog.FilesOf, TurnOf, Died;
    var d, h := Store(identity, Died, None, live), Handling(identity);
    ResultIsFree(identity, live, h);
    history := GoAlone(history, d, h, Calmly, d, Waiting(identity));
  }

  function Success(identity: Identity): Outcome {
    Outcome(BootCommitted, identity.revision, identity.heads)
  }

  lemma UpToSuccess(identity: Identity) returns (history: seq<Sys>)
    requires identity.heads != {}
    ensures IsHistory(history)
    ensures Last(history) == Sys(Store(identity, Died, Some(Success(identity)), Heads(identity.heads)), None, map[1 := Waiting(identity)])
  {
    history := UpToWaiting(identity, Heads(identity.heads));
    hide IsHistory, IsBootPath, EventLog.FilesOf, TurnOf, Died, Waiting;
    var live, r := Heads(identity.heads), Theirs(WritingKnown, identity);
    var d, others := Store(identity, Died, None, live), map[1 := Waiting(identity)];
    history := Resuming(history, others, identity, None);
    ResultIsFree(identity, live, r);
    history := GoBeside(history, d, others, 2, r, Calmly, d, r.(pending := Result));
    ResultIsWritten(identity, None, live, r.(pending := Result));
    history := Go(history, 2, Calmly, Turn(Store(identity, Died, Some(Success(identity)), live), None));
    assert others[2 := r.(pending := Result)] - {2} == others;
  }

  /** For every release there is a history in which a committed result is overwritten: the handler of a failed run looks
      for a result and finds none, a second run resumes the journal and stores its success, and then the handler writes. */
  lemma CommittedIsOverwritten(identity: Identity) returns (history: seq<Sys>, i: nat)
    requires identity.heads != {}
    ensures IsHistory(history) && i == |history| - 2
    ensures J in history[i].disk.journals && IsCommitted(history[i].disk.journals[J])
    ensures J in Last(history).disk.journals && Last(history).disk.live == Heads(identity.heads)
    ensures Last(history).disk.journals[J].result == Some(Outcome(BootRequiresRecovery, identity.revision, identity.heads))
  {
    var before := UpToSuccess(identity);
    hide IsHistory, EventLog.FilesOf, TurnOf, Died;
    var live := Heads(identity.heads);
    ResultIsWritten(identity, Some(Success(identity)), live, Waiting(identity));
    history := Go(before, 1, Calmly, Turn(Store(identity, Died, Some(OutcomeOf(Waiting(identity))), live), None));
    i := |before| - 1;
    assert history[i] == Last(before);
  }

  /** And one in which the second run finds the handler's result and reports success over it. */
  lemma SuccessOverRecovery(identity: Identity) returns (history: seq<Sys>, o: Oracle)
    requires identity.heads != {}
    ensures IsHistory(history) && 2 in Last(history).runs && Last(history).runs[2].at == WritingKnown && o.ending == Done
    ensures J in Last(history).disk.journals
    ensures Last(history).disk.journals[J].result == Some(Outcome(BootRequiresRecovery, identity.revision, identity.heads))
    ensures TurnOf(Last(history).disk, Last(history).runs[2], o) == Turn(Last(history).disk, None)
  {
    history := UpToWaiting(identity, Heads(identity.heads));
    hide IsHistory, IsBootPath, EventLog.FilesOf, TurnOf, Died;
    var live, outcome := Heads(identity.heads), OutcomeOf(Waiting(identity));
    ResultIsWritten(identity, None, live, Waiting(identity));
    history := Go(history, 1, Calmly, Turn(Store(identity, Died, Some(outcome), live), None));
    assert Last(history).runs == map[];
    history := Resuming(history, map[], identity, Some(outcome));
    ResultIsSeen(identity, outcome, live, Theirs(WritingKnown, identity));
    o := Calmly;
  }

  // A run that fails before Alembic, and its handler before the append of its event.
  function Standing(identity: Identity): Run {
    Mine(FailAppending, identity, Some(BootPlanned)).(pending := Event(2))
  }

  lemma FreshFails(d: Disk, identity: Identity)
    ensures var r := Mine(AppendingFresh, identity, Some(BootPlanned));
            TurnOf(d, r, Calmly.(ending := Raised)) == Turn(d, Some(Mine(FailAppending, identity, Some(BootPlanned))))
  {
    var r := Mine(AppendingFresh, identity, Some(BootPlanned));
    AppendIsTurn(d, r, Calmly.(ending := Raised));
    hide TurnOf, MayLog, EventAt, AfterEvent;
  }

  lemma UpToStanding(identity: Identity) returns (history: seq<Sys>)
    requires identity.heads != {}
    ensures IsHistory(history) && IsBootPath([BootPlanned])
    ensures Last(history) == Sys(Store(identity, [BootPlanned], None, Empty), None, map[1 := Standing(identity)])
  {
    history := UpToDecided(identity);
    hide IsHistory, IsBootPath, TurnOf;
    var d := Store(identity, [BootPlanned], None, Empty);
    FreshFails(d, identity);
    HandlerChecks(identity, [BootPlanned], Empty, Mine(FailAppending, identity, Some(BootPlanned)));
    history := GoAlone(history, d, Mine(AppendingFresh, identity, Some(BootPlanned)), Calmly.(ending := Raised), d,
                       Mine(FailAppending, identity, Some(BootPlanned)));
    history := GoAlone(history, d, Mine(FailAppending, identity, Some(BootPlanned)), Calmly, d, Standing(identity));
  }

  function Ours(at: At, identity: Identity, latest: Option<BootPhase>): Run {
    Mine(at, identity, latest).(resumed := true)
  }

  lemma TheyLookToo(d: Disk, identity: Identity)
    requires d.live.Empty?
    ensures TurnOf(d, Begin(identity), Calmly) == Turn(d, Some(Begin(identity).(at := Inspecting)))
    ensures TurnOf(d, Begin(identity).(at := Inspecting), Calmly) == Turn(d, Some(Looked(Choosing, identity)))
    ensures TurnOf(d, Ours(Deciding, identity, Some(BootPlanned)), Calmly) == Turn(d, Some(Ours(AppendingFresh, identity, Some(BootPlanned))))
  {
    WriteIsTurn(d, Ours(Deciding, identity, Some(BootPlanned)), Calmly);
  }

  // A run looks at an empty database, whoever is beside it without the lock.
  lemma LooksAgain(history: seq<Sys>, others: map<Pid, Run>, pid: Pid, identity: Identity, d: Disk) returns (more: seq<Sys>)
    requires IsHistory(history) && Last(history) == Sys(d, None, others) && pid !in others
    requires identity.heads != {} && d.live.Empty?
    ensures IsHistory(more) && Last(more) == Beside(d, others, pid, Looked(Choosing, identity))
  {
    more := Enter(history, pid, identity);
    assert Last(more) == Beside(d, others, pid, Begin(identity));
    hide IsHistory, TurnOf, Beside;
    TheyLookToo(d, identity);
    more := GoBeside(more, d, others, pid, Begin(identity), Calmly, d, Begin(identity).(at := Inspecting));
    more := GoBeside(more, d, others, pid, Begin(identity).(at := Inspecting), Calmly, d, Looked(Choosing, identity));
  }

  // The second run resumes the journal.
  lemma UpToResumed(identity: Identity) returns (history: seq<Sys>)
    requires identity.heads != {}
    ensures IsHistory(history) && IsBootPath([BootPlanned])
    ensures Last(history) == Beside(Store(identity, [BootPlanned], None, Empty), map[1 := Standing(identity)], 2,
                                    Ours(ReadingLatest, identity, None))
  {
    history := UpToStanding(identity);
    hide IsHistory, IsBootPath, TurnOf, EventLog.FilesOf, Beside, Standing;
    var d, others := Store(identity, [BootPlanned], None, Empty), map[1 := Standing(identity)];
    history := LooksAgain(history, others, 2, identity, d);
    ResumesIt(identity, [BootPlanned], None, Empty, Looked(Choosing, identity));
    history := GoBeside(history, d, others, 2, Looked(Choosing, identity), Calmly, d, Ours(ReadingLatest, identity, None));
  }

  // It logs the next event.
  lemma UpToOvertaken(identity: Identity) returns (history: seq<Sys>)
    requires identity.heads != {}
    ensures IsHistory(history) && IsBootPath([BootPlanned, FreshnessVerified])
    ensures 1 in Last(history).runs && Last(history).runs[1] == Standing(identity)
    ensures Last(history).disk == Store(identity, [BootPlanned, FreshnessVerified], None, Empty)
  {
    history := UpToResumed(identity);
    hide IsHistory, IsBootPath, TurnOf, EventLog.FilesOf, Beside, Standing;
    var others := map[1 := Standing(identity)];
    var d, decided := Store(identity, [BootPlanned], None, Empty), Ours(Deciding, identity, Some(BootPlanned));
    TheyLookToo(d, identity);
    LatestIsRead(identity, [BootPlanned], None, Empty, Ours(ReadingLatest, identity, None));
    history := GoBeside(history, d, others, 2, Ours(ReadingLatest, identity, None), Calmly, d, decided);
    history := GoBeside(history, d, others, 2, decided, Calmly, d, Ours(AppendingFresh, identity, Some(BootPlanned)));
    history := AppendsBeside(history, others, 2, identity, [BootPlanned], Empty, Ours(AppendingFresh, identity, Some(BootPlanned)));
    assert [BootPlanned] + [FreshnessVerified] == [BootPlanned, FreshnessVerified];
    TheOthersRemain(Last(history).disk, others, AfterEvent(Ours(AppendingFresh, identity, Some(BootPlanned))));
  }

  lemma TheOthersRemain(d: Disk, others: map<Pid, Run>, r: Run)
    requires 1 in others
    ensures 1 in Beside(d, others, 2, r).runs && Beside(d, others, 2, r).runs[1] == others[1] && Beside(d, others, 2, r).disk == d
  {
  }

  // And then the handler writes the event it checked before that.
  lemma StaleTurn(identity: Identity, log: seq<BootPhase>)
    ensures var d := Store(identity, log, None, Empty);
            TurnOf(d, Standing(identity), Calmly)
            == Turn(WriteEvent(d, J, 2, BootFailed), Some(Standing(identity).(at := FailResult, pending := Nothing)))
  {
    WriteIsTurn(Store(identity, log, None, Empty), Standing(identity), Calmly);
    hide TurnOf, WriteEvent, EventLog.FilesOf, EventName;
  }

  /** And one in which the log stops being a path: two events under one number. */
  lemma LogBreaks(identity: Identity) returns (history: seq<Sys>, k: nat)
    requires identity.heads != {}
    ensures IsHistory(history) && 0 < k == |history| - 1
    ensures J in history[k - 1].disk.journals && LogIsPath(EventsAt(history, k - 1, J))
    ensures J in history[k].disk.journals && !LogIsPath(EventsAt(history, k, J))
  {
    var before := UpToOvertaken(identity);
    StaleTurn(identity, [BootPlanned, FreshnessVerified]);
    var d, standing := Last(before).disk, Standing(identity);
    hide TurnOf, IsBootPath, EventLog.FilesOf, EventName, IsHistory, WriteEvent;
    history := Go(before, 1, Calmly, Turn(WriteEvent(d, J, 2, BootFailed), Some(standing.(at := FailResult, pending := Nothing))));
    k := |before|;
    assert history[k - 1] == Last(before);
    SecondUnderNumber(history, k, identity);
  }

  lemma SecondUnderNumber(history: seq<Sys>, k: nat, identity: Identity)
    requires IsHistory(history) && 0 < k < |history| && IsBootPath([BootPlanned, FreshnessVerified])
    requires 1 in history[k - 1].runs && history[k - 1].runs[1] == Standing(identity)
    requires history[k - 1].disk == Store(identity, [BootPlanned, FreshnessVerified], None, Empty)
    requires history[k].disk == WriteEvent(history[k - 1].disk, J, 2, BootFailed)
    ensures J in history[k - 1].disk.journals && LogIsPath(EventsAt(history, k - 1, J))
    ensures J in history[k].disk.journals && !LogIsPath(EventsAt(history, k, J))
  {
    var log := [BootPlanned, FreshnessVerified];
    hide IsHistory, IsBootPath, EventLog.FilesOf, EventLog.Listing, EventName;
    FilesOfLog(log);
    assert StatusOf(Standing(identity)) == BootFailed;
    assert LogsTo(history[k - 1], history[k], 1, J);
    assert Overtaken(history[k - 1], 1, J);
    assert EventName(2, log[1]) in EventsAt(history, k - 1, J);
    hide LogsTo, Overtaken;
    LogIsPathIff(history, k - 1, J);
    assert EventName(2, BootFailed) !in EventsAt(history, k - 1, J);
    hide OneEach;
    AppendKeepsPathIff(history, k, 1, J);
  }

  /** And one in which a run dies with its journal's directory made and no plan in it. */
  lemma UnplannedHappens(identity: Identity) returns (history: seq<Sys>)
    requires identity.heads != {}
    ensures IsHistory(history) && Unplanned(Last(history), J)
  {
    history := UpToPreparing(identity);
    hide IsHistory;
    history := Go(history, 1, Calmly.(ending := Torn), Turn(Create(Disk(map[], Empty), J), None));
  }
}
