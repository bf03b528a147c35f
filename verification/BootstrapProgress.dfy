/** A bootstrap left to itself can be completed: from where it stands, from every point at which a journal may be
    resumed, and from nothing, once Alembic leaves the target heads. */
module BootstrapProgress {
  import opened Wrappers
  import opened Phases
  import opened BootstrapProtocol
  import opened BootstrapSafety
  import opened BootstrapLogs
  import opened BootstrapWitness
  import EventLog

  // ---------------------------------------------------------------- a log that is a path, and one more event

  ghost predicate Logged(d: Disk, id: Id, log: seq<BootPhase>) {
    id in d.journals && IsBootPath(log) && d.journals[id].events == EventLog.FilesOf(log, BootSuffix)
  }

  function LastOf(log: seq<BootPhase>): Option<BootPhase> {
    if log == [] then None else Some(log[|log| - 1])
  }

  // What the journal reads and takes, in terms of the log.
  lemma LoggedReads(d: Disk, id: Id, log: seq<BootPhase>, phase: BootPhase)
    requires Logged(d, id, log)
    ensures LatestIn(d.journals[id]) == LastOf(log) && |d.journals[id].events| == |log|
    ensures MayLog(d.journals[id], phase) <==> MayFollow(LastOf(log), phase)
  {
    PathIsShort(log);
    hide IsBootPath, BootSuffix, EventLog.FilesOf, EventLog.Listing, EventLog.FileName, MayFollow;
    FilesOfLog(log);
    EventLog.NextNameIsFree(log, phase, BootSuffix);
  }

  lemma LoggedWrites(d: Disk, id: Id, log: seq<BootPhase>, phase: BootPhase)
    requires Logged(d, id, log) && MayFollow(LastOf(log), phase)
    ensures Logged(WriteEvent(d, id, |log| + 1, phase), id, log + [phase])
  {
    LoggedReads(d, id, log, phase);
    hide IsBootPath, BootSuffix, EventLog.FilesOf, EventLog.Listing, EventLog.FileName, MayFollow;
    FreshFile(log, phase);
  }

  // ---------------------------------------------------------------- where a run can be completed from

  predicate Unfinished(latest: Option<BootPhase>) {
    || latest == Some(BootPlanned) || latest == Some(PostgresStarted) || latest == Some(FreshnessVerified)
    || latest == Some(SchemaStarted) || latest == Some(SchemaCompleted)
  }

  // The database is at the target of a journal that was resumed, or still empty.
  predicate Suits(r: Run, live: Database) {
    (live == Heads(r.identity.heads) && r.resumed) || (live.Empty? && !r.found)
  }

  // On an empty database the log must not have gone further than the schema; PostgreSQL is not started for a journal
  // without an event.
  predicate Resumable(r: Run, latest: Option<BootPhase>, live: Database) {
    Suits(r, live) && if live.Empty? then Unfinished(latest) else latest.Some? || r.healthy
  }

  // What the log's last event and the database must be where the run stands.
  predicate ReadyAt(r: Run, latest: Option<BootPhase>, live: Database) {
    match r.at
    case AppendingPlanned => latest.None? && live.Empty? && !r.found && r.seen == Uninitialized
    case ReadingLatest => Resumable(r, latest, live) && (r.healthy ==> r.seen != Unclear)
    case StartingPostgres => Resumable(r, latest, live) && r.latest == latest && latest.Some?
    case AppendingPostgres => latest == Some(BootPlanned) && Suits(r, live)
    case Reinspecting => Resumable(r, latest, live) && r.latest == latest
    case Deciding => Resumable(r, latest, live) && r.latest == latest && r.seen != Unclear
    case WritingKnown => true
    case Upgrading => r.latest == latest && (latest == Some(SchemaStarted) || latest == Some(SchemaCompleted))
    case AppendingCompleted => latest == Some(SchemaStarted) && live == Heads(r.identity.heads)
    case Probing => latest == Some(SchemaCompleted) && live == Heads(r.identity.heads)
    case WritingResult => true
    case _ => Appending(r.at) && MayFollow(latest, EventAt(r.at))
  }

  ghost predicate Ready(d: Disk, r: Run, log: seq<BootPhase>) {
    && Logged(d, r.id, log) && d.journals[r.id].result.None? && r.writable && ReadyAt(r, LastOf(log), d.live)
    && (r.pending.Event? ==> r.pending.number == |log| + 1)
  }

  function Position(at: At): nat {
    match at
    case AppendingPlanned => 0
    case ReadingLatest => 1
    case StartingPostgres => 2
    case AppendingPostgres => 3
    case Reinspecting => 4
    case Deciding => 5
    case KnownVerified => 6
    case KnownCommitted => 7
    case WritingKnown => 8
    case AppendingFresh => 6
    case AppendingSchema => 7
    case Upgrading => 8
    case AppendingCompleted => 9
    case Probing => 10
    case AppendingVerified => 11
    case AppendingCommitted => 12
    case WritingResult => 13
    case _ => 14
  }

  // How many steps are left at most.
  function Ahead(r: Run): nat {
    2 * (14 - Position(r.at)) + if r.pending.Nothing? then 1 else 0
  }


  // Everything goes through, and Alembic leaves the target heads.
  function Smoothly(r: Run): Oracle {
    Oracle(Done, "", true, true, Heads(r.identity.heads))
  }

  ghost predicate GoesOn(d: Disk, r: Run, t: Turn, log: seq<BootPhase>) {
    && t.run.Some? && Ready(t.disk, t.run.value, log) && Locked(t.run.value)
    && t.run.value.id == r.id && t.run.value.identity == r.identity && Ahead(t.run.value) < Ahead(r)
  }

  ghost predicate Commits(r: Run, t: Turn) {
    t.run.None? && r.id in t.disk.journals && IsCommitted(t.disk.journals[r.id])
  }

  // ---------------------------------------------------------------- one step on

  lemma AppendChecksOn(d: Disk, r: Run, log: seq<BootPhase>)
    requires Ready(d, r, log) && Appending(r.at) && r.pending.Nothing?
    ensures GoesOn(d, r, TurnOf(d, r, Smoothly(r)), log)
  {
    AppendIsTurn(d, r, Smoothly(r));
    LoggedReads(d, r.id, log, EventAt(r.at));
    ReadyFollows(d, r, log);
    Standing(d, r, log);
    hide TurnOf, Ready, MayLog, MayFollow, EventAt, AfterEvent, Appending, Position, Writes, Fails;
  }

  lemma Standing(d: Disk, r: Run, log: seq<BootPhase>)
    requires Ready(d, r, log) && Appending(r.at)
    ensures r.id in d.journals && Locked(r) && Ready(d, r.(pending := Event(|log| + 1)), log)
  {
    assert r.id in d.journals;
    hide Logged, Appending;
  }

  lemma ReadyFollows(d: Disk, r: Run, log: seq<BootPhase>)
    requires Ready(d, r, log) && Appending(r.at)
    ensures MayFollow(LastOf(log), EventAt(r.at))
  {
    hide Logged;
  }

  lemma AppendWritesOn(d: Disk, r: Run, log: seq<BootPhase>)
    requires Ready(d, r, log) && RunInv(r, d) && Appending(r.at) && r.pending.Event?
    ensures GoesOn(d, r, TurnOf(d, r, Smoothly(r)), log + [EventAt(r.at)])
  {
    AppendIsTurn(d, r, Smoothly(r));
    ReadyFollows(d, r, log);
    LoggedWrites(d, r.id, log, EventAt(r.at));
    NextIsReady(d, r, log);
    var n := WriteEvent(d, r.id, |log| + 1, EventAt(r.at));
    assert n.live == d.live && n.journals[r.id].result == d.journals[r.id].result;
    hide TurnOf, MayFollow, EventAt, AfterEvent, Logged, Appending, Position, ReadyAt, RunInv, WriteEvent;
  }

  lemma NextIsReady(d: Disk, r: Run, log: seq<BootPhase>)
    requires Ready(d, r, log) && RunInv(r, d) && Appending(r.at)
    ensures var next := AfterEvent(r);
            && ReadyAt(next, LastOf(log + [EventAt(r.at)]), d.live) && Locked(next) && next.pending.Nothing? && next.writable
            && next.id == r.id && next.identity == r.identity && Position(next.at) > Position(r.at)
  {
    hide Logged, OthersClosed;
  }

  lemma ReadsOn(d: Disk, r: Run, log: seq<BootPhase>)
    requires Ready(d, r, log) && r.at.ReadingLatest? && r.pending.Nothing?
    ensures GoesOn(d, r, TurnOf(d, r, Smoothly(r)), log)
  {
    LoggedReads(d, r.id, log, BootPlanned);
    assert r.id in d.journals;
    ReadIsTurn(d, r);
    hide Logged, LatestIn, TurnOf, ReadyAt, Position;
    ReadIsReady(r, LastOf(log), d.live);
  }

  lemma ReadIsTurn(d: Disk, r: Run)
    requires r.at.ReadingLatest? && r.id in d.journals
    ensures TurnOf(d, r, Smoothly(r)) == Turn(d, Some(Reads(r, LatestIn(d.journals[r.id]))))
  {
    hide LatestIn;
  }

  function Reads(r: Run, latest: Option<BootPhase>): Run {
    r.(latest := latest, at := if r.healthy then Deciding else StartingPostgres)
  }

  lemma ReadIsReady(r: Run, latest: Option<BootPhase>, live: Database)
    requires ReadyAt(r, latest, live) && r.at.ReadingLatest?
    ensures var n := Reads(r, latest); ReadyAt(n, latest, live) && Locked(n) && Position(n.at) > Position(r.at)
  {
  }

  lemma StartsOn(d: Disk, r: Run, log: seq<BootPhase>)
    requires Ready(d, r, log) && r.at.StartingPostgres? && r.pending.Nothing?
    ensures GoesOn(d, r, TurnOf(d, r, Smoothly(r)), log)
  {
    assert r.id in d.journals;
    hide Logged, Fails;
  }

  lemma ReinspectsOn(d: Disk, r: Run, log: seq<BootPhase>)
    requires Ready(d, r, log) && r.at.Reinspecting? && r.pending.Nothing?
    ensures GoesOn(d, r, TurnOf(d, r, Smoothly(r)), log)
  {
    assert r.id in d.journals;
    hide Logged, Fails;
  }

  lemma ProbesOn(d: Disk, r: Run, log: seq<BootPhase>)
    requires Ready(d, r, log) && r.at.Probing? && r.pending.Nothing?
    ensures GoesOn(d, r, TurnOf(d, r, Smoothly(r)), log)
  {
    assert r.id in d.journals;
    hide Logged, Fails;
  }

  lemma DecidesOn(d: Disk, r: Run, log: seq<BootPhase>)
    requires Ready(d, r, log) && RunInv(r, d) && r.at.Deciding? && r.pending.Nothing?
    ensures GoesOn(d, r, TurnOf(d, r, Smoothly(r)), log)
  {
    SeesIt(d, r, log);
    WriteIsTurn(d, r, Smoothly(r));
    DecisionIsReady(d, r, LastOf(log));
    hide Logged, RunInv, TurnOf, ReadyAt, Position, DecideTurn, Decision;
  }

  // It has seen the target, or nothing.
  lemma SeesIt(d: Disk, r: Run, log: seq<BootPhase>)
    requires Ready(d, r, log) && RunInv(r, d) && r.at.Deciding?
    ensures SeenIsLive(r.seen, d.live)
  {
    hide Logged, OthersClosed, SeenIsLive;
  }

  function Decision(r: Run): At {
    var early := r.latest == Some(BootPlanned) || r.latest == Some(PostgresStarted);
    if r.seen.Uninitialized? then
      if early then AppendingFresh else if r.latest == Some(FreshnessVerified) then AppendingSchema else Upgrading
    else
      if early then KnownVerified else if r.latest == Some(FreshnessVerified) then KnownCommitted else WritingKnown
  }

  lemma DecisionIsReady(d: Disk, r: Run, latest: Option<BootPhase>)
    requires ReadyAt(r, latest, d.live) && SeenIsLive(r.seen, d.live) && r.at.Deciding? && r.writable
    ensures DecideTurn(d, r, Smoothly(r)) == Goes(d, r, Decision(r))
    ensures var n := r.(at := Decision(r)); ReadyAt(n, latest, d.live) && Locked(n) && Position(n.at) > Position(r.at)
  {
  }

  lemma UpgradesOn(d: Disk, r: Run, log: seq<BootPhase>)
    requires Ready(d, r, log) && r.at.Upgrading? && r.pending.Nothing?
    ensures GoesOn(d, r, TurnOf(d, r, Smoothly(r)), log)
  {
    assert Logged(d.(live := Heads(r.identity.heads)), r.id, log);
    assert r.id in d.journals;
    hide Logged, Fails;
  }

  lemma ClosesOn(d: Disk, r: Run, log: seq<BootPhase>)
    requires Ready(d, r, log) && Closing(r.at) && !r.pending.Event?
    ensures var t := TurnOf(d, r, Smoothly(r)); if r.pending.Result? then Commits(r, t) else GoesOn(d, r, t, log)
  {
    WriteIsTurn(d, r, Smoothly(r));
    assert r.id in d.journals;
    hide Logged, TurnOf;
  }

  lemma StepsOn(d: Disk, r: Run, log: seq<BootPhase>) returns (longer: seq<BootPhase>)
    requires Ready(d, r, log) && RunInv(r, d)
    ensures var t := TurnOf(d, r, Smoothly(r)); Commits(r, t) || GoesOn(d, r, t, longer)
  {
    PlacesAhead(d, r, log);
    hide Ready, RunInv, TurnOf, Appending, Locked, GoesOn, Commits, Closing;
    longer := log;
    if Appending(r.at) {
      if r.pending.Event? {
        longer := log + [EventAt(r.at)];
        AppendWritesOn(d, r, log);
      } else {
        AppendChecksOn(d, r, log);
      }
    } else if Closing(r.at) {
      ClosesOn(d, r, log);
    } else if r.at.Deciding? {
      DecidesOn(d, r, log);
    } else if r.at.Upgrading? {
      UpgradesOn(d, r, log);
    } else if r.at.ReadingLatest? {
      ReadsOn(d, r, log);
    } else if r.at.StartingPostgres? {
      StartsOn(d, r, log);
    } else if r.at.Reinspecting? {
      ReinspectsOn(d, r, log);
    } else {
      ProbesOn(d, r, log);
    }
  }

  lemma PlacesAhead(d: Disk, r: Run, log: seq<BootPhase>)
    requires Ready(d, r, log) && RunInv(r, d)
    ensures Locked(r) && (Appending(r.at) ==> !r.pending.Result?) && (Closing(r.at) ==> !r.pending.Event?)
    ensures !Appending(r.at) && !Closing(r.at) ==> r.pending.Nothing?
    ensures || Appending(r.at) || Closing(r.at) || r.at.Deciding? || r.at.Upgrading?
            || r.at.ReadingLatest? || r.at.StartingPostgres? || r.at.Reinspecting? || r.at.Probing?
  {
    hide Logged, OthersClosed;
  }

  // ---------------------------------------------------------------- to the end

  lemma AloneAfter(runs: map<Pid, Run>, pid: Pid, r: Run)
    ensures runs[pid := r] - {pid} == runs - {pid}
  {
  }

  lemma {:induction false} GoesToCommit(history: seq<Sys>, pid: Pid, log: seq<BootPhase>) returns (more: seq<Sys>)
    requires IsHistory(history) && pid in Last(history).runs && Last(history).lock == Some(pid)
    requires Ready(Last(history).disk, Last(history).runs[pid], log)
    ensures CommitsAlone(history, pid, Last(history).runs[pid].id, more)
    decreases Ahead(Last(history).runs[pid])
  {
    var s := Last(history);
    var r := s.runs[pid];
    HistoryInv(history, |history| - 1);
    assert RunInv(r, s.disk);
    var longer := StepsOn(s.disk, r, log);
    hide IsHistory, Inv, Next, Ready, TurnOf, RunInv, Locked, Ahead;
    var t := TurnOf(s.disk, r, Smoothly(r));
    more := Go(history, pid, Smoothly(r), t);
    if !Commits(r, t) {
      AloneAfter(s.runs, pid, t.run.value);
      more := GoesToCommit(more, pid, longer);
    }
  }

  // The run goes on, nobody else does, and its journal is committed.
  ghost predicate CommitsAlone(history: seq<Sys>, pid: Pid, id: Id, more: seq<Sys>)
    requires history != []
  {
    && IsHistory(more) && history <= more && Last(more).runs == Last(history).runs - {pid} && Last(more).lock.None?
    && id in Last(more).disk.journals && IsCommitted(Last(more).disk.journals[id])
  }

  // ---------------------------------------------------------------- what every run has by where it stands

  ghost predicate Shaped(r: Run) {
    && (HasJournal(r.at) ==> (r.writable <==> !r.found))
    && (!HasJournal(r.at) ==> !r.writable && !r.found && !r.resumed)
    && (r.at.Preparing? || r.at.WritingPlan? || r.at.AppendingPlanned? ==> r.seen == Uninitialized && !r.resumed)
    && (Appending(r.at) || r.at.WritingPlan? || r.at.Upgrading? || r.at.Probing? || r.at.FailAppending? || r.at.FailResult? ==>
          r.writable)
  }

  ghost predicate ShapedTurn(t: Turn) {
    t.run.Some? ==> Shaped(t.run.value)
  }

  lemma FailsShaped(d: Disk, r: Run)
    requires Shaped(r)
    ensures ShapedTurn(Fails(d, r))
  {
  }

  lemma AppendsShaped(d: Disk, r: Run, o: Oracle)
    requires Shaped(r) && Appending(r.at)
    ensures ShapedTurn(TurnOf(d, r, o))
  {
    AppendIsTurn(d, r, o);
    FailsShaped(d, r);
    assert forall n: Disk :: ShapedTurn(Fails(n, r)) by { forall n: Disk ensures ShapedTurn(Fails(n, r)) { FailsShaped(n, r); } }
    EventShaped(r);
    assert forall p: Pending :: Shaped(r.(pending := p));
    hide TurnOf, Shaped, Appending, Fails, AfterEvent, EventAt, WriteEvent, MayLog;
  }

  lemma EventShaped(r: Run)
    requires Shaped(r) && Appending(r.at)
    ensures Shaped(AfterEvent(r))
  {
  }

  lemma ChooseShaped(d: Disk, r: Run, o: Oracle)
    requires Shaped(r) && r.at.Choosing?
    ensures ShapedTurn(TurnOf(d, r, o))
  {
    ChooseIsTurn(d, r, o);
    hide TurnOf, SearchRaises, MayResume, Unresolved, CommittedFor;
  }

  lemma TerminalShaped(d: Disk, r: Run, o: Oracle, failed: Turn)
    requires Shaped(r) && ShapedTurn(failed)
    ensures ShapedTurn(TerminalTurn(d, r, o, failed))
  {
    assert Shaped(r.(pending := Result));
    hide Shaped, WriteOutcome, OutcomeOf;
  }

  lemma DecideShaped(d: Disk, r: Run, o: Oracle)
    requires Shaped(r) && r.at.Deciding?
    ensures ShapedTurn(DecideTurn(d, r, o))
  {
    FailsShaped(d, r);
    hide Fails;
  }

  lemma FailAppendShaped(d: Disk, r: Run, o: Oracle)
    requires Shaped(r) && r.at.FailAppending?
    ensures ShapedTurn(FailAppendTurn(d, r, o))
  {
    assert forall p: Pending :: Shaped(r.(pending := p)) && Shaped(r.(at := FailResult, pending := p));
    hide Shaped, WriteEvent, EventName, MayLog, LatestIn, StatusOf;
  }

  lemma WriteShaped(d: Disk, r: Run, o: Oracle)
    requires Shaped(r) && (Closing(r.at) || r.at.FailResult? || r.at.FailAppending? || r.at.Deciding?)
    ensures ShapedTurn(TurnOf(d, r, o))
  {
    WriteIsTurn(d, r, o);
    FailsShaped(d, r);
    hide TurnOf, Fails, Shaped, TerminalTurn, DecideTurn, FailAppendTurn;
    if r.at.FailAppending? { FailAppendShaped(d, r, o); }
    else if r.at.Deciding? { DecideShaped(d, r, o); }
    else if r.at.FailResult? { TerminalShaped(d, r, o, Turn(d, None)); }
    else { TerminalShaped(d, r, o, Fails(d, r)); }
  }

  lemma LooksShaped(d: Disk, r: Run, o: Oracle)
    requires Shaped(r) && (r.at.WantLock? || r.at.Inspecting? || r.at.ReadingLatest? || r.at.StartingPostgres? || r.at.Reinspecting?)
    ensures ShapedTurn(TurnOf(d, r, o))
  {
    hide LatestIn, Inspect;
  }

  lemma OtherShaped(d: Disk, r: Run, o: Oracle)
    requires Shaped(r) && (r.at.Preparing? || r.at.WritingPlan? || r.at.Upgrading? || r.at.Probing?)
    ensures ShapedTurn(TurnOf(d, r, o))
  {
    hide WritePlan, Create;
  }

  lemma TurnShaped(d: Disk, r: Run, o: Oracle)
    requires Shaped(r)
    ensures ShapedTurn(TurnOf(d, r, o))
  {
    hide Shaped, ShapedTurn, TurnOf;
    if Appending(r.at) { AppendsShaped(d, r, o); }
    else if r.at.Choosing? { ChooseShaped(d, r, o); }
    else if Closing(r.at) || r.at.FailResult? || r.at.FailAppending? || r.at.Deciding? { WriteShaped(d, r, o); }
    else if r.at.Preparing? || r.at.WritingPlan? || r.at.Upgrading? || r.at.Probing? { OtherShaped(d, r, o); }
    else { LooksShaped(d, r, o); }
  }

  ghost predicate AllShaped(s: Sys) {
    forall pid: Pid :: pid in s.runs ==> Shaped(s.runs[pid])
  }

  lemma ShapedStep(s: Sys, t: Sys)
    requires AllShaped(s) && Next(s, t)
    ensures AllShaped(t)
  {
    hide TurnOf;
    if pid: Pid, o: Oracle :| pid in s.runs && t == Advance(s, pid, o) {
      TurnShaped(s.disk, s.runs[pid], o);
      hide Shaped;
    } else if pid: Pid, identity: Identity :| pid !in s.runs && t == s.(runs := s.runs[pid := Begin(identity)]) {
      assert Shaped(Begin(identity));
      hide Shaped;
    }
  }

  lemma {:induction false} HistoryShaped(history: seq<Sys>, k: nat)
    requires IsHistory(history) && k < |history|
    ensures AllShaped(history[k])
  {
    hide Next, Shaped;
    if k > 0 {
      HistoryShaped(history, k - 1);
      HistoryStep(history, k);
      ShapedStep(history[k - 1], history[k]);
    }
  }

  // ---------------------------------------------------------------- the main results

  // The log takes the event that is due and Alembic has left, or is still to leave, the target heads.
  ghost predicate MayGoOn(d: Disk, r: Run, log: seq<BootPhase>) {
    && Logged(d, r.id, log) && d.journals[r.id].result.None? && (r.pending.Event? ==> r.pending.number == |log| + 1)
    && if r.at.Upgrading? then r.latest == LastOf(log) && (r.latest == Some(SchemaStarted) || r.latest == Some(SchemaCompleted))
       else
         && MayFollow(LastOf(log), EventAt(r.at)) && (r.at.AppendingCompleted? ==> d.live == Heads(r.identity.heads))
         && (r.at.AppendingPostgres? ==> d.live.Empty? || (d.live == Heads(r.identity.heads) && r.resumed))
  }

  lemma MayGoOnIsReady(d: Disk, r: Run, log: seq<BootPhase>)
    requires MayGoOn(d, r, log) && RunInv(r, d) && Shaped(r) && (Appending(r.at) || r.at.Upgrading?)
    ensures Ready(d, r, log) && Locked(r)
  {
    hide Logged, OthersClosed;
  }

  /** Wherever a run stands at an append or before Alembic, in any history, it can go on alone to a committed result,
      as long as its journal's log takes the next event and no result was stored. */
  lemma CanCommit(history: seq<Sys>, pid: Pid, log: seq<BootPhase>) returns (more: seq<Sys>)
    requires IsHistory(history) && pid in Last(history).runs
    requires var r := Last(history).runs[pid]; (Appending(r.at) || r.at.Upgrading?) && MayGoOn(Last(history).disk, r, log)
    ensures CommitsAlone(history, pid, Last(history).runs[pid].id, more)
    ensures Last(more).disk.live == Heads(Last(history).runs[pid].identity.heads)
  {
    var s := Last(history);
    var r := s.runs[pid];
    HistoryInv(history, |history| - 1);
    HistoryShaped(history, |history| - 1);
    assert RunInv(r, s.disk) && Shaped(r) && (s.lock == Some(pid) <==> Locked(r));
    MayGoOnIsReady(s.disk, r, log);
    hide IsHistory, Inv, MayGoOn, Ready, RunInv, Shaped, Locked, Appending;
    more := GoesToCommit(history, pid, log);
    CommittedIsLive(history, more, pid);
  }

  // The plan does not change, and a committed journal's plan is what is live.
  lemma CommittedIsLive(history: seq<Sys>, more: seq<Sys>, pid: Pid)
    requires IsHistory(history) && pid in Last(history).runs && HasPlan(Last(history).runs[pid].at)
    requires CommitsAlone(history, pid, Last(history).runs[pid].id, more)
    ensures Last(more).disk.live == Heads(Last(history).runs[pid].identity.heads)
  {
    var r := Last(history).runs[pid];
    HistoryInv(history, |history| - 1);
    assert RunInv(r, Last(history).disk);
    HistoryInv(more, |more| - 1);
    assert JournalOk(Last(more).disk.journals[r.id], Last(more).disk.live);
    assert Last(history) == more[|history| - 1];
    hide IsHistory, Inv, RunInv, HasPlan;
    HistoryGrows(more, |history| - 1, |more| - 1);
  }

  // The run as it is when it chooses its journal.
  function Entered(identity: Identity, live: Database): Run {
    Begin(identity).(at := Choosing, seen := Inspect(live, true), healthy := true)
  }

  ghost predicate WithRun(history: seq<Sys>, pid: Pid, d: Disk, r: Run, more: seq<Sys>)
    requires history != []
  {
    IsHistory(more) && history <= more && Last(more) == Sys(d, Some(pid), Last(history).runs[pid := r])
  }

  lemma Proceeds(history: seq<Sys>, pid: Pid, d: Disk, r: Run, before: seq<Sys>, o: Oracle, n: Disk, next: Run)
    returns (more: seq<Sys>)
    requires history != [] && WithRun(history, pid, d, r, before) && TurnOf(d, r, o) == Turn(n, Some(next)) && Locked(next)
    ensures WithRun(history, pid, n, next, more)
  {
    hide IsHistory, TurnOf, Locked;
    more := Go(before, pid, o, Turn(n, Some(next)));
  }

  lemma Enters(history: seq<Sys>, pid: Pid, identity: Identity) returns (more: seq<Sys>)
    requires IsHistory(history) && Last(history).lock.None? && pid !in Last(history).runs && identity.heads != {}
    ensures WithRun(history, pid, Last(history).disk, Entered(identity, Last(history).disk.live), more)
  {
    var d := Last(history).disk;
    var r := Begin(identity);
    EntersTurns(d, identity);
    hide IsHistory, TurnOf, Inspect;
    more := Enter(history, pid, identity);
    more := Go(more, pid, Calmly, Goes(d, r, Inspecting));
    more := Proceeds(history, pid, d, r.(at := Inspecting), more, Calmly, d, Entered(identity, d.live));
  }

  lemma EntersTurns(d: Disk, identity: Identity)
    ensures TurnOf(d, Begin(identity), Calmly) == Goes(d, Begin(identity), Inspecting)
    ensures TurnOf(d, Begin(identity).(at := Inspecting), Calmly) == Turn(d, Some(Entered(identity, d.live)))
  {
    hide Inspect;
  }

  lemma CreatesTurns(d: Disk, r: Run, id: Id)
    requires id !in d.journals && r.at.Preparing?
    ensures var o := Calmly.(pick := id); var n := Create(d, id); var created := r.(at := WritingPlan, id := id, writable := true);
            && TurnOf(d, r, o) == Turn(n, Some(created))
            && TurnOf(n, created, o) == Turn(WritePlan(n, id, r.identity), Some(created.(at := AppendingPlanned)))
            && Logged(WritePlan(n, id, r.identity), id, [])
  {
    EmptyLog();
    hide EventLog.FilesOf;
  }

  // On an empty database no journal is committed.
  lemma NoneCommitted(history: seq<Sys>, identity: Identity)
    requires IsHistory(history) && Last(history).disk.live.Empty?
    ensures forall id :: !CommittedFor(Last(history).disk.journals, id, identity)
  {
    HistoryInv(history, |history| - 1);
    var d := Last(history).disk;
    hide IsHistory;
    forall id | id in d.journals ensures !IsCommitted(d.journals[id]) { assert JournalOk(d.journals[id], d.live); }
  }

  /** From nothing: over an empty database, with no journal open and nobody holding the lock, a run can create a journal
      under any free name and go on alone to commit it. */
  lemma CanBootstrap(history: seq<Sys>, pid: Pid, identity: Identity, id: Id) returns (more: seq<Sys>)
    requires IsHistory(history) && Last(history).lock.None? && pid !in Last(history).runs && identity.heads != {}
    requires Last(history).disk.live.Empty? && id !in Last(history).disk.journals
    requires forall other :: !Unresolved(Last(history).disk.journals, other)
    ensures CommitsAlone(history, pid, id, more) && Last(more).disk.live == Heads(identity.heads)
  {
    var d := Last(history).disk;
    var looked := Entered(identity, d.live);
    NoneCommitted(history, identity);
    ChoosesNew(d, looked);
    var preparing := looked.(at := Preparing);
    CreatesTurns(d, preparing, id);
    hide IsHistory, TurnOf, Unresolved, CommittedFor, Create, WritePlan, Logged;
    var n := Create(d, id);
    var created := preparing.(at := WritingPlan, id := id, writable := true);
    more := Enters(history, pid, identity);
    more := Proceeds(history, pid, d, looked, more, Calmly, d, preparing);
    more := Proceeds(history, pid, d, preparing, more, Calmly.(pick := id), n, created);
    more := Proceeds(history, pid, n, created, more, Calmly.(pick := id), WritePlan(n, id, identity), created.(at := AppendingPlanned));
    PlannedGoesOn(WritePlan(n, id, identity), created.(at := AppendingPlanned));
    AloneAfter(Last(history).runs, pid, created.(at := AppendingPlanned));
    more := CanCommit(more, pid, []);
  }

  lemma PlannedGoesOn(d: Disk, r: Run)
    requires Logged(d, r.id, []) && d.journals[r.id].result.None? && r.at.AppendingPlanned? && r.pending.Nothing?
    ensures MayGoOn(d, r, [])
  {
    hide Logged;
  }

  /** From every point at which a journal may be resumed: the one open journal, for this very release, without a result;
      over the target heads with any log, over an empty database with a log that has not gone past the schema. */
  lemma CanResume(history: seq<Sys>, pid: Pid, identity: Identity, id: Id, log: seq<BootPhase>) returns (more: seq<Sys>)
    requires IsHistory(history) && Last(history).lock.None? && pid !in Last(history).runs && identity.heads != {}
    requires forall other :: Unresolved(Last(history).disk.journals, other) ==> other == id
    requires Logged(Last(history).disk, id, log)
    requires Last(history).disk.journals[id].plan == Some(identity) && Last(history).disk.journals[id].result.None?
    requires var live := Last(history).disk.live; live == Heads(identity.heads) || (live.Empty? && Unfinished(LastOf(log)))
    ensures CommitsAlone(history, pid, id, more) && Last(more).disk.live == Heads(identity.heads)
  {
    var d := Last(history).disk;
    var looked := Entered(identity, d.live);
    assert MayResume(d, looked, id);
    OpenIsNotRefused(history, id, identity);
    ChoosesResumed(d, looked, id);
    var r := looked.(at := ReadingLatest, id := id, writable := true, resumed := true);
    assert Ready(d, r, log) by { hide IsHistory, Logged, TurnOf, MayResume, SearchRaises, Unresolved; }
    assert d.journals[id].plan == Some(identity);
    hide IsHistory, TurnOf, Unresolved, SearchRaises, MayResume, Logged, Ready;
    more := Enters(history, pid, identity);
    more := Proceeds(history, pid, d, looked, more, Calmly, d, r);
    var resumed := more;
    AloneAfter(Last(history).runs, pid, r);
    more := GoesToCommit(resumed, pid, log);
    CommittedIsLive(resumed, more, pid);
  }

  lemma ChoosesResumed(d: Disk, r: Run, id: Id)
    requires r.at == Choosing && MayResume(d, r, id) && !SearchRaises(d.journals, r.identity)
    ensures TurnOf(d, r, Calmly) == Turn(d, Some(r.(at := ReadingLatest, id := id, writable := true, resumed := true)))
  {
    ChooseIsTurn(d, r, Calmly);
    hide TurnOf, SearchRaises, Unresolved, CommittedFor;
    assert forall other :: MayResume(d, r, other) ==> other == id;
  }

  // Beside a journal without a result none is committed, so the search does not raise.
  lemma OpenIsNotRefused(history: seq<Sys>, id: Id, identity: Identity)
    requires IsHistory(history) && Blank(Last(history).disk.journals, id)
    ensures !SearchRaises(Last(history).disk.journals, identity)
  {
    HistoryInv(history, |history| - 1);
    var js := Last(history).disk.journals;
    hide IsHistory;
    forall other ensures !CommittedFor(js, other, identity) {
      assert CommittedAt(js, other) ==> other == id;
    }
  }

  // ---------------------------------------------------------------- the failure handler

  // What a run that failed is to leave: its event if the log takes it, and its result if there is none.
  ghost function EventRecorded(d: Disk, r: Run): Disk
    requires r.id in d.journals
  {
    var j := d.journals[r.id];
    if LatestIn(j).Some? && MayLog(j, StatusOf(r)) then WriteEvent(d, r.id, |j.events| + 1, StatusOf(r)) else d
  }

  ghost function Recorded(d: Disk, r: Run): Disk
    requires r.id in d.journals
  {
    if d.journals[r.id].result.Some? then EventRecorded(d, r) else WriteOutcome(EventRecorded(d, r), r.id, OutcomeOf(r))
  }

  lemma EventTurns(d: Disk, r: Run)
    requires r.id in d.journals && r.at.FailAppending? && r.pending.Nothing?
    ensures var t := TurnOf(d, r, Smoothly(r)); var done := Turn(EventRecorded(d, r), Some(r.(at := FailResult)));
            t == done || (t.disk == d && t.run.Some? && t.run.value.at.FailAppending? && TurnOf(d, t.run.value, Smoothly(r)) == done)
  {
    WriteIsTurn(d, r, Smoothly(r));
    var standing := r.(pending := Event(|d.journals[r.id].events| + 1));
    WriteIsTurn(d, standing, Smoothly(r));
    hide TurnOf, WriteEvent, MayLog, LatestIn, EventName;
  }

  lemma ResultTurns(d: Disk, r: Run)
    requires r.id in d.journals && r.at.FailResult? && r.pending.Nothing?
    ensures var t := TurnOf(d, r, Smoothly(r));
            if d.journals[r.id].result.Some? then t == Turn(d, None)
            else t == Turn(d, Some(r.(pending := Result)))
                 && TurnOf(d, t.run.value, Smoothly(r)) == Turn(WriteOutcome(d, r.id, OutcomeOf(r)), None)
  {
    WriteIsTurn(d, r, Smoothly(r));
    WriteIsTurn(d, r.(pending := Result), Smoothly(r));
    hide TurnOf, WriteOutcome;
  }

  lemma RecordsEvent(history: seq<Sys>, pid: Pid) returns (more: seq<Sys>)
    requires IsHistory(history) && pid in Last(history).runs && Last(history).runs[pid].id in Last(history).disk.journals
    requires Last(history).runs[pid].at.FailAppending? && Last(history).runs[pid].pending.Nothing?
    ensures var s := Last(history); var r := s.runs[pid];
            && IsHistory(more) && history <= more && Last(more).runs == s.runs[pid := r.(at := FailResult)]
            && Last(more).disk == EventRecorded(s.disk, r)
  {
    var s := Last(history);
    var r := s.runs[pid];
    EventTurns(s.disk, r);
    hide IsHistory, TurnOf, EventRecorded, Next;
    var t := TurnOf(s.disk, r, Smoothly(r));
    var done := Turn(EventRecorded(s.disk, r), Some(r.(at := FailResult)));
    more := Go(history, pid, Smoothly(r), t);
    if t != done { more := Go(more, pid, Smoothly(r), done); }
  }

  lemma RecordsResult(history: seq<Sys>, pid: Pid) returns (more: seq<Sys>)
    requires IsHistory(history) && pid in Last(history).runs && Last(history).runs[pid].id in Last(history).disk.journals
    requires Last(history).runs[pid].at.FailResult? && Last(history).runs[pid].pending.Nothing?
    ensures var s := Last(history); var r := s.runs[pid];
            && IsHistory(more) && history <= more && Last(more).runs == s.runs - {pid}
            && Last(more).disk == if s.disk.journals[r.id].result.Some? then s.disk else WriteOutcome(s.disk, r.id, OutcomeOf(r))
  {
    var s := Last(history);
    var r := s.runs[pid];
    ResultTurns(s.disk, r);
    hide IsHistory, TurnOf, WriteOutcome, OutcomeOf, Next;
    var t := TurnOf(s.disk, r, Smoothly(r));
    more := Go(history, pid, Smoothly(r), t);
    if t.run.Some? {
      AloneAfter(s.runs, pid, t.run.value);
      more := Go(more, pid, Smoothly(r), Turn(WriteOutcome(s.disk, r.id, OutcomeOf(r)), None));
    }
  }

  /** A run that failed, wherever and in any history, is recorded by its handler left to itself: the event that is due
      is appended exactly if the log takes it, the result stored exactly if there is none, and nothing else changes. */
  lemma FailureIsRecorded(history: seq<Sys>, pid: Pid) returns (more: seq<Sys>)
    requires IsHistory(history) && pid in Last(history).runs
    requires Last(history).runs[pid].at.FailAppending? && Last(history).runs[pid].pending.Nothing?
    ensures var s := Last(history); var r := s.runs[pid];
            && IsHistory(more) && history <= more && r.id in s.disk.journals
            && Last(more).runs == s.runs - {pid} && Last(more).disk == Recorded(s.disk, r)
  {
    var s := Last(history);
    var r := s.runs[pid];
    HistoryInv(history, |history| - 1);
    assert RunInv(r, s.disk);
    RecordedInTwo(s.disk, r);
    hide IsHistory, Inv, RunInv, EventRecorded, Recorded, OutcomeOf, WriteOutcome;
    more := RecordsEvent(history, pid);
    AloneAfter(s.runs, pid, r.(at := FailResult));
    more := RecordsResult(more, pid);
  }

  lemma RecordedInTwo(d: Disk, r: Run)
    requires r.id in d.journals && r.at.FailAppending?
    ensures var n := EventRecorded(d, r); var next := r.(at := FailResult);
            && r.id in n.journals && Smoothly(next) == Smoothly(r) && n.journals[r.id].result == d.journals[r.id].result
            && Recorded(d, r) == if n.journals[r.id].result.Some? then n else WriteOutcome(n, r.id, OutcomeOf(next))
  {
    hide MayLog, EventName, LatestIn;
  }
}
