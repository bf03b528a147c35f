/** Histories of the bootstrap in which two journals come to be open. */
module BootstrapCollision {
  import opened Wrappers
  import opened Phases
  import opened BootstrapProtocol
  import opened BootstrapSafety
  import opened BootstrapLogs
  import opened BootstrapOpen
  import opened BootstrapWitness
  import EventLog

  const K: Id := "k"

  function Failure(identity: Identity): Outcome {
    Outcome(BootFailed, identity.revision, identity.heads)
  }

  // The journal as the second run leaves it, and the handler of the first that has seen no result.
  ghost function FailedStore(identity: Identity): Disk {
    Store(identity, Died, Some(Failure(identity)), Empty)
  }

  function Handler(identity: Identity): map<Pid, Run> {
    map[1 := Waiting(identity)]
  }

  // ---------------------------------------------------------------- the second run fails before Alembic

  lemma DecidingFails(d: Disk, r: Run)
    requires r.at.Deciding? && r.writable
    ensures TurnOf(d, r, Calmly.(ending := Raised)) == Turn(d, Some(r.(at := FailAppending, pending := Nothing)))
  {
    WriteIsTurn(d, r, Calmly.(ending := Raised));
    hide TurnOf;
  }

  lemma DiedLast(identity: Identity)
    requires IsBootPath(Died)
    ensures LatestIn(Store(identity, Died, None, Empty).journals[J]) == Some(BootRequiresRecovery)
  {
    assert Died[|Died| - 1] == BootRequiresRecovery;
    hide IsBootPath, EventLog.FilesOf, EventLog.Listing, Died;
    FilesOfLog(Died);
  }

  lemma NothingToLog(identity: Identity, r: Run)
    requires IsBootPath(Died) && r.at.FailAppending? && r.id == J && r.pending.Nothing?
    ensures var d := Store(identity, Died, None, Empty);
            TurnOf(d, r, Calmly) == Turn(d, Some(r.(at := FailResult)))
  {
    hide IsBootPath, LatestIn, EventName, StatusOf, EventLog.FilesOf, Died;
    DiedLast(identity);
    WriteIsTurn(Store(identity, Died, None, Empty), r, Calmly);
    hide TurnOf;
  }

  lemma SecondFails(identity: Identity) returns (history: seq<Sys>)
    requires identity.heads != {}
    ensures IsHistory(history) && Last(history) == Sys(FailedStore(identity), None, Handler(identity))
  {
    history := UpToWaiting(identity, Empty);
    hide IsHistory, IsBootPath, EventLog.FilesOf, TurnOf, Died, Beside, Waiting;
    var d, others := Store(identity, Died, None, Empty), Handler(identity);
    history := LooksAgain(history, others, 2, identity, d);
    ResumesIt(identity, Died, None, Empty, Looked(Choosing, identity));
    history := GoBeside(history, d, others, 2, Looked(Choosing, identity), Calmly, d, Ours(ReadingLatest, identity, None));
    history := SecondHandles(history, identity);
  }

  lemma SecondHandles(before: seq<Sys>, identity: Identity) returns (history: seq<Sys>)
    requires IsHistory(before) && IsBootPath(Died)
    requires Last(before) == Beside(Store(identity, Died, None, Empty), Handler(identity), 2, Ours(ReadingLatest, identity, None))
    ensures IsHistory(history) && Last(history) == Sys(FailedStore(identity), None, Handler(identity))
  {
    var latest := Some(Died[|Died| - 1]);
    hide IsHistory, IsBootPath, EventLog.FilesOf, TurnOf, Died, Waiting;
    var d, others := Store(identity, Died, None, Empty), Handler(identity);
    LatestIsRead(identity, Died, None, Empty, Ours(ReadingLatest, identity, None));
    history := GoBeside(before, d, others, 2, Ours(ReadingLatest, identity, None), Calmly, d, Ours(Deciding, identity, latest));
    DecidingFails(d, Ours(Deciding, identity, latest));
    history := GoBeside(history, d, others, 2, Ours(Deciding, identity, latest), Calmly.(ending := Raised), d,
                        Ours(FailAppending, identity, latest));
    NothingToLog(identity, Ours(FailAppending, identity, latest));
    history := GoBeside(history, d, others, 2, Ours(FailAppending, identity, latest), Calmly, d, Ours(FailResult, identity, latest));
    history := SecondCloses(history, identity, latest);
  }

  lemma SecondCloses(before: seq<Sys>, identity: Identity, latest: Option<BootPhase>) returns (history: seq<Sys>)
    requires IsHistory(before)
    requires Last(before) == Beside(Store(identity, Died, None, Empty), Handler(identity), 2, Ours(FailResult, identity, latest))
    ensures IsHistory(history) && Last(history) == Sys(FailedStore(identity), None, Handler(identity))
  {
    hide IsHistory, EventLog.FilesOf, TurnOf, Died, Waiting;
    var r := Ours(FailResult, identity, latest);
    var d, others := Store(identity, Died, None, Empty), Handler(identity);
    ResultIsFree(identity, Empty, r);
    history := GoBeside(before, d, others, 2, r, Calmly, d, r.(pending := Result));
    ResultIsWritten(identity, None, Empty, r.(pending := Result));
    history := Go(history, 2, Calmly, Turn(FailedStore(identity), None));
    assert others[2 := r.(pending := Result)] - {2} == others;
  }

  // ---------------------------------------------------------------- the third run sees nothing open

  lemma NothingOpen(identity: Identity)
    ensures forall id :: !Unresolved(FailedStore(identity).journals, id)
                         && !CommittedFor(FailedStore(identity).journals, id, identity)
  {
    hide EventLog.FilesOf, Died;
  }

  lemma ThirdPrepares(identity: Identity) returns (history: seq<Sys>)
    requires identity.heads != {}
    ensures IsHistory(history)
    ensures Last(history) == Beside(FailedStore(identity), Handler(identity), 3, Looked(Preparing, identity))
  {
    history := SecondFails(identity);
    hide IsHistory, TurnOf, Beside, FailedStore, Waiting;
    LiveIsEmpty(identity);
    var d, others := FailedStore(identity), Handler(identity);
    history := LooksAgain(history, others, 3, identity, d);
    NothingOpen(identity);
    ChoosesNew(d, Looked(Choosing, identity));
    history := GoBeside(history, d, others, 3, Looked(Choosing, identity), Calmly, d, Looked(Preparing, identity));
  }

  lemma LiveIsEmpty(identity: Identity)
    ensures FailedStore(identity).live.Empty? && FailedStore(identity).journals.Keys == {J}
    ensures FailedStore(identity).journals[J].result == Some(Failure(identity))
  {
    hide EventLog.FilesOf, Died;
  }

  lemma ThirdCreates(d: Disk, identity: Identity)
    requires K !in d.journals
    ensures TurnOf(d, Looked(Preparing, identity), Calmly.(pick := K))
            == Turn(Create(d, K), Some(Looked(WritingPlan, identity).(id := K, writable := true)))
  {
    WriteIsTurn(d, Looked(Preparing, identity), Calmly.(pick := K));
    hide TurnOf;
  }

  lemma HandlerOverwrites(d: Disk, identity: Identity)
    requires J in d.journals
    ensures TurnOf(d, Waiting(identity), Calmly) == Turn(WriteOutcome(d, J, OutcomeOf(Waiting(identity))), None)
    ensures OutcomeOf(Waiting(identity)).status == BootRequiresRecovery
  {
    WriteIsTurn(d, Waiting(identity), Calmly);
    hide TurnOf;
  }

  lemma HandlerReopens(s: Sys, t: Sys, identity: Identity)
    requires 1 in s.runs && s.runs[1] == Waiting(identity) && J in s.disk.journals
    requires s.disk.journals[J].result == Some(Failure(identity))
    requires t.disk == WriteOutcome(s.disk, J, OutcomeOf(Waiting(identity)))
    ensures Reopens(s, t, 1, J) && Unresolved(t.disk.journals, J)
  {
  }

  // The third run has created its journal.
  lemma UpToCreated(identity: Identity) returns (history: seq<Sys>)
    requires identity.heads != {}
    ensures IsHistory(history) && J in Last(history).disk.journals && Unresolved(Last(history).disk.journals, K)
    ensures Last(history).disk.journals[J].result == Some(Failure(identity))
    ensures 1 in Last(history).runs && Last(history).runs[1] == Waiting(identity)
  {
    history := ThirdPrepares(identity);
    LiveIsEmpty(identity);
    hide IsHistory, TurnOf, FailedStore, Waiting, Looked;
    var d := FailedStore(identity);
    ThirdCreates(d, identity);
    history := GoBeside(history, d, Handler(identity), 3, Looked(Preparing, identity), Calmly.(pick := K), Create(d, K),
                        Looked(WritingPlan, identity).(id := K, writable := true));
  }

  /** For every release there is a history in which two journals come to be open: a handler finds no result and pauses, a
      second run closes its journal as failed, a third one creates another, and then the handler writes. */
  lemma TwoOpenHappen(identity: Identity) returns (history: seq<Sys>)
    requires identity.heads != {}
    ensures IsHistory(history) && |history| > 1 && BothOpen(Last(history), J, K)
    ensures ReopensAt(history, |history| - 2, 1, J) && Unresolved(history[|history| - 2].disk.journals, K)
  {
    var before := UpToCreated(identity);
    hide IsHistory, TurnOf, OutcomeOf, Waiting, Reopens, Unresolved;
    var d := Last(before).disk;
    HandlerOverwrites(d, identity);
    history := Go(before, 1, Calmly, Turn(WriteOutcome(d, J, OutcomeOf(Waiting(identity))), None));
    assert history[|before| - 1] == Last(before);
    HandlerReopens(Last(before), Last(history), identity);
    OthersStayOpen(Last(before), Last(history), J, K);
  }

  /** And one in which the handler writes first, under a run that has seen nothing open and then creates the other. */
  lemma TwoOpenLate(identity: Identity) returns (history: seq<Sys>)
    requires identity.heads != {}
    ensures IsHistory(history) && |history| > 2 && BothOpen(Last(history), J, K)
    ensures ReopensAt(history, |history| - 3, 1, J) && CreatesAt(history, |history| - 2, 3, K)
  {
    var before := ThirdPrepares(identity);
    LiveIsEmpty(identity);
    hide IsHistory, TurnOf, FailedStore;
    var d := FailedStore(identity);
    HandlerOverwrites(d, identity);
    var n := WriteOutcome(d, J, OutcomeOf(Waiting(identity)));
    hide OutcomeOf, Waiting, Reopens;
    var middle := Go(before, 1, Calmly, Turn(n, None));
    ThirdCreates(n, identity);
    history := Go(middle, 3, Calmly.(pick := K), Turn(Create(n, K), Some(Looked(WritingPlan, identity).(id := K, writable := true))));
    assert history[|before| - 1] == Last(before) && history[|before|] == Last(middle);
    HandlerReopens(Last(before), Last(middle), identity);
  }
}
