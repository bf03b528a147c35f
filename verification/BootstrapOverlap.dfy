/** Runs that stand between a check and a write while another run writes the same journal: exactly there logs stop
    being paths and results are replaced. */
module BootstrapOverlap {
  import opened Wrappers
  import opened Phases
  import opened BootstrapProtocol
  import opened BootstrapSafety
  import opened BootstrapLogs
  import opened BootstrapTheorems
  import EventLog

  // What the run checked no longer holds: a file was added since, or a result was written.
  ghost predicate Overtaken(s: Sys, pid: Pid, id: Id) {
    && pid in s.runs && s.runs[pid].id == id && id in s.disk.journals
    && match s.runs[pid].pending
       case Nothing => false
       case Event(number) => number != |s.disk.journals[id].events| + 1
       case Result => s.disk.journals[id].result.Some?
  }

  // Up to here nobody who stood before this journal was overtaken.
  ghost predicate Calm(history: seq<Sys>, k: nat, id: Id) {
    k <= |history| && forall i: nat, pid: Pid :: i < k ==> !Overtaken(history[i], pid, id)
  }

  // ---------------------------------------------------------------- who overtakes whom

  // The one run writes into the journal before which the other one stands too, and not both of them hold the lock.
  ghost predicate Overtakes(s: Sys, t: Sys, q: Pid, pid: Pid, id: Id) {
    && q != pid && q in s.runs && pid in s.runs && id in s.disk.journals && id in t.disk.journals
    && s.runs[q].id == id && s.runs[pid].id == id
    && !s.runs[q].pending.Nothing? && !s.runs[pid].pending.Nothing?
    && t.disk.journals[id] != s.disk.journals[id]
    && !(Locked(s.runs[q]) && Locked(s.runs[pid]))
  }

  ghost predicate OvertakesAt(history: seq<Sys>, i: nat, q: Pid, pid: Pid, id: Id) {
    i + 1 < |history| && Overtakes(history[i], history[i + 1], q, pid, id)
  }

  // Events and results come from a run that stood before them.
  lemma WriterStood(s: Sys, t: Sys, q: Pid, id: Id)
    requires Steps(s, t, q) && id in s.disk.journals && id in t.disk.journals
    requires t.disk.journals[id].events != s.disk.journals[id].events || t.disk.journals[id].result != s.disk.journals[id].result
    ensures s.runs[q].id == id && !s.runs[q].pending.Nothing?
  {
    hide EventName, StatusOf, OutcomeOf;
    if Creates(s.disk, s.runs[q], t.disk) { CreatesNoFile(s.disk, s.runs[q], t.disk); }
  }

  // A run that is overtaken now stood there before, and was overtaken already or by this very step.
  lemma ComesOvertaken(s: Sys, t: Sys, pid: Pid, id: Id)
    requires Inv(s) && Next(s, t) && Overtaken(t, pid, id)
    ensures pid in s.runs && s.runs[pid] == t.runs[pid]
  {
    hide DiskInv, RunInv, TurnOf, Locked, MayFollow, LatestIn, StatusOf;
    if p: Pid, o: Oracle :| p in s.runs && t == Advance(s, p, o) {
      Waits(s.disk, s.runs[p], o);
    }
  }

  // A step that changes the disk is a turn of a run.
  lemma WhoStepped(s: Sys, t: Sys) returns (q: Pid, o: Oracle)
    requires Next(s, t) && t.disk != s.disk
    ensures q in s.runs && t == Advance(s, q, o) && Steps(s, t, q)
    ensures t.disk == TurnOf(s.disk, s.runs[q], o).disk
    ensures q in t.runs ==> TurnOf(s.disk, s.runs[q], o).run == Some(t.runs[q])
  {
    hide TurnOf, Effect, Locked;
    q, o :| q in s.runs && t == Advance(s, q, o);
    TurnEffect(s.disk, s.runs[q], o);
  }

  lemma OnlyOneIsLocked(s: Sys, p: Pid, q: Pid)
    requires Inv(s) && p in s.runs && q in s.runs && Locked(s.runs[p]) && Locked(s.runs[q])
    ensures p == q
  {
    hide DiskInv, RunInv, Locked;
  }

  lemma OvertakenNow(s: Sys, t: Sys, pid: Pid, id: Id) returns (q: Pid)
    requires Inv(s) && Next(s, t) && Overtaken(t, pid, id) && !Overtaken(s, pid, id) && id in s.disk.journals
    ensures Overtakes(s, t, q, pid, id)
  {
    ComesOvertaken(s, t, pid, id);
    assert t.disk.journals[id].events != s.disk.journals[id].events || t.disk.journals[id].result != s.disk.journals[id].result;
    hide Inv, Next, Advance, TurnOf, Steps, Locked, DiskInv, RunInv, Checked;
    var o;
    q, o := WhoStepped(s, t);
    WriterStood(s, t, q, id);
    if q == pid {
      StillStanding(s, pid, o);
    } else if Locked(s.runs[q]) && Locked(s.runs[pid]) {
      OnlyOneIsLocked(s, q, pid);
    }
  }

  lemma StillStanding(s: Sys, pid: Pid, o: Oracle)
    requires Inv(s) && pid in s.runs
    ensures var t := TurnOf(s.disk, s.runs[pid], o); t.disk != s.disk && t.run.Some? ==> t.run.value.pending.Nothing?
  {
    Waits(s.disk, s.runs[pid], o);
    hide TurnOf, DiskInv, RunInv;
  }

  lemma NobodyStandsBeforeNothing(s: Sys, t: Sys, pid: Pid, id: Id)
    requires Inv(s) && Next(s, t) && Overtaken(t, pid, id)
    ensures id in s.disk.journals
  {
    ComesOvertaken(s, t, pid, id);
    assert RunInv(s.runs[pid], s.disk);
    hide Next, DiskInv, OthersClosed, SeenIsLive;
  }

  /** Whoever is overtaken was overtaken by another run that stood before the same journal, and one of the two was a
      failure handler without the lock. */
  lemma {:induction false} OvertakenByAnother(history: seq<Sys>, k: nat, pid: Pid, id: Id) returns (i: nat, q: Pid)
    requires IsHistory(history) && k < |history| && Overtaken(history[k], pid, id)
    ensures i < k && OvertakesAt(history, i, q, pid, id)
  {
    NoJournalAtFirst(history);
    if k > 0 {
      hide Next, Overtaken, Inv, Overtakes, IsHistory;
      HistoryStep(history, k);
      HistoryInv(history, k - 1);
      NobodyStandsBeforeNothing(history[k - 1], history[k], pid, id);
      if Overtaken(history[k - 1], pid, id) {
        i, q := OvertakenByAnother(history, k - 1, pid, id);
      } else {
        q := OvertakenNow(history[k - 1], history[k], pid, id);
        i := k - 1;
      }
    }
  }

  // ---------------------------------------------------------------- logs

  /** An append by a run that stood before a path log leaves a path exactly when the run was not overtaken, or writes
      the very file that overtook it. */
  lemma AppendKeepsPathIff(history: seq<Sys>, k: nat, pid: Pid, id: Id)
    requires IsHistory(history) && 0 < k < |history| && LogsTo(history[k - 1], history[k], pid, id)
    requires LogIsPath(EventsAt(history, k - 1, id))
    ensures LogIsPath(EventsAt(history, k, id)) <==>
              !Overtaken(history[k - 1], pid, id) || EventsAt(history, k, id) == EventsAt(history, k - 1, id)
  {
    hide IsHistory, LogIsPath, OneEach, LogsTo, Overtaken, EventName, StatusOf, WasRead, IsBootPath, EventLog.FilesOf, EventLog.Listing;
    RunWasRead(history, k, id, pid);
    LogIsPathIff(history, k - 1, id);
    LogIsPathIff(history, k, id);
    var r := history[k - 1].runs[pid];
    StoodBefore(history[k - 1], history[k], pid, id);
    if !Overtaken(history[k - 1], pid, id) {
      FreshIsOneEach(history, k, id, r.pending.number, StatusOf(r));
    } else if LogIsPath(EventsAt(history, k, id)) {
      var log := OneEachIsPath(history, k - 1, id);
      FilesOfLog(log);
      NumberFits(history, k - 1, id, r.pending.number, StatusOf(r));
      TakenIsShared(history, k, id, r.pending.number, StatusOf(r), log);
    }
  }

  lemma StoodBefore(s: Sys, t: Sys, pid: Pid, id: Id)
    requires LogsTo(s, t, pid, id)
    ensures pid in s.runs && s.runs[pid].pending.Event? && id in s.disk.journals
    ensures Overtaken(s, pid, id) <==> s.runs[pid].pending.number != |s.disk.journals[id].events| + 1
  {
    hide EventName, StatusOf;
  }

  // A file under the number after all others shares it with none.
  lemma FreshIsOneEach(history: seq<Sys>, k: nat, id: Id, number: nat, phase: BootPhase)
    requires IsHistory(history) && 0 < k < |history| && id in history[k - 1].disk.journals && id in history[k].disk.journals
    requires EventsAt(history, k, id) == EventsAt(history, k - 1, id)[EventName(number, phase) := phase]
    requires OneEach(EventsAt(history, k - 1, id)) && number == |EventsAt(history, k - 1, id)| + 1
    ensures OneEach(EventsAt(history, k, id))
  {
    hide IsHistory, EventName, WasRead;
    var was, now := EventsAt(history, k - 1, id), EventsAt(history, k, id);
    forall m: nat, a, b | EventName(m, a) in now && EventName(m, b) in now ensures a == b {
      NumberOf(history, k - 1, id, number, phase, m, a);
      NumberOf(history, k - 1, id, number, phase, m, b);
    }
  }

  lemma NumberOf(history: seq<Sys>, k: nat, id: Id, number: nat, phase: BootPhase, m: nat, a: BootPhase)
    requires IsHistory(history) && k < |history| && id in history[k].disk.journals
    requires EventName(m, a) in EventsAt(history, k, id) || EventName(m, a) == EventName(number, phase)
    ensures EventName(m, a) in EventsAt(history, k, id) ==> m <= |EventsAt(history, k, id)|
    ensures EventName(m, a) !in EventsAt(history, k, id) ==> m == number && a == phase
  {
    hide IsHistory, EventName, WasRead;
    if EventName(m, a) in EventsAt(history, k, id) { FileWasRead(history, k, id, m, a); } else { NameTells(m, number, a, phase); }
  }

  lemma TakenIsShared(history: seq<Sys>, k: nat, id: Id, number: nat, phase: BootPhase, log: seq<BootPhase>)
    requires IsHistory(history) && 0 < k < |history| && id in history[k - 1].disk.journals && id in history[k].disk.journals
    requires var events := EventsAt(history, k - 1, id);
             && 1 <= number <= |events| + 1 && |events| == |log| && number != |events| + 1
             && (forall i :: 0 <= i < |log| ==> EventName(i + 1, log[i]) in events)
             && EventsAt(history, k, id) == events[EventName(number, phase) := phase]
    requires OneEach(EventsAt(history, k, id))
    ensures EventsAt(history, k, id) == EventsAt(history, k - 1, id)
  {
    hide *;
    if EventsAt(history, k, id) != EventsAt(history, k - 1, id) { NumberIsNext(history, k, id, number, phase, log); }
  }

  // At this step a run that was overtaken writes a file that was not there.
  ghost predicate WritesStale(history: seq<Sys>, i: nat, id: Id) {
    && i + 1 < |history| && id in history[i].disk.journals && id in history[i + 1].disk.journals
    && EventsAt(history, i + 1, id) != EventsAt(history, i, id)
    && exists pid: Pid :: LogsTo(history[i], history[i + 1], pid, id) && Overtaken(history[i], pid, id)
  }

  /** In every state of every history the log is a path exactly when no run that was overtaken has written a file of
      its own since the journal was made. */
  lemma LogIsPathExactly(history: seq<Sys>, k: nat, id: Id)
    requires IsHistory(history) && k < |history| && id in history[k].disk.journals
    ensures LogIsPath(EventsAt(history, k, id)) <==> forall i: nat :: i < k ==> !WritesStale(history, i, id)
  {
    hide IsHistory, LogIsPath, WritesStale;
    if LogIsPath(EventsAt(history, k, id)) {
      forall i: nat | i < k ensures !WritesStale(history, i, id) { PathMeansNoneStale(history, i, k, id); }
    }
    if forall i: nat :: i < k ==> !WritesStale(history, i, id) { NoneStaleMeansPath(history, k, id); }
  }

  lemma PathMeansNoneStale(history: seq<Sys>, i: nat, k: nat, id: Id)
    requires IsHistory(history) && i < k < |history| && id in history[k].disk.journals && LogIsPath(EventsAt(history, k, id))
    ensures !WritesStale(history, i, id)
  {
    hide IsHistory, LogIsPath, LogsTo, Overtaken, OneEach;
    if WritesStale(history, i, id) {
      var pid: Pid :| LogsTo(history[i], history[i + 1], pid, id) && Overtaken(history[i], pid, id);
      LogIsPathIff(history, k, id);
      OneEachBefore(history, i, k, id);
      OneEachBefore(history, i + 1, k, id);
      LogIsPathIff(history, i, id);
      LogIsPathIff(history, i + 1, id);
      AppendKeepsPathIff(history, i + 1, pid, id);
    }
  }

  lemma {:induction false} NoneStaleMeansPath(history: seq<Sys>, k: nat, id: Id)
    requires IsHistory(history) && k < |history| && id in history[k].disk.journals
    requires forall i: nat :: i < k ==> !WritesStale(history, i, id)
    ensures LogIsPath(EventsAt(history, k, id))
  {
    hide Next, Overtaken, LogsTo, LogIsPath, IsHistory;
    NoJournalAtFirst(history);
    if k > 0 {
      HistoryStep(history, k);
      EventsStep(history[k - 1], history[k], id);
      if id !in history[k - 1].disk.journals {
        EmptyIsPath();
      } else {
        NoneStaleMeansPath(history, k - 1, id);
        if EventsAt(history, k, id) != EventsAt(history, k - 1, id) {
          var pid: Pid :| LogsTo(history[k - 1], history[k], pid, id);
          assert !WritesStale(history, k - 1, id);
          AppendKeepsPathIff(history, k, pid, id);
        }
      }
    }
  }

  /** So a journal before which nobody was overtaken has a path for a log. */
  lemma CalmLogIsPath(history: seq<Sys>, k: nat, id: Id)
    requires IsHistory(history) && k < |history| && id in history[k].disk.journals && Calm(history, k, id)
    ensures LogIsPath(EventsAt(history, k, id))
  {
    hide IsHistory, LogIsPath, LogsTo, Overtaken;
    LogIsPathExactly(history, k, id);
  }

  lemma EmptyIsPath()
    ensures LogIsPath(map[])
  {
  }

  // ---------------------------------------------------------------- results

  // The overtaken run writes its outcome over another.
  ghost predicate Replaces(s: Sys, t: Sys, pid: Pid, id: Id) {
    && Overtaken(s, pid, id) && s.runs[pid].pending.Result?
    && t.disk == WriteOutcome(s.disk, id, OutcomeOf(s.runs[pid]))
    && s.disk.journals[id].result != Some(OutcomeOf(s.runs[pid]))
  }

  lemma ReplacedBy(s: Sys, t: Sys, pid: Pid, id: Id)
    requires Steps(s, t, pid) && id in s.disk.journals && id in t.disk.journals && s.disk.journals[id].result.Some?
    requires t.disk.journals[id].result != s.disk.journals[id].result
    ensures Replaces(s, t, pid, id)
  {
    WriterStood(s, t, pid, id);
    hide EventName, StatusOf, OutcomeOf;
    if Creates(s.disk, s.runs[pid], t.disk) { CreatesNoFile(s.disk, s.runs[pid], t.disk); }
  }

  /** A result is replaced exactly when a run that was overtaken writes another outcome. */
  lemma ResultReplacedIff(s: Sys, t: Sys, id: Id)
    requires Next(s, t) && id in s.disk.journals && s.disk.journals[id].result.Some?
    ensures id in t.disk.journals && t.disk.journals[id].result.Some?
    ensures t.disk.journals[id].result != s.disk.journals[id].result <==> exists pid: Pid :: Replaces(s, t, pid, id)
  {
    hide Next, Steps, Overtaken, OutcomeOf;
    StepGrows(s, t);
    NextEffect(s, t);
    if t.disk.journals[id].result != s.disk.journals[id].result {
      hide Replaces;
      var pid: Pid :| Steps(s, t, pid);
      ReplacedBy(s, t, pid, id);
    }
  }

  /** Before a journal where nobody was overtaken the result is written once. */
  lemma {:induction false} CalmResultStays(history: seq<Sys>, i: nat, k: nat, id: Id)
    requires IsHistory(history) && i <= k < |history| && Calm(history, k, id)
    requires id in history[i].disk.journals && history[i].disk.journals[id].result.Some?
    ensures id in history[k].disk.journals && history[k].disk.journals[id].result == history[i].disk.journals[id].result
  {
    hide Next, Overtaken, IsHistory;
    if i < k {
      CalmResultStays(history, i, k - 1, id);
      HistoryStep(history, k);
      ResultReplacedIff(history[k - 1], history[k], id);
    }
  }

  /** There a committed journal stays committed. */
  lemma CommittedForever(history: seq<Sys>, i: nat, k: nat, id: Id)
    requires IsHistory(history) && i <= k < |history| && Calm(history, k, id)
    requires id in history[i].disk.journals && IsCommitted(history[i].disk.journals[id])
    ensures id in history[k].disk.journals && IsCommitted(history[k].disk.journals[id])
  {
    hide IsHistory, Calm;
    CalmResultStays(history, i, k, id);
  }

  // ---------------------------------------------------------------- what a successful run has stored

  /** A run that gets to the end reports success. It has a committed result stored exactly when it wrote one, or saw
      one: a result seen at the check is left as it is. */
  lemma SuccessStoredIff(history: seq<Sys>, k: nat, pid: Pid, o: Oracle)
    requires IsHistory(history) && k < |history| && pid in history[k].runs && Closing(history[k].runs[pid].at) && o.ending == Done
    ensures var d, r := history[k].disk, history[k].runs[pid]; var t := TurnOf(d, r, o);
            && r.id in d.journals && r.id in t.disk.journals
            && (t.run == None <==> r.pending.Result? || d.journals[r.id].result.Some?)
            && (t.run == None ==>
                 && t.disk.journals[r.id].result.Some?
                 && (IsCommitted(t.disk.journals[r.id]) <==> r.pending.Result? || IsCommitted(d.journals[r.id])))
            && d.live == Heads(r.identity.heads)
  {
    HistoryInv(history, k);
    assert RunInv(history[k].runs[pid], history[k].disk);
    WriteIsTurn(history[k].disk, history[k].runs[pid], o);
    hide IsHistory, DiskInv, LockOk, TurnOf, OthersClosed, SeenIsLive;
  }
}
