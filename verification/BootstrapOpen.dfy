/** Open bootstrap journals: when one that was closed is opened again, and when two are open at once. */
module BootstrapOpen {
  import opened Wrappers
  import opened Phases
  import opened BootstrapProtocol
  import opened BootstrapSafety
  import opened BootstrapLogs
  import opened BootstrapTheorems
  import opened BootstrapOverlap

  // ---------------------------------------------------------------- opening a journal again

  // A handler that looked for a result in time is about to write requires_recovery over one that came since.
  predicate MayReopen(s: Sys, pid: Pid, id: Id) {
    && pid in s.runs && s.runs[pid].at.FailResult? && s.runs[pid].pending.Result? && s.runs[pid].schema
    && s.runs[pid].id == id && id in s.disk.journals
    && s.disk.journals[id].result.Some? && s.disk.journals[id].result.value.status != BootRequiresRecovery
  }

  ghost predicate Reopens(s: Sys, t: Sys, pid: Pid, id: Id) {
    MayReopen(s, pid, id) && t.disk == WriteOutcome(s.disk, id, OutcomeOf(s.runs[pid]))
  }

  // A closed journal changes by the write of a run that stood before its result.
  lemma ChangesByResult(s: Sys, t: Sys, pid: Pid, id: Id)
    requires Inv(s) && Steps(s, t, pid) && id in s.disk.journals && id in t.disk.journals
    requires t.disk.journals[id].result != s.disk.journals[id].result
    ensures pid in s.runs && s.runs[pid].id == id
    ensures Concludes(s.disk, s.runs[pid], t.disk) && RunInv(s.runs[pid], s.disk)
  {
    hide EventName, StatusOf, OutcomeOf, DiskInv, LockOk, RunInv;
    if Creates(s.disk, s.runs[pid], t.disk) { CreatesNoFile(s.disk, s.runs[pid], t.disk); }
  }

  /** A journal that is closed is open after a step exactly when such a handler writes. */
  lemma ReopensIff(s: Sys, t: Sys, id: Id)
    requires Inv(s) && Next(s, t) && id in s.disk.journals && !Unresolved(s.disk.journals, id)
    ensures Unresolved(t.disk.journals, id) <==> exists pid: Pid :: Reopens(s, t, pid, id)
  {
    hide Next, Inv, Steps, RunInv, Effect;
    NextEffect(s, t);
    StepGrows(s, t);
    if Unresolved(t.disk.journals, id) {
      var pid: Pid :| Steps(s, t, pid);
      ChangesByResult(s, t, pid, id);
      WritesRecovery(s, t, pid, id);
    }
  }

  lemma WritesRecovery(s: Sys, t: Sys, pid: Pid, id: Id)
    requires pid in s.runs && RunInv(s.runs[pid], s.disk) && s.runs[pid].id == id
    requires Concludes(s.disk, s.runs[pid], t.disk) && Unresolved(t.disk.journals, id) && !Unresolved(s.disk.journals, id)
    ensures Reopens(s, t, pid, id)
  {
    hide OthersClosed, SeenIsLive, EventName;
  }

  ghost predicate ReopensAt(history: seq<Sys>, i: nat, pid: Pid, id: Id) {
    i + 1 < |history| && Reopens(history[i], history[i + 1], pid, id)
  }

  // A journal is open after a step because it was, because it was made, or because it was opened again.
  lemma Opens(s: Sys, t: Sys, id: Id)
    requires Inv(s) && Next(s, t) && Unresolved(t.disk.journals, id) && !Unresolved(s.disk.journals, id)
    ensures if id in s.disk.journals then exists pid: Pid :: Reopens(s, t, pid, id) else t.disk == Create(s.disk, id)
  {
    hide Inv, Reopens;
    if id in s.disk.journals {
      hide Next, Unresolved;
      ReopensIff(s, t, id);
    } else {
      NextEffect(s, t);
      hide Next, EventName, StatusOf, OutcomeOf;
      var pid: Pid :| Steps(s, t, pid);
      assert Creates(s.disk, s.runs[pid], t.disk);
      var c :| c !in s.disk.journals && t.disk == Create(s.disk, c);
    }
  }

  // ---------------------------------------------------------------- creating beside an open journal

  lemma WhoCreated(s: Sys, t: Sys, id: Id) returns (q: Pid)
    requires Next(s, t) && id !in s.disk.journals && t.disk == Create(s.disk, id)
    ensures q in s.runs && s.runs[q].at.Preparing? && (q in t.runs ==> !t.runs[q].at.Preparing?)
  {
    var o;
    q, o := WhoStepped(s, t);
    hide Next, Advance, EventName, StatusOf, OutcomeOf;
    assert Creates(s.disk, s.runs[q], t.disk);
    WriteIsTurn(s.disk, s.runs[q], o);
    hide TurnOf;
  }

  // A run comes to prepare because it just saw no open journal.
  lemma PreparesWhenNoneIsOpen(d: Disk, r: Run, o: Oracle)
    requires r.writable ==> HasJournal(r.at)
    ensures var t := TurnOf(d, r, o);
            t.run.Some? && t.run.value.at.Preparing? ==> r.at == Choosing && t.disk == d && forall id :: !Unresolved(d.journals, id)
  {
    if r.at.Choosing? {
      ChooseIsTurn(d, r, o);
      hide TurnOf, SearchRaises, MayResume, Unresolved, CommittedFor;
    } else if r.at.Preparing? {
      WriteIsTurn(d, r, o);
      hide TurnOf;
    } else {
      JournalIsKept(d, r, o);
      hide TurnOf;
    }
  }

  lemma PreparingBefore(s: Sys, t: Sys, id: Id, pid: Pid)
    requires Inv(s) && Next(s, t) && Unresolved(t.disk.journals, id) && pid in t.runs && t.runs[pid].at.Preparing?
    ensures pid in s.runs && s.runs[pid].at.Preparing?
  {
    hide TurnOf, Unresolved, Locked, DiskInv;
    if p: Pid, o: Oracle :| p in s.runs && t == Advance(s, p, o) {
      assert RunInv(s.runs[p], s.disk);
      PreparesWhenNoneIsOpen(s.disk, s.runs[p], o);
    }
  }

  lemma PreparingIsLocked(s: Sys, p: Pid, q: Pid)
    requires Inv(s) && p in s.runs && q in s.runs && s.runs[p].at.Preparing? && s.runs[q].at.Preparing?
    ensures p == q
  {
    OnlyOneIsLocked(s, p, q);
  }

  ghost predicate PreparesAt(history: seq<Sys>, m: nat, q: Pid) {
    m < |history| && q in history[m].runs && history[m].runs[q].at.Preparing?
  }

  // From the step that opens it again the journal is open, and the run beside it about to create another.
  ghost predicate OpenBeside(history: seq<Sys>, i: nat, j: nat, id: Id, q: Pid) {
    && PreparesAt(history, i, q)
    && forall m: nat :: i < m <= j ==> PreparesAt(history, m, q) && Unresolved(history[m].disk.journals, id)
  }

  // The journal that opens under a run about to create another one was there before.
  lemma OpensUnderPreparing(s: Sys, t: Sys, id: Id, q: Pid) returns (pid: Pid)
    requires Inv(s) && Next(s, t) && Unresolved(t.disk.journals, id) && !Unresolved(s.disk.journals, id)
    requires q in t.runs && t.runs[q].at.Preparing?
    ensures Reopens(s, t, pid, id)
  {
    hide Next, Inv, Unresolved, Reopens;
    PreparingBefore(s, t, id, q);
    Opens(s, t, id);
    if id !in s.disk.journals {
      var p := WhoCreated(s, t, id);
      PreparingIsLocked(s, p, q);
    }
    pid :| Reopens(s, t, pid, id);
  }

  /** A run is about to create a journal while one is open only if that one was opened again under it. */
  lemma {:induction false} OpenedUnderPreparing(history: seq<Sys>, k: nat, id: Id, q: Pid) returns (i: nat, pid: Pid)
    requires IsHistory(history) && k < |history| && PreparesAt(history, k, q) && Unresolved(history[k].disk.journals, id)
    ensures i < k && ReopensAt(history, i, pid, id) && OpenBeside(history, i, k, id, q)
  {
    hide Next, IsHistory, Inv, Unresolved, Reopens;
    NobodyAtFirst(history);
    if k > 0 {
      HistoryStep(history, k);
      HistoryInv(history, k - 1);
      PreparingBefore(history[k - 1], history[k], id, q);
      if Unresolved(history[k - 1].disk.journals, id) {
        i, pid := OpenedUnderPreparing(history, k - 1, id, q);
      } else {
        i := k - 1;
        pid := OpensUnderPreparing(history[k - 1], history[k], id, q);
      }
    }
  }

  ghost predicate CreatesAt(history: seq<Sys>, j: nat, q: Pid, made: Id) {
    && j + 1 < |history| && PreparesAt(history, j, q)
    && made !in history[j].disk.journals && history[j + 1].disk == Create(history[j].disk, made)
  }

  // ---------------------------------------------------------------- two open at once

  ghost predicate BothOpen(s: Sys, a: Id, b: Id) {
    a != b && Unresolved(s.disk.journals, a) && Unresolved(s.disk.journals, b)
  }

  ghost predicate TwoOpen(s: Sys) {
    exists a, b :: BothOpen(s, a, b)
  }

  // Another journal is open when this one is opened again.
  ghost predicate OpensSecond(history: seq<Sys>, i: nat, id: Id) {
    i < |history| && exists other :: other != id && Unresolved(history[i].disk.journals, other)
  }

  // Or a run that had seen nothing open creates another one while this one still is.
  ghost predicate CreatesSecond(history: seq<Sys>, i: nat, k: nat, id: Id) {
    exists j: nat, q: Pid, made :: i < j < k && CreatesAt(history, j, q, made) && OpenBeside(history, i, j, id, q)
  }

  ghost predicate Collides(history: seq<Sys>, k: nat, i: nat, pid: Pid, id: Id) {
    i < k && ReopensAt(history, i, pid, id) && (OpensSecond(history, i, id) || CreatesSecond(history, i, k, id))
  }

  // What one step opens leaves every other journal as it was.
  lemma OthersStayOpen(s: Sys, t: Sys, id: Id, other: Id)
    requires t.disk == Create(s.disk, id) || exists pid: Pid :: Reopens(s, t, pid, id)
    requires other != id
    ensures Unresolved(t.disk.journals, other) <==> Unresolved(s.disk.journals, other)
  {
    hide OutcomeOf;
  }

  lemma MadeIsOpen(s: Sys, t: Sys, id: Id)
    requires t.disk == Create(s.disk, id)
    ensures Unresolved(t.disk.journals, id)
  {
  }

  lemma ReopenedIsOpen(s: Sys, t: Sys, pid: Pid, id: Id)
    requires Reopens(s, t, pid, id)
    ensures Unresolved(t.disk.journals, id) && id in s.disk.journals
  {
  }

  // The last journal of the two to open does so while the other is open.
  lemma SecondOpens(history: seq<Sys>, k: nat, a: Id, b: Id) returns (i: nat, pid: Pid, id: Id)
    requires IsHistory(history) && 0 < k < |history| && BothOpen(history[k], a, b)
    requires !Unresolved(history[k - 1].disk.journals, a)
    ensures Collides(history, k, i, pid, id)
  {
    hide Next, IsHistory, Inv, Unresolved, Reopens, OpenBeside;
    var s, t := history[k - 1], history[k];
    HistoryStep(history, k);
    HistoryInv(history, k - 1);
    Opens(s, t, a);
    OthersStayOpen(s, t, a, b);
    if a in s.disk.journals {
      i, id := k - 1, a;
      pid :| Reopens(s, t, pid, a);
    } else {
      var q := WhoCreated(s, t, a);
      i, pid := OpenedUnderPreparing(history, k - 1, b, q);
      id := b;
      assert CreatesAt(history, k - 1, q, a);
    }
  }

  lemma {:induction false} TwoOpenCollided(history: seq<Sys>, k: nat, a: Id, b: Id) returns (i: nat, pid: Pid, id: Id)
    requires IsHistory(history) && k < |history| && BothOpen(history[k], a, b)
    ensures Collides(history, k, i, pid, id)
  {
    NoJournalAtFirst(history);
    assert k > 0;
    hide Next, IsHistory, Unresolved, Reopens, OpenBeside;
    if !Unresolved(history[k - 1].disk.journals, a) {
      i, pid, id := SecondOpens(history, k, a, b);
    } else if !Unresolved(history[k - 1].disk.journals, b) {
      i, pid, id := SecondOpens(history, k, b, a);
    } else {
      i, pid, id := TwoOpenCollided(history, k - 1, a, b);
      CollidesLater(history, k - 1, k, i, pid, id);
    }
  }

  lemma CollidesLater(history: seq<Sys>, k: nat, n: nat, i: nat, pid: Pid, id: Id)
    requires Collides(history, k, i, pid, id) && k <= n
    ensures Collides(history, n, i, pid, id)
  {
    hide ReopensAt, OpensSecond, CreatesAt, OpenBeside;
  }

  lemma CollisionOpensTwo(history: seq<Sys>, k: nat, i: nat, pid: Pid, id: Id) returns (n: nat)
    requires Collides(history, k, i, pid, id) && k < |history|
    ensures n <= k && TwoOpen(history[n])
  {
    hide Unresolved, Reopens, Create;
    ReopenedIsOpen(history[i], history[i + 1], pid, id);
    if OpensSecond(history, i, id) {
      var other :| other != id && Unresolved(history[i].disk.journals, other);
      OthersStayOpen(history[i], history[i + 1], id, other);
      n := i + 1;
      assert BothOpen(history[n], id, other);
    } else {
      var j: nat, q: Pid, made :| i < j < k && CreatesAt(history, j, q, made) && OpenBeside(history, i, j, id, q);
      assert Unresolved(history[j].disk.journals, id);
      OpenExists(history[j].disk.journals, id);
      MadeIsOpen(history[j], history[j + 1], made);
      OthersStayOpen(history[j], history[j + 1], made, id);
      n := j + 1;
      assert BothOpen(history[n], id, made);
    }
  }

  lemma OpenExists(journals: map<Id, Journal>, id: Id)
    requires Unresolved(journals, id)
    ensures id in journals
  {
  }

  /** Two journals are open in some state exactly when a handler whose check was overtaken writes requires_recovery over
      a result that had closed its journal, with another one open then, or created after it by a run that had seen
      nothing open. */
  lemma TwoOpenIff(history: seq<Sys>, k: nat)
    requires IsHistory(history) && k < |history|
    ensures (exists n: nat :: n <= k && TwoOpen(history[n])) <==>
            (exists i: nat, pid: Pid, id :: Collides(history, k, i, pid, id))
  {
    hide IsHistory, Collides, BothOpen;
    if n: nat :| n <= k && TwoOpen(history[n]) {
      var a, b :| BothOpen(history[n], a, b);
      var i, pid, id := TwoOpenCollided(history, n, a, b);
      CollidesLater(history, n, k, i, pid, id);
    }
    if i: nat, pid: Pid, id :| Collides(history, k, i, pid, id) {
      var n := CollisionOpensTwo(history, k, i, pid, id);
    }
  }

  /** As long as two are open, no run gets past the choice of its journal. */
  lemma TwoOpenRefuses(s: Sys, pid: Pid, o: Oracle)
    requires TwoOpen(s) && pid in s.runs && s.runs[pid].at == Choosing
    ensures TurnOf(s.disk, s.runs[pid], o) == Turn(s.disk, None)
  {
    var a, b :| BothOpen(s, a, b);
    assert forall id :: !MayResume(s.disk, s.runs[pid], id);
    ChooseIsTurn(s.disk, s.runs[pid], o);
    hide TurnOf, SearchRaises, MayResume, CommittedFor;
  }

  // ---------------------------------------------------------------- a requires_recovery result

  predicate AwaitsRecovery(s: Sys, id: Id) {
    && id in s.disk.journals && s.disk.journals[id].result.Some?
    && s.disk.journals[id].result.value.status == BootRequiresRecovery
  }

  // A run whose check was overtaken writes over it what closes the journal.
  ghost predicate ClosesAt(history: seq<Sys>, m: nat, pid: Pid, id: Id) {
    && m + 1 < |history| && Replaces(history[m], history[m + 1], pid, id)
    && StatusOf(history[m].runs[pid]) != BootRequiresRecovery
  }

  lemma ReplacingStatus(s: Sys, t: Sys, pid: Pid, id: Id)
    requires Replaces(s, t, pid, id)
    ensures pid in s.runs && (AwaitsRecovery(t, id) <==> StatusOf(s.runs[pid]) == BootRequiresRecovery)
  {
    hide StatusOf;
  }

  lemma RecoveryStep(history: seq<Sys>, m: nat, id: Id)
    requires IsHistory(history) && m + 1 < |history| && AwaitsRecovery(history[m], id)
    ensures AwaitsRecovery(history[m + 1], id) <==> forall pid: Pid :: !ClosesAt(history, m, pid, id)
  {
    hide IsHistory, Next, StatusOf, Replaces;
    var s, t := history[m], history[m + 1];
    HistoryStep(history, m + 1);
    ResultReplacedIff(s, t, id);
    if t.disk.journals[id].result != s.disk.journals[id].result {
      var pid: Pid :| Replaces(s, t, pid, id);
      ReplacingStatus(s, t, pid, id);
      assert AwaitsRecovery(t, id) || ClosesAt(history, m, pid, id);
    }
    forall pid: Pid | ClosesAt(history, m, pid, id) ensures !AwaitsRecovery(t, id) { ReplacingStatus(s, t, pid, id); }
  }

  /** A requires_recovery result stays exactly until such a run writes. */
  lemma {:induction false} RecoveryStaysIff(history: seq<Sys>, i: nat, k: nat, id: Id)
    requires IsHistory(history) && i <= k < |history| && AwaitsRecovery(history[i], id)
    ensures (forall m: nat :: i <= m <= k ==> AwaitsRecovery(history[m], id)) <==>
            (forall m: nat, pid: Pid :: i <= m < k ==> !ClosesAt(history, m, pid, id))
  {
    hide IsHistory, AwaitsRecovery, ClosesAt;
    if i < k {
      RecoveryStaysIff(history, i, k - 1, id);
      if AwaitsRecovery(history[k - 1], id) { RecoveryStep(history, k - 1, id); }
    }
  }

  /** Until then it stops every other journal, unless its own had been closed and opened again under a run that had
      seen nothing open: whatever later runs report, the journal stays open and no other is created. */
  lemma {:induction false} RecoveryBlocksForever(history: seq<Sys>, i: nat, k: nat, id: Id)
    requires IsHistory(history) && i <= k < |history| && AwaitsRecovery(history[i], id)
    requires forall m: nat, pid: Pid :: i <= m < k ==> !ClosesAt(history, m, pid, id)
    requires forall m: nat, pid: Pid :: m < k && ReopensAt(history, m, pid, id) ==> !PreparingIn(history[m])
    ensures Unresolved(history[k].disk.journals, id)
    ensures history[k].disk.journals.Keys == history[i].disk.journals.Keys
  {
    hide IsHistory, Next, ClosesAt, ReopensAt;
    RecoveryStaysIff(history, i, k, id);
    if i < k {
      RecoveryBlocksForever(history, i, k - 1, id);
      HistoryStep(history, k);
      if history[k].disk.journals.Keys != history[k - 1].disk.journals.Keys {
        var q := WhoAdded(history[k - 1], history[k]);
        var m, pid := OpenedUnderPreparing(history, k - 1, id, q);
      }
    }
  }

  // Some run is about to create a journal.
  ghost predicate PreparingIn(s: Sys) {
    exists q: Pid :: q in s.runs && s.runs[q].at.Preparing?
  }

  lemma WhoAdded(s: Sys, t: Sys) returns (q: Pid)
    requires Next(s, t) && t.disk.journals.Keys != s.disk.journals.Keys
    ensures q in s.runs && s.runs[q].at.Preparing?
  {
    NextEffect(s, t);
    hide Next, EventName, StatusOf, OutcomeOf;
    q :| Steps(s, t, q);
  }
}
