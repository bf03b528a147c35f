/** What the bootstrap guarantees over every history of runs, handlers and crashes, however late a handler writes
    what it checked. */
module BootstrapTheorems {
  import opened Wrappers
  import opened Phases
  import opened BootstrapProtocol
  import opened BootstrapSafety
  import opened BootstrapLogs

  // ---------------------------------------------------------------- guarantees in every state

  /** Alembic only ever starts on an empty database, for the plan of the journal, and never once one is committed. */
  lemma AlembicStartsOnEmpty(history: seq<Sys>, k: nat, pid: Pid)
    requires IsHistory(history) && k < |history| && pid in history[k].runs && history[k].runs[pid].at == Upgrading
    ensures var s := history[k];
            && s.disk.live == Empty
            && s.runs[pid].id in s.disk.journals && s.disk.journals[s.runs[pid].id].plan == Some(s.runs[pid].identity)
            && (forall id :: id in s.disk.journals ==>
                  !IsCommitted(s.disk.journals[id]) && BootCommitted !in s.disk.journals[id].events.Values)
  {
    HistoryInv(history, k);
    var s := history[k];
    assert RunInv(s.runs[pid], s.disk);
    hide IsHistory, OneAtWork;
    forall id | id in s.disk.journals
      ensures !IsCommitted(s.disk.journals[id]) && BootCommitted !in s.disk.journals[id].events.Values
    {
      assert JournalOk(s.disk.journals[id], s.disk.live);
    }
  }

  /** A committed event or result means that the live heads are those of the journal's plan; one journal at most has
      no result, one at most is committed, and there are never both. */
  lemma JournalsAreSound(history: seq<Sys>, k: nat, id: Id, other: Id)
    requires IsHistory(history) && k < |history| && id in history[k].disk.journals && other in history[k].disk.journals
    ensures var d := history[k].disk; var j, o := d.journals[id], d.journals[other];
            && (IsCommitted(j) || BootCommitted in j.events.Values ==> j.plan.Some? && d.live == Heads(j.plan.value.heads))
            && (IsCommitted(j) ==> Matches(j, j.plan.value))
            && ((j.result.None? || IsCommitted(j)) && (o.result.None? || IsCommitted(o)) ==> id == other)
  {
    HistoryInv(history, k);
    var d := history[k].disk;
    assert JournalOk(d.journals[id], d.live);
    assert Blank(d.journals, id) <==> d.journals[id].result.None?;
    assert Blank(d.journals, other) <==> d.journals[other].result.None?;
    assert CommittedAt(d.journals, id) <==> IsCommitted(d.journals[id]);
    assert CommittedAt(d.journals, other) <==> IsCommitted(d.journals[other]);
    hide IsHistory, LockOk, AllOk, IsCommitted;
  }

  /** So of the two guards of the search for a committed journal the second never fires: it raises exactly when the
      one committed journal is for the same release and differs in the rest of its identity. */
  lemma MultipleCommittedNeverFires(history: seq<Sys>, k: nat, identity: Identity)
    requires IsHistory(history) && k < |history|
    ensures var js := history[k].disk.journals;
            && (forall a, b :: CommittedAt(js, a) && CommittedAt(js, b) ==> a == b)
            && (SearchRaises(js, identity) <==>
                  exists id :: CommittedFor(js, id, identity) && js[id].plan != Some(identity))
  {
    HistoryInv(history, k);
    var d := history[k].disk;
    hide IsHistory, LockOk, RunInv;
    assert forall a, b :: CommittedAt(d.journals, a) && CommittedAt(d.journals, b) ==> a == b;
    forall id | CommittedFor(d.journals, id, identity)
      ensures CommittedAt(d.journals, id) && (Matches(d.journals[id], identity) <==> d.journals[id].plan == Some(identity))
    {
      assert JournalOk(d.journals[id], d.live);
    }
    hide DiskInv, CommittedAt, CommittedFor, Matches;
  }

  // ---------------------------------------------------------------- guarantees over time

  lemma LiveStaysStep(s: Sys, t: Sys)
    requires Inv(s) && Next(s, t) && !s.disk.live.Empty?
    ensures t.disk.live == s.disk.live && t.disk.journals.Keys == s.disk.journals.Keys
  {
    NextEffect(s, t);
    if t.disk != s.disk {
      var pid: Pid :| Steps(s, t, pid);
      var r := s.runs[pid];
      assert RunInv(r, s.disk);
      assert !BeforeAlembic(r.at);
      hide Next, Inv, RunInv, EventName, StatusOf, OutcomeOf;
    }
  }

  /** Once the database holds anything it never changes, Alembic is never started again, and no journal is ever
      created. */
  lemma {:induction false} LiveStays(history: seq<Sys>, i: nat, k: nat)
    requires IsHistory(history) && i <= k < |history| && !history[i].disk.live.Empty?
    ensures history[k].disk.live == history[i].disk.live
    ensures history[k].disk.journals.Keys == history[i].disk.journals.Keys
    ensures forall pid: Pid :: pid in history[k].runs ==> history[k].runs[pid].at != Upgrading
  {
    hide IsHistory, Inv, Next;
    if i < k {
      LiveStays(history, i, k - 1);
      HistoryStep(history, k);
      HistoryInv(history, k - 1);
      LiveStaysStep(history[k - 1], history[k]);
    }
    forall pid: Pid | pid in history[k].runs ensures history[k].runs[pid].at != Upgrading {
      if history[k].runs[pid].at == Upgrading { AlembicStartsOnEmpty(history, k, pid); }
    }
  }

  // ---------------------------------------------------------------- a journal without a plan

  // Nobody works on this journal, and it never got its plan: its creator died in between.
  ghost predicate Unplanned(s: Sys, id: Id) {
    && id in s.disk.journals && s.disk.journals[id].plan.None? && s.disk.journals[id].result.None?
    && forall pid: Pid :: pid in s.runs && HasJournal(s.runs[pid].at) ==> s.runs[pid].id != id
  }

  // Nobody can choose it, and nobody can begin another.
  lemma UnplannedIsRefused(s: Sys, pid: Pid, o: Oracle, id: Id)
    requires Unplanned(s, id) && pid in s.runs && s.runs[pid].at == Choosing
    ensures TurnOf(s.disk, s.runs[pid], o) == Turn(s.disk, None)
  {
    assert Unresolved(s.disk.journals, id);
    assert forall other :: !MayResume(s.disk, s.runs[pid], other);
    ChooseIsTurn(s.disk, s.runs[pid], o);
    hide SearchRaises, TurnOf, Unresolved, MayResume;
  }

  lemma UnplannedStep(s: Sys, t: Sys, id: Id)
    requires Inv(s) && Next(s, t) && Unplanned(s, id)
    ensures Unplanned(t, id) && t.disk.journals[id] == s.disk.journals[id]
  {
    if pid: Pid, o: Oracle :| pid in s.runs && t == Advance(s, pid, o) {
      assert RunInv(s.runs[pid], s.disk);
      TurnEffect(s.disk, s.runs[pid], o);
      hide Next, Inv, TurnOf;
      EffectElsewhere(s.disk, s.runs[pid], TurnOf(s.disk, s.runs[pid], o).disk, id);
      if s.runs[pid].at == Choosing {
        UnplannedIsRefused(s, pid, o, id);
      } else {
        assert Blank(s.disk.journals, id);
        assert s.runs[pid].at != Preparing;
        hide RunInv;
        JournalIsKept(s.disk, s.runs[pid], o);
      }
    }
  }

  lemma EffectElsewhere(d: Disk, r: Run, n: Disk, id: Id)
    requires RunInv(r, d) && Effect(d, r, n) && id in d.journals && (HasJournal(r.at) ==> r.id != id)
    ensures id in n.journals && n.journals[id] == d.journals[id]
  {
    hide EventName, StatusOf, OutcomeOf, OthersClosed, SeenIsLive;
    if Creates(d, r, n) {
      var c :| c !in d.journals && n == Create(d, c);
    }
  }

  // Only choosing and preparing give a run its journal, or lead to where one is made.
  ghost predicate GoesOnWith(r: Run, next: Run) {
    && next.id == r.id && (HasJournal(next.at) ==> HasJournal(r.at))
    && !next.at.Preparing? && !next.at.WritingPlan?
  }

  ghost predicate SameJournal(r: Run, t: Turn) {
    t.run.Some? ==> GoesOnWith(r, t.run.value)
  }

  lemma FailsKeeps(r: Run)
    requires r.writable ==> HasJournal(r.at)
    ensures forall d: Disk :: SameJournal(r, Fails(d, r))
  {
  }

  lemma PlainLookKeeps(d: Disk, r: Run, o: Oracle)
    requires r.at.WantLock? || r.at.Inspecting? || r.at.Reinspecting?
    requires r.writable ==> HasJournal(r.at)
    ensures SameJournal(r, TurnOf(d, r, o))
  {
    hide Inspect;
  }

  lemma LookKeeps(d: Disk, r: Run, o: Oracle)
    requires r.at.ReadingLatest? || r.at.StartingPostgres? || r.at.Probing?
    ensures SameJournal(r, TurnOf(d, r, o))
  {
    FailsKeeps(r);
    hide LatestIn, Fails;
  }

  lemma PlanKeeps(d: Disk, r: Run, o: Oracle)
    requires r.at.Upgrading? || r.at.WritingPlan?
    ensures SameJournal(r, TurnOf(d, r, o))
  {
  }

  lemma DecideKeeps(d: Disk, r: Run, o: Oracle)
    requires r.at.Deciding?
    ensures SameJournal(r, DecideTurn(d, r, o))
  {
    FailsKeeps(r);
    hide Fails;
  }

  lemma TerminalKeeps(d: Disk, r: Run, o: Oracle, failed: Turn)
    requires (Closing(r.at) || r.at.FailResult?) && SameJournal(r, failed)
    ensures SameJournal(r, TerminalTurn(d, r, o, failed))
  {
    assert GoesOnWith(r, r.(pending := Result));
    hide GoesOnWith, OutcomeOf, WriteOutcome;
  }

  lemma FailAppendKeeps(d: Disk, r: Run, o: Oracle)
    requires r.at.FailAppending?
    ensures SameJournal(r, FailAppendTurn(d, r, o))
  {
    assert forall p: Pending :: GoesOnWith(r, r.(pending := p)) && GoesOnWith(r, r.(at := FailResult, pending := p));
    hide GoesOnWith, MayLog, StatusOf, LatestIn, EventName, WriteEvent;
  }

  lemma AppendsKeeps(d: Disk, r: Run, phase: BootPhase, next: Run, o: Oracle)
    requires GoesOnWith(r, next) && Appending(r.at)
    ensures SameJournal(r, Appends(d, r, phase, next, o))
  {
    FailsKeeps(r);
    assert forall p: Pending :: GoesOnWith(r, r.(pending := p));
    hide GoesOnWith, MayLog, WriteEvent, Fails, Appending;
  }

  lemma AfterEventGoesOn(r: Run)
    requires Appending(r.at)
    ensures GoesOnWith(r, AfterEvent(r))
  {
    AfterEventKeeps(r);
    assert !NextAt(r.at).Preparing? && !NextAt(r.at).WritingPlan? && HasJournal(r.at);
    hide AfterEvent, NextAt, Appending, HasJournal;
  }

  lemma JournalIsKept(d: Disk, r: Run, o: Oracle)
    requires r.at != Choosing && r.at != Preparing && (r.writable ==> HasJournal(r.at))
    ensures SameJournal(r, TurnOf(d, r, o))
  {
    WriteIsTurn(d, r, o);
    hide SameJournal, GoesOnWith, TurnOf, Fails, EventAt, AfterEvent, Appends, TerminalTurn, FailAppendTurn, DecideTurn;
    if Appending(r.at) {
      AppendIsTurn(d, r, o);
      AfterEventGoesOn(r);
      AppendsKeeps(d, r, EventAt(r.at), AfterEvent(r), o);
    } else if r.at.Deciding? {
      DecideKeeps(d, r, o);
    } else if r.at.FailAppending? {
      FailAppendKeeps(d, r, o);
    } else if Closing(r.at) {
      FailsKeeps(r);
      TerminalKeeps(d, r, o, Fails(d, r));
    } else if r.at.FailResult? {
      NoneKeeps(d, r);
      TerminalKeeps(d, r, o, Turn(d, None));
    } else if r.at.WantLock? || r.at.Inspecting? || r.at.Reinspecting? {
      PlainLookKeeps(d, r, o);
    } else if r.at.Upgrading? || r.at.WritingPlan? {
      PlanKeeps(d, r, o);
    } else {
      LookKeeps(d, r, o);
    }
  }

  lemma NoneKeeps(d: Disk, r: Run)
    ensures SameJournal(r, Turn(d, None))
  {
  }

  /** It stays as it is for good: no later run gives it a plan, an event or a result, or gets past the choice of its
      journal, so none ever starts Alembic. */
  lemma {:induction false} UnplannedForever(history: seq<Sys>, i: nat, k: nat, id: Id, pid: Pid, o: Oracle)
    requires IsHistory(history) && i <= k < |history| && Unplanned(history[i], id)
    ensures Unplanned(history[k], id) && history[k].disk.journals[id] == history[i].disk.journals[id]
    ensures pid in history[k].runs && history[k].runs[pid].at == Choosing ==>
              TurnOf(history[k].disk, history[k].runs[pid], o) == Turn(history[k].disk, None)
  {
    hide IsHistory, Inv, Next, Unplanned, TurnOf;
    if i < k {
      UnplannedForever(history, i, k - 1, id, pid, o);
      HistoryStep(history, k);
      HistoryInv(history, k - 1);
      UnplannedStep(history[k - 1], history[k], id);
    }
    if pid in history[k].runs && history[k].runs[pid].at == Choosing { UnplannedIsRefused(history[k], pid, o, id); }
  }

  // ---------------------------------------------------------------- how such a journal comes to be

  // What a run is about to plan is its own, and still empty.
  ghost predicate IsNew(s: Sys, p: Pid)
    requires p in s.runs
  {
    && Blank(s.disk.journals, s.runs[p].id) && s.disk.journals[s.runs[p].id].plan.None?
    && forall q: Pid :: q in s.runs && q != p && HasJournal(s.runs[q].at) ==> s.runs[q].id != s.runs[p].id
  }

  lemma PreparedIsNew(s: Sys, p: Pid, o: Oracle)
    requires Inv(s) && p in s.runs && s.runs[p].at.Preparing?
    ensures var t := Advance(s, p, o); p in t.runs && t.runs[p].at.WritingPlan? ==> IsNew(t, p)
  {
    WriteIsTurn(s.disk, s.runs[p], o);
    assert forall q: Pid :: q in s.runs ==> RunInv(s.runs[q], s.disk);
    hide TurnOf, DiskInv, SeenIsLive, OthersClosed;
  }

  lemma OthersLeaveItNew(s: Sys, p: Pid, q: Pid, o: Oracle)
    requires Inv(s) && p in s.runs && q in s.runs && p != q && s.runs[p].at.WritingPlan? && IsNew(s, p)
    ensures var t := Advance(s, q, o); p in t.runs && t.runs[p] == s.runs[p] && IsNew(t, p)
  {
    var r := s.runs[q];
    var turn := TurnOf(s.disk, r, o);
    assert !Locked(r) && RunInv(r, s.disk) && (HasJournal(r.at) ==> r.id != s.runs[p].id);
    TurnEffect(s.disk, r, o);
    JournalIsKept(s.disk, r, o);
    hide TurnOf, Effect, RunInv, DiskInv;
    EffectElsewhere(s.disk, r, turn.disk, s.runs[p].id);
    hide LockOk, Locked;
  }

  lemma NewStep(s: Sys, t: Sys, p: Pid)
    requires Inv(s) && Next(s, t) && p in t.runs && t.runs[p].at.WritingPlan?
    requires p in s.runs && s.runs[p].at.WritingPlan? ==> IsNew(s, p)
    ensures IsNew(t, p)
  {
    hide Inv, TurnOf;
    if q: Pid, o: Oracle :| q in s.runs && t == Advance(s, q, o) {
      if q != p {
        NotLocked(s, p, q, o);
        OthersLeaveItNew(s, p, q, o);
      } else if s.runs[p].at.Preparing? {
        PreparedIsNew(s, p, o);
      } else {
        OwnStep(s, p, o);
      }
    } else {
      hide Blank;
    }
  }

  lemma NotLocked(s: Sys, p: Pid, q: Pid, o: Oracle)
    requires p in s.runs && q in s.runs && p != q && p in Advance(s, q, o).runs
    ensures Advance(s, q, o).runs[p] == s.runs[p]
  {
    hide TurnOf;
  }

  lemma OwnStep(s: Sys, p: Pid, o: Oracle)
    requires Inv(s) && p in s.runs && !s.runs[p].at.Preparing?
    requires var t := Advance(s, p, o); p in t.runs && t.runs[p].at.WritingPlan?
    ensures Advance(s, p, o) == s
  {
    var r := s.runs[p];
    assert RunInv(r, s.disk);
    if r.at.Choosing? {
      ChooseIsTurn(s.disk, r, o);
      hide TurnOf, SearchRaises, MayResume, Unresolved, CommittedFor;
    } else {
      JournalIsKept(s.disk, r, o);
      hide TurnOf, RunInv;
    }
  }

  lemma NobodyAtFirst(history: seq<Sys>)
    requires IsHistory(history)
    ensures history[0].runs == map[]
  {
    hide Next;
  }

  lemma {:induction false} WritingPlanIsNew(history: seq<Sys>, k: nat, p: Pid)
    requires IsHistory(history) && k < |history| && p in history[k].runs && history[k].runs[p].at.WritingPlan?
    ensures IsNew(history[k], p)
  {
    hide IsHistory, Inv, Next, IsNew;
    NobodyAtFirst(history);
    if k > 0 {
      HistoryStep(history, k);
      HistoryInv(history, k - 1);
      if p in history[k - 1].runs && history[k - 1].runs[p].at.WritingPlan? { WritingPlanIsNew(history, k - 1, p); }
      NewStep(history[k - 1], history[k], p);
    }
  }

  /** A run that dies before its plan is written, in any history, leaves such a journal. */
  lemma DyingUnplanned(history: seq<Sys>, k: nat, p: Pid)
    requires IsHistory(history) && k < |history| && p in history[k].runs && history[k].runs[p].at.WritingPlan?
    ensures Next(history[k], Crash(history[k], p)) && Unplanned(Crash(history[k], p), history[k].runs[p].id)
  {
    hide IsHistory;
    WritingPlanIsNew(history, k, p);
  }
}
