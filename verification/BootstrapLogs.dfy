/** The event files of the bootstrap journals over every history, when an append may write long after it checked:
    where each file comes from, and when the listing is a path of the phase table. */
module BootstrapLogs {
  import opened Wrappers
  import opened Phases
  import opened Ordering
  import opened BootstrapProtocol
  import opened BootstrapSafety
  import EventLog

  // ---------------------------------------------------------------- files only come

  ghost predicate Kept(j: Journal, k: Journal) {
    && (forall name :: name in j.events ==> name in k.events)
    && (j.plan.Some? ==> k.plan == j.plan) && (j.result.Some? ==> k.result.Some?)
  }

  ghost predicate Grows(d: Disk, n: Disk) {
    forall id :: id in d.journals ==> id in n.journals && Kept(d.journals[id], n.journals[id])
  }

  lemma EffectGrows(d: Disk, r: Run, n: Disk)
    requires Effect(d, r, n)
    ensures Grows(d, n)
  {
    hide EventName, StatusOf, OutcomeOf;
    if Creates(d, r, n) {
      var id :| id !in d.journals && n == Create(d, id);
    }
  }

  // A step of the history is the effect of one run, or leaves the disk alone.
  ghost predicate Steps(s: Sys, t: Sys, pid: Pid) {
    pid in s.runs && Effect(s.disk, s.runs[pid], t.disk)
  }

  lemma NextEffect(s: Sys, t: Sys)
    requires Next(s, t)
    ensures t.disk == s.disk || exists pid: Pid :: Steps(s, t, pid)
  {
    hide TurnOf, Effect;
    if pid: Pid, o: Oracle :| pid in s.runs && t == Advance(s, pid, o) {
      TurnEffect(s.disk, s.runs[pid], o);
      assert t.disk == s.disk || Steps(s, t, pid);
    }
  }

  lemma StepGrows(s: Sys, t: Sys)
    requires Next(s, t)
    ensures Grows(s.disk, t.disk)
  {
    hide Next, Effect;
    NextEffect(s, t);
    if t.disk != s.disk {
      var pid: Pid :| Steps(s, t, pid);
      EffectGrows(s.disk, s.runs[pid], t.disk);
    }
  }

  lemma GrowsComposes(a: Disk, b: Disk, c: Disk)
    ensures Grows(a, a)
    ensures Grows(a, b) && Grows(b, c) ==> Grows(a, c)
  {
  }

  /** No journal, plan, event file or result ever goes away, and no plan is changed. */
  lemma {:induction false} HistoryGrows(history: seq<Sys>, i: nat, k: nat)
    requires IsHistory(history) && i <= k < |history|
    ensures Grows(history[i].disk, history[k].disk)
  {
    hide *;
    if i == k {
      GrowsComposes(history[i].disk, history[i].disk, history[i].disk);
    } else {
      HistoryGrows(history, i, k - 1);
      HistoryStep(history, k);
      StepGrows(history[k - 1], history[k]);
      GrowsComposes(history[i].disk, history[k - 1].disk, history[k].disk);
    }
  }

  lemma SubmapSize(a: map<string, BootPhase>, b: map<string, BootPhase>)
    requires forall name :: name in a ==> name in b
    ensures |a| <= |b|
    ensures |a| == |b| ==> a.Keys == b.Keys
  {
    SubsetSize(a.Keys, b.Keys);
  }

  lemma {:induction false} SubsetSize(a: set<string>, b: set<string>)
    requires a <= b
    ensures |a| <= |b|
    ensures |a| == |b| ==> a == b
  {
    if a != {} {
      var x :| x in a;
      SubsetSize(a - {x}, b - {x});
    }
  }

  // ---------------------------------------------------------------- where a file comes from

  // The reading an append of this phase under this number goes back to.
  ghost predicate ReadAt(s: Sys, id: Id, number: nat, phase: BootPhase) {
    && id in s.disk.journals && number == |s.disk.journals[id].events| + 1
    && MayFollow(LatestIn(s.disk.journals[id]), phase)
  }

  ghost predicate WasRead(history: seq<Sys>, k: nat, id: Id, number: nat, phase: BootPhase) {
    exists i: nat :: i < |history| && i <= k && ReadAt(history[i], id, number, phase)
  }

  ghost predicate FileTraced(history: seq<Sys>, k: nat, id: Id, name: string, phase: BootPhase) {
    exists number: nat :: name == EventName(number, phase) && WasRead(history, k, id, number, phase)
                          && k < |history| && id in history[k].disk.journals && number <= |history[k].disk.journals[id].events|
  }

  ghost predicate FilesTraced(history: seq<Sys>, k: nat)
    requires k < |history|
  {
    forall id, name :: id in history[k].disk.journals && name in history[k].disk.journals[id].events ==>
      FileTraced(history, k, id, name, history[k].disk.journals[id].events[name])
  }

  ghost predicate RunsTraced(history: seq<Sys>, k: nat)
    requires k < |history|
  {
    forall pid: Pid :: pid in history[k].runs && history[k].runs[pid].pending.Event? ==>
      var r := history[k].runs[pid];
      r.id in history[k].disk.journals && WasRead(history, k, r.id, r.pending.number, StatusOf(r))
  }

  lemma WasReadLater(history: seq<Sys>, i: nat, k: nat, id: Id, number: nat, phase: BootPhase)
    requires i <= k && WasRead(history, i, id, number, phase)
    ensures WasRead(history, k, id, number, phase)
  {
    hide ReadAt;
  }

  lemma NumberFits(history: seq<Sys>, k: nat, id: Id, number: nat, phase: BootPhase)
    requires IsHistory(history) && k < |history| && WasRead(history, k, id, number, phase)
    ensures id in history[k].disk.journals && 1 <= number <= |history[k].disk.journals[id].events| + 1
  {
    hide IsHistory, MayFollow;
    var i: nat :| i < |history| && i <= k && ReadAt(history[i], id, number, phase);
    HistoryGrows(history, i, k);
    SubmapSize(history[i].disk.journals[id].events, history[k].disk.journals[id].events);
  }

  // What a run comes to stand before it has just checked, and it has changed nothing else.
  ghost predicate Checked(d: Disk, r: Run, t: Turn) {
    t.run.Some? && !t.run.value.pending.Nothing? ==>
      && t.disk == d && r.id in d.journals && t.run.value == r.(pending := t.run.value.pending)
      && (t.run.value.pending.Event? ==>
            && t.run.value.pending.number == |d.journals[r.id].events| + 1
            && MayFollow(LatestIn(d.journals[r.id]), StatusOf(r)))
      && (t.run.value.pending.Result? ==> d.journals[r.id].result.None?)
  }

  lemma AppendsChecked(d: Disk, r: Run, next: Run, o: Oracle)
    requires next.pending.Nothing? && Appending(r.at)
    ensures Checked(d, r, Appends(d, r, EventAt(r.at), next, o))
  {
    assert StatusOf(r) == EventAt(r.at);
    hide EventAt, StatusOf, EventName, MayFollow, LatestIn;
  }

  lemma FailAppendChecked(d: Disk, r: Run, o: Oracle)
    ensures Checked(d, r, FailAppendTurn(d, r, o))
  {
    hide StatusOf, LatestIn, EventName, MayFollow;
  }

  lemma TerminalChecked(d: Disk, r: Run, o: Oracle, failed: Turn)
    requires failed.run.Some? ==> failed.run.value.pending.Nothing?
    ensures Checked(d, r, TerminalTurn(d, r, o, failed))
  {
    hide OutcomeOf, WriteOutcome, LatestIn, MayFollow, StatusOf;
  }

  ghost predicate Idle(t: Turn) {
    t.run.Some? ==> t.run.value.pending.Nothing?
  }

  lemma LooksIdle(d: Disk, r: Run, o: Oracle)
    requires (OnlyLooks(r.at) && !r.at.Choosing?) || r.at.Upgrading?
    requires r.pending.Nothing?
    ensures Idle(TurnOf(d, r, o))
  {
    if r.at.Deciding? {
      WriteIsTurn(d, r, o);
      hide TurnOf;
    } else {
      hide Inspect, LatestIn, DecideTurn;
    }
  }

  lemma ChooseIdle(d: Disk, r: Run, o: Oracle)
    requires r.at.Choosing? && r.pending.Nothing?
    ensures Idle(TurnOf(d, r, o))
  {
    ChooseIsTurn(d, r, o);
    hide TurnOf, SearchRaises, MayResume, Unresolved, CommittedFor;
  }

  lemma PreparesIdle(d: Disk, r: Run, o: Oracle)
    requires r.at.Preparing? || r.at.WritingPlan?
    requires r.pending.Nothing?
    ensures Idle(TurnOf(d, r, o))
  {
  }

  lemma Waits(d: Disk, r: Run, o: Oracle)
    requires RunInv(r, d)
    ensures Checked(d, r, TurnOf(d, r, o))
  {
    assert r.pending.Nothing? || Appending(r.at) || r.at.FailAppending? || r.at.FailResult? || Closing(r.at);
    WriteIsTurn(d, r, o);
    if Appending(r.at) {
      AppendIsTurn(d, r, o);
      AfterEventKeeps(r);
      hide RunInv, TurnOf, Appends, AfterEvent, EventAt, Checked;
      AppendsChecked(d, r, AfterEvent(r), o);
    } else if r.at.FailAppending? {
      hide RunInv, TurnOf, FailAppendTurn, Checked;
      FailAppendChecked(d, r, o);
    } else if r.at.FailResult? || Closing(r.at) {
      hide RunInv, TurnOf, TerminalTurn, Checked;
      TerminalChecked(d, r, o, Fails(d, r));
      TerminalChecked(d, r, o, Turn(d, None));
    } else {
      hide RunInv, TurnOf;
      if r.at.Choosing? { ChooseIdle(d, r, o); }
      else if OnlyLooks(r.at) || r.at.Upgrading? { LooksIdle(d, r, o); }
      else { PreparesIdle(d, r, o); }
    }
  }

  lemma FileStaysTraced(history: seq<Sys>, k: nat, id: Id, name: string, phase: BootPhase)
    requires IsHistory(history) && 0 < k < |history| && FileTraced(history, k - 1, id, name, phase)
    ensures FileTraced(history, k, id, name, phase)
  {
    hide IsHistory, EventName, WasRead;
    var number: nat :| name == EventName(number, phase) && WasRead(history, k - 1, id, number, phase)
                       && number <= |history[k - 1].disk.journals[id].events|;
    WasReadLater(history, k - 1, k, id, number, phase);
    HistoryGrows(history, k - 1, k);
    SubmapSize(history[k - 1].disk.journals[id].events, history[k].disk.journals[id].events);
  }

  lemma FileArrives(history: seq<Sys>, k: nat, id: Id, number: nat, phase: BootPhase)
    requires IsHistory(history) && 0 < k < |history| && WasRead(history, k - 1, id, number, phase)
    requires id in history[k - 1].disk.journals && id in history[k].disk.journals
    requires history[k].disk.journals[id].events == history[k - 1].disk.journals[id].events[EventName(number, phase) := phase]
    requires EventName(number, phase) !in history[k - 1].disk.journals[id].events
    ensures FileTraced(history, k, id, EventName(number, phase), phase)
  {
    hide IsHistory, EventName, WasRead;
    NumberFits(history, k - 1, id, number, phase);
    WasReadLater(history, k - 1, k, id, number, phase);
  }

  lemma FilesGoOn(history: seq<Sys>, k: nat)
    requires IsHistory(history) && 0 < k < |history| && FilesTraced(history, k - 1) && RunsTraced(history, k - 1)
    ensures FilesTraced(history, k)
  {
    hide IsHistory, FileTraced, EventName, Next, WasRead, StatusOf, OutcomeOf;
    var s, t := history[k - 1], history[k];
    HistoryStep(history, k);
    NextEffect(s, t);
    forall id, name | id in t.disk.journals && name in t.disk.journals[id].events
      ensures FileTraced(history, k, id, name, t.disk.journals[id].events[name])
    {
      var phase := t.disk.journals[id].events[name];
      if id in s.disk.journals && name in s.disk.journals[id].events && s.disk.journals[id].events[name] == phase {
        FileStaysTraced(history, k, id, name, phase);
      } else {
        var pid: Pid :| Steps(s, t, pid);
        FileIsWritten(s, t, pid, id, name);
        var r := s.runs[pid];
        if name in s.disk.journals[id].events {
          // The name determines the phase.
          SameNameSamePhase(history, k - 1, id, name, r.pending.number, phase);
          assert false;
        }
        FileArrives(history, k, id, r.pending.number, phase);
      }
    }
  }

  // A file that was not there before is the one the run stood before.
  lemma FileIsWritten(s: Sys, t: Sys, pid: Pid, id: Id, name: string)
    requires Steps(s, t, pid) && id in t.disk.journals && name in t.disk.journals[id].events
    requires id in s.disk.journals && name in s.disk.journals[id].events ==>
               s.disk.journals[id].events[name] != t.disk.journals[id].events[name]
    ensures var r := s.runs[pid];
            && r.pending.Event? && r.id == id && id in s.disk.journals
            && t.disk.journals[id].events[name] == StatusOf(r) && name == EventName(r.pending.number, StatusOf(r))
            && t.disk.journals[id].events == s.disk.journals[id].events[name := StatusOf(r)]
  {
    hide EventName, StatusOf, OutcomeOf;
    if Creates(s.disk, s.runs[pid], t.disk) { CreatesNoFile(s.disk, s.runs[pid], t.disk); }
  }

  lemma CreatesNoFile(d: Disk, r: Run, n: Disk)
    requires Creates(d, r, n)
    ensures forall id, name :: id in n.journals && name in n.journals[id].events ==>
              id in d.journals && n.journals[id] == d.journals[id]
    ensures forall id :: id in d.journals ==> id in n.journals && n.journals[id] == d.journals[id]
  {
    var c :| c !in d.journals && n == Create(d, c);
  }

  lemma SameNameSamePhase(history: seq<Sys>, k: nat, id: Id, name: string, number: nat, phase: BootPhase)
    requires k < |history| && FilesTraced(history, k) && id in history[k].disk.journals
    requires name in history[k].disk.journals[id].events && name == EventName(number, phase)
    ensures history[k].disk.journals[id].events[name] == phase
  {
    hide BootSuffix, WasRead;
    var was := history[k].disk.journals[id].events[name];
    assert FileTraced(history, k, id, name, was);
    var m: nat :| name == EventName(m, was);
    NameTells(m, number, was, phase);
  }

  // A name gives back its number and its phase.
  lemma NameTells(m: nat, n: nat, a: BootPhase, b: BootPhase)
    requires EventName(m, a) == EventName(n, b)
    ensures m == n && a == b
  {
    BootSuffixBegins(a);
    BootSuffixBegins(b);
    EventLog.NameDetermines(m, n, a, b, BootSuffix);
    BootSuffixIsInjective(a, b);
  }

  lemma RunsGoOn(history: seq<Sys>, k: nat)
    requires IsHistory(history) && 0 < k < |history| && RunsTraced(history, k - 1)
    ensures RunsTraced(history, k)
  {
    hide IsHistory, Inv, WasRead, StatusOf, Next;
    var s, t := history[k - 1], history[k];
    HistoryStep(history, k);
    HistoryInv(history, k - 1);
    HistoryGrows(history, k - 1, k);
    forall pid: Pid | pid in t.runs && t.runs[pid].pending.Event?
      ensures t.runs[pid].id in t.disk.journals
              && WasRead(history, k, t.runs[pid].id, t.runs[pid].pending.number, StatusOf(t.runs[pid]))
    {
      var r := t.runs[pid];
      RunComes(s, t, pid);
      if pid in s.runs && s.runs[pid] == r {
        WasReadLater(history, k - 1, k, r.id, r.pending.number, StatusOf(r));
      } else {
        assert ReadAt(history[k - 1], r.id, r.pending.number, StatusOf(r));
        ReadNow(history, k, r.id, r.pending.number, StatusOf(r));
      }
    }
  }

  lemma ReadNow(history: seq<Sys>, k: nat, id: Id, number: nat, phase: BootPhase)
    requires 0 < k < |history| && ReadAt(history[k - 1], id, number, phase)
    ensures WasRead(history, k, id, number, phase)
  {
    hide ReadAt;
  }

  // A run that stands before an append stood there already, or just made the reading.
  lemma RunComes(s: Sys, t: Sys, pid: Pid)
    requires Inv(s) && Next(s, t) && pid in t.runs && t.runs[pid].pending.Event?
    ensures var r := t.runs[pid]; (pid in s.runs && s.runs[pid] == r) || ReadAt(s, r.id, r.pending.number, StatusOf(r))
  {
    hide DiskInv, TurnOf, StatusOf, RunInv, Locked;
    if p: Pid, o: Oracle :| p in s.runs && t == Advance(s, p, o) {
      Waits(s.disk, s.runs[p], o);
      if p == pid && t.runs[pid] != s.runs[pid] { SameStatus(s.runs[pid], t.runs[pid]); }
      hide MayFollow, LatestIn;
    }
  }

  lemma SameStatus(r: Run, q: Run)
    requires q == r.(pending := q.pending)
    ensures StatusOf(q) == StatusOf(r)
  {
  }

  /** Over every history each file goes back to a reading that allowed it, under the number that reading counted. */
  lemma {:induction false} HistoryTraced(history: seq<Sys>, k: nat)
    requires IsHistory(history) && k < |history|
    ensures FilesTraced(history, k) && RunsTraced(history, k)
  {
    if k == 0 {
      hide Next;
    } else {
      hide *;
      HistoryTraced(history, k - 1);
      FilesGoOn(history, k);
      RunsGoOn(history, k);
    }
  }

  // ---------------------------------------------------------------- readings of the same size

  function EventsAt(history: seq<Sys>, k: nat, id: Id): map<string, BootPhase>
    requires k < |history| && id in history[k].disk.journals
  {
    history[k].disk.journals[id].events
  }

  /** A file keeps its content for good. */
  lemma FilesAreKept(history: seq<Sys>, i: nat, k: nat, id: Id)
    requires IsHistory(history) && i <= k < |history| && id in history[i].disk.journals
    ensures id in history[k].disk.journals
    ensures forall name :: name in EventsAt(history, i, id) ==>
              name in EventsAt(history, k, id) && EventsAt(history, k, id)[name] == EventsAt(history, i, id)[name]
    ensures |EventsAt(history, i, id)| <= |EventsAt(history, k, id)|
    ensures |EventsAt(history, i, id)| == |EventsAt(history, k, id)| ==> EventsAt(history, i, id) == EventsAt(history, k, id)
  {
    hide IsHistory, FilesTraced, RunsTraced;
    HistoryGrows(history, i, k);
    HistoryTraced(history, i);
    HistoryTraced(history, k);
    var was, now := EventsAt(history, i, id), EventsAt(history, k, id);
    forall name | name in was ensures name in now && now[name] == was[name] {
      FileIsKept(history, i, k, id, name);
    }
    hide Grows;
    SubmapSize(was, now);
  }

  lemma FileIsKept(history: seq<Sys>, i: nat, k: nat, id: Id, name: string)
    requires i <= k < |history| && FilesTraced(history, i) && FilesTraced(history, k)
    requires id in history[i].disk.journals && id in history[k].disk.journals
    requires name in EventsAt(history, i, id) && name in EventsAt(history, k, id)
    ensures EventsAt(history, k, id)[name] == EventsAt(history, i, id)[name]
  {
    hide EventName, WasRead;
    var was := EventsAt(history, i, id)[name];
    assert FileTraced(history, i, id, name, was);
    var m: nat :| name == EventName(m, was);
    SameNameSamePhase(history, k, id, name, m, was);
  }

  // Two readings that counted the same number of files read the same files.
  lemma SameReading(history: seq<Sys>, k: nat, id: Id, number: nat, a: BootPhase, b: BootPhase) returns (latest: Option<BootPhase>)
    requires IsHistory(history) && WasRead(history, k, id, number, a) && WasRead(history, k, id, number, b)
    ensures MayFollow(latest, a) && MayFollow(latest, b)
  {
    hide IsHistory, MayFollow;
    var i: nat :| i < |history| && i <= k && ReadAt(history[i], id, number, a);
    var n: nat :| n < |history| && n <= k && ReadAt(history[n], id, number, b);
    if i <= n { FilesAreKept(history, i, n, id); } else { FilesAreKept(history, n, i, id); }
    latest := LatestIn(history[i].disk.journals[id]);
  }

  lemma FileWasRead(history: seq<Sys>, k: nat, id: Id, number: nat, phase: BootPhase)
    requires IsHistory(history) && k < |history| && id in history[k].disk.journals
    requires EventName(number, phase) in EventsAt(history, k, id)
    ensures WasRead(history, k, id, number, phase) && EventsAt(history, k, id)[EventName(number, phase)] == phase
    ensures number <= |EventsAt(history, k, id)|
  {
    HistoryTraced(history, k);
    hide IsHistory, EventName, WasRead;
    var name := EventName(number, phase);
    var was := EventsAt(history, k, id)[name];
    assert FileTraced(history, k, id, name, was);
    var m: nat :| name == EventName(m, was) && WasRead(history, k, id, m, was) && m <= |EventsAt(history, k, id)|;
    NameTells(m, number, was, phase);
  }

  /** The number an append counts is always free: its guard against a collision never fires at the check. */
  lemma CollisionNeverFires(history: seq<Sys>, k: nat, id: Id, phase: BootPhase)
    requires IsHistory(history) && k < |history| && id in history[k].disk.journals
    ensures EventName(|EventsAt(history, k, id)| + 1, phase) !in EventsAt(history, k, id)
    ensures MayLog(history[k].disk.journals[id], phase) <==> MayFollow(LatestIn(history[k].disk.journals[id]), phase)
  {
    hide IsHistory, EventName, MayFollow, LatestIn;
    var number := |EventsAt(history, k, id)| + 1;
    if EventName(number, phase) in EventsAt(history, k, id) { FileWasRead(history, k, id, number, phase); }
  }

  // ---------------------------------------------------------------- when the log is a path

  // No two files carry one number.
  ghost predicate OneEach(events: map<string, BootPhase>) {
    forall number: nat, a, b :: EventName(number, a) in events && EventName(number, b) in events ==> a == b
  }

  ghost predicate IsBootPath(log: seq<BootPhase>) {
    EventLog.IsPathOf(log, BootPlanned, BootLegal)
  }

  ghost predicate LogIsPath(events: map<string, BootPhase>) {
    IsBootPath(EventLog.Listing(events))
  }

  lemma PathIsShort(log: seq<BootPhase>)
    requires IsBootPath(log)
    ensures |log| <= 7
  {
    EventLog.PathIsShort(log, BootPlanned, BootLegal, BootRank, 6);
  }

  lemma FilesOfLog(log: seq<BootPhase>)
    requires IsBootPath(log)
    ensures EventLog.Listing(EventLog.FilesOf(log, BootSuffix)) == log && |EventLog.FilesOf(log, BootSuffix)| == |log|
    ensures forall i :: 0 <= i < |log| ==> EventName(i + 1, log[i]) in EventLog.FilesOf(log, BootSuffix)
  {
    PathIsShort(log);
    hide IsBootPath, BootSuffix, EventLog.Listing, EventLog.FilesOf, EventLog.FileName;
    EventLog.ListingOfLog(log, BootSuffix);
    EventLog.ListingLength(EventLog.FilesOf(log, BootSuffix));
    EventLog.FilesAreNamed(log, BootSuffix);
  }

  // One more file, under the number after the last, on the reading it was checked against.
  lemma FreshFile(log: seq<BootPhase>, phase: BootPhase)
    requires IsBootPath(log) && MayFollow(EventLog.LatestOf(EventLog.FilesOf(log, BootSuffix)), phase)
    ensures IsBootPath(log + [phase])
    ensures EventLog.FilesOf(log + [phase], BootSuffix) ==
            EventLog.FilesOf(log, BootSuffix)[EventName(|log| + 1, phase) := phase]
  {
    FilesOfLog(log);
    hide BootSuffix, EventLog.FilesOf, EventLog.IsPathOf, EventLog.Listing, EventLog.FileName, BootLegal;
    EventLog.OneMore(log, phase, BootPlanned, BootLegal, BootSuffix);
  }

  // The run writes the event it stood before into this journal.
  ghost predicate LogsTo(s: Sys, t: Sys, pid: Pid, id: Id) {
    && pid in s.runs && s.runs[pid].pending.Event? && s.runs[pid].id == id
    && id in s.disk.journals && id in t.disk.journals
    && t.disk.journals[id].events ==
       s.disk.journals[id].events[EventName(s.runs[pid].pending.number, StatusOf(s.runs[pid])) := StatusOf(s.runs[pid])]
  }

  lemma EventsStep(s: Sys, t: Sys, id: Id)
    requires Next(s, t) && id in t.disk.journals
    ensures id !in s.disk.journals ==> t.disk.journals[id].events == map[]
    ensures id in s.disk.journals && t.disk.journals[id].events != s.disk.journals[id].events ==>
              exists pid: Pid :: LogsTo(s, t, pid, id)
  {
    NextEffect(s, t);
    if t.disk != s.disk {
      hide Next, EventName, StatusOf, OutcomeOf;
      var pid: Pid :| Steps(s, t, pid);
      if Creates(s.disk, s.runs[pid], t.disk) {
        var c :| c !in s.disk.journals && t.disk == Create(s.disk, c);
      } else if Logs(s.disk, s.runs[pid], t.disk) {
        assert s.runs[pid].id == id ==> LogsTo(s, t, pid, id);
      }
    }
  }

  // A path log, and a later file under a number of its own.
  lemma NewFileIsFresh(history: seq<Sys>, k: nat, id: Id, pid: Pid, log: seq<BootPhase>)
    requires IsHistory(history) && 0 < k < |history| && LogsTo(history[k - 1], history[k], pid, id)
    requires IsBootPath(log) && EventsAt(history, k - 1, id) == EventLog.FilesOf(log, BootSuffix)
    requires OneEach(EventsAt(history, k, id)) && EventsAt(history, k, id) != EventsAt(history, k - 1, id)
    ensures var phase := StatusOf(history[k - 1].runs[pid]);
            IsBootPath(log + [phase]) && EventsAt(history, k, id) == EventLog.FilesOf(log + [phase], BootSuffix)
  {
    hide IsHistory, EventName, IsBootPath, OneEach, LogsTo, StatusOf, EventLog.FilesOf, EventLog.Listing, MayFollow, WasRead, EventLog.LatestOf;
    RunWasRead(history, k, id, pid);
    var r := history[k - 1].runs[pid];
    NumberFits(history, k - 1, id, r.pending.number, StatusOf(r));
    FilesOfLog(log);
    NumberIsNext(history, k, id, r.pending.number, StatusOf(r), log);
    ReadingIsNow(history, k - 1, id, r.pending.number, StatusOf(r));
    FreshFile(log, StatusOf(r));
  }

  lemma RunWasRead(history: seq<Sys>, k: nat, id: Id, pid: Pid)
    requires IsHistory(history) && 0 < k < |history| && LogsTo(history[k - 1], history[k], pid, id)
    ensures pid in history[k - 1].runs && history[k - 1].runs[pid].pending.Event?
    ensures id in history[k - 1].disk.journals && id in history[k].disk.journals
    ensures var r := history[k - 1].runs[pid];
            && WasRead(history, k - 1, id, r.pending.number, StatusOf(r))
            && EventsAt(history, k, id) == EventsAt(history, k - 1, id)[EventName(r.pending.number, StatusOf(r)) := StatusOf(r)]
  {
    HistoryTraced(history, k - 1);
    hide IsHistory, WasRead, StatusOf, EventName, FilesTraced;
  }

  // Every number up to the last is taken by the log, so a file that keeps numbers apart has the next one.
  lemma NumberIsNext(history: seq<Sys>, k: nat, id: Id, number: nat, phase: BootPhase, log: seq<BootPhase>)
    requires IsHistory(history) && 0 < k < |history| && id in history[k - 1].disk.journals && id in history[k].disk.journals
    requires var events := EventsAt(history, k - 1, id);
             && 1 <= number <= |events| + 1 && |events| == |log|
             && (forall i :: 0 <= i < |log| ==> EventName(i + 1, log[i]) in events)
             && EventsAt(history, k, id) == events[EventName(number, phase) := phase]
    requires OneEach(EventsAt(history, k, id)) && EventsAt(history, k, id) != EventsAt(history, k - 1, id)
    ensures number == |log| + 1
  {
    hide IsHistory, EventName, WasRead;
    if number <= |log| {
      var there := log[number - 1];
      assert EventName(number - 1 + 1, there) in EventsAt(history, k - 1, id);
      assert EventName(number, phase) in EventsAt(history, k, id);
      assert there == phase;
      FileWasRead(history, k - 1, id, number, there);
    }
  }

  // A reading that counted as many files as there are now read these very files.
  lemma ReadingIsNow(history: seq<Sys>, k: nat, id: Id, number: nat, phase: BootPhase)
    requires IsHistory(history) && k < |history| && WasRead(history, k, id, number, phase)
    requires id in history[k].disk.journals && number == |EventsAt(history, k, id)| + 1
    ensures MayFollow(EventLog.LatestOf(EventsAt(history, k, id)), phase)
  {
    hide IsHistory, MayFollow, EventLog.LatestOf;
    var i: nat :| i < |history| && i <= k && ReadAt(history[i], id, number, phase);
    FilesAreKept(history, i, k, id);
  }

  lemma OneEachBefore(history: seq<Sys>, i: nat, k: nat, id: Id)
    requires IsHistory(history) && i <= k < |history| && id in history[i].disk.journals && id in history[k].disk.journals
    requires OneEach(EventsAt(history, k, id))
    ensures OneEach(EventsAt(history, i, id))
  {
    hide IsHistory, EventName;
    FilesAreKept(history, i, k, id);
    var was, now := EventsAt(history, i, id), EventsAt(history, k, id);
    hide EventsAt;
    assert forall name :: name in was ==> name in now;
  }

  lemma EmptyLog()
    ensures IsBootPath([]) && EventLog.FilesOf<BootPhase>([], BootSuffix) == map[]
  {
  }

  lemma NoJournalAtFirst(history: seq<Sys>)
    requires IsHistory(history)
    ensures history[0].disk.journals == map[]
  {
    hide Next;
  }

  lemma {:induction false} OneEachIsPath(history: seq<Sys>, k: nat, id: Id) returns (log: seq<BootPhase>)
    requires IsHistory(history) && k < |history| && id in history[k].disk.journals && OneEach(EventsAt(history, k, id))
    ensures IsBootPath(log) && EventsAt(history, k, id) == EventLog.FilesOf(log, BootSuffix)
  {
    NoJournalAtFirst(history);
    EmptyLog();
    hide IsHistory, EventName, Next, IsBootPath, OneEach, EventLog.FilesOf, BootSuffix, LogsTo;
    if k > 0 {
      var s, t := history[k - 1], history[k];
      HistoryStep(history, k);
      EventsStep(s, t, id);
      log := [];
      if id in s.disk.journals {
        OneEachBefore(history, k - 1, k, id);
        log := OneEachIsPath(history, k - 1, id);
        if EventsAt(history, k, id) != EventsAt(history, k - 1, id) {
          var pid: Pid :| LogsTo(s, t, pid, id);
          NewFileIsFresh(history, k, id, pid, log);
          log := log + [StatusOf(s.runs[pid])];
        }
      }
    }
  }

  // In every state: siblings under one number never follow in the order of their names.
  lemma SiblingsDoNotFollow(history: seq<Sys>, k: nat, id: Id)
    requires IsHistory(history) && k < |history| && id in history[k].disk.journals
    ensures EventLog.NoneFollows(EventsAt(history, k, id), BootSuffix, BootLegal)
  {
    hide IsHistory, BootLegal, BootSuffix, EventLog.FileName, Less, WasRead;
    var events := EventsAt(history, k, id);
    forall m: nat, x, y | EventLog.FileName(m, x, BootSuffix) in events && EventLog.FileName(m, y, BootSuffix) in events
                          && Less(BootSuffix(x), BootSuffix(y))
      ensures !BootLegal(x, y)
    {
      assert EventName(m, x) in events && EventName(m, y) in events;
      FileWasRead(history, k, id, m, x);
      FileWasRead(history, k, id, m, y);
      var latest := SameReading(history, k, id, m, x, y);
      LessIrreflexive(BootSuffix(x));
      if latest.Some? { SiblingsNeverFollow(latest.value, x, y); }
    }
  }

  lemma NumbersAreSmall(history: seq<Sys>, k: nat, id: Id)
    requires IsHistory(history) && k < |history| && id in history[k].disk.journals && |EventsAt(history, k, id)| < 10000
    ensures EventLog.Numbered(EventsAt(history, k, id), BootSuffix)
  {
    HistoryTraced(history, k);
    hide IsHistory, EventLog.FileName, WasRead;
    var events := EventsAt(history, k, id);
    forall name | name in events ensures exists m: nat :: m < 10000 && name == EventLog.FileName(m, events[name], BootSuffix) {
      assert FileTraced(history, k, id, name, events[name]);
    }
  }

  lemma SharedNumberIsNoPath(history: seq<Sys>, k: nat, id: Id, number: nat, a: BootPhase, b: BootPhase)
    requires IsHistory(history) && k < |history| && id in history[k].disk.journals
    requires EventName(number, a) in EventsAt(history, k, id) && EventName(number, b) in EventsAt(history, k, id)
    requires Less(BootSuffix(a), BootSuffix(b))
    ensures !LogIsPath(EventsAt(history, k, id))
  {
    var events := EventsAt(history, k, id);
    hide IsHistory, BootSuffix, BootLegal, EventLog.FileName, EventLog.Listing, EventLog.Numbered, EventLog.NoneFollows, Less, WasRead;
    EventLog.ListingLength(events);
    FileWasRead(history, k, id, number, a);
    FileWasRead(history, k, id, number, b);
    if LogIsPath(events) {
      PathIsShort(EventLog.Listing(events));
      NumbersAreSmall(history, k, id);
      SiblingsDoNotFollow(history, k, id);
      EventLog.SameNumberOrder(number, a, b, BootSuffix);
      EventLog.SharedNumberBreaks(events, BootSuffix, BootPlanned, BootLegal, EventName(number, a), EventName(number, b), number);
    }
  }

  /** In every state of every history: what the sorted listing reads is a path of the phase table exactly when no two
      files of the journal carry one number. */
  lemma LogIsPathIff(history: seq<Sys>, k: nat, id: Id)
    requires IsHistory(history) && k < |history| && id in history[k].disk.journals
    ensures LogIsPath(EventsAt(history, k, id)) <==> OneEach(EventsAt(history, k, id))
  {
    var events := EventsAt(history, k, id);
    if OneEach(events) {
      hide IsHistory, EventName, OneEach, IsBootPath;
      var log := OneEachIsPath(history, k, id);
      FilesOfLog(log);
    } else if LogIsPath(events) {
      hide IsHistory, EventName, LogIsPath;
      var number: nat, a, b :| EventName(number, a) in events && EventName(number, b) in events && a != b;
      LessTotal(BootSuffix(a), BootSuffix(b));
      if Less(BootSuffix(a), BootSuffix(b)) { SharedNumberIsNoPath(history, k, id, number, a, b); }
      else if Less(BootSuffix(b), BootSuffix(a)) { SharedNumberIsNoPath(history, k, id, number, b, a); }
      else { BootSuffixIsInjective(a, b); }
    }
  }
}
