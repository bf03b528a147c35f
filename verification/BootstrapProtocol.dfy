/** The initial database bootstrap: runs that create, resume or recognise a journal, each step of which may be
    the last. The failure handler runs after the rollout lock was released, beside whatever runs next; so appending
    an event and writing a result are two steps each, the check and the write. */
module BootstrapProtocol {
  import opened Wrappers
  import opened Phases
  import EventLog

  type Id = string
  type Pid = nat

  datatype Identity = Identity(
    project: string, revision: string, heads: set<string>, manifest: string, image: string,
    overlay: string, contract: int)

  datatype Outcome = Outcome(status: BootPhase, revision: string, heads: set<string>)

  // The events are files by name; the log is what their sorted listing reads.
  datatype Journal = Journal(plan: Option<Identity>, events: map<string, BootPhase>, result: Option<Outcome>)

  // What the database really holds, and what an inspection can make of it.
  datatype Database = Empty | Heads(heads: set<string>) | Dirty

  datatype Freshness = Uninitialized | Initialized(heads: set<string>) | Unclear

  datatype Disk = Disk(journals: map<Id, Journal>, live: Database)

  // An inspection that does not end in an error or in doubt reports what is there.
  function Inspect(live: Database, clear: bool): Freshness {
    if !clear || live.Dirty? then Unclear
    else if live.Empty? then Uninitialized
    else Initialized(live.heads)
  }

  function EventName(number: nat, phase: BootPhase): string {
    EventLog.FileName(number, phase, BootSuffix)
  }

  function LatestIn(j: Journal): Option<BootPhase> {
    EventLog.LatestOf(j.events)
  }

  predicate MayFollow(latest: Option<BootPhase>, phase: BootPhase) {
    if latest.None? then phase == BootPlanned else BootLegal(latest.value, phase)
  }

  // The check before an append: the table allows the phase and its name is free.
  predicate MayLog(j: Journal, phase: BootPhase) {
    MayFollow(LatestIn(j), phase) && EventName(|j.events| + 1, phase) !in j.events
  }

  // ---------------------------------------------------------------- finding journals

  predicate Blocks(j: Journal) {
    j.result.None? || j.result.value.status == BootRequiresRecovery
  }

  predicate Unresolved(journals: map<Id, Journal>, id: Id) {
    id in journals && Blocks(journals[id])
  }

  predicate IsCommitted(j: Journal) {
    j.result.Some? && j.result.value.status == BootCommitted
  }

  // The same project and revision; a committed journal must then match in every other field as well.
  predicate SameRelease(a: Identity, b: Identity) {
    a.project == b.project && a.revision == b.revision
  }

  predicate CommittedFor(journals: map<Id, Journal>, id: Id, identity: Identity) {
    && id in journals && IsCommitted(journals[id])
    && (journals[id].plan.Some? ==> SameRelease(journals[id].plan.value, identity))
  }

  predicate Matches(j: Journal, identity: Identity) {
    && j.plan == Some(identity) && IsCommitted(j)
    && j.result.value.revision == identity.revision && j.result.value.heads == identity.heads
  }

  // The search for a committed journal raises over one that matches only in part, and over two that match.
  ghost predicate SearchRaises(journals: map<Id, Journal>, identity: Identity) {
    || (exists id :: CommittedFor(journals, id, identity) && !Matches(journals[id], identity))
    || (exists a, b :: CommittedFor(journals, a, identity) && CommittedFor(journals, b, identity) && a != b)
  }

  method FindUnresolvedBootstraps(children: seq<Id>, journals: map<Id, Journal>) returns (unresolved: seq<Id>)
    requires forall id :: id in children <==> id in journals
    ensures forall id :: id in unresolved <==> Unresolved(journals, id)
  {
    unresolved := [];
    for i := 0 to |children|
      invariant forall id :: id in unresolved <==> id in children[..i] && Unresolved(journals, id)
    {
      var child := children[i];
      if Blocks(journals[child]) {
        unresolved := unresolved + [child];
      }
    }
  }

  method FindMatchingCommittedBootstrap(children: seq<Id>, journals: map<Id, Journal>, identity: Identity)
    returns (r: Result<Option<Id>, string>)
    requires forall id :: id in children <==> id in journals
    requires forall i, k :: 0 <= i < k < |children| ==> children[i] != children[k]
    ensures r.Err? <==> SearchRaises(journals, identity)
    ensures r.Ok? ==> forall id :: CommittedFor(journals, id, identity) <==> r.value == Some(id)
  {
    var matches := [];
    for i := 0 to |children|
      invariant forall id :: id in matches <==> id in children[..i] && CommittedFor(journals, id, identity)
      invariant forall id :: id in matches ==> Matches(journals[id], identity)
      invariant forall a, b :: 0 <= a < b < |matches| ==> matches[a] != matches[b]
    {
      var child := children[i];
      assert child !in children[..i];
      if CommittedFor(journals, child, identity) {
        if !Matches(journals[child], identity) {
          return Err("committed bootstrap journal matches project/revision but not the exact identity");
        }
        matches := matches + [child];
      }
    }
    if |matches| > 1 {
      assert CommittedFor(journals, matches[0], identity) && CommittedFor(journals, matches[1], identity);
      return Err("multiple committed bootstrap journals for the same identity");
    }
    if |matches| == 1 {
      return Ok(Some(matches[0]));
    }
    return Ok(None);
  }

  // ---------------------------------------------------------------- one run

  datatype At =
    | WantLock | Inspecting | Choosing | Preparing | WritingPlan
    | AppendingPlanned | ReadingLatest | StartingPostgres | AppendingPostgres | Reinspecting | Deciding
    | KnownVerified | KnownCommitted | WritingKnown
    | AppendingFresh | AppendingSchema | Upgrading | AppendingCompleted | Probing
    | AppendingVerified | AppendingCommitted | WritingResult
    | FailAppending | FailResult

  // What a run has checked and is about to write: an event under the number it counted, or a result.
  datatype Pending = Nothing | Event(number: nat) | Result

  datatype Run = Run(
    at: At, identity: Identity, id: Id, writable: bool, resumed: bool, found: bool, healthy: bool,
    latest: Option<BootPhase>, seen: Freshness, schema: bool, pending: Pending)

  datatype Sys = Sys(disk: Disk, lock: Option<Pid>, runs: map<Pid, Run>)

  predicate Locked(r: Run) {
    !r.at.WantLock? && !r.at.FailAppending? && !r.at.FailResult?
  }

  // How a call ends; Torn means its effect took place and it raised all the same.
  datatype Ending = Done | Torn | Raised

  datatype Oracle = Oracle(ending: Ending, pick: Id, clear: bool, healthy: bool, after: Database)

  datatype Turn = Turn(disk: Disk, run: Option<Run>)

  // ---------------------------------------------------------------- durable effects

  function Create(d: Disk, id: Id): Disk {
    d.(journals := d.journals[id := Journal(None, map[], None)])
  }

  function WritePlan(d: Disk, id: Id, plan: Identity): Disk
    requires id in d.journals
  {
    d.(journals := d.journals[id := d.journals[id].(plan := Some(plan))])
  }

  function WriteEvent(d: Disk, id: Id, number: nat, phase: BootPhase): Disk
    requires id in d.journals
  {
    d.(journals := d.journals[id := d.journals[id].(events := d.journals[id].events[EventName(number, phase) := phase])])
  }

  function WriteOutcome(d: Disk, id: Id, outcome: Outcome): Disk
    requires id in d.journals
  {
    d.(journals := d.journals[id := d.journals[id].(result := Some(outcome))])
  }

  // ---------------------------------------------------------------- steps

  // Raising hands over to the handler, which writes only into a journal this run may change.
  function Fails(d: Disk, r: Run): Turn {
    if r.writable then Turn(d, Some(r.(at := FailAppending, pending := Nothing))) else Turn(d, None)
  }

  function Goes(d: Disk, r: Run, at: At): Turn {
    Turn(d, Some(r.(at := at)))
  }

  // A check or a call without durable effect on the journals.
  function Calls(d: Disk, r: Run, at: At, o: Oracle): Turn {
    if o.ending == Done then Goes(d, r, at) else Fails(d, r)
  }

  function Writes(d: Disk, written: Disk, r: Run, next: Run, o: Oracle): Turn {
    match o.ending
    case Done => Turn(written, Some(next))
    case Torn => Fails(written, r)
    case Raised => Fails(d, r)
  }

  function Appends(d: Disk, r: Run, phase: BootPhase, next: Run, o: Oracle): Turn {
    if r.id !in d.journals then Fails(d, r)
    else if r.pending.Event? then Writes(d, WriteEvent(d, r.id, r.pending.number, phase), r, next, o)
    else if !MayLog(d.journals[r.id], phase) || o.ending != Done then Fails(d, r)
    else Turn(d, Some(r.(pending := Event(|d.journals[r.id].events| + 1))))
  }

  ghost predicate MayResume(d: Disk, r: Run, id: Id) {
    && Unresolved(d.journals, id) && d.journals[id].plan == Some(r.identity)
    && (forall other :: Unresolved(d.journals, other) ==> other == id)
  }

  ghost function ChooseTurn(d: Disk, r: Run, o: Oracle): Turn {
    if SearchRaises(d.journals, r.identity) || o.ending != Done then Turn(d, None)
    else if exists id :: Unresolved(d.journals, id) then
      if !(exists id :: MayResume(d, r, id)) then Turn(d, None)
      else
        var id :| MayResume(d, r, id);
        Turn(d, Some(r.(at := ReadingLatest, id := id, writable := true, resumed := true)))
    else if exists id :: CommittedFor(d.journals, id, r.identity) then
      var id :| CommittedFor(d.journals, id, r.identity);
      Turn(d, Some(r.(at := ReadingLatest, id := id, found := true)))
    else if r.seen != Uninitialized then Turn(d, None)
    else Goes(d, r, Preparing)
  }

  // The directory is not remembered before the call that creates it returns.
  function PrepareTurn(d: Disk, r: Run, o: Oracle): Turn {
    if o.pick in d.journals || o.ending == Raised then Turn(d, None)
    else if o.ending == Torn then Turn(Create(d, o.pick), None)
    else Turn(Create(d, o.pick), Some(r.(at := WritingPlan, id := o.pick, writable := true)))
  }

  function LatestTurn(d: Disk, r: Run): Turn {
    var latest := if r.id in d.journals then LatestIn(d.journals[r.id]) else None;
    Goes(d, r.(latest := latest), if r.healthy then Deciding else StartingPostgres)
  }

  function DecideTurn(d: Disk, r: Run, o: Oracle): Turn {
    if r.seen == Initialized(r.identity.heads) then
      if (!r.found && !r.resumed) || o.ending != Done then Fails(d, r)
      else if !r.writable then Turn(d, None)
      else if r.latest == Some(BootPlanned) || r.latest == Some(PostgresStarted) then Goes(d, r, KnownVerified)
      else Goes(d, r, if r.latest == Some(FreshnessVerified) then KnownCommitted else WritingKnown)
    else if r.found || r.seen != Uninitialized || o.ending != Done then Fails(d, r)
    else if r.latest == Some(BootPlanned) || r.latest == Some(PostgresStarted) then Goes(d, r, AppendingFresh)
    else if r.latest == Some(FreshnessVerified) then Goes(d, r, AppendingSchema)
    else Goes(d, r, Upgrading)
  }

  // What the run would write: its outcome is the status together with its own identity.
  function StatusOf(r: Run): BootPhase {
    match r.at
    case FailAppending => if r.schema then BootRequiresRecovery else BootFailed
    case FailResult => if r.schema then BootRequiresRecovery else BootFailed
    case WritingKnown => BootCommitted
    case WritingResult => BootCommitted
    case _ => EventAt(r.at)
  }

  function OutcomeOf(r: Run): Outcome {
    Outcome(StatusOf(r), r.identity.revision, r.identity.heads)
  }

  // A result that is seen is left as it is, and the call returns.
  function TerminalTurn(d: Disk, r: Run, o: Oracle, failed: Turn): Turn {
    if r.id !in d.journals || o.ending == Raised then failed
    else if r.pending.Result? then
      var written := WriteOutcome(d, r.id, OutcomeOf(r));
      if o.ending == Torn then failed.(disk := written) else Turn(written, None)
    else if o.ending == Torn then failed
    else if d.journals[r.id].result.Some? then Turn(d, None)
    else Turn(d, Some(r.(pending := Result)))
  }

  // The handler swallows what the journal refuses and goes on to the result; any other error ends it. The append
  // tests for its name once more before it writes.
  function FailAppendTurn(d: Disk, r: Run, o: Oracle): Turn {
    var onward := Some(r.(at := FailResult, pending := Nothing));
    if r.id !in d.journals then Turn(d, None)
    else if r.pending.Event? then
      var collides := EventName(r.pending.number, StatusOf(r)) in d.journals[r.id].events;
      match o.ending
      case Raised => Turn(d, if collides && o.clear then onward else None)
      case Torn => Turn(WriteEvent(d, r.id, r.pending.number, StatusOf(r)), None)
      case Done => Turn(WriteEvent(d, r.id, r.pending.number, StatusOf(r)), onward)
    else if LatestIn(d.journals[r.id]).None? || !MayLog(d.journals[r.id], StatusOf(r)) then Turn(d, onward)
    else if o.ending != Done then Turn(d, None)
    else Turn(d, Some(r.(pending := Event(|d.journals[r.id].events| + 1))))
  }

  predicate Appending(at: At) {
    at.AppendingPlanned? || at.AppendingPostgres? || at.KnownVerified? || at.KnownCommitted? || at.AppendingFresh?
    || at.AppendingSchema? || at.AppendingCompleted? || at.AppendingVerified? || at.AppendingCommitted?
  }

  function EventAt(at: At): BootPhase {
    match at
    case AppendingPostgres => PostgresStarted
    case KnownVerified => FreshnessVerified
    case KnownCommitted => BootCommitted
    case AppendingFresh => FreshnessVerified
    case AppendingSchema => SchemaStarted
    case AppendingCompleted => SchemaCompleted
    case AppendingVerified => BootHeadsVerified
    case AppendingCommitted => BootCommitted
    case _ => BootPlanned
  }

  function NextAt(at: At): At {
    match at
    case AppendingPostgres => Reinspecting
    case KnownVerified => KnownCommitted
    case KnownCommitted => WritingKnown
    case AppendingFresh => AppendingSchema
    case AppendingSchema => Upgrading
    case AppendingCompleted => Probing
    case AppendingVerified => AppendingCommitted
    case AppendingCommitted => WritingResult
    case _ => ReadingLatest
  }

  // Four of the appends also update the run's own idea of the latest status.
  function AfterEvent(r: Run): Run {
    var tracks := r.at.AppendingPostgres? || r.at.KnownVerified? || r.at.AppendingFresh? || r.at.AppendingSchema?;
    r.(at := NextAt(r.at), pending := Nothing, latest := if tracks then Some(EventAt(r.at)) else r.latest)
  }

  ghost function TurnOf(d: Disk, r: Run, o: Oracle): Turn {
    match r.at
    case WantLock => if o.ending == Done then Goes(d, r, Inspecting) else Turn(d, None)
    case Inspecting => Calls(d, r.(seen := Inspect(d.live, o.clear), healthy := o.healthy), Choosing, o)
    case Choosing => ChooseTurn(d, r, o)
    case Preparing => PrepareTurn(d, r, o)
    case WritingPlan =>
      if r.id !in d.journals || d.journals[r.id].plan.Some? then Fails(d, r)
      else Writes(d, WritePlan(d, r.id, r.identity), r, r.(at := AppendingPlanned), o)
    case ReadingLatest => LatestTurn(d, r)
    case StartingPostgres =>
      Calls(d, r, if r.writable && (r.latest.None? || r.latest == Some(BootPlanned)) then AppendingPostgres
                  else Reinspecting, o)
    case Reinspecting => Calls(d, r.(seen := Inspect(d.live, o.clear)), Deciding, o)
    case Deciding => DecideTurn(d, r, o)
    case WritingKnown => TerminalTurn(d, r, o, Fails(d, r))
    case Upgrading =>
      Calls(d.(live := o.after), r.(schema := true), if r.latest == Some(SchemaStarted) then AppendingCompleted else Probing, o)
    case Probing =>
      if d.live == Heads(r.identity.heads) then Calls(d, r, AppendingVerified, o) else Fails(d, r)
    case WritingResult => TerminalTurn(d, r, o, Fails(d, r))
    case FailAppending => FailAppendTurn(d, r, o)
    case FailResult => TerminalTurn(d, r, o, Turn(d, None))
    case _ => Appends(d, r, EventAt(r.at), AfterEvent(r), o)
  }

  // ---------------------------------------------------------------- the whole system

  function LockAfter(lock: Option<Pid>, pid: Pid, needs: bool): Option<Pid> {
    if needs then Some(pid) else if lock == Some(pid) then None else lock
  }

  ghost function Advance(s: Sys, pid: Pid, o: Oracle): Sys
    requires pid in s.runs
  {
    var turn := TurnOf(s.disk, s.runs[pid], o);
    var needs := turn.run.Some? && Locked(turn.run.value);
    if needs && s.lock.Some? && s.lock.value != pid then s
    else Sys(turn.disk, LockAfter(s.lock, pid, needs),
             if turn.run.Some? then s.runs[pid := turn.run.value] else s.runs - {pid})
  }

  function Crash(s: Sys, pid: Pid): Sys {
    Sys(s.disk, LockAfter(s.lock, pid, false), s.runs - {pid})
  }

  function Begin(identity: Identity): Run {
    Run(WantLock, identity, "", false, false, false, false, None, Unclear, false, Nothing)
  }

  // A release without Alembic heads is refused before the lock is taken.
  ghost predicate Next(s: Sys, t: Sys) {
    || (exists pid: Pid, identity: Identity :: pid !in s.runs && identity.heads != {}
                                               && t == s.(runs := s.runs[pid := Begin(identity)]))
    || (exists pid: Pid :: pid in s.runs && t == Crash(s, pid))
    || (exists pid: Pid, o: Oracle :: pid in s.runs && t == Advance(s, pid, o))
  }

  ghost predicate Init(s: Sys) {
    s.disk.journals == map[] && s.lock.None? && s.runs == map[]
  }

  ghost predicate StepAt(history: seq<Sys>, k: nat)
    requires 0 < k < |history|
  {
    Next(history[k - 1], history[k])
  }

  ghost predicate IsHistory(history: seq<Sys>) {
    && history != [] && Init(history[0])
    && forall k: nat :: 0 < k < |history| ==> StepAt(history, k)
  }
}
