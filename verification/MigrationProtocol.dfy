/** Verified migration, recovery and prune as interleaved processes over shared durable state.
    Every durable write is one step, and a process may crash between any two steps. */
module MigrationProtocol {
  import opened Wrappers
  import opened Phases
  import opened CurrentState

  type Id = string
  type Pid = nat

  // ---------------------------------------------------------------- durable state

  // SHA-256 identifies the exact bytes; the writer indents, the planner hashes a compact rendering.
  datatype Digest = OfIndented(doc: Current) | OfCompact(doc: Current)

  datatype Plan = Plan(
    source: set<string>, target: set<string>, release: string, contract: string,
    graph: string, base: Digest, expected: Digest)

  datatype Action = AcceptSource | AcceptTarget | ReleaseHold

  datatype Journal = Journal(
    plan: Option<Plan>, log: seq<Phase>, result: Option<Phase>, resolution: Option<Action>)

  datatype Hold = Hold(migration: Id, backup: Id, heads: set<string>, graph: string, released: bool)

  // `begun` is a history variable: the migrations Alembic has been invoked for.
  datatype Disk = Disk(
    journals: map<Id, Journal>, current: Current, live: set<string>,
    holds: map<Id, Hold>, backups: set<Id>, begun: set<Id>)

  predicate Blocks(j: Journal) {
    match j.result
    case None => true
    case Some(Committed) => false
    case Some(Failed) => false
    case Some(RequiresRecovery) => j.resolution.None?
    case Some(_) => true
  }

  predicate Unresolved(journals: map<Id, Journal>, id: Id) {
    id in journals && Blocks(journals[id])
  }

  predicate Settled(j: Journal) {
    j.result == Some(Committed) || j.resolution.Some?
  }

  predicate ActiveHold(holds: map<Id, Hold>, h: Id, id: Id) {
    h in holds && holds[h].migration == id && !holds[h].released
  }

  ghost predicate HasActiveHold(holds: map<Id, Hold>, id: Id) {
    exists h :: ActiveHold(holds, h, id)
  }

  // ---------------------------------------------------------------- processes

  datatype MigrateAt =
    | WantLock | Planning | WritingPlan
    | Appending(phase: Phase)
    | OpeningSession | CreatingBackup | AcquiringHold | ClosingSession
    | CheckingSource | Upgrading | CheckingTarget | ComparingState | Publishing
    | WritingResult | OpeningRelease | Releasing
    | FailAppending(post: bool) | FailResult(post: bool) | FailOpening | FailReleasing

  datatype Migrator = Migrator(
    at: MigrateAt, id: Id, plan: Plan, before: Current, backup: Id, hold: Option<Id>)

  datatype RecoverAt =
    | Reading | RecoverWantLock | Checking | Republishing | Completing | Resolving
    | RecoverOpening | RecoverReleasing

  datatype Recoverer = Recoverer(
    at: RecoverAt, id: Id, action: Action, seen: Option<Phase>, plan: Plan, before: Current, hold: Id)

  datatype Proc =
    | Migrating(m: Migrator)
    | Recovering(r: Recoverer)
    | Pruning(deleting: bool, todo: set<Id>)

  datatype Sys = Sys(disk: Disk, rollout: Option<Pid>, session: Option<Pid>, procs: map<Pid, Proc>)

  // The rollout lock is released before the failure handler runs.
  predicate HoldsRollout(p: Proc) {
    match p
    case Migrating(m) =>
      !m.at.WantLock? && !m.at.FailAppending? && !m.at.FailResult? && !m.at.FailOpening? && !m.at.FailReleasing?
    case Recovering(r) => !r.at.Reading? && !r.at.RecoverWantLock?
    case Pruning(_, _) => false
  }

  predicate HoldsSession(p: Proc) {
    match p
    case Migrating(m) =>
      m.at in {CreatingBackup, Appending(BackupVerified), AcquiringHold, Appending(HoldAcquired),
               ClosingSession, Releasing, FailReleasing}
    case Recovering(r) => r.at == RecoverReleasing
    case Pruning(deleting, _) => deleting
  }

  // How a call ends: Torn means the write took effect and the call raised all the same.
  datatype Outcome = Done | Torn | Raised

  // Everything a step does not determine by itself.
  datatype Oracle = Oracle(
    outcome: Outcome, pick: Id, heads: set<string>, release: string, contract: string,
    graph: string, at: string, todo: set<Id>)

  // A step's effect on the disk and the process, which ends when there is no successor.
  datatype Turn = Turn(disk: Disk, proc: Option<Proc>)

  // ---------------------------------------------------------------- durable effects

  function NewJournal(d: Disk, id: Id): Disk {
    d.(journals := d.journals[id := Journal(None, [], None, None)])
  }

  function WritePlan(d: Disk, id: Id, plan: Plan): Disk
    requires id in d.journals
  {
    d.(journals := d.journals[id := d.journals[id].(plan := Some(plan))])
  }

  function AppendEvent(d: Disk, id: Id, phase: Phase): Disk
    requires id in d.journals
  {
    d.(journals := d.journals[id := d.journals[id].(log := d.journals[id].log + [phase])])
  }

  function WriteResult(d: Disk, id: Id, status: Phase): Disk
    requires id in d.journals
  {
    d.(journals := d.journals[id := d.journals[id].(result := Some(status))])
  }

  function WriteResolution(d: Disk, id: Id, action: Action): Disk
    requires id in d.journals
  {
    d.(journals := d.journals[id := d.journals[id].(resolution := Some(action))])
  }

  function AddHold(d: Disk, h: Id, hold: Hold): Disk {
    d.(holds := d.holds[h := hold])
  }

  function Release(d: Disk, h: Id): Disk
    requires h in d.holds
  {
    d.(holds := d.holds[h := d.holds[h].(released := true)])
  }

  function Upgrade(d: Disk, id: Id, heads: set<string>): Disk {
    d.(live := heads, begun := d.begun + {id})
  }

  // ---------------------------------------------------------------- run_migration

  function After(phase: Phase): MigrateAt {
    match phase
    case Planned => Appending(BackupStarted)
    case BackupStarted => OpeningSession
    case BackupVerified => AcquiringHold
    case HoldAcquired => ClosingSession
    case Revalidated => Appending(Started)
    case Started => Upgrading
    case CommandCompleted => CheckingTarget
    case TargetHeadsVerified => Appending(Stabilized)
    case Stabilized => ComparingState
    case StateCommitted => Appending(Committed)
    case Committed => WritingResult
    case Failed => FailOpening
    case RequiresRecovery => FailOpening
  }

  // post_mutation, the flag that decides between `failed` and `migration_requires_recovery`
  predicate PostMutation(at: MigrateAt) {
    match at
    case Appending(phase) => phase in {CommandCompleted, TargetHeadsVerified, Stabilized, StateCommitted, Committed}
    case Upgrading => true
    case CheckingTarget => true
    case ComparingState => true
    case Publishing => true
    case WritingResult => true
    case _ => false
  }

  function Terminal(post: bool): Phase {
    if post then RequiresRecovery else Failed
  }

  function Goes(d: Disk, m: Migrator, at: MigrateAt): Turn {
    Turn(d, Some(Migrating(m.(at := at))))
  }

  function Fails(d: Disk, m: Migrator): Turn {
    Goes(d, m, FailAppending(PostMutation(m.at)))
  }

  // A write that may also raise before or after it takes effect.
  function Writes(d: Disk, written: Disk, m: Migrator, next: Migrator, o: Oracle): Turn {
    match o.outcome
    case Done => Turn(written, Some(Migrating(next)))
    case Torn => Fails(written, m)
    case Raised => Fails(d, m)
  }

  function PublishEvent(plan: Plan, id: Id, at: string): Event {
    Migration(plan.release, plan.target, id, plan.contract, at)
  }

  function PlanFor(d: Disk, id: Id, o: Oracle): Plan {
    var draft := Plan(d.live, o.heads, o.release, o.contract, o.graph, OfIndented(d.current), OfIndented(d.current));
    var expected := Publish(d.current, PublishEvent(draft, id, d.current.updatedAt));
    draft.(expected := OfCompact(if expected.Some? then expected.value else d.current))
  }

  // The gates before the journal is created: nothing unresolved, no drift, a forward target.
  predicate MayPlan(d: Disk, o: Oracle) {
    && (forall id :: id in d.journals ==> !Blocks(d.journals[id]))
    && d.live == HeadSet(d.current)
    && o.heads != {} && o.heads != d.live
    && o.pick !in d.journals
  }

  function PlanTurn(d: Disk, m: Migrator, o: Oracle): Turn {
    if o.outcome == Raised || !MayPlan(d, o) then Turn(d, None)
    else
      var next := m.(id := o.pick, plan := PlanFor(d, o.pick, o), hold := None);
      if o.outcome == Torn then Goes(NewJournal(d, o.pick), next, FailAppending(false))
      else Goes(NewJournal(d, o.pick), next, WritingPlan)
  }

  function AppendTurn(d: Disk, m: Migrator, o: Oracle): Turn
    requires m.at.Appending? && m.id in d.journals
  {
    if !MayAppend(d.journals[m.id].log, m.at.phase) then Fails(d, m)
    else
      var next := m.(at := After(m.at.phase),
                     before := if m.at.phase == BackupStarted then d.current else m.before);
      Writes(d, AppendEvent(d, m.id, m.at.phase), m, next, o)
  }

  function HoldTurn(d: Disk, m: Migrator, o: Oracle): Turn {
    if o.pick in d.holds then Fails(d, m)
    else
      var hold := Hold(m.id, m.backup, m.plan.source, o.graph, false);
      Writes(d, AddHold(d, o.pick, hold), m, m.(at := Appending(HoldAcquired), hold := Some(o.pick)), o)
  }

  function PublishTurn(d: Disk, m: Migrator, o: Oracle): Turn {
    var next := Publish(m.before, PublishEvent(m.plan, m.id, o.at));
    if next.None? then Fails(d, m)
    else Writes(d, d.(current := next.value), m, m.(at := Appending(StateCommitted)), o)
  }

  // After the handler's journal writes only a pre-mutation failure goes on to release its hold.
  function AfterHandler(d: Disk, m: Migrator, post: bool): Turn {
    if post || m.hold.None? then Turn(d, None) else Goes(d, m, FailOpening)
  }

  function FailTurn(d: Disk, m: Migrator, o: Oracle): Turn {
    match m.at
    case FailAppending(post) =>
      if m.id !in d.journals || !MayAppend(d.journals[m.id].log, Terminal(post)) || o.outcome == Raised then
        AfterHandler(d, m, post)
      else
        var written := AppendEvent(d, m.id, Terminal(post));
        if o.outcome == Torn then AfterHandler(written, m, post) else Goes(written, m, FailResult(post))
    case FailResult(post) =>
      if m.id !in d.journals || d.journals[m.id].result.Some? || o.outcome == Raised then
        AfterHandler(d, m, post)
      else AfterHandler(WriteResult(d, m.id, Terminal(post)), m, post)
    case FailOpening =>
      if o.outcome == Done then Goes(d, m, FailReleasing) else Turn(d, None)
    case _ => ReleaseTurn(d, m.hold, o)
  }

  function ReleaseTurn(d: Disk, hold: Option<Id>, o: Oracle): Turn {
    if hold.None? || hold.value !in d.holds || d.holds[hold.value].released || o.outcome == Raised then Turn(d, None)
    else Turn(Release(d, hold.value), None)
  }

  function MigrateTurn(d: Disk, m: Migrator, o: Oracle): Turn {
    match m.at
    case WantLock => if o.outcome == Done then Goes(d, m, Planning) else Turn(d, None)
    case Planning => PlanTurn(d, m, o)
    case WritingPlan =>
      if m.id !in d.journals then Fails(d, m)
      else Writes(d, WritePlan(d, m.id, m.plan), m, m.(at := Appending(Planned)), o)
    case Appending(_) => if m.id !in d.journals then Fails(d, m) else AppendTurn(d, m, o)
    case OpeningSession => if o.outcome == Done then Goes(d, m, CreatingBackup) else Fails(d, m)
    case CreatingBackup =>
      if o.pick in d.backups then Fails(d, m)
      else Writes(d, d.(backups := d.backups + {o.pick}), m, m.(at := Appending(BackupVerified), backup := o.pick), o)
    case AcquiringHold => HoldTurn(d, m, o)
    case ClosingSession => Goes(d, m, CheckingSource)
    case CheckingSource =>
      if d.live == m.plan.source && o.outcome == Done then Goes(d, m, Appending(Revalidated)) else Fails(d, m)
    case Upgrading =>
      var after := Upgrade(d, m.id, o.heads);
      if o.outcome == Done then Goes(after, m, Appending(CommandCompleted)) else Fails(after, m)
    case CheckingTarget =>
      if d.live == m.plan.target && o.outcome == Done then Goes(d, m, Appending(TargetHeadsVerified)) else Fails(d, m)
    case ComparingState =>
      if OfIndented(d.current) == m.plan.base && o.outcome == Done then Goes(d, m, Publishing) else Fails(d, m)
    case Publishing => PublishTurn(d, m, o)
    case WritingResult =>
      if m.id !in d.journals || d.journals[m.id].result.Some? then Fails(d, m)
      else Writes(d, WriteResult(d, m.id, Committed), m, m.(at := OpeningRelease), o)
    case OpeningRelease => if o.outcome == Done then Goes(d, m, Releasing) else Turn(d, None)
    case Releasing => ReleaseTurn(d, m.hold, o)
    case _ => FailTurn(d, m, o)
  }

  // ---------------------------------------------------------------- recover_migration

  function Continues(d: Disk, r: Recoverer, at: RecoverAt): Turn {
    Turn(d, Some(Recovering(r.(at := at))))
  }

  // The gate is evaluated before the rollout lock is taken.
  predicate MayRecover(j: Journal, action: Action) {
    && j.resolution.None? && j.plan.Some?
    && match action
       case ReleaseHold => j.result == Some(Committed)
       case _ =>
         if j.result.None? then j.log != [] && j.log[|j.log| - 1] == StateCommitted
         else j.result == Some(RequiresRecovery)
  }

  function ReadTurn(d: Disk, r: Recoverer): Turn {
    if r.id !in d.journals || !MayRecover(d.journals[r.id], r.action) then Turn(d, None)
    else
      var j := d.journals[r.id];
      Continues(d, r.(seen := j.result, plan := j.plan.value), RecoverWantLock)
  }

  predicate HoldMatches(d: Disk, h: Id, id: Id, plan: Plan) {
    ActiveHold(d.holds, h, id) && d.holds[h].heads == plan.source && d.holds[h].graph == plan.graph
  }

  function CheckTurn(d: Disk, r: Recoverer, o: Oracle): Turn {
    if !HoldMatches(d, o.pick, r.id, r.plan) || o.outcome != Done then Turn(d, None)
    else
      var next := r.(hold := o.pick, before := d.current);
      var digest := OfIndented(d.current);
      match r.action
      case ReleaseHold => Continues(d, next, RecoverOpening)
      case AcceptSource =>
        if Unresolved(d.journals, r.id) && d.live == r.plan.source && digest == r.plan.base
        then Continues(d, next, Completing) else Turn(d, None)
      case AcceptTarget =>
        if !Unresolved(d.journals, r.id) || d.live != r.plan.target then Turn(d, None)
        else if digest == r.plan.expected then Continues(d, next, Completing)
        else if digest == r.plan.base then Continues(d, next, Republishing)
        else Turn(d, None)
  }

  function RepublishTurn(d: Disk, r: Recoverer, o: Oracle): Turn {
    var next := Publish(r.before, PublishEvent(r.plan, r.id, o.at));
    if next.None? || o.outcome == Raised then Turn(d, None)
    else if o.outcome == Torn then Turn(d.(current := next.value), None)
    else Continues(d.(current := next.value), r, Completing)
  }

  // Publishing a result that was missing when the gate was evaluated.
  function CompleteTurn(d: Disk, r: Recoverer, o: Oracle): Turn {
    if r.seen.Some? || r.action != AcceptTarget then Continues(d, r, Resolving)
    else if r.id !in d.journals || d.journals[r.id].result.Some? || o.outcome == Raised then Turn(d, None)
    else if o.outcome == Torn then Turn(WriteResult(d, r.id, Committed), None)
    else Continues(WriteResult(d, r.id, Committed), r, Resolving)
  }

  function ResolveTurn(d: Disk, r: Recoverer, o: Oracle): Turn {
    if r.id !in d.journals || d.journals[r.id].resolution.Some? || o.outcome == Raised then Turn(d, None)
    else if o.outcome == Torn then Turn(WriteResolution(d, r.id, r.action), None)
    else Continues(WriteResolution(d, r.id, r.action), r, RecoverOpening)
  }

  function RecoverTurn(d: Disk, r: Recoverer, o: Oracle): Turn {
    match r.at
    case Reading => ReadTurn(d, r)
    case RecoverWantLock => if o.outcome == Done then Continues(d, r, Checking) else Turn(d, None)
    case Checking => CheckTurn(d, r, o)
    case Republishing => RepublishTurn(d, r, o)
    case Completing => CompleteTurn(d, r, o)
    case Resolving => ResolveTurn(d, r, o)
    case RecoverOpening => if o.outcome == Done then Continues(d, r, RecoverReleasing) else Turn(d, None)
    case RecoverReleasing => ReleaseTurn(d, Some(r.hold), o)
  }

  // ---------------------------------------------------------------- prune

  ghost predicate BackupHeld(d: Disk, backup: Id) {
    exists h :: h in d.holds && d.holds[h].backup == backup && !d.holds[h].released
  }

  // Any set of candidates may be chosen under the lock; each deletion looks at the holds again.
  ghost function PruneTurn(d: Disk, p: Proc, o: Oracle): Turn
    requires p.Pruning?
  {
    if !p.deleting then
      if o.outcome == Done then Turn(d, Some(Pruning(true, o.todo))) else Turn(d, None)
    else if o.pick !in p.todo || o.outcome == Raised then Turn(d, None)
    else
      var next := if BackupHeld(d, o.pick) then d else d.(backups := d.backups - {o.pick});
      Turn(next, Some(Pruning(true, p.todo - {o.pick})))
  }

  // ---------------------------------------------------------------- the whole system

  ghost function TurnOf(d: Disk, p: Proc, o: Oracle): Turn {
    match p
    case Migrating(m) => MigrateTurn(d, m, o)
    case Recovering(r) => RecoverTurn(d, r, o)
    case Pruning(_, _) => PruneTurn(d, p, o)
  }

  predicate Starts(p: Proc) {
    match p
    case Migrating(m) => m.at == WantLock
    case Recovering(r) => r.at == Reading
    case Pruning(deleting, _) => !deleting
  }

  // A lock the process goes on to need must be free or its own; otherwise it waits.
  predicate Waits(lock: Option<Pid>, pid: Pid, needs: bool) {
    needs && lock.Some? && lock.value != pid
  }

  function LockAfter(lock: Option<Pid>, pid: Pid, needs: bool): Option<Pid> {
    if needs then Some(pid) else if lock == Some(pid) then None else lock
  }

  ghost function Advance(s: Sys, pid: Pid, o: Oracle): Sys
    requires pid in s.procs
  {
    var turn := TurnOf(s.disk, s.procs[pid], o);
    var rollout := turn.proc.Some? && HoldsRollout(turn.proc.value);
    var session := turn.proc.Some? && HoldsSession(turn.proc.value);
    if Waits(s.rollout, pid, rollout) || Waits(s.session, pid, session) then s
    else Sys(turn.disk, LockAfter(s.rollout, pid, rollout), LockAfter(s.session, pid, session),
             if turn.proc.Some? then s.procs[pid := turn.proc.value] else s.procs - {pid})
  }

  // A crash keeps what is on disk and frees both locks.
  function Crash(s: Sys, pid: Pid): Sys {
    Sys(s.disk, LockAfter(s.rollout, pid, false), LockAfter(s.session, pid, false), s.procs - {pid})
  }

  ghost predicate Next(s: Sys, t: Sys) {
    || (exists pid: Pid, p: Proc :: pid !in s.procs && Starts(p) && t == s.(procs := s.procs[pid := p]))
    || (exists pid: Pid :: pid in s.procs && t == Crash(s, pid))
    || (exists pid: Pid, o: Oracle :: pid in s.procs && t == Advance(s, pid, o))
  }

  // A bootstrapped deployment: no journals or holds yet, and the saved heads are the live ones.
  ghost predicate Init(s: Sys) {
    && s.rollout.None? && s.session.None? && s.procs == map[]
    && s.disk.journals == map[] && s.disk.holds == map[] && s.disk.begun == {}
    && Accepted(s.disk.current) && s.disk.current.database.lastMigration.None?
    && HeadSet(s.disk.current) == s.disk.live
  }

  ghost predicate IsRun(run: seq<Sys>) {
    run != [] && Init(run[0]) && forall i :: 0 < i < |run| ==> Next(run[i - 1], run[i])
  }

  ghost predicate Reachable(s: Sys) {
    exists run :: IsRun(run) && run[|run| - 1] == s
  }
}
