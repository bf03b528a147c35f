/** run_migration as it is written: statements that write one store after the other, with the failure handler
    outside the lock. Each call is one step of the protocol, so whatever holds in every run of the protocol
    holds at every statement of this code. */
module MigrationRun {
  import opened Wrappers
  import opened Phases
  import opened CurrentState
  import opened MigrationProtocol
  import opened MigrationSteps
  import MigrationLiveness

  // A process taken forward by itself, the environment answering each call.
  ghost function Then(t: Turn, o: Oracle): Turn {
    if t.proc.None? then t else TurnOf(t.disk, t.proc.value, o)
  }

  ghost function Steps(t: Turn, script: nat -> Oracle, n: nat): Turn {
    if n == 0 then t else Then(Steps(t, script, n - 1), script(n - 1))
  }

  lemma PlanIsTurn(d: Disk, m: Migrator, o: Oracle)
    requires m.at.Planning?
    ensures MigrateTurn(d, m, o) == PlanTurn(d, m, o)
  {
    hide PlanTurn;
  }

  lemma HoldIsTurn(d: Disk, m: Migrator, o: Oracle)
    requires m.at.AcquiringHold?
    ensures var n := AddHold(d, o.pick, Hold(m.id, m.backup, m.plan.source, o.graph, false));
            MigrateTurn(d, m, o) ==
              if o.pick !in d.holds && o.outcome == Done
              then Turn(n, Some(Migrating(m.(at := Appending(HoldAcquired), hold := Some(o.pick)))))
              else Turn(if o.pick in d.holds || o.outcome == Raised then d else n, Some(Migrating(m.(at := FailAppending(false)))))
  {
    hide AddHold;
  }

  lemma PublishIsTurn(d: Disk, m: Migrator, o: Oracle)
    requires m.at.Publishing?
    ensures var next := Publish(m.before, PublishEvent(m.plan, m.id, o.at));
            MigrateTurn(d, m, o) ==
              if next.Some? && o.outcome == Done then Turn(d.(current := next.value), Some(Migrating(m.(at := Appending(StateCommitted)))))
              else Turn(if next.None? || o.outcome == Raised then d else d.(current := next.value),
                        Some(Migrating(m.(at := FailAppending(true)))))
  {
    hide Publish, PublishEvent;
  }

  class Migration {
    const script: nat -> Oracle

    // The shared stores.
    var disk: Disk

    // The locals of the transaction.
    var calls: nat
    var id: Id
    var plan: Plan
    var before: Current
    var backup: Id
    var hold: Option<Id>
    var postMutation: bool

    // Where the protocol is, and where it began.
    ghost var at: MigrateAt
    ghost var running: bool
    ghost const origin: Turn

    constructor (disk: Disk, plan: Plan, before: Current, script: nat -> Oracle)
      ensures Follows() && running && at == WantLock && calls == 0
      ensures this.disk == disk && this.script == script && hold.None? && !postMutation
      ensures origin == Turn(disk, Some(Migrating(Migrator(WantLock, "", plan, before, "", None))))
    {
      this.script, this.disk := script, disk;
      calls, id, this.plan, this.before, backup, hold, postMutation := 0, "", plan, before, "", None, false;
      at, running := WantLock, true;
      origin := Turn(disk, Some(Migrating(Migrator(WantLock, "", plan, before, "", None))));
    }

    ghost function Me(): Migrator
      reads `at, `id, `plan, `before, `backup, `hold
    {
      Migrator(at, id, plan, before, backup, hold)
    }

    ghost function Here(): Turn
      reads `disk, `running, `at, `id, `plan, `before, `backup, `hold
    {
      Turn(disk, if running then Some(Migrating(Me())) else None)
    }

    /** The stores and the locals are what the protocol reaches in as many steps as calls were made. */
    ghost predicate Follows()
      reads `calls, `disk, `running, `at, `id, `plan, `before, `backup, `hold
    {
      Steps(origin, script, calls) == Here()
    }

    // ---------------------------------------------------------------- the calls by number

    // The transaction makes its calls in one order; this is the number of the next one.
    ghost function CallAt(place: MigrateAt): nat {
      match place
      case WantLock => 0
      case Planning => 1
      case WritingPlan => 2
      case Appending(phase) => AppendCall(phase)
      case OpeningSession => 5
      case CreatingBackup => 6
      case AcquiringHold => 8
      case ClosingSession => 10
      case CheckingSource => 11
      case Upgrading => 14
      case CheckingTarget => 16
      case ComparingState => 19
      case Publishing => 20
      case WritingResult => 23
      case _ => 24
    }

    ghost function AppendCall(phase: Phase): nat {
      match phase
      case Planned => 3
      case BackupStarted => 4
      case BackupVerified => 7
      case HoldAcquired => 9
      case Revalidated => 12
      case Started => 13
      case CommandCompleted => 15
      case TargetHeadsVerified => 17
      case Stabilized => 18
      case StateCommitted => 21
      case _ => 22
    }

    predicate Appends(i: nat) {
      EventsBefore(i + 1) > EventsBefore(i)
    }

    // How many events are logged before call `i`.
    function EventsBefore(i: nat): (n: nat)
      ensures n <= 11
    {
      if i < 4 then 0 else if i < 5 then 1 else if i < 8 then 2 else if i < 10 then 3 else if i < 13 then 4
      else if i < 14 then 5 else if i < 16 then 6 else if i < 18 then 7 else if i < 19 then 8 else if i < 22 then 9
      else if i < 23 then 10 else 11
    }

    // And how many are, once call `f` has failed.
    function EventsAfter(f: nat): (n: nat)
    {
      EventsBefore(f) + if Appends(f) && script(f).outcome == Torn then 1 else 0
    }

    // The plan this call draws up, from the stores it began with.
    ghost function Drawn(): Plan
    {
      PlanFor(origin.disk, script(1).pick, script(1))
    }

    // Call `i` ends normally and what it looks at fits. Closing the session cannot fail.
    ghost predicate Good(i: nat)
    {
      i == 10 ||
      (&& script(i).outcome == Done
       && (i == 1 ==> MayPlan(origin.disk, script(1)))
       && (i == 6 ==> script(6).pick !in origin.disk.backups)
       && (i == 8 ==> script(8).pick !in origin.disk.holds)
       && (i == 16 ==> script(14).heads == script(1).heads)
       && (i == 20 ==> Publish(origin.disk.current, PublishEvent(Drawn(), script(1).pick, script(20).at)).Some?))
    }

    ghost predicate GoodUpTo(n: nat)
    {
      forall i: nat :: i < n ==> Good(i)
    }

    ghost predicate FirstBad(f: nat)
    {
      !Good(f) && GoodUpTo(f)
    }

    // What the stores and locals have come to before call `c`, in terms of those this transaction began with.
    ghost predicate Tracks(d: Disk, m: Migrator, c: nat) {
      && c == CallAt(m.at) && m.id == script(1).pick && m.plan == Drawn()
      && m.id in d.journals && d.journals[m.id].result.None? && d.journals[m.id].log == HAPPY[..EventsBefore(c)]
      && d.live == (if c <= 14 then origin.disk.live else script(14).heads)
      && (c <= 20 ==> d.current == origin.disk.current) && (c >= 5 ==> m.before == origin.disk.current)
      && (c <= 6 ==> d.backups == origin.disk.backups) && (c <= 8 ==> d.holds == origin.disk.holds)
      && HasHold(d, m, c <= 8)
    }

    ghost predicate HasHold(d: Disk, m: Migrator, early: bool) {
      if early then m.hold.None? else m.hold == Some(script(8).pick) && script(8).pick in d.holds
    }

    // The transaction is at this place, and every call so far was good.
    ghost predicate On(place: MigrateAt)
      reads `calls, `disk, `running, `at, `id, `plan, `before, `backup, `hold
    {
      Follows() && running && at == place && Tracks(disk, Me(), calls) && GoodUpTo(calls)
    }

    // Call `f` was the first bad one, and this is what the handler finds.
    ghost predicate Fell(d: Disk, m: Migrator, f: nat) {
      && f < 24 && FirstBad(f) && m.at == FailAppending(f >= 14) && m.id == script(1).pick
      && m.id in d.journals && d.journals[m.id].log == HAPPY[..EventsAfter(f)]
      && (d.journals[m.id].result.None? || f == 23) && HasHold(d, m, f <= 8)
    }

    ghost predicate Fallen(post: bool)
      reads `calls, `disk, `running, `at, `id, `plan, `before, `backup, `hold
    {
      Follows() && running && calls > 0 && Fell(disk, Me(), calls - 1) && at == FailAppending(post)
    }

    // Everything but releasing the hold is done.
    ghost predicate AtRelease()
      reads `calls, `disk, `running, `at, `id, `plan, `before, `backup, `hold
    {
      && Follows() && running && at == OpeningRelease && calls == 24 && GoodUpTo(24) && HasHold(disk, Me(), false)
      && id in disk.journals && disk.journals[id].result == Some(Committed)
    }

    lemma DrawnFrom()
      ensures Drawn().source == origin.disk.live && Drawn().target == script(1).heads
      ensures Drawn().base == OfIndented(origin.disk.current)
    {
      hide MayPlan, Publish;
    }

    // What the environment answers to the next call, and with it where the protocol goes.
    method Ask() returns (o: Oracle)
      requires Follows() && running
      modifies this`calls
      ensures calls == old(calls) + 1 && o == script(old(calls))
      ensures Steps(origin, script, calls) == MigrateTurn(disk, Me(), o)
    {
      hide MigrateTurn;
      o := script(calls);
      calls := calls + 1;
    }

    // ---------------------------------------------------------------- calls that only look

    method TakeLock() returns (raised: bool)
      requires Follows() && running && at == WantLock && calls == 0
      modifies this`calls, this`at, this`running
      ensures Follows() && calls == 1 && (if raised then !running else running && at == Planning)
      ensures raised <==> !Good(0)
    {
      hide Steps, HAPPY, Drawn, MayPlan, Publish, HoldTurn, PlanTurn, AppendTurn, PublishTurn, ReleaseTurn, FailTurn, Upgrade;
      var o := Ask();
      raised := o.outcome != Done;
      if raised { running := false; } else { at := Planning; }
    }

    method OpenSession() returns (raised: bool)
      requires On(OpeningSession)
      modifies this`calls, this`at
      ensures if raised then Fallen(false) else On(CreatingBackup)
    {
      hide Steps, HAPPY, Drawn, MayPlan, Publish, HoldTurn, PlanTurn, AppendTurn, PublishTurn, ReleaseTurn, FailTurn, Upgrade;
      var o := Ask();
      raised := o.outcome != Done;
      at := if raised then FailAppending(false) else CreatingBackup;
    }

    method CloseSession()
      requires On(ClosingSession)
      modifies this`calls, this`at
      ensures On(CheckingSource)
    {
      hide Steps, HAPPY, Drawn, MayPlan, Publish, HoldTurn, PlanTurn, AppendTurn, PublishTurn, ReleaseTurn, FailTurn, Upgrade;
      var o := Ask();
      at := CheckingSource;
    }

    method CheckSource() returns (raised: bool)
      requires On(CheckingSource)
      modifies this`calls, this`at
      ensures if raised then Fallen(false) else On(Appending(Revalidated))
      ensures !raised ==> disk.live == plan.source
    {
      hide Steps, HAPPY, Drawn, MayPlan, Publish, HoldTurn, PlanTurn, AppendTurn, PublishTurn, ReleaseTurn, FailTurn, Upgrade;
      DrawnFrom();
      var o := Ask();
      raised := disk.live != plan.source || o.outcome != Done;
      at := if raised then FailAppending(false) else Appending(Revalidated);
    }

    method CheckTarget() returns (raised: bool)
      requires On(CheckingTarget)
      modifies this`calls, this`at
      ensures if raised then Fallen(true) else On(Appending(TargetHeadsVerified))
      ensures !raised ==> disk.live == plan.target
    {
      hide Steps, HAPPY, Drawn, MayPlan, Publish, HoldTurn, PlanTurn, AppendTurn, PublishTurn, ReleaseTurn, FailTurn, Upgrade;
      DrawnFrom();
      var o := Ask();
      raised := disk.live != plan.target || o.outcome != Done;
      at := if raised then FailAppending(true) else Appending(TargetHeadsVerified);
    }

    // Compare-and-set on current.json: its bytes must still be the ones the plan was computed from.
    method CompareState() returns (raised: bool)
      requires On(ComparingState)
      modifies this`calls, this`at
      ensures if raised then Fallen(true) else On(Publishing)
    {
      hide Steps, HAPPY, Drawn, MayPlan, Publish, HoldTurn, PlanTurn, AppendTurn, PublishTurn, ReleaseTurn, FailTurn, Upgrade;
      DrawnFrom();
      var o := Ask();
      raised := OfIndented(disk.current) != plan.base || o.outcome != Done;
      at := if raised then FailAppending(true) else Publishing;
    }

    // ---------------------------------------------------------------- calls that write

    lemma DrawnHere()
      ensures Drawn() == PlanFor(origin.disk, script(1).pick, script(1))
    {
      hide PlanFor;
    }

    // With the new journal the transaction is on its way, or fell at that call.
    lemma Begun(m: Migrator)
      requires m.id == script(1).pick && m.plan == Drawn() && m.hold.None? && Good(0)
      ensures GoodUpTo(1) && (Good(1) ==> GoodUpTo(2))
      ensures m.at == WritingPlan ==> Tracks(NewJournal(origin.disk, m.id), m, 2)
      ensures m.at == FailAppending(false) && script(1).outcome == Torn ==> Fell(NewJournal(origin.disk, m.id), m, 1)
    {
      hide Drawn, MayPlan, Publish;
    }

    method CreateJournal() returns (created: bool, raised: bool)
      requires Follows() && running && at == Planning && calls == 1 && hold.None? && disk == origin.disk && Good(0)
      modifies this`calls, this`at, this`running, this`disk, this`id, this`plan
      ensures !created ==> Follows() && !running && disk == old(disk)
      ensures created ==> if raised then Fallen(false) else On(WritingPlan)
      ensures created <==> MayPlan(origin.disk, script(1)) && script(1).outcome != Raised
      ensures created && !raised <==> Good(1)
      ensures created && raised ==> script(1).outcome == Torn
    {
      hide Steps, MigrateTurn, PlanFor, MayPlan, Drawn, Tracks, Fell, GoodUpTo;
      DrawnHere();
      ghost var d, m := disk, Me();
      var o := Ask();
      PlanIsTurn(d, m, o);
      if o.outcome == Raised || !MayPlan(disk, o) {
        running := false;
        return false, true;
      }
      id, plan := o.pick, PlanFor(disk, o.pick, o);
      disk := NewJournal(disk, id);
      raised := o.outcome == Torn;
      at := if raised then FailAppending(false) else WritingPlan;
      Begun(Me());
      return true, raised;
    }

    method WriteMigrationPlan() returns (raised: bool)
      requires On(WritingPlan)
      modifies this`calls, this`at, this`disk
      ensures if raised then Fallen(false) else On(Appending(Planned))
    {
      hide Steps, HAPPY, Drawn, MayPlan, Publish, HoldTurn, PlanTurn, AppendTurn, PublishTurn, ReleaseTurn, FailTurn, Upgrade;
      hide PlanFor;
      var o := Ask();
      raised := id !in disk.journals || o.outcome != Done;
      if id in disk.journals && o.outcome != Raised { disk := WritePlan(disk, id, plan); }
      at := if raised then FailAppending(false) else Appending(Planned);
    }

    method Append(phase: Phase) returns (raised: bool)
      requires On(Appending(phase)) && phase != BackupStarted && phase != Failed && phase != RequiresRecovery
      modifies this`calls, this`at, this`disk
      ensures if raised then Fallen(PostMutation(Appending(phase))) else On(After(phase))
      ensures disk == old(disk) || disk == AppendEvent(old(disk), id, phase)
    {
      ghost var d, m, c := disk, Me(), calls;
      EventFits(d, m, c, phase);
      hide Follows, Tracks, Fell, GoodUpTo, AppendEvent, After, PostMutation, MayAppend;
      raised := LogEvent(phase);
    }

    // The next event on the way is legal, and whether it is logged or not the transaction is on its way or fell.
    lemma EventFits(d: Disk, m: Migrator, c: nat, phase: Phase)
      requires Tracks(d, m, c) && GoodUpTo(c) && m.at == Appending(phase) && phase != Failed && phase != RequiresRecovery
      ensures m.id in d.journals && MayAppend(d.journals[m.id].log, phase)
      ensures var before := if phase == BackupStarted then d.current else m.before;
              script(c).outcome == Done ==>
                Tracks(AppendEvent(d, m.id, phase), m.(at := After(phase), before := before), c + 1) && GoodUpTo(c + 1)
      ensures script(c).outcome == Torn ==>
                Fell(AppendEvent(d, m.id, phase), m.(at := FailAppending(PostMutation(Appending(phase)))), c)
      ensures script(c).outcome == Raised ==> Fell(d, m.(at := FailAppending(PostMutation(Appending(phase)))), c)
    {
      hide Tracks, Fell, GoodUpTo, AppendEvent, MayAppend, After, PostMutation;
      EventIsLegal(d, m, c, phase);
      if script(c).outcome == Done {
        EventTracks(d, m, c, phase);
        GoodOn(c);
        EventIsGood(m, phase);
      } else {
        EventFalls(d, m, c, phase);
      }
    }

    lemma EventIsLegal(d: Disk, m: Migrator, c: nat, phase: Phase)
      requires Tracks(d, m, c) && m.at == Appending(phase) && phase != Failed && phase != RequiresRecovery
      ensures m.id in d.journals && MayAppend(d.journals[m.id].log, phase) && c == CallAt(m.at)
    {
      AppendsHere(phase);
      hide HAPPY, Drawn, MayAppend, EventsBefore, AppendCall;
    }

    lemma EventTracks(d: Disk, m: Migrator, c: nat, phase: Phase)
      requires Tracks(d, m, c) && m.at == Appending(phase) && phase != Failed && phase != RequiresRecovery && m.id in d.journals
      ensures var before := if phase == BackupStarted then d.current else m.before;
              Tracks(AppendEvent(d, m.id, phase), m.(at := After(phase), before := before), c + 1)
    {
      AppendsHere(phase);
      EventIsLogged(d, m.id, phase);
      assert c == AppendCall(phase);
      SameSide(c);
      hide HAPPY, Drawn, EventsBefore, CallAt, AppendCall, Appends, MayAppend, After, PostMutation, AppendEvent;
    }

    lemma EventIsGood(m: Migrator, phase: Phase)
      requires m.at == Appending(phase) && phase != Failed && phase != RequiresRecovery
      ensures Good(CallAt(m.at)) <==> script(CallAt(m.at)).outcome == Done
    {
      hide MayPlan, Publish, Drawn;
    }

    // No append is the last call on one side of what `Tracks` tells apart.
    lemma SameSide(c: nat)
      requires Appends(c)
      ensures (c <= 14 <==> c + 1 <= 14) && (c <= 20 <==> c + 1 <= 20) && (c <= 6 <==> c + 1 <= 6) && (c <= 8 <==> c + 1 <= 8)
    {
    }

    lemma GoodOn(c: nat)
      requires GoodUpTo(c)
      ensures Good(c) ==> GoodUpTo(c + 1)
    {
      hide Good;
    }

    lemma EventFalls(d: Disk, m: Migrator, c: nat, phase: Phase)
      requires Tracks(d, m, c) && GoodUpTo(c) && m.at == Appending(phase) && phase != Failed && phase != RequiresRecovery
      requires script(c).outcome != Done && m.id in d.journals
      ensures Fell(if script(c).outcome == Torn then AppendEvent(d, m.id, phase) else d,
                   m.(at := FailAppending(PostMutation(Appending(phase)))), c)
    {
      AppendsHere(phase);
      EventIsLogged(d, m.id, phase);
      assert c == AppendCall(phase);
      hide HAPPY, Drawn, Good, EventsBefore, EventsAfter, CallAt, AppendCall, Appends, MayAppend, After, PostMutation, AppendEvent;
    }

    // append_migration_event
    method LogEvent(phase: Phase) returns (raised: bool)
      requires Follows() && running && at == Appending(phase) && phase != BackupStarted
      modifies this`calls, this`at, this`disk
      ensures Follows() && calls == old(calls) + 1
      ensures at == if raised then FailAppending(PostMutation(Appending(phase))) else After(phase)
      ensures raised <==> !Loggable(old(disk), phase) || script(old(calls)).outcome != Done
      ensures disk == if Loggable(old(disk), phase) && script(old(calls)).outcome != Raised
                      then AppendEvent(old(disk), id, phase) else old(disk)
    {
      hide Steps, HoldTurn, PlanTurn, PublishTurn, ReleaseTurn, FailTurn, Upgrade;
      hide MayAppend, After, PostMutation;
      var o := Ask();
      if id !in disk.journals || !MayAppend(disk.journals[id].log, phase) || o.outcome == Raised {
        at := FailAppending(PostMutation(Appending(phase)));
        return true;
      }
      disk := AppendEvent(disk, id, phase);
      raised := o.outcome == Torn;
      at := if raised then FailAppending(PostMutation(Appending(phase))) else After(phase);
    }

    lemma EventIsLogged(d: Disk, id: Id, phase: Phase)
      requires id in d.journals
      ensures var n := AppendEvent(d, id, phase);
              && n.live == d.live && n.current == d.current && n.backups == d.backups && n.holds == d.holds && id in n.journals
              && n.journals[id].log == d.journals[id].log + [phase] && n.journals[id].result == d.journals[id].result
    {
    }

    ghost predicate Loggable(d: Disk, phase: Phase)
      reads `id
    {
      id in d.journals && MayAppend(d.journals[id].log, phase)
    }

    // The event is the next on the way, and the next call is the one after it.
    lemma AppendsHere(phase: Phase)
      requires phase != Failed && phase != RequiresRecovery
      ensures var c := CallAt(Appending(phase));
              && Appends(c) && EventsBefore(c + 1) == EventsBefore(c) + 1 && CallAt(After(phase)) == c + 1
              && MayAppend(HAPPY[..EventsBefore(c)], phase)
              && HAPPY[..EventsBefore(c)] + [phase] == HAPPY[..EventsBefore(c) + 1]
              && EventsAfter(c) == EventsBefore(c) + (if script(c).outcome == Torn then 1 else 0)
              && (PostMutation(Appending(phase)) <==> c > 13) && c != 8 && c != 14 && c != 20 && c != 6
              && (Good(c) <==> script(c).outcome == Done)
              && (phase == BackupStarted <==> c == 4) && 3 <= c < 23
    {
      HappyStep(phase);
    }

    method AppendBackupStarted() returns (raised: bool)
      requires On(Appending(BackupStarted))
      modifies this`calls, this`at, this`disk, this`before
      ensures if raised then Fallen(false) else On(OpeningSession)
    {
      ghost var d, m, c := disk, Me(), calls;
      EventFits(d, m, c, BackupStarted);
      hide Follows, Tracks, GoodUpTo, AppendEvent, MayAppend;
      raised := LogBackupStarted();
    }

    // The state document is loaded before this event, and published from at the end.
    method LogBackupStarted() returns (raised: bool)
      requires Follows() && running && at == Appending(BackupStarted)
      modifies this`calls, this`at, this`disk, this`before
      ensures Follows() && calls == old(calls) + 1 && at == if raised then FailAppending(false) else OpeningSession
      ensures raised <==> !Loggable(old(disk), BackupStarted) || script(old(calls)).outcome != Done
      ensures disk == if Loggable(old(disk), BackupStarted) && script(old(calls)).outcome != Raised
                      then AppendEvent(old(disk), id, BackupStarted) else old(disk)
      ensures before == if raised then old(before) else old(disk).current
    {
      hide Steps, HoldTurn, PlanTurn, PublishTurn, ReleaseTurn, FailTurn, Upgrade;
      hide MayAppend;
      var o := Ask();
      var current := disk.current;
      if id !in disk.journals || !MayAppend(disk.journals[id].log, BackupStarted) || o.outcome == Raised {
        at := FailAppending(false);
        return true;
      }
      disk := AppendEvent(disk, id, BackupStarted);
      raised := o.outcome == Torn;
      if raised { at := FailAppending(false); } else { at, before := OpeningSession, current; }
    }

    method CreateBackup() returns (raised: bool)
      requires On(CreatingBackup)
      modifies this`calls, this`at, this`disk, this`backup
      ensures if raised then Fallen(false) else On(Appending(BackupVerified))
    {
      hide Steps, HAPPY, Drawn, MayPlan, Publish, HoldTurn, PlanTurn, AppendTurn, PublishTurn, ReleaseTurn, FailTurn, Upgrade;
      hide PlanFor;
      var o := Ask();
      raised := o.pick in disk.backups || o.outcome != Done;
      if o.pick !in disk.backups && o.outcome != Raised { disk := disk.(backups := disk.backups + {o.pick}); }
      if raised { at := FailAppending(false); } else { at, backup := Appending(BackupVerified), o.pick; }
    }

    lemma HoldFits(d: Disk, m: Migrator, c: nat)
      requires Tracks(d, m, c) && m.at == AcquiringHold && GoodUpTo(c)
      ensures var o := script(c); var n := AddHold(d, o.pick, Hold(m.id, m.backup, m.plan.source, o.graph, false));
              if o.pick !in d.holds && o.outcome == Done
              then Tracks(n, m.(at := Appending(HoldAcquired), hold := Some(o.pick)), c + 1) && GoodUpTo(c + 1)
              else Fell(if o.pick in d.holds || o.outcome == Raised then d else n, m.(at := FailAppending(false)), c)
    {
      hide HAPPY, Drawn, MayPlan, Publish;
    }

    method AcquireRetentionHold() returns (raised: bool)
      requires On(AcquiringHold)
      modifies this`calls, this`at, this`disk, this`hold
      ensures if raised then Fallen(false) else On(Appending(HoldAcquired))
    {
      hide Steps, MigrateTurn, AddHold, Tracks, Fell, GoodUpTo;
      ghost var d, m := disk, Me();
      HoldFits(d, m, calls);
      var o := Ask();
      HoldIsTurn(d, m, o);
      var added := AddHold(disk, o.pick, Hold(id, backup, plan.source, o.graph, false));
      if o.pick !in disk.holds && o.outcome == Done {
        disk, at, hold := added, Appending(HoldAcquired), Some(o.pick);
        return false;
      }
      if o.pick !in disk.holds && o.outcome == Torn { disk := added; }
      at := FailAppending(false);
      return true;
    }

    // Alembic leaves whatever heads it leaves.
    method RunAlembicUpgrade() returns (raised: bool)
      requires On(Upgrading)
      modifies this`calls, this`at, this`disk
      ensures if raised then Fallen(true) else On(Appending(CommandCompleted))
    {
      hide Steps, HAPPY, Drawn, MayPlan, Publish, HoldTurn, PlanTurn, AppendTurn, PublishTurn, ReleaseTurn, FailTurn;
      hide PlanFor;
      var o := Ask();
      disk := Upgrade(disk, id, o.heads);
      raised := o.outcome != Done;
      at := if raised then FailAppending(true) else Appending(CommandCompleted);
    }

    lemma PublishFits(d: Disk, m: Migrator, c: nat)
      requires Tracks(d, m, c) && m.at == Publishing && GoodUpTo(c)
      ensures c == 20
      ensures var o := script(c); var next := Publish(m.before, PublishEvent(m.plan, m.id, o.at));
              if next.Some? && o.outcome == Done
              then Tracks(d.(current := next.value), m.(at := Appending(StateCommitted)), c + 1) && GoodUpTo(c + 1)
              else Fell(if next.None? || o.outcome == Raised then d else d.(current := next.value), m.(at := FailAppending(true)), c)
    {
      hide HAPPY, Drawn, MayPlan, Publish, PublishEvent;
    }

    method WriteCurrentState() returns (raised: bool)
      requires On(Publishing)
      modifies this`calls, this`at, this`disk
      ensures if raised then Fallen(true) else On(Appending(StateCommitted))
      ensures disk == old(disk).(current := disk.current)
      ensures !raised ==> Publish(before, PublishEvent(plan, id, script(20).at)) == Some(disk.current)
    {
      hide Steps, MigrateTurn, Publish, PublishEvent, Tracks, Fell, GoodUpTo;
      ghost var d, m := disk, Me();
      PublishFits(d, m, calls);
      var o := Ask();
      PublishIsTurn(d, m, o);
      var next := Publish(before, PublishEvent(plan, id, o.at));
      raised := next.None? || o.outcome != Done;
      if next.Some? && o.outcome != Raised { disk := disk.(current := next.value); }
      at := if raised then FailAppending(true) else Appending(StateCommitted);
    }

    method WriteCommittedResult() returns (raised: bool)
      requires On(WritingResult)
      modifies this`calls, this`at, this`disk
      ensures if raised then Fallen(true)
              else AtRelease()
      ensures disk == old(disk).(journals := disk.journals)
    {
      hide Steps, HAPPY, Drawn, MayPlan, Publish, HoldTurn, PlanTurn, AppendTurn, PublishTurn, ReleaseTurn, FailTurn, Upgrade;
      hide PlanFor, Publish;
      var o := Ask();
      raised := id !in disk.journals || disk.journals[id].result.Some? || o.outcome != Done;
      if id in disk.journals && disk.journals[id].result.None? && o.outcome != Raised {
        disk := WriteResult(disk, id, Committed);
      }
      at := if raised then FailAppending(true) else OpeningRelease;
    }

    // ---------------------------------------------------------------- releasing the hold

    // The hold, if there is one, is released exactly when both calls went through; nothing else changes, and nothing
    // is raised further.
    method ReleaseHoldIfNeeded()
      requires Follows() && running && (at == OpeningRelease || at == FailOpening)
      modifies this`calls, this`at, this`disk, this`running
      ensures Follows() && !running
      ensures disk == old(disk).(holds := ReleasedHolds(old(disk).holds, old(calls)))
    {
      hide Follows;
      var ready := OpenForRelease();
      if ready {
        ReleaseHold();
      }
    }

    // The holds after opening the backup root in call `c` and releasing in the next one.
    ghost function ReleasedHolds(holds: map<Id, Hold>, c: nat): map<Id, Hold>
      reads this`hold
    {
      if script(c).outcome == Done && script(c + 1).outcome != Raised && hold.Some? && hold.value in holds
      then holds[hold.value := holds[hold.value].(released := true)]
      else holds
    }

    method OpenForRelease() returns (ready: bool)
      requires Follows() && running && (at == OpeningRelease || at == FailOpening)
      modifies this`calls, this`at, this`running
      ensures Follows() && (if ready then running && (at == Releasing || at == FailReleasing) else !running)
      ensures calls == old(calls) + 1 && (ready <==> script(old(calls)).outcome == Done)
    {
      hide Steps, HAPPY, Drawn, MayPlan, Publish, HoldTurn, PlanTurn, AppendTurn, PublishTurn, ReleaseTurn, Upgrade;
      var session := Ask();
      ready := session.outcome == Done;
      if ready { at := if at == OpeningRelease then Releasing else FailReleasing; } else { running := false; }
    }

    method ReleaseHold()
      requires Follows() && running && (at == Releasing || at == FailReleasing)
      requires calls > 0 && script(calls - 1).outcome == Done
      modifies this`calls, this`disk, this`running
      ensures Follows() && !running
      ensures disk == old(disk).(holds := ReleasedHolds(old(disk).holds, old(calls) - 1))
    {
      hide Steps, HAPPY, Drawn, MayPlan, Publish, HoldTurn, PlanTurn, AppendTurn, PublishTurn, Upgrade;
      var o := Ask();
      if hold.Some? && hold.value in disk.holds && !disk.holds[hold.value].released && o.outcome != Raised {
        disk := Release(disk, hold.value);
      }
      assert hold.Some? && hold.value in disk.holds && disk.holds[hold.value].released ==>
               disk.holds[hold.value := disk.holds[hold.value].(released := true)] == disk.holds;
      running := false;
    }

    // ---------------------------------------------------------------- the failure handler

    // The last phase allows the terminal one: something is logged, and before the database was touched it is not yet
    // `started`, after it not yet `state_committed`.
    ghost predicate Recordable(f: nat)
    {
      if f < 14 then 1 <= EventsAfter(f) <= 5 else 6 <= EventsAfter(f) <= 9
    }

    // The journal as the handler of failed call `f` leaves it.
    ghost function Handled(j: Journal, f: nat): Journal
    {
      var status := Terminal(f >= 14);
      if !Recordable(f) || script(f + 1).outcome == Raised then j
      else if script(f + 1).outcome == Torn || script(f + 2).outcome == Raised then j.(log := j.log + [status])
      else j.(log := j.log + [status], result := Some(status))
    }

    // The first call of the handler that has to do with the hold.
    ghost function HoldCall(f: nat): nat
    {
      if Recordable(f) && script(f + 1).outcome == Done then f + 3 else f + 2
    }

    lemma TerminalFits(f: nat, post: bool)
      requires f < 24 && (post <==> f >= 14)
      ensures EventsAfter(f) <= 11
      ensures MayAppend(HAPPY[..EventsAfter(f)], Terminal(post)) <==> Recordable(f)
    {
      var n := EventsAfter(f);
      if n > 0 { assert HAPPY[..n][n - 1] == HAPPY[n - 1]; }
    }

    // With the lock gone, record the outcome as far as the journal allows, then release the hold of a run that
    // failed before it touched the database.
    method TerminalFailure()
      requires Fallen(postMutation)
      modifies this`calls, this`at, this`disk, this`running
      ensures Follows() && !running
      ensures var f, d := old(calls) - 1, old(disk);
              disk == d.(journals := d.journals[id := Handled(d.journals[id], f)],
                         holds := if !postMutation && hold.Some? then ReleasedHolds(d.holds, HoldCall(f)) else d.holds)
    {
      hide Recordable, ReleasedHolds, Follows, EventsAfter, Publish, MayPlan, Good;
      var written := AppendTerminal();
      if written {
        WriteTerminalResult();
      }
      if !postMutation && hold.Some? {
        ReleaseHoldIfNeeded();
      }
    }

    method AppendTerminal() returns (written: bool)
      requires Fallen(postMutation)
      modifies this`calls, this`at, this`disk, this`running
      ensures Follows() && calls == old(calls) + 1
      ensures if written then running && at == FailResult(postMutation) && id in disk.journals && disk.journals[id].result.None?
              else if postMutation || hold.None? then !running else running && at == FailOpening
      ensures written <==> Recordable(old(calls) - 1) && script(old(calls)).outcome == Done
      ensures disk == if Recordable(old(calls) - 1) && script(old(calls)).outcome != Raised
                      then AppendEvent(old(disk), id, Terminal(postMutation)) else old(disk)
    {
      hide Steps, HAPPY, Drawn, MayPlan, Publish, HoldTurn, PlanTurn, AppendTurn, PublishTurn, ReleaseTurn, Upgrade;
      hide MayAppend;
      FailedCall();
      TerminalFits(calls - 1, postMutation);
      var o := Ask();
      var status := Terminal(postMutation);
      if id in disk.journals && MayAppend(disk.journals[id].log, status) && o.outcome != Raised {
        disk := AppendEvent(disk, id, status);
        if o.outcome == Done {
          at := FailResult(postMutation);
          return true;
        }
      }
      if postMutation || hold.None? { running := false; } else { at := FailOpening; }
      return false;
    }

    lemma FailedCall()
      requires Fallen(postMutation)
      ensures calls <= 24 && (postMutation <==> calls - 1 >= 14) && (Recordable(calls - 1) ==> calls < 24)
    {
    }

    method WriteTerminalResult()
      requires Follows() && running && at == FailResult(postMutation) && id in disk.journals && disk.journals[id].result.None?
      modifies this`calls, this`at, this`disk, this`running
      ensures Follows() && calls == old(calls) + 1
      ensures if postMutation || hold.None? then !running else running && at == FailOpening
      ensures disk == if script(old(calls)).outcome != Raised then WriteResult(old(disk), id, Terminal(postMutation)) else old(disk)
    {
      hide Steps, HAPPY, Drawn, MayPlan, Publish, HoldTurn, PlanTurn, AppendTurn, PublishTurn, ReleaseTurn, Upgrade;
      var o := Ask();
      if id in disk.journals && disk.journals[id].result.None? && o.outcome != Raised {
        disk := WriteResult(disk, id, Terminal(postMutation));
      }
      if postMutation || hold.None? { running := false; } else { at := FailOpening; }
    }

    // ---------------------------------------------------------------- the transaction

    // Up to and including the hold on a verified backup.
    method Protect() returns (raised: bool)
      requires On(WritingPlan)
      modifies this`calls, this`at, this`disk, this`before, this`backup, this`hold
      ensures if raised then Fallen(false) else On(CheckingSource)
    {
      hide On, Fallen;
      raised := WriteMigrationPlan();
      if raised { return; }
      raised := Append(Planned);
      if raised { return; }
      raised := AppendBackupStarted();
      if raised { return; }
      raised := OpenSession();
      if raised { return; }
      raised := CreateBackup();
      if raised { return; }
      raised := Append(BackupVerified);
      if raised { return; }
      raised := AcquireRetentionHold();
      if raised { return; }
      raised := Append(HoldAcquired);
      if raised { return; }
      CloseSession();
    }

    // The last checks; from here on a failure needs recovery.
    method Revalidate() returns (raised: bool)
      requires On(CheckingSource) && !postMutation
      modifies this`calls, this`at, this`disk, this`postMutation
      ensures if raised then Fallen(false) else On(Upgrading)
      ensures postMutation <==> !raised
    {
      hide On, Fallen;
      raised := CheckSource();
      if raised { return; }
      raised := Append(Revalidated);
      if raised { return; }
      raised := Append(Started);
      if raised { return; }
      postMutation := true;
      assert On(Upgrading);
    }

    // The database is changed, checked, and the application watched.
    method UpgradeAndVerify() returns (raised: bool)
      requires On(Upgrading)
      modifies this`calls, this`at, this`disk
      ensures if raised then Fallen(true) else On(ComparingState)
      ensures !raised ==> disk.live == plan.target
    {
      hide On, Fallen;
      raised := RunAlembicUpgrade();
      if raised { return; }
      raised := Append(CommandCompleted);
      if raised { return; }
      raised := CheckTarget();
      if raised { return; }
      raised := Append(TargetHeadsVerified);
      if raised { return; }
      raised := Append(Stabilized);
    }

    // The new state is published and the transaction closed.
    method Commit() returns (raised: bool)
      requires On(ComparingState) && disk.live == plan.target
      modifies this`calls, this`at, this`disk
      ensures if raised then Fallen(true)
              else AtRelease()
      ensures !raised ==> disk.live == plan.target
      ensures !raised ==> Publish(before, PublishEvent(plan, id, script(20).at)) == Some(disk.current)
    {
      hide On, Fallen, Publish, PublishEvent, Follows;
      raised := CompareState();
      if raised { return; }
      raised := WriteCurrentState();
      if raised { return; }
      raised := Append(StateCommitted);
      if raised { return; }
      raised := Append(Committed);
      if raised { return; }
      raised := WriteCommittedResult();
    }

    // The locked section, from the new journal to the committed result.
    method Transact() returns (raised: bool)
      requires On(WritingPlan) && !postMutation
      modifies this`calls, this`at, this`disk, this`before, this`backup, this`hold, this`postMutation
      ensures if raised then Fallen(postMutation)
              else AtRelease()
      ensures !raised ==> disk.live == plan.target
      ensures !raised ==> Publish(before, PublishEvent(plan, id, script(20).at)) == Some(disk.current)
    {
      hide On, Fallen, Publish, PublishEvent, Follows, GoodUpTo;
      raised := Protect();
      if raised { return; }
      raised := Revalidate();
      if raised { return; }
      raised := UpgradeAndVerify();
      if raised { return; }
      raised := Commit();
    }

    // The hold of this transaction is released if opening the backup root in call `c` and the next call went through.
    ghost predicate LetsGo(c: nat)
      reads `disk, `hold
    {
      && hold == Some(script(8).pick) && script(8).pick in disk.holds
      && (script(c).outcome == Done && script(c + 1).outcome != Raised ==> disk.holds[script(8).pick].released)
    }

    // What a call that failed at call `f` leaves: its journal, and its hold released.
    ghost predicate Leaves(f: nat)
      reads `id, `disk, `hold
    {
      && id == script(1).pick && id in disk.journals
      && (9 <= f < 14 ==> LetsGo(HoldCall(f)))
      && exists j: Journal :: && j.log == HAPPY[..EventsAfter(f)] && (j.result.None? || f == 23)
                              && disk.journals[id] == Handled(j, f)
    }

    /** The whole call. It succeeds exactly when each call up to the committed result ends normally and finds what it
        looks for; then the result is committed, the target heads are live, the published document is derived from the
        one it loaded, and the hold is released as far as that goes. Otherwise the first call that failed decides
        what is left: nothing, or the journal as its handler leaves it. */
    method RunMigration() returns (ok: bool)
      requires Follows() && running && at == WantLock && calls == 0 && hold.None? && !postMutation && disk == origin.disk
      modifies this`calls, this`at, this`running, this`disk, this`id, this`plan, this`before, this`backup, this`hold, this`postMutation
      ensures Follows() && !running
      ensures ok <==> GoodUpTo(24)
      ensures ok ==> disk.live == plan.target && id in disk.journals && disk.journals[id].result == Some(Committed)
      ensures ok ==> Publish(before, PublishEvent(plan, id, script(20).at)) == Some(disk.current)
      ensures ok ==> LetsGo(24)
      ensures forall f: nat :: f < 24 && FirstBad(f) ==>
                if f < 1 || (f == 1 && (script(1).outcome != Torn || !MayPlan(old(disk), script(1)))) then disk == old(disk) else Leaves(f)
    {
      hide On, Fallen, Publish, PublishEvent, Follows, Good, MayPlan, Leaves;
      var raised := TakeLock();
      if raised {
        FailsOnce(0);
        return false;
      }
      var created;
      created, raised := CreateJournal();
      if !created {
        FailsOnce(1);
        return false;
      }
      if !raised {
        raised := Transact();
      }
      if raised {
        FallenHere();
        ghost var f, j := calls - 1, disk.journals[id];
        TerminalFailure();
        LeftBy(j, f);
        FailsOnce(f);
        return false;
      }
      ReleaseHoldIfNeeded();
      return true;
    }

    lemma FallenHere()
      requires Fallen(postMutation)
      ensures 0 < calls <= 24 && FirstBad(calls - 1) && id == script(1).pick && id in disk.journals
      ensures disk.journals[id].log == HAPPY[..EventsAfter(calls - 1)] && (disk.journals[id].result.None? || calls == 24)
      ensures calls == 1 || Good(0)
      ensures HasHold(disk, Me(), calls <= 9) && (postMutation <==> calls > 14)
    {
      hide Good;
    }

    lemma LeftBy(j: Journal, f: nat)
      requires f < 24 && id == script(1).pick && id in disk.journals && disk.journals[id] == Handled(j, f)
      requires j.log == HAPPY[..EventsAfter(f)] && (j.result.None? || f == 23) && (9 <= f < 14 ==> LetsGo(HoldCall(f)))
      ensures Leaves(f)
    {
      hide Handled;
    }

    lemma FailsOnce(f: nat)
      requires FirstBad(f)
      ensures forall q: nat :: FirstBad(q) ==> q == f
      ensures forall n: nat :: n > f ==> !GoodUpTo(n)
    {
      hide Good;
    }
  }

  // ---------------------------------------------------------------- why that suffices

  // The system with this process in it, holding what its place says it holds, or gone.
  ghost function Alone(t: Turn, pid: Pid): Sys {
    if t.proc.None? then Sys(t.disk, None, None, map[])
    else Sys(t.disk, if HoldsRollout(t.proc.value) then Some(pid) else None,
             if HoldsSession(t.proc.value) then Some(pid) else None, map[pid := t.proc.value])
  }

  lemma AloneAdvances(t: Turn, pid: Pid, o: Oracle)
    ensures Alone(Then(t, o), pid) == Alone(t, pid) || Next(Alone(t, pid), Alone(Then(t, o), pid))
  {
    hide TurnOf, HoldsRollout, HoldsSession;
    if t.proc.Some? {
      var s := Alone(t, pid);
      assert s.procs[pid] == t.proc.value;
      var next := TurnOf(t.disk, t.proc.value, o);
      assert map[pid := t.proc.value] - {pid} == map[];
      if next.proc.Some? { assert map[pid := t.proc.value][pid := next.proc.value] == map[pid := next.proc.value]; }
      assert Advance(s, pid, o) == Alone(next, pid);
    }
  }

  /** What a call does from a reachable state with nobody else at work is reachable after each of its steps, so
      every guarantee of the protocol applies to the stores at that moment. */
  lemma {:induction false} EveryStepIsReachable(t: Turn, pid: Pid, script: nat -> Oracle, n: nat)
    requires Reachable(Alone(t, pid))
    ensures Reachable(Alone(Steps(t, script, n), pid))
  {
    hide Reachable, Alone, Then, Next;
    if n > 0 {
      EveryStepIsReachable(t, pid, script, n - 1);
      var last := Steps(t, script, n - 1);
      AloneAdvances(last, pid, script(n - 1));
      if Next(Alone(last, pid), Alone(Then(last, script(n - 1)), pid)) {
        MigrationLiveness.ReachableOn(Alone(last, pid), Alone(Then(last, script(n - 1)), pid));
      }
    }
  }
}
