/** Running a command with bounded output: two reader threads and the main loop, one shared step at a time. */
module BoundedRun {
  import opened Wrappers

  type Bytes = seq<bv8>

  datatype Which = Stdout | Stderr

  datatype Error = LimitExceeded(which: Which) | ReadFailed(which: Which)

  // ---------------------------------------------------------------- a reader

  datatype ReaderAt = Checking | Reading | Holding(chunk: Bytes) | Reporting | Aborting | Ended(eof: bool)

  // `source` is everything the command and its descendants write before the last of them closes the pipe.
  datatype Reader = Reader(at: ReaderAt, limit: nat, source: Bytes, read: Bytes, sink: Bytes)

  // ---------------------------------------------------------------- the main thread

  datatype MainAt =
    | Polling | CheckingBox | CheckingLeader | JoiningOut | JoiningErr | CheckingOut | CheckingErr
    | Gate | SettingAbort | Waiting | Finally | LastJoin | Verdict
    | Returned(stdout: Bytes, stderr: Bytes) | Raised(cause: Cause)

  datatype Cause = Cancelled | TimedOut | ReaderError(error: Error) | ForcedCleanup

  datatype Main = Main(at: MainAt, cancelled: bool, timedOut: bool, cleanup: bool)

  datatype State = State(out: Reader, err: Reader, main: Main, box: seq<Error>, abort: bool)

  function Least(a: nat, b: nat): nat {
    if a < b then a else b
  }

  // What one read returns: bytes, the end of the stream once there are no more, or an exception.
  datatype Read = Chunk(bytes: Bytes) | Eof | Fails

  // What a step does to a reader, to the error box and to the abort event.
  datatype Effect = Effect(reader: Reader, box: seq<Error>, abort: bool)

  predicate CanRead(r: Reader, read: Read) {
    match read
    case Chunk(bytes) => bytes != [] && r.read + bytes <= r.source
    case Eof => r.read == r.source
    case Fails => true
  }

  function ReaderStep(r: Reader, which: Which, read: Read, box: seq<Error>, abort: bool): Effect {
    match r.at
    case Checking => Effect(r.(at := if abort then Ended(false) else Reading), box, abort)
    case Reading =>
      (match read
       case Chunk(bytes) => Effect(r.(at := Holding(bytes)), box, abort)
       case Eof => Effect(r.(at := Ended(true)), box, abort)
       case Fails => Effect(r.(at := Aborting), box + [ReadFailed(which)], abort))
    case Holding(chunk) =>
      var total := |r.read| + |chunk|;
      if total > r.limit then
        var keep := if r.limit > total - |chunk| then r.limit - (total - |chunk|) else 0;
        Effect(r.(at := Reporting, read := r.read + chunk, sink := r.sink + chunk[..keep]), box, abort)
      else Effect(r.(at := Checking, read := r.read + chunk, sink := r.sink + chunk), box, abort)
    case Reporting => Effect(r.(at := Aborting), box + [LimitExceeded(which)], abort)
    case Aborting => Effect(r.(at := Ended(false)), box, true)
    case Ended(_) => Effect(r, box, abort)
  }

  predicate HasLimitError(box: seq<Error>) {
    exists i :: 0 <= i < |box| && box[i].LimitExceeded?
  }

  // What the environment decides for the main thread.
  datatype Choice = Choice(cancel: bool, late: bool, exited: bool, reaped: bool)

  function MainStep(s: State, c: Choice): State {
    var m := s.main;
    match m.at
    case Polling =>
      if c.cancel then s.(main := m.(at := Gate, cancelled := true, cleanup := true))
      else if c.late then s.(main := m.(at := Gate, timedOut := true, cleanup := true))
      else s.(main := m.(at := CheckingBox))
    case CheckingBox =>
      s.(main := if HasLimitError(s.box) then m.(at := Gate, cleanup := true) else m.(at := CheckingLeader))
    case CheckingLeader => s.(main := m.(at := if c.exited then JoiningOut else Polling))
    case JoiningOut => s.(main := m.(at := JoiningErr))
    case JoiningErr => s.(main := m.(at := CheckingOut))
    case CheckingOut =>
      s.(main := if s.out.at.Ended? then m.(at := CheckingErr) else m.(at := Gate, cleanup := true))
    case CheckingErr => s.(main := m.(at := Gate, cleanup := m.cleanup || !s.err.at.Ended?))
    case Gate => s.(main := m.(at := if m.cleanup || s.abort then SettingAbort else Waiting))
    case SettingAbort => s.(main := m.(at := Finally), abort := true)
    case Waiting => s.(main := if c.reaped then m.(at := Finally) else m.(at := SettingAbort, cleanup := true))
    case Finally => s.(main := m.(at := LastJoin), abort := true)
    case LastJoin => s.(main := m.(at := Verdict))
    case Verdict =>
      s.(main := m.(at :=
        if m.cancelled then Raised(Cancelled)
        else if m.timedOut then Raised(TimedOut)
        else if s.box != [] then Raised(ReaderError(s.box[0]))
        else if m.cleanup then Raised(ForcedCleanup)
        else Returned(s.out.sink, s.err.sink)))
    case Returned(_, _) => s
    case Raised(_) => s
  }

  function OutStep(s: State, read: Read): State {
    var e := ReaderStep(s.out, Stdout, read, s.box, s.abort);
    s.(out := e.reader, box := e.box, abort := e.abort)
  }

  function ErrStep(s: State, read: Read): State {
    var e := ReaderStep(s.err, Stderr, read, s.box, s.abort);
    s.(err := e.reader, box := e.box, abort := e.abort)
  }

  ghost predicate Next(s: State, t: State) {
    || (exists read :: CanRead(s.out, read) && t == OutStep(s, read))
    || (exists read :: CanRead(s.err, read) && t == ErrStep(s, read))
    || (exists c :: t == MainStep(s, c))
  }

  ghost predicate Init(s: State) {
    && s.out == Reader(Checking, s.out.limit, s.out.source, [], [])
    && s.err == Reader(Checking, s.err.limit, s.err.source, [], [])
    && s.main == Main(Polling, false, false, false) && s.box == [] && !s.abort
  }

  ghost predicate IsRun(run: seq<State>) {
    && run != [] && Init(run[0])
    && forall i, k :: 0 <= i < k < |run| && k == i + 1 ==> Next(run[i], run[k])
  }

  // ---------------------------------------------------------------- the invariant

  // A reader keeps exactly the allowed prefix of what it has read, and reports the limit exactly when passed.
  ghost predicate ReaderInv(r: Reader, which: Which, box: seq<Error>) {
    && r.read <= r.source
    && (r.at.Holding? ==> r.at.chunk != [] && r.read + r.at.chunk <= r.source)
    && r.sink == r.read[..Least(r.limit, |r.read|)]
    && (r.at.Checking? || r.at.Reading? || r.at.Holding? ==> |r.read| <= r.limit)
    && (r.at.Reporting? ==> |r.read| > r.limit)
    && (r.at.Aborting? ==> box != [])
    && (r.at == Ended(true) ==> r.read == r.source && |r.read| <= r.limit)
    && (LimitExceeded(which) in box <==> |r.read| > r.limit && !r.at.Reporting?)
  }

  // The main thread may have set the abort event.
  predicate MainAborts(at: MainAt) {
    at.Finally? || at.LastJoin? || at.Verdict? || at.Returned? || at.Raised?
  }

  // What an exception says is so, and nothing that goes before it was.
  predicate Because(s: State, cause: Cause) {
    match cause
    case Cancelled => s.main.cancelled
    case TimedOut => s.main.timedOut && !s.main.cancelled
    case ReaderError(error) => error in s.box && !s.main.cancelled && !s.main.timedOut
    case ForcedCleanup => s.main.cleanup && !s.main.cancelled && !s.main.timedOut
  }

  predicate Blamed(s: State) {
    s.box != [] || s.main.cleanup
  }

  predicate Watching(at: MainAt) {
    at.Polling? || at.CheckingBox? || at.CheckingLeader? || at.JoiningOut? || at.JoiningErr? || at.CheckingOut?
    || at.CheckingErr?
  }

  ghost predicate MainInv(s: State) {
    var at := s.main.at;
    && (s.main.cancelled || s.main.timedOut ==> s.main.cleanup)
    && (Watching(at) ==> !s.main.cleanup)
    && (s.abort && !MainAborts(at) ==> s.box != [])
    && ((s.out.at == Ended(false) || s.err.at == Ended(false)) && !MainAborts(at) ==> s.box != [])
    && (at.CheckingErr? ==> s.out.at.Ended?)
    && (at.Gate? || at.Waiting? || at.SettingAbort? || MainAborts(at) ==>
          Blamed(s) || (s.out.at == Ended(true) && s.err.at == Ended(true)))
    && (at.Raised? ==> Because(s, at.cause))
    && (at.Returned? ==> !s.main.cleanup && s.out.at == Ended(true) && s.err.at == Ended(true)
                         && at.stdout == s.out.source && at.stderr == s.err.source)
  }

  ghost predicate Inv(s: State) {
    ReaderInv(s.out, Stdout, s.box) && ReaderInv(s.err, Stderr, s.box) && MainInv(s)
  }

  lemma ReaderKeeps(r: Reader, which: Which, read: Read, box: seq<Error>, abort: bool)
    requires ReaderInv(r, which, box) && CanRead(r, read)
    ensures var e := ReaderStep(r, which, read, box, abort);
            ReaderInv(e.reader, which, e.box) && e.reader.source == r.source && e.reader.limit == r.limit
  {
    match r.at
    case Holding(chunk) =>
      assert (r.read + chunk)[..|r.read|] == r.read;
      if |r.read| + |chunk| > r.limit {
        assert (r.read + chunk)[..r.limit] == r.read + chunk[..r.limit - |r.read|];
      }
    case Checking =>
    case Reading =>
      assert LimitExceeded(which) !in [ReadFailed(which)];
    case Reporting =>
    case Aborting =>
    case Ended(_) =>
  }

  // What the other reader and the main thread see of a reader's step.
  lemma ReaderEffect(r: Reader, which: Which, read: Read, box: seq<Error>, abort: bool)
    requires ReaderInv(r, which, box)
    ensures var e := ReaderStep(r, which, read, box, abort);
            && box <= e.box && (forall x :: x in e.box && x !in box ==> x.which == which)
            && (e.abort && !abort ==> e.box != [])
            && (r.at.Ended? ==> e.reader.at == r.at)
            && (e.reader.at == Ended(false) && r.at != Ended(false) ==> abort || e.box != [])
  {
  }

  lemma OtherReaderKeeps(r: Reader, which: Which, box: seq<Error>, more: seq<Error>)
    requires ReaderInv(r, which, box) && box <= more && forall x :: x in more && x !in box ==> x.which != which
    ensures ReaderInv(r, which, more)
  {
    assert LimitExceeded(which) in more ==> LimitExceeded(which) in box;
    assert LimitExceeded(which) in box ==> LimitExceeded(which) in more;
  }

  lemma NextInv(s: State, t: State)
    requires Inv(s) && Next(s, t)
    ensures Inv(t)
    ensures t.out.source == s.out.source && t.err.source == s.err.source
    ensures t.out.limit == s.out.limit && t.err.limit == s.err.limit
  {
    hide ReaderStep, ReaderInv, MainStep;
    if read :| CanRead(s.out, read) && t == OutStep(s, read) {
      ReaderKeeps(s.out, Stdout, read, s.box, s.abort);
      ReaderEffect(s.out, Stdout, read, s.box, s.abort);
      OtherReaderKeeps(s.err, Stderr, s.box, t.box);
      ReaderStepKeepsMain(s, t);
    } else if read :| CanRead(s.err, read) && t == ErrStep(s, read) {
      ReaderKeeps(s.err, Stderr, read, s.box, s.abort);
      ReaderEffect(s.err, Stderr, read, s.box, s.abort);
      OtherReaderKeeps(s.out, Stdout, s.box, t.box);
      ReaderStepKeepsMain(s, t);
    } else {
      var c :| t == MainStep(s, c);
      MainKeeps(s, c);
    }
  }

  lemma ReaderStepKeepsMain(s: State, t: State)
    requires MainInv(s) && t.main == s.main && s.box <= t.box
    requires s.out.at.Ended? ==> t.out.at == s.out.at
    requires s.err.at.Ended? ==> t.err.at == s.err.at
    requires t.out.source == s.out.source && t.err.source == s.err.source
    requires t.abort && !s.abort ==> t.box != []
    requires t.out.at == Ended(false) && s.out.at != Ended(false) ==> s.abort || t.box != []
    requires t.err.at == Ended(false) && s.err.at != Ended(false) ==> s.abort || t.box != []
    ensures MainInv(t)
  {
  }

  lemma WatchKeeps(s: State, c: Choice)
    requires MainInv(s) && Watching(s.main.at)
    ensures MainInv(MainStep(s, c))
  {
    hide HasLimitError;
    match s.main.at
    case Polling =>
    case CheckingBox =>
    case CheckingLeader =>
    case JoiningOut =>
    case JoiningErr =>
    case CheckingOut =>
    case CheckingErr =>
  }

  lemma CloseKeeps(s: State, c: Choice)
    requires MainInv(s) && !Watching(s.main.at) && s.main.at != Verdict
    ensures MainInv(MainStep(s, c))
  {
    match s.main.at
    case Gate =>
    case SettingAbort =>
    case Waiting =>
    case Finally =>
    case LastJoin =>
    case Returned(_, _) =>
    case Raised(_) =>
  }

  lemma VerdictKeeps(s: State, c: Choice)
    requires MainInv(s) && s.main.at == Verdict
    requires s.out.at == Ended(true) ==> s.out.sink == s.out.source
    requires s.err.at == Ended(true) ==> s.err.sink == s.err.source
    ensures MainInv(MainStep(s, c))
  {
  }

  lemma MainMovesOnly(s: State, c: Choice)
    ensures var t := MainStep(s, c); t.out == s.out && t.err == s.err && t.box == s.box
  {
    hide HasLimitError;
  }

  lemma MainKeeps(s: State, c: Choice)
    requires Inv(s)
    ensures Inv(MainStep(s, c))
    ensures MainStep(s, c).out == s.out && MainStep(s, c).err == s.err
  {
    FullSink(s.out, Stdout, s.box);
    FullSink(s.err, Stderr, s.box);
    MainMovesOnly(s, c);
    hide ReaderInv, MainInv, MainStep, Watching;
    if Watching(s.main.at) {
      WatchKeeps(s, c);
    } else if s.main.at == Verdict {
      VerdictKeeps(s, c);
    } else {
      CloseKeeps(s, c);
    }
  }

  lemma FullSink(r: Reader, which: Which, box: seq<Error>)
    requires ReaderInv(r, which, box)
    ensures r.at == Ended(true) ==> r.sink == r.source
  {
    if r.at == Ended(true) { assert r.read[..|r.read|] == r.read; }
  }

  lemma RunStep(run: seq<State>, k: nat)
    requires IsRun(run) && 0 < k < |run|
    ensures Next(run[k - 1], run[k])
  {
    hide Next, Init;
  }

  lemma {:induction false} RunInv(run: seq<State>, k: nat)
    requires IsRun(run) && k < |run|
    ensures Inv(run[k]) && run[k].out.source == run[0].out.source && run[k].err.source == run[0].err.source
    ensures run[k].out.limit == run[0].out.limit && run[k].err.limit == run[0].err.limit
  {
    if k > 0 {
      RunInv(run, k - 1);
      RunStep(run, k);
      hide IsRun, Inv, Next;
      NextInv(run[k - 1], run[k]);
    }
  }

  // ---------------------------------------------------------------- guarantees

  /** Whatever the interleaving, a run that returns saw the end of both streams: its output is all there was. */
  lemma ReturnIsComplete(run: seq<State>, k: nat)
    requires IsRun(run) && k < |run| && run[k].main.at.Returned?
    ensures run[k].main.at.stdout == run[0].out.source && |run[0].out.source| <= run[0].out.limit
    ensures run[k].main.at.stderr == run[0].err.source && |run[0].err.source| <= run[0].err.limit
    ensures run[k].out.at == Ended(true) && run[k].err.at == Ended(true)
  {
    RunInv(run, k);
    hide IsRun;
  }

  /** In every state each reader holds the allowed prefix of what it read, and the box holds its limit error
      exactly when it has read more than its limit (and is past the point of saying so). */
  lemma SinkIsPrefix(run: seq<State>, k: nat)
    requires IsRun(run) && k < |run|
    ensures var s := run[k];
            && s.out.sink == s.out.read[..Least(run[0].out.limit, |s.out.read|)] && s.out.read <= run[0].out.source
            && s.err.sink == s.err.read[..Least(run[0].err.limit, |s.err.read|)] && s.err.read <= run[0].err.source
            && (LimitExceeded(Stdout) in s.box <==> |s.out.read| > run[0].out.limit && !s.out.at.Reporting?)
            && (LimitExceeded(Stderr) in s.box <==> |s.err.read| > run[0].err.limit && !s.err.at.Reporting?)
  {
    RunInv(run, k);
    hide IsRun;
  }

  /** So a limit error is raised only over a stream longer than its limit, and such a run never returns. */
  lemma LimitErrorIsTrue(run: seq<State>, k: nat, which: Which)
    requires IsRun(run) && k < |run|
    ensures run[k].main.at == Raised(ReaderError(LimitExceeded(which))) ==>
              var r := if which == Stdout then run[0].out else run[0].err; |r.source| > r.limit
    ensures |run[0].out.source| > run[0].out.limit || |run[0].err.source| > run[0].err.limit ==> !run[k].main.at.Returned?
  {
    RunInv(run, k);
    SinkIsPrefix(run, k);
    if run[k].main.at.Returned? { ReturnIsComplete(run, k); }
    hide IsRun;
  }

  /** An exception has its reason: the run was cancelled, it ran out of time, a reader failed or passed its limit, or
      the process group had to be put down. A run that returned saw none of the others. */
  lemma RaisedHasReason(run: seq<State>, k: nat)
    requires IsRun(run) && k < |run|
    ensures run[k].main.at.Raised? ==> Because(run[k], run[k].main.at.cause) && Blamed(run[k])
    ensures run[k].main.at.Returned? ==> !run[k].main.cancelled && !run[k].main.timedOut && !run[k].main.cleanup
  {
    RunInv(run, k);
    hide IsRun;
  }

  // ---------------------------------------------------------------- a run that is in order can return

  function Last(run: seq<State>): State
    requires run != []
  {
    run[|run| - 1]
  }

  lemma Longer(run: seq<State>, t: State)
    requires IsRun(run) && Next(Last(run), t)
    ensures IsRun(run + [t]) && run <= run + [t] && Last(run + [t]) == t
  {
    hide Next;
  }

  // Nothing went wrong so far, and the main thread is not past its decision.
  ghost predicate InOrder(s: State) {
    && s.box == [] && !s.main.cleanup && (Watching(s.main.at) || s.main.at.Gate? || s.main.at.Waiting?)
    && |s.out.source| <= s.out.limit && |s.err.source| <= s.err.limit
  }

  predicate Busy(r: Reader) {
    r.at.Checking? || r.at.Reading? || r.at.Holding?
  }

  // How far the reader is from the end of its stream, reading what is left in one piece.
  function Left(r: Reader): nat {
    var full := r.read == r.source;
    match r.at
    case Checking => if full then 2 else 5
    case Reading => if full then 1 else 4
    case Holding(chunk) => if r.read + chunk == r.source then 3 else 6
    case _ => 0
  }

  function Rest(r: Reader): Read {
    if |r.read| < |r.source| then Chunk(r.source[|r.read|..]) else Eof
  }

  lemma ReaderGoesOn(r: Reader, which: Which, box: seq<Error>)
    requires ReaderInv(r, which, box) && Busy(r) && |r.source| <= r.limit
    ensures CanRead(r, Rest(r))
    ensures var e := ReaderStep(r, which, Rest(r), box, false);
            e.box == box && !e.abort && Left(e.reader) < Left(r) && (Busy(e.reader) || e.reader.at == Ended(true))
  {
    assert r.read + r.source[|r.read|..] == r.source;
    match r.at
    case Checking =>
    case Reading =>
    case Holding(chunk) => assert |r.read + chunk| <= |r.source|;
  }

  // The readers of a run that is in order are at work, or saw the end.
  lemma ReadersInOrder(s: State)
    requires Inv(s) && InOrder(s)
    ensures !s.abort
    ensures Busy(s.out) || s.out.at == Ended(true)
    ensures Busy(s.err) || s.err.at == Ended(true)
  {
  }

  lemma {:induction false} ReadersEnd(run: seq<State>) returns (more: seq<State>)
    requires IsRun(run) && InOrder(Last(run))
    ensures IsRun(more) && run <= more && InOrder(Last(more))
    ensures Last(more).out.at == Ended(true) && Last(more).err.at == Ended(true)
    decreases Left(Last(run).out) + Left(Last(run).err)
  {
    var s := Last(run);
    RunInv(run, |run| - 1);
    ReadersInOrder(s);
    hide IsRun, ReaderStep, Left, Rest, CanRead, MainInv;
    more := run;
    if Busy(s.out) {
      ReaderGoesOn(s.out, Stdout, s.box);
      ReaderKeeps(s.out, Stdout, Rest(s.out), s.box, s.abort);
      hide ReaderInv;
      Longer(run, OutStep(s, Rest(s.out)));
      more := ReadersEnd(run + [OutStep(s, Rest(s.out))]);
    } else if Busy(s.err) {
      ReaderGoesOn(s.err, Stderr, s.box);
      ReaderKeeps(s.err, Stderr, Rest(s.err), s.box, s.abort);
      hide ReaderInv;
      Longer(run, ErrStep(s, Rest(s.err)));
      more := ReadersEnd(run + [ErrStep(s, Rest(s.err))]);
    }
  }

  // The command has exited and is reaped; nobody cancels and the time is not up.
  const Calmly: Choice := Choice(false, false, true, true)

  function ToGo(at: MainAt): nat {
    match at
    case Polling => 12
    case CheckingBox => 11
    case CheckingLeader => 10
    case JoiningOut => 9
    case JoiningErr => 8
    case CheckingOut => 7
    case CheckingErr => 6
    case Gate => 5
    case SettingAbort => 4
    case Waiting => 4
    case Finally => 3
    case LastJoin => 2
    case Verdict => 1
    case _ => 0
  }

  // What there is to blame, the first of these: the caller, the clock, a reader, or the clean-up that was needed.
  function Due(s: State): Option<Cause> {
    if s.main.cancelled then Some(Cancelled)
    else if s.main.timedOut then Some(TimedOut)
    else if s.box != [] then Some(ReaderError(s.box[0]))
    else if s.main.cleanup then Some(ForcedCleanup)
    else None
  }

  ghost predicate BothEnded(s: State) {
    s.out.at == Ended(true) && s.err.at == Ended(true)
  }

  lemma WatchGoesOn(s: State)
    requires Watching(s.main.at) && (Due(s).Some? || BothEnded(s))
    ensures var t := MainStep(s, Calmly); Due(t) == Due(s) && 0 < ToGo(t.main.at) < ToGo(s.main.at)
  {
    match s.main.at
    case Polling =>
    case CheckingBox => assert !HasLimitError([]);
    case CheckingLeader =>
    case JoiningOut =>
    case JoiningErr =>
    case CheckingOut =>
    case CheckingErr =>
  }

  lemma CloseGoesOn(s: State)
    requires !Watching(s.main.at) && ToGo(s.main.at) > 0
    ensures var t := MainStep(s, Calmly);
            if s.main.at.Verdict?
            then t.main.at == if Due(s).Some? then Raised(Due(s).value) else Returned(s.out.sink, s.err.sink)
            else Due(t) == Due(s) && 0 < ToGo(t.main.at) < ToGo(s.main.at)
  {
    match s.main.at
    case Gate =>
    case SettingAbort =>
    case Waiting =>
    case Finally =>
    case LastJoin =>
    case Verdict =>
  }

  /** From every state of every run the main thread can finish, and it finishes with what is to blame: with a result
      exactly if there is nothing to blame and both readers saw the end. */
  lemma {:induction false} Finishes(run: seq<State>) returns (more: seq<State>)
    requires IsRun(run) && ToGo(Last(run).main.at) > 0 && (Due(Last(run)).Some? || BothEnded(Last(run)))
    ensures IsRun(more) && run <= more
    ensures var s := Last(run);
            Last(more).main.at == if Due(s).Some? then Raised(Due(s).value) else Returned(s.out.sink, s.err.sink)
    decreases ToGo(Last(run).main.at)
  {
    var s := Last(run);
    if Watching(s.main.at) { WatchGoesOn(s); } else { CloseGoesOn(s); }
    MainMovesOnly(s, Calmly);
    var t := MainStep(s, Calmly);
    assert Next(s, t);
    hide IsRun, Due, MainStep, ToGo, Next, Watching;
    Longer(run, t);
    more := run + [t];
    if s.main.at != Verdict { more := Finishes(more); }
  }

  /** From every state of every run in which nothing has gone wrong, over streams within their limits, the run can go on
      to return everything there was on both. */
  lemma CanReturn(run: seq<State>) returns (more: seq<State>)
    requires IsRun(run) && InOrder(Last(run))
    ensures IsRun(more) && run <= more && Last(more).main.at == Returned(run[0].out.source, run[0].err.source)
  {
    more := ReadersEnd(run);
    RunInv(more, |more| - 1);
    assert Due(Last(more)).None? && ToGo(Last(more).main.at) > 0 by { hide IsRun, ReaderInv; }
    hide IsRun, Inv, InOrder, Due, ToGo;
    more := Finishes(more);
    ReturnIsComplete(more, |more| - 1);
    assert run[0] == more[0];
  }

  /** A run that is cancelled, or out of time, while the command is watched ends with that exception. */
  lemma StoppedRaises(run: seq<State>, cancel: bool) returns (more: seq<State>)
    requires IsRun(run) && Last(run).main.at.Polling?
    ensures IsRun(more) && run <= more && Last(more).main.at == Raised(if cancel then Cancelled else TimedOut)
  {
    var s := Last(run);
    var t := MainStep(s, Choice(cancel, true, false, false));
    assert Next(s, t);
    RunInv(run, |run| - 1);
    hide IsRun, Next, ReaderInv;
    Longer(run, t);
    more := Finishes(run + [t]);
  }

  // ---------------------------------------------------------------- one reader by itself

  function Flatten(chunks: seq<Bytes>): Bytes {
    if chunks == [] then [] else Flatten(chunks[..|chunks| - 1]) + chunks[|chunks| - 1]
  }

  /** The reader's own loop over the chunks its stream yields; `aborted` says when it finds the event set. */
  method ReadStreamBounded(chunks: seq<Bytes>, limit: nat, aborted: nat -> bool)
    returns (sink: Bytes, read: nat, exceeded: bool, eof: bool)
    requires forall i :: 0 <= i < |chunks| ==> chunks[i] != []
    ensures read <= |chunks|
    ensures sink == Flatten(chunks[..read])[..Least(limit, |Flatten(chunks[..read])|)]
    ensures exceeded <==> |Flatten(chunks[..read])| > limit
    ensures eof ==> read == |chunks| && !exceeded && sink == Flatten(chunks)
    ensures !eof && !exceeded ==> aborted(read)
  {
    var total := 0;
    sink, read, exceeded, eof := [], 0, false, false;
    while !aborted(read)
      invariant read <= |chunks| && total == |sink| <= limit && !exceeded && !eof
      invariant sink == Flatten(chunks[..read])
      decreases |chunks| - read
    {
      if read == |chunks| {
        eof := true;
        break;
      }
      var chunk := chunks[read];
      assert chunks[..read + 1][..read] == chunks[..read];
      read := read + 1;
      total := total + |chunk|;
      if total > limit {
        var keep := limit - (total - |chunk|);
        sink := sink + chunk[..keep];
        exceeded := true;
        return;
      }
      sink := sink + chunk;
    }
    assert eof ==> chunks[..read] == chunks;
  }
}
