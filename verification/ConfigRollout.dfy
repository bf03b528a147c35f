/** The config-only rollout once its gate has passed: activation, automatic rollback and the nested handlers,
    with every call free to fail. Each durable write keeps `Valid`, so what it says also holds after a crash. */
module ConfigRollout {
  import opened Wrappers
  import opened Phases
  import opened ConfigContract
  import opened ConfigGate
  import EnvFile
  import EventLog

  // How a call ends; Torn means its effect took place and it raised all the same.
  datatype Ending = Done | Torn | Raised

  // What the environment decides about one call, and what runs after it when it recreates services.
  datatype Call = Call(ending: Ending, live: Envs)

  // The services run with these values: every receiver has them, up to normalisation.
  ghost predicate RunsWith(live: Envs, specs: Specs, values: Env) {
    exists raw :: Carries(live, specs, raw) && Normalize(raw, specs) == Some(values)
  }

  // Whatever is read from the services is the only thing that can be.
  lemma OneReading(live: Envs, specs: Specs, services: set<string>, raw: Env, values: Env)
    requires Reviewed(specs, services) && Carries(live, specs, raw)
    ensures RunsWith(live, specs, values) <==> Normalize(raw, specs) == Some(values)
  {
    hide Normalize, Carries;
    if RunsWith(live, specs, values) {
      var other :| Carries(live, specs, other) && Normalize(other, specs) == Some(values);
      CarriedValuesAreUnique(live, specs, services, raw, other);
    }
  }

  /** The services run with one set of values at most. */
  lemma RunsWithOne(live: Envs, specs: Specs, services: set<string>, a: Env, b: Env)
    requires Reviewed(specs, services) && RunsWith(live, specs, a) && RunsWith(live, specs, b)
    ensures a == b
  {
    hide Normalize, Carries;
    var raw :| Carries(live, specs, raw) && Normalize(raw, specs) == Some(a);
    OneReading(live, specs, services, raw, b);
  }

  /** The check every later rollout makes first: it refuses exactly when the services do not run with what is
      persisted. */
  method DriftRefuses(live: Envs, specs: Specs, ghost services: set<string>, persisted: Env) returns (refused: bool)
    requires Reviewed(specs, services)
    ensures refused <==> !RunsWith(live, specs, persisted)
  {
    var active := ActiveRuntimeValues(live, specs, services);
    if active.None? {
      return true;
    }
    var normal := NormalizeRuntimeValues(active.value, specs);
    OneReading(live, specs, services, active.value, persisted);
    return normal != Some(persisted);
  }

  // The one value all receivers of a key have.
  method ObserveKey(live: Envs, key: string, services: set<string>) returns (r: Option<string>)
    requires services != {}
    ensures r.Some? ==> AllHave(live, services, key, r.value)
    ensures r.None? ==> forall value :: !AllHave(live, services, key, value)
  {
    var remaining := services;
    ghost var first := "";
    r := None;
    while remaining != {}
      invariant remaining <= services && (remaining == services <==> r.None?)
      invariant r.Some? ==> AllHave(live, services - remaining, key, r.value)
      invariant r.Some? ==> first in services && Has(live, first, key, r.value)
      decreases |remaining|
    {
      var service :| service in remaining;
      remaining := remaining - {service};
      if service !in live || key !in live[service] {
        assert forall value :: !Has(live, service, key, value);
        return None;
      }
      if r.Some? && r.value != live[service][key] {
        assert forall value :: Has(live, first, key, value) ==> !Has(live, service, key, value);
        return None;
      }
      r, first := Some(live[service][key]), service;
    }
  }

  method ActiveRuntimeValues(live: Envs, specs: Specs, ghost services: set<string>) returns (r: Option<Env>)
    requires Reviewed(specs, services)
    ensures r.Some? ==> Carries(live, specs, r.value)
    ensures r.None? ==> forall values :: !Carries(live, specs, values)
  {
    hide AllHave;
    var remaining, values: Env := specs.Keys, map[];
    while remaining != {}
      invariant remaining <= specs.Keys && values.Keys == specs.Keys - remaining
      invariant forall key :: key in values ==> AllHave(live, specs[key].services, key, values[key])
      decreases |remaining|
    {
      var key :| key in remaining;
      var value := ObserveKey(live, key, specs[key].services);
      if value.None? {
        return None;
      }
      values := values[key := value.value];
      remaining := remaining - {key};
    }
    return Some(values);
  }

  predicate Terminal(phase: ConfigPhase) {
    phase == ConfigCommitted || phase == RolledBack || phase == RollbackFailed || phase == ConfigFailed
  }

  class Transaction {
    const specs: Specs
    ghost const services: set<string>
    const previous: Env
    const target: Env
    const script: nat -> Call

    var log: seq<ConfigPhase>
    var result: Option<ConfigPhase>
    var live: Envs
    var persisted: Env
    var calls: nat
    ghost var started: Envs

    // The plan is published and nothing has been recreated yet.
    constructor (specs: Specs, ghost services: set<string>, previous: Env, target: Env, live: Envs, script: nat -> Call)
      requires Reviewed(specs, services)
      requires RunsWith(live, specs, previous)
      ensures Valid() && log == [] && result.None? && persisted == previous && this.live == live
      ensures this.specs == specs && this.previous == previous && this.target == target && started == live
      ensures this.script == script && calls == 0
    {
      this.specs, this.services, this.previous, this.target, this.script := specs, services, previous, target, script;
      log, result, this.live, persisted, calls := [], None, live, previous, 0;
      started := live;
    }

    /** What the journal says, at every moment: the log is a path of the phase table; a result repeats its last
        phase; `failed` means no service was recreated; `rolled_back` and `committed` mean the services run with
        the previous and with the target values; and the persisted state moves on only with a committed result. */
    ghost predicate Valid() reads this {
      && Reviewed(specs, services)
      && EventLog.IsPathOf(log, ConfigPlanned, ConfigLegal)
      && (result.Some? ==> log != [] && log[|log| - 1] == result.value && Terminal(result.value))
      && (log == [] || log[|log| - 1] == ConfigPlanned || log[|log| - 1] == ConfigFailed ==> live == started)
      && (log != [] && log[|log| - 1] == RolledBack ==> RunsWith(live, specs, previous))
      && (log != [] && log[|log| - 1] == ConfigCommitted ==> RunsWith(live, specs, target))
      && (persisted == previous || (persisted == target && result == Some(ConfigCommitted)))
    }

    predicate Last(phase: ConfigPhase) reads this {
      log != [] && log[|log| - 1] == phase
    }

    method Next() returns (call: Call)
      modifies this`calls
      ensures call == script(old(calls)) && calls == old(calls) + 1
    {
      call := script(calls);
      calls := calls + 1;
    }

    // append_config_event
    method Append(phase: ConfigPhase) returns (raised: bool)
      requires Valid()
      requires phase == RolledBack ==> RunsWith(live, specs, previous)
      requires phase == ConfigCommitted ==> RunsWith(live, specs, target)
      modifies this`log, this`calls
      ensures Valid()
      ensures log == if EventLog.MayAppend(old(log), phase, ConfigPlanned, ConfigLegal) && script(old(calls)).ending != Raised
                     then old(log) + [phase] else old(log)
      ensures !raised ==> log == old(log) + [phase]
      ensures result.Some? ==> raised && log == old(log)
      ensures calls == old(calls) + 1
      ensures raised <==> !EventLog.MayAppend(old(log), phase, ConfigPlanned, ConfigLegal) || script(old(calls)).ending != Done
    {
      hide RunsWith;
      var call := Next();
      if !EventLog.MayAppend(log, phase, ConfigPlanned, ConfigLegal) || call.ending == Raised {
        return true;
      }
      assert (log + [phase])[..|log|] == log;
      log := log + [phase];
      return call.ending == Torn;
    }

    // write_config_result
    method WriteResult(status: ConfigPhase) returns (raised: bool)
      requires Valid() && Last(status) && Terminal(status)
      modifies this`result, this`calls
      ensures Valid() && (result == old(result) || (old(result).None? && result == Some(status)))
      ensures !raised ==> result == Some(status)
      ensures calls == old(calls) + 1 && (raised <==> old(result).Some? || script(old(calls)).ending != Done)
      ensures result == Some(status) <==> old(result) == Some(status) || (old(result).None? && script(old(calls)).ending != Raised)
    {
      hide RunsWith;
      var call := Next();
      if result.Some? || call.ending == Raised {
        return true;
      }
      result := Some(status);
      return call.ending == Torn;
    }

    // activate_services: whatever it managed to recreate is what runs now.
    method Activate() returns (raised: bool)
      requires Valid() && result.None? && (Last(Activating) || Last(RollbackStarted))
      modifies this`live, this`calls
      ensures Valid() && live == script(old(calls)).live
      ensures calls == old(calls) + 1 && (raised <==> script(old(calls)).ending != Done)
    {
      var call := Next();
      live := call.live;
      return call.ending != Done;
    }

    // A call that only looks or waits.
    method Looks() returns (raised: bool)
      modifies this`calls
      ensures calls == old(calls) + 1 && (raised <==> script(old(calls)).ending != Done)
    {
      var call := Next();
      return call.ending != Done;
    }

    // The running values are read back, normalised and compared.
    method ReadBack(wanted: Env) returns (raised: bool)
      requires Valid()
      modifies this`calls
      ensures Valid() && calls == old(calls) + 1
      ensures raised <==> script(old(calls)).ending != Done || !RunsWith(live, specs, wanted)
    {
      raised := Looks();
      var active := ActiveRuntimeValues(live, specs, services);
      if active.None? {
        return true;
      }
      var normal := NormalizeRuntimeValues(active.value, specs);
      OneReading(live, specs, services, active.value, wanted);
      if normal != Some(wanted) {
        return true;
      }
    }

    ghost predicate AllDone(first: nat, count: nat) {
      forall i :: first <= i < first + count ==> script(i).ending == Done
    }

    // The ten calls up to the committed event succeed, and the services come up with the target values.
    ghost predicate CommitReached() {
      AllDone(0, 10) && RunsWith(script(4).live, specs, target)
    }

    // ---------------------------------------------------------------- where a call fails, counted in calls

    // Call `i` of an activation that began with call `first`; the fourth reads the target values back.
    ghost predicate Acts(first: nat, i: nat) {
      script(i).ending == Done && (i == first + 3 ==> RunsWith(script(first + 1).live, specs, target))
    }

    ghost predicate ActivationFailsAt(first: nat, f: nat) {
      first <= f < first + 6 && !Acts(first, f) && forall i :: first <= i < f ==> Acts(first, i)
    }

    // The first event was not written, so the log still ends in `planned`.
    ghost predicate NeverActivated(first: nat, f: nat) {
      f == first && script(first).ending == Raised
    }

    // Call `i` of a rollback whose start event was call `k`; the fifth reads the previous values back.
    ghost predicate Restores(k: nat, i: nat) {
      script(i).ending == Done && (i == k + 4 ==> RunsWith(script(k + 2).live, specs, previous))
    }

    ghost predicate RollsBack(k: nat) {
      (forall i :: k <= i < k + 7 ==> Restores(k, i)) && script(k + 7).ending != Raised
    }

    // The rollback fails at call `r`, and nothing says `rolled_back`.
    ghost predicate RollbackFailsAt(k: nat, r: nat) {
      && k < r < k + 7 && !Restores(k, r) && (forall i :: k <= i < r ==> Restores(k, i))
      && (r == k + 6 ==> script(r).ending == Raised)
    }

    ghost predicate RecordsFailure(k: nat) {
      exists r: nat :: RollbackFailsAt(k, r) && script(r + 1).ending == Done && script(r + 2).ending != Raised
    }

    // The affected services are recreated and come up.
    method Recreate() returns (raised: bool)
      requires Valid() && result.None? && Last(ConfigPlanned)
      modifies this`log, this`live, this`calls
      ensures Valid() && (Last(ConfigPlanned) || Last(Activating))
      ensures !raised ==> Last(Activating) && calls == old(calls) + 3 && live == script(old(calls) + 1).live
      ensures !raised <==> AllDone(old(calls), 3)
      ensures raised ==> old(calls) < calls <= old(calls) + 3 && AllDone(old(calls), calls - 1 - old(calls))
      ensures raised ==> script(calls - 1).ending != Done
      ensures Last(ConfigPlanned) <==> raised && calls == old(calls) + 1 && script(old(calls)).ending == Raised
    {
      hide RunsWith, Reviewed, EventLog.IsPathOf;
      raised := Append(Activating);
      if raised { return; }
      raised := Activate();
      if raised { return; }
      raised := Looks();
    }

    // They run with the target, and go on doing so.
    method Settle() returns (raised: bool)
      requires Valid() && result.None? && Last(Activating)
      modifies this`log, this`calls
      ensures Valid() && (Last(Activating) || Last(Stabilizing))
      ensures !raised ==> Last(Stabilizing) && calls == old(calls) + 3
      ensures !raised <==> AllDone(old(calls), 3) && RunsWith(live, specs, target)
      ensures raised ==> old(calls) < calls <= old(calls) + 3 && AllDone(old(calls), calls - 1 - old(calls))
      ensures raised ==> script(calls - 1).ending != Done || (calls == old(calls) + 1 && !RunsWith(live, specs, target))
      ensures calls > old(calls) + 1 ==> RunsWith(live, specs, target)
    {
      hide RunsWith, Reviewed, EventLog.IsPathOf;
      raised := ReadBack(target);
      if raised { return; }
      raised := Append(Stabilizing);
      if raised { return; }
      raised := Looks();
    }

    // The guarded part: activate the target and watch it.
    method ActivateTarget() returns (raised: bool)
      requires Valid() && result.None? && Last(ConfigPlanned)
      modifies this`log, this`live, this`calls
      ensures Valid()
      ensures !raised ==> Last(Stabilizing) && RunsWith(live, specs, target)
      ensures raised ==> Last(ConfigPlanned) || Last(Activating) || Last(Stabilizing)
      ensures !raised ==> calls == old(calls) + 6
      ensures !raised <==> AllDone(old(calls), 6) && RunsWith(script(old(calls) + 1).live, specs, target)
      ensures raised ==> calls > old(calls) && ActivationFailsAt(old(calls), calls - 1)
      ensures raised ==> (Last(ConfigPlanned) <==> NeverActivated(old(calls), calls - 1))
    {
      hide RunsWith, Reviewed, EventLog.IsPathOf, Valid;
      raised := Recreate();
      if raised { return; }
      raised := Settle();
    }

    // The previous values are put back and seen running.
    method Restore(ghost k: nat) returns (raised: bool)
      requires Valid() && result.None? && Last(RollbackStarted) && calls == k + 1
      modifies this`live, this`calls
      ensures Valid() && (!raised ==> RunsWith(live, specs, previous))
      ensures forall i :: k < i < calls - 1 ==> Restores(k, i)
      ensures if raised then k + 2 <= calls <= k + 5 && !Restores(k, calls - 1) else calls == k + 5 && Restores(k, k + 4)
    {
      hide RunsWith, Reviewed, EventLog.IsPathOf;
      raised := Looks();
      if raised { return; }
      raised := Activate();
      if raised { return; }
      raised := Looks();
      if raised { return; }
      raised := ReadBack(previous);
    }

    // The rollback proper, between its start event and its result.
    method Rollback(ghost k: nat) returns (raised: bool)
      requires Valid() && result.None? && Last(RollbackStarted) && calls == k + 1 && script(k).ending == Done
      modifies this`log, this`live, this`result, this`calls
      ensures Valid() && (Last(RollbackStarted) || Last(RolledBack))
      ensures !raised ==> result == Some(RolledBack)
      ensures result.Some? ==> result == Some(RolledBack)
      ensures result == Some(RolledBack) <==> RollsBack(k)
      ensures if raised && Last(RollbackStarted) then calls > 0 && RollbackFailsAt(k, calls - 1) else NoFailure(k)
      ensures Last(RollbackStarted) ==> result.None?
    {
      hide RunsWith, Reviewed, EventLog.IsPathOf;
      raised := Restore(k);
      if raised { return; }
      raised := Looks();
      assert raised <==> !Restores(k, k + 5);
      if raised { return; }
      raised := Append(RolledBack);
      assert raised <==> !Restores(k, k + 6);
      if raised { return; }
      raised := WriteResult(RolledBack);
    }

    // The rollback got to its last event.
    ghost predicate NoFailure(k: nat) {
      (forall i :: k <= i < k + 6 ==> Restores(k, i)) && script(k + 6).ending != Raised
    }

    lemma OneFailure(k: nat, r: nat)
      requires RollbackFailsAt(k, r)
      ensures !NoFailure(k) && !RollsBack(k)
      ensures RecordsFailure(k) <==> script(r + 1).ending == Done && script(r + 2).ending != Raised
    {
      if q: nat :| RollbackFailsAt(k, q) && script(q + 1).ending == Done && script(q + 2).ending != Raised {
        assert q == r;
      }
    }

    lemma NoneRecorded(k: nat)
      requires NoFailure(k)
      ensures !RecordsFailure(k)
    {
    }

    // The handler of a failed activation. It may itself raise, into the outer handler.
    method HandleTargetFailure() returns (raised: bool)
      requires Valid() && result.None? && (Last(ConfigPlanned) || Last(Activating) || Last(Stabilizing))
      modifies this`log, this`live, this`result, this`calls
      ensures Valid()
      ensures !raised ==> result == Some(RolledBack) || result == Some(RollbackFailed)
      ensures result.Some? ==> result == Some(RolledBack) || result == Some(RollbackFailed)
      ensures Last(ConfigPlanned) ==> log == old(log) && live == old(live)
      ensures result == Some(RolledBack) <==> !old(Last(ConfigPlanned)) && RollsBack(old(calls))
      ensures result == Some(RollbackFailed) <==> !old(Last(ConfigPlanned)) && RecordsFailure(old(calls))
      ensures Last(ConfigPlanned) <==> old(Last(ConfigPlanned))
      ensures Last(ConfigPlanned) ==> raised && calls == old(calls) + 1
    {
      hide RunsWith, Reviewed, EventLog.IsPathOf, RollsBack, RecordsFailure, Restores, RollbackFailsAt, NoFailure;
      hide Valid;
      ghost var k := calls;
      raised := Append(RollbackStarted);
      if raised {
        NotEntered(k);
        return;
      }
      var failed := Rollback(k);
      if !failed || Last(RolledBack) { NoneRecorded(k); } else { OneFailure(k, calls - 1); }
      if !failed { return false; }
      raised := RecordRollbackFailure();
    }

    // A rollback that says `rolled_back` already, or has a result, cannot be recorded as failed any more.
    method RecordRollbackFailure() returns (raised: bool)
      requires Valid() && (Last(RollbackStarted) || Last(RolledBack)) && (Last(RollbackStarted) ==> result.None?)
      modifies this`log, this`result, this`calls
      ensures Valid() && !Last(ConfigPlanned)
      ensures if old(Last(RollbackStarted)) && script(old(calls)).ending == Done && script(old(calls) + 1).ending != Raised
              then result == Some(RollbackFailed) else raised && result == old(result)
      ensures !raised ==> result == Some(RollbackFailed)
    {
      hide RunsWith, Reviewed, EventLog.IsPathOf;
      raised := Append(RollbackFailed);
      if raised { return; }
      raised := WriteResult(RollbackFailed);
    }

    lemma NotEntered(k: nat)
      ensures script(k).ending != Done ==> !RollsBack(k) && !RecordsFailure(k)
    {
      assert script(k).ending != Done ==> !Restores(k, k);
    }

    // write_runtime_config_state
    method PersistTarget() returns (raised: bool)
      requires Valid() && result == Some(ConfigCommitted)
      modifies this`persisted, this`calls
      ensures Valid() && (raised <==> script(old(calls)).ending != Done)
      ensures persisted == if script(old(calls)).ending == Raised then old(persisted) else target
    {
      hide RunsWith;
      var call := Next();
      if call.ending == Raised { return true; }
      persisted := target;
      return call.ending == Torn;
    }

    method Commit() returns (raised: bool)
      requires Valid() && result.None? && Last(Stabilizing) && RunsWith(live, specs, target) && persisted == previous
      modifies this`log, this`result, this`persisted, this`calls
      ensures Valid() && (result.Some? ==> result == Some(ConfigCommitted)) && !Last(ConfigPlanned)
      ensures !raised <==> AllDone(old(calls), 3)
      ensures result == Some(ConfigCommitted) <==> AllDone(old(calls), 1) && script(old(calls) + 1).ending != Raised
      ensures persisted == if AllDone(old(calls), 2) && script(old(calls) + 2).ending != Raised then target else previous
    {
      hide RunsWith, Reviewed, EventLog.IsPathOf;
      raised := Append(ConfigCommitted);
      if raised { return; }
      raised := WriteResult(ConfigCommitted);
      if raised { return; }
      raised := PersistTarget();
    }

    // The outer handler: a rollout that never left `planned` is recorded as failed, anything else is left as it is.
    method HandleFailure()
      requires Valid()
      modifies this`log, this`result, this`calls
      ensures Valid()
      ensures result == old(result) || (old(result).None? && result == Some(ConfigFailed))
      ensures result == Some(ConfigFailed) && old(result).None? ==> live == started
      ensures result == if old(Last(ConfigPlanned)) && script(old(calls)).ending == Done && script(old(calls) + 1).ending != Raised
                        then Some(ConfigFailed) else old(result)
    {
      hide RunsWith;
      var raised := Append(ConfigFailed);
      if raised { return; }
      raised := WriteResult(ConfigFailed);
    }

    // The plan, its event and the image overrides.
    method Prepare() returns (raised: bool)
      requires Valid() && log == [] && result.None? && live == started && calls == 0
      modifies this`log, this`calls
      ensures Valid() && (raised <==> !AllDone(0, 3)) && (!raised ==> Last(ConfigPlanned) && calls == 3)
      ensures raised ==> if Last(ConfigPlanned) then StoppedAt(calls) else log == [] && forall c :: !StoppedAt(c)
    {
      hide RunsWith, Reviewed, EventLog.IsPathOf;
      raised := Looks();
      if raised { return; }
      raised := Append(ConfigPlanned);
      if raised { return; }
      raised := Looks();
    }

    // The transaction stopped before any service was recreated, with `planned` logged: call `c` records that.
    ghost predicate StoppedAt(c: nat) {
      || (c == 2 && AllDone(0, 1) && script(1).ending == Torn)
      || (c == 3 && AllDone(0, 2) && script(2).ending != Done)
      || (c == 5 && AllDone(0, 3) && script(3).ending == Raised)
    }

    lemma StoppedOnce()
      ensures forall c, d :: StoppedAt(c) && StoppedAt(d) ==> c == d
    {
    }

    // Activation failed after `activating` was logged, in the call before call `k`.
    ghost predicate RollbackBegins(k: nat) {
      k > 0 && AllDone(0, 3) && ActivationFailsAt(3, k - 1) && !NeverActivated(3, k - 1)
    }

    ghost predicate EndsRolledBack() {
      exists k :: RollbackBegins(k) && RollsBack(k)
    }

    ghost predicate EndsRollbackFailed() {
      exists k :: RollbackBegins(k) && RecordsFailure(k)
    }

    ghost predicate EndsFailed() {
      exists c: nat :: StoppedAt(c) && script(c).ending == Done && script(c + 1).ending != Raised
    }

    lemma OneBeginning(k: nat)
      requires RollbackBegins(k)
      ensures EndsRolledBack() <==> RollsBack(k)
      ensures EndsRollbackFailed() <==> RecordsFailure(k)
      ensures forall c :: !StoppedAt(c)
    {
      hide RollsBack, RecordsFailure;
      forall q: nat | RollbackBegins(q) ensures q == k {
        assert !Acts(3, q - 1) && !Acts(3, k - 1);
      }
      assert k != 4 ==> Acts(3, 3);
    }

    lemma NoBeginning()
      requires !AllDone(0, 3) || (exists f: nat :: ActivationFailsAt(3, f) && NeverActivated(3, f)) || AllActs()
      ensures !EndsRolledBack() && !EndsRollbackFailed()
    {
      hide RollsBack, RecordsFailure;
      forall k: nat ensures !RollbackBegins(k) {
        assert k > 0 && ActivationFailsAt(3, k - 1) ==> !Acts(3, k - 1) && (k != 4 ==> Acts(3, 3));
      }
    }

    ghost predicate AllActs() {
      forall i :: 3 <= i < 9 ==> Acts(3, i)
    }

    lemma AllDoneInParts()
      ensures AllDone(0, 10) <==> AllDone(0, 3) && AllDone(3, 6) && AllDone(9, 1)
      ensures AllDone(9, 2) <==> AllDone(9, 1) && AllDone(10, 1)
      ensures AllDone(9, 3) <==> AllDone(9, 1) && AllDone(10, 2)
      ensures AllDone(10, 2) ==> script(10).ending == Done
      ensures AllDone(10, 1) <==> script(10).ending == Done
    {
    }

    // Everything the outer handler guards: the plan, its event, the overrides, activation and commit.
    method Guarded() returns (raised: bool)
      requires Valid() && log == [] && result.None? && live == started && persisted == previous && calls == 0
      modifies this`log, this`result, this`live, this`persisted, this`calls
      ensures Valid() && (result.Some? ==> result.value != ConfigFailed)
      ensures !raised && result == Some(ConfigCommitted) <==> CommitReached() && AllDone(10, 2)
      ensures result == Some(ConfigCommitted) <==> CommitReached() && script(10).ending != Raised
      ensures persisted == if CommitReached() && AllDone(10, 1) && script(11).ending != Raised then target else previous
      ensures result == Some(RolledBack) <==> EndsRolledBack()
      ensures result == Some(RollbackFailed) <==> EndsRollbackFailed()
      ensures if raised && Last(ConfigPlanned) then result.None? && StoppedAt(calls) else forall c :: !StoppedAt(c)
    {
      hide RunsWith, Reviewed, EventLog.IsPathOf, EventLog.MayAppend, AllDone, Valid, Acts, ActivationFailsAt, RollsBack, RecordsFailure;
      hide EndsRolledBack, EndsRollbackFailed, StoppedAt, NeverActivated;
      AllDoneInParts();
      raised := Prepare();
      if raised {
        NoBeginning();
        return;
      }
      var failed := ActivateTarget();
      if failed {
        ghost var k := calls;
        if Last(ConfigPlanned) { Stops(k); } else { OneBeginning(k); }
        raised := HandleTargetFailure();
      } else {
        Goes();
        NoBeginning();
        raised := Commit();
      }
    }

    lemma Stops(k: nat)
      requires k > 0 && AllDone(0, 3) && ActivationFailsAt(3, k - 1) && NeverActivated(3, k - 1)
      ensures StoppedAt(k + 1) && !EndsRolledBack() && !EndsRollbackFailed()
    {
      NoBeginning();
    }

    lemma Goes()
      requires AllDone(0, 3) && AllDone(3, 6) && RunsWith(script(4).live, specs, target)
      ensures AllActs() && forall c :: !StoppedAt(c)
    {
      hide RunsWith;
    }

    /** The whole transaction, whatever fails in it. It ends committed exactly when activation held and the result was
        written, returning or not; the target is persisted exactly when that call returned and the next one wrote.
        It ends rolled back exactly when activation failed after it was logged and every call of the rollback held,
        with the previous values running; rollback_failed exactly when one of those calls failed and both records
        were written; failed exactly when it stopped with `planned` logged and both records were written. */
    method Run() returns (ok: bool)
      requires Valid() && log == [] && result.None? && live == started && persisted == previous && calls == 0
      modifies this`log, this`result, this`live, this`persisted, this`calls
      ensures Valid()
      ensures ok <==> CommitReached() && AllDone(10, 2)
      ensures ok ==> result == Some(ConfigCommitted) && persisted == target && RunsWith(live, specs, target)
      ensures result == Some(ConfigFailed) ==> live == old(live)
      ensures result == Some(RolledBack) ==> RunsWith(live, specs, previous)
      ensures result == Some(ConfigCommitted) ==> RunsWith(live, specs, target)
      ensures result == Some(ConfigCommitted) <==> CommitReached() && script(10).ending != Raised
      ensures persisted == if CommitReached() && AllDone(10, 1) && script(11).ending != Raised then target else previous
      ensures result == Some(RolledBack) <==> EndsRolledBack()
      ensures result == Some(RollbackFailed) <==> EndsRollbackFailed()
      ensures result == Some(ConfigFailed) <==> EndsFailed()
    {
      hide RunsWith, StoppedAt, EndsRolledBack, EndsRollbackFailed;
      StoppedOnce();
      var raised := Guarded();
      ok := !raised && result == Some(ConfigCommitted);
      if raised {
        HandleFailure();
      }
    }
  }

  // ---------------------------------------------------------------- committed, and not persisted

  // Everything succeeds but one call.
  function OneFails(at: nat, ending: Ending, after: Envs): nat -> Call {
    c => Call(if c == at then ending else Done, after)
  }

  /** Two rollouts that end committed with the previous values still persisted: the result was written but its call
      raised, or the state could not be written. Every later rollout then refuses on drift. */
  method CommittedButNotPersisted(specs: Specs, ghost services: set<string>, previous: Env, target: Env,
                                  live: Envs, after: Envs, torn: bool) returns (result: Option<ConfigPhase>, persisted: Env, refused: bool)
    requires Reviewed(specs, services) && previous != target
    requires RunsWith(live, specs, previous) && RunsWith(after, specs, target)
    ensures result == Some(ConfigCommitted) && persisted == previous && refused
  {
    hide RunsWith;
    var script := if torn then OneFails(10, Torn, after) else OneFails(11, Raised, after);
    var t := new Transaction(specs, services, previous, target, live, script);
    var ok := t.Run();
    result, persisted := t.result, t.persisted;
    if RunsWith(t.live, specs, previous) { RunsWithOne(t.live, specs, services, previous, target); }
    refused := DriftRefuses(t.live, specs, services, t.persisted);
  }

  const ONE_SWITCH: Specs := map["FREE_DOWNLOAD_QUOTA_ENABLED" := Spec({"api"}, Boolean)]

  function Switched(value: string): Env {
    map["FREE_DOWNLOAD_QUOTA_ENABLED" := value]
  }

  lemma SwitchRuns(value: string)
    requires value == "true" || value == "false"
    ensures RunsWith(map["api" := Switched(value)], ONE_SWITCH, Switched(value))
    ensures Reviewed(ONE_SWITCH, {"api"})
  {
    WordsArePlain(value);
    StripsToItself(value);
    assert "api" in {"api"};
    assert NormalizeValue(value, Boolean) == Some(value);
    hide NormalizeValue;
    var key := "FREE_DOWNLOAD_QUOTA_ENABLED";
    var specs := ONE_SWITCH;
    assert specs.Keys == {key} && Switched(value).Keys == {key};
    assert Normalize(Switched(value), specs).value == Switched(value);
    assert Carries(map["api" := Switched(value)], specs, Switched(value));
  }

  /** The concrete case, with the values of one reviewed switch. */
  method DriftHappens(torn: bool) returns (result: Option<ConfigPhase>, persisted: Env, refused: bool)
    ensures result == Some(ConfigCommitted) && persisted == Switched("false") && refused
  {
    SwitchRuns("false");
    SwitchRuns("true");
    assert Switched("false")["FREE_DOWNLOAD_QUOTA_ENABLED"] != Switched("true")["FREE_DOWNLOAD_QUOTA_ENABLED"];
    result, persisted, refused := CommittedButNotPersisted(ONE_SWITCH, {"api"}, Switched("false"), Switched("true"),
                                                           map["api" := Switched("false")], map["api" := Switched("true")], torn);
  }
}
