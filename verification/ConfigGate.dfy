/** The gate of a config-only rollout: why recreating some services is as good as recreating all of them. */
module ConfigGate {
  import opened Wrappers
  import opened ConfigContract
  import Ordering

  type Envs = map<string, Env>

  // What one service's running environment and the rendered one disagree on, over the rendered keys.
  function Changed(target: Env, live: Env): set<string> {
    set key | key in target && (key !in live || live[key] != target[key])
  }

  function Deltas(services: set<string>, rendered: Envs, live: Envs): Option<map<string, set<string>>> {
    if !(services <= rendered.Keys) || !(services <= live.Keys) then None
    else Some(map s | s in services && Changed(rendered[s], live[s]) != {} :: Changed(rendered[s], live[s]))
  }

  method EnvironmentDeltas(order: seq<string>, rendered: Envs, live: Envs) returns (r: Option<map<string, set<string>>>)
    ensures r == Deltas(Ordering.Elements(order), rendered, live)
  {
    hide Changed;
    var deltas: map<string, set<string>> := map[];
    for i := 0 to |order|
      invariant forall k :: 0 <= k < i ==> order[k] in rendered && order[k] in live
      invariant forall s :: s in deltas <==>
                  s in order[..i] && s in rendered && s in live && Changed(rendered[s], live[s]) != {}
      invariant forall s :: s in deltas ==> s in rendered && s in live && deltas[s] == Changed(rendered[s], live[s])
    {
      var service := order[i];
      assert service in Ordering.Elements(order);
      if service !in rendered || service !in live {
        return None;
      }
      var changed := Changed(rendered[service], live[service]);
      if changed != {} {
        deltas := deltas[service := changed];
      }
    }
    assert order[..|order|] == order;
    ghost var services := Ordering.Elements(order);
    assert services <= rendered.Keys && services <= live.Keys;
    assert deltas == Deltas(services, rendered, live).value;
    return Some(deltas);
  }

  function Observed(deltas: map<string, set<string>>): set<(string, string)> {
    set s, key | s in deltas && key in deltas[s] :: (s, key)
  }

  function Expected(changed: set<string>, specs: Specs): set<(string, string)>
    requires changed <= specs.Keys
  {
    set key, s | key in changed && s in specs[key].services :: (s, key)
  }

  // Neither an unreviewed delta nor a receiver without one.
  predicate Passes(deltas: map<string, set<string>>, changed: set<string>, specs: Specs)
    requires changed <= specs.Keys
  {
    Observed(deltas) - Expected(changed, specs) == {} && Expected(changed, specs) - Observed(deltas) == {}
  }

  // ---------------------------------------------------------------- recreating services

  predicate AgreesWith(env: Env, target: Env) {
    forall key :: key in target ==> key in env && env[key] == target[key]
  }

  // A recreated container runs with the rendered values; the image may add others. The rest is left alone.
  ghost predicate Recreated(services: set<string>, affected: set<string>, rendered: Envs, live: Envs, after: Envs) {
    && services <= rendered.Keys && services <= live.Keys && services <= after.Keys
    && forall s :: s in services ==> if s in affected then AgreesWith(after[s], rendered[s]) else after[s] == live[s]
  }

  lemma AgreesIffUnchanged(env: Env, target: Env)
    ensures AgreesWith(env, target) <==> Changed(target, env) == {}
  {
    forall key | key in target ensures key in Changed(target, env) <==> key !in env || env[key] != target[key] {}
  }

  /** If the gate passes, the services not recreated already ran with the target, and after recreating the others
      every service does; on every key outside the reviewed change nothing moved. */
  lemma PartialEqualsFull(services: set<string>, rendered: Envs, live: Envs, after: Envs, changed: set<string>, specs: Specs)
    requires changed <= specs.Keys && Reviewed(specs, services)
    requires Deltas(services, rendered, live).Some? && Passes(Deltas(services, rendered, live).value, changed, specs)
    requires Recreated(services, AffectedServices(changed, specs), rendered, live, after)
    ensures forall s :: s in services ==> AgreesWith(after[s], rendered[s])
    ensures forall s :: s in services && s !in AffectedServices(changed, specs) ==> AgreesWith(live[s], rendered[s])
    ensures forall s, key :: s in services && key in rendered[s] && (s, key) !in Expected(changed, specs) ==>
              key in live[s] && key in after[s] && after[s][key] == live[s][key]
  {
    forall s | s in services && s !in AffectedServices(changed, specs) ensures AgreesWith(live[s], rendered[s]) {
      forall key ensures key !in Changed(rendered[s], live[s]) {
        DeltaIsExpected(services, rendered, live, changed, specs, s, key);
      }
      AgreesIffUnchanged(live[s], rendered[s]);
    }
    forall s, key | s in services && key in rendered[s] && (s, key) !in Expected(changed, specs)
      ensures key in live[s] && key in after[s] && after[s][key] == live[s][key]
    {
      DeltaIsExpected(services, rendered, live, changed, specs, s, key);
    }
  }

  lemma PassesIffSame(deltas: map<string, set<string>>, changed: set<string>, specs: Specs)
    requires changed <= specs.Keys
    ensures Passes(deltas, changed, specs) <==> Observed(deltas) == Expected(changed, specs)
  {
    var a, b := Observed(deltas), Expected(changed, specs);
    if a - b == {} && b - a == {} {
      forall pair ensures pair in a <==> pair in b {
        assert pair in a ==> pair in b || pair in a - b;
        assert pair in b ==> pair in a || pair in b - a;
      }
    }
  }

  lemma ObservedIs(services: set<string>, rendered: Envs, live: Envs, s: string, key: string)
    requires Deltas(services, rendered, live).Some? && s in services
    ensures (s, key) in Observed(Deltas(services, rendered, live).value) <==> key in Changed(rendered[s], live[s])
  {
    hide Changed;
  }

  // With the gate passed, a delta is a reviewed one and its service is recreated.
  lemma DeltaIsExpected(services: set<string>, rendered: Envs, live: Envs, changed: set<string>, specs: Specs,
                        s: string, key: string)
    requires changed <= specs.Keys && s in services
    requires Deltas(services, rendered, live).Some? && Passes(Deltas(services, rendered, live).value, changed, specs)
    ensures key in Changed(rendered[s], live[s]) ==>
              (s, key) in Expected(changed, specs) && s in AffectedServices(changed, specs)
  {
    PassesIffSame(Deltas(services, rendered, live).value, changed, specs);
    ObservedIs(services, rendered, live, s, key);
    hide Changed, Observed, Deltas, Passes;
  }

  /** Which services must be recreated: for any choice, every outcome agrees with the target exactly when each
      service with a delta was chosen. */
  lemma EnoughIffCovering(services: set<string>, chosen: set<string>, rendered: Envs, live: Envs)
    requires Deltas(services, rendered, live).Some?
    ensures (forall after :: Recreated(services, chosen, rendered, live, after) ==>
               forall s :: s in services ==> AgreesWith(after[s], rendered[s]))
            <==> Deltas(services, rendered, live).value.Keys <= chosen
  {
    var deltas := Deltas(services, rendered, live).value;
    forall s | s in services ensures AgreesWith(live[s], rendered[s]) <==> s !in deltas {
      AgreesIffUnchanged(live[s], rendered[s]);
    }
    var after := map s | s in services :: if s in chosen then rendered[s] else live[s];
    assert Recreated(services, chosen, rendered, live, after);
    if s :| s in deltas && s !in chosen {
      assert !AgreesWith(after[s], rendered[s]);
    }
  }

  // ---------------------------------------------------------------- reading the values back

  // What each reviewed key is, when all its receivers agree on it.
  ghost predicate Carries(envs: Envs, specs: Specs, values: Env) {
    values.Keys == specs.Keys && forall key :: key in specs ==> AllHave(envs, specs[key].services, key, values[key])
  }

  ghost predicate AllHave(envs: Envs, services: set<string>, key: string, value: string) {
    forall s :: s in services ==> Has(envs, s, key, value)
  }

  predicate Has(envs: Envs, s: string, key: string, value: string) {
    s in envs && key in envs[s] && envs[s][key] == value
  }

  // The rendered document gives a reviewed key to its receivers and to no other service.
  ghost predicate RenderedFor(rendered: Envs, specs: Specs, values: Env) {
    && Carries(rendered, specs, values)
    && forall key, s :: key in specs && s in rendered && key in rendered[s] ==> s in specs[key].services
  }

  /** After a rollout whose gate passed, the values read back from the running services are the target's, so the
      check that they were applied succeeds. */
  lemma TargetReadBack(services: set<string>, rendered: Envs, live: Envs, after: Envs, changed: set<string>, specs: Specs,
                       target: Env)
    requires changed <= specs.Keys && Reviewed(specs, services) && RenderedFor(rendered, specs, target)
    requires Deltas(services, rendered, live).Some? && Passes(Deltas(services, rendered, live).value, changed, specs)
    requires Recreated(services, AffectedServices(changed, specs), rendered, live, after)
    ensures Carries(after, specs, target)
  {
    PartialEqualsFull(services, rendered, live, after, changed, specs);
  }

  lemma CarriedValuesAreUnique(envs: Envs, specs: Specs, services: set<string>, a: Env, b: Env)
    requires Reviewed(specs, services) && Carries(envs, specs, a) && Carries(envs, specs, b)
    ensures a == b
  {
    forall key | key in specs ensures a[key] == b[key] {
      var s :| s in specs[key].services;
      assert Has(envs, s, key, a[key]) && Has(envs, s, key, b[key]);
    }
  }

  /** The keys the gate lets change are exactly those whose running value differs from the target's as text; a value
      that differs only in spelling is refused. */
  lemma GateOnUniformValues(services: set<string>, rendered: Envs, live: Envs, changed: set<string>, specs: Specs,
                            active: Env, target: Env)
    requires changed <= specs.Keys && Reviewed(specs, services)
    requires Carries(live, specs, active) && RenderedFor(rendered, specs, target)
    requires Deltas(services, rendered, live).Some?
    ensures Passes(Deltas(services, rendered, live).value, changed, specs) <==>
              && changed == (set key | key in specs && active[key] != target[key])
              && forall s, key :: s in services && key in Changed(rendered[s], live[s]) ==> key in specs
  {
    var deltas := Deltas(services, rendered, live).value;
    var differing := set key | key in specs && active[key] != target[key];
    PassesIffSame(deltas, changed, specs);
    ObservedInServices(services, rendered, live);
    UniformDeltas(services, rendered, live, specs, active, target);
    forall s, key | s in services ensures (s, key) in Observed(deltas) <==> key in Changed(rendered[s], live[s]) {
      ObservedIs(services, rendered, live, s, key);
    }
    hide Deltas, Passes, Observed, Changed, RenderedFor, Carries, Expected, Reviewed;
    SamePairs(Observed(deltas), services, changed, specs, differing);
  }

  lemma SamePairs(observed: set<(string, string)>, services: set<string>, changed: set<string>, specs: Specs,
                  differing: set<string>)
    requires Reviewed(specs, services) && changed <= specs.Keys && differing <= specs.Keys
    requires forall s, key :: (s, key) in observed ==> s in services
    requires forall s, key :: s in services && key in specs ==>
               ((s, key) in observed <==> s in specs[key].services && key in differing)
    ensures observed == Expected(changed, specs) <==>
              changed == differing && forall s, key :: (s, key) in observed ==> key in specs
  {
    if observed == Expected(changed, specs) {
      forall key | key in specs ensures key in changed <==> key in differing {
        var s :| s in specs[key].services;
        assert (s, key) in observed <==> key in changed;
      }
      assert changed == differing;
    }
    if changed == differing && forall s, key :: (s, key) in observed ==> key in specs {
      forall pair ensures pair in observed <==> pair in Expected(changed, specs) {
        assert pair == (pair.0, pair.1);
      }
    }
  }

  lemma ObservedInServices(services: set<string>, rendered: Envs, live: Envs)
    requires Deltas(services, rendered, live).Some?
    ensures forall s, key :: (s, key) in Observed(Deltas(services, rendered, live).value) ==> s in services
  {
    hide Changed;
  }

  lemma UniformDeltas(services: set<string>, rendered: Envs, live: Envs, specs: Specs, active: Env, target: Env)
    requires services <= rendered.Keys && services <= live.Keys
    requires Carries(live, specs, active) && RenderedFor(rendered, specs, target)
    ensures forall s, key :: s in services && key in specs ==>
              (key in Changed(rendered[s], live[s]) <==> s in specs[key].services && active[key] != target[key])
  {
  }

  lemma AllowlistIsReviewed()
    ensures Reviewed(RUNTIME_CONFIG_ALLOWLIST, RUNTIME_APPLICATION_SERVICES)
  {
    assert "api" in {"api"} && "api" in {"api", "delivery", "worker"} && "api" in {"api", "delivery"};
  }
}
