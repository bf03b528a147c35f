/** The npm audit report: when its `via` references are accepted, and what findings come out. */
module NpmVia {
  import opened Wrappers

  // An advisory object, with the identifier found in its url.
  datatype Advice = Advice(ghsa: Option<string>, source: Option<int>, title: string)

  datatype Item = Ref(name: string) | Object(advice: Advice) | Other

  datatype Entry =
    | NotObject
    | NoVia
    | ViaNotList
    | Via(items: seq<Item>, nodesAreList: bool)

  type Report = map<string, Entry>

  datatype Error = JsonMalformed | JsonIncomplete | InventoryIncomplete

  datatype Identifier = Named(text: string) | Numbered(source: int)

  function AdvisoryOf(advice: Advice): Option<Identifier> {
    if advice.ghsa.Some? then Some(Named(advice.ghsa.value))
    else if advice.source.Some? then Some(Numbered(advice.source.value))
    else if advice.title != "" then Some(Named(advice.title))
    else None
  }

  function FirstOf<T>(options: seq<Option<T>>): Option<T> {
    if options == [] then None else if options[0].Some? then options[0] else FirstOf(options[1..])
  }

  function Known(advice: Advice): seq<Option<Identifier>> {
    [ if advice.ghsa.Some? then Some(Named(advice.ghsa.value)) else None,
      if advice.source.Some? then Some(Numbered(advice.source.value)) else None,
      if advice.title != "" then Some(Named(advice.title)) else None ]
  }

  // An advisory goes by its GHSA identifier, failing that by its number, and failing both by its title.
  lemma AdvisoryIsFirstKnown(advice: Advice)
    ensures AdvisoryOf(advice) == FirstOf(Known(advice))
  {
    var known := Known(advice);
    assert known[1..] == [known[1], known[2]] && [known[1], known[2]][1..] == [known[2]];
    assert FirstOf([known[2]]) == known[2];
  }

  // ---------------------------------------------------------------- following one reference

  function CheckTarget(target: string, vulns: Report, visiting: set<string>): Option<Error>
    decreases |vulns.Keys - visiting|, 1, 0
  {
    if target == "" then Some(JsonIncomplete)
    else if target in visiting || target !in vulns then Some(InventoryIncomplete)
    else
      match vulns[target]
      case NotObject => Some(JsonMalformed)
      case NoVia => Some(JsonIncomplete)
      case ViaNotList => Some(JsonMalformed)
      case Via(items, _) =>
        Shrinks(vulns.Keys, visiting, target);
        if items == [] then Some(InventoryIncomplete) else CheckItems(items, vulns, visiting + {target})
  }

  function CheckItems(items: seq<Item>, vulns: Report, visiting: set<string>): Option<Error>
    decreases |vulns.Keys - visiting|, 2, |items|
  {
    if items == [] then None
    else
      var here := CheckItem(items[0], vulns, visiting);
      if here.Some? then here else CheckItems(items[1..], vulns, visiting)
  }

  function CheckItem(item: Item, vulns: Report, visiting: set<string>): Option<Error>
    decreases |vulns.Keys - visiting|, 1, 1
  {
    match item
    case Ref(name) => CheckTarget(name, vulns, visiting)
    case Object(advice) => if AdvisoryOf(advice).None? then Some(JsonIncomplete) else None
    case Other => Some(JsonMalformed)
  }

  lemma Shrinks(keys: set<string>, visiting: set<string>, target: string)
    requires target in keys && target !in visiting
    ensures |keys - (visiting + {target})| < |keys - visiting|
  {
    assert keys - visiting == (keys - (visiting + {target})) + {target};
  }

  /** The recursive search, its loop stopping at the first branch that is lost. */
  method TargetReachesAdvisory(target: string, vulns: Report, visiting: set<string>) returns (error: Option<Error>)
    ensures error == CheckTarget(target, vulns, visiting)
    decreases |vulns.Keys - visiting|
  {
    if target == "" {
      return Some(JsonIncomplete);
    }
    if target in visiting || target !in vulns {
      return Some(InventoryIncomplete);
    }
    var entry := vulns[target];
    if entry.NotObject? || entry.ViaNotList? {
      return Some(JsonMalformed);
    }
    if entry.NoVia? {
      return Some(JsonIncomplete);
    }
    if entry.items == [] {
      return Some(InventoryIncomplete);
    }
    Shrinks(vulns.Keys, visiting, target);
    var next := visiting + {target};
    for i := 0 to |entry.items|
      invariant CheckItems(entry.items, vulns, next) == CheckItems(entry.items[i..], vulns, next)
    {
      var item := entry.items[i];
      var here: Option<Error>;
      if item.Ref? {
        here := TargetReachesAdvisory(item.name, vulns, next);
      } else if item.Other? {
        here := Some(JsonMalformed);
      } else {
        here := if AdvisoryOf(item.advice).None? then Some(JsonIncomplete) else None;
      }
      assert here == CheckItem(item, vulns, next);
      if here.Some? {
        return here;
      }
    }
    return None;
  }

  // ---------------------------------------------------------------- what acceptance means

  ghost predicate RefersTo(vulns: Report, a: string, b: string) {
    a in vulns && vulns[a].Via? && Ref(b) in vulns[a].items
  }

  ghost predicate IsChain(vulns: Report, c: seq<string>) {
    c != [] && forall i, k :: 0 <= i < k < |c| && k == i + 1 ==> RefersTo(vulns, c[i], c[k])
  }

  // Considered by itself the entry is complete: it has branches, and each object among them names its advisory.
  predicate Complete(vulns: Report, name: string) {
    && name != "" && name in vulns && vulns[name].Via? && vulns[name].items != []
    && forall i :: 0 <= i < |vulns[name].items| ==> ItemComplete(vulns[name].items[i])
  }

  predicate ItemComplete(item: Item) {
    !item.Other? && (item.Object? ==> AdvisoryOf(item.advice).Some?)
  }

  ghost predicate GoodEnd(vulns: Report, visiting: set<string>, c: seq<string>)
    requires c != []
  {
    var last := c[|c| - 1];
    Complete(vulns, last) && last !in visiting && last !in c[..|c| - 1]
  }

  lemma ItemsIff(items: seq<Item>, vulns: Report, visiting: set<string>)
    ensures CheckItems(items, vulns, visiting).None? <==>
            forall i :: 0 <= i < |items| ==> CheckItem(items[i], vulns, visiting).None?
  {
    if items != [] {
      ItemsIff(items[1..], vulns, visiting);
      assert forall i :: 0 < i < |items| ==> items[i] == items[1..][i - 1];
    }
  }

  lemma ItemsSplit(items: seq<Item>, vulns: Report, visiting: set<string>)
    ensures CheckItems(items, vulns, visiting).None? <==>
              && (forall i :: 0 <= i < |items| ==> ItemComplete(items[i]))
              && (forall b :: Ref(b) in items ==> CheckTarget(b, vulns, visiting).None?)
  {
    ItemsIff(items, vulns, visiting);
    forall i | 0 <= i < |items|
      ensures CheckItem(items[i], vulns, visiting).None? <==>
                ItemComplete(items[i]) && (items[i].Ref? ==> CheckTarget(items[i].name, vulns, visiting).None?)
    {
    }
    hide CheckTarget, CheckItems, CheckItem, ItemComplete;
    forall b | Ref(b) in items ensures exists i :: 0 <= i < |items| && items[i] == Ref(b) {}
  }

  // Accepting a target accepts what it refers to, with the target under visit.
  lemma AcceptedIff(target: string, vulns: Report, visiting: set<string>)
    ensures CheckTarget(target, vulns, visiting).None? <==>
              && Complete(vulns, target) && target !in visiting
              && forall b :: RefersTo(vulns, target, b) ==> CheckTarget(b, vulns, visiting + {target}).None?
  {
    if target != "" && target in vulns && target !in visiting && vulns[target].Via? {
      var next := visiting + {target};
      ItemsSplit(vulns[target].items, vulns, next);
      assert forall b :: RefersTo(vulns, target, b) <==> Ref(b) in vulns[target].items;
      assert CheckTarget(target, vulns, visiting) ==
        if vulns[target].items == [] then Some(InventoryIncomplete) else CheckItems(vulns[target].items, vulns, next);
      hide CheckTarget, CheckItems, CheckItem, ItemComplete;
    }
  }

  lemma ChainHead(vulns: Report, c: seq<string>)
    requires IsChain(vulns, c) && |c| > 1
    ensures RefersTo(vulns, c[0], c[1]) && IsChain(vulns, c[1..])
  {
    var rest := c[1..];
    forall i, k | 0 <= i < k < |rest| && k == i + 1 ensures RefersTo(vulns, rest[i], rest[k]) {
      assert RefersTo(vulns, c[i + 1], c[k + 1]);
    }
  }

  lemma ChainCons(vulns: Report, a: string, c: seq<string>)
    requires IsChain(vulns, c) && RefersTo(vulns, a, c[0])
    ensures IsChain(vulns, [a] + c)
  {
    var longer := [a] + c;
    forall i, k | 0 <= i < k < |longer| && k == i + 1 ensures RefersTo(vulns, longer[i], longer[k]) {
      if i > 0 { assert RefersTo(vulns, c[i - 1], c[k - 1]); }
    }
  }

  lemma {:induction false} AcceptedChains(target: string, vulns: Report, visiting: set<string>, c: seq<string>)
    requires CheckTarget(target, vulns, visiting).None? && IsChain(vulns, c) && c[0] == target
    ensures GoodEnd(vulns, visiting, c)
    decreases |c|
  {
    AcceptedIff(target, vulns, visiting);
    hide CheckTarget, Complete;
    if |c| > 1 {
      ChainHead(vulns, c);
      AcceptedChains(c[1], vulns, visiting + {target}, c[1..]);
      assert c[..|c| - 1] == [target] + c[1..][..|c| - 2];
    }
  }

  lemma GoodWithout(vulns: Report, visiting: set<string>, target: string, c: seq<string>)
    requires c != [] && GoodEnd(vulns, visiting, [target] + c)
    ensures GoodEnd(vulns, visiting + {target}, c)
  {
    hide Complete;
    var longer := [target] + c;
    assert longer[..|longer| - 1] == [target] + c[..|c| - 1];
  }

  lemma {:induction false} GoodChainsAccepted(target: string, vulns: Report, visiting: set<string>)
    requires forall c :: IsChain(vulns, c) && c[0] == target ==> GoodEnd(vulns, visiting, c)
    ensures CheckTarget(target, vulns, visiting).None?
    decreases |vulns.Keys - visiting|
  {
    assert IsChain(vulns, [target]) && GoodEnd(vulns, visiting, [target]);
    AcceptedIff(target, vulns, visiting);
    Shrinks(vulns.Keys, visiting, target);
    forall b | RefersTo(vulns, target, b) ensures CheckTarget(b, vulns, visiting + {target}).None? {
      forall c | IsChain(vulns, c) && c[0] == b ensures GoodEnd(vulns, visiting + {target}, c) {
        ChainCons(vulns, target, c);
        GoodWithout(vulns, visiting, target, c);
      }
      GoodChainsAccepted(b, vulns, visiting + {target});
    }
    hide CheckTarget;
  }

  /** A target is accepted exactly when every chain of references from it ends in a complete entry it has not
      met before. */
  lemma AcceptedIffEveryChainIsGood(target: string, vulns: Report, visiting: set<string>)
    ensures CheckTarget(target, vulns, visiting).None? <==>
            forall c :: IsChain(vulns, c) && c[0] == target ==> GoodEnd(vulns, visiting, c)
  {
    if CheckTarget(target, vulns, visiting).None? {
      forall c | IsChain(vulns, c) && c[0] == target ensures GoodEnd(vulns, visiting, c) {
        AcceptedChains(target, vulns, visiting, c);
      }
    } else if forall c :: IsChain(vulns, c) && c[0] == target ==> GoodEnd(vulns, visiting, c) {
      GoodChainsAccepted(target, vulns, visiting);
    }
  }

  /** Following references from an accepted target always comes to an entry with an advisory of its own. */
  lemma {:induction false} ReachesEvidence(target: string, vulns: Report, visiting: set<string>) returns (c: seq<string>)
    requires CheckTarget(target, vulns, visiting).None?
    ensures IsChain(vulns, c) && c[0] == target
    ensures HasAdvisory(vulns, c[|c| - 1])
    decreases |vulns.Keys - visiting|
  {
    AcceptedIff(target, vulns, visiting);
    var item := vulns[target].items[0];
    if item.Ref? {
      Shrinks(vulns.Keys, visiting, target);
      assert RefersTo(vulns, target, item.name);
      var rest := ReachesEvidence(item.name, vulns, visiting + {target});
      ChainCons(vulns, target, rest);
      c := [target] + rest;
    } else {
      c := [target];
      assert item in vulns[target].items;
    }
  }

  ghost predicate HasAdvisory(vulns: Report, name: string) {
    name in vulns && vulns[name].Via? &&
    exists advice :: Object(advice) in vulns[name].items && AdvisoryOf(advice).Some?
  }

  // ---------------------------------------------------------------- the whole report

  ghost predicate Closed(vulns: Report) {
    forall a, b :: RefersTo(vulns, a, b) ==> b in vulns
  }

  ghost predicate Acyclic(vulns: Report) {
    forall c :: IsChain(vulns, c) && |c| > 1 ==> c[0] != c[|c| - 1]
  }

  ghost predicate Sound(vulns: Report) {
    (forall name :: name in vulns ==> Complete(vulns, name)) && Closed(vulns) && Acyclic(vulns)
  }

  predicate PackageAccepted(vulns: Report, name: string) {
    name in vulns && Complete(vulns, name) &&
    forall i :: 0 <= i < |vulns[name].items| && vulns[name].items[i].Ref? ==>
      CheckTarget(vulns[name].items[i].name, vulns, {name}).None?
  }

  lemma PackageAcceptedIff(vulns: Report, name: string)
    ensures PackageAccepted(vulns, name) <==> CheckTarget(name, vulns, {}).None?
  {
    AcceptedIff(name, vulns, {});
    assert {} + {name} == {name};
    if name in vulns && vulns[name].Via? {
      var items := vulns[name].items;
      assert forall b :: Ref(b) in items <==> exists i :: 0 <= i < |items| && items[i] == Ref(b);
      assert forall i :: 0 <= i < |items| && items[i].Ref? ==> RefersTo(vulns, name, items[i].name);
    }
    hide CheckTarget;
  }

  /** Checking every package by itself decides a property of the whole report: its entries are complete and the
      references among them are closed and without a cycle. */
  lemma AllAcceptedIffSound(vulns: Report)
    ensures (forall name :: name in vulns ==> PackageAccepted(vulns, name)) <==> Sound(vulns)
  {
    hide CheckTarget, PackageAccepted, Complete;
    forall name ensures PackageAccepted(vulns, name) <==>
                        forall c :: IsChain(vulns, c) && c[0] == name ==> GoodEnd(vulns, {}, c)
    {
      PackageAcceptedIff(vulns, name);
      AcceptedIffEveryChainIsGood(name, vulns, {});
    }
    if forall name :: name in vulns ==> PackageAccepted(vulns, name) { AcceptedIsSound(vulns); }
    if Sound(vulns) {
      forall name, c | name in vulns && IsChain(vulns, c) && c[0] == name ensures GoodEnd(vulns, {}, c) {
        SoundChain(vulns, c);
      }
    }
  }

  lemma AcceptedIsSound(vulns: Report)
    requires forall name, c :: name in vulns && IsChain(vulns, c) && c[0] == name ==> GoodEnd(vulns, {}, c)
    ensures Sound(vulns)
  {
    forall name | name in vulns ensures Complete(vulns, name) {
      assert IsChain(vulns, [name]) && GoodEnd(vulns, {}, [name]);
    }
    hide Complete;
    forall a, b | RefersTo(vulns, a, b) ensures b in vulns {
      assert IsChain(vulns, [a, b]) && GoodEnd(vulns, {}, [a, b]);
      CompleteIsListed(vulns, b);
    }
    forall c | IsChain(vulns, c) && |c| > 1 ensures c[0] != c[|c| - 1] {
      assert RefersTo(vulns, c[0], c[1]);
      assert c[0] in c[..|c| - 1] by { assert c[..|c| - 1][0] == c[0]; }
      assert GoodEnd(vulns, {}, c);
    }
  }

  lemma CompleteIsListed(vulns: Report, name: string)
    requires Complete(vulns, name)
    ensures name in vulns
  {
  }

  lemma SoundChain(vulns: Report, c: seq<string>)
    requires Sound(vulns) && IsChain(vulns, c) && c[0] in vulns
    ensures GoodEnd(vulns, {}, c)
  {
    hide Complete;
    var n := |c| - 1;
    if n > 0 { assert RefersTo(vulns, c[n - 1], c[n]); }
    forall i | 0 <= i < n ensures c[i] != c[n] {
      ChainTail(vulns, c, i);
    }
  }

  lemma {:induction false} ChainTail(vulns: Report, c: seq<string>, i: nat)
    requires Acyclic(vulns) && IsChain(vulns, c) && i < |c| - 1
    ensures c[i] != c[|c| - 1]
  {
    if i > 0 {
      ChainHead(vulns, c);
      ChainTail(vulns, c[1..], i - 1);
    }
  }
}
