/** Merging revision graphs, and the transitions and deltas planned on the merge. */
module GraphMerge {
  import opened Wrappers
  import opened RevisionGraph
  import GraphBuild

  // revisions.get(rev) is None both for a missing entry and for a None entry.
  predicate Clashes(acc: Revisions, rev: Rev, parents: Option<seq<Rev>>) {
    rev in acc && acc[rev].Some? && acc[rev] != parents
  }

  ghost predicate Compatible(acc: Revisions, g: Revisions) {
    forall rev :: rev in g ==> !Clashes(acc, rev, g[rev])
  }

  // The merge of a whole list, when no step clashes.
  ghost function Merged(graphs: seq<Revisions>): Option<Revisions> {
    if graphs == [] then Some(map[])
    else
      var last := graphs[|graphs| - 1];
      var acc := Merged(graphs[..|graphs| - 1]);
      if acc.Some? && Compatible(acc.value, last) then Some(acc.value + last) else None
  }

  method MergeOne(acc: Revisions, g: Revisions) returns (r: Option<Revisions>)
    ensures r == if Compatible(acc, g) then Some(acc + g) else None
  {
    var revisions := acc;
    var todo := g.Keys;
    while todo != {}
      invariant todo <= g.Keys
      invariant revisions.Keys == acc.Keys + (g.Keys - todo)
      invariant forall rev :: rev in g.Keys - todo ==> !Clashes(acc, rev, g[rev]) && revisions[rev] == g[rev]
      invariant forall rev :: rev in acc && (rev !in g || rev in todo) ==> revisions[rev] == acc[rev]
    {
      var rev :| rev in todo;
      if Clashes(revisions, rev, g[rev]) {
        return None;
      }
      revisions, todo := revisions[rev := g[rev]], todo - {rev};
    }
    assert revisions == acc + g;
    return Some(revisions);
  }

  method MergeAlembicGraphs(graphs: seq<AlembicGraph>) returns (r: Result<AlembicGraph, GraphError>)
    ensures r == MergeResult(Merged(RevisionsOf(graphs)))
  {
    var revisions: Revisions := map[];
    var i := 0;
    while i < |graphs|
      invariant 0 <= i <= |graphs|
      invariant Merged(RevisionsOf(graphs)[..i]) == Some(revisions)
    {
      var all := RevisionsOf(graphs);
      assert all[..i + 1][..i] == all[..i];
      var next := MergeOne(revisions, graphs[i].revisions);
      if next.None? {
        MergeFails(all, i + 1);
        return Err(ConflictingMetadata);
      }
      revisions, i := next.value, i + 1;
    }
    assert RevisionsOf(graphs)[..i] == RevisionsOf(graphs);
    var heads := GraphBuild.ComputeHeads(revisions);
    if heads == {} {
      return Err(NoHeads);
    }
    return Ok(AlembicGraph(revisions, heads));
  }

  function RevisionsOf(graphs: seq<AlembicGraph>): seq<Revisions> {
    seq(|graphs|, i requires 0 <= i < |graphs| => graphs[i].revisions)
  }

  ghost function MergeResult(merged: Option<Revisions>): Result<AlembicGraph, GraphError> {
    if merged.None? then Err(ConflictingMetadata)
    else if Heads(merged.value) == {} then Err(NoHeads)
    else Ok(AlembicGraph(merged.value, Heads(merged.value)))
  }

  lemma {:induction false} MergeFails(graphs: seq<Revisions>, i: nat)
    requires i <= |graphs| && Merged(graphs[..i]).None?
    ensures Merged(graphs).None?
    decreases |graphs| - i
  {
    if i < |graphs| {
      assert graphs[..i + 1][..i] == graphs[..i];
      MergeFails(graphs, i + 1);
    } else {
      assert graphs[..i] == graphs;
    }
  }

  // ---------------------------------------------------------------- the merge is sound

  // Inside `part` the two graphs agree, and no path leaves it.
  ghost predicate AgreesOn(g: Revisions, part: Revisions) {
    forall r :: r in part ==> r in g && g[r] == part[r]
  }

  lemma {:induction false} PathTransfers(g: Revisions, part: Revisions, p: seq<Rev>)
    requires AgreesOn(g, part) && ParentClosed(part) && p != [] && p[0] in part
    ensures IsPath(g, p) <==> IsPath(part, p)
  {
    if |p| > 1 && p[1] in Parents(part, p[0]) {
      PathTransfers(g, part, p[1..]);
    }
  }

  lemma ReachTransfers(g: Revisions, part: Revisions, a: Rev, b: Rev)
    requires AgreesOn(g, part) && ParentClosed(part) && a in part
    ensures Reaches(g, a, b) <==> Reaches(part, a, b)
  {
    if Reaches(g, a, b) {
      var p :| IsPathTo(g, p, a, b);
      PathTransfers(g, part, p);
      assert IsPathTo(part, p, a, b);
    }
    if Reaches(part, a, b) {
      var p :| IsPathTo(part, p, a, b);
      PathTransfers(g, part, p);
      assert IsPathTo(g, p, a, b);
    }
  }

  /** Where two graphs agree on a parent-closed part, ancestor sets computed from inside it are the same. */
  lemma AncestorsTransfer(g: Revisions, part: Revisions, heads: set<Rev>)
    requires AgreesOn(g, part) && ParentClosed(part) && heads <= part.Keys
    ensures AncestorSet(g, heads) == AncestorSet(part, heads)
  {
    forall x ensures x in AncestorSet(g, heads) <==> x in AncestorSet(part, heads) {
      AncestorTransfers(g, part, heads, x);
    }
  }

  lemma AncestorTransfers(g: Revisions, part: Revisions, heads: set<Rev>, x: Rev)
    requires AgreesOn(g, part) && ParentClosed(part) && heads <= part.Keys
    ensures x in AncestorSet(g, heads) <==> x in AncestorSet(part, heads)
  {
    forall h | h in heads ensures Reaches(g, h, x) <==> Reaches(part, h, x) {
      ReachTransfers(g, part, h, x);
    }
    if x in AncestorSet(g, heads) {
      var h :| h in heads && Reaches(g, h, x);
      var p :| IsPathTo(part, p, h, x);
      PathStaysInside(part, part.Keys, p);
    }
  }

  // A loop either lives in the overriding graph, or avoids it and so lives in the older one.
  lemma {:induction false} PathAvoids(acc: Revisions, last: Revisions, p: seq<Rev>)
    requires IsPath(acc + last, p) && ParentClosed(last) && p[|p| - 1] !in last
    ensures IsPath(acc, p) && forall x :: x in p ==> x !in last
  {
    var g := acc + last;
    if p[0] in last {
      assert ClosedUnderParents(g, last.Keys);
      PathStaysInside(g, last.Keys, p);
      assert false;
    }
    if |p| > 1 {
      PathAvoids(acc, last, p[1..]);
      assert p == [p[0]] + p[1..];
    }
  }

  lemma MergeStepWellFormed(acc: Revisions, last: Revisions)
    requires WellFormed(acc) && WellFormed(last)
    ensures WellFormed(acc + last) && AgreesOn(acc + last, last)
  {
    var g := acc + last;
    forall r, p | r in g && p in Parents(g, r) ensures p in g {
      if r in last { assert p in Parents(last, r); } else { assert p in Parents(acc, r); }
    }
    if Cyclic(g) {
      var p, r :| |p| >= 2 && IsPathTo(g, p, r, r);
      if r in last {
        PathTransfers(g, last, p);
        assert IsPathTo(last, p, r, r);
      } else {
        PathAvoids(acc, last, p);
        assert IsPathTo(acc, p, r, r);
      }
    }
  }

  /** A merge that does not raise is well formed, keeps the last graph intact, and has heads. */
  lemma {:induction false} MergeSound(graphs: seq<Revisions>)
    requires forall i :: 0 <= i < |graphs| ==> WellFormed(graphs[i])
    requires Merged(graphs).Some?
    ensures WellFormed(Merged(graphs).value)
    ensures graphs != [] ==> AgreesOn(Merged(graphs).value, graphs[|graphs| - 1])
    ensures forall i, r :: 0 <= i < |graphs| && r in graphs[i] ==> r in Merged(graphs).value
    ensures Merged(graphs).value != map[] ==> Heads(Merged(graphs).value) != {}
  {
    if graphs == [] {
      EmptyWellFormed();
    } else {
      var n := |graphs| - 1;
      MergeSound(graphs[..n]);
      MergeStepWellFormed(Merged(graphs[..n]).value, graphs[n]);
      forall i, r | 0 <= i < |graphs| && r in graphs[i] ensures r in Merged(graphs).value {
        if i < n { assert graphs[..n][i] == graphs[i]; }
      }
    }
    HeadsCoverGraph(Merged(graphs).value);
  }

  lemma EmptyWellFormed()
    ensures WellFormed(map[])
  {
    GraphBuild.AllVisitedMeansAcyclic(map[], []);
  }

  /** Ancestors of revisions the last graph knows are the same in the merge. */
  lemma MergeKeepsLastAncestors(graphs: seq<Revisions>, heads: set<Rev>)
    requires graphs != [] && forall i :: 0 <= i < |graphs| ==> WellFormed(graphs[i])
    requires Merged(graphs).Some? && heads <= graphs[|graphs| - 1].Keys
    ensures AncestorSet(Merged(graphs).value, heads) == AncestorSet(graphs[|graphs| - 1], heads)
  {
    MergeSound(graphs);
    AncestorsTransfer(Merged(graphs).value, graphs[|graphs| - 1], heads);
  }

  // An entry with parents is never replaced, and no entry is ever dropped.
  lemma {:induction false} EntriesStay(graphs: seq<Revisions>, i: nat, r: Rev)
    requires Merged(graphs).Some? && i < |graphs| && r in graphs[i]
    ensures r in Merged(graphs).value
    ensures graphs[i][r].Some? ==> Merged(graphs).value[r] == graphs[i][r]
  {
    var n := |graphs| - 1;
    if i < n { EntriesStay(graphs[..n], i, r); }
  }

  ghost predicate NoneReplaced(graphs: seq<Revisions>, i: nat)
    requires i < |graphs|
  {
    exists k, r :: i < k < |graphs| && r in graphs[i] && graphs[i][r].None? && r in graphs[k] && graphs[k][r].Some?
  }

  /** Each graph of a merged list survives exactly where no later graph gives parents to one of its None entries. */
  lemma {:induction false} EarlierGraphKept(graphs: seq<Revisions>, i: nat)
    requires Merged(graphs).Some? && i < |graphs|
    ensures AgreesOn(Merged(graphs).value, graphs[i]) <==> !NoneReplaced(graphs, i)
  {
    var n := |graphs| - 1;
    var init, last := graphs[..n], graphs[n];
    if i < n {
      EarlierGraphKept(init, i);
      forall r | r in graphs[i]
        ensures r in Merged(init).value
        ensures graphs[i][r].Some? ==> Merged(init).value[r] == graphs[i][r]
      {
        EntriesStay(init, i, r);
      }
      NoneReplacedLater(graphs, i);
    }
  }

  lemma NoneReplacedLater(graphs: seq<Revisions>, i: nat)
    requires i < |graphs| - 1
    ensures var n := |graphs| - 1;
            NoneReplaced(graphs, i) <==>
              NoneReplaced(graphs[..n], i)
              || exists r :: r in graphs[i] && graphs[i][r].None? && r in graphs[n] && graphs[n][r].Some?
  {
    var n := |graphs| - 1;
    var init := graphs[..n];
    if k, r :| i < k < |graphs| && r in graphs[i] && graphs[i][r].None? && r in graphs[k] && graphs[k][r].Some? {
      assert k < n ==> init[k] == graphs[k];
    }
    if k, r :| i < k < |init| && r in init[i] && init[i][r].None? && r in init[k] && init[k][r].Some? {
      assert graphs[k] == init[k];
    }
  }

  const BASE_ONLY: Revisions := map["base" := None]
  const TWO_LEVELS: Revisions := map["base" := Some(["root"]), "root" := None]

  /** A None entry can be overwritten: the merge then disagrees with the graph that held it. */
  lemma NoneEntryOverwritten()
    ensures WellFormed(BASE_ONLY) && WellFormed(TWO_LEVELS)
    ensures Merged([BASE_ONLY, TWO_LEVELS]).Some?
    ensures !AgreesOn(Merged([BASE_ONLY, TWO_LEVELS]).value, BASE_ONLY)
  {
    TwoLevelWellFormed();
    var graphs := [BASE_ONLY, TWO_LEVELS];
    assert graphs[..1] == [BASE_ONLY] && [BASE_ONLY][..0] == [];
    assert Merged([BASE_ONLY]) == Some(map[] + BASE_ONLY);
    assert map[] + BASE_ONLY == BASE_ONLY;
    assert graphs[1]["base"] == Some(["root"]);
    EarlierGraphKept(graphs, 0);
  }

  lemma TwoLevelWellFormed()
    ensures WellFormed(BASE_ONLY) && WellFormed(TWO_LEVELS)
  {
    var a, b := BASE_ONLY, TWO_LEVELS;
    var order: seq<Rev> := ["root", "base"];
    assert order[..1] == ["root"] && ["root"][..0] == [] && ["base"][..0] == [];
    assert GraphBuild.ParentsFirst(a, ["base"]);
    assert GraphBuild.ParentsFirst(b, ["root"]);
    GraphBuild.AllVisitedMeansAcyclic(a, ["base"]);
    GraphBuild.AllVisitedMeansAcyclic(b, order);
  }

  // ---------------------------------------------------------------- transitions

  datatype Relation = Equal | Forward | Downgrade | Divergent

  ghost function Classify(g: Revisions, current: set<Rev>, target: set<Rev>): Relation {
    if current == target then Equal
    else if AncestorSet(g, target) <= AncestorSet(g, current) then Downgrade
    else if !(current <= AncestorSet(g, target)) then Divergent
    else Forward
  }

  ghost function Included(g: Revisions, current: set<Rev>, target: set<Rev>): set<Rev> {
    if current == target then {} else AncestorSet(g, target) - AncestorSet(g, current) - current
  }

  // Equal head sets are answered before any revision is looked up.
  ghost predicate Known(g: Revisions, current: set<Rev>, target: set<Rev>) {
    current == target || current + target <= g.Keys
  }

  // Some head of one set is reached from no head of the other.
  ghost predicate LeavesOut(g: Revisions, from: set<Rev>, to: set<Rev>) {
    exists h :: h in to && forall f :: f in from ==> !Reaches(g, f, h)
  }

  // What each answer tells about the two head sets, path by path.
  ghost predicate Tells(g: Revisions, answer: Relation, current: set<Rev>, target: set<Rev>) {
    match answer
    case Equal => current == target
    case Downgrade => current != target && !LeavesOut(g, current, target)
    case Divergent => LeavesOut(g, current, target) && LeavesOut(g, target, current)
    case Forward => LeavesOut(g, current, target) && !LeavesOut(g, target, current)
  }

  lemma LeavesOutIff(g: Revisions, from: set<Rev>, to: set<Rev>)
    requires ParentClosed(g) && from + to <= g.Keys
    ensures LeavesOut(g, from, to) <==> !(to <= AncestorSet(g, from))
    ensures LeavesOut(g, from, to) <==> !(AncestorSet(g, to) <= AncestorSet(g, from))
  {
    hide Reaches, ParentClosed;
    if to <= AncestorSet(g, from) { AncestorsMonotone(g, to, from); }
    AncestorsContainHeads(g, to);
  }

  /** The four answers exclude each other, one always holds, and the classification gives the one that does. */
  lemma ClassifyTells(g: Revisions, current: set<Rev>, target: set<Rev>, answer: Relation)
    requires ParentClosed(g) && Known(g, current, target)
    ensures Tells(g, answer, current, target) <==> answer == Classify(g, current, target)
  {
    hide AncestorSet, LeavesOut, ParentClosed;
    NothingLeftOut(g, current);
    if current != target {
      LeavesOutIff(g, current, target);
      LeavesOutIff(g, target, current);
    }
  }

  lemma NothingLeftOut(g: Revisions, heads: set<Rev>)
    ensures !LeavesOut(g, heads, heads)
  {
    forall h | h in heads ensures Reaches(g, h, h) {
      assert IsPathTo(g, [h], h, h);
    }
  }

  /** Equal and divergent are the same in both directions. */
  lemma EqualAndDivergentAreSymmetric(g: Revisions, a: set<Rev>, b: set<Rev>)
    requires ParentClosed(g) && Known(g, a, b)
    ensures Classify(g, a, b) == Equal <==> Classify(g, b, a) == Equal
    ensures Classify(g, a, b) == Divergent <==> Classify(g, b, a) == Divergent
  {
    hide Classify, LeavesOut;
    ClassifyTells(g, a, b, Equal);
    ClassifyTells(g, b, a, Equal);
    ClassifyTells(g, a, b, Divergent);
    ClassifyTells(g, b, a, Divergent);
  }

  method ClassifyTransition(graph: AlembicGraph, current: set<Rev>, target: set<Rev>)
      returns (r: Result<Relation, GraphError>)
    requires ParentClosed(graph.revisions)
    ensures r == if Known(graph.revisions, current, target)
                 then Ok(Classify(graph.revisions, current, target)) else Err(UnknownRevision)
    ensures r.Ok? ==> Tells(graph.revisions, r.value, current, target)
  {
    if Known(graph.revisions, current, target) { ClassifyTells(graph.revisions, current, target, Classify(graph.revisions, current, target)); }
    if current == target {
      return Ok(Equal);
    }
    var c := GraphBuild.Ancestors(graph, current);
    if c.Err? { return Err(UnknownRevision); }
    var t := GraphBuild.Ancestors(graph, target);
    if t.Err? { return Err(UnknownRevision); }
    if t.value <= c.value { return Ok(Downgrade); }
    if !(current <= t.value) { return Ok(Divergent); }
    return Ok(Forward);
  }

  method IncludedRevisions(graph: AlembicGraph, current: set<Rev>, target: set<Rev>)
      returns (r: Result<set<Rev>, GraphError>)
    requires ParentClosed(graph.revisions)
    ensures r == if Known(graph.revisions, current, target)
                 then Ok(Included(graph.revisions, current, target)) else Err(UnknownRevision)
  {
    if current == target {
      return Ok({});
    }
    var c := GraphBuild.Ancestors(graph, current);
    if c.Err? { return Err(UnknownRevision); }
    var t := GraphBuild.Ancestors(graph, target);
    if t.Err? { return Err(UnknownRevision); }
    return Ok(t.value - c.value - current);
  }

  /** A forward delta is what the target adds: non-empty, new, and it completes the current ancestors. */
  lemma ForwardDelta(g: Revisions, current: set<Rev>, target: set<Rev>)
    requires ParentClosed(g) && current + target <= g.Keys && Classify(g, current, target) == Forward
    ensures Included(g, current, target) != {}
    ensures Included(g, current, target) !! AncestorSet(g, current)
    ensures AncestorSet(g, current) + Included(g, current, target) == AncestorSet(g, target)
    ensures ClosedUnderParents(g, AncestorSet(g, target))
  {
    AncestorsContainHeads(g, current);
    AncestorsClosed(g, target);
    AncestorsMonotone(g, current, target);
    var c, t := AncestorSet(g, current), AncestorSet(g, target);
    hide AncestorSet, ClosedUnderParents, ParentClosed;
    var x :| x in t && x !in c;
    assert x in Included(g, current, target);
  }

  lemma MergedIsClosed(graphs: seq<Revisions>)
    requires graphs != [] && forall i :: 0 <= i < |graphs| ==> WellFormed(graphs[i])
    requires Merged(graphs).Some?
    ensures ParentClosed(Merged(graphs).value) && ParentClosed(graphs[|graphs| - 1])
    ensures graphs[|graphs| - 1].Keys <= Merged(graphs).value.Keys
  {
    MergeSound(graphs);
  }

  /** Planning classifies on the merge but takes the delta from the target graph alone; the answers agree. */
  lemma PlannedDeltaIsTargetDelta(schema: Revisions, target: Revisions, dbHeads: set<Rev>, targetHeads: set<Rev>)
    requires WellFormed(schema) && WellFormed(target) && targetHeads <= target.Keys
    requires Merged([schema, target]).Some? && Known(Merged([schema, target]).value, dbHeads, targetHeads)
    requires Classify(Merged([schema, target]).value, dbHeads, targetHeads) == Forward
    ensures Known(target, dbHeads, targetHeads)
    ensures Included(target, dbHeads, targetHeads) == Included(Merged([schema, target]).value, dbHeads, targetHeads)
    ensures Included(target, dbHeads, targetHeads) != {}
    ensures Included(target, dbHeads, targetHeads) !! AncestorSet(target, dbHeads)
    ensures AncestorSet(target, dbHeads) + Included(target, dbHeads, targetHeads) == AncestorSet(target, targetHeads)
    ensures ClosedUnderParents(target, AncestorSet(target, targetHeads))
  {
    hide AncestorSet, ClosedUnderParents, WellFormed, Merged, AgreesOn;
    var merged := Merged([schema, target]).value;
    MergedIsClosed([schema, target]);
    MergeSound([schema, target]);
    MergeKeepsLastAncestors([schema, target], targetHeads);
    GraphBuild.AncestorsAreKnown(target, targetHeads);
    MergeKeepsLastAncestors([schema, target], dbHeads);
    ForwardDelta(merged, dbHeads, targetHeads);
    AncestorsClosed(target, targetHeads);
  }

  /** Forward transitions compose, and the composite delta is the disjoint union of the two. */
  lemma ForwardComposes(g: Revisions, a: set<Rev>, b: set<Rev>, c: set<Rev>)
    requires ParentClosed(g) && a + b + c <= g.Keys
    requires Classify(g, a, b) == Forward && Classify(g, b, c) == Forward
    ensures Classify(g, a, c) == Forward
    ensures Included(g, a, c) == Included(g, a, b) + Included(g, b, c)
    ensures Included(g, a, b) !! Included(g, b, c)
  {
    hide AncestorSet, ParentClosed;
    AncestorsMonotone(g, a, b);
    AncestorsMonotone(g, b, c);
    AncestorsContainHeads(g, a);
    AncestorsContainHeads(g, b);
  }

  /** The reverse of a forward transition is a downgrade; a downgrade reverses to forward unless both
      head sets have the same ancestors. */
  lemma ForwardIffReverseDowngrade(g: Revisions, a: set<Rev>, b: set<Rev>)
    requires ParentClosed(g) && a + b <= g.Keys
    ensures Classify(g, a, b) == Forward <==>
              Classify(g, b, a) == Downgrade && AncestorSet(g, a) != AncestorSet(g, b)
  {
    hide AncestorSet, ParentClosed;
    AncestorsContainHeads(g, a);
    AncestorsContainHeads(g, b);
    if a <= AncestorSet(g, b) { AncestorsMonotone(g, a, b); }
  }

  /** Antichains are determined by their ancestors, so for head sets the converse holds outright. */
  lemma DowngradeReverses(g: Revisions, a: set<Rev>, b: set<Rev>)
    requires WellFormed(g) && a + b <= g.Keys && Antichain(g, a) && Antichain(g, b)
    ensures Classify(g, b, a) == Downgrade <==> Classify(g, a, b) == Forward
  {
    ForwardIffReverseDowngrade(g, a, b);
    if AncestorSet(g, a) == AncestorSet(g, b) {
      SameAncestorsSubset(g, a, b);
      SameAncestorsSubset(g, b, a);
    }
  }

  lemma SameAncestorsSubset(g: Revisions, a: set<Rev>, b: set<Rev>)
    requires WellFormed(g) && a + b <= g.Keys && Antichain(g, a)
    requires AncestorSet(g, a) == AncestorSet(g, b)
    ensures a <= b
  {
    AncestorsContainHeads(g, a);
    AncestorsContainHeads(g, b);
    forall x | x in a ensures x in b {
      var y := FromHead(g, b, x);
      var z := FromHead(g, a, y);
      NoDetour(g, z, y, x);
    }
  }

  lemma FromHead(g: Revisions, heads: set<Rev>, x: Rev) returns (h: Rev)
    requires x in AncestorSet(g, heads)
    ensures h in heads && Reaches(g, h, x)
  {
    h :| h in heads && Reaches(g, h, x);
  }

  lemma NoDetour(g: Revisions, z: Rev, y: Rev, x: Rev)
    requires !Cyclic(g) && Reaches(g, z, y) && Reaches(g, y, x)
    ensures Reaches(g, z, x)
    ensures z == x ==> y == x
  {
    var p :| IsPathTo(g, p, z, y);
    var q :| IsPathTo(g, q, y, x);
    PathConcat(g, p, q);
    var all := p + q[1..];
    assert IsPathTo(g, all, z, x);
    assert y != x ==> |all| >= 2;
  }

  /** Without antichains both directions can be downgrades. */
  lemma DowngradeBothWays()
    ensures Classify(TWO_LEVELS, {"base"}, {"base", "root"}) == Downgrade
    ensures Classify(TWO_LEVELS, {"base", "root"}, {"base"}) == Downgrade
  {
    hide AncestorSet, Reaches, Classify;
    BaseReachesRoot();
    assert "root" in {"base", "root"} && "root" !in {"base"};
    BaseCoversBoth(TWO_LEVELS, {"base"});
    BaseCoversBoth(TWO_LEVELS, {"base", "root"});
    SameAncestorsBothWays(TWO_LEVELS, {"base"}, {"base", "root"});
  }

  lemma SameAncestorsBothWays(g: Revisions, a: set<Rev>, b: set<Rev>)
    requires AncestorSet(g, a) == AncestorSet(g, b) && exists x :: x in b && x !in a
    ensures Classify(g, a, b) == Downgrade && Classify(g, b, a) == Downgrade
  {
  }

  lemma BaseReachesRoot()
    ensures Reaches(TWO_LEVELS, "base", "root")
  {
    assert IsPath(TWO_LEVELS, ["base", "root"][1..]) && IsPathTo(TWO_LEVELS, ["base", "root"], "base", "root");
  }

  lemma BaseCoversBoth(g: Revisions, heads: set<Rev>)
    requires g.Keys == {"base", "root"} && "base" in heads && heads <= g.Keys && Reaches(g, "base", "root")
    ensures AncestorSet(g, heads) == g.Keys
  {
    AncestorsContainHeads(g, heads);
    GraphBuild.AncestorsAreKnown(g, heads);
  }

  // ---------------------------------------------------------------- what planning makes of it

  datatype PlanError = CannotMerge(error: GraphError) | UnknownHeads | Behind | Unrelated | EmptyDelta

  // The planner's view: both graphs merged, the heads classified on the merge, the delta taken from the target.
  method PlanTransition(schema: AlembicGraph, target: AlembicGraph, dbHeads: set<Rev>)
      returns (r: Result<set<Rev>, PlanError>)
    requires WellFormed(schema.revisions) && WellFormed(target.revisions)
    requires target.heads <= target.revisions.Keys && target.revisions != map[]
    ensures var merged := Merged([schema.revisions, target.revisions]);
            && (r.Err? && r.error.CannotMerge? <==> merged.None?)
            && (merged.Some? ==>
                 && (r == Err(UnknownHeads) <==> !Known(merged.value, dbHeads, target.heads))
                 && (Known(merged.value, dbHeads, target.heads) ==>
                      && (r == Err(Behind) <==> dbHeads != target.heads && !LeavesOut(merged.value, dbHeads, target.heads))
                      && (r == Err(Unrelated) <==> LeavesOut(merged.value, dbHeads, target.heads) && LeavesOut(merged.value, target.heads, dbHeads))
                      && (r == Ok({}) <==> dbHeads == target.heads)
                      && (r.Ok? && r.value != {} <==>
                            LeavesOut(merged.value, dbHeads, target.heads) && !LeavesOut(merged.value, target.heads, dbHeads))
                      && (r.Ok? && r.value != {} ==>
                            r.value !! AncestorSet(target.revisions, dbHeads)
                            && AncestorSet(target.revisions, dbHeads) + r.value == AncestorSet(target.revisions, target.heads))))
  {
    var both := [schema, target];
    assert RevisionsOf(both) == [schema.revisions, target.revisions];
    var merge := MergeAlembicGraphs(both);
    MergedHasHeads(schema.revisions, target.revisions);
    if merge.Err? {
      return Err(CannotMerge(merge.error));
    }
    MergedIsClosed([schema.revisions, target.revisions]);
    hide WellFormed, Merged, ParentClosed, AncestorSet, Classify, LeavesOut;
    var relation := ClassifyTransition(merge.value, dbHeads, target.heads);
    if relation.Err? {
      return Err(UnknownHeads);
    }
    match relation.value
    case Downgrade => return Err(Behind);
    case Divergent => return Err(Unrelated);
    case Equal =>
      NothingLeftOut(merge.value.revisions, dbHeads);
      return Ok({});
    case Forward =>
      PlannedDeltaIsTargetDelta(schema.revisions, target.revisions, dbHeads, target.heads);
      var included := IncludedRevisions(target, dbHeads, target.heads);
      if included.value == {} {
        return Err(EmptyDelta);
      }
      return Ok(included.value);
  }

  lemma MergedHasHeads(schema: Revisions, target: Revisions)
    requires WellFormed(schema) && WellFormed(target) && target != map[]
    ensures Merged([schema, target]).Some? ==> Heads(Merged([schema, target]).value) != {}
  {
    if Merged([schema, target]).Some? { MergeSound([schema, target]); }
  }
}
