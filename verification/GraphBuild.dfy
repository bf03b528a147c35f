/** Building a validated revision graph: metadata collection, depth-first cycle search, heads. */
module GraphBuild {
  import opened Wrappers
  import opened RevisionGraph

  // The metadata parsed from one migration file, in file-name order.
  datatype Migration = Migration(revision: Rev, parents: Option<seq<Rev>>)

  ghost predicate DistinctRevisions(files: seq<Migration>) {
    forall i, j :: 0 <= i < j < |files| ==> files[i].revision != files[j].revision
  }

  ghost function Collected(files: seq<Migration>): Revisions {
    if files == [] then map[]
    else Collected(files[..|files| - 1])[files[|files| - 1].revision := files[|files| - 1].parents]
  }

  lemma {:induction false} CollectedKeys(files: seq<Migration>)
    ensures forall r :: r in Collected(files) <==> exists i :: 0 <= i < |files| && files[i].revision == r
  {
    if files != [] {
      var n := |files| - 1;
      CollectedKeys(files[..n]);
      forall r ensures r in Collected(files) <==> exists i :: 0 <= i < |files| && files[i].revision == r {
        if r in Collected(files[..n]) {
          var i :| 0 <= i < n && files[..n][i].revision == r;
          assert files[i].revision == r;
        }
        assert files[n].revision in Collected(files);
        assert forall i :: 0 <= i < n ==> files[..n][i].revision == files[i].revision;
      }
    }
  }

  // Every revision of the list has its parents earlier in the list.
  ghost predicate ParentsFirst(g: Revisions, order: seq<Rev>) {
    order == [] ||
    var n := |order| - 1;
    ParentsFirst(g, order[..n]) && forall p :: p in Parents(g, order[n]) ==> p in order[..n]
  }

  lemma {:induction false} ParentsFirstClosed(g: Revisions, order: seq<Rev>)
    requires ParentsFirst(g, order)
    ensures forall r, p :: r in order && p in Parents(g, r) ==> p in order
  {
    if order != [] {
      var n := |order| - 1;
      ParentsFirstClosed(g, order[..n]);
      assert order == order[..n] + [order[n]];
    }
  }

  lemma {:induction false} ParentsFirstHasNoLoop(g: Revisions, order: seq<Rev>, p: seq<Rev>)
    requires ParentsFirst(g, order) && IsPath(g, p) && |p| >= 2 && p[0] in order
    ensures p[0] != p[|p| - 1]
    decreases |order|
  {
    var n := |order| - 1;
    assert order == order[..n] + [order[n]];
    if p[0] in order[..n] {
      ParentsFirstHasNoLoop(g, order[..n], p);
    } else {
      ParentsFirstClosed(g, order[..n]);
      PathStaysInside(g, (set r | r in order[..n]), p[1..]);
      assert p[|p| - 1] == p[1..][|p| - 2];
      assert p[|p| - 1] in p[1..];
    }
  }

  ghost function Elements<T>(s: seq<T>): set<T> {
    set x | x in s
  }

  // What the depth-first search keeps between calls. `trail` holds the pending
  // calls, outermost first, and `finished` the visited revisions in order of completion.
  ghost predicate Consistent(g: Revisions, visiting: set<Rev>, visited: set<Rev>,
                             trail: seq<Rev>, finished: seq<Rev>)
  {
    && visiting == Elements(trail)
    && visited == Elements(finished)
    && visiting <= g.Keys
    && ParentsFirst(g, finished)
    && (trail != [] ==> IsPath(g, trail))
  }

  lemma EnterKeeps(g: Revisions, visiting: set<Rev>, visited: set<Rev>,
                   trail: seq<Rev>, finished: seq<Rev>, rev: Rev)
    requires Consistent(g, visiting, visited, trail, finished) && rev in g && rev !in visiting
    requires trail != [] ==> rev in Parents(g, trail[|trail| - 1])
    ensures Consistent(g, visiting + {rev}, visited, trail + [rev], finished)
    ensures |g.Keys - (visiting + {rev})| < |g.Keys - visiting|
  {
    TrailExtends(g, trail, rev);
    SmallerByOne(g.Keys, visiting, rev);
  }

  lemma LeaveKeeps(g: Revisions, visiting: set<Rev>, visited: set<Rev>, trail: seq<Rev>,
                   finished: seq<Rev>, rev: Rev, was: set<Rev>, done: seq<Rev>)
    requires Consistent(g, visiting + {rev}, visited, trail + [rev], finished)
    requires Consistent(g, visiting, was, trail, done) && rev !in visiting
    requires forall p :: p in Parents(g, rev) ==> p in visited
    ensures Consistent(g, visiting, visited + {rev}, trail, finished + [rev])
  {
    assert (finished + [rev])[..|finished|] == finished;
    assert Elements(finished + [rev]) == visited + {rev};
  }

  /** The nested `visit` closure and the two sets it mutates. */
  class CycleSearch {
    const revisions: Revisions
    var visiting: set<Rev>
    var visited: set<Rev>
    ghost var trail: seq<Rev>
    ghost var finished: seq<Rev>

    ghost predicate Valid()
      reads this
    {
      Consistent(revisions, visiting, visited, trail, finished)
    }

    constructor (revisions: Revisions)
      ensures Valid() && this.revisions == revisions && trail == [] && visited == {}
    {
      this.revisions := revisions;
      visiting, visited, trail, finished := {}, {}, [], [];
    }

    method Visit(rev: Rev) returns (cycle: bool)
      requires Valid() && ParentClosed(revisions) && rev in revisions
      requires trail != [] ==> rev in Parents(revisions, trail[|trail| - 1])
      modifies this
      ensures cycle ==> Cyclic(revisions)
      ensures !cycle ==> Valid() && trail == old(trail) && visiting == old(visiting)
      ensures !cycle ==> old(visited) <= visited && rev in visited
      decreases |revisions.Keys - visiting|, 3
    {
      if rev in visiting {
        CycleOnTrail(revisions, trail, rev);
        return true;
      }
      if rev in visited {
        return false;
      }
      cycle := Explore(rev);
    }

    method Explore(rev: Rev) returns (cycle: bool)
      requires Valid() && ParentClosed(revisions) && rev in revisions && rev !in visiting
      requires trail != [] ==> rev in Parents(revisions, trail[|trail| - 1])
      modifies this
      ensures cycle ==> Cyclic(revisions)
      ensures !cycle ==> Valid() && trail == old(trail) && visiting == old(visiting)
      ensures !cycle ==> old(visited) <= visited && rev in visited
      decreases |revisions.Keys - visiting|, 2
    {
      hide Consistent, Cyclic, ParentClosed;
      ghost var outer, above := trail, visiting;
      EnterKeeps(revisions, visiting, visited, trail, finished, rev);
      visiting, trail := visiting + {rev}, trail + [rev];
      cycle := VisitParents(rev);
      if !cycle {
        LeaveKeeps(revisions, above, visited, outer, finished, rev, old(visited), old(finished));
        visiting, trail := visiting - {rev}, outer;
        visited, finished := visited + {rev}, finished + [rev];
        assert visiting == above;
      }
    }

    method VisitParents(rev: Rev) returns (cycle: bool)
      requires Valid() && ParentClosed(revisions) && rev in revisions
      requires trail != [] && trail[|trail| - 1] == rev
      modifies this
      ensures cycle ==> Cyclic(revisions)
      ensures !cycle ==> Valid() && trail == old(trail) && visiting == old(visiting)
      ensures !cycle ==> old(visited) <= visited && forall p :: p in Parents(revisions, rev) ==> p in visited
      decreases |revisions.Keys - visiting|, 4
    {
      var parents := Parents(revisions, rev);
      var i := 0;
      while i < |parents|
        invariant 0 <= i <= |parents|
        invariant Valid() && trail == old(trail) && visiting == old(visiting)
        invariant old(visited) <= visited
        invariant forall k :: 0 <= k < i ==> parents[k] in visited
      {
        cycle := Visit(parents[i]);
        if cycle {
          return true;
        }
        i := i + 1;
      }
      cycle := false;
    }
  }

  lemma SmallerSet<T>(a: set<T>, b: set<T>)
    requires a < b
    ensures |a| < |b|
  {
    assert exists x :: x in b && x !in a;
    var x :| x in b && x !in a;
    assert |b| == |b - {x}| + 1;
    SubsetSize(a, b - {x});
  }

  lemma {:induction false} SubsetSize<T>(a: set<T>, b: set<T>)
    requires a <= b
    ensures |a| <= |b|
  {
    if a != {} {
      var x :| x in a;
      SubsetSize(a - {x}, b - {x});
    }
  }

  lemma TrailExtends(g: Revisions, trail: seq<Rev>, rev: Rev)
    requires trail != [] ==> IsPath(g, trail) && rev in Parents(g, trail[|trail| - 1])
    ensures IsPath(g, trail + [rev])
  {
    if trail == [] {
      assert trail + [rev] == [rev];
    } else {
      var last := trail[|trail| - 1];
      assert IsPath(g, [last, rev][1..]);
      PathConcat(g, trail, [last, rev]);
      assert trail + [last, rev][1..] == trail + [rev];
    }
  }

  lemma CycleOnTrail(g: Revisions, trail: seq<Rev>, rev: Rev)
    requires rev in trail && IsPath(g, trail) && rev in Parents(g, trail[|trail| - 1])
    ensures Cyclic(g)
  {
    TrailExtends(g, trail, rev);
    var all := trail + [rev];
    var i :| 0 <= i < |trail| && trail[i] == rev;
    SubPath(g, all, i, |trail|);
    assert |all[i..|trail| + 1]| >= 2;
  }

  method ComputeHeads(revisions: Revisions) returns (heads: set<Rev>)
    ensures heads == Heads(revisions)
  {
    var pointed: set<Rev> := {};
    var todo := revisions.Keys;
    while todo != {}
      invariant todo <= revisions.Keys
      invariant forall r :: r in pointed <==> exists x :: x in revisions.Keys - todo && r in Parents(revisions, x)
    {
      var x :| x in todo;
      var parents := Parents(revisions, x);
      ghost var before := pointed;
      pointed := pointed + (set r | r in parents);
      todo := todo - {x};
    }
    heads := set r | r in revisions && r !in pointed;
  }

  method CollectRevisions(files: seq<Migration>) returns (r: Result<Revisions, GraphError>)
    ensures r.Ok? <==> DistinctRevisions(files)
    ensures r.Ok? ==> r.value == Collected(files)
    ensures r.Err? ==> r.error == DuplicateRevision
  {
    var revisions: Revisions := map[];
    var i := 0;
    while i < |files|
      invariant 0 <= i <= |files|
      invariant DistinctRevisions(files[..i])
      invariant revisions == Collected(files[..i])
    {
      CollectedKeys(files[..i]);
      if files[i].revision in revisions {
        var j :| 0 <= j < i && files[..i][j].revision == files[i].revision;
        assert files[j].revision == files[i].revision;
        return Err(DuplicateRevision);
      }
      forall j | 0 <= j < i ensures files[j].revision != files[i].revision {
        assert files[..i][j].revision == files[j].revision;
      }
      assert files[..i + 1][..i] == files[..i];
      revisions := revisions[files[i].revision := files[i].parents];
      i := i + 1;
    }
    assert files[..i] == files;
    return Ok(revisions);
  }

  // The first offending parent, in file order.
  method CheckParents(files: seq<Migration>, revisions: Revisions) returns (r: Option<GraphError>)
    requires DistinctRevisions(files) && revisions == Collected(files)
    ensures r.None? ==> ParentClosed(revisions)
    ensures r == Some(MissingParent) ==> !ParentClosed(revisions)
    ensures r == Some(SelfReference) ==> Cyclic(revisions)
    ensures r.Some? ==> r.value.MissingParent? || r.value.SelfReference?
  {
    CollectedKeys(files);
    var i := 0;
    while i < |files|
      invariant 0 <= i <= |files|
      invariant forall k, p :: 0 <= k < i && p in Parents(revisions, files[k].revision) ==> p in revisions
    {
      var rev := files[i].revision;
      var parents := Parents(revisions, rev);
      var j := 0;
      while j < |parents|
        invariant 0 <= j <= |parents|
        invariant forall k :: 0 <= k < j ==> parents[k] in revisions
      {
        if parents[j] == rev {
          assert IsPath(revisions, [rev, rev][1..]) && IsPathTo(revisions, [rev, rev], rev, rev);
          return Some(SelfReference);
        }
        if parents[j] !in revisions {
          assert rev in revisions;
          return Some(MissingParent);
        }
        j := j + 1;
      }
      i := i + 1;
    }
    return None;
  }

  // Depth-first from every revision, until the first cycle.
  method SearchCycles(files: seq<Migration>, revisions: Revisions) returns (cycle: bool)
    requires revisions == Collected(files) && ParentClosed(revisions)
    ensures cycle <==> Cyclic(revisions)
  {
    CollectedKeys(files);
    var search := new CycleSearch(revisions);
    var i := 0;
    while i < |files|
      invariant 0 <= i <= |files|
      invariant search.Valid() && search.revisions == revisions && search.trail == [] && fresh(search)
      invariant forall k :: 0 <= k < i ==> files[k].revision in search.visited
    {
      assert files[i].revision in revisions;
      cycle := search.Visit(files[i].revision);
      if cycle {
        return;
      }
      i := i + 1;
    }
    AllVisitedMeansAcyclic(revisions, search.finished);
    return false;
  }

  /** Accepts exactly the well-formed revision sets, and reports a cycle only when there is one. */
  method BuildAlembicGraph(files: seq<Migration>) returns (r: Result<AlembicGraph, GraphError>)
    ensures r.Ok? <==> files != [] && DistinctRevisions(files) && WellFormed(Collected(files))
    ensures r.Ok? ==> r.value == AlembicGraph(Collected(files), Heads(Collected(files))) && r.value.heads != {}
    ensures r == Err(CycleDetected) ==>
              DistinctRevisions(files) && ParentClosed(Collected(files)) && Cyclic(Collected(files))
    ensures r == Err(SelfReference) ==> DistinctRevisions(files) && Cyclic(Collected(files))
    ensures r == Err(MissingParent) ==> DistinctRevisions(files) && !ParentClosed(Collected(files))
    ensures r == Err(NoRevisions) ==> files == []
    ensures r == Err(DuplicateRevision) ==> !DistinctRevisions(files)
    ensures r != Err(NoHeads)
  {
    var collected := CollectRevisions(files);
    if collected.Err? {
      return Err(collected.error);
    }
    var revisions := collected.value;
    CollectedKeys(files);
    assert files != [] ==> files[0].revision in revisions;
    if revisions == map[] {
      return Err(NoRevisions);
    }
    var bad := CheckParents(files, revisions);
    if bad.Some? {
      return Err(bad.value);
    }
    var cycle := SearchCycles(files, revisions);
    if cycle {
      return Err(CycleDetected);
    }
    var heads := ComputeHeads(revisions);
    HeadsCoverGraph(revisions);
    if heads == {} {
      assert false;
    }
    return Ok(AlembicGraph(revisions, heads));
  }

  lemma AllVisitedMeansAcyclic(g: Revisions, finished: seq<Rev>)
    requires ParentsFirst(g, finished) && forall r :: r in g ==> r in finished
    ensures !Cyclic(g)
  {
    if Cyclic(g) {
      var p, r :| |p| >= 2 && IsPathTo(g, p, r, r);
      ParentsFirstHasNoLoop(g, finished, p);
    }
  }

  // What the worklist keeps: everything seen is an ancestor, and nothing is lost.
  ghost predicate Covers(g: Revisions, heads: set<Rev>, all: set<Rev>, result: set<Rev>, stack: seq<Rev>) {
    && result <= all
    && (forall x :: x in stack ==> x in all)
    && (forall h :: h in heads ==> h in result || h in stack)
    && (forall x, p :: x in result && p in Parents(g, x) ==> p in result || p in stack)
  }

  lemma CoversSkip(g: Revisions, heads: set<Rev>, all: set<Rev>, result: set<Rev>, stack: seq<Rev>, top: Rev)
    requires Covers(g, heads, all, result, stack + [top]) && top in result
    ensures Covers(g, heads, all, result, stack)
  {
    assert forall x :: x in stack ==> x in stack + [top];
  }

  lemma CoversAdd(g: Revisions, heads: set<Rev>, all: set<Rev>, result: set<Rev>, stack: seq<Rev>, top: Rev)
    requires ClosedUnderParents(g, all) && Covers(g, heads, all, result, stack + [top])
    ensures Covers(g, heads, all, result + {top}, stack + Parents(g, top))
    ensures top in all
  {
    assert top in stack + [top];
    assert forall x :: x in stack ==> x in stack + [top];
  }

  lemma AncestorsAreKnown(g: Revisions, heads: set<Rev>)
    ensures AncestorSet(g, heads) <= g.Keys
  {
  }

  /** The worklist closure: raises exactly on unknown heads, otherwise computes reachability. */
  method Ancestors(graph: AlembicGraph, heads: set<Rev>) returns (r: Result<set<Rev>, GraphError>)
    requires ParentClosed(graph.revisions)
    ensures r == if heads <= graph.revisions.Keys then Ok(AncestorSet(graph.revisions, heads)) else Err(UnknownRevision)
  {
    var g := graph.revisions;
    if !(heads <= g.Keys) {
      return Err(UnknownRevision);
    }
    AncestorsContainHeads(g, heads);
    AncestorsClosed(g, heads);
    AncestorsAreKnown(g, heads);
    ghost var all := AncestorSet(g, heads);
    var result := Drain(g, heads, all);
    AncestorsLeast(g, heads, result);
    assert result == all;
    return Ok(result);
  }

  // The loop over the worklist, bounded above by any parent-closed set of known revisions.
  method Drain(g: Revisions, heads: set<Rev>, ghost all: set<Rev>) returns (result: set<Rev>)
    requires ClosedUnderParents(g, all) && heads <= all <= g.Keys
    ensures heads <= result <= all && ClosedUnderParents(g, result)
  {
    result := {};
    var stack := ListOf(heads);
    while stack != []
      invariant Covers(g, heads, all, result, stack)
      decreases |g.Keys - result|, |stack|
    {
      var top := stack[|stack| - 1];
      assert stack == stack[..|stack| - 1] + [top];
      stack := stack[..|stack| - 1];
      if top in result {
        CoversSkip(g, heads, all, result, stack, top);
        continue;
      }
      CoversAdd(g, heads, all, result, stack, top);
      SmallerByOne(g.Keys, result, top);
      result := result + {top};
      stack := stack + Parents(g, top);
    }
  }

  lemma SmallerByOne<T>(all: set<T>, seen: set<T>, x: T)
    requires x in all && x !in seen
    ensures |all - (seen + {x})| < |all - seen|
  {
    assert x in all - seen && x !in all - (seen + {x});
    SmallerSet(all - (seen + {x}), all - seen);
  }

  // list(frozenset): the elements in some order.
  method ListOf(s: set<Rev>) returns (l: seq<Rev>)
    ensures forall x :: x in l <==> x in s
  {
    l := [];
    var todo := s;
    while todo != {}
      invariant todo <= s
      invariant forall x :: x in l <==> x in s - todo
    {
      var x :| x in todo;
      l, todo := l + [x], todo - {x};
    }
  }
}
