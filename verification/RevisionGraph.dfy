/** The Alembic revision graph: paths, reachability, and what a well-formed graph is. */
module RevisionGraph {
  import opened Wrappers

  type Rev = string

  // A revision maps to its down_revision metadata: None, or a tuple of parents.
  type Revisions = map<Rev, Option<seq<Rev>>>

  datatype AlembicGraph = AlembicGraph(revisions: Revisions, heads: set<Rev>)

  datatype GraphError =
    | DuplicateRevision | NoRevisions | SelfReference | MissingParent
    | CycleDetected | NoHeads | UnknownRevision | ConflictingMetadata

  function Parents(g: Revisions, r: Rev): seq<Rev> {
    if r in g && g[r].Some? then g[r].value else []
  }

  ghost predicate ParentClosed(g: Revisions) {
    forall r, p :: r in g && p in Parents(g, r) ==> p in g
  }

  ghost predicate ClosedUnderParents(g: Revisions, s: set<Rev>) {
    forall r, p :: r in s && p in Parents(g, r) ==> p in s
  }

  // A path runs from a revision down to its ancestors, one parent at a time.
  ghost predicate IsPath(g: Revisions, p: seq<Rev>) {
    |p| > 0 && (|p| == 1 || (p[1] in Parents(g, p[0]) && IsPath(g, p[1..])))
  }

  ghost predicate IsPathTo(g: Revisions, p: seq<Rev>, a: Rev, b: Rev) {
    IsPath(g, p) && p[0] == a && p[|p| - 1] == b
  }

  ghost predicate Reaches(g: Revisions, a: Rev, b: Rev) {
    exists p :: IsPathTo(g, p, a, b)
  }

  ghost predicate Cyclic(g: Revisions) {
    exists p, r :: |p| >= 2 && IsPathTo(g, p, r, r)
  }

  ghost predicate WellFormed(g: Revisions) {
    ParentClosed(g) && !Cyclic(g)
  }

  ghost function Heads(g: Revisions): set<Rev> {
    set r | r in g && forall x :: x in g ==> r !in Parents(g, x)
  }

  /** Every revision reachable backward from `heads`, the heads included. */
  ghost function AncestorSet(g: Revisions, heads: set<Rev>): set<Rev> {
    set x | x in g && exists h :: h in heads && Reaches(g, h, x)
  }

  // ---------------------------------------------------------------- paths

  lemma {:induction false} PathConcat(g: Revisions, p: seq<Rev>, q: seq<Rev>)
    requires IsPath(g, p) && IsPath(g, q) && p[|p| - 1] == q[0]
    ensures IsPathTo(g, p + q[1..], p[0], q[|q| - 1])
  {
    if |p| == 1 {
      assert p + q[1..] == q;
    } else {
      PathConcat(g, p[1..], q);
      assert (p + q[1..])[1..] == p[1..] + q[1..];
    }
  }

  lemma {:induction false} SubPath(g: Revisions, p: seq<Rev>, i: nat, j: nat)
    requires IsPath(g, p) && i <= j < |p|
    ensures IsPathTo(g, p[i..j + 1], p[i], p[j])
    decreases |p|
  {
    if i > 0 {
      SubPath(g, p[1..], i - 1, j - 1);
      assert p[1..][i - 1..j] == p[i..j + 1];
    } else if j > 0 {
      SubPath(g, p[1..], 0, j - 1);
      assert p[0..j + 1][1..] == p[1..][0..j];
    } else {
      assert p[0..1] == [p[0]];
    }
  }

  lemma {:induction false} PathStaysInside(g: Revisions, s: set<Rev>, p: seq<Rev>)
    requires ClosedUnderParents(g, s) && IsPath(g, p) && p[0] in s
    ensures forall x :: x in p ==> x in s
  {
    if |p| > 1 {
      PathStaysInside(g, s, p[1..]);
      assert p == [p[0]] + p[1..];
    }
  }

  // In a graph without cycles a path never meets a revision twice.
  lemma PathIsInjective(g: Revisions, p: seq<Rev>, i: nat, j: nat)
    requires !Cyclic(g) && IsPath(g, p) && i < j < |p|
    ensures p[i] != p[j]
  {
    SubPath(g, p, i, j);
    var loop := p[i..j + 1];
    assert |loop| >= 2 && IsPathTo(g, loop, p[i], p[j]);
  }

  lemma {:induction false} InjectiveFits<T>(p: seq<T>, s: set<T>)
    requires forall i, j :: 0 <= i < j < |p| ==> p[i] != p[j]
    requires forall x :: x in p ==> x in s
    ensures |p| <= |s|
  {
    if p != [] {
      InjectiveFits(p[1..], s - {p[0]});
    }
  }

  lemma PathFits(g: Revisions, p: seq<Rev>)
    requires WellFormed(g) && IsPath(g, p) && p[0] in g
    ensures |p| <= |g|
  {
    PathStaysInside(g, g.Keys, p);
    forall i, j | 0 <= i < j < |p| ensures p[i] != p[j] { PathIsInjective(g, p, i, j); }
    InjectiveFits(p, g.Keys);
  }

  // ---------------------------------------------------------------- ancestors

  lemma AncestorsContainHeads(g: Revisions, heads: set<Rev>)
    requires heads <= g.Keys
    ensures heads <= AncestorSet(g, heads)
  {
    forall h | h in heads ensures h in AncestorSet(g, heads) {
      assert IsPathTo(g, [h], h, h);
    }
  }

  lemma AncestorsClosed(g: Revisions, heads: set<Rev>)
    requires ParentClosed(g)
    ensures ClosedUnderParents(g, AncestorSet(g, heads))
  {
    forall r, p | r in AncestorSet(g, heads) && p in Parents(g, r)
      ensures p in AncestorSet(g, heads)
    {
      var h :| h in heads && Reaches(g, h, r);
      var path :| IsPathTo(g, path, h, r);
      assert IsPath(g, [r, p][1..]);
      PathConcat(g, path, [r, p]);
      assert Reaches(g, h, p);
    }
  }

  /** The ancestors are the least parent-closed set that contains the heads. */
  lemma AncestorsLeast(g: Revisions, heads: set<Rev>, s: set<Rev>)
    requires heads <= s && ClosedUnderParents(g, s)
    ensures AncestorSet(g, heads) <= s
  {
    forall x | x in AncestorSet(g, heads) ensures x in s {
      var h :| h in heads && Reaches(g, h, x);
      var p :| IsPathTo(g, p, h, x);
      PathStaysInside(g, s, p);
    }
  }

  lemma AncestorsMonotone(g: Revisions, a: set<Rev>, b: set<Rev>)
    requires ParentClosed(g) && b <= g.Keys && a <= AncestorSet(g, b)
    ensures AncestorSet(g, a) <= AncestorSet(g, b)
  {
    AncestorsClosed(g, b);
    AncestorsLeast(g, a, AncestorSet(g, b));
  }

  // ---------------------------------------------------------------- heads

  // Walking from parent to child in a finite acyclic graph ends at a head.
  lemma {:induction false} ClimbToHead(g: Revisions, p: seq<Rev>) returns (h: Rev)
    requires WellFormed(g) && IsPath(g, p) && p[0] in g
    ensures h in Heads(g) && Reaches(g, h, p[|p| - 1])
    decreases |g| - |p|
  {
    PathFits(g, p);
    if p[0] in Heads(g) {
      h := p[0];
      assert IsPathTo(g, p, h, p[|p| - 1]);
    } else {
      var child :| child in g && p[0] in Parents(g, child);
      assert ([child] + p)[1..] == p;
      PathFits(g, [child] + p);
      h := ClimbToHead(g, [child] + p);
    }
  }

  ghost predicate Antichain(g: Revisions, s: set<Rev>) {
    forall a, b :: a in s && b in s && a != b ==> !Reaches(g, a, b)
  }

  lemma HeadAbove(g: Revisions, x: Rev)
    requires WellFormed(g) && x in g
    ensures Heads(g) != {} && x in AncestorSet(g, Heads(g))
  {
    var h := ClimbToHead(g, [x]);
  }

  /** Every revision of a well-formed graph is an ancestor of some head, so heads exist. */
  lemma HeadsCoverGraph(g: Revisions)
    requires WellFormed(g)
    ensures AncestorSet(g, Heads(g)) == g.Keys
    ensures g.Keys != {} ==> Heads(g) != {}
  {
    var covered := AncestorSet(g, Heads(g));
    assert covered <= g.Keys;
    forall x | x in g.Keys ensures x in covered && Heads(g) != {} {
      HeadAbove(g, x);
    }
  }

  // Only a revision that is somebody's parent can be reached from elsewhere.
  lemma ReachedIsParent(g: Revisions, a: Rev, b: Rev)
    requires ParentClosed(g) && a in g && a != b && Reaches(g, a, b)
    ensures exists x :: x in g && b in Parents(g, x)
  {
    var p :| IsPathTo(g, p, a, b);
    PathStaysInside(g, g.Keys, p);
    var n := |p|;
    SubPath(g, p, n - 2, n - 1);
    assert p[n - 2..n - 1 + 1] == [p[n - 2], p[n - 1]];
    assert b in Parents(g, p[n - 2]);
  }

  lemma HeadsAreAntichain(g: Revisions)
    requires ParentClosed(g)
    ensures Antichain(g, Heads(g))
  {
    forall a, b | a in Heads(g) && b in Heads(g) && a != b && Reaches(g, a, b)
      ensures false
    {
      ReachedIsParent(g, a, b);
    }
  }
}
