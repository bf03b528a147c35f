/** Code-point order on strings, and lists that are sorted and free of duplicates. */
module Ordering {
  predicate Less(a: string, b: string) {
    b != [] && (a == [] || a[0] < b[0] || (a[0] == b[0] && Less(a[1..], b[1..])))
  }

  predicate SortedUnique(s: seq<string>) {
    forall i, j :: 0 <= i < j < |s| ==> Less(s[i], s[j])
  }

  function Elements<T(==)>(s: seq<T>): set<T> {
    set x | x in s
  }

  lemma {:induction false} LessIrreflexive(a: string)
    ensures !Less(a, a)
  {
    if a != [] { LessIrreflexive(a[1..]); }
  }

  lemma {:induction false} LessTransitive(a: string, b: string, c: string)
    requires Less(a, b) && Less(b, c)
    ensures Less(a, c)
  {
    if a != [] && a[0] == b[0] && b[0] == c[0] { LessTransitive(a[1..], b[1..], c[1..]); }
  }

  lemma {:induction false} LessTotal(a: string, b: string)
    ensures Less(a, b) || a == b || Less(b, a)
  {
    if a != [] && b != [] && a[0] == b[0] {
      LessTotal(a[1..], b[1..]);
      assert a == [a[0]] + a[1..] && b == [b[0]] + b[1..];
    }
  }

  lemma {:induction false} LessAppend(prefix: string, a: string, b: string)
    ensures Less(prefix + a, prefix + b) <==> Less(a, b)
  {
    if prefix == [] {
      assert prefix + a == a && prefix + b == b;
    } else {
      LessAppend(prefix[1..], a, b);
      assert (prefix + a)[1..] == prefix[1..] + a && (prefix + b)[1..] == prefix[1..] + b;
    }
  }

  predicate IsLeast(s: set<string>, x: string) {
    x in s && forall y :: y in s ==> x == y || Less(x, y)
  }

  lemma {:induction false} LeastExists(s: set<string>) returns (least: string)
    requires s != {}
    ensures IsLeast(s, least)
  {
    var x :| x in s;
    if s == {x} {
      least := x;
    } else {
      var y := LeastExists(s - {x});
      LessTotal(x, y);
      if Less(x, y) {
        least := x;
        forall z | z in s && z != x ensures Less(x, z) { if z != y { LessTransitive(x, y, z); } }
      } else {
        least := y;
      }
    }
  }

  lemma LeastIsUnique(s: set<string>, a: string, b: string)
    requires IsLeast(s, a) && IsLeast(s, b)
    ensures a == b
  {
    if a != b {
      LessTransitive(a, b, a);
      LessIrreflexive(a);
    }
  }

  function Least(s: set<string>): (least: string)
    requires s != {}
    ensures IsLeast(s, least)
  {
    assert exists x :: IsLeast(s, x) by {
      var x := LeastExists(s);
      assert IsLeast(s, x);
    }
    assert forall a, b :: IsLeast(s, a) && IsLeast(s, b) ==> a == b by {
      forall a, b | IsLeast(s, a) && IsLeast(s, b) ensures a == b { LeastIsUnique(s, a, b); }
    }
    var least :| IsLeast(s, least);
    least
  }

  /** sorted(set): the one sorted duplicate-free list of the elements. */
  function SortedOf(s: set<string>): (r: seq<string>)
    ensures SortedUnique(r) && Elements(r) == s
  {
    if s == {} then []
    else
      var least := Least(s);
      var rest := SortedOf(s - {least});
      assert forall j :: 0 <= j < |rest| ==> rest[j] in Elements(rest);
      assert forall x :: x in [least] + rest <==> x == least || x in Elements(rest);
      [least] + rest
  }

  lemma HeadIsLeast(s: seq<string>, x: string)
    requires SortedUnique(s) && x in s
    ensures x == s[0] || Less(s[0], x)
  {
  }

  lemma {:induction false} SortedIsUnique(a: seq<string>, b: seq<string>)
    requires SortedUnique(a) && SortedUnique(b) && Elements(a) == Elements(b)
    ensures a == b
  {
    assert b != [] ==> b[0] in Elements(b);
    if a != [] {
      assert a[0] in Elements(b);
      assert b[0] in Elements(a);
      HeadIsLeast(a, b[0]);
      HeadIsLeast(b, a[0]);
      if a[0] != b[0] {
        LessTransitive(a[0], b[0], a[0]);
        LessIrreflexive(a[0]);
      }
      forall x ensures x in a[1..] <==> x in b[1..] {
        TailElement(a, x);
        TailElement(b, x);
        assert x in Elements(a) <==> x in Elements(b);
      }
      SortedIsUnique(a[1..], b[1..]);
      assert a == [a[0]] + a[1..] && b == [b[0]] + b[1..];
    }
  }

  lemma TailElement(s: seq<string>, x: string)
    requires SortedUnique(s) && s != []
    ensures x in s[1..] <==> x in s && x != s[0]
  {
    LessIrreflexive(s[0]);
    assert s == [s[0]] + s[1..];
  }
}
