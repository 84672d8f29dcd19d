/** Sets of row ids listed in increasing order, as ORDER BY id lists them. */
module Ordered {
  predicate Increasing(q: seq<nat>) {
    forall i, j | 0 <= i < j < |q| :: q[i] < q[j]
  }

  function Elements(q: seq<nat>): set<nat> {
    set x | x in q
  }

  predicate IsLeast(m: nat, s: set<nat>) {
    m in s && forall x | x in s :: m <= x
  }

  lemma {:induction false} LeastExists(s: set<nat>) returns (m: nat)
    requires s != {}
    ensures IsLeast(m, s)
  {
    var a :| a in s;
    var rest := s - {a};
    if rest == {} {
      m := a;
      assert s == {a};
    } else {
      var l := LeastExists(rest);
      m := if a < l then a else l;
      forall x | x in s ensures m <= x {
        assert x == a || x in rest;
      }
    }
  }

  lemma MinExists(s: set<nat>)
    requires s != {}
    ensures exists m :: IsLeast(m, s)
  {
    var m := LeastExists(s);
  }

  function Min(s: set<nat>): (m: nat)
    requires s != {}
    ensures IsLeast(m, s)
  {
    MinExists(s);
    var m :| IsLeast(m, s);
    m
  }

  function Sorted(s: set<nat>): seq<nat> {
    if s == {} then [] else [Min(s)] + Sorted(s - {Min(s)})
  }

  lemma {:induction false} SortedShape(s: set<nat>)
    ensures Increasing(Sorted(s)) && |Sorted(s)| == |s| && Elements(Sorted(s)) == s
  {
    if s != {} {
      var m := Min(s);
      SortedShape(s - {m});
      ConsShape(m, Sorted(s - {m}));
    }
  }

  lemma ConsShape(m: nat, rest: seq<nat>)
    requires Increasing(rest) && forall x | x in Elements(rest) :: m < x
    ensures Increasing([m] + rest) && Elements([m] + rest) == {m} + Elements(rest)
  {
    var q := [m] + rest;
    forall i, j | 0 <= i < j < |q| ensures q[i] < q[j] {
      assert q[j] == rest[j - 1] && rest[j - 1] in Elements(rest);
      assert i > 0 ==> q[i] == rest[i - 1];
    }
  }

  /** A strictly increasing list is determined by its elements. */
  lemma {:induction false} IncreasingUnique(a: seq<nat>, b: seq<nat>)
    requires Increasing(a) && Increasing(b) && Elements(a) == Elements(b)
    ensures a == b
  {
    EmptyElements(a);
    EmptyElements(b);
    if a != [] {
      HeadLeast(a);
      HeadLeast(b);
      TailElements(a);
      TailElements(b);
      IncreasingUnique(a[1..], b[1..]);
      assert a == [a[0]] + a[1..] && b == [b[0]] + b[1..];
    }
  }

  lemma EmptyElements(a: seq<nat>)
    ensures a == [] <==> Elements(a) == {}
  {
    if a != [] {
      assert a[0] in Elements(a);
    }
  }

  lemma HeadLeast(a: seq<nat>)
    requires a != [] && Increasing(a)
    ensures IsLeast(a[0], Elements(a))
  {
    assert a[0] in Elements(a);
  }

  lemma TailElements(a: seq<nat>)
    requires a != [] && Increasing(a)
    ensures Increasing(a[1..]) && Elements(a[1..]) == Elements(a) - {a[0]}
  {
    forall x | x in Elements(a) - {a[0]} ensures x in Elements(a[1..]) {
      var i :| 0 <= i < |a| && a[i] == x;
      assert a[1..][i - 1] == x;
    }
  }

  lemma SortedOf(q: seq<nat>)
    requires Increasing(q)
    ensures Sorted(Elements(q)) == q
  {
    SortedShape(Elements(q));
    IncreasingUnique(Sorted(Elements(q)), q);
  }

  lemma SortedMember(s: set<nat>, x: nat)
    ensures x in Sorted(s) <==> x in s
  {
    SortedShape(s);
    assert x in Sorted(s) <==> x in Elements(Sorted(s));
  }

  /** Removing the first k elements of the list leaves the rest of it. */
  lemma SortedDrop(s: set<nat>, k: nat)
    requires k <= |Sorted(s)|
    ensures Sorted(s - Elements(Sorted(s)[..k])) == Sorted(s)[k..]
  {
    var q := Sorted(s);
    SortedShape(s);
    IncreasingSplit(q, k);
    SortedOf(q[k..]);
  }

  lemma IncreasingSplit(q: seq<nat>, k: nat)
    requires Increasing(q) && k <= |q|
    ensures Increasing(q[k..]) && Elements(q) - Elements(q[..k]) == Elements(q[k..])
  {
    var front, back := q[..k], q[k..];
    assert q == front + back;
    forall x | x in Elements(back) ensures x !in Elements(front) {
      var j :| 0 <= j < |back| && back[j] == x;
      assert forall i | 0 <= i < k :: front[i] == q[i] < q[k + j];
    }
    forall i, j | 0 <= i < j < |back| ensures back[i] < back[j] {
      assert back[i] == q[k + i] && back[j] == q[k + j];
    }
  }

  /** The ids 0, 1, ..., n - 1. */
  function Below(n: nat): set<nat> {
    if n == 0 then {} else Below(n - 1) + {n - 1}
  }

  lemma {:induction false} BelowMember(n: nat, x: nat)
    ensures x in Below(n) <==> x < n
  {
    if n > 0 {
      BelowMember(n - 1, x);
    }
  }

  lemma BelowAll(n: nat)
    ensures forall x: nat :: x in Below(n) <==> x < n
  {
    forall x: nat ensures x in Below(n) <==> x < n {
      BelowMember(n, x);
    }
  }
}
