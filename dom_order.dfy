/** Child order of the scroller element and the engine's element queue, both as
    sequences of opaque element handles. */
module DomOrder {

  /** An element handle. The engine only compares handles for identity. */
  type Id = nat

  /** No handle occurs twice: a DOM node has at most one position among its
      parent's children, and the queue is copied from those children. */
  ghost predicate Distinct(s: seq<Id>)
  {
    forall i, j :: 0 <= i < j < |s| ==> s[i] != s[j]
  }

  /** The handles in `s`, as a set. */
  function Members(s: seq<Id>): set<Id>
  {
    set x | x in s
  }

  lemma MembersSnoc(s: seq<Id>, x: Id)
    ensures Members(s + [x]) == Members(s) + {x}
  {
  }

  function Last(s: seq<Id>): Id
    requires |s| > 0
  {
    s[|s| - 1]
  }

  /** The child list once `x` is detached from it. */
  function Remove(s: seq<Id>, x: Id): (r: seq<Id>)
    ensures x !in r
    ensures |r| <= |s|
  {
    if |s| == 0 then []
    else (if s[0] == x then [] else [s[0]]) + Remove(s[1..], x)
  }

  /** `appendChild(x)`: `x` is detached from wherever it is and becomes the last child. */
  function MoveToEnd(s: seq<Id>, x: Id): (r: seq<Id>)
    ensures |r| > 0 && Last(r) == x
  {
    Remove(s, x) + [x]
  }

  /** `prepend(x)`: `x` is detached from wherever it is and becomes the first child. */
  function MoveToFront(s: seq<Id>, x: Id): (r: seq<Id>)
    ensures |r| > 0 && r[0] == x
  {
    [x] + Remove(s, x)
  }

  /** `shift()` followed by `push()` of the shifted element; an empty queue stays empty. */
  function Rotate(q: seq<Id>): (r: seq<Id>)
    ensures |r| == |q|
  {
    if |q| == 0 then q else q[1..] + [q[0]]
  }

  /** The queue after `n` rotations. */
  function RotateN(q: seq<Id>, n: nat): (r: seq<Id>)
    ensures |r| == |q|
  {
    if n == 0 then q else Rotate(RotateN(q, n - 1))
  }

  /** Detaching removes every occurrence of the element and keeps every other
      element as often as it was there. */
  lemma {:induction false} RemoveCounts(s: seq<Id>, x: Id)
    ensures multiset(Remove(s, x)) == multiset(s)[x := 0]
  {
    if |s| > 0 {
      RemoveCounts(s[1..], x);
      assert s == [s[0]] + s[1..];
    }
  }

  /** After `appendChild` each child occurs as often as before, and the moved one once. */
  lemma MoveToEndKeepsChildren(s: seq<Id>, x: Id)
    ensures multiset(MoveToEnd(s, x)) == multiset(s)[x := 1]
  {
    RemoveCounts(s, x);
  }

  /** After `prepend` each child occurs as often as before, and the moved one once. */
  lemma MoveToFrontKeepsChildren(s: seq<Id>, x: Id)
    ensures multiset(MoveToFront(s, x)) == multiset(s)[x := 1]
  {
    RemoveCounts(s, x);
  }

  /** A rotation neither duplicates nor loses an element. */
  lemma RotateKeepsElements(q: seq<Id>)
    ensures multiset(Rotate(q)) == multiset(q)
  {
    if |q| > 0 {
      assert q == [q[0]] + q[1..];
    }
  }

  /** Any number of rotations neither duplicates nor loses an element. */
  lemma {:induction false} RotateNKeepsElements(q: seq<Id>, n: nat)
    ensures multiset(RotateN(q, n)) == multiset(q)
  {
    if n > 0 {
      var p := RotateN(q, n - 1);
      RotateNKeepsElements(q, n - 1);
      RotateKeepsElements(p);
      assert RotateN(q, n) == Rotate(p);
    }
  }

  /** A rotation keeps exactly the same members. */
  lemma RotateKeepsMembers(q: seq<Id>, x: Id)
    ensures x in Rotate(q) <==> x in q
  {
    RotateKeepsElements(q);
    assert x in q <==> multiset(q)[x] > 0;
    assert x in Rotate(q) <==> multiset(Rotate(q))[x] > 0;
  }

  /** In a list without repeats each member occurs exactly once. */
  lemma {:induction false} DistinctOnce(s: seq<Id>, x: Id)
    requires Distinct(s) && x in s
    ensures multiset(s)[x] == 1
  {
    assert s == [s[0]] + s[1..];
    DistinctTail(s);
    if s[0] != x {
      DistinctOnce(s[1..], x);
    } else {
      assert multiset(s[1..])[x] == 0;
    }
  }

  lemma DistinctTail(s: seq<Id>)
    requires |s| > 0 && Distinct(s)
    ensures Distinct(s[1..]) && s[0] !in s[1..]
  {
  }

  lemma DistinctRotate(q: seq<Id>)
    requires Distinct(q)
    ensures Distinct(Rotate(q))
  {
    if |q| > 0 {
      var r := Rotate(q);
      assert r == q[1..] + [q[0]];
      forall i, j | 0 <= i < j < |r| ensures r[i] != r[j] {
        if j == |r| - 1 {
          assert r[i] == q[i + 1] && r[j] == q[0];
        } else {
          assert r[i] == q[i + 1] && r[j] == q[j + 1];
        }
      }
    }
  }

  lemma {:induction false} DistinctRotateN(q: seq<Id>, n: nat)
    requires Distinct(q)
    ensures Distinct(RotateN(q, n))
  {
    if n > 0 {
      DistinctRotateN(q, n - 1);
      DistinctRotate(RotateN(q, n - 1));
    }
  }

  /** Detaching a node that is not a child leaves the order alone. */
  lemma {:induction false} RemoveAbsent(s: seq<Id>, x: Id)
    requires x !in s
    ensures Remove(s, x) == s
  {
    if |s| > 0 {
      RemoveAbsent(s[1..], x);
    }
  }

  /** Detaching the first child of a list without repeats leaves the rest in order. */
  lemma RemoveFirst(s: seq<Id>)
    requires |s| > 0 && Distinct(s)
    ensures Remove(s, s[0]) == s[1..]
  {
    DistinctTail(s);
    RemoveAbsent(s[1..], s[0]);
  }

  /** Detaching the last child of a list without repeats leaves the rest in order. */
  lemma {:induction false} RemoveLast(s: seq<Id>)
    requires |s| > 0 && Distinct(s)
    ensures Remove(s, Last(s)) == s[..|s| - 1]
  {
    if |s| > 1 {
      DistinctTail(s);
      assert Last(s[1..]) == Last(s);
      assert s[0] != Last(s) by { assert Last(s) in s[1..]; }
      RemoveLast(s[1..]);
      assert s[..|s| - 1] == [s[0]] + s[1..][..|s| - 2];
    }
  }

  /** One rotation of `q` split at `k` is `q` split at `k + 1`. */
  lemma RotateSplit(q: seq<Id>, k: nat)
    requires k < |q|
    ensures Rotate(q[k..] + q[..k]) == q[k + 1..] + q[..k + 1]
  {
    var p := q[k..] + q[..k];
    assert p[0] == q[k];
    assert p[1..] == q[k + 1..] + q[..k];
    assert q[..k + 1] == q[..k] + [q[k]];
  }

  lemma {:induction false} MulAtLeast(x: nat, m: nat)
    requires x >= 1
    ensures x * m >= m
  {
    if x > 1 {
      MulAtLeast(x - 1, m);
      assert x * m == (x - 1) * m + m;
    }
  }

  /** The remainder is determined by any decomposition with a remainder below `m`. */
  lemma ModUnique(n: int, m: int, a: int, r: int)
    requires m > 0 && 0 <= r < m && n == a * m + r
    ensures n % m == r
  {
    var b := n / m;
    assert n == b * m + n % m;
    assert (a - b) * m == n % m - r;
    if a - b >= 1 {
      MulAtLeast(a - b, m);
    } else if b - a >= 1 {
      MulAtLeast(b - a, m);
    }
  }

  lemma ModSuccessor(n: nat, m: nat)
    requires n > 0 && m > 0
    ensures (n - 1) % m + 1 < m ==> n % m == (n - 1) % m + 1
    ensures (n - 1) % m + 1 == m ==> n % m == 0
  {
    var a, k := (n - 1) / m, (n - 1) % m;
    assert n - 1 == a * m + k;
    if k + 1 < m {
      ModUnique(n, m, a, k + 1);
    } else {
      assert n == (a + 1) * m + 0;
      ModUnique(n, m, a + 1, 0);
    }
  }

  /** `n` rotations move the first `n mod |q|` handles, in order, behind the others. */
  lemma {:induction false} RotateNSplits(q: seq<Id>, n: nat)
    requires |q| > 0
    ensures RotateN(q, n) == q[n % |q|..] + q[..n % |q|]
  {
    if n == 0 {
      assert q[0..] + q[..0] == q;
    } else {
      RotateNSplits(q, n - 1);
      var k := (n - 1) % |q|;
      RotateSplit(q, k);
      ModSuccessor(n, |q|);
      if k + 1 == |q| {
        assert q[k + 1..] + q[..k + 1] == q;
        assert q[0..] + q[..0] == q;
      }
    }
  }
}
