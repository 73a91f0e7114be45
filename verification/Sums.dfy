/** Finite sums over sets of keys, and the least-first order of finite sets. */
module Sums {

  ghost function Sum<K(!new)>(keys: set<K>, f: K -> int): int
    decreases |keys|
  {
    if keys == {} then 0 else
    var k :| k in keys;
    f(k) + Sum(keys - {k}, f)
  }

  lemma {:induction false} Pick<K(!new)>(keys: set<K>, k: K, f: K -> int)
    requires k in keys
    ensures Sum(keys, f) == f(k) + Sum(keys - {k}, f)
    decreases |keys|
  {
    var j :| j in keys && Sum(keys, f) == f(j) + Sum(keys - {j}, f);
    if j != k {
      Pick(keys - {j}, k, f);
      Pick(keys - {k}, j, f);
      assert keys - {j} - {k} == keys - {k} - {j};
    }
  }

  lemma {:induction false} Same<K(!new)>(keys: set<K>, f: K -> int, g: K -> int)
    requires forall k | k in keys :: f(k) == g(k)
    ensures Sum(keys, f) == Sum(keys, g)
    decreases |keys|
  {
    if keys != {} {
      var k :| k in keys;
      Pick(keys, k, f);
      Pick(keys, k, g);
      Same(keys - {k}, f, g);
    }
  }

  lemma {:induction false} NonNegative<K(!new)>(keys: set<K>, f: K -> int)
    requires forall k | k in keys :: 0 <= f(k)
    ensures 0 <= Sum(keys, f)
    decreases |keys|
  {
    if keys != {} {
      var k :| k in keys;
      Pick(keys, k, f);
      NonNegative(keys - {k}, f);
    }
  }

  lemma {:induction false} Zero<K(!new)>(keys: set<K>, f: K -> int)
    requires forall k | k in keys :: f(k) == 0
    ensures Sum(keys, f) == 0
    decreases |keys|
  {
    if keys != {} {
      var k :| k in keys;
      Pick(keys, k, f);
      Zero(keys - {k}, f);
    }
  }

  /** One term is at most a sum of non-negative terms. */
  lemma TermBound<K(!new)>(keys: set<K>, k: K, f: K -> int)
    requires forall k | k in keys :: 0 <= f(k)
    requires k in keys
    ensures f(k) <= Sum(keys, f)
  {
    Pick(keys, k, f);
    NonNegative(keys - {k}, f);
  }

  /** Writing one key moves the sum by that key's change and nothing else. */
  lemma Write<K(!new)>(keys: set<K>, k: K, f: K -> int, g: K -> int)
    requires forall j | j in keys && j != k :: f(j) == g(j)
    ensures Sum(keys + {k}, g) == Sum(keys, f) - (if k in keys then f(k) else 0) + g(k)
  {
    Pick(keys + {k}, k, g);
    assert keys + {k} - {k} == keys - {k};
    Same(keys - {k}, f, g);
    if k in keys {
      Pick(keys, k, f);
    } else {
      assert keys - {k} == keys;
    }
  }

  /** Dropping one key takes that key's term out of the sum and nothing else. */
  lemma Drop<K(!new)>(keys: set<K>, k: K, f: K -> int, g: K -> int)
    requires forall j | j in keys && j != k :: f(j) == g(j)
    ensures Sum(keys - {k}, g) == Sum(keys, f) - (if k in keys then f(k) else 0)
  {
    Same(keys - {k}, f, g);
    if k in keys {
      Pick(keys, k, f);
    } else {
      assert keys - {k} == keys;
    }
  }

  /** Keys whose terms are zero may be left out. */
  lemma {:induction false} Restrict<K(!new)>(keys: set<K>, sub: set<K>, f: K -> int)
    requires sub <= keys && forall k | k in keys - sub :: f(k) == 0
    ensures Sum(keys, f) == Sum(sub, f)
    decreases |keys - sub|
  {
    if keys - sub == {} {
      assert keys == sub;
    } else {
      var k :| k in keys - sub;
      Pick(keys, k, f);
      assert keys - {k} - sub == keys - sub - {k};
      Restrict(keys - {k}, sub, f);
    }
  }

  lemma Distribute(d: int, a: int, b: int)
    ensures d * (a + b) == d * a + d * b
  {
  }

  lemma {:induction false} Linear<K(!new)>(keys: set<K>, f: K -> int, g: K -> int, d: int, h: K -> int)
    requires forall k | k in keys :: g(k) == f(k) + d * h(k)
    ensures Sum(keys, g) == Sum(keys, f) + d * Sum(keys, h)
    decreases |keys|
  {
    if keys != {} {
      var k :| k in keys;
      Pick(keys, k, f);
      Pick(keys, k, g);
      Pick(keys, k, h);
      Linear(keys - {k}, f, g, d, h);
      Distribute(d, h(k), Sum(keys - {k}, h));
    }
  }
}

module Orders {

  lemma Any<T>(s: set<T>) returns (x: T)
    requires s != {}
    ensures x in s
  {
    x :| x in s;
  }

  lemma {:induction false} LeastExists(s: set<int>)
    requires s != {}
    ensures exists m :: m in s && forall x | x in s :: m <= x
    decreases |s|
  {
    var y := Any(s);
    var rest := s - {y};
    assert s == rest + {y};
    if rest != {} {
      LeastExists(rest);
      var m :| m in rest && forall x | x in rest :: m <= x;
      var least := if m <= y then m else y;
      assert least in s && forall x | x in s :: least <= x;
    } else {
      assert forall x | x in s :: y <= x;
    }
  }

  function Least(s: set<int>): (m: int)
    requires s != {}
    ensures m in s && forall x | x in s :: m <= x
  {
    LeastExists(s);
    var m :| m in s && forall x | x in s :: m <= x;
    m
  }

  /** The elements of a finite set, least first: the order a key-ordered store walks in. */
  function Ascending(s: set<int>): (q: seq<int>)
    ensures forall x :: x in q <==> x in s
    ensures forall i, j | 0 <= i < j < |q| :: q[i] < q[j]
    ensures |q| == |s|
    decreases |s|
  {
    if s == {} then [] else
    var m := Least(s);
    [m] + Ascending(s - {m})
  }
}
