/** Sequences as the intrusive lists of the kernel use them. */
module Lists {

  /** Every element is linked exactly once. */
  ghost predicate Distinct<T>(q: seq<T>) {
    forall x :: x in q ==> multiset(q)[x] == 1
  }

  function Find<T(==)>(q: seq<T>, t: T): (k: nat)
    ensures k <= |q| && t !in q[..k]
    ensures k < |q| ==> q[k] == t
    ensures k == |q| <==> t !in q
  {
    if q == [] || q[0] == t then 0 else 1 + Find(q[1..], t)
  }

  /** Unlinks `t`; a queue without it is left alone. */
  function Without<T(==)>(q: seq<T>, t: T): (r: seq<T>)
    ensures t !in q ==> r == q
    ensures t in q ==> multiset(q) == multiset(r) + multiset{t}
  {
    var k := Find(q, t);
    if k == |q| then q
    else
      assert q == q[..k] + [t] + q[k + 1..];
      q[..k] + q[k + 1..]
  }

  lemma WithoutKeeps<T>(q: seq<T>, t: T)
    requires Distinct(q)
    ensures Distinct(Without(q, t))
    ensures forall x :: x in Without(q, t) <==> x in q && x != t
  {
    var r := Without(q, t);
    if t in q {
      assert forall x :: multiset(q)[x] == multiset(r)[x] + multiset{t}[x];
      assert forall x :: x in r <==> x in multiset(r);
    }
  }

  lemma CutAt<T>(q: seq<T>, t: T, a: nat)
    requires a < |Without(q, t)|
    ensures var i := if a < Find(q, t) then a else a + 1;
            i < |q| && Without(q, t)[a] == q[i]
  {
    var k := Find(q, t);
    hide Find;
    if k < |q| {
      assert Without(q, t) == q[..k] + q[k + 1..];
    }
  }

  /** Where an element was, and what is left without it. */
  lemma WithoutSplit<T>(q: seq<T>, t: T) returns (k: nat)
    requires t in q
    ensures k < |q| && q == q[..k] + [t] + q[k + 1..] && Without(q, t) == q[..k] + q[k + 1..]
  {
    k := Find(q, t);
  }

  lemma AppendDistinct<T>(q: seq<T>, t: T)
    requires Distinct(q) && t !in q
    ensures Distinct(q + [t])
  {
    assert forall x :: multiset(q + [t])[x] == multiset(q)[x] + multiset{t}[x];
  }

  lemma TailDistinct<T>(q: seq<T>)
    requires Distinct(q) && q != []
    ensures Distinct(q[1..]) && forall x :: x in q[1..] <==> x in q && x != q[0]
  {
    WithoutKeeps(q, q[0]);
    assert Without(q, q[0]) == q[1..];
  }

  lemma TwiceIn<T>(q: seq<T>, i: nat, j: nat)
    requires i < j < |q| && q[i] == q[j]
    ensures multiset(q)[q[i]] >= 2
  {
    assert q == q[..i] + [q[i]] + q[i + 1..j] + [q[j]] + q[j + 1..];
  }

  lemma DistinctAt<T>(q: seq<T>, i: nat, j: nat)
    requires Distinct(q) && i < |q| && j < |q| && q[i] == q[j]
    ensures i == j
  {
    if i < j {
      TwiceIn(q, i, j);
    } else if j < i {
      TwiceIn(q, j, i);
    }
  }
}
