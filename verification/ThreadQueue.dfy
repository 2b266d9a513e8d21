/** Priority-ordered wait queues, as sequences of threads and a map of their
    effective priorities. */
module ThreadQueue {
  import opened Lists
  import opened Objects

  type Priorities = map<Thread, int>

  ghost predicate Known(prio: Priorities, q: seq<Thread>) {
    forall t :: t in q ==> t in prio
  }

  /** Non-increasing effective priority from the head on. */
  ghost predicate Sorted(prio: Priorities, q: seq<Thread>)
    requires Known(prio, q)
  {
    forall i, j :: 0 <= i < j < |q| ==> prio[q[i]] >= prio[q[j]]
  }

  /** Where the insertion scan stops: the first thread of lower priority. */
  function Slot(prio: Priorities, q: seq<Thread>, p: int): (k: nat)
    requires Known(prio, q)
    ensures k <= |q|
    ensures forall i :: 0 <= i < k ==> prio[q[i]] >= p
    ensures k < |q| ==> prio[q[k]] < p
  {
    if q == [] || p > prio[q[0]] then 0 else 1 + Slot(prio, q[1..], p)
  }

  function Insert(prio: Priorities, q: seq<Thread>, t: Thread): (r: seq<Thread>)
    requires Known(prio, q) && t in prio
    ensures Known(prio, r)
    ensures multiset(r) == multiset(q) + multiset{t}
  {
    var k := Slot(prio, q, prio[t]);
    assert q == q[..k] + q[k..];
    q[..k] + [t] + q[k..]
  }

  /** Removing a thread keeps the order of the rest, whatever happened to the
      priority of the removed one. */
  lemma WithoutSorted(prio: Priorities, prio': Priorities, q: seq<Thread>, t: Thread)
    requires Known(prio, q) && Sorted(prio, q) && Known(prio', Without(q, t))
    requires forall x :: x in Without(q, t) ==> x in q && prio'[x] == prio[x]
    ensures Sorted(prio', Without(q, t))
  {
    var r := Without(q, t);
    forall a, b | 0 <= a < b < |r| ensures prio'[r[a]] >= prio'[r[b]] {
      CutAt(q, t, a);
      CutAt(q, t, b);
      assert r[a] in r && r[b] in r;
    }
  }

  /** Insertion keeps a queue sorted and is stable: the newcomer goes behind
      everyone of at least its priority and ahead of everyone below it. */
  lemma InsertSorted(prio: Priorities, q: seq<Thread>, t: Thread)
    requires Known(prio, q) && Sorted(prio, q) && t in prio
    ensures Sorted(prio, Insert(prio, q, t))
    ensures exists k :: 0 <= k <= |q| && Insert(prio, q, t) == q[..k] + [t] + q[k..]
                && (forall i :: 0 <= i < k ==> prio[q[i]] >= prio[t])
                && (forall i :: k <= i < |q| ==> prio[q[i]] < prio[t])
  {
    var k := Slot(prio, q, prio[t]);
    var r := Insert(prio, q, t);
    assert r == q[..k] + [t] + q[k..];
    forall i {:trigger r[i]} | 0 <= i < |r|
      ensures r[i] == if i < k then q[i] else if i == k then t else q[i - 1]
    {}
  }
}
