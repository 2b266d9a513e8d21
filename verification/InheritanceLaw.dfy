/** Priority inheritance as equations over the wait-for graph, and their one
    solution on an acyclic graph. */
module InheritanceLaw {
  import opened Objects
  import opened WaitGraph
  import opened ThreadQueue

  ghost predicate Fits(g: Graph, base: Priorities, prio: Priorities) {
    Closed(g) && base.Keys == g.Keys && prio.Keys == g.Keys
  }

  /** `p` is the highest of the base priority of `t` and the priorities of the
      threads that wait for a mutex `t` owns. */
  ghost predicate IsEffective(g: Graph, base: Priorities, prio: Priorities, t: Thread, p: int)
    requires Fits(g, base, prio) && t in g
  {
    && base[t] <= p
    && (forall w {:trigger g[w]} {:trigger prio[w]} :: w in g && g[w] == t ==> prio[w] <= p)
    && (p == base[t] || exists w {:trigger g[w]} {:trigger prio[w]} :: w in g && g[w] == t && prio[w] == p)
  }

  /** The local equation: a priority in step with the direct waiters. */
  ghost predicate Settled(g: Graph, base: Priorities, prio: Priorities, t: Thread)
    requires Fits(g, base, prio) && t in g
  {
    IsEffective(g, base, prio, t, prio[t])
  }

  ghost predicate AllSettled(g: Graph, base: Priorities, prio: Priorities)
    requires Fits(g, base, prio)
  {
    forall t {:trigger Settled(g, base, prio, t)} :: t in g ==> Settled(g, base, prio, t)
  }

  /** The priority of `t` is the highest base priority among `t` itself and all
      threads blocked, directly or through others, on mutexes it owns. */
  ghost predicate Inherited(g: Graph, base: Priorities, prio: Priorities, t: Thread)
    requires Fits(g, base, prio) && t in g
  {
    && (forall x :: x in g && Reaches(g, x, t) ==> base[x] <= prio[t])
    && (exists x :: x in g && Reaches(g, x, t) && base[x] == prio[t])
  }

  ghost predicate AllInherited(g: Graph, base: Priorities, prio: Priorities)
    requires Fits(g, base, prio)
  {
    forall t {:trigger Inherited(g, base, prio, t)} :: t in g ==> Inherited(g, base, prio, t)
  }

  /** `v` reaches `t` in at least one hop. */
  ghost predicate Upstream(g: Graph, v: Thread, t: Thread?)
    requires Closed(g)
  {
    v in g && (t == null || exists k: nat :: k > 0 && Hop(g, v, k) == t)
  }

  lemma NextUpstream(g: Graph, v: Thread, t: Thread)
    requires Closed(g) && t in g && v in g && (v == t || Upstream(g, v, t))
    ensures Upstream(g, v, g[t])
  {
    assert Hop(g, t, 1) == Hop(g, g[t], 0) == g[t];
    if v != t {
      var k: nat :| k > 0 && Hop(g, v, k) == t;
      HopSum(g, v, k, 1);
    }
  }

  lemma NextReaches(g: Graph, t: Thread, x: Thread)
    requires Closed(g) && t in g && x in g && !Reaches(g, g[t], x)
    ensures g[t] != x && (x == t || !Reaches(g, t, x))
  {
    assert Hop(g, g[t], 0) == g[t];
    forall k: nat ensures Hop(g, t, k) == if k == 0 then t else Hop(g, g[t], k - 1) {}
  }

  lemma ReachesNext(g: Graph, x: Thread, w: Thread)
    requires Closed(g) && x in g && w in g && Reaches(g, x, w)
    ensures g[w] != null ==> Reaches(g, x, g[w])
  {
    var n: nat :| Hop(g, x, n) == w;
    HopSum(g, x, n, 1);
    assert Hop(g, w, 1) == Hop(g, g[w], 0);
  }

  lemma LastHop(g: Graph, x: Thread, t: Thread) returns (w: Thread)
    requires Closed(g) && x in g && t in g && x != t && Reaches(g, x, t)
    ensures w in g && g[w] == t && Reaches(g, x, w)
  {
    var n: nat :| Hop(g, x, n) == t;
    HopSum(g, x, n - 1, 1);
    w := Hop(g, x, n - 1);
    assert Hop(g, w, 1) == Hop(g, g[w], 0);
  }

  /** On an acyclic graph the closed form is the one solution of the local
      equations. */
  lemma SettledIffInherited(g: Graph, base: Priorities, prio: Priorities)
    requires Fits(g, base, prio) && Acyclic(g)
    ensures AllSettled(g, base, prio) <==> AllInherited(g, base, prio)
  {
    hide Inherited, Settled;
    forall t | t in g && AllSettled(g, base, prio) ensures Inherited(g, base, prio, t) {
      SettledInherits(g, base, prio, t);
    }
    if AllInherited(g, base, prio) {
      forall t | t in g ensures Settled(g, base, prio, t) {
        InheritedSettles(g, base, prio, t);
      }
    }
  }

  lemma SettledInherits(g: Graph, base: Priorities, prio: Priorities, t: Thread)
    requires Fits(g, base, prio) && Acyclic(g) && AllSettled(g, base, prio) && t in g
    ensures Inherited(g, base, prio, t)
  {
    forall x | x in g && Reaches(g, x, t) ensures base[x] <= prio[t] {
      var n: nat :| Hop(g, x, n) == t;
      UpperBound(g, base, prio, x, t, n);
    }
    var x := Attained(g, base, prio, t, {});
  }

  lemma {:induction false} UpperBound(g: Graph, base: Priorities, prio: Priorities,
                                      x: Thread, t: Thread, n: nat)
    requires Fits(g, base, prio) && AllSettled(g, base, prio) && x in g && t in g
    requires Hop(g, x, n) == t
    ensures base[x] <= prio[x] <= prio[t]
  {
    assert Settled(g, base, prio, x);
    if n > 0 {
      var next: Thread := g[x];
      assert Settled(g, base, prio, next);
      UpperBound(g, base, prio, next, t, n - 1);
    }
  }

  /** Walking upstream from `t` along threads of equal priority ends at the one
      whose base priority it is; acyclicity bounds the walk. */
  lemma {:induction false} Attained(g: Graph, base: Priorities, prio: Priorities, t: Thread, seen: set<Thread>)
    returns (x: Thread)
    requires Fits(g, base, prio) && Acyclic(g) && AllSettled(g, base, prio) && t in g
    requires seen <= g.Keys && forall v :: v in seen ==> Upstream(g, t, v)
    ensures x in g && Reaches(g, x, t) && base[x] == prio[t]
    decreases g.Keys - seen
  {
    assert t !in seen && Settled(g, base, prio, t);
    if prio[t] == base[t] {
      assert Hop(g, t, 0) == t;
      x := t;
    } else {
      var w :| w in g && g[w] == t && prio[w] == prio[t];
      assert Hop(g, w, 1) == Hop(g, t, 0) == t;
      forall v | v in seen + {t} ensures Upstream(g, w, v) {
        if v != t {
          var k: nat :| k > 0 && Hop(g, t, k) == v;
          HopSum(g, w, 1, k);
        }
      }
      x := Attained(g, base, prio, w, seen + {t});
      ReachesNext(g, x, w);
    }
  }

  lemma InheritedSettles(g: Graph, base: Priorities, prio: Priorities, t: Thread)
    requires Fits(g, base, prio) && t in g
    requires AllInherited(g, base, prio)
    ensures Settled(g, base, prio, t)
  {
    forall w | w in g && g[w] == t ensures prio[w] <= prio[t] {
      assert Inherited(g, base, prio, w) && Inherited(g, base, prio, t);
      WaiterBelow(g, base, prio, w, t);
    }
    var w := Source(g, base, prio, t);
    hide Inherited;
  }

  /** Either `t` runs at its own priority or a direct waiter lends it. */
  lemma Source(g: Graph, base: Priorities, prio: Priorities, t: Thread) returns (w: Thread)
    requires Fits(g, base, prio) && t in g
    requires AllInherited(g, base, prio)
    ensures base[t] <= prio[t]
    ensures prio[t] == base[t] || (w in g && g[w] == t && prio[w] >= prio[t])
  {
    w := t;
    assert Inherited(g, base, prio, t) && Hop(g, t, 0) == t;
    var x :| x in g && Reaches(g, x, t) && base[x] == prio[t];
    if x != t {
      w := LastHop(g, x, t);
      assert Inherited(g, base, prio, w);
    }
  }

  lemma WaiterBelow(g: Graph, base: Priorities, prio: Priorities, w: Thread, t: Thread)
    requires Fits(g, base, prio) && w in g && g[w] == t
    requires Inherited(g, base, prio, w) && Inherited(g, base, prio, t)
    ensures prio[w] <= prio[t]
  {
    var x :| x in g && Reaches(g, x, w) && base[x] == prio[w];
    ReachesNext(g, x, w);
  }
}
