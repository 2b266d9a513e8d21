/** The wait-for graph: every thread waits for at most one other thread, the
    owner of the mutex it is queued on, so the graph is a partial function. */
module WaitGraph {
  import opened Objects

  type Graph = map<Thread, Thread?>

  ghost predicate Closed(g: Graph) {
    forall t {:trigger g[t]} :: t in g && g[t] != null ==> g[t] in g
  }

  /** The thread `n` hops down the chain that starts at `t`. */
  ghost function Hop(g: Graph, t: Thread?, n: nat): (r: Thread?)
    requires Closed(g) && (t != null ==> t in g)
    ensures r != null ==> r in g
    ensures n == 0 ==> r == t
  {
    if t == null || n == 0 then t else Hop(g, g[t], n - 1)
  }

  ghost predicate Reaches(g: Graph, x: Thread?, y: Thread)
    requires Closed(g) && (x != null ==> x in g)
  {
    exists n: nat :: Hop(g, x, n) == y
  }

  /** No thread waits, directly or through others, for itself. */
  ghost predicate Acyclic(g: Graph)
    requires Closed(g)
  {
    forall t, n: nat :: t in g && n > 0 ==> Hop(g, t, n) != t
  }

  lemma {:induction false} HopSum(g: Graph, t: Thread?, a: nat, b: nat)
    requires Closed(g) && (t != null ==> t in g)
    ensures Hop(g, Hop(g, t, a), b) == Hop(g, t, a + b)
  {
    if t != null && a > 0 {
      HopSum(g, g[t], a - 1, b);
    }
  }

  /** Cutting edges closes no cycle. */
  lemma CutKeepsAcyclic(g: Graph, h: Graph)
    requires Closed(g) && Closed(h) && Acyclic(g) && h.Keys == g.Keys
    requires forall t :: t in g ==> h[t] == g[t] || h[t] == null
    ensures Acyclic(h)
  {
    forall t, n: nat | t in h && n > 0 ensures Hop(h, t, n) != t {
      CutHop(g, h, t, n);
    }
  }

  lemma {:induction false} CutHop(g: Graph, h: Graph, t: Thread?, n: nat)
    requires Closed(g) && Closed(h) && h.Keys == g.Keys && (t != null ==> t in g)
    requires forall t :: t in g ==> h[t] == g[t] || h[t] == null
    ensures Hop(h, t, n) == Hop(g, t, n) || Hop(h, t, n) == null
  {
    if t != null && n > 0 {
      CutHop(g, h, h[t], n - 1);
    }
  }

  /** Redirecting any number of edges to a thread that waits for nobody closes
      no cycle: this is what acquiring a free mutex does to its waiters. */
  lemma SinkKeepsAcyclic(g: Graph, h: Graph, sink: Thread)
    requires Closed(g) && Closed(h) && Acyclic(g) && h.Keys == g.Keys
    requires sink in h && h[sink] == null
    requires forall t :: t in g ==> h[t] == g[t] || h[t] == sink
    ensures Acyclic(h)
  {
    forall t, n: nat | t in h && n > 0 ensures Hop(h, t, n) != t {
      if t == sink {
        assert Hop(h, h[sink], n - 1) == null;
      } else {
        SinkHop(g, h, sink, t, n);
      }
    }
  }

  lemma {:induction false} SinkHop(g: Graph, h: Graph, sink: Thread, t: Thread?, n: nat)
    requires Closed(g) && Closed(h) && h.Keys == g.Keys && (t != null ==> t in g)
    requires sink in h && h[sink] == null
    requires forall t :: t in g ==> h[t] == g[t] || h[t] == sink
    ensures Hop(h, t, n) == Hop(g, t, n) || Hop(h, t, n) == sink || Hop(h, t, n) == null
  {
    if t != null && n > 0 {
      if h[t] == g[t] {
        SinkHop(g, h, sink, h[t], n - 1);
      } else if n > 1 {
        assert Hop(h, sink, n - 1) == Hop(h, null, n - 2);
      }
    }
  }

  /** A new edge closes a cycle exactly when its target already reaches its source. */
  lemma EdgeKeepsAcyclic(g: Graph, t: Thread, o: Thread)
    requires Closed(g) && Acyclic(g) && t in g && o in g && g[t] == null
    ensures Closed(g[t := o])
    ensures Acyclic(g[t := o]) <==> !Reaches(g, o, t)
  {
    var h := g[t := o];
    if k: nat :| Hop(g, o, k) == t {
      EdgePrefix(g, t, o, o, k, k);
      assert Hop(h, t, k + 1) == t;
    } else {
      forall x, n: nat | x in h && n > 0 ensures Hop(h, x, n) != x {
        if k: nat :| Hop(g, x, k) == t {
          EdgeHop(g, t, o, x, k, n);
          if n > k && Hop(h, x, n) == x {
            HopSum(g, o, n - k - 1, k);   // o reaches x, and x reaches t
            assert false;
          }
        } else {
          AvoidHop(g, t, o, x, n);
        }
      }
    }
  }

  lemma {:induction false} EdgePrefix(g: Graph, t: Thread, o: Thread, x: Thread, k: nat, n: nat)
    requires Closed(g) && t in g && o in g && x in g && g[t] == null
    requires Hop(g, x, k) == t && n <= k
    ensures Hop(g[t := o], x, n) == Hop(g, x, n)
  {
    if n > 0 {
      if x == t {
        assert false;   // nothing lies behind t
      } else {
        EdgePrefix(g, t, o, g[x], k - 1, n - 1);
      }
    }
  }

  /** Off the new edge the chain is the old one. */
  lemma {:induction false} AvoidHop(g: Graph, t: Thread, o: Thread, x: Thread?, n: nat)
    requires Closed(g) && t in g && o in g && (x != null ==> x in g)
    requires !Reaches(g, x, t)
    ensures Hop(g[t := o], x, n) == Hop(g, x, n)
  {
    if x != null && n > 0 {
      assert Hop(g, x, 0) == x;
      forall k: nat ensures Hop(g, g[x], k) != t {
        assert Hop(g, x, k + 1) == Hop(g, g[x], k);
      }
      AvoidHop(g, t, o, g[x], n - 1);
    }
  }

  /** A chain that meets the new edge follows the old chain up to it and the
      old chain of its target from there. */
  lemma {:induction false} EdgeHop(g: Graph, t: Thread, o: Thread, x: Thread, k: nat, n: nat)
    requires Closed(g) && t in g && o in g && x in g && g[t] == null
    requires !Reaches(g, o, t) && Hop(g, x, k) == t
    ensures Hop(g[t := o], x, n) == if n <= k then Hop(g, x, n) else Hop(g, o, n - k - 1)
  {
    if n > 0 {
      if x == t {
        if k > 0 { assert false; }   // nothing lies behind t
        AvoidHop(g, t, o, o, n - 1);
      } else {
        EdgeHop(g, t, o, g[x], k - 1, n - 1);
      }
    }
  }
}
