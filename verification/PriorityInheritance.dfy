/** The chain walk computes the priorities the inheritance law asks for. */
module PriorityInheritance {
  import opened Objects
  import opened WaitGraph
  import opened ThreadQueue
  import opened MutexSpec
  import opened MutexInvariants
  import opened InheritanceLaw

  ghost function WaitFor(s: State): (g: Graph)
    requires Wf(s)
    ensures g.Keys == s.dom.threads && Closed(g)
  {
    Edges(s.dom, s.waits, s.holds)
  }

  ghost predicate UpToDate(s: State, t: Thread)
    requires Wf(s) && t in s.dom.threads
  {
    Settled(WaitFor(s), s.base, s.prio, t)
  }

  ghost predicate AllUpToDate(s: State)
    requires Wf(s)
  {
    AllSettled(WaitFor(s), s.base, s.prio)
  }

  /** Only threads on the chain that starts at `t` may be out of date. */
  ghost predicate ElsewhereUpToDate(s: State, t: Thread?)
    requires Wf(s) && (t != null ==> t in s.dom.threads)
  {
    forall x {:trigger UpToDate(s, x)} ::
      x in s.dom.threads && !Reaches(WaitFor(s), t, x) ==> UpToDate(s, x)
  }

  ghost predicate BasesValid(s: State)
    requires Wf(s)
  {
    forall t :: t in s.dom.threads ==> s.base[t] >= 0
  }

  /** The scan over the owned mutexes meets exactly the threads that wait for
      the scanned thread. */
  lemma WaitersAreWaiting(s: State, t: Thread, w: Thread)
    requires Inv(s) && t in s.dom.threads && w in s.dom.threads
    ensures w in Waiters(s.queue, s.holds.owned[t]) <==> WaitFor(s)[w] == t
  {
    WaitersKnown(s.queue, s.prio, s.holds.owned[t]);
    hide Waiters, Acyclic;
    if w in Waiters(s.queue, s.holds.owned[t]) {
      var m :| m in s.holds.owned[t] && w in s.queue[m.waitQ];
      assert s.waits.waitQ[w] == m.waitQ && s.holds.owner[m] == t;
    }
    if WaitFor(s)[w] == t {
      var m := s.waits.waiting[w];
      assert m in s.holds.owned[t] && w in s.queue[m.waitQ];
    }
  }

  lemma ScanIsEffective(s: State, t: Thread)
    requires Inv(s) && t in s.dom.threads
    ensures IsEffective(WaitFor(s), s.base, s.prio, t, Effective(s, t))
  {
    hide Highest, Waiters, QueuesOk, Acyclic, WaitsOk, HoldsOk;
    var ws := Waiters(s.queue, s.holds.owned[t]);
    WaitersKnown(s.queue, s.prio, s.holds.owned[t]);
    var p := Highest(s.prio, ws, s.base[t]);
    forall w | w in s.dom.threads ensures w in ws <==> WaitFor(s)[w] == t {
      WaitersAreWaiting(s, t, w);
    }
    if p != s.base[t] {
      var i :| 0 <= i < |ws| && s.prio[ws[i]] == p;
      assert ws[i] in ws;
    }
  }

  lemma VisitInv(s: State, t: Thread)
    requires Inv(s) && t in s.dom.threads
    ensures Inv(Visit(s, t)) && WaitFor(Visit(s, t)) == WaitFor(s)
  {
    hide Visit, QueuesOk, Acyclic;
    VisitKeeps(s, t);
  }

  /** A visit settles its thread and disturbs only the next one in the chain. */
  lemma VisitSettles(s: State, t: Thread, x: Thread)
    requires Inv(s) && t in s.dom.threads && x in s.dom.threads && BasesValid(s)
    requires x == t || (UpToDate(s, x) && WaitFor(s)[t] != x)
    ensures UpToDate(Visit(s, t), x)
  {
    var g := WaitFor(s);
    assert g[t] != t by { assert Hop(g, t, 1) == Hop(g, g[t], 0); }
    ScanIsEffective(s, t);
    RefreshSettles(g, s.base, s.prio, Refreshed(s, t), t, x);
    hide Inv, Effective, Moved, Settled, Refreshed;
  }

  lemma RefreshSettles(g: Graph, base: Priorities, prio: Priorities, prio': Priorities, t: Thread, x: Thread)
    requires Fits(g, base, prio) && Fits(g, base, prio') && t in g && x in g && g[t] != t
    requires forall w :: w in g && w != t ==> prio'[w] == prio[w]
    requires IsEffective(g, base, prio, t, prio'[t])
    requires x == t || (Settled(g, base, prio, x) && g[t] != x)
    ensures Settled(g, base, prio', x)
  {}

  /** The graph is acyclic, so the walk never meets a visited thread again. */
  lemma CycleCheckIdle(s: State, t: Thread, visited: seq<Thread>)
    requires Inv(s) && t in s.dom.threads
    requires forall v :: v in visited ==> Upstream(WaitFor(s), v, t)
    ensures t !in visited
    ensures forall v :: v in visited + [t] ==> Upstream(WaitFor(s), v, WaitFor(s)[t])
  {
    var g := WaitFor(s);
    hide Inv;
    assert Acyclic(g);
    forall v | v in visited + [t] ensures Upstream(g, v, g[t]) {
      NextUpstream(g, v, t);
    }
  }

  /** The chain walk without its test for visited threads. */
  ghost function Walk(s: State, t: Thread?, fuel: nat): (r: State)
    requires Wf(s) && (t != null ==> t in s.dom.threads)
    ensures Wf(r) && r == s.(prio := r.prio, queue := r.queue)
    decreases fuel
  {
    if t == null || fuel == 0 then s
    else
      var s1 := Visit(s, t);
      if s.waits.waiting[t] == null then s1
      else Walk(s1, s.holds.owner[s.waits.waiting[t]], fuel - 1)
  }

  lemma WalkNext(s: State, t: Thread, fuel: nat)
    requires Wf(s) && t in s.dom.threads && fuel > 0
    ensures Walk(s, t, fuel) == Walk(Visit(s, t), WaitFor(s)[t], fuel - 1)
  {
    hide Visit;
  }

  lemma UpdateNext(s: State, t: Thread, visited: seq<Thread>)
    requires Wf(s) && t in s.dom.threads && t !in visited && |visited| < MAX_CHAIN
    ensures UpdateChain(s, t, visited) == UpdateChain(Visit(s, t), WaitFor(s)[t], visited + [t])
  {
    hide Visit;
  }

  lemma WalkOver(s: State, t: Thread?, fuel: nat)
    requires Wf(s) && (t != null ==> t in s.dom.threads)
    ensures t == null || fuel == 0 ==> Walk(s, t, fuel) == s
  {}

  lemma UpdateOver(s: State, t: Thread?, visited: seq<Thread>)
    requires Wf(s) && (t != null ==> t in s.dom.threads)
    ensures t == null || |visited| >= MAX_CHAIN ==> UpdateChain(s, t, visited) == s
  {}

  lemma BasesStay(s: State, t: Thread)
    requires Wf(s) && t in s.dom.threads && BasesValid(s)
    ensures BasesValid(Visit(s, t))
  {}

  /** The test never fires, on chains of any length: the walk with it is the
      walk without it. */
  lemma {:induction false} WalkUntested(s: State, t: Thread?, visited: seq<Thread>)
    requires Inv(s) && (t != null ==> t in s.dom.threads) && |visited| <= MAX_CHAIN
    requires forall v :: v in visited ==> Upstream(WaitFor(s), v, t)
    ensures UpdateChain(s, t, visited) == Walk(s, t, MAX_CHAIN - |visited|)
    decreases MAX_CHAIN - |visited|
  {
    hide Inv, Visit, Upstream, UpdateChain, Walk;
    WalkOver(s, t, MAX_CHAIN - |visited|);
    UpdateOver(s, t, visited);
    if t != null && |visited| < MAX_CHAIN {
      CycleCheckIdle(s, t, visited);
      VisitInv(s, t);
      WalkNext(s, t, MAX_CHAIN - |visited|);
      UpdateNext(s, t, visited);
      WalkUntested(Visit(s, t), WaitFor(s)[t], visited + [t]);
    }
  }

  /** If only threads on the chain below `t` are out of date, the walk leaves
      out of date at most those of them that its depth budget does not reach. */
  lemma {:induction false} WalkRepairs(s: State, t: Thread?, fuel: nat)
    requires Inv(s) && BasesValid(s) && (t != null ==> t in s.dom.threads) && ElsewhereUpToDate(s, t)
    ensures WaitFor(Walk(s, t, fuel)) == WaitFor(s)
    ensures ElsewhereUpToDate(Walk(s, t, fuel), Hop(WaitFor(s), t, fuel))
    decreases fuel
  {
    hide Inv, Visit, ElsewhereUpToDate, BasesValid, Walk;
    WalkOver(s, t, fuel);
    if t != null && fuel > 0 {
      VisitLeaves(s, t);
      BasesStay(s, t);
      WalkNext(s, t, fuel);
      WalkRepairs(Visit(s, t), WaitFor(s)[t], fuel - 1);
    }
  }

  /** Chain repair at any chain length: at most the threads past the
      sixteenth are left out of date. */
  lemma ChainRepairs(s: State, t: Thread?)
    requires Inv(s) && BasesValid(s) && (t != null ==> t in s.dom.threads) && ElsewhereUpToDate(s, t)
    ensures WaitFor(UpdateChain(s, t, [])) == WaitFor(s)
    ensures ElsewhereUpToDate(UpdateChain(s, t, []), Hop(WaitFor(s), t, MAX_CHAIN))
  {
    hide Inv, UpdateChain, Walk, ElsewhereUpToDate;
    WalkUntested(s, t, []);
    WalkRepairs(s, t, MAX_CHAIN);
  }

  /** Chain repair: if only threads on the chain below `t` are out of date and
      the chain fits the depth budget, the walk brings every thread up to date. */
  lemma ChainRepair(s: State, t: Thread?)
    requires Inv(s) && BasesValid(s) && (t != null ==> t in s.dom.threads) && ElsewhereUpToDate(s, t)
    requires Hop(WaitFor(s), t, MAX_CHAIN) == null
    ensures AllUpToDate(UpdateChain(s, t, []))
  {
    hide Inv, UpdateChain, ElsewhereUpToDate;
    ChainRepairs(s, t);
    NoneElsewhere(UpdateChain(s, t, []));
  }

  /** After a visit only threads on the rest of the chain are out of date. */
  lemma VisitLeaves(s: State, t: Thread)
    requires Inv(s) && BasesValid(s) && t in s.dom.threads
    requires ElsewhereUpToDate(s, t)
    ensures Inv(Visit(s, t)) && WaitFor(Visit(s, t)) == WaitFor(s)
    ensures ElsewhereUpToDate(Visit(s, t), WaitFor(s)[t])
  {
    hide WaitsOk, HoldsOk, QueuesOk, Acyclic, Visit, UpToDate, Reaches;
    VisitInv(s, t);
    forall x | x in s.dom.threads && !Reaches(WaitFor(s), WaitFor(s)[t], x)
      ensures UpToDate(Visit(s, t), x)
    {
      NextReaches(WaitFor(s), t, x);
      assert x == t || UpToDate(s, x);
      VisitSettles(s, t, x);
    }
  }

  lemma NoneElsewhere(s: State)
    requires Wf(s) && ElsewhereUpToDate(s, null)
    ensures AllUpToDate(s)
  {
    assert forall n: nat :: Hop(WaitFor(s), null, n) == null;
    assert forall x :: x in s.dom.threads ==> UpToDate(s, x);
  }
}
