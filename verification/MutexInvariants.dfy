/** What every critical section keeps: threads linked where their fields say,
    mutex queues in priority order, ownership lists, an acyclic wait graph. */
module MutexInvariants {
  import opened MachineInts
  import opened Objects
  import opened WaitGraph
  import opened Lists
  import opened ThreadQueue
  import opened MutexSpec

  /** Thread `t` waits for the owner of the mutex it is queued on. */
  ghost function Edges(d: Domain, w: Waits, h: Holds): (g: Graph)
    requires WaitsWf(d, w) && HoldsWf(d, h)
    ensures g.Keys == d.threads && Closed(g)
  {
    map t | t in d.threads :: if w.waiting[t] == null then null else h.owner[w.waiting[t]]
  }

  /** The awaited mutex and the queue field tell the same story. */
  ghost predicate WaitsOk(d: Domain, w: Waits) {
    && WaitsWf(d, w)
    && (forall t {:trigger w.waiting[t]} ::
         t in d.threads && w.waiting[t] != null ==> w.waitQ[t] == w.waiting[t].waitQ)
    && (forall t, m {:trigger w.waitQ[t], m.waitQ} ::
         t in d.threads && m in d.mutexes && w.waitQ[t] == m.waitQ ==> w.waiting[t] == m)
  }

  /** A mutex is linked exactly once in the list of its owner and in no other,
      and its recursion count is positive exactly while it is owned. */
  ghost predicate HoldsOk(d: Domain, h: Holds) {
    && HoldsWf(d, h)
    && (forall t {:trigger h.owned[t]} :: t in d.threads ==> Distinct(h.owned[t]))
    && (forall t, m {:trigger m in h.owned[t]} {:trigger h.owner[m], h.owned[t]} ::
         t in d.threads && m in d.mutexes ==> (m in h.owned[t] <==> h.owner[m] == t))
    && (forall m {:trigger h.owner[m]} {:trigger h.count[m]} ::
         m in d.mutexes ==> (h.count[m] > 0 <==> h.owner[m] != null))
    && (forall m {:trigger h.count[m]} :: m in d.mutexes ==> h.count[m] < UINT32)
  }

  /** A thread is linked exactly once, in exactly the queue its field names. */
  ghost predicate QueuesLinked(d: Domain, waitQ: map<Thread, WaitQ?>, queue: map<WaitQ, seq<Thread>>)
    requires waitQ.Keys == d.threads
  {
    && QueuesWf(d, queue)
    && (forall q {:trigger queue[q]} :: q in d.queues ==> Distinct(queue[q]))
    && (forall q, t {:trigger t in queue[q]} {:trigger queue[q], waitQ[t]} ::
         q in d.queues && t in d.threads ==> (t in queue[q] <==> waitQ[t] == q))
  }

  /** Mutex queues in priority order; plain queues are only linked. */
  ghost predicate QueuesSorted(d: Domain, prio: Priorities, queue: map<WaitQ, seq<Thread>>)
    requires DomainWf(d) && QueuesWf(d, queue) && prio.Keys == d.threads
  {
    forall m :: m in d.mutexes ==> Sorted(prio, queue[m.waitQ])
  }

  ghost predicate QueuesOk(s: State)
    requires Wf(s)
  {
    QueuesLinked(s.dom, s.waits.waitQ, s.queue) && QueuesSorted(s.dom, s.prio, s.queue)
  }

  ghost predicate Inv(s: State)
    ensures Inv(s) ==> Wf(s)
  {
    && Wf(s) && WaitsOk(s.dom, s.waits) && HoldsOk(s.dom, s.holds) && QueuesOk(s)
    && Acyclic(Edges(s.dom, s.waits, s.holds))
  }

  // ---- The chain walk

  /** Moving a thread within its queue keeps the queue linked, and sorts it if
      only this thread was out of place. */
  lemma MovedKeeps(prio: Priorities, prio': Priorities, q: seq<Thread>, t: Thread)
    requires Distinct(q) && t in q && Known(prio, q) && Known(prio', q)
    requires forall x :: x in q && x != t ==> prio'[x] == prio[x]
    ensures multiset(Moved(prio', q, t)) == multiset(q)
    ensures Sorted(prio, q) ==> Sorted(prio', Moved(prio', q, t))
  {
    WithoutKeeps(q, t);
    if Sorted(prio, q) {
      WithoutSorted(prio, prio', q, t);
      InsertSorted(prio', Without(q, t), t);
    }
  }

  /** Each queue holds the same threads as before. */
  ghost predicate Rearranged(queue: map<WaitQ, seq<Thread>>, queue': map<WaitQ, seq<Thread>>) {
    queue'.Keys == queue.Keys
    && forall q {:trigger queue'[q]} :: q in queue ==> multiset(queue'[q]) == multiset(queue[q])
  }

  lemma RearrangedLinked(d: Domain, waitQ: map<Thread, WaitQ?>, queue: map<WaitQ, seq<Thread>>,
                         queue': map<WaitQ, seq<Thread>>)
    requires waitQ.Keys == d.threads && QueuesLinked(d, waitQ, queue) && Rearranged(queue, queue')
    ensures QueuesLinked(d, waitQ, queue')
  {
    forall q | q in d.queues
      ensures Distinct(queue'[q]) && forall t :: t in queue'[q] <==> t in queue[q]
    {
      assert forall x :: x in queue'[q] <==> x in multiset(queue'[q]);
      assert forall x :: x in queue[q] <==> x in multiset(queue[q]);
    }
  }

  lemma VisitSorted(s: State, t: Thread, m: Mutex)
    requires Wf(s) && t in s.dom.threads && WaitsOk(s.dom, s.waits) && QueuesOk(s)
    requires m in s.dom.mutexes
    ensures Sorted(Visit(s, t).prio, Visit(s, t).queue[m.waitQ])
  {
    var q, prio := s.queue[m.waitQ], Refreshed(s, t);
    if s.waits.waiting[t] == m {
      MovedKeeps(s.prio, prio, q, t);
    } else {
      assert t !in q;
      assert forall i :: 0 <= i < |q| ==> q[i] in q;
    }
  }

  lemma VisitRearranges(s: State, t: Thread)
    requires Wf(s) && t in s.dom.threads && WaitsOk(s.dom, s.waits)
    requires QueuesLinked(s.dom, s.waits.waitQ, s.queue)
    ensures Rearranged(s.queue, Visit(s, t).queue)
  {
    assert s.waits.waiting[t] != null ==> t in s.queue[s.waits.waiting[t].waitQ];
  }

  lemma VisitKeeps(s: State, t: Thread)
    requires Wf(s) && t in s.dom.threads && WaitsOk(s.dom, s.waits) && QueuesOk(s)
    ensures Rearranged(s.queue, Visit(s, t).queue) && QueuesOk(Visit(s, t))
  {
    var r := Visit(s, t);
    VisitRearranges(s, t);
    RearrangedLinked(s.dom, s.waits.waitQ, s.queue, r.queue);
    forall m | m in s.dom.mutexes ensures Sorted(r.prio, r.queue[m.waitQ]) {
      VisitSorted(s, t, m);
    }
    hide Visit, QueuesLinked, WaitsOk, Rearranged;
  }

  /** The walk only rearranges queues, and leaves every mutex queue sorted,
      even when it is cut off by its depth limit. */
  lemma {:induction false} ChainKeeps(s: State, t: Thread?, visited: seq<Thread>)
    requires Wf(s) && (t != null ==> t in s.dom.threads) && WaitsOk(s.dom, s.waits) && QueuesOk(s)
    ensures Rearranged(s.queue, UpdateChain(s, t, visited).queue)
    ensures QueuesOk(UpdateChain(s, t, visited))
    decreases MAX_CHAIN - |visited|
  {
    hide Visit, QueuesOk;
    if t == null || |visited| >= MAX_CHAIN || t in visited {
    } else {
      VisitKeeps(s, t);
      if s.waits.waiting[t] != null {
        ChainKeeps(Visit(s, t), s.holds.owner[s.waits.waiting[t]], visited + [t]);
      }
    }
  }

  lemma ChainKeepsInv(s: State, t: Thread?)
    requires Inv(s) && (t != null ==> t in s.dom.threads)
    ensures Inv(UpdateChain(s, t, []))
  {
    hide UpdateChain;
    ChainKeeps(s, t, []);
  }

  // ---- Deadlock detection

  /** The owner walk lets a thread wait exactly when the chain of owners ends
      within its budget and does not contain that thread. */
  lemma {:induction false} DeadlockWalkExact(s: State, t: Thread, o: Thread?, fuel: nat)
    requires Wf(s) && t in s.dom.threads && (o != null ==> o in s.dom.threads)
    ensures !DeadlockWalk(s, t, o, fuel) <==>
              Hop(Edges(s.dom, s.waits, s.holds), o, fuel) == null && !Reaches(Edges(s.dom, s.waits, s.holds), o, t)
    decreases fuel
  {
    var g := Edges(s.dom, s.waits, s.holds);
    if o == null {
    } else if o == t {
      assert Hop(g, o, 0) == t;
    } else if fuel > 0 {
      var next := g[o];
      forall k: nat ensures Hop(g, o, k + 1) == Hop(g, next, k) {}
      assert Reaches(g, o, t) <==> Reaches(g, next, t) by {
        if k: nat :| Hop(g, o, k) == t {
          assert Hop(g, o, k - 1 + 1) == Hop(g, next, k - 1);
        }
        if k: nat :| Hop(g, next, k) == t {
          assert Hop(g, o, k + 1) == t;
        }
      }
      if s.waits.waiting[o] == null {
        assert forall k: nat :: Hop(g, next, k) == null;
      } else {
        DeadlockWalkExact(s, t, next, fuel - 1);
      }
    }
  }
}
