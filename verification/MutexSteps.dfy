/** Every critical section keeps the invariant. */
module MutexSteps {
  import opened MachineInts
  import opened Objects
  import opened WaitGraph
  import opened Lists
  import opened ThreadQueue
  import opened MutexSpec
  import opened MutexInvariants

  // ---- Holding and waiting, one field group at a time

  lemma TakenHolds(d: Domain, h: Holds, t: Thread, m: Mutex)
    requires HoldsOk(d, h) && t in d.threads && m in d.mutexes && h.owner[m] == null
    ensures HoldsOk(d, Taken(h, t, m))
  {
    assert multiset(h.owned[t] + [m]) == multiset(h.owned[t]) + multiset{m};
  }

  lemma FreedHolds(d: Domain, h: Holds, t: Thread, m: Mutex)
    requires HoldsOk(d, h) && t in d.threads && m in d.mutexes && h.owner[m] == t
    ensures HoldsOk(d, Freed(h, t, m))
  {
    WithoutKeeps(h.owned[t], m);
    hide Without;
  }

  lemma CountHolds(d: Domain, h: Holds, m: Mutex, n: nat)
    requires HoldsOk(d, h) && m in d.mutexes && h.owner[m] != null && 0 < n < UINT32
    ensures HoldsOk(d, h.(count := h.count[m := n]))
  {}

  lemma WaitAtOk(d: Domain, w: Waits, t: Thread, q: WaitQ?, m: Mutex?)
    requires DomainWf(d) && WaitsOk(d, w) && t in d.threads
    requires q != null ==> q in d.queues
    requires m != null ==> m in d.mutexes && m.waitQ == q
    requires m == null ==> q == null || !IsMutexQ(d, q)
    ensures WaitsOk(d, WaitAt(w, t, q, m))
  {}

  // ---- Queues, one thread at a time

  lemma InsertLinked(d: Domain, waitQ: map<Thread, WaitQ?>, queue: map<WaitQ, seq<Thread>>,
                     q: WaitQ, t: Thread, r: seq<Thread>)
    requires waitQ.Keys == d.threads && QueuesLinked(d, waitQ, queue)
    requires q in d.queues && t in d.threads && waitQ[t] == null
    requires multiset(r) == multiset(queue[q]) + multiset{t}
    ensures QueuesLinked(d, waitQ[t := q], queue[q := r])
  {
    assert forall x :: x in r <==> x in multiset(r);
    assert forall x :: x in queue[q] <==> x in multiset(queue[q]);
  }

  lemma CutLinked(d: Domain, waitQ: map<Thread, WaitQ?>, queue: map<WaitQ, seq<Thread>>,
                  q: WaitQ, t: Thread, r: seq<Thread>)
    requires waitQ.Keys == d.threads && QueuesLinked(d, waitQ, queue)
    requires q in d.queues && t in d.threads && t in queue[q]
    requires multiset(queue[q]) == multiset(r) + multiset{t}
    ensures QueuesLinked(d, waitQ[t := null], queue[q := r])
  {
    assert multiset(queue[q])[t] == 1;
    assert forall x :: x in r <==> x in multiset(r);
    assert forall x :: x in queue[q] <==> x in multiset(queue[q]);
    assert forall x :: multiset(queue[q])[x] == multiset(r)[x] + multiset{t}[x];
  }

  /** A linked thread is in the queue its field names, once. */
  lemma LinkedAt(s: State, t: Thread)
    requires Inv(s) && t in s.dom.threads
    ensures var q := s.waits.waitQ[t];
            q != null ==> q in s.dom.queues && t in s.queue[q] && Distinct(s.queue[q])
  {
    hide WaitsOk, HoldsOk, Acyclic, QueuesSorted;
  }

  /** One queue changed, and is still sorted if it is that of a mutex. */
  lemma SortedWith(s: State, q: WaitQ, r: seq<Thread>)
    requires Inv(s) && q in s.dom.queues && Known(s.prio, r) && (forall x :: x in r ==> x in s.dom.threads)
    requires Sorted(s.prio, s.queue[q]) ==> Sorted(s.prio, r)
    ensures QueuesWf(s.dom, s.queue[q := r]) && QueuesSorted(s.dom, s.prio, s.queue[q := r])
  {
    hide WaitsOk, HoldsOk, Acyclic, QueuesLinked, Sorted;
  }

  lemma ParkedQueues(s: State, t: Thread, q: WaitQ, m: Mutex?)
    requires Inv(s) && t in s.dom.threads && q in s.dom.queues && (m != null ==> m in s.dom.mutexes)
    requires s.waits.waitQ[t] == null
    ensures QueuesOk(Parked(s, t, q, m))
  {
    hide QueuesLinked, QueuesSorted, Insert, WaitsOk, HoldsOk, Acyclic, Sorted;
    var r := Insert(s.prio, s.queue[q], t);
    InsertLinked(s.dom, s.waits.waitQ, s.queue, q, t, r);
    if Sorted(s.prio, s.queue[q]) {
      InsertSorted(s.prio, s.queue[q], t);
    }
    SortedWith(s, q, r);
  }

  lemma UnparkedQueues(s: State, t: Thread, m: Mutex?)
    requires Inv(s) && t in s.dom.threads && s.waits.waitQ[t] != null && (m != null ==> m in s.dom.mutexes)
    ensures QueuesOk(Unparked(s, t, m))
  {
    hide QueuesLinked, QueuesSorted, WaitsOk, HoldsOk, Acyclic, Sorted;
    var q := s.waits.waitQ[t];
    var r := Without(s.queue[q], t);
    LinkedAt(s, t);
    CutLinked(s.dom, s.waits.waitQ, s.queue, q, t, r);
    WithoutKeeps(s.queue[q], t);
    if Sorted(s.prio, s.queue[q]) {
      WithoutSorted(s.prio, s.prio, s.queue[q], t);
    }
    SortedWith(s, q, r);
  }

  lemma PopHeadQueues(s: State, q: WaitQ, m: Mutex?)
    requires Inv(s) && q in s.dom.queues && s.queue[q] != [] && (m != null ==> m in s.dom.mutexes)
    ensures QueuesOk(PopHead(s, q, m))
  {
    HeadCut(s.queue[q]);
    CutLinked(s.dom, s.waits.waitQ, s.queue, q, s.queue[q][0], s.queue[q][1..]);
    hide QueuesLinked, WaitsOk, HoldsOk, Acyclic;
  }

  lemma HeadCut(q: seq<Thread>)
    requires q != []
    ensures q[0] in q && multiset(q) == multiset(q[1..]) + multiset{q[0]}
  {
    assert q == [q[0]] + q[1..];
  }

  // ---- Parts of critical sections

  /** A thread about to wait for `m` adds the edge to its owner. */
  lemma ParkedKeeps(s: State, t: Thread, m: Mutex)
    requires Inv(s) && t in s.dom.threads && m in s.dom.mutexes && s.waits.waitQ[t] == null
    requires s.holds.owner[m] != null
    requires !Reaches(Edges(s.dom, s.waits, s.holds), s.holds.owner[m], t)
    ensures Inv(Parked(s, t, m.waitQ, m))
  {
    hide Acyclic, Reaches, QueuesOk, HoldsOk, Insert, QueuesWf;
    WaitAtOk(s.dom, s.waits, t, m.waitQ, m);
    ParkedQueues(s, t, m.waitQ, m);
    EdgeAt(s, t, m);
    EdgeKeepsAcyclic(Edges(s.dom, s.waits, s.holds), t, s.holds.owner[m]);
  }

  lemma EdgeAt(s: State, t: Thread, m: Mutex)
    requires Inv(s) && t in s.dom.threads && m in s.dom.mutexes && s.waits.waitQ[t] == null
    requires WaitsWf(s.dom, WaitAt(s.waits, t, m.waitQ, m))
    ensures Edges(s.dom, s.waits, s.holds)[t] == null
    ensures Edges(s.dom, WaitAt(s.waits, t, m.waitQ, m), s.holds)
         == Edges(s.dom, s.waits, s.holds)[t := s.holds.owner[m]]
  {
    hide Acyclic, QueuesOk, HoldsOk, QueuesWf, DomainWf;
    assert s.waits.waiting[t] == null;
  }

  lemma UnparkedKeeps(s: State, t: Thread)
    requires Inv(s) && t in s.dom.threads && s.waits.waitQ[t] != null
    ensures Inv(Unparked(s, t, null))
  {
    WaitAtOk(s.dom, s.waits, t, null, null);
    UnparkedQueues(s, t, null);
    CutKeepsAcyclic(Edges(s.dom, s.waits, s.holds), Edges(s.dom, WaitAt(s.waits, t, null, null), s.holds));
    hide Acyclic, QueuesOk, WaitsOk, HoldsOk;
  }

  lemma PopHeadKeeps(s: State, q: WaitQ)
    requires Inv(s) && q in s.dom.queues && s.queue[q] != []
    ensures Inv(PopHead(s, q, null))
  {
    var t := s.queue[q][0];
    HeadCut(s.queue[q]);
    WaitAtOk(s.dom, s.waits, t, null, null);
    PopHeadQueues(s, q, null);
    CutKeepsAcyclic(Edges(s.dom, s.waits, s.holds), Edges(s.dom, WaitAt(s.waits, t, null, null), s.holds));
    hide Acyclic, QueuesOk, WaitsOk, HoldsOk;
  }

  lemma TakenKeeps(s: State, t: Thread, m: Mutex)
    requires Inv(s) && t in s.dom.threads && m in s.dom.mutexes
    requires s.holds.owner[m] == null && s.waits.waiting[t] == null
    ensures Inv(s.(holds := Taken(s.holds, t, m)))
  {
    TakenHolds(s.dom, s.holds, t, m);
    SinkKeepsAcyclic(Edges(s.dom, s.waits, s.holds), Edges(s.dom, s.waits, Taken(s.holds, t, m)), t);
    hide Acyclic, QueuesOk, WaitsOk, HoldsOk;
  }

  lemma CountKeeps(s: State, m: Mutex, n: nat)
    requires Inv(s) && m in s.dom.mutexes && s.holds.owner[m] != null && 0 < n < UINT32
    ensures Inv(s.(holds := s.holds.(count := s.holds.count[m := n])))
  {
    var h := s.holds.(count := s.holds.count[m := n]);
    CountHolds(s.dom, s.holds, m, n);
    hide Acyclic, QueuesOk, WaitsOk, HoldsOk;
    assert Edges(s.dom, s.waits, h) == Edges(s.dom, s.waits, s.holds);
  }

  lemma FreedKeeps(s: State, t: Thread, m: Mutex)
    requires Inv(s) && t in s.dom.threads && m in s.dom.mutexes && s.holds.owner[m] == t
    ensures Inv(s.(holds := Freed(s.holds, t, m)))
  {
    FreedHolds(s.dom, s.holds, t, m);
    CutKeepsAcyclic(Edges(s.dom, s.waits, s.holds), Edges(s.dom, s.waits, Freed(s.holds, t, m)));
    hide Acyclic, QueuesOk, WaitsOk, HoldsOk;
  }

  lemma ReleasedKeeps(s: State, t: Thread, m: Mutex)
    requires Inv(s) && t in s.dom.threads && m in s.dom.mutexes && s.holds.owner[m] == t
    ensures Inv(Released(s, t, m))
  {
    FreedKeeps(s, t, m);
    if s.queue[m.waitQ] != [] {
      PopHeadKeeps(s.(holds := Freed(s.holds, t, m)), m.waitQ);
    }
    hide Acyclic, QueuesOk, WaitsOk, HoldsOk;
  }

  // ---- Critical sections of the mutex

  lemma HeldCount(s: State, m: Mutex)
    requires Inv(s) && m in s.dom.mutexes
    ensures s.holds.count[m] < UINT32 && (s.holds.owner[m] != null <==> s.holds.count[m] > 0)
  {}

  /** The owner's release succeeds: its count is never found to be zero. */
  lemma OwnerReleases(s: State, t: Thread, m: Mutex)
    requires Inv(s) && t in s.dom.threads && m in s.dom.mutexes
    ensures Unlock(s, t, m).1 == if s.holds.owner[m] == t then OK else EPERM
  {
    hide UpdateChain, Released, QueuesOk, WaitsOk, HoldsOk, Acyclic, WaitsWf, QueuesWf, DomainWf;
    HeldCount(s, m);
  }

  /** An unlock that frees the mutex hands its wake-up to a waiter of the
      highest priority, and leaves the others linked. */
  lemma UnlockWakesHighest(s: State, t: Thread, m: Mutex)
    requires Inv(s) && t in s.dom.threads && m in s.dom.mutexes
    requires s.holds.owner[m] == t && s.holds.count[m] == 1 && s.queue[m.waitQ] != []
    ensures var q, r := s.queue[m.waitQ], Unlock(s, t, m).0; var h := q[0];
            && r.holds.owner[m] == null
            && h in q && h in s.dom.threads && s.waits.waiting[h] == m && r.waits == WaitAt(s.waits, h, null, null)
            && (forall u :: u in q ==> u in s.prio && s.prio[u] <= s.prio[h])
  {
    hide UpdateChain, Released, Acyclic, HoldsOk, QueuesOk;
    HeadHighest(s, m);
    ReleasedShape(s, t, m);
  }

  /** What a release does to the fields that say who waits and who owns. */
  lemma ReleasedShape(s: State, t: Thread, m: Mutex)
    requires Wf(s) && t in s.dom.threads && m in s.dom.mutexes
    ensures m.waitQ in s.queue
    ensures var r := Released(s, t, m);
            && r == s.(waits := r.waits, holds := Freed(s.holds, t, m), queue := r.queue)
            && r.waits == if s.queue[m.waitQ] == [] then s.waits else WaitAt(s.waits, s.queue[m.waitQ][0], null, null)
  {
    hide Without, WaitsWf, HoldsWf;
  }

  /** The head of a mutex queue awaits the mutex, and nobody there is higher. */
  lemma HeadHighest(s: State, m: Mutex)
    requires Inv(s) && m in s.dom.mutexes && s.queue[m.waitQ] != []
    ensures var q := s.queue[m.waitQ]; var h := q[0];
            && h in q && h in s.dom.threads && s.waits.waiting[h] == m
            && (forall u :: u in q ==> u in s.prio && s.prio[u] <= s.prio[h])
  {
    hide Acyclic, HoldsOk;
    HeadCut(s.queue[m.waitQ]);
  }

  lemma ReplacedKeeps(s: State, t: Thread)
    requires Inv(s) && t in s.dom.threads
    ensures Inv(Replaced(s, t))
  {
    hide QueuesLinked, QueuesSorted, WaitsOk, HoldsOk, Acyclic, Moved;
    ReplacedQueues(s, t);
    RearrangedLinked(s.dom, s.waits.waitQ, s.queue, Replaced(s, t).queue);
  }

  lemma ReplacedQueues(s: State, t: Thread)
    requires Inv(s) && t in s.dom.threads
    ensures var r := Replaced(s, t); Rearranged(s.queue, r.queue) && QueuesSorted(r.dom, r.prio, r.queue)
  {
    hide QueuesLinked, WaitsOk, HoldsOk, Acyclic, Moved, Distinct;
    LinkedAt(s, t);
    if s.waits.waitQ[t] != null {
      PlainWaiter(s, t);
    }
  }

  /** A thread linked in a plain queue awaits no mutex. */
  lemma PlainWaiter(s: State, t: Thread)
    requires Inv(s) && t in s.dom.threads && s.waits.waitQ[t] != null
    ensures !IsMutexQ(s.dom, s.waits.waitQ[t]) <==> s.waits.waiting[t] == null
  {}

  // ---- Critical sections of the plain wait queue

  lemma AwaitsNone(s: State, t: Thread)
    requires Inv(s) && t in s.dom.threads && s.waits.waitQ[t] == null
    ensures s.waits.waiting[t] == null
  {
    hide QueuesOk, HoldsOk, Acyclic;
  }

  lemma BlockKeeps(s: State, t: Thread, q: WaitQ)
    requires Inv(s) && t in s.dom.threads && q in s.dom.queues
    requires s.waits.waitQ[t] == null && !IsMutexQ(s.dom, q)
    ensures Inv(Block(s, t, q))
  {
    hide QueuesOk, WaitsOk, HoldsOk, Acyclic, Insert, IsMutexQ, QueuesWf, DomainWf;
    AwaitsNone(s, t);
    WaitAtOk(s.dom, s.waits, t, q, null);
    ParkedQueues(s, t, q, null);
    assert Edges(s.dom, WaitAt(s.waits, t, q, null), s.holds) == Edges(s.dom, s.waits, s.holds);
  }
}
