/** What the callers of the mutex and of the wait queues are told, and what a
    call leaves behind, read off the fields, the queues and the wait-for graph. */
module MutexAnswers {
  import opened Objects
  import opened WaitGraph
  import opened Lists
  import opened ThreadQueue
  import opened MutexSpec
  import opened MutexInvariants
  import opened MutexSteps
  import opened MutexRuns
  import opened InheritanceLaw
  import opened PriorityInheritance

  // ---- Locking

  /** Waiting for `o` closes no cycle, and the chain of owners that starts at
      `o` has at most sixteen threads. */
  ghost predicate MayWaitFor(s: State, t: Thread, o: Thread)
    requires Wf(s) && o in s.dom.threads
  {
    Hop(WaitFor(s), o, 16) == null && !Reaches(WaitFor(s), o, t)
  }

  lemma WalkAnswers(s: State, t: Thread, o: Thread)
    requires Wf(s) && t in s.dom.threads && o in s.dom.threads
    ensures DeadlockWalk(s, t, o, MAX_CHAIN) <==> !MayWaitFor(s, t, o)
  {
    hide DeadlockWalk, Hop, Reaches;
    DeadlockWalkExact(s, t, o, MAX_CHAIN);
  }

  /** What a lock attempt answers: success exactly on a free mutex or one's own,
      and on any other exactly one of the refusals, or a wait. */
  lemma LockAnswers(s: State, t: Thread, m: Mutex, timeout: nat, elapsed: nat)
    requires Inv(s) && t in s.dom.threads && m in s.dom.mutexes
    ensures var (r, a), o := Lock(s, t, m, timeout, elapsed), s.holds.owner[m];
            && (a == Done(OK) <==> o == null || o == t)
            && (o != null && o != t ==>
                 && (a == Done(EBUSY) <==> timeout == 0)
                 && (a == Done(EDEADLK) <==> timeout > 0 && !MayWaitFor(s, t, o))
                 && (a == Done(ETIMEDOUT) <==>
                      timeout > 0 && MayWaitFor(s, t, o) && timeout != 0xffff_ffff && elapsed >= timeout)
                 && (a == Blocked <==>
                      timeout > 0 && MayWaitFor(s, t, o) && (timeout == 0xffff_ffff || elapsed < timeout)))
  {
    hide UpdateChain, DeadlockWalk, Parked, MayWaitFor, Inv, DomainWf, WaitsWf, QueuesWf;
    var o := s.holds.owner[m];
    if o != null {
      WalkAnswers(s, t, o);
    }
  }

  /** A refused attempt changes nothing; one that waits is queued on the mutex,
      and nobody else's waiting or holding changes. */
  lemma LockLeaves(s: State, t: Thread, m: Mutex, timeout: nat, elapsed: nat)
    requires Inv(s) && t in s.dom.threads && m in s.dom.mutexes && s.waits.waitQ[t] == null
    ensures var (r, a) := Lock(s, t, m, timeout, elapsed);
            && (a.Done? && a.code != OK ==> r == s)
            && (a == Blocked ==>
                 && r.waits.waiting == s.waits.waiting[t := m] && r.waits.waitQ == s.waits.waitQ[t := m.waitQ]
                 && r.holds == s.holds && r.base == s.base && t in r.queue[m.waitQ])
  {
    hide UpdateChain, DeadlockWalk, Parked, Inv, QueuesWf;
    if Lock(s, t, m, timeout, elapsed).1 == Blocked {
      Queued(s, t, m);
    }
  }

  lemma Queued(s: State, t: Thread, m: Mutex)
    requires Inv(s) && t in s.dom.threads && m in s.dom.mutexes && s.waits.waitQ[t] == null
    requires s.holds.owner[m] != null && !DeadlockWalk(s, t, s.holds.owner[m], MAX_CHAIN)
    ensures var r := UpdateChain(Parked(s, t, m.waitQ, m), s.holds.owner[m], []);
            r.waits == WaitAt(s.waits, t, m.waitQ, m) && t in r.queue[m.waitQ]
  {
    hide UpdateChain, DeadlockWalk, Parked, WaitsOk, HoldsOk, QueuesOk, Acyclic, QueuesWf, Reaches;
    var o := s.holds.owner[m];
    ParkedFields(s, t, m.waitQ, m);
    DeadlockWalkExact(s, t, o, MAX_CHAIN);
    ParkedKeeps(s, t, m);
    ChainKeepsInv(Parked(s, t, m.waitQ, m), o);
    LinkedAt(UpdateChain(Parked(s, t, m.waitQ, m), o, []), t);
  }

  lemma ParkedFields(s: State, t: Thread, q: WaitQ, m: Mutex?)
    requires Wf(s) && t in s.dom.threads && q in s.dom.queues && (m != null ==> m in s.dom.mutexes)
    ensures Parked(s, t, q, m).waits == WaitAt(s.waits, t, q, m)
    ensures Parked(s, t, q, m).queue == s.queue[q := Insert(s.prio, s.queue[q], t)]
  {
    hide Insert, Wf;
  }

  /** A locker back from its wait tries again exactly if somebody unlinked it;
      otherwise it fails, the code saying whether it was notified, and in
      either case it waits no more. */
  lemma ResumeAnswers(s: State, pc: map<Thread, Pc>, t: Thread, m: Mutex, notified: bool)
    requires Booked(s, pc) && t in pc && pc[t] == BlockedOn(m) && m in s.dom.mutexes
    ensures var (r, a), linked := Resume(s, t, m, notified), t in s.queue[m.waitQ];
            && (a == Retry <==> !linked)
            && (a == Done(EAGAIN) <==> linked && notified)
            && (a == Done(ETIMEDOUT) <==> linked && !notified)
            && r.waits == WaitAt(s.waits, t, null, null) && r.holds == s.holds && r.base == s.base
  {
    hide UpdateChain, Acyclic, HoldsOk, QueuesSorted, NoLostWakeup, Without;
    assert t in s.queue[m.waitQ] <==> s.waits.waitQ[t] == m.waitQ;
    assert s.waits.waitQ[t] != null ==> s.waits.waitQ[t] == m.waitQ;
    assert s.waits.waitQ[t] == null ==> s.waits.waitQ[t := null] == s.waits.waitQ;
  }

  // ---- Priorities

  /** The walk never comes back to a visited thread. */
  lemma {:induction false} VisitedStays(s: State, o: Thread?, visited: seq<Thread>, t: Thread)
    requires Wf(s) && (o != null ==> o in s.dom.threads) && t in visited && t in s.dom.threads
    ensures UpdateChain(s, o, visited).prio[t] == s.prio[t]
    decreases MAX_CHAIN - |visited|
  {
    hide Effective, Moved;
    if o != null && |visited| < MAX_CHAIN && o !in visited && s.waits.waiting[o] != null {
      VisitedStays(Visit(s, o), s.holds.owner[s.waits.waiting[o]], visited + [o], t);
    }
  }

  /** The thread a walk starts at ends up at its effective priority. */
  lemma StartRefreshed(s: State, t: Thread)
    requires Wf(s) && t in s.dom.threads
    ensures UpdateChain(s, t, []).prio[t] == Refreshed(s, t)[t]
  {
    hide UpdateChain, Visit, Refreshed, Wf;
    var o := AfterFirst(s, t);
    VisitRefreshes(s, t);
    VisitedStays(Visit(s, t), o, [t], t);
  }

  lemma AfterFirst(s: State, t: Thread) returns (o: Thread?)
    requires Wf(s) && t in s.dom.threads
    ensures Wf(Visit(s, t)) && t in Visit(s, t).dom.threads && (o != null ==> o in s.dom.threads)
    ensures UpdateChain(s, t, []) == UpdateChain(Visit(s, t), o, [t])
  {
    hide Visit;
    o := if s.waits.waiting[t] == null then null else s.holds.owner[s.waits.waiting[t]];
    assert [] + [t] == [t];
  }

  lemma VisitRefreshes(s: State, t: Thread)
    requires Wf(s) && t in s.dom.threads
    ensures Visit(s, t).prio == Refreshed(s, t)
  {
    hide Moved, Refreshed;
  }

  /** A priority change takes the new base priority over, and nobody's waiting
      or holding changes. The thread then runs at the highest of that priority
      and those of its direct waiters, and with no waiters at just that, or
      where it was if the request is negative. */
  lemma PriorityTaken(w: World, t: Thread, p: int)
    requires WorldInv(w) && Enabled(w, PriorityStep(t, p))
    ensures var r, s := Next(w, PriorityStep(t, p)), w.s;
            && r.s.base == s.base[t := p] && r.s.waits == s.waits && r.s.holds == s.holds
            && r.pc == w.pc && r.log == w.log
            && (p >= 0 ==> IsEffective(WaitFor(s), r.s.base, s.prio, t, r.s.prio[t]))
            && ((forall u :: u in s.dom.threads ==> WaitFor(s)[u] != t) ==>
                  r.s.prio[t] == if p >= 0 then p else s.prio[t])
  {
    hide WorldInv, WorldWf, Enabled, Next, SetPriority, Effective, WaitFor, HoldsWf, WaitsWf, QueuesWf, DomainWf;
    PriorityNext(w, t, p);
    SetPriorityFields(w.s, t, p);
    RebasedEffective(w.s, t, p);
  }

  lemma PriorityNext(w: World, t: Thread, p: int)
    requires WorldInv(w) && Enabled(w, PriorityStep(t, p))
    ensures Inv(w.s) && t in w.s.dom.threads
    ensures Next(w, PriorityStep(t, p)) == w.(s := SetPriority(w.s, t, p))
  {
    hide Booked, Balanced, SetPriority, Wf;
    WorldState(w);
  }

  lemma SetPriorityFields(s: State, t: Thread, p: int)
    requires Wf(s) && t in s.dom.threads
    ensures var s1, r := s.(base := s.base[t := p]), SetPriority(s, t, p);
            && r.base == s1.base && r.waits == s.waits && r.holds == s.holds
            && r.prio[t] == Refreshed(s1, t)[t]
  {
    hide UpdateChain, Moved, Refreshed;
    StartRefreshed(s.(base := s.base[t := p]), t);
  }

  lemma RebasedEffective(s: State, t: Thread, p: int)
    requires Inv(s) && t in s.dom.threads
    ensures var s1 := s.(base := s.base[t := p]);
            && Inv(s1) && WaitFor(s1) == WaitFor(s) && Effective(s1, t) >= p
            && IsEffective(WaitFor(s), s1.base, s.prio, t, Effective(s1, t))
  {
    var s1 := s.(base := s.base[t := p]);
    assert Inv(s1) by { hide QueuesOk, WaitsOk, HoldsOk, Acyclic; }
    hide Inv, Effective;
    ScanIsEffective(s1, t);
  }

  /** On a plain queue the changed thread moves to where its new priority puts
      it: the queue is sorted again if the rest of it was. */
  lemma PlainResorted(w: World, t: Thread, p: int)
    requires WorldInv(w) && Enabled(w, PriorityStep(t, p))
    requires w.s.waits.waitQ[t] != null && w.s.waits.waiting[t] == null
    requires var rest := Without(w.s.queue[w.s.waits.waitQ[t]], t); Known(w.s.prio, rest) && Sorted(w.s.prio, rest)
    ensures var r, s, q := Next(w, PriorityStep(t, p)).s, w.s, w.s.waits.waitQ[t];
            && q in r.queue && r.queue == s.queue[q := r.queue[q]] && multiset(r.queue[q]) == multiset(s.queue[q])
            && Known(r.prio, r.queue[q]) && Sorted(r.prio, r.queue[q])
  {
    hide WorldInv, WorldWf, Enabled, Next, SetPriority, Sorted, Inv, Moved, Without, HoldsWf, QueuesWf, DomainWf;
    PriorityNext(w, t, p);
    LinkedAt(w.s, t);
    PlainMoved(w.s, t, p);
    MovedSorted(w.s.prio, SetPriority(w.s, t, p).prio, w.s.queue[w.s.waits.waitQ[t]], t);
  }

  /** A thread that awaits no mutex is the whole of its walk. */
  lemma PlainMoved(s: State, t: Thread, p: int)
    requires Wf(s) && t in s.dom.threads && s.waits.waitQ[t] != null && s.waits.waiting[t] == null
    ensures var r, q := SetPriority(s, t, p), s.waits.waitQ[t];
            && r.prio.Keys == s.prio.Keys && (forall x :: x in s.prio && x != t ==> r.prio[x] == s.prio[x])
            && q in s.queue && Known(r.prio, s.queue[q]) && r.queue == s.queue[q := Moved(r.prio, s.queue[q], t)]
  {
    hide Moved, Effective;
  }

  lemma MovedSorted(prio: Priorities, prio': Priorities, q: seq<Thread>, t: Thread)
    requires Distinct(q) && Known(prio', q) && t in prio' && Known(prio, Without(q, t)) && Sorted(prio, Without(q, t))
    requires forall x :: x in prio && x != t ==> x in prio' && prio'[x] == prio[x]
    ensures Sorted(prio', Moved(prio', q, t))
  {
    hide Without, Insert;
    WithoutKeeps(q, t);
    var rest := Without(q, t);
    assert forall i :: 0 <= i < |rest| ==> rest[i] in rest;
    InsertSorted(prio', rest, t);
  }

  // ---- Plain waiting

  /** A thread that enters a plain wait is linked behind everyone of at least
      its priority and ahead of everyone below it. */
  lemma BlockLinks(s: State, t: Thread, q: WaitQ)
    requires Inv(s) && t in s.dom.threads && q in s.dom.queues && Known(s.prio, s.queue[q])
    requires Sorted(s.prio, s.queue[q])
    ensures var r, before := Block(s, t, q), s.queue[q];
            && r.waits == s.waits.(waitQ := s.waits.waitQ[t := q])
            && r.holds == s.holds && r.base == s.base && r.prio == s.prio
            && Known(r.prio, r.queue[q]) && Sorted(r.prio, r.queue[q])
            && exists k :: 0 <= k <= |before| && r.queue == s.queue[q := before[..k] + [t] + before[k..]]
                       && (forall i :: 0 <= i < k ==> s.prio[before[i]] >= s.prio[t])
                       && (forall i :: k <= i < |before| ==> s.prio[before[i]] < s.prio[t])
  {
    hide Inv, Sorted, Insert, Parked;
    ParkedFields(s, t, q, s.waits.waiting[t]);
    InsertSorted(s.prio, s.queue[q], t);
    assert s.waits.waiting == s.waits.waiting[t := s.waits.waiting[t]];
  }

  /** A thread that leaves a plain wait is in no queue, and the others keep
      their order. */
  lemma UnblockUnlinks(s: State, t: Thread)
    requires Inv(s) && t in s.dom.threads
    ensures var r := Unblock(s, t);
            && r.waits == s.waits.(waitQ := s.waits.waitQ[t := null])
            && r.holds == s.holds && r.base == s.base && r.prio == s.prio
            && (forall q :: q in s.dom.queues ==> r.queue[q] == Without(s.queue[q], t) && t !in r.queue[q])
  {
    hide WaitsOk, HoldsOk, Acyclic, QueuesSorted, Without;
    assert s.waits.waiting == s.waits.waiting[t := s.waits.waiting[t]];
    forall q | q in s.dom.queues
      ensures t in s.queue[q] <==> s.waits.waitQ[t] == q
      ensures t !in s.queue[q] ==> Without(s.queue[q], t) == s.queue[q]
      ensures t !in Without(s.queue[q], t)
    {
      WithoutKeeps(s.queue[q], t);
    }
  }

  /** Waking one unlinks the head, which in a sorted queue is a thread of the
      highest priority, and nobody else. */
  lemma WakeOneHighest(s: State, q: WaitQ)
    requires Inv(s) && q in s.dom.queues && s.queue[q] != []
    ensures var r, h := WakeOne(s, q), s.queue[q][0];
            && r.waits == s.waits.(waitQ := s.waits.waitQ[h := null]) && r.queue == s.queue[q := s.queue[q][1..]]
            && r.holds == s.holds && r.base == s.base && r.prio == s.prio
            && Known(s.prio, s.queue[q])
            && (Sorted(s.prio, s.queue[q]) ==> forall u :: u in s.queue[q] ==> s.prio[u] <= s.prio[h])
  {
    hide WaitsOk, HoldsOk, Acyclic, QueuesOk;
    HeadCut(s.queue[q]);
    var h := s.queue[q][0];
    assert s.waits.waiting == s.waits.waiting[h := s.waits.waiting[h]];
  }

  /** Waking all empties the queue and unlinks exactly those who were in it. */
  lemma {:induction false} WakeAllEmpties(s: State, q: WaitQ)
    requires Wf(s) && q in s.dom.queues
    ensures var r := WakeAll(s, q);
            && r == s.(waits := r.waits, queue := s.queue[q := []]) && r.waits.waiting == s.waits.waiting
            && r.waits.waitQ.Keys == s.waits.waitQ.Keys
            && (forall t :: t in s.dom.threads ==>
                  r.waits.waitQ[t] == if t in s.queue[q] then null else s.waits.waitQ[t])
    decreases |s.queue[q]|
  {
    hide Wf, WakeOne;
    WakeAllNext(s, q);
    if s.queue[q] != [] {
      WakeOneFields(s, q);
      WakeAllEmpties(WakeOne(s, q), q);
    } else {
      assert s.queue == s.queue[q := []];
    }
  }

  lemma WakeAllNext(s: State, q: WaitQ)
    requires Wf(s) && q in s.dom.queues
    ensures q in s.queue && s.waits.waitQ.Keys == s.dom.threads
    ensures WakeAll(s, q) == if s.queue[q] == [] then s else WakeAll(WakeOne(s, q), q)
  {
    hide WakeOne, HoldsWf, DomainWf;
  }

  lemma WakeOneFields(s: State, q: WaitQ)
    requires Wf(s) && q in s.dom.queues && s.queue[q] != []
    ensures var r, h := WakeOne(s, q), s.queue[q][0];
            && r == s.(waits := r.waits, queue := s.queue[q := s.queue[q][1..]])
            && r.waits == s.waits.(waitQ := s.waits.waitQ[h := null])
            && h in s.dom.threads && forall t :: t in s.queue[q] <==> t == h || t in s.queue[q][1..]
  {
    hide HoldsWf;
    HeadCut(s.queue[q]);
    var h := s.queue[q][0];
    assert s.queue[q] == [h] + s.queue[q][1..];
    assert s.waits.waiting == s.waits.waiting[h := s.waits.waiting[h]];
  }
}
