/** The critical sections of the FreeRTOS backend on the objects themselves,
    each proved to take the state where the specification takes it. */
module MutexBackend {
  import opened MachineInts
  import opened Objects
  import opened Lists
  import opened ThreadQueue
  import opened MutexSpec

  class Kernel {
    ghost const threads: set<Thread>
    ghost const mutexes: set<Mutex>
    ghost const queues: set<WaitQ>

    constructor (ghost threads: set<Thread>, ghost mutexes: set<Mutex>, ghost queues: set<WaitQ>)
      ensures this.threads == threads && this.mutexes == mutexes && this.queues == queues
    {
      this.threads, this.mutexes, this.queues := threads, mutexes, queues;
    }

    /** The fields of all objects, as one value. */
    ghost function View(): State
      reads threads, mutexes, queues
    {
      State(Domain(threads, mutexes, queues),
            Waits(map t | t in threads :: t.waitQ, map t | t in threads :: t.waitingMutex),
            Holds(map t | t in threads :: t.ownedMutexes,
                  map m | m in mutexes :: m.owner, map m | m in mutexes :: m.lockCount),
            map t | t in threads :: t.basePriority, map t | t in threads :: t.priority,
            map q | q in queues :: q.waitq)
    }

    /** Every field has the value `s` gives it. */
    ghost predicate Shows(s: State)
      reads threads, mutexes, queues
      ensures Shows(s) ==> Wf(s) && s.dom == Domain(threads, mutexes, queues)
    {
      && Wf(s) && s.dom == Domain(threads, mutexes, queues)
      && ShowsWaits(s.waits) && ShowsHolds(s.holds) && ShowsPriorities(s.base, s.prio) && ShowsQueues(s.queue)
    }

    ghost predicate ShowsWaits(w: Waits)
      reads threads`waitQ, threads`waitingMutex
    {
      ShowsLinks(w.waitQ) && ShowsAwaited(w.waiting)
    }

    ghost predicate ShowsLinks(waitQ: map<Thread, WaitQ?>)
      reads threads`waitQ
    {
      && threads <= waitQ.Keys
      && (forall t {:trigger waitQ[t]} {:trigger t.waitQ} :: t in threads ==> t.waitQ == waitQ[t])
    }

    ghost predicate ShowsAwaited(waiting: map<Thread, Mutex?>)
      reads threads`waitingMutex
    {
      && threads <= waiting.Keys
      && (forall t {:trigger waiting[t]} {:trigger t.waitingMutex} ::
           t in threads ==> t.waitingMutex == waiting[t])
    }

    ghost predicate ShowsHolds(h: Holds)
      reads threads`ownedMutexes, mutexes
    {
      ShowsOwned(h.owned) && ShowsOwners(h.owner, h.count)
    }

    ghost predicate ShowsOwned(owned: map<Thread, seq<Mutex>>)
      reads threads`ownedMutexes
    {
      && threads <= owned.Keys
      && (forall t {:trigger owned[t]} {:trigger t.ownedMutexes} :: t in threads ==> t.ownedMutexes == owned[t])
    }

    ghost predicate ShowsOwners(owner: map<Mutex, Thread?>, count: map<Mutex, nat>)
      reads mutexes
    {
      && mutexes <= owner.Keys && mutexes <= count.Keys
      && (forall m {:trigger owner[m]} {:trigger m.owner} :: m in mutexes ==> m.owner == owner[m])
      && (forall m {:trigger count[m]} {:trigger m.lockCount} :: m in mutexes ==> m.lockCount == count[m])
    }

    ghost predicate ShowsPriorities(base: Priorities, prio: Priorities)
      reads threads`basePriority, threads`priority
    {
      && threads <= base.Keys && threads <= prio.Keys
      && (forall t {:trigger base[t]} {:trigger t.basePriority} :: t in threads ==> t.basePriority == base[t])
      && (forall t {:trigger prio[t]} {:trigger t.priority} :: t in threads ==> t.priority == prio[t])
    }

    ghost predicate ShowsQueues(queue: map<WaitQ, seq<Thread>>)
      reads queues
    {
      && queues <= queue.Keys
      && (forall q {:trigger queue[q]} {:trigger q.waitq} :: q in queues ==> q.waitq == queue[q])
    }

    lemma ViewIs(s: State)
      requires Shows(s)
      ensures View() == s
    {
      ViewWaitsHolds(s);
      hide DomainWf, ShowsWaits, ShowsHolds;
    }

    lemma ViewWaitsHolds(s: State)
      requires Shows(s)
      ensures View().waits == s.waits && View().holds == s.holds
    {
      hide DomainWf, QueuesWf, ShowsPriorities, ShowsQueues;
    }

    lemma ViewShows()
      requires Wf(View())
      ensures Shows(View())
    {
      hide WaitsWf, HoldsWf, QueuesWf, DomainWf;
    }

    /** What the fields of one thread and of one mutex say. */
    lemma ThreadFields(s: State, t: Thread)
      requires Shows(s) && t in threads
      ensures t.waitQ == s.waits.waitQ[t] && t.waitingMutex == s.waits.waiting[t]
      ensures t.waitQ != null ==> t.waitQ in queues && t.waitQ.waitq == s.queue[t.waitQ]
      ensures t.waitingMutex != null ==> t.waitingMutex in mutexes
      ensures t.waitingMutex != null ==> t.waitingMutex.owner == s.holds.owner[t.waitingMutex]
      ensures t.waitingMutex != null && t.waitingMutex.owner != null ==> t.waitingMutex.owner in threads
    {}

    lemma MutexFields(s: State, m: Mutex)
      requires Shows(s) && m in mutexes
      ensures m.owner == s.holds.owner[m] && m.lockCount == s.holds.count[m]
      ensures m.waitQ in queues && m.waitQ.waitq == s.queue[m.waitQ]
      ensures m.owner != null ==> m.owner in threads
    {}

    // ---- Wait queues

    /** Links `thread` behind everyone of at least its priority. */
    method InsertPriority(q: WaitQ, thread: Thread, ghost s: State)
      requires Wf(s) && q in queues && thread in threads && s.dom == Domain(threads, mutexes, queues)
      requires ShowsPriorities(s.base, s.prio) && q.waitq == s.queue[q]
      modifies q
      ensures q.waitq == Insert(s.prio, old(q.waitq), thread)
    {
      var priority, i := thread.priority, 0;
      while i < |q.waitq| && !(priority > q.waitq[i].priority)
        invariant i <= |q.waitq| && q.waitq == old(q.waitq)
        invariant forall j :: 0 <= j < i ==> q.waitq[j] in threads && q.waitq[j].priority >= priority
      {
        assert q.waitq[i] in s.queue[q];
        i := i + 1;
      }
      assert i < |q.waitq| ==> q.waitq[i] in s.queue[q];
      assert i == Slot(s.prio, q.waitq, priority);
      q.waitq := q.waitq[..i] + [thread] + q.waitq[i..];
    }

    /** Unlinks `thread` from `q`. */
    method Remove(q: WaitQ, thread: Thread)
      modifies q
      ensures q.waitq == Without(old(q.waitq), thread)
    {
      var k := Find(q.waitq, thread);
      if k < |q.waitq| {
        q.waitq := q.waitq[..k] + q.waitq[k + 1..];
      }
    }

    // ---- Priority inheritance

    method ComputePriority(thread: Thread, ghost s: State) returns (effective: int)
      requires Shows(s) && thread in threads
      ensures effective == Effective(s, thread)
    {
      hide Scanned, Seen, Waiters, Highest;
      ghost var ms := thread.ownedMutexes;
      ScanStart(s, thread);
      effective := thread.basePriority;
      var i := 0;
      while i < |thread.ownedMutexes|
        invariant i <= |ms| && Scanned(s, ms, i, 0, s.base[thread], effective)
      {
        var owned := thread.ownedMutexes[i];
        assert owned in s.holds.owned[thread];
        var j := 0;
        while j < |owned.waitQ.waitq|
          invariant j <= |owned.waitQ.waitq| && Scanned(s, ms, i, j, s.base[thread], effective)
        {
          var waiter := owned.waitQ.waitq[j];
          assert waiter in s.queue[owned.waitQ];
          ScanNext(s, ms, i, j, s.base[thread], effective);
          if waiter.priority > effective {
            effective := waiter.priority;
          }
          j := j + 1;
        }
        ScanRow(s, ms, i, s.base[thread], effective);
        i := i + 1;
      }
      ScanEnd(s, thread, effective);
    }

    /** Moves `thread` to where its priority puts it in `q`. */
    method Reposition(q: WaitQ, thread: Thread, ghost s: State)
      requires Shows(s) && q in queues && thread in threads
      modifies q
      ensures Shows(s.(queue := s.queue[q := Moved(s.prio, s.queue[q], thread)]))
    {
      hide WaitsWf, HoldsWf, DomainWf, QueuesWf, ShowsWaits, ShowsHolds, Insert, Without;
      ghost var s1 := s.(queue := s.queue[q := Without(s.queue[q], thread)]);
      MovedWf(s, q, thread);
      Remove(q, thread);
      InsertPriority(q, thread, s1);
    }

    method RefreshPriority(thread: Thread, ghost s: State)
      requires Shows(s) && thread in threads
      modifies thread`priority
      ensures Shows(s.(prio := Refreshed(s, thread)))
    {
      hide Effective, WaitsWf, HoldsWf, QueuesWf, DomainWf, ShowsWaits, ShowsHolds, ShowsQueues;
      var effective := ComputePriority(thread, s);
      if effective >= 0 && thread.priority != effective {
        thread.priority := effective;
      }
    }

    method VisitThread(thread: Thread, ghost s: State)
      requires Shows(s) && thread in threads
      modifies thread`priority, queues
      ensures Shows(Visit(s, thread))
    {
      hide Refreshed, Moved, HoldsWf, QueuesWf, ShowsHolds, ShowsPriorities, ShowsQueues;
      RefreshPriority(thread, s);
      var upstream := thread.waitingMutex;
      if upstream != null {
        Reposition(upstream.waitQ, thread, s.(prio := Refreshed(s, thread)));
      }
    }

    method UpdatePiChain(start: Thread?, ghost s: State)
      requires Shows(s) && (start != null ==> start in threads)
      modifies threads`priority, queues
      ensures Shows(UpdateChain(s, start, []))
    {
      hide Visit, Shows, WaitsWf, HoldsWf, QueuesWf, DomainWf;
      var thread: Thread?, visited: seq<Thread> := start, [];
      ghost var s1 := s;
      while thread != null && |visited| < MAX_CHAIN
        invariant Shows(s1) && (thread != null ==> thread in threads)
        invariant UpdateChain(s1, thread, visited) == UpdateChain(s, start, [])
        decreases MAX_CHAIN - |visited|
      {
        for i := 0 to |visited|
          invariant thread !in visited[..i]
        {
          if visited[i] == thread {
            return;
          }
        }
        VisitThread(thread, s1);
        s1 := Visit(s1, thread);
        ThreadFields(s1, thread);
        if thread.waitingMutex == null {
          return;
        }
        visited, thread := visited + [thread], thread.waitingMutex.owner;
      }
    }

    method WouldDeadlock(thread: Thread, mutex: Mutex) returns (r: bool)
      requires Wf(View()) && thread in threads && mutex in mutexes
      ensures r == DeadlockWalk(View(), thread, mutex.owner, MAX_CHAIN)
    {
      var owner, depth := mutex.owner, 0;
      while owner != null && depth < MAX_CHAIN
        invariant depth <= MAX_CHAIN && (owner != null ==> owner in threads)
        invariant DeadlockWalk(View(), thread, mutex.owner, MAX_CHAIN)
               == DeadlockWalk(View(), thread, owner, MAX_CHAIN - depth)
      {
        if owner == thread {
          return true;
        }
        if owner.waitingMutex == null {
          return false;
        }
        owner, depth := owner.waitingMutex.owner, depth + 1;
      }
      return owner != null;
    }

    // ---- Mutex

    method SetCount(mutex: Mutex, n: nat, ghost s: State)
      requires Shows(s) && mutex in mutexes
      modifies mutex`lockCount
      ensures Shows(s.(holds := s.holds.(count := s.holds.count[mutex := n])))
    {
      hide WaitsWf, QueuesWf, DomainWf, ShowsWaits, ShowsQueues, ShowsPriorities;
      mutex.lockCount := n;
    }

    /** Writes the owner and the count of `mutex`. */
    method SetOwner(mutex: Mutex, t: Thread?, n: nat, ghost s: State)
      requires Shows(s) && mutex in mutexes && (t != null ==> t in threads)
      modifies mutex
      ensures Shows(s.(holds := s.holds.(owner := s.holds.owner[mutex := t], count := s.holds.count[mutex := n])))
    {
      hide WaitsWf, QueuesWf, DomainWf, ShowsWaits, ShowsQueues, ShowsPriorities, ShowsOwned;
      mutex.owner, mutex.lockCount := t, n;
    }

    /** Writes the list of mutexes `thread` owns. */
    method SetOwned(thread: Thread, ms: seq<Mutex>, ghost s: State)
      requires Shows(s) && thread in threads && (forall m :: m in ms ==> m in mutexes)
      modifies thread`ownedMutexes
      ensures Shows(s.(holds := s.holds.(owned := s.holds.owned[thread := ms])))
    {
      hide WaitsWf, QueuesWf, DomainWf, ShowsWaits, ShowsQueues, ShowsPriorities, ShowsOwners;
      thread.ownedMutexes := ms;
    }

    method Take(curr: Thread, mutex: Mutex, ghost s: State)
      requires Shows(s) && curr in threads && mutex in mutexes
      modifies curr`ownedMutexes, mutex
      ensures Shows(s.(holds := Taken(s.holds, curr, mutex)))
    {
      hide WaitsWf, QueuesWf, DomainWf, ShowsWaits, ShowsQueues, ShowsPriorities, ShowsOwners;
      var ms := curr.ownedMutexes + [mutex];
      assert forall x :: x in curr.ownedMutexes ==> x in s.holds.owned[curr];
      SetOwner(mutex, curr, 1, s);
      SetOwned(curr, ms,
               s.(holds := s.holds.(owner := s.holds.owner[mutex := curr], count := s.holds.count[mutex := 1])));
      assert Taken(s.holds, curr, mutex)
          == Holds(s.holds.owned[curr := ms], s.holds.owner[mutex := curr], s.holds.count[mutex := 1]);
    }

    /** Publishes where `curr` waits and links it there. */
    method Park(curr: Thread, mutex: Mutex, ghost s: State)
      requires Shows(s) && curr in threads && mutex in mutexes
      modifies curr`waitQ, curr`waitingMutex, mutex.waitQ
      ensures Shows(Parked(s, curr, mutex.waitQ, mutex))
    {
      hide Insert, HoldsWf, ShowsHolds, ShowsWaits, WaitsWf, QueuesWf;
      SetWaits(curr, mutex.waitQ, mutex, s);
      InsertPriority(mutex.waitQ, curr, s);
    }

    /** Writes where `thread` is linked and which mutex it awaits. */
    method SetWaits(thread: Thread, q: WaitQ?, m: Mutex?, ghost s: State)
      requires Shows(s) && thread in threads && (q != null ==> q in queues) && (m != null ==> m in mutexes)
      modifies thread`waitQ, thread`waitingMutex
      ensures Shows(s.(waits := WaitAt(s.waits, thread, q, m)))
    {
      hide Wf, ShowsHolds, ShowsQueues, ShowsPriorities, ShowsLinks;
      SetLink(thread, q, s);
      SetAwaited(thread, m, s.(waits := s.waits.(waitQ := s.waits.waitQ[thread := q])));
    }

    method SetLink(thread: Thread, q: WaitQ?, ghost s: State)
      requires Shows(s) && thread in threads && (q != null ==> q in queues)
      modifies thread`waitQ
      ensures Shows(s.(waits := s.waits.(waitQ := s.waits.waitQ[thread := q])))
    {
      hide HoldsWf, QueuesWf, DomainWf, ShowsHolds, ShowsQueues, ShowsPriorities, ShowsAwaited;
      thread.waitQ := q;
    }

    method SetAwaited(thread: Thread, m: Mutex?, ghost s: State)
      requires Shows(s) && thread in threads && (m != null ==> m in mutexes)
      modifies thread`waitingMutex
      ensures Shows(s.(waits := s.waits.(waiting := s.waits.waiting[thread := m])))
    {
      hide HoldsWf, QueuesWf, DomainWf, ShowsHolds, ShowsQueues, ShowsPriorities, ShowsLinks;
      thread.waitingMutex := m;
    }

    /** Unlinks `thread` from its queue and leaves it awaiting `m`. */
    method Unpark(thread: Thread, m: Mutex?, ghost s: State)
      requires Shows(s) && thread in threads && thread.waitQ != null && (m != null ==> m in mutexes)
      modifies thread`waitQ, thread`waitingMutex, thread.waitQ
      ensures Shows(Unparked(s, thread, m))
    {
      hide Without, WaitsWf, HoldsWf, ShowsHolds, ShowsWaits, ShowsPriorities, QueuesWf, DomainWf;
      ThreadFields(s, thread);
      var q := thread.waitQ;
      SetWaits(thread, null, m, s);
      Remove(q, thread);
    }

    /** The first critical section of a lock call, at tick `now` of a call that
        began at tick `start`. A call that is to block waits for what is left
        of its timeout. */
    method LockAttempt(curr: Thread, mutex: Mutex, timeout: nat, start: nat, now: nat)
      returns (r: Outcome, remaining: nat)
      requires Wf(View()) && curr in threads && mutex in mutexes
      modifies threads, mutexes, queues
      ensures (View(), r) == Lock(old(View()), curr, mutex, timeout, (now - start) % UINT32)
      ensures r == Blocked && timeout == WAIT_FOREVER ==> remaining == WAIT_FOREVER
      ensures r == Blocked && timeout != WAIT_FOREVER ==>
                0 < remaining && remaining + (now - start) % UINT32 == timeout
    {
      hide UpdateChain, DeadlockWalk, Parked, Taken, Shows, View, WaitsWf, HoldsWf, QueuesWf, DomainWf;
      ghost var s := View();
      ViewShows();
      MutexFields(s, mutex);
      var deadlock := WouldDeadlock(curr, mutex);
      var elapsed := (now - start) % UINT32;
      remaining := WAIT_FOREVER;
      if mutex.owner == null {
        Take(curr, mutex, s);
        r := Done(OK);
      } else if mutex.owner == curr {
        SetCount(mutex, (mutex.lockCount + 1) % UINT32, s);
        r := Done(OK);
      } else if timeout == 0 {
        r := Done(EBUSY);
      } else if deadlock {
        r := Done(EDEADLK);
      } else if timeout != WAIT_FOREVER && elapsed >= timeout {
        r := Done(ETIMEDOUT);
      } else {
        Park(curr, mutex, s);
        UpdatePiChain(mutex.owner, Parked(s, curr, mutex.waitQ, mutex));
        if timeout != WAIT_FOREVER {
          remaining := timeout - elapsed;
        }
        r := Blocked;
      }
      ViewIs(Lock(s, curr, mutex, timeout, elapsed).0);
    }

    /** The critical section after the notification wait. */
    method LockResume(curr: Thread, mutex: Mutex, notified: bool) returns (r: Outcome)
      requires Wf(View()) && curr in threads && mutex in mutexes
      modifies threads, queues
      ensures (View(), r) == Resume(old(View()), curr, mutex, notified)
    {
      hide UpdateChain, Unparked, View, Shows, WaitsWf, HoldsWf, QueuesWf, DomainWf;
      ghost var s := View();
      ViewShows();
      MutexFields(s, mutex);
      ThreadFields(s, curr);
      if curr.waitQ != null {
        var owner := mutex.owner;
        Unpark(curr, null, s);
        UpdatePiChain(owner, Unparked(s, curr, null));
        r := Done(if notified then EAGAIN else ETIMEDOUT);
      } else {
        SetAwaited(curr, null, s);
        r := Retry;
      }
      ViewIs(Resume(s, curr, mutex, notified).0);
    }

    method MutexUnlock(curr: Thread, mutex: Mutex) returns (r: Code)
      requires Wf(View()) && curr in threads && mutex in mutexes
      modifies threads, mutexes, queues
      ensures (View(), r) == Unlock(old(View()), curr, mutex)
    {
      hide UpdateChain, Released, Shows, View, WaitsWf, HoldsWf, QueuesWf, DomainWf;
      ghost var s := View();
      ViewShows();
      MutexFields(s, mutex);
      if mutex.owner != curr {
        r := EPERM;
      } else if mutex.lockCount == 0 {
        r := EINVAL;
      } else if mutex.lockCount - 1 > 0 {
        SetCount(mutex, mutex.lockCount - 1, s);
        r := OK;
      } else {
        Release(curr, mutex, s);
        UpdatePiChain(curr, Released(s, curr, mutex));
        r := OK;
      }
      ViewIs(Unlock(s, curr, mutex).0);
    }

    /** Gives `mutex` up and unlinks its first waiter. */
    method Release(curr: Thread, mutex: Mutex, ghost s: State)
      requires Shows(s) && curr in threads && mutex in mutexes && mutex.owner == curr
      modifies threads`ownedMutexes, threads`waitQ, threads`waitingMutex, mutex, mutex.waitQ
      ensures Shows(Released(s, curr, mutex))
    {
      hide ShowsWaits, ShowsPriorities, WaitsWf, QueuesWf, PopHead, Freed, ShowsHolds;
      Free(curr, mutex, s);
      if mutex.waitQ.waitq != [] {
        TakeHead(mutex.waitQ, null, s.(holds := Freed(s.holds, curr, mutex)));
      }
    }

    method Free(curr: Thread, mutex: Mutex, ghost s: State)
      requires Shows(s) && curr in threads && mutex in mutexes
      modifies curr`ownedMutexes, mutex
      ensures Shows(s.(holds := Freed(s.holds, curr, mutex)))
    {
      hide WaitsWf, QueuesWf, DomainWf, ShowsWaits, ShowsQueues, ShowsPriorities, ShowsOwners;
      var ms, k := curr.ownedMutexes, Find(curr.ownedMutexes, mutex);
      assert forall x :: x in ms ==> x in s.holds.owned[curr];
      if k < |ms| {
        ms := ms[..k] + ms[k + 1..];
      }
      assert forall x :: x in ms ==> x in s.holds.owned[curr];
      SetOwned(curr, ms, s);
      SetOwner(mutex, null, 0, s.(holds := s.holds.(owned := s.holds.owned[curr := ms])));
    }

    /** Unlinks the first thread of `q` and leaves it awaiting `m`. */
    method TakeHead(q: WaitQ, m: Mutex?, ghost s: State)
      requires Shows(s) && q in queues && q.waitq != [] && (m != null ==> m in mutexes)
      modifies threads`waitQ, threads`waitingMutex, q
      ensures Shows(PopHead(s, q, m))
    {
      hide WaitsWf, HoldsWf, ShowsHolds, ShowsWaits, ShowsPriorities;
      var thread := q.waitq[0];
      assert thread in s.queue[q];
      SetWaits(thread, null, m, s);
      q.waitq := q.waitq[1..];
    }

    /** Changes the base priority, repairs the chain, and keeps the place of a
        plain waiter in its queue up to date. */
    method SetThreadPriority(thread: Thread, priority: int)
      requires Wf(View()) && thread in threads
      modifies threads, queues
      ensures View() == SetPriority(old(View()), thread, priority)
    {
      hide UpdateChain, Moved, View, ShowsHolds, ShowsQueues, HoldsWf, QueuesWf;
      ghost var s := View();
      ViewShows();
      thread.basePriority := priority;
      ghost var s1 := s.(base := s.base[thread := priority]);
      UpdatePiChain(thread, s1);
      if thread.waitQ != null && thread.waitingMutex == null {
        Reposition(thread.waitQ, thread, UpdateChain(s1, thread, []));
      }
      ViewIs(SetPriority(s, thread, priority));
    }

    // ---- Plain wait queues

    method WaitqBlock(thread: Thread, q: WaitQ)
      requires Wf(View()) && thread in threads && q in queues
      modifies thread`waitQ, q
      ensures View() == Block(old(View()), thread, q)
    {
      hide Insert, View, ShowsHolds, ShowsWaits, HoldsWf, QueuesWf, DomainWf, WaitsWf;
      ghost var s := View();
      ViewShows();
      SetLink(thread, q, s);
      StillAwaiting(s, thread, q);
      InsertPriority(q, thread, s);
      ViewIs(Block(s, thread, q));
    }

    /** The critical section after the native wait, which delivered
        notification `notify` if `notified`. */
    method WaitqUnblock(thread: Thread, notified: bool, notify: nat) returns (r: WaitResult)
      requires Wf(View()) && thread in threads
      modifies thread`waitQ, thread`waitingMutex, queues
      ensures View() == Unblock(old(View()), thread)
      ensures r == TimedOut <==> old(thread.waitQ) != null || !notified
      ensures r.WokenFor? ==> r.reason == notify
    {
      hide Unparked, View, ShowsHolds, HoldsWf, QueuesWf, ShowsPriorities, ShowsQueues;
      ghost var s := View();
      ViewShows();
      if thread.waitQ != null {
        Unpark(thread, thread.waitingMutex, s);
        r := TimedOut;
      } else {
        r := if notified then WokenFor(notify) else TimedOut;
      }
      ViewIs(Unblock(s, thread));
    }

    method WaitqWakeOne(q: WaitQ)
      requires Wf(View()) && q in queues
      modifies threads`waitQ, threads`waitingMutex, q
      ensures View() == WakeOne(old(View()), q)
    {
      hide PopHead, View, ShowsHolds, HoldsWf, ShowsPriorities;
      ghost var s := View();
      ViewShows();
      if q.waitq != [] {
        assert q.waitq[0] in s.queue[q];
        TakeHead(q, q.waitq[0].waitingMutex, s);
      }
      ViewIs(WakeOne(s, q));
    }

    method WaitqWakeAll(q: WaitQ)
      requires Wf(View()) && q in queues
      modifies threads`waitQ, threads`waitingMutex, q
      ensures View() == WakeAll(old(View()), q)
    {
      hide WakeOne;
      while q.waitq != []
        invariant Wf(View()) && WakeAll(View(), q) == WakeAll(old(View()), q)
        decreases |q.waitq|
      {
        ghost var s := View();
        Shrinks(s, q);
        WaitqWakeOne(q);
        assert q.waitq == View().queue[q];
      }
    }
  }

  lemma MovedWf(s: State, q: WaitQ, t: Thread)
    requires Wf(s) && q in s.dom.queues && t in s.dom.threads
    ensures Wf(s.(queue := s.queue[q := Without(s.queue[q], t)]))
    ensures Wf(s.(queue := s.queue[q := Moved(s.prio, s.queue[q], t)]))
  {
    assert forall x :: x in Without(s.queue[q], t) ==> x in s.queue[q];
  }

  lemma StillAwaiting(s: State, t: Thread, q: WaitQ)
    requires Wf(s) && t in s.dom.threads
    ensures t in s.waits.waiting
    ensures WaitAt(s.waits, t, q, s.waits.waiting[t]) == s.waits.(waitQ := s.waits.waitQ[t := q])
  {}

  lemma Shrinks(s: State, q: WaitQ)
    requires Wf(s) && q in s.dom.queues && s.queue[q] != []
    ensures WakeOne(s, q).queue[q] == s.queue[q][1..]
  {}

  /** The waiters met once the mutexes before `i` and the first `j` waiters of
      the `i`-th have been scanned. */
  ghost function Seen(queue: map<WaitQ, seq<Thread>>, ms: seq<Mutex>, i: nat, j: nat): seq<Thread>
    requires i <= |ms| && (forall m :: m in ms ==> m.waitQ in queue)
    requires i < |ms| ==> j <= |queue[ms[i].waitQ]|
  {
    Waiters(queue, ms[..i]) + if i < |ms| then queue[ms[i].waitQ][..j] else []
  }

  ghost predicate Scanned(s: State, ms: seq<Mutex>, i: nat, j: nat, floor: int, p: int)
    requires Wf(s)
  {
    && i <= |ms| && (forall m :: m in ms ==> m in s.dom.mutexes)
    && (i < |ms| ==> j <= |s.queue[ms[i].waitQ]|)
    && Known(s.prio, Seen(s.queue, ms, i, j))
    && p == Highest(s.prio, Seen(s.queue, ms, i, j), floor)
  }

  lemma ScanNext(s: State, ms: seq<Mutex>, i: nat, j: nat, floor: int, p: int)
    requires Wf(s) && Scanned(s, ms, i, j, floor, p) && i < |ms| && j < |s.queue[ms[i].waitQ]|
    requires s.queue[ms[i].waitQ][j] in s.prio.Keys
    ensures var w := s.queue[ms[i].waitQ][j];
            Scanned(s, ms, i, j + 1, floor, if s.prio[w] > p then s.prio[w] else p)
  {
    var w, ws := s.queue[ms[i].waitQ][j], Seen(s.queue, ms, i, j);
    assert Seen(s.queue, ms, i, j + 1) == ws + [w];
    assert (ws + [w])[..|ws|] == ws;
  }

  lemma ScanRow(s: State, ms: seq<Mutex>, i: nat, floor: int, p: int)
    requires Wf(s) && i < |ms| && (forall m :: m in ms ==> m in s.dom.mutexes)
    requires Scanned(s, ms, i, |s.queue[ms[i].waitQ]|, floor, p)
    ensures Scanned(s, ms, i + 1, 0, floor, p)
  {
    assert ms[..i + 1][..i] == ms[..i];
    assert Seen(s.queue, ms, i + 1, 0) == Seen(s.queue, ms, i, |s.queue[ms[i].waitQ]|);
  }

  lemma ScanStart(s: State, t: Thread)
    requires Wf(s) && t in s.dom.threads
    ensures Scanned(s, s.holds.owned[t], 0, 0, s.base[t], s.base[t])
  {
    assert Seen(s.queue, s.holds.owned[t], 0, 0) == [];
  }

  lemma ScanEnd(s: State, t: Thread, p: int)
    requires Wf(s) && t in s.dom.threads
    requires Scanned(s, s.holds.owned[t], |s.holds.owned[t]|, 0, s.base[t], p)
    ensures p == Effective(s, t)
  {
    var ms := s.holds.owned[t];
    assert ms[..|ms|] == ms;
    assert Seen(s.queue, ms, |ms|, 0) == Waiters(s.queue, ms);
  }
}
