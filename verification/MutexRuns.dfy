/** Whole runs: any number of threads interleaving the critical sections of
    lock, unlock, priority change and plain waiting, in any order. */
module MutexRuns {
  import opened MachineInts
  import opened Objects
  import opened WaitGraph
  import opened Lists
  import opened ThreadQueue
  import opened MutexSpec
  import opened MutexInvariants
  import opened MutexSteps

  /** Where a thread is in the code: outside, in the notification wait of a
      lock call, on its way back to the top of that call, or in a plain wait. */
  datatype Pc = Running | BlockedOn(m: Mutex) | Retrying(m: Mutex) | PlainWait

  /** A call that returned success. */
  datatype Event = Locked(t: Thread, m: Mutex) | Unlocked(t: Thread, m: Mutex)

  datatype World = World(s: State, pc: map<Thread, Pc>, log: seq<Event>)

  datatype Step =
    | LockStep(t: Thread, m: Mutex, timeout: nat, elapsed: nat)
    | ResumeStep(t: Thread, notified: bool)
    | UnlockStep(t: Thread, m: Mutex)
    | PriorityStep(t: Thread, p: int)
    | BlockStep(t: Thread, q: WaitQ)
    | UnblockStep(t: Thread)
    | WakeOneStep(q: WaitQ)
    | WakeAllStep(q: WaitQ)

  ghost predicate WorldWf(w: World) {
    && Wf(w.s) && w.pc.Keys == w.s.dom.threads
    && (forall t {:trigger w.pc[t]} :: t in w.pc && (w.pc[t].BlockedOn? || w.pc[t].Retrying?) ==>
          w.pc[t].m in w.s.dom.mutexes)
  }

  /** Which steps a scheduler may take. The only bound is on recursion: the
      32-bit count must not wrap. */
  ghost predicate Enabled(w: World, step: Step)
    requires WorldWf(w)
  {
    var d, pc := w.s.dom, w.pc;
    match step
    case LockStep(t, m, _, _) =>
      && t in d.threads && m in d.mutexes && (pc[t] == Running || pc[t] == Retrying(m))
      && (w.s.holds.owner[m] == t ==> w.s.holds.count[m] < UINT32 - 1)
    case ResumeStep(t, _) => t in d.threads && pc[t].BlockedOn?
    case UnlockStep(t, m) => t in d.threads && m in d.mutexes && pc[t] == Running
    case PriorityStep(t, p) => t in d.threads
    case BlockStep(t, q) => t in d.threads && pc[t] == Running && q in d.queues && !IsMutexQ(d, q)
    case UnblockStep(t) => t in d.threads && pc[t] == PlainWait
    case WakeOneStep(q) => q in d.queues && !IsMutexQ(d, q)
    case WakeAllStep(q) => q in d.queues && !IsMutexQ(d, q)
  }

  ghost function LockNext(w: World, t: Thread, m: Mutex, timeout: nat, elapsed: nat): (r: World)
    requires WorldWf(w) && t in w.pc && m in w.s.dom.mutexes
    ensures WorldWf(r) && r.s.dom == w.s.dom
  {
    var (s, o) := Lock(w.s, t, m, timeout, elapsed);
    World(s, w.pc[t := if o == Blocked then BlockedOn(m) else Running],
          if o == Done(OK) then w.log + [Locked(t, m)] else w.log)
  }

  ghost function ResumeNext(w: World, t: Thread, notified: bool): (r: World)
    requires WorldWf(w) && t in w.pc && w.pc[t].BlockedOn?
    ensures WorldWf(r) && r.s.dom == w.s.dom
  {
    var m := w.pc[t].m;
    var (s, o) := Resume(w.s, t, m, notified);
    w.(s := s, pc := w.pc[t := if o == Retry then Retrying(m) else Running])
  }

  ghost function UnlockNext(w: World, t: Thread, m: Mutex): (r: World)
    requires WorldWf(w) && t in w.pc && m in w.s.dom.mutexes
    ensures WorldWf(r) && r.s.dom == w.s.dom
  {
    var (s, c) := Unlock(w.s, t, m);
    w.(s := s, log := if c == OK then w.log + [Unlocked(t, m)] else w.log)
  }

  ghost function Becomes(w: World, s: State): (r: World)
    requires WorldWf(w) && Wf(s) && s.dom == w.s.dom
    ensures WorldWf(r) && r.s.dom == w.s.dom
  {
    w.(s := s)
  }

  /** A thread enters a plain wait or leaves one. */
  ghost function PlainNext(w: World, s: State, t: Thread, p: Pc): (r: World)
    requires WorldWf(w) && Wf(s) && s.dom == w.s.dom && t in w.pc && (p == Running || p == PlainWait)
    ensures WorldWf(r) && r.s.dom == w.s.dom
  {
    w.(s := s, pc := w.pc[t := p])
  }

  ghost function Next(w: World, step: Step): (r: World)
    requires WorldWf(w) && Enabled(w, step)
    ensures WorldWf(r) && r.s.dom == w.s.dom
  {
    match step
    case LockStep(t, m, timeout, elapsed) => LockNext(w, t, m, timeout, elapsed)
    case ResumeStep(t, notified) => ResumeNext(w, t, notified)
    case UnlockStep(t, m) => UnlockNext(w, t, m)
    case PriorityStep(t, p) => Becomes(w, SetPriority(w.s, t, p))
    case BlockStep(t, q) => PlainNext(w, Block(w.s, t, q), t, PlainWait)
    case UnblockStep(t) => PlainNext(w, Unblock(w.s, t), t, Running)
    case WakeOneStep(q) => Becomes(w, WakeOne(w.s, q))
    case WakeAllStep(q) => Becomes(w, WakeAll(w.s, q))
  }

  // ---- What holds between critical sections

  /** A linked thread is inside the wait that linked it. */
  ghost predicate PcOk(d: Domain, waits: Waits, pc: map<Thread, Pc>)
    requires WaitsWf(d, waits) && pc.Keys == d.threads
  {
    forall t {:trigger pc[t]} {:trigger waits.waitQ[t]} :: t in d.threads && waits.waitQ[t] != null ==>
      if waits.waiting[t] == null then pc[t] == PlainWait else pc[t] == BlockedOn(waits.waiting[t])
  }

  /** `t` has been dequeued from `m` and has not retried yet. */
  ghost predicate Woken(waits: Waits, pc: map<Thread, Pc>, t: Thread, m: Mutex) {
    t in pc && t in waits.waitQ
    && (pc[t] == Retrying(m) || (pc[t] == BlockedOn(m) && waits.waitQ[t] == null))
  }

  /** No lost wake-up: a free mutex with a queue has a thread on its way. */
  ghost predicate Attended(waits: Waits, h: Holds, queue: map<WaitQ, seq<Thread>>, pc: map<Thread, Pc>, m: Mutex)
    requires m in h.owner && m.waitQ in queue
  {
    h.owner[m] == null && queue[m.waitQ] != [] ==> exists t :: t in pc && Woken(waits, pc, t, m)
  }

  ghost predicate NoLostWakeup(d: Domain, waits: Waits, h: Holds, queue: map<WaitQ, seq<Thread>>,
                               pc: map<Thread, Pc>)
    requires DomainWf(d) && h.owner.Keys == d.mutexes && queue.Keys == d.queues
  {
    forall m {:trigger h.owner[m]} {:trigger m.waitQ} ::
      m in d.mutexes ==> Attended(waits, h, queue, pc, m)
  }

  /** Successful locks minus successful unlocks of `m` by `t`. */
  ghost function Balance(log: seq<Event>, t: Thread, m: Mutex): int {
    if log == [] then 0
    else
      var e := log[|log| - 1];
      Balance(log[..|log| - 1], t, m)
        + (if e == Locked(t, m) then 1 else if e == Unlocked(t, m) then -1 else 0)
  }

  /** The recursion count of a mutex is the balance of its owner, and everyone
      else has balance zero. */
  ghost predicate Balanced(d: Domain, h: Holds, log: seq<Event>)
    requires HoldsWf(d, h)
  {
    forall t, m {:trigger Balance(log, t, m)} :: t in d.threads && m in d.mutexes ==>
      Balance(log, t, m) == if h.owner[m] == t then h.count[m] else 0
  }

  /** The wake-up bookkeeping, as one condition on the changing parts. */
  ghost predicate Bookkeeping(d: Domain, waits: Waits, h: Holds, queue: map<WaitQ, seq<Thread>>,
                              pc: map<Thread, Pc>)
  {
    && DomainWf(d) && WaitsWf(d, waits) && h.owner.Keys == d.mutexes && queue.Keys == d.queues
    && pc.Keys == d.threads && PcOk(d, waits, pc) && NoLostWakeup(d, waits, h, queue, pc)
  }

  ghost predicate Booked(s: State, pc: map<Thread, Pc>)
    ensures Booked(s, pc) ==> Wf(s) && pc.Keys == s.dom.threads
  {
    Inv(s) && Bookkeeping(s.dom, s.waits, s.holds, s.queue, pc)
  }

  ghost predicate WorldInv(w: World)
    ensures WorldInv(w) ==> WorldWf(w)
  {
    WorldWf(w) && Booked(w.s, w.pc) && Balanced(w.s.dom, w.s.holds, w.log)
  }

  ghost predicate Init(w: World) {
    && WorldWf(w) && w.log == []
    && (forall t :: t in w.s.dom.threads ==>
          && w.pc[t] == Running && w.s.waits == Waits(w.s.waits.waitQ, w.s.waits.waiting)
          && w.s.waits.waitQ[t] == null && w.s.waits.waiting[t] == null && w.s.holds.owned[t] == []
          && w.s.prio[t] == w.s.base[t] >= 0)
    && (forall m :: m in w.s.dom.mutexes ==> w.s.holds.owner[m] == null && w.s.holds.count[m] == 0)
    && (forall q :: q in w.s.dom.queues ==> w.s.queue[q] == [])
  }

  lemma InitInv(w: World)
    requires Init(w)
    ensures WorldInv(w)
  {
    InitState(w);
    InitBooks(w);
    InitBalanced(w);
    hide Inv, Bookkeeping, Balanced, Init;
  }

  lemma InitState(w: World)
    requires Init(w)
    ensures Inv(w.s)
  {
    hide Acyclic;
    NoEdgesNoCycle(Edges(w.s.dom, w.s.waits, w.s.holds));
  }

  lemma InitBooks(w: World)
    requires Init(w)
    ensures Bookkeeping(w.s.dom, w.s.waits, w.s.holds, w.s.queue, w.pc)
  {
    hide Woken;
  }

  lemma InitBalanced(w: World)
    requires Init(w)
    ensures Balanced(w.s.dom, w.s.holds, w.log)
  {
    hide DomainWf, QueuesWf, WaitsWf;
  }

  lemma NoEdgesNoCycle(g: Graph)
    requires Closed(g) && forall t :: t in g ==> g[t] == null
    ensures Acyclic(g)
  {
    forall t, n: nat | t in g && n > 0 ensures Hop(g, t, n) != t {
      assert Hop(g, t, n) == Hop(g, null, n - 1);
    }
  }

  // ---- How each kind of change affects the queues and the wake-ups

  /** A queue is empty after a rearrangement iff it was before. */
  lemma RearrangedEmpty(queue: map<WaitQ, seq<Thread>>, queue': map<WaitQ, seq<Thread>>)
    requires Rearranged(queue, queue')
    ensures forall q :: q in queue ==> (queue'[q] == [] <==> queue[q] == [])
  {
    forall q | q in queue ensures queue'[q] == [] <==> queue[q] == [] {
      assert |multiset(queue'[q])| == |multiset(queue[q])|;
    }
  }

  lemma RearrangedBook(d: Domain, waits: Waits, h: Holds, queue: map<WaitQ, seq<Thread>>,
                       pc: map<Thread, Pc>, queue': map<WaitQ, seq<Thread>>)
    requires Bookkeeping(d, waits, h, queue, pc) && Rearranged(queue, queue')
    ensures Bookkeeping(d, waits, h, queue', pc)
  {
    RearrangedEmpty(queue, queue');
    hide PcOk, Rearranged, Woken, WaitsWf;
  }

  /** Taking a free mutex, or leaving a call while the mutex has an owner. */
  lemma OwnedBook(d: Domain, waits: Waits, h: Holds, queue: map<WaitQ, seq<Thread>>,
                  pc: map<Thread, Pc>, t: Thread, m: Mutex, h': Holds, o: Thread)
    requires Bookkeeping(d, waits, h, queue, pc) && t in d.threads && m in d.mutexes
    requires pc[t] == Running || pc[t] == Retrying(m)
    requires h'.owner == h.owner[m := o]
    ensures Bookkeeping(d, waits, h', queue, pc[t := Running])
  {
    var pc' := pc[t := Running];
    forall n | n in d.mutexes ensures Attended(waits, h', queue, pc', n) {
      if n != m && h.owner[n] == null && queue[n.waitQ] != [] {
        var x :| x in pc && Woken(waits, pc, x, n);
        assert Woken(waits, pc', x, n);
      }
    }
  }

  /** Joining the queue of an owned mutex. */
  lemma JoinBook(d: Domain, waits: Waits, h: Holds, queue: map<WaitQ, seq<Thread>>,
                 pc: map<Thread, Pc>, t: Thread, m: Mutex, r: seq<Thread>)
    requires Bookkeeping(d, waits, h, queue, pc) && t in d.threads && m in d.mutexes
    requires (pc[t] == Running || pc[t] == Retrying(m)) && h.owner[m] != null
    ensures Bookkeeping(d, WaitAt(waits, t, m.waitQ, m), h, queue[m.waitQ := r], pc[t := BlockedOn(m)])
  {
    var waits', pc', queue' := WaitAt(waits, t, m.waitQ, m), pc[t := BlockedOn(m)], queue[m.waitQ := r];
    forall n | n in d.mutexes ensures Attended(waits', h, queue', pc', n) {
      if n != m && h.owner[n] == null && queue[n.waitQ] != [] {
        var x :| x in pc && Woken(waits, pc, x, n);
        assert Woken(waits', pc', x, n);
      }
    }
  }

  /** Leaving a queue by one's own time-out: nobody else's wake-up is lost. */
  lemma LeaveBook(d: Domain, waits: Waits, h: Holds, queue: map<WaitQ, seq<Thread>>,
                  pc: map<Thread, Pc>, t: Thread, queue': map<WaitQ, seq<Thread>>)
    requires Bookkeeping(d, waits, h, queue, pc) && t in d.threads && waits.waitQ[t] != null
    requires queue'.Keys == queue.Keys && forall q :: q in queue && queue'[q] != [] ==> queue[q] != []
    ensures Bookkeeping(d, WaitAt(waits, t, null, null), h, queue', pc[t := Running])
  {
    var waits', pc' := WaitAt(waits, t, null, null), pc[t := Running];
    forall n | n in d.mutexes ensures Attended(waits', h, queue', pc', n) {
      if h.owner[n] == null && queue'[n.waitQ] != [] {
        var x :| x in pc && Woken(waits, pc, x, n);
        assert Woken(waits', pc', x, n);
      }
    }
  }

  /** Seeing one has been dequeued: the wake-up is still pending. */
  lemma RetryBook(d: Domain, waits: Waits, h: Holds, queue: map<WaitQ, seq<Thread>>,
                  pc: map<Thread, Pc>, t: Thread)
    requires Bookkeeping(d, waits, h, queue, pc) && t in d.threads && waits.waitQ[t] == null
    requires pc[t].BlockedOn? || pc[t] == PlainWait
    ensures Bookkeeping(d, waits, h, queue, pc[t := if pc[t] == PlainWait then Running else Retrying(pc[t].m)])
  {
    var pc' := pc[t := if pc[t] == PlainWait then Running else Retrying(pc[t].m)];
    forall n | n in d.mutexes ensures Attended(waits, h, queue, pc', n) {
      if h.owner[n] == null && queue[n.waitQ] != [] {
        var x :| x in pc && Woken(waits, pc, x, n);
        assert Woken(waits, pc', x, n);
      }
    }
  }

  /** Being dequeued by somebody else. */
  lemma DequeueBook(d: Domain, waits: Waits, h: Holds, queue: map<WaitQ, seq<Thread>>,
                    pc: map<Thread, Pc>, t: Thread, queue': map<WaitQ, seq<Thread>>)
    requires Bookkeeping(d, waits, h, queue, pc) && t in d.threads && waits.waitQ[t] != null
    requires queue'.Keys == queue.Keys && forall q :: q in queue && queue'[q] != [] ==> queue[q] != []
    ensures Bookkeeping(d, WaitAt(waits, t, null, null), h, queue', pc)
  {
    var waits' := WaitAt(waits, t, null, null);
    forall n | n in d.mutexes ensures Attended(waits', h, queue', pc, n) {
      if h.owner[n] == null && queue'[n.waitQ] != [] {
        var x :| x in pc && Woken(waits, pc, x, n);
        assert Woken(waits', pc, x, n);
      }
    }
  }

  /** Freeing a mutex: its first waiter, if there is one, is on its way. */
  lemma HandoverBook(d: Domain, waits: Waits, h: Holds, queue: map<WaitQ, seq<Thread>>,
                     pc: map<Thread, Pc>, m: Mutex, h': Holds)
    requires Bookkeeping(d, waits, h, queue, pc) && m in d.mutexes
    requires h'.owner == h.owner[m := null]
    requires queue[m.waitQ] == [] || exists t :: t in pc && Woken(waits, pc, t, m)
    ensures Bookkeeping(d, waits, h', queue, pc)
  {}

  /** Entering a plain wait. */
  lemma PlainBook(d: Domain, waits: Waits, h: Holds, queue: map<WaitQ, seq<Thread>>,
                  pc: map<Thread, Pc>, t: Thread, q: WaitQ, r: seq<Thread>)
    requires Bookkeeping(d, waits, h, queue, pc) && t in d.threads && pc[t] == Running
    requires waits.waiting[t] == null && q in d.queues && !IsMutexQ(d, q)
    ensures Bookkeeping(d, WaitAt(waits, t, q, null), h, queue[q := r], pc[t := PlainWait])
  {
    var waits', pc', queue' := WaitAt(waits, t, q, null), pc[t := PlainWait], queue[q := r];
    forall n | n in d.mutexes ensures Attended(waits', h, queue', pc', n) {
      if h.owner[n] == null && queue[n.waitQ] != [] {
        var x :| x in pc && Woken(waits, pc, x, n);
        assert Woken(waits', pc', x, n);
      }
    }
  }

  // ---- The log

  lemma BalanceNext(log: seq<Event>, e: Event, t: Thread, m: Mutex)
    ensures Balance(log + [e], t, m) ==
              Balance(log, t, m) + (if e == Locked(t, m) then 1 else if e == Unlocked(t, m) then -1 else 0)
  {
    assert (log + [e])[..|log|] == log;
  }

  lemma LockBalance(d: Domain, h: Holds, log: seq<Event>, t: Thread, m: Mutex, h': Holds)
    requires HoldsOk(d, h) && HoldsWf(d, h') && Balanced(d, h, log) && t in d.threads && m in d.mutexes
    requires h.owner[m] == null || h.owner[m] == t
    requires h'.owner == h.owner[m := t] && h'.count == h.count[m := h.count[m] + 1]
    ensures Balanced(d, h', log + [Locked(t, m)])
  {
    forall x, n | x in d.threads && n in d.mutexes
      ensures Balance(log + [Locked(t, m)], x, n) == if h'.owner[n] == x then h'.count[n] else 0
    {
      BalanceNext(log, Locked(t, m), x, n);
    }
  }

  lemma UnlockBalance(d: Domain, h: Holds, log: seq<Event>, t: Thread, m: Mutex, h': Holds)
    requires HoldsOk(d, h) && HoldsWf(d, h') && Balanced(d, h, log) && t in d.threads && m in d.mutexes
    requires h.owner[m] == t && h'.count == h.count[m := h.count[m] - 1]
    requires h'.owner == if h.count[m] == 1 then h.owner[m := null] else h.owner
    ensures Balanced(d, h', log + [Unlocked(t, m)])
  {
    forall x, n | x in d.threads && n in d.mutexes
      ensures Balance(log + [Unlocked(t, m)], x, n) == if h'.owner[n] == x then h'.count[n] else 0
    {
      BalanceNext(log, Unlocked(t, m), x, n);
    }
  }

  // ---- Steps

  lemma ChainBooked(s: State, t: Thread?, pc: map<Thread, Pc>)
    requires Booked(s, pc) && (t != null ==> t in s.dom.threads)
    ensures Booked(UpdateChain(s, t, []), pc)
  {
    hide UpdateChain, Bookkeeping, QueuesOk, WaitsOk, HoldsOk, Acyclic;
    ChainKeeps(s, t, []);
    ChainKeepsInv(s, t);
    RearrangedBook(s.dom, s.waits, s.holds, s.queue, pc, UpdateChain(s, t, []).queue);
  }

  lemma Unlinked(s: State, pc: map<Thread, Pc>, t: Thread)
    requires Booked(s, pc) && t in pc && (pc[t] == Running || pc[t].Retrying?)
    ensures s.waits.waitQ[t] == null && s.waits.waiting[t] == null
  {}

  lemma TakenBooked(s: State, pc: map<Thread, Pc>, t: Thread, m: Mutex)
    requires Booked(s, pc) && t in pc && (pc[t] == Running || pc[t] == Retrying(m))
    requires m in s.dom.mutexes && s.holds.owner[m] == null
    ensures Booked(s.(holds := Taken(s.holds, t, m)), pc[t := Running])
  {
    hide Bookkeeping, QueuesOk, WaitsOk, HoldsOk, Acyclic;
    Unlinked(s, pc, t);
    TakenKeeps(s, t, m);
    OwnedBook(s.dom, s.waits, s.holds, s.queue, pc, t, m, Taken(s.holds, t, m), t);
  }

  /** Leaving a call whose mutex has an owner, with that owner's count changed. */
  lemma LeftBooked(s: State, pc: map<Thread, Pc>, t: Thread, m: Mutex, n: nat)
    requires Booked(s, pc) && t in pc && (pc[t] == Running || pc[t] == Retrying(m))
    requires m in s.dom.mutexes && s.holds.owner[m] != null && 0 < n < UINT32
    ensures Booked(s.(holds := s.holds.(count := s.holds.count[m := n])), pc[t := Running])
  {
    hide Bookkeeping, QueuesOk, WaitsOk, HoldsOk, Acyclic;
    CountKeeps(s, m, n);
    var h := s.holds.(count := s.holds.count[m := n]);
    OwnedBook(s.dom, s.waits, s.holds, s.queue, pc, t, m, h, s.holds.owner[m]);
  }

  lemma ParkedBooked(s: State, pc: map<Thread, Pc>, t: Thread, m: Mutex)
    requires Booked(s, pc) && t in pc && (pc[t] == Running || pc[t] == Retrying(m))
    requires m in s.dom.mutexes && s.holds.owner[m] != null
    requires !DeadlockWalk(s, t, s.holds.owner[m], MAX_CHAIN)
    ensures Booked(Parked(s, t, m.waitQ, m), pc[t := BlockedOn(m)])
  {
    hide Bookkeeping, QueuesOk, WaitsOk, HoldsOk, Acyclic, DeadlockWalk, Insert, Reaches;
    Unlinked(s, pc, t);
    DeadlockWalkExact(s, t, s.holds.owner[m], MAX_CHAIN);
    ParkedKeeps(s, t, m);
    JoinBook(s.dom, s.waits, s.holds, s.queue, pc, t, m, Insert(s.prio, s.queue[m.waitQ], t));
  }

  lemma LockBooked(w: World, t: Thread, m: Mutex, timeout: nat, elapsed: nat)
    requires WorldInv(w) && Enabled(w, LockStep(t, m, timeout, elapsed))
    ensures var r := Next(w, LockStep(t, m, timeout, elapsed)); Booked(r.s, r.pc)
  {
    hide Booked, UpdateChain, DeadlockWalk, Parked, Balanced;
    var s := w.s;
    if s.holds.owner[m] == null {
      TakenBooked(s, w.pc, t, m);
    } else {
      LockHeldBooked(s, w.pc, t, m, timeout, elapsed);
    }
  }

  lemma LockHeldBooked(s: State, pc: map<Thread, Pc>, t: Thread, m: Mutex, timeout: nat, elapsed: nat)
    requires Booked(s, pc) && t in pc && (pc[t] == Running || pc[t] == Retrying(m))
    requires m in s.dom.mutexes && s.holds.owner[m] != null
    requires s.holds.owner[m] == t ==> s.holds.count[m] < UINT32 - 1
    ensures var (r, o) := Lock(s, t, m, timeout, elapsed);
            Booked(r, pc[t := if o == Blocked then BlockedOn(m) else Running])
  {
    hide Booked, UpdateChain, DeadlockWalk, Parked, WaitsWf, QueuesWf;
    var o := Lock(s, t, m, timeout, elapsed).1;
    if s.holds.owner[m] == t {
      LeftBooked(s, pc, t, m, s.holds.count[m] + 1);
    } else if o == Blocked {
      ParkedBooked(s, pc, t, m);
      ChainBooked(Parked(s, t, m.waitQ, m), s.holds.owner[m], pc[t := BlockedOn(m)]);
    } else {
      RefusedBooked(s, pc, t, m);
    }
  }

  lemma RefusedBooked(s: State, pc: map<Thread, Pc>, t: Thread, m: Mutex)
    requires Booked(s, pc) && t in pc && (pc[t] == Running || pc[t] == Retrying(m))
    requires m in s.dom.mutexes && s.holds.owner[m] != null
    ensures Booked(s, pc[t := Running])
  {
    hide Bookkeeping, Inv;
    assert s.holds.owner == s.holds.owner[m := s.holds.owner[m]];
    OwnedBook(s.dom, s.waits, s.holds, s.queue, pc, t, m, s.holds, s.holds.owner[m]);
  }

  lemma UnparkedBooked(s: State, pc: map<Thread, Pc>, t: Thread)
    requires Booked(s, pc) && t in pc && s.waits.waitQ[t] != null
    ensures Booked(Unparked(s, t, null), pc[t := Running])
  {
    hide Bookkeeping, QueuesOk, WaitsOk, HoldsOk, Acyclic, Without;
    UnparkedKeeps(s, t);
    LeaveBook(s.dom, s.waits, s.holds, s.queue, pc, t, Unparked(s, t, null).queue);
  }

  lemma ResumeBooked(w: World, t: Thread, notified: bool)
    requires WorldInv(w) && Enabled(w, ResumeStep(t, notified))
    ensures var r := Next(w, ResumeStep(t, notified)); Booked(r.s, r.pc)
  {
    hide Booked, UpdateChain, Unparked, Balanced;
    var s, m := w.s, w.pc[t].m;
    if s.waits.waitQ[t] != null {
      UnparkedBooked(s, w.pc, t);
      ChainBooked(Unparked(s, t, null), s.holds.owner[m], w.pc[t := Running]);
    } else {
      QuietRetry(s, w.pc, t);
    }
  }

  lemma QuietRetry(s: State, pc: map<Thread, Pc>, t: Thread)
    requires Booked(s, pc) && t in pc && pc[t].BlockedOn? && s.waits.waitQ[t] == null
    ensures s.waits.waiting[t := null] == s.waits.waiting
    ensures Booked(s, pc[t := Retrying(pc[t].m)])
  {
    hide Bookkeeping;
    RetryBook(s.dom, s.waits, s.holds, s.queue, pc, t);
  }

  lemma PopHeadBooked(s: State, pc: map<Thread, Pc>, q: WaitQ)
    requires Booked(s, pc) && q in s.dom.queues && s.queue[q] != []
    ensures Booked(PopHead(s, q, null), pc)
  {
    hide Bookkeeping, WaitsOk, HoldsOk, Acyclic;
    HeadCut(s.queue[q]);
    PopHeadKeeps(s, q);
    DequeueBook(s.dom, s.waits, s.holds, s.queue, pc, s.queue[q][0], PopHead(s, q, null).queue);
  }

  /** The head of a mutex queue, once unlinked, is on its way to the mutex. */
  lemma HeadWoken(s: State, pc: map<Thread, Pc>, m: Mutex)
    requires Booked(s, pc) && m in s.dom.mutexes && s.queue[m.waitQ] != []
    ensures var t := s.queue[m.waitQ][0]; t in pc && Woken(PopHead(s, m.waitQ, null).waits, pc, t, m)
  {
    HeadCut(s.queue[m.waitQ]);
    hide HoldsOk, Acyclic, QueuesSorted, NoLostWakeup;
  }

  lemma ReleasedBooked(s: State, pc: map<Thread, Pc>, t: Thread, m: Mutex)
    requires Booked(s, pc) && t in pc && m in s.dom.mutexes && s.holds.owner[m] == t
    ensures Booked(Released(s, t, m), pc)
  {
    hide Bookkeeping, WaitsOk, HoldsOk, QueuesOk, Acyclic, Woken, Without;
    var q, h := m.waitQ, Freed(s.holds, t, m);
    ReleasedKeeps(s, t, m);
    if s.queue[q] == [] {
      HandoverBook(s.dom, s.waits, s.holds, s.queue, pc, m, h);
    } else {
      var s1 := PopHead(s, q, null);
      PopHeadBooked(s, pc, q);
      HeadWoken(s, pc, m);
      HandoverBook(s.dom, s1.waits, s.holds, s1.queue, pc, m, h);
    }
  }

  lemma UnlockBooked(w: World, t: Thread, m: Mutex)
    requires WorldInv(w) && Enabled(w, UnlockStep(t, m))
    ensures var r := Next(w, UnlockStep(t, m)); Booked(r.s, r.pc)
  {
    hide Booked, UpdateChain, Released, Balanced, WaitsWf, QueuesWf, DomainWf;
    var s := w.s;
    if s.holds.owner[m] == t {
      CountsBounded(s, w.pc, m);
      if s.holds.count[m] > 1 {
        LeftBooked(s, w.pc, t, m, s.holds.count[m] - 1);
        assert w.pc[t := Running] == w.pc;
      } else {
        ReleasedBooked(s, w.pc, t, m);
        ChainBooked(Released(s, t, m), t, w.pc);
      }
    }
  }

  lemma CountsBounded(s: State, pc: map<Thread, Pc>, m: Mutex)
    requires Booked(s, pc) && m in s.dom.mutexes
    ensures s.holds.count[m] < UINT32 && (s.holds.owner[m] != null <==> s.holds.count[m] > 0)
  {
    HeldCount(s, m);
  }

  lemma PriorityBooked(w: World, t: Thread, p: int)
    requires WorldInv(w) && Enabled(w, PriorityStep(t, p))
    ensures var r := Next(w, PriorityStep(t, p)); Booked(r.s, r.pc)
  {
    hide Booked, UpdateChain, Replaced, Balanced, WaitsWf, HoldsWf, QueuesWf, DomainWf;
    var s1 := w.s.(base := w.s.base[t := p]);
    BaseBooked(w.s, w.pc, t, p);
    ChainBooked(s1, t, w.pc);
    ReplacedBooked(UpdateChain(s1, t, []), w.pc, t);
  }

  lemma BaseBooked(s: State, pc: map<Thread, Pc>, t: Thread, p: int)
    requires Booked(s, pc) && t in pc
    ensures Booked(s.(base := s.base[t := p]), pc)
  {
    hide Bookkeeping, WaitsOk, HoldsOk, QueuesLinked, QueuesSorted, Acyclic;
  }

  lemma ReplacedBooked(s: State, pc: map<Thread, Pc>, t: Thread)
    requires Booked(s, pc) && t in pc
    ensures Booked(Replaced(s, t), pc)
  {
    hide Bookkeeping, WaitsOk, HoldsOk, Acyclic, Moved, QueuesSorted;
    ReplacedKeeps(s, t);
    assert Rearranged(s.queue, Replaced(s, t).queue);
    RearrangedBook(s.dom, s.waits, s.holds, s.queue, pc, Replaced(s, t).queue);
  }

  lemma BlockBooked(w: World, t: Thread, q: WaitQ)
    requires WorldInv(w) && Enabled(w, BlockStep(t, q))
    ensures var r := Next(w, BlockStep(t, q)); Booked(r.s, r.pc)
  {
    hide Bookkeeping, Inv, Balanced, Insert;
    var s := w.s;
    Unlinked(s, w.pc, t);
    BlockKeeps(s, t, q);
    PlainBook(s.dom, s.waits, s.holds, s.queue, w.pc, t, q, Insert(s.prio, s.queue[q], t));
  }

  lemma PlainPc(s: State, pc: map<Thread, Pc>, t: Thread)
    requires Booked(s, pc) && t in pc && pc[t] == PlainWait
    ensures s.waits.waiting[t] == null
  {}

  lemma UnblockBooked(w: World, t: Thread)
    requires WorldInv(w) && Enabled(w, UnblockStep(t))
    ensures var r := Next(w, UnblockStep(t)); Booked(r.s, r.pc)
  {
    hide Booked, Balanced, Unparked;
    var s := w.s;
    PlainPc(s, w.pc, t);
    if s.waits.waitQ[t] != null {
      UnparkedBooked(s, w.pc, t);
    } else {
      PlainDone(s, w.pc, t);
    }
  }

  lemma PlainDone(s: State, pc: map<Thread, Pc>, t: Thread)
    requires Booked(s, pc) && t in pc && pc[t] == PlainWait && s.waits.waitQ[t] == null
    ensures Booked(s, pc[t := Running])
  {
    hide Bookkeeping, Inv;
    RetryBook(s.dom, s.waits, s.holds, s.queue, pc, t);
  }

  lemma WakeOneBooked(s: State, pc: map<Thread, Pc>, q: WaitQ)
    requires Booked(s, pc) && q in s.dom.queues && !IsMutexQ(s.dom, q)
    ensures Booked(WakeOne(s, q), pc)
  {
    hide Bookkeeping, PopHead, Acyclic, HoldsOk, QueuesSorted;
    if s.queue[q] != [] {
      HeadCut(s.queue[q]);
      PlainWaiter(s, s.queue[q][0]);
      PopHeadBooked(s, pc, q);
    }
  }

  lemma {:induction false} WakeAllBooked(s: State, pc: map<Thread, Pc>, q: WaitQ)
    requires Booked(s, pc) && q in s.dom.queues && !IsMutexQ(s.dom, q)
    ensures Booked(WakeAll(s, q), pc)
    decreases |s.queue[q]|
  {
    hide Booked;
    if s.queue[q] != [] {
      WakeOneBooked(s, pc, q);
      WakeAllBooked(WakeOne(s, q), pc, q);
    }
  }

  lemma StepBooked(w: World, step: Step)
    requires WorldInv(w) && Enabled(w, step)
    ensures Booked(Next(w, step).s, Next(w, step).pc)
  {
    match step
    case LockStep(t, m, timeout, elapsed) => LockBooked(w, t, m, timeout, elapsed);
    case ResumeStep(t, notified) => ResumeBooked(w, t, notified);
    case UnlockStep(t, m) => UnlockBooked(w, t, m);
    case PriorityStep(t, p) => PriorityBooked(w, t, p);
    case BlockStep(t, q) => BlockBooked(w, t, q);
    case UnblockStep(t) => UnblockBooked(w, t);
    case WakeOneStep(q) => WakeOneBooked(w.s, w.pc, q);
    case WakeAllStep(q) => WakeAllBooked(w.s, w.pc, q);
  }

  /** Only lock and unlock touch the ownership fields. */
  lemma StepBalanced(w: World, step: Step)
    requires WorldInv(w) && Enabled(w, step)
    ensures var r := Next(w, step); Wf(r.s) && r.s.dom == w.s.dom && Balanced(r.s.dom, r.s.holds, r.log)
  {
    hide Balanced, Booked, UpdateChain, WaitsWf, HoldsWf, QueuesWf, DomainWf, LockNext, UnlockNext;
    match step
    case LockStep(t, m, timeout, elapsed) => LockBalanced(w, t, m, timeout, elapsed);
    case UnlockStep(t, m) => UnlockBalanced(w, t, m);
    case WakeAllStep(q) => WakeAllHolds(w.s, q);
    case _ =>
  }

  lemma {:induction false} WakeAllHolds(s: State, q: WaitQ)
    requires Wf(s) && q in s.dom.queues
    ensures WakeAll(s, q).holds == s.holds
    decreases |s.queue[q]|
  {
    if s.queue[q] != [] {
      WakeAllHolds(WakeOne(s, q), q);
    }
  }

  /** A lock call succeeds or leaves all ownership fields alone. */
  lemma LockHolds(s: State, t: Thread, m: Mutex, timeout: nat, elapsed: nat)
    requires Wf(s) && HoldsOk(s.dom, s.holds) && t in s.dom.threads && m in s.dom.mutexes
    requires s.holds.owner[m] == t ==> s.holds.count[m] < UINT32 - 1
    ensures var (r, o) := Lock(s, t, m, timeout, elapsed);
            && r.dom == s.dom
            && (o != Done(OK) ==> r.holds == s.holds)
            && (o == Done(OK) ==>
                 && (s.holds.owner[m] == null || s.holds.owner[m] == t)
                 && r.holds.owner == s.holds.owner[m := t]
                 && r.holds.count == s.holds.count[m := s.holds.count[m] + 1])
  {
    hide UpdateChain, Parked, DeadlockWalk, WaitsWf, QueuesWf;
    if s.holds.owner[m] == t {
      assert s.holds.owner == s.holds.owner[m := t];
    }
  }

  lemma LockBalanced(w: World, t: Thread, m: Mutex, timeout: nat, elapsed: nat)
    requires WorldInv(w) && Enabled(w, LockStep(t, m, timeout, elapsed))
    ensures var r := Next(w, LockStep(t, m, timeout, elapsed));
            Wf(r.s) && r.s.dom == w.s.dom && Balanced(r.s.dom, r.s.holds, r.log)
  {
    hide Balanced, Lock, Bookkeeping, QueuesOk, WaitsOk, HoldsOk, Acyclic;
    var r, o := Next(w, LockStep(t, m, timeout, elapsed)), Lock(w.s, t, m, timeout, elapsed).1;
    LockHolds(w.s, t, m, timeout, elapsed);
    if o == Done(OK) {
      LockBalance(w.s.dom, w.s.holds, w.log, t, m, r.s.holds);
    }
  }

  lemma UnlockHolds(s: State, t: Thread, m: Mutex)
    requires Wf(s) && HoldsOk(s.dom, s.holds) && t in s.dom.threads && m in s.dom.mutexes
    ensures var (r, c) := Unlock(s, t, m);
            && r.dom == s.dom
            && (c == OK <==> s.holds.owner[m] == t)
            && (c != OK ==> r.holds == s.holds)
            && (c == OK ==>
                 && r.holds.count == s.holds.count[m := s.holds.count[m] - 1]
                 && r.holds.owner == if s.holds.count[m] == 1 then s.holds.owner[m := null] else s.holds.owner)
  {
    hide UpdateChain, Released, Wf, HoldsOk;
    ReleasedHolds(s, t, m);
    OwnedCount(s, m);
  }

  lemma OwnedCount(s: State, m: Mutex)
    requires HoldsOk(s.dom, s.holds) && m in s.dom.mutexes
    ensures s.holds.owner[m] != null <==> s.holds.count[m] > 0
  {}

  lemma ReleasedHolds(s: State, t: Thread, m: Mutex)
    requires Wf(s) && t in s.dom.threads && m in s.dom.mutexes
    ensures Released(s, t, m).holds == Freed(s.holds, t, m)
  {}

  lemma UnlockBalanced(w: World, t: Thread, m: Mutex)
    requires WorldInv(w) && Enabled(w, UnlockStep(t, m))
    ensures var r := Next(w, UnlockStep(t, m));
            Wf(r.s) && r.s.dom == w.s.dom && Balanced(r.s.dom, r.s.holds, r.log)
  {
    hide Balanced, Unlock, Bookkeeping, QueuesOk, WaitsOk, HoldsOk, Acyclic;
    var r := Next(w, UnlockStep(t, m));
    UnlockHolds(w.s, t, m);
    if w.s.holds.owner[m] == t {
      UnlockBalance(w.s.dom, w.s.holds, w.log, t, m, r.s.holds);
    }
  }

  lemma StepKeeps(w: World, step: Step)
    requires WorldInv(w) && Enabled(w, step)
    ensures WorldInv(Next(w, step))
  {
    hide Booked, Balanced, Next, Enabled;
    StepBooked(w, step);
    StepBalanced(w, step);
  }

  // ---- Runs

  ghost predicate Legal(w: World, steps: seq<Step>)
    requires WorldWf(w)
    decreases |steps|
  {
    steps == [] || (Enabled(w, steps[0]) && Legal(Next(w, steps[0]), steps[1..]))
  }

  ghost function Exec(w: World, steps: seq<Step>): (r: World)
    requires WorldWf(w) && Legal(w, steps)
    ensures WorldWf(r) && r.s.dom == w.s.dom
    decreases |steps|
  {
    if steps == [] then w else Exec(Next(w, steps[0]), steps[1..])
  }

  lemma LegalStep(w: World, step: Step, steps: seq<Step>)
    requires WorldWf(w) && Enabled(w, step) && Legal(Next(w, step), steps)
    ensures Legal(w, [step] + steps) && Exec(w, [step] + steps) == Exec(Next(w, step), steps)
  {
    assert ([step] + steps)[1..] == steps;
    hide Enabled, Next;
  }

  lemma {:induction false} RunInv(w: World, steps: seq<Step>)
    requires WorldInv(w) && Legal(w, steps)
    ensures WorldInv(Exec(w, steps))
    decreases |steps|
  {
    hide WorldInv, Next, Enabled;
    if steps != [] {
      StepKeeps(w, steps[0]);
      RunInv(Next(w, steps[0]), steps[1..]);
    }
  }

  /** Safety of every run from a quiet start: the wait-for graph is acyclic,
      every mutex queue is sorted, every thread is linked exactly where its
      fields say, ownership lists and owners agree, and no wake-up is lost. */
  lemma RunSafety(w: World, steps: seq<Step>)
    requires Init(w) && Legal(w, steps)
    ensures var r := Exec(w, steps).s;
            && QueuesLinked(r.dom, r.waits.waitQ, r.queue) && QueuesSorted(r.dom, r.prio, r.queue)
            && WaitsOk(r.dom, r.waits) && HoldsOk(r.dom, r.holds)
            && Acyclic(Edges(r.dom, r.waits, r.holds))
            && NoLostWakeup(r.dom, r.waits, r.holds, r.queue, Exec(w, steps).pc)
  {
    InitInv(w);
    RunInv(w, steps);
    hide Exec, Legal, Init, Acyclic, WaitsOk, HoldsOk, QueuesLinked, QueuesSorted, NoLostWakeup, PcOk, Balanced;
  }

  /** Mutual exclusion, read off the calls that returned success: nobody has
      released more often than locked, and at most one thread has locked a
      mutex more often than it has released it. */
  lemma RunExclusion(w: World, steps: seq<Step>, t: Thread, u: Thread, m: Mutex)
    requires Init(w) && Legal(w, steps)
    requires t in w.s.dom.threads && u in w.s.dom.threads && t != u && m in w.s.dom.mutexes
    ensures var log := Exec(w, steps).log;
            Balance(log, t, m) >= 0 && !(Balance(log, t, m) > 0 && Balance(log, u, m) > 0)
  {
    hide Exec, Legal, Init, WorldInv, Balance;
    InitInv(w);
    RunInv(w, steps);
    BalancesExclude(Exec(w, steps), t, u, m);
  }

  lemma BalancesExclude(w: World, t: Thread, u: Thread, m: Mutex)
    requires WorldInv(w) && t in w.s.dom.threads && u in w.s.dom.threads && t != u && m in w.s.dom.mutexes
    ensures Balance(w.log, t, m) >= 0 && !(Balance(w.log, t, m) > 0 && Balance(w.log, u, m) > 0)
  {
    hide Booked, Balance, WaitsWf, QueuesWf, DomainWf;
  }

  /** The recursion count wraps exactly at its 32-bit limit, and then the
      owner can no longer release the mutex. */
  lemma RecursionLimit(s: State, t: Thread, m: Mutex, timeout: nat, elapsed: nat)
    requires Inv(s) && t in s.dom.threads && m in s.dom.mutexes && s.holds.owner[m] == t
    ensures var r := Lock(s, t, m, timeout, elapsed).0;
            (Unlock(r, t, m).1 == OK <==> s.holds.count[m] < UINT32 - 1)
            && (s.holds.count[m] == UINT32 - 1 ==> Unlock(r, t, m).1 == EINVAL)
  {
    hide Acyclic, QueuesOk, WaitsOk, WaitsWf, QueuesWf, DomainWf, UpdateChain, Released, Parked, DeadlockWalk;
  }

  /** The same lock call `n` times over. */
  ghost function Locks(t: Thread, m: Mutex, n: nat): seq<Step> {
    if n == 0 then [] else [LockStep(t, m, 0, 0)] + Locks(t, m, n - 1)
  }

  lemma LockAgain(w: World, t: Thread, m: Mutex)
    requires WorldWf(w) && t in w.pc && w.pc[t] == Running && m in w.s.dom.mutexes
    requires w.s.holds.owner[m] == t && w.s.holds.count[m] < UINT32 - 1
    ensures Enabled(w, LockStep(t, m, 0, 0))
    ensures var r := Next(w, LockStep(t, m, 0, 0));
            r.pc == w.pc && r.s.holds.owner[m] == t && r.s.holds.count[m] == w.s.holds.count[m] + 1
  {
    hide UpdateChain, DeadlockWalk, Parked, WaitsWf, QueuesWf;
    assert w.pc[t := Running] == w.pc;
  }

  lemma {:induction false} LockMore(w: World, t: Thread, m: Mutex, n: nat)
    requires WorldWf(w) && t in w.pc && w.pc[t] == Running && m in w.s.dom.mutexes
    requires w.s.holds.owner[m] == t && w.s.holds.count[m] + n < UINT32
    ensures Legal(w, Locks(t, m, n))
    ensures var r := Exec(w, Locks(t, m, n)).s.holds; r.owner[m] == t && r.count[m] == w.s.holds.count[m] + n
    decreases n
  {
    hide WorldWf, Enabled, Next;
    if n > 0 {
      LockAgain(w, t, m);
      LockMore(Next(w, LockStep(t, m, 0, 0)), t, m, n - 1);
      LegalStep(w, LockStep(t, m, 0, 0), Locks(t, m, n - 1));
    }
  }

  lemma LockFirst(w: World, t: Thread, m: Mutex)
    requires Init(w) && t in w.pc && m in w.s.dom.mutexes
    ensures Enabled(w, LockStep(t, m, 0, 0))
    ensures var r := Next(w, LockStep(t, m, 0, 0));
            r.pc == w.pc && r.pc[t] == Running && r.s.holds.owner[m] == t && r.s.holds.count[m] == 1
  {
    hide UpdateChain, DeadlockWalk, Parked, WaitsWf, QueuesWf;
    assert w.pc[t := Running] == w.pc;
  }

  /** From a quiet start `n` lock calls leave a count of `n`, up to the 32-bit
      limit. */
  lemma LocksCount(w: World, t: Thread, m: Mutex, n: nat)
    requires Init(w) && t in w.pc && m in w.s.dom.mutexes && 0 < n < UINT32
    ensures Legal(w, Locks(t, m, n))
    ensures var h := Exec(w, Locks(t, m, n)).s.holds; h.owner[m] == t && h.count[m] == n
  {
    hide Next, Enabled, Wf, Init, Legal, Exec;
    InitWf(w);
    LockFirst(w, t, m);
    LockMore(Next(w, LockStep(t, m, 0, 0)), t, m, n - 1);
    LegalStep(w, LockStep(t, m, 0, 0), Locks(t, m, n - 1));
  }

  lemma InitWf(w: World)
    requires Init(w)
    ensures WorldWf(w)
  {}

  /** The limit is reached, and there one more lock call takes the mutex out of
      its owner's reach. */
  lemma RecursionLimitReached(w: World, t: Thread, m: Mutex)
    requires Init(w) && t in w.pc && m in w.s.dom.mutexes
    ensures Legal(w, Locks(t, m, UINT32 - 1))
    ensures var r := Exec(w, Locks(t, m, UINT32 - 1)).s;
            Unlock(r, t, m).1 == OK && Unlock(Lock(r, t, m, 0, 0).0, t, m).1 == EINVAL
  {
    hide Lock, Unlock, Legal, Exec, WorldInv, Init, Inv, Locks;
    LocksCount(w, t, m, UINT32 - 1);
    InitInv(w);
    RunInv(w, Locks(t, m, UINT32 - 1));
    var r := Exec(w, Locks(t, m, UINT32 - 1));
    WorldState(r);
    RecursionLimit(r.s, t, m, 0, 0);
    OwnerReleases(r.s, t, m);
  }

  lemma WorldState(w: World)
    requires WorldInv(w)
    ensures Inv(w.s)
  {}
}
