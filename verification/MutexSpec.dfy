/** What each critical section of the FreeRTOS mutex, of its priority
    inheritance walk and of the plain wait queue does to the kernel state. */
module MutexSpec {
  import opened MachineInts
  import opened Objects
  import opened Lists
  import opened ThreadQueue

  const MAX_CHAIN: nat := 16

  /** The objects of the system. */
  datatype Domain = Domain(threads: set<Thread>, mutexes: set<Mutex>, queues: set<WaitQ>)

  /** Where each thread waits: one map per field. */
  datatype Waits = Waits(waitQ: map<Thread, WaitQ?>, waiting: map<Thread, Mutex?>)

  /** Who holds each mutex: one map per field. */
  datatype Holds = Holds(owned: map<Thread, seq<Mutex>>, owner: map<Mutex, Thread?>, count: map<Mutex, nat>)

  datatype State = State(
    dom: Domain,
    waits: Waits,
    holds: Holds,
    base: Priorities,
    prio: Priorities,
    queue: map<WaitQ, seq<Thread>>)

  /** Every mutex has a wait queue of its own. */
  ghost predicate DomainWf(d: Domain) {
    && (forall m {:trigger m.waitQ} :: m in d.mutexes ==> m.waitQ in d.queues)
    && (forall m, n {:trigger m.waitQ, n.waitQ} ::
         m in d.mutexes && n in d.mutexes && m.waitQ == n.waitQ ==> m == n)
  }

  ghost predicate WaitsWf(d: Domain, w: Waits) {
    && w.waitQ.Keys == d.threads && w.waiting.Keys == d.threads
    && (forall t {:trigger w.waitQ[t]} :: t in d.threads && w.waitQ[t] != null ==> w.waitQ[t] in d.queues)
    && (forall t {:trigger w.waiting[t]} :: t in d.threads && w.waiting[t] != null ==> w.waiting[t] in d.mutexes)
  }

  ghost predicate HoldsWf(d: Domain, h: Holds) {
    && h.owned.Keys == d.threads && h.owner.Keys == d.mutexes && h.count.Keys == d.mutexes
    && (forall t, m {:trigger m in h.owned[t]} :: t in d.threads && m in h.owned[t] ==> m in d.mutexes)
    && (forall m {:trigger h.owner[m]} :: m in d.mutexes && h.owner[m] != null ==> h.owner[m] in d.threads)
  }

  ghost predicate QueuesWf(d: Domain, queue: map<WaitQ, seq<Thread>>) {
    && queue.Keys == d.queues
    && (forall q, t {:trigger t in queue[q]} :: q in d.queues && t in queue[q] ==> t in d.threads)
  }

  /** Every pointer leads to an object of the system. */
  ghost predicate Wf(s: State) {
    && DomainWf(s.dom) && WaitsWf(s.dom, s.waits) && HoldsWf(s.dom, s.holds)
    && s.base.Keys == s.dom.threads && s.prio.Keys == s.dom.threads && QueuesWf(s.dom, s.queue)
  }

  ghost predicate IsMutexQ(d: Domain, q: WaitQ) {
    exists m :: m in d.mutexes && m.waitQ == q
  }

  // ---- Priority inheritance

  /** The threads queued on the given mutexes, in scan order. */
  ghost function Waiters(queue: map<WaitQ, seq<Thread>>, ms: seq<Mutex>): seq<Thread>
    requires forall m :: m in ms ==> m.waitQ in queue
  {
    if ms == [] then []
    else Waiters(queue, ms[..|ms| - 1]) + queue[ms[|ms| - 1].waitQ]
  }

  lemma {:induction false} WaitersKnown(queue: map<WaitQ, seq<Thread>>, prio: Priorities, ms: seq<Mutex>)
    requires forall m :: m in ms ==> m.waitQ in queue && Known(prio, queue[m.waitQ])
    ensures Known(prio, Waiters(queue, ms))
    ensures forall w :: w in Waiters(queue, ms) <==> exists m :: m in ms && w in queue[m.waitQ]
  {
    if ms != [] {
      WaitersKnown(queue, prio, ms[..|ms| - 1]);
      assert ms == ms[..|ms| - 1] + [ms[|ms| - 1]];
    }
  }

  /** The highest priority among `ws`, or `floor` if that is higher. */
  ghost function Highest(prio: Priorities, ws: seq<Thread>, floor: int): (p: int)
    requires Known(prio, ws)
    ensures p >= floor
    ensures forall i :: 0 <= i < |ws| ==> prio[ws[i]] <= p
    ensures p == floor || exists i :: 0 <= i < |ws| && prio[ws[i]] == p
  {
    if ws == [] then floor
    else
      var p := Highest(prio, ws[..|ws| - 1], floor);
      var last := prio[ws[|ws| - 1]];
      if last > p then last else p
  }

  ghost function Effective(s: State, t: Thread): int
    requires Wf(s) && t in s.dom.threads
  {
    WaitersKnown(s.queue, s.prio, s.holds.owned[t]);
    Highest(s.prio, Waiters(s.queue, s.holds.owned[t]), s.base[t])
  }

  /** The native priorities once that of `t` is brought up to date. */
  ghost function Refreshed(s: State, t: Thread): (prio: Priorities)
    requires Wf(s) && t in s.dom.threads
    ensures prio.Keys == s.prio.Keys
    ensures forall x :: x in s.prio && x != t ==> prio[x] == s.prio[x]
    ensures Effective(s, t) >= 0 ==> prio[t] == Effective(s, t)
  {
    var p := Effective(s, t);
    if p >= 0 && s.prio[t] != p then s.prio[t := p] else s.prio
  }

  /** The queue contents `q` with `t` moved to where its priority puts it. */
  ghost function Moved(prio: Priorities, q: seq<Thread>, t: Thread): (r: seq<Thread>)
    requires Known(prio, q) && t in prio
    ensures Known(prio, r)
    ensures t in q ==> multiset(r) == multiset(q)
  {
    assert forall x :: x in Without(q, t) ==> x in q;
    Insert(prio, Without(q, t), t)
  }

  /** One thread of the chain walk: refresh its native priority, and move it
      to its new place in the queue of the mutex it awaits. */
  ghost function Visit(s: State, t: Thread): (r: State)
    requires Wf(s) && t in s.dom.threads
    ensures Wf(r) && r == s.(prio := r.prio, queue := r.queue)
  {
    var prio := Refreshed(s, t);
    var m := s.waits.waiting[t];
    if m == null then s.(prio := prio)
    else
      s.(prio := prio, queue := s.queue[m.waitQ := Moved(prio, s.queue[m.waitQ], t)])
  }

  ghost function UpdateChain(s: State, t: Thread?, visited: seq<Thread>): (r: State)
    requires Wf(s) && (t != null ==> t in s.dom.threads)
    ensures Wf(r) && r == s.(prio := r.prio, queue := r.queue)
    decreases MAX_CHAIN - |visited|
  {
    if t == null || |visited| >= MAX_CHAIN || t in visited then s
    else
      var s1 := Visit(s, t);
      if s.waits.waiting[t] == null then s1
      else UpdateChain(s1, s.holds.owner[s.waits.waiting[t]], visited + [t])
  }

  /** The owner walk: does it meet `t`, or run out of its budget of owners? */
  ghost predicate DeadlockWalk(s: State, t: Thread, o: Thread?, fuel: nat)
    requires Wf(s) && (o != null ==> o in s.dom.threads)
    decreases fuel
  {
    if o == null then false
    else if fuel == 0 || o == t then true
    else if s.waits.waiting[o] == null then false
    else DeadlockWalk(s, t, s.holds.owner[s.waits.waiting[o]], fuel - 1)
  }

  // ---- Mutex

  datatype Outcome = Done(code: Code) | Blocked | Retry

  /** The critical section at the top of the locking loop. */
  ghost function Lock(s: State, t: Thread, m: Mutex, timeout: nat, elapsed: nat): (r: (State, Outcome))
    requires Wf(s) && t in s.dom.threads && m in s.dom.mutexes
    ensures Wf(r.0) && r.0.dom == s.dom
  {
    var h := s.holds;
    if h.owner[m] == null then (s.(holds := Taken(h, t, m)), Done(OK))
    else if h.owner[m] == t then
      (s.(holds := h.(count := h.count[m := (h.count[m] + 1) % UINT32])), Done(OK))
    else if timeout == 0 then (s, Done(EBUSY))
    else if DeadlockWalk(s, t, h.owner[m], MAX_CHAIN) then (s, Done(EDEADLK))
    else if timeout != WAIT_FOREVER && elapsed >= timeout then (s, Done(ETIMEDOUT))
    else (UpdateChain(Parked(s, t, m.waitQ, m), h.owner[m], []), Blocked)
  }

  ghost function Taken(h: Holds, t: Thread, m: Mutex): Holds
    requires t in h.owned
  {
    Holds(h.owned[t := h.owned[t] + [m]], h.owner[m := t], h.count[m := 1])
  }

  ghost function WaitAt(w: Waits, t: Thread, q: WaitQ?, m: Mutex?): Waits {
    Waits(w.waitQ[t := q], w.waiting[t := m])
  }

  /** `t` linked into queue `q`, awaiting `m`; no priority recomputed yet. */
  ghost function Parked(s: State, t: Thread, q: WaitQ, m: Mutex?): (r: State)
    requires Wf(s) && t in s.dom.threads && q in s.dom.queues && (m != null ==> m in s.dom.mutexes)
    ensures Wf(r) && r == s.(waits := r.waits, queue := r.queue)
  {
    assert forall x :: x in Insert(s.prio, s.queue[q], t) ==> x in multiset(s.queue[q]) || x == t;
    s.(waits := WaitAt(s.waits, t, q, m), queue := s.queue[q := Insert(s.prio, s.queue[q], t)])
  }

  /** The critical section after the notification wait of a blocked locker:
      still linked means nobody handed the mutex over in time. */
  ghost function Resume(s: State, t: Thread, m: Mutex, notified: bool): (r: (State, Outcome))
    requires Wf(s) && t in s.dom.threads && m in s.dom.mutexes
    ensures Wf(r.0) && r.0.dom == s.dom
  {
    if s.waits.waitQ[t] != null then
      (UpdateChain(Unparked(s, t, null), s.holds.owner[m], []),
       Done(if notified then EAGAIN else ETIMEDOUT))
    else
      (s.(waits := s.waits.(waiting := s.waits.waiting[t := null])), Retry)
  }

  /** `t` unlinked from its queue, and left awaiting `m`. */
  ghost function Unparked(s: State, t: Thread, m: Mutex?): (r: State)
    requires Wf(s) && t in s.dom.threads && s.waits.waitQ[t] != null && (m != null ==> m in s.dom.mutexes)
    ensures Wf(r) && r == s.(waits := r.waits, queue := r.queue)
  {
    var q := s.waits.waitQ[t];
    assert forall x :: x in Without(s.queue[q], t) ==> x in s.queue[q];
    s.(waits := WaitAt(s.waits, t, null, m), queue := s.queue[q := Without(s.queue[q], t)])
  }

  ghost function Unlock(s: State, t: Thread, m: Mutex): (r: (State, Code))
    requires Wf(s) && t in s.dom.threads && m in s.dom.mutexes
    ensures Wf(r.0) && r.0.dom == s.dom
  {
    var h := s.holds;
    if h.owner[m] != t then (s, EPERM)
    else if h.count[m] == 0 then (s, EINVAL)
    else if h.count[m] - 1 > 0 then (s.(holds := h.(count := h.count[m := h.count[m] - 1])), OK)
    else (UpdateChain(Released(s, t, m), t, []), OK)
  }

  /** `m` free again and its first waiter, if any, unlinked. */
  ghost function Released(s: State, t: Thread, m: Mutex): (r: State)
    requires Wf(s) && t in s.dom.threads && m in s.dom.mutexes
    ensures Wf(r) && r.dom == s.dom
  {
    var s1, q := s.(holds := Freed(s.holds, t, m)), s.queue[m.waitQ];
    assert forall x :: x in Without(s.holds.owned[t], m) ==> x in s.holds.owned[t];
    if q == [] then s1 else PopHead(s1, m.waitQ, null)
  }

  ghost function Freed(h: Holds, t: Thread, m: Mutex): Holds
    requires t in h.owned
  {
    Holds(h.owned[t := Without(h.owned[t], m)], h.owner[m := null], h.count[m := 0])
  }

  /** The head of `q` unlinked, and left awaiting `m`. */
  ghost function PopHead(s: State, q: WaitQ, m: Mutex?): (r: State)
    requires Wf(s) && q in s.dom.queues && s.queue[q] != [] && (m != null ==> m in s.dom.mutexes)
    ensures Wf(r) && r == s.(waits := r.waits, queue := r.queue)
  {
    assert s.queue[q][0] in s.queue[q] && forall x :: x in s.queue[q][1..] ==> x in s.queue[q];
    s.(waits := WaitAt(s.waits, s.queue[q][0], null, m), queue := s.queue[q := s.queue[q][1..]])
  }

  ghost function SetPriority(s: State, t: Thread, p: int): (r: State)
    requires Wf(s) && t in s.dom.threads
    ensures Wf(r) && r.dom == s.dom
  {
    Replaced(UpdateChain(s.(base := s.base[t := p]), t, []), t)
  }

  /** A thread on a plain wait queue moved to its new place there. */
  ghost function Replaced(s: State, t: Thread): (r: State)
    requires Wf(s) && t in s.dom.threads
    ensures Wf(r) && r.dom == s.dom
  {
    var q := s.waits.waitQ[t];
    if q != null && s.waits.waiting[t] == null then
      s.(queue := s.queue[q := Moved(s.prio, s.queue[q], t)])
    else s
  }

  // ---- Plain wait queues

  ghost function Block(s: State, t: Thread, q: WaitQ): (r: State)
    requires Wf(s) && t in s.dom.threads && q in s.dom.queues
    ensures Wf(r) && r.dom == s.dom
  {
    Parked(s, t, q, s.waits.waiting[t])
  }

  /** What a plain wait returns. */
  datatype WaitResult = WokenFor(reason: nat) | TimedOut

  /** The critical section after the notification wait of a plain blocker. */
  ghost function Unblock(s: State, t: Thread): (r: State)
    requires Wf(s) && t in s.dom.threads
    ensures Wf(r) && r.dom == s.dom
  {
    if s.waits.waitQ[t] != null then Unparked(s, t, s.waits.waiting[t]) else s
  }

  ghost function WakeOne(s: State, q: WaitQ): (r: State)
    requires Wf(s) && q in s.dom.queues
    ensures Wf(r) && r.dom == s.dom
  {
    if s.queue[q] == [] then s
    else
      assert s.queue[q][0] in s.queue[q];
      PopHead(s, q, s.waits.waiting[s.queue[q][0]])
  }

  ghost function WakeAll(s: State, q: WaitQ): (r: State)
    requires Wf(s) && q in s.dom.queues
    ensures Wf(r) && r.dom == s.dom
    decreases |s.queue[q]|
  {
    if s.queue[q] == [] then s else WakeAll(WakeOne(s, q), q)
  }
}
