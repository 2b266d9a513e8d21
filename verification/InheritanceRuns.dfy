/** Priority inheritance over whole runs, and the exact point where it fails. */
module InheritanceRuns {
  import opened MachineInts
  import opened Objects
  import opened WaitGraph
  import opened Lists
  import opened ThreadQueue
  import opened MutexSpec
  import opened MutexInvariants
  import opened MutexSteps
  import opened MutexRuns
  import opened InheritanceLaw
  import opened PriorityInheritance

  /** Every thread runs at the priority it should. */
  ghost predicate InStep(s: State)
    requires Wf(s)
  {
    BasesValid(s) && AllUpToDate(s)
  }

  // ---- Changing the graph around one thread

  lemma SameWaiters(g: Graph, h: Graph, base: Priorities, prio: Priorities, x: Thread)
    requires Fits(g, base, prio) && Fits(h, base, prio) && x in g && Settled(g, base, prio, x)
    requires forall w {:trigger h[w]} :: w in g ==> (h[w] == x <==> g[w] == x)
    ensures Settled(h, base, prio, x)
  {}

  /** All threads but `t` keep their direct waiters, so only the chain below
      `t` can be out of date. */
  lemma OnlyBelow(s: State, r: State, t: Thread?)
    requires Wf(s) && Wf(r) && AllUpToDate(s) && (t != null ==> t in s.dom.threads)
    requires r.dom == s.dom && r.base == s.base && r.prio == s.prio
    requires forall w, x {:trigger WaitFor(r)[w], WaitFor(s)[x]} ::
               w in s.dom.threads && x in s.dom.threads && x != t ==>
                 (WaitFor(r)[w] == x <==> WaitFor(s)[w] == x)
    ensures ElsewhereUpToDate(r, t)
  {
    hide WaitsWf, HoldsWf, QueuesWf, DomainWf, Settled;
    forall x | x in s.dom.threads && !Reaches(WaitFor(r), t, x) ensures UpToDate(r, x) {
      assert Hop(WaitFor(r), t, 0) == t;
      assert UpToDate(s, x) && WaitFor(s)[x] == WaitFor(s)[x];
      SameWaiters(WaitFor(s), WaitFor(r), s.base, s.prio, x);
    }
  }

  lemma RepairedInStep(s: State, t: Thread?)
    requires Inv(s) && BasesValid(s) && (t != null ==> t in s.dom.threads)
    requires Hop(WaitFor(s), t, MAX_CHAIN) == null && ElsewhereUpToDate(s, t)
    ensures InStep(UpdateChain(s, t, []))
  {
    hide UpdateChain, Inv, ElsewhereUpToDate, AllUpToDate;
    ChainRepair(s, t);
  }

  // ---- Blocking, timing out, releasing, changing a base priority

  lemma ParkedEdges(s: State, t: Thread, m: Mutex)
    requires Inv(s) && t in s.dom.threads && m in s.dom.mutexes && s.waits.waitQ[t] == null
    ensures WaitFor(s)[t] == null
    ensures WaitFor(Parked(s, t, m.waitQ, m)) == WaitFor(s)[t := s.holds.owner[m]]
  {
    hide Insert, HoldsOk, QueuesOk, Acyclic, QueuesWf;
  }

  lemma UnparkedEdges(s: State, t: Thread)
    requires Wf(s) && t in s.dom.threads && s.waits.waitQ[t] != null
    ensures WaitFor(Unparked(s, t, null)) == WaitFor(s)[t := null]
  {
    hide Without;
  }

  lemma ParkedInStep(s: State, t: Thread, m: Mutex)
    requires Inv(s) && InStep(s) && t in s.dom.threads && m in s.dom.mutexes && s.waits.waitQ[t] == null
    requires s.holds.owner[m] != null && !DeadlockWalk(s, t, s.holds.owner[m], MAX_CHAIN)
    ensures InStep(UpdateChain(Parked(s, t, m.waitQ, m), s.holds.owner[m], []))
  {
    var r, o, g := Parked(s, t, m.waitQ, m), s.holds.owner[m], WaitFor(s);
    ParkedEdges(s, t, m);
    hide UpdateChain, Parked, DeadlockWalk, QueuesOk, WaitsOk, HoldsOk, Acyclic, AllUpToDate, Reaches;
    DeadlockWalkExact(s, t, o, MAX_CHAIN);
    ParkedKeeps(s, t, m);
    AvoidHop(g, t, o, o, MAX_CHAIN);
    OnlyBelow(s, r, o);
    RepairedInStep(r, o);
  }

  lemma UnparkedInStep(s: State, t: Thread, m: Mutex)
    requires Inv(s) && InStep(s) && t in s.dom.threads && s.waits.waiting[t] == m && m in s.dom.mutexes
    requires s.waits.waitQ[t] != null && Hop(WaitFor(s), s.holds.owner[m], MAX_CHAIN) == null
    ensures InStep(UpdateChain(Unparked(s, t, null), s.holds.owner[m], []))
  {
    hide UpdateChain, Unparked, QueuesOk, WaitsOk, HoldsOk, Acyclic, AllUpToDate, DomainWf, QueuesWf;
    var r, o, g := Unparked(s, t, null), s.holds.owner[m], WaitFor(s);
    UnparkedEdges(s, t);
    UnparkedKeeps(s, t);
    CutHop(g, WaitFor(r), o, MAX_CHAIN);
    OnlyBelow(s, r, o);
    RepairedInStep(r, o);
  }

  lemma ReleasedInStep(s: State, t: Thread, m: Mutex)
    requires Inv(s) && InStep(s) && t in s.dom.threads && s.waits.waiting[t] == null
    requires m in s.dom.mutexes && s.holds.owner[m] == t
    ensures InStep(UpdateChain(Released(s, t, m), t, []))
  {
    var r := Released(s, t, m);
    ReleasedEdges(s, t, m);
    hide UpdateChain, Released, QueuesOk, WaitsOk, HoldsOk, Acyclic, AllUpToDate;
    ReleasedKeeps(s, t, m);
    assert Hop(WaitFor(r), t, MAX_CHAIN) == Hop(WaitFor(r), null, MAX_CHAIN - 1);
    OnlyBelow(s, r, t);
    RepairedInStep(r, t);
  }

  lemma ReleasedEdges(s: State, t: Thread, m: Mutex)
    requires Inv(s) && t in s.dom.threads && m in s.dom.mutexes && s.holds.owner[m] == t
    ensures var r := Released(s, t, m);
            && r.base == s.base && r.prio == s.prio
            && (forall w {:trigger WaitFor(r)[w]} :: w in s.dom.threads ==>
                  WaitFor(r)[w] == if s.waits.waiting[w] == m then null else WaitFor(s)[w])
  {
    hide Acyclic, Without, HoldsOk, QueuesOk, Released, QueuesWf, DomainWf;
    ReleasedShape(s, t, m);
    if s.queue[m.waitQ] != [] {
      HeadHighest(s, m);
    }
  }

  lemma PriorityInStep(s: State, t: Thread, p: int)
    requires Inv(s) && InStep(s) && t in s.dom.threads && p >= 0
    requires Hop(WaitFor(s), t, MAX_CHAIN) == null
    ensures InStep(SetPriority(s, t, p))
  {
    hide UpdateChain, Inv, AllSettled, ElsewhereUpToDate;
    var r := s.(base := s.base[t := p]);
    RebasedInv(s, t, p);
    RebasedElsewhere(s, t, p);
    RepairedInStep(r, t);
  }

  lemma RebasedInv(s: State, t: Thread, p: int)
    requires Inv(s) && t in s.dom.threads
    ensures var r := s.(base := s.base[t := p]); Inv(r) && WaitFor(r) == WaitFor(s)
  {
    hide QueuesLinked, QueuesSorted, WaitsOk, HoldsOk, Acyclic;
  }

  lemma RebasedElsewhere(s: State, t: Thread, p: int)
    requires Wf(s) && AllUpToDate(s) && t in s.dom.threads
    ensures ElsewhereUpToDate(s.(base := s.base[t := p]), t)
  {
    var r := s.(base := s.base[t := p]);
    assert WaitFor(r) == WaitFor(s) && Hop(WaitFor(s), t, 0) == t;
    forall x | x in s.dom.threads && x != t ensures UpToDate(r, x) {
      assert UpToDate(s, x);
    }
  }

  // ---- Acquiring a free mutex

  /** Nobody queues for `m`, or `t` is no lower than the first in the queue. */
  ghost predicate NotBelowHead(s: State, t: Thread, m: Mutex)
    requires Wf(s) && t in s.dom.threads && m in s.dom.mutexes
  {
    var q := s.queue[m.waitQ];
    q == [] || (q[0] in q && s.prio[t] >= s.prio[q[0]])
  }

  /** Taking a free mutex recomputes nothing. The new owner is in step exactly
      when nobody queues for the mutex or it is no lower than the queue head. */
  lemma TakenInStepIff(s: State, t: Thread, m: Mutex)
    requires Inv(s) && InStep(s) && t in s.dom.threads && s.waits.waiting[t] == null
    requires m in s.dom.mutexes && s.holds.owner[m] == null
    ensures InStep(s.(holds := Taken(s.holds, t, m))) <==> NotBelowHead(s, t, m)
  {
    var q, r := s.queue[m.waitQ], s.(holds := Taken(s.holds, t, m));
    TakenKeeps(s, t, m);
    hide QueuesLinked, Acyclic, HoldsOk, WaitsOk;
    forall w | w in s.dom.threads
      ensures WaitFor(r)[w] == if s.waits.waiting[w] == m then t else WaitFor(s)[w]
      ensures s.waits.waiting[w] == m <==> w in q
      ensures s.waits.waiting[w] == m ==> WaitFor(s)[w] == null
    {
      QueuedIffWaiting(s, w, m);
    }
    hide Inv;
    TakenSettled(WaitFor(s), WaitFor(r), s.base, s.prio, t, q);
  }

  lemma QueuedIffWaiting(s: State, w: Thread, m: Mutex)
    requires Inv(s) && w in s.dom.threads && m in s.dom.mutexes
    ensures w in s.queue[m.waitQ] <==> s.waits.waiting[w] == m
  {}

  lemma TakenSettled(g: Graph, h: Graph, base: Priorities, prio: Priorities, t: Thread, q: seq<Thread>)
    requires Fits(g, base, prio) && Fits(h, base, prio) && t in g && AllSettled(g, base, prio)
    requires Known(prio, q) && Sorted(prio, q)
    requires forall w {:trigger h[w]} :: w in g ==> h[w] == (if w in q then t else g[w])
    requires forall w :: w in q ==> g[w] == null
    ensures AllSettled(h, base, prio) <==> (q == [] || prio[t] >= prio[q[0]])
  {
    if AllSettled(h, base, prio) && q != [] {
      assert Settled(h, base, prio, t) && q[0] in q && h[q[0]] == t;
    }
    if q == [] || prio[t] >= prio[q[0]] {
      forall x | x in g ensures Settled(h, base, prio, x) {
        assert Settled(g, base, prio, x);
        if x == t {
          assert forall w :: w in q ==> prio[w] <= prio[q[0]];
        }
      }
    }
  }

  // ---- Runs

  /** What the caller must see to: a barging thread is not below the waiters
      it passes, chains fit the depth limit where a walk starts without the
      deadlock check having measured them, and base priorities are valid. */
  ghost predicate Disciplined(w: World, step: Step)
    requires WorldWf(w) && Enabled(w, step)
  {
    match step
    case LockStep(t, m, _, _) => w.s.holds.owner[m] == null ==> NotBelowHead(w.s, t, m)
    case ResumeStep(t, _) =>
      w.s.waits.waitQ[t] != null ==> Hop(WaitFor(w.s), w.s.holds.owner[w.pc[t].m], MAX_CHAIN) == null
    case PriorityStep(t, p) => p >= 0 && Hop(WaitFor(w.s), t, MAX_CHAIN) == null
    case _ => true
  }

  ghost predicate DisciplinedRun(w: World, steps: seq<Step>)
    requires WorldWf(w) && Legal(w, steps)
    decreases |steps|
  {
    steps != [] ==> Disciplined(w, steps[0]) && DisciplinedRun(Next(w, steps[0]), steps[1..])
  }

  lemma LockInStep(w: World, t: Thread, m: Mutex, timeout: nat, elapsed: nat)
    requires WorldInv(w) && InStep(w.s) && Enabled(w, LockStep(t, m, timeout, elapsed))
    requires Disciplined(w, LockStep(t, m, timeout, elapsed))
    ensures InStep(Lock(w.s, t, m, timeout, elapsed).0)
  {
    hide Lock, InStep, NotBelowHead, Booked, Balanced;
    Unlinked(w.s, w.pc, t);
    BookedInv(w.s, w.pc);
    if w.s.holds.owner[m] == null {
      LockFreeInStep(w.s, t, m, timeout, elapsed);
    } else {
      LockHeldInStep(w.s, t, m, timeout, elapsed);
    }
  }

  lemma LockFreeInStep(s: State, t: Thread, m: Mutex, timeout: nat, elapsed: nat)
    requires Inv(s) && InStep(s) && t in s.dom.threads && s.waits.waiting[t] == null
    requires m in s.dom.mutexes && s.holds.owner[m] == null && NotBelowHead(s, t, m)
    ensures InStep(Lock(s, t, m, timeout, elapsed).0)
  {
    hide UpdateChain, DeadlockWalk, Parked, InStep, NotBelowHead, QueuesOk, WaitsOk, HoldsOk, Acyclic;
    TakenInStepIff(s, t, m);
  }

  lemma LockHeldInStep(s: State, t: Thread, m: Mutex, timeout: nat, elapsed: nat)
    requires Inv(s) && InStep(s) && t in s.dom.threads && s.waits.waitQ[t] == null
    requires m in s.dom.mutexes && s.holds.owner[m] != null
    ensures InStep(Lock(s, t, m, timeout, elapsed).0)
  {
    hide UpdateChain, DeadlockWalk, Parked, InStep, Inv, WaitsWf, QueuesWf;
    if s.holds.owner[m] == t {
      CountInStep(s, m, (s.holds.count[m] + 1) % UINT32);
    } else if !DeadlockWalk(s, t, s.holds.owner[m], MAX_CHAIN) {
      ParkedInStep(s, t, m);
    }
  }

  lemma CountInStep(s: State, m: Mutex, n: nat)
    requires Wf(s) && InStep(s) && m in s.dom.mutexes
    ensures InStep(s.(holds := s.holds.(count := s.holds.count[m := n])))
  {
    hide Settled;
    var r := s.(holds := s.holds.(count := s.holds.count[m := n]));
    assert WaitFor(r) == WaitFor(s);
  }

  lemma ResumeInStep(w: World, t: Thread, notified: bool)
    requires WorldInv(w) && InStep(w.s) && Enabled(w, ResumeStep(t, notified))
    requires Disciplined(w, ResumeStep(t, notified))
    ensures InStep(Resume(w.s, t, w.pc[t].m, notified).0)
  {
    var s, m := w.s, w.pc[t].m;
    hide UpdateChain, Unparked, InStep, Balanced, Booked;
    if s.waits.waitQ[t] != null {
      QueuedOnIts(s, w.pc, t);
      UnparkedInStep(s, t, m);
    } else {
      QuietRetry(s, w.pc, t);
    }
  }

  lemma QueuedOnIts(s: State, pc: map<Thread, Pc>, t: Thread)
    requires Booked(s, pc) && t in pc && pc[t].BlockedOn? && s.waits.waitQ[t] != null
    ensures Inv(s) && s.waits.waiting[t] == pc[t].m
  {
    hide Inv, NoLostWakeup;
  }

  lemma UnlockInStep(w: World, t: Thread, m: Mutex)
    requires WorldInv(w) && InStep(w.s) && Enabled(w, UnlockStep(t, m))
    ensures InStep(Unlock(w.s, t, m).0)
  {
    var s := w.s;
    hide UpdateChain, Released, InStep, Balanced, Bookkeeping, QueuesOk, WaitsOk, HoldsOk, Acyclic,
         WaitsWf, QueuesWf, DomainWf;
    Unlinked(s, w.pc, t);
    if s.holds.owner[m] == t {
      if s.holds.count[m] > 1 {
        CountInStep(s, m, s.holds.count[m] - 1);
      } else {
        HeldCount(s, m);
        ReleasedInStep(s, t, m);
      }
    }
  }

  /** Plain waiting changes neither priorities nor the graph. */
  lemma PlainInStep(s: State, r: State)
    requires Wf(s) && Wf(r) && InStep(s) && r.dom == s.dom
    requires r.base == s.base && r.prio == s.prio && r.holds == s.holds && r.waits.waiting == s.waits.waiting
    ensures InStep(r)
  {
    hide Settled;
    assert WaitFor(r) == WaitFor(s);
  }

  lemma {:induction false} WakeAllFrame(s: State, q: WaitQ)
    requires Wf(s) && q in s.dom.queues
    ensures var r := WakeAll(s, q);
            r.holds == s.holds && r.waits.waiting == s.waits.waiting && r.base == s.base && r.prio == s.prio
    decreases |s.queue[q]|
  {
    if s.queue[q] != [] {
      WakeOneFrame(s, q);
      WakeAllFrame(WakeOne(s, q), q);
    }
  }

  lemma StepInStep(w: World, step: Step)
    requires WorldInv(w) && InStep(w.s) && Enabled(w, step) && Disciplined(w, step)
    ensures InStep(Next(w, step).s)
  {
    hide InStep, Booked, Balanced, Lock, Resume, Unlock, SetPriority, NotBelowHead, Insert, Without;
    match step
    case LockStep(t, m, timeout, elapsed) => LockInStep(w, t, m, timeout, elapsed);
    case ResumeStep(t, notified) => ResumeInStep(w, t, notified);
    case UnlockStep(t, m) => UnlockInStep(w, t, m);
    case PriorityStep(t, p) => BookedInv(w.s, w.pc); PriorityInStep(w.s, t, p);
    case _ =>
      PlainStep(w, step);
      PlainInStep(w.s, Next(w, step).s);
  }

  lemma BookedInv(s: State, pc: map<Thread, Pc>)
    requires Booked(s, pc)
    ensures Inv(s)
  {}

  lemma PlainStep(w: World, step: Step)
    requires WorldWf(w) && Enabled(w, step)
    requires step.BlockStep? || step.UnblockStep? || step.WakeOneStep? || step.WakeAllStep?
    ensures var r, s := Next(w, step).s, w.s;
            r.holds == s.holds && r.waits.waiting == s.waits.waiting && r.base == s.base && r.prio == s.prio
  {
    hide Block, Unblock, WakeOne, WakeAll, Wf;
    match step
    case BlockStep(t, q) => BlockFrame(w.s, t, q);
    case UnblockStep(t) => UnblockFrame(w.s, t);
    case WakeOneStep(q) => WakeOneFrame(w.s, q);
    case WakeAllStep(q) => WakeAllFrame(w.s, q);
    case _ =>
  }

  lemma BlockFrame(s: State, t: Thread, q: WaitQ)
    requires Wf(s) && t in s.dom.threads && q in s.dom.queues
    ensures var r := Block(s, t, q);
            r.holds == s.holds && r.waits.waiting == s.waits.waiting && r.base == s.base && r.prio == s.prio
  {
    hide Insert;
    assert s.waits.waiting == s.waits.waiting[t := s.waits.waiting[t]];
  }

  lemma UnblockFrame(s: State, t: Thread)
    requires Wf(s) && t in s.dom.threads
    ensures var r := Unblock(s, t);
            r.holds == s.holds && r.waits.waiting == s.waits.waiting && r.base == s.base && r.prio == s.prio
  {
    hide Without;
    assert s.waits.waiting == s.waits.waiting[t := s.waits.waiting[t]];
  }

  lemma WakeOneFrame(s: State, q: WaitQ)
    requires Wf(s) && q in s.dom.queues
    ensures var r := WakeOne(s, q);
            r.holds == s.holds && r.waits.waiting == s.waits.waiting && r.base == s.base && r.prio == s.prio
  {
    if s.queue[q] != [] {
      HeadCut(s.queue[q]);
      var h := s.queue[q][0];
      assert s.waits.waiting == s.waits.waiting[h := s.waits.waiting[h]];
    }
  }

  lemma {:induction false} RunInStep(w: World, steps: seq<Step>)
    requires WorldInv(w) && InStep(w.s) && Legal(w, steps) && DisciplinedRun(w, steps)
    ensures InStep(Exec(w, steps).s)
    decreases |steps|
  {
    hide WorldInv, InStep, Next, Enabled, Disciplined;
    if steps != [] {
      StepKeeps(w, steps[0]);
      StepInStep(w, steps[0]);
      RunInStep(Next(w, steps[0]), steps[1..]);
    }
  }

  /** Transitive priority inheritance: after any disciplined run each thread
      has the highest base priority among itself and all threads transitively
      blocked on mutexes it owns. */
  lemma RunInherits(w: World, steps: seq<Step>)
    requires Init(w) && Legal(w, steps) && DisciplinedRun(w, steps)
    ensures var r := Exec(w, steps).s; AllInherited(WaitFor(r), r.base, r.prio)
  {
    var r := Exec(w, steps);
    InitInStep(w);
    InitInv(w);
    RunInv(w, steps);
    RunInStep(w, steps);
    hide Exec, Legal, DisciplinedRun, Init, Bookkeeping, Balanced, QueuesOk, WaitsOk, HoldsOk, Acyclic,
         AllSettled, AllInherited;
    SettledIffInherited(WaitFor(r.s), r.s.base, r.s.prio);
  }

  lemma InitInStep(w: World)
    requires Init(w)
    ensures InStep(w.s)
  {}
}
