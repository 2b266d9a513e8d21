/** A run on which priority inheritance fails: a low thread takes a mutex back
    past a higher thread that still queues for it. */
module BargingRun {
  import opened MachineInts
  import opened Objects
  import opened WaitGraph
  import opened MutexSpec
  import opened MutexInvariants
  import opened MutexSteps
  import opened MutexRuns
  import opened InheritanceLaw
  import opened PriorityInheritance
  import opened InheritanceRuns

  /** Everything is in order, and `a` is outside all calls and waits for nobody. */
  ghost predicate Calm(w: World, a: Thread)
    ensures Calm(w, a) ==> WorldWf(w)
  {
    WorldInv(w) && InStep(w.s) && a in w.pc && w.pc[a] == Running && w.s.waits.waiting[a] == null
  }

  /** A lock call that waits as long as it takes. */
  function Patient(t: Thread, m: Mutex): Step {
    LockStep(t, m, WAIT_FOREVER, 0)
  }

  lemma CalmStep(w: World, step: Step)
    requires WorldInv(w) && InStep(w.s) && Enabled(w, step) && Disciplined(w, step)
    ensures WorldInv(Next(w, step)) && InStep(Next(w, step).s)
  {
    hide WorldInv, InStep, Next, Enabled, Disciplined;
    StepKeeps(w, step);
    StepInStep(w, step);
  }

  /** `a` takes the mutex while nobody uses it. */
  lemma TakeFirst(w: World, a: Thread, m: Mutex)
    requires Init(w) && a in w.pc && m in w.s.dom.mutexes
    ensures Calm(w, a) && Enabled(w, Patient(a, m)) && Disciplined(w, Patient(a, m))
    ensures var r := Next(w, Patient(a, m));
            && Calm(r, a) && r.pc == w.pc && r.s.base == w.s.base && r.s.waits == w.s.waits
            && r.s.holds.owner[m] == a && r.s.holds.count[m] == 1 && r.s.holds.owned[a] == [m]
  {
    hide WorldInv, InStep;
    InitInv(w);
    InitInStep(w);
    FirstTaker(w, a, m);
    CalmStep(w, Patient(a, m));
  }

  lemma FirstTaker(w: World, a: Thread, m: Mutex)
    requires Init(w) && a in w.pc && m in w.s.dom.mutexes
    ensures w.pc[a] == Running && w.s.waits.waiting[a] == null
    ensures Enabled(w, Patient(a, m)) && Disciplined(w, Patient(a, m))
    ensures var r := Next(w, Patient(a, m));
            && r.pc == w.pc && r.s.base == w.s.base && r.s.waits == w.s.waits
            && r.s.holds.owner[m] == a && r.s.holds.count[m] == 1 && r.s.holds.owned[a] == [m]
  {
    hide UpdateChain, DeadlockWalk, Parked;
    assert w.pc[a := Running] == w.pc;
  }

  /** `t` queues behind the owner `a`. */
  lemma QueueBehind(w: World, a: Thread, t: Thread, m: Mutex)
    requires Calm(w, a) && t in w.pc && t != a && m in w.s.dom.mutexes && w.s.holds.owner[m] == a
    requires w.pc[t] == Running
    ensures Enabled(w, Patient(t, m))
    ensures var r := Next(w, Patient(t, m));
            && Calm(r, a) && r.pc == w.pc[t := BlockedOn(m)] && r.s.base == w.s.base && r.s.holds == w.s.holds
            && r.s.waits == WaitAt(w.s.waits, t, m.waitQ, m)
  {
    hide WorldInv, InStep, UpdateChain, WaitsWf, HoldsWf, QueuesWf;
    CalmStep(w, Patient(t, m));
  }

  /** `a` releases the mutex while `t` and `u` queue: one of them still does. */
  lemma ReleaseToOne(w: World, a: Thread, t: Thread, u: Thread, m: Mutex) returns (x: Thread)
    requires Calm(w, a) && t in w.pc && u in w.pc && t != u && m in w.s.dom.mutexes
    requires w.s.holds.owner[m] == a && w.s.holds.count[m] == 1 && w.s.holds.owned[a] == [m]
    requires w.s.waits.waitQ[t] == m.waitQ && w.s.waits.waitQ[u] == m.waitQ
    ensures Enabled(w, UnlockStep(a, m))
    ensures var r := Next(w, UnlockStep(a, m));
            && Calm(r, a) && r.s.base == w.s.base && r.s.holds.owner[m] == null && r.s.holds.owned[a] == []
            && (x == t || x == u) && x in r.pc && r.s.waits.waitQ[x] == m.waitQ
  {
    hide InStep, WorldInv, Released, Unlock, Inv, Next, WaitsWf, HoldsWf;
    WorldState(w);
    CalmStep(w, UnlockStep(a, m));
    UnlockWorld(w, a, m);
    LinkedIn(w.s, t, m);
    HeadHighest(w.s, m);
    LastUnlock(w.s, a, m);
    x := if w.s.queue[m.waitQ][0] == t then u else t;
  }

  lemma UnlockWorld(w: World, a: Thread, m: Mutex)
    requires WorldWf(w) && a in w.pc && m in w.s.dom.mutexes && w.pc[a] == Running
    ensures Enabled(w, UnlockStep(a, m))
    ensures Next(w, UnlockStep(a, m)).s == Unlock(w.s, a, m).0 && Next(w, UnlockStep(a, m)).pc == w.pc
  {
    hide Wf, Unlock;
  }

  /** What the last unlock by an owner of nothing else does, seen from outside. */
  lemma LastUnlock(s: State, a: Thread, m: Mutex)
    requires Inv(s) && a in s.dom.threads && m in s.dom.mutexes && s.holds.owner[m] == a && s.holds.count[m] == 1
    requires s.queue[m.waitQ] != []
    ensures var r := Unlock(s, a, m).0;
            && r.dom == s.dom && r.base == s.base && r.holds == Freed(s.holds, a, m)
            && r.waits == WaitAt(s.waits, s.queue[m.waitQ][0], null, null)
  {
    hide UpdateChain, Released, QueuesOk, HoldsOk, WaitsOk, Acyclic;
    ReleasedShape(s, a, m);
  }

  lemma LinkedIn(s: State, t: Thread, m: Mutex)
    requires Inv(s) && t in s.dom.threads && m in s.dom.mutexes && s.waits.waitQ[t] == m.waitQ
    ensures t in s.queue[m.waitQ]
  {}

  /** A thread at its base priority is below the head of a queue that holds a
      thread of a higher base priority. */
  lemma BelowHead(s: State, a: Thread, x: Thread, m: Mutex)
    requires Inv(s) && InStep(s) && a in s.dom.threads && x in s.dom.threads && m in s.dom.mutexes
    requires s.holds.owner[m] == null && s.waits.waitQ[x] == m.waitQ && s.prio[a] < s.base[x]
    ensures !NotBelowHead(s, a, m)
  {
    hide Acyclic, HoldsOk, WaitsOk, QueuesOk;
    LinkedIn(s, x, m);
    HeadHighest(s, m);
    assert UpToDate(s, x);
  }

  /** A thread that owns nothing runs at its base priority. */
  lemma UnownedAtBase(s: State, a: Thread)
    requires Inv(s) && InStep(s) && a in s.dom.threads && s.holds.owned[a] == []
    ensures s.prio[a] == s.base[a]
  {
    hide Acyclic, QueuesOk;
    assert UpToDate(s, a);
  }

  /** `a` takes the free mutex back past the waiter `x`. */
  lemma TakePast(w: World, a: Thread, x: Thread, m: Mutex)
    requires Calm(w, a) && x in w.pc && m in w.s.dom.mutexes && w.s.holds.owner[m] == null
    requires w.s.holds.owned[a] == [] && w.s.waits.waitQ[x] == m.waitQ && w.s.base[a] < w.s.base[x]
    ensures Enabled(w, Patient(a, m)) && !Disciplined(w, Patient(a, m))
    ensures var r := Next(w, Patient(a, m)).s; !AllInherited(WaitFor(r), r.base, r.prio)
  {
    hide InStep, NotBelowHead, Bookkeeping, QueuesOk, HoldsOk, WaitsOk, Acyclic, Balanced, AllInherited, AllSettled;
    UnownedAtBase(w.s, a);
    BelowHead(w.s, a, x, m);
    TakenInStepIff(w.s, a, m);
    TakenKeeps(w.s, a, m);
    var r := w.s.(holds := Taken(w.s.holds, a, m));
    OutOfStep(w.s, r);
    SettledIffInherited(WaitFor(r), r.base, r.prio);
  }

  lemma OutOfStep(s: State, r: State)
    requires Wf(s) && Wf(r) && InStep(s) && !InStep(r) && r.base == s.base && r.dom == s.dom
    ensures !AllSettled(WaitFor(r), r.base, r.prio)
  {
    hide AllSettled;
  }

  /** A legal run after which some thread does not inherit what it should. */
  ghost predicate Fails(w: World, steps: seq<Step>)
    requires WorldWf(w)
  {
    Legal(w, steps) && var r := Exec(w, steps).s; !AllInherited(WaitFor(r), r.base, r.prio)
  }

  lemma FailsLater(w: World, step: Step, steps: seq<Step>)
    requires WorldWf(w) && Enabled(w, step) && Fails(Next(w, step), steps)
    ensures Fails(w, [step] + steps)
  {
    hide Enabled, Next, AllInherited, Legal, Exec, WorldWf;
    LegalStep(w, step, steps);
  }

  lemma FailsNow(w: World)
    requires WorldWf(w) && !AllInherited(WaitFor(w.s), w.s.base, w.s.prio)
    ensures Fails(w, [])
  {
    hide AllInherited;
  }

  lemma TakeFails(w: World, a: Thread, x: Thread, m: Mutex)
    requires Calm(w, a) && x in w.pc && m in w.s.dom.mutexes && w.s.holds.owner[m] == null
    requires w.s.holds.owned[a] == [] && w.s.waits.waitQ[x] == m.waitQ && w.s.base[a] < w.s.base[x]
    ensures Fails(w, [Patient(a, m)])
  {
    hide Calm, Next, Fails, AllInherited, Enabled, WorldWf;
    TakePast(w, a, x, m);
    FailsNow(Next(w, Patient(a, m)));
    FailsLater(w, Patient(a, m), []);
    assert [Patient(a, m)] + [] == [Patient(a, m)];
  }

  lemma ReleaseFails(w: World, a: Thread, t: Thread, u: Thread, m: Mutex)
    requires Calm(w, a) && t in w.pc && u in w.pc && t != u && m in w.s.dom.mutexes
    requires w.s.holds.owner[m] == a && w.s.holds.count[m] == 1 && w.s.holds.owned[a] == [m]
    requires w.s.waits.waitQ[t] == m.waitQ && w.s.waits.waitQ[u] == m.waitQ
    requires w.s.base[a] < w.s.base[t] && w.s.base[a] < w.s.base[u]
    ensures Fails(w, [UnlockStep(a, m), Patient(a, m)])
  {
    hide Calm, Next, Fails, Enabled;
    var x := ReleaseToOne(w, a, t, u, m);
    TakeFails(Next(w, UnlockStep(a, m)), a, x, m);
    FailsLater(w, UnlockStep(a, m), [Patient(a, m)]);
    assert [UnlockStep(a, m)] + [Patient(a, m)] == [UnlockStep(a, m), Patient(a, m)];
  }

  lemma QueuesFail(w: World, a: Thread, t: Thread, u: Thread, m: Mutex)
    requires Calm(w, a) && t in w.pc && u in w.pc && a != t && a != u && t != u && m in w.s.dom.mutexes
    requires w.s.holds.owner[m] == a && w.s.holds.count[m] == 1 && w.s.holds.owned[a] == [m]
    requires w.pc[t] == w.pc[u] == Running && w.s.base[a] < w.s.base[t] && w.s.base[a] < w.s.base[u]
    ensures Fails(w, [Patient(t, m), Patient(u, m), UnlockStep(a, m), Patient(a, m)])
  {
    hide WorldInv, InStep, Next, Fails, Enabled;
    QueueBehind(w, a, t, m);
    var w1 := Next(w, Patient(t, m));
    QueueBehind(w1, a, u, m);
    var w2 := Next(w1, Patient(u, m));
    var last := [UnlockStep(a, m), Patient(a, m)];
    ReleaseFails(w2, a, t, u, m);
    FailsLater(w1, Patient(u, m), last);
    FailsLater(w, Patient(t, m), [Patient(u, m)] + last);
    assert [Patient(t, m)] + ([Patient(u, m)] + last)
        == [Patient(t, m), Patient(u, m), UnlockStep(a, m), Patient(a, m)];
  }

  /** From a quiet start, with two threads of higher base priority than `a`:
      `a` locks, both queue, `a` unlocks and locks again before the woken one
      retries. The other one still queues, and `a` does not inherit from it. */
  lemma BargingFails(w: World, a: Thread, t: Thread, u: Thread, m: Mutex)
    requires Init(w) && a in w.pc && t in w.pc && u in w.pc && m in w.s.dom.mutexes && a != t && a != u && t != u
    requires w.s.base[a] < w.s.base[t] && w.s.base[a] < w.s.base[u]
    ensures Fails(w, [Patient(a, m), Patient(t, m), Patient(u, m), UnlockStep(a, m), Patient(a, m)])
  {
    hide WorldInv, InStep, Next, Fails, Enabled;
    TakeFirst(w, a, m);
    var rest := [Patient(t, m), Patient(u, m), UnlockStep(a, m), Patient(a, m)];
    QueuesFail(Next(w, Patient(a, m)), a, t, u, m);
    FailsLater(w, Patient(a, m), rest);
    assert [Patient(a, m)] + rest == [Patient(a, m), Patient(t, m), Patient(u, m), UnlockStep(a, m), Patient(a, m)];
  }
}
