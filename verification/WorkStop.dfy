/** What stopping a queue guarantees, and exactly what plugging one does. */
module WorkStop {
  import opened Lists
  import opened WorkObjects
  import opened WorkSpec
  import opened WorkWorld
  import opened WorkInvariants
  import opened WorkHistory
  import opened WorkRuns

  // ---- Stopping and plugging

  /** The worker is about to submit a due item that it unlinked while the
      queue was open. */
  predicate Holds(pc: Pc) {
    pc.Promoting? && !pc.blocked && Usable(pc.w)
  }

  /** Nothing is left to run on the queue and nothing more can get in: it is
      stopping, or it is plugged and its worker holds no such item. */
  ghost predicate Sealed(c: Chan, pc: Pc) {
    && (forall l :: l in c.fifo ==> l == Stop) && !pc.Running?
    && (c.gates.stopping || (c.gates.plugged && !Holds(pc)))
  }

  /** From `x` to `r` nothing is accepted, begun or delayed on `q`. */
  ghost predicate Quiet(x: World, r: World, q: WorkQueue)
    requires q in x.s.queues && q in r.s.queues
  {
    && On(r.log, Submitted, q) == On(x.log, Submitted, q) && On(r.log, Begun, q) == On(x.log, Begun, q)
    && (forall w :: w in r.s.queues[q].delayed ==> w in x.s.queues[q].delayed)
  }

  /** `q` is still sealed, and stopping if it was. */
  ghost predicate StaysSealed(x: World, r: World, q: WorkQueue)
    requires q in x.s.queues && q in r.s.queues && q in r.pc
  {
    && Quiet(x, r, q) && Sealed(r.s.queues[q], r.pc[q])
    && (x.s.queues[q].gates.stopping ==> r.s.queues[q].gates.stopping)
  }

  lemma SealedSubmit(x: World, to: WorkQueue?, w: Work, caller: WorkQueue?, q: WorkQueue)
    requires WorldWf(x) && w in x.s.works && (to != null ==> to in x.pc) && q in x.pc
    requires Sealed(x.s.queues[q], x.pc[q]) && (caller == q ==> x.s.queues[q].gates.stopping || !Usable(w))
    ensures StaysSealed(x, x.(s := Submit(x.s, to, w, caller), log := SubmitLog(x, to, w, caller)), q)
    ensures Accepted(SubmitReply(x.s, to, w, caller)) ==> Target(x.s, to, w) != q
  {
    hide On, Wf;
    if Accepted(SubmitReply(x.s, to, w, caller)) {
      var e := Event(Submitted, Target(x.s, to, w), Ticket(w, x.s.works[w].sub + 1));
      LoggedOn(x.log, e, Submitted, q);
      LoggedOn(x.log, e, Begun, q);
    }
  }

  lemma SealedPromote(x: World, p: WorkQueue, q: WorkQueue)
    requires WorldWf(x) && p in x.pc && q in x.pc && x.pc[p].Promoting? && Sealed(x.s.queues[q], x.pc[q])
    ensures StaysSealed(x, PromoteNext(x, p), q)
  {
    hide On, Wf, Submit;
    if !x.pc[p].blocked {
      SealedSubmit(x, p, x.pc[p].w, p, q);
    }
  }

  lemma SealedCancel(x: World, w: Work, q: WorkQueue)
    requires WorldWf(x) && w in x.s.works && q in x.pc && Sealed(x.s.queues[q], x.pc[q])
    ensures StaysSealed(x, x.(s := Cancel(x.s, w), log := CancelLog(x, w)), q)
  {
    hide On, Wf, Cancel;
    CancelQueues(x.s, w, q);
    var i := x.s.works[w];
    if w.magic && w.sync && i.flags.queued && i.queue != null {
      var e := Event(Dropped, i.queue, Ticket(w, i.sub));
      LoggedOn(x.log, e, Submitted, q);
      LoggedOn(x.log, e, Begun, q);
    }
  }

  lemma CancelQueues(s: State, w: Work, q: WorkQueue)
    requires Wf(s) && w in s.works && q in s.queues
    ensures var c, c' := s.queues[q], Cancel(s, w).queues[q];
            c' == c.(fifo := c'.fifo, count := c'.count) && forall l :: l in c'.fifo ==> l in c.fifo
  {
    hide Wf;
    assert forall l :: l in Without(s.queues[q].fifo, Of(w)) ==> l in s.queues[q].fifo;
  }

  lemma SealedPop(x: World, p: WorkQueue, q: WorkQueue)
    requires WorldWf(x) && p in x.pc && q in x.pc && Sealed(x.s.queues[q], x.pc[q])
    ensures StaysSealed(x, PopNext(x, p), q)
  {
    hide On, Wf, Pop;
    PopQueues(x.s, p, q);
    var got := Pop(x.s, p).1;
    if got.Take? {
      var e := Event(Begun, p, Ticket(got.work, Pop(x.s, p).0.works[got.work].run));
      LoggedOn(x.log, e, Submitted, q);
      LoggedOn(x.log, e, Begun, q);
    }
  }

  lemma PopQueues(s: State, p: WorkQueue, q: WorkQueue)
    requires Wf(s) && p in s.queues && q in s.queues
    ensures var (r, got) := Pop(s, p); var c, c' := s.queues[q], r.queues[q];
            && c'.delayed == c.delayed && c'.gates == c.gates && (forall l :: l in c'.fifo ==> l in c.fifo)
            && (p != q ==> c' == c)
            && (got.Take? ==> Of(got.work) in s.queues[p].fifo)
  {
    var f := s.queues[p].fifo;
    if f != [] {
      assert f[0] in f && forall l :: l in f[1..] ==> l in f;
    }
  }

  lemma SealedFinish(x: World, p: WorkQueue, q: WorkQueue)
    requires WorldWf(x) && p in x.pc && q in x.pc && x.pc[p].Running? && Sealed(x.s.queues[q], x.pc[q])
    ensures StaysSealed(x, FinishNext(x, p), q)
  {
    hide On, Wf;
    var e := Event(Ended, p, Ticket(x.pc[p].w, x.s.works[x.pc[p].w].run));
    LoggedOn(x.log, e, Submitted, q);
    LoggedOn(x.log, e, Begun, q);
  }

  lemma UndelayQueues(s: State, w: Work, q: WorkQueue)
    requires Wf(s) && w in s.works && q in s.queues
    ensures var c, c' := s.queues[q], Undelay(s, w).queues[q];
            c' == c.(delayed := c'.delayed) && forall v :: v in c'.delayed ==> v in c.delayed
  {
    hide Detach;
    var i := s.works[w];
    if i.delayQueue != null {
      DetachQueues(s, i.delayQueue, w, q);
    }
  }

  lemma SealedSchedule(x: World, to: WorkQueue, w: Work, delay: nat, again: bool, caller: WorkQueue?, now: nat,
                       q: WorkQueue)
    requires WorldWf(x) && to in x.pc && w in x.s.works && q in x.pc && Calls(x, caller)
    requires Sealed(x.s.queues[q], x.pc[q])
    ensures StaysSealed(x, x.(s := Schedule(x.s, to, w, delay, again, caller, now)), q)
  {
    hide On, Wf, Undelay;
    UndelayQueues(x.s, w, q);
  }

  lemma SealedScan(x: World, p: WorkQueue, now: nat, q: WorkQueue)
    requires WorldWf(x) && p in x.pc && q in x.pc && x.pc[p] == Scanning && Sealed(x.s.queues[q], x.pc[q])
    ensures StaysSealed(x, ScanNext(x, p, now), q)
  {
    hide On, Wf, Scan;
    ScanQueues(x.s, p, now, q);
  }

  lemma ScanQueues(s: State, p: WorkQueue, now: nat, q: WorkQueue)
    requires Wf(s) && p in s.queues && q in s.queues
    ensures var (r, due, blocked) := Scan(s, p, now); var c, c' := s.queues[q], r.queues[q];
            && c' == c.(delayed := c'.delayed) && (forall v :: v in c'.delayed ==> v in c.delayed)
            && (due != null ==> blocked == (s.queues[p].gates.plugged || s.queues[p].gates.stopping))
  {
    hide Detach;
    var d := s.queues[p].delayed;
    var k := FirstDue(s.works, d, now);
    if k < |d| {
      DetachQueues(s, p, d[k], q);
    }
  }

  lemma DetachQueues(s: State, p: WorkQueue, w: Work, q: WorkQueue)
    requires Wf(s) && p in s.queues && q in s.queues && w in s.works
    ensures var c, c' := s.queues[q], Detach(s, p, w).queues[q];
            c' == c.(delayed := c'.delayed) && (forall v :: v in c'.delayed ==> v in c.delayed)
  {
    hide Wf;
    assert forall v :: v in Without(s.queues[p].delayed, w) ==> v in s.queues[p].delayed;
  }

  /** The gates of other queues, and closing `q` further. */
  lemma SealedGates(x: World, step: Step, q: WorkQueue)
    requires WorldWf(x) && Enabled(x, step) && q in x.pc && Sealed(x.s.queues[q], x.pc[q])
    requires !Starts(step, q) && (x.s.queues[q].gates.stopping || step != UnplugStep(q))
    requires step.StartStep? || step.DrainBeginStep? || step.DrainPollStep? || step.UnplugStep?
             || step.StopMarkStep? || step.StopEndStep? || step.TimeoutStep?
    ensures StaysSealed(x, Next(x, step), q)
  {
    hide On, Wf, Submit, Cancel, Schedule, Undelay, ScanNext, PromoteNext, PopNext, FinishNext, StopRelease;
  }

  lemma SealedRelease(x: World, p: WorkQueue, q: WorkQueue)
    requires WorldWf(x) && p in x.pc && q in x.pc && Sealed(x.s.queues[q], x.pc[q])
    ensures StaysSealed(x, x.(s := StopRelease(x.s, p)), q)
  {
    hide On, Detach;
    var d := x.s.queues[p].delayed;
    if d != [] {
      assert d[0] in d;
      DetachQueues(x.s, p, d[0], q);
    }
  }

  lemma SealedStep(x: World, step: Step, q: WorkQueue)
    requires WorldWf(x) && Enabled(x, step) && q in x.pc && Sealed(x.s.queues[q], x.pc[q])
    requires !Starts(step, q) && (x.s.queues[q].gates.stopping || step != UnplugStep(q))
    ensures StaysSealed(x, Next(x, step), q)
  {
    hide Wf, StaysSealed, Submit, Cancel, Schedule, Undelay, ScanNext, PromoteNext, PopNext, FinishNext,
         Start, DrainBegin, DrainPoll, Unplug, StopMark, StopEnd, StopRelease;
    match step
    case SubmitStep(to, w, caller) => SealedSubmit(x, to, w, caller, q);
    case PromoteStep(p) => SealedPromote(x, p, q);
    case CancelStep(w) => SealedCancel(x, w, q);
    case PopStep(p) => SealedPop(x, p, q);
    case FinishStep(p) => SealedFinish(x, p, q);
    case ScheduleStep(to, w, delay, again, caller, now) => SealedSchedule(x, to, w, delay, again, caller, now, q);
    case UndelayStep(w) => SealedJustUndelay(x, w, q);
    case ScanStep(p, now) => SealedScan(x, p, now, q);
    case StopReleaseStep(p) => SealedRelease(x, p, q);
    case _ => SealedGates(x, step, q);
  }

  lemma SealedJustUndelay(x: World, w: Work, q: WorkQueue)
    requires WorldWf(x) && w in x.s.works && q in x.pc && Sealed(x.s.queues[q], x.pc[q])
    ensures StaysSealed(x, x.(s := Undelay(x.s, w)), q)
  {
    hide On, Wf, Undelay;
    UndelayQueues(x.s, w, q);
  }

  /** Nobody, not even the worker or a promotion in flight, gets anything onto
      a sealed queue, for as long as it is not unplugged or started again. */
  lemma {:induction false} SealedRun(x: World, steps: seq<Step>, q: WorkQueue)
    requires WorldWf(x) && Legal(x, steps) && q in x.pc && Sealed(x.s.queues[q], x.pc[q])
    requires (forall t :: t in steps ==> !Starts(t, q)) && (x.s.queues[q].gates.stopping || UnplugStep(q) !in steps)
    ensures StaysSealed(x, Exec(x, steps), q)
    decreases |steps|
  {
    hide Sealed, Next, Enabled, On, WorldWf;
    if steps != [] {
      assert steps[0] in steps && forall t :: t in steps[1..] ==> t in steps;
      SealedStep(x, steps[0], q);
      SealedRun(Next(x, steps[0]), steps[1..], q);
    }
  }

  /** A stop call that gets past its checks seals the queue for good: until
      it is started again nothing is accepted, begun or delayed there. */
  lemma StopFinality(x: World, caller: WorkQueue?, steps: seq<Step>, q: WorkQueue)
    requires Inv(x) && Enabled(x, StopMarkStep(q, caller)) && StopReply(x.s, q, caller) == Proceed
    requires Legal(Next(x, StopMarkStep(q, caller)), steps) && (forall t :: t in steps ==> !Starts(t, q))
    ensures Quiet(x, Exec(Next(x, StopMarkStep(q, caller)), steps), q)
  {
    hide Linked, Deferred, Executing, GatesOk, IdsOk, History, On, Wf, Exec, Legal;
    CountAt(x, q);
    CurrentAt(x, q);
    SealedRun(Next(x, StopMarkStep(q, caller)), steps, q);
  }

  /** No item is queued or delayed on `q`. */
  ghost predicate Vacant(s: State, q: WorkQueue)
    requires Wf(s)
  {
    forall w {:trigger s.works[w]} :: w in s.works ==>
      !(s.works[w].flags.queued && s.works[w].queue == q)
      && !(s.works[w].flags.delayed && s.works[w].delayQueue == q)
  }

  /** A stop call that reaches its end returns success and leaves the queue off,
      with nothing queued or delayed on it, and so it stays until the queue is
      started again. */
  lemma StopReturns(x: World, steps: seq<Step>, q: WorkQueue)
    requires Inv(x) && Enabled(x, StopEndStep(q))
    requires Legal(Next(x, StopEndStep(q)), steps) && (forall t :: t in steps ==> !Starts(t, q))
    ensures StopEnd(x.s, q).1 == NoChange && !Next(x, StopEndStep(q)).s.queues[q].gates.started
    ensures Vacant(Exec(Next(x, StopEndStep(q)), steps).s, q)
  {
    hide Linked, Deferred, Executing, GatesOk, IdsOk, History, On, Wf, Exec, Legal;
    var r := Next(x, StopEndStep(q));
    GateAt(x, q);
    StepKeeps(x, StopEndStep(q));
    RunInv(r, steps);
    SealedRun(r, steps, q);
    assert r.s.queues[q].delayed == [];
    assert Exec(r, steps).s.queues[q].delayed == [] by { NoneLeft(Exec(r, steps).s.queues[q].delayed); }
    SealedVacant(Exec(r, steps), q);
  }

  lemma NoneLeft<T>(s: seq<T>)
    ensures (forall v :: v in s ==> v in []) ==> s == []
  {
    if s != [] {
      assert s[0] in s;
    }
  }

  lemma SealedVacant(x: World, q: WorkQueue)
    requires Inv(x) && q in x.pc && Sealed(x.s.queues[q], x.pc[q]) && x.s.queues[q].delayed == []
    ensures Vacant(x.s, q)
  {
    hide Executing, GatesOk, IdsOk, History, Wf;
  }

  /** A plugged and drained queue is sealed unless its worker holds a due item. */
  lemma PlugFinality(x: World, steps: seq<Step>, q: WorkQueue)
    requires Inv(x) && q in x.pc && Drained(x.s.queues[q]) && x.s.queues[q].gates.plugged && !Holds(x.pc[q])
    requires Legal(x, steps) && Undisturbed(steps, q)
    ensures Quiet(x, Exec(x, steps), q)
  {
    hide Linked, Deferred, Executing, GatesOk, IdsOk, History, On, Wf, Exec, Legal;
    CountAt(x, q);
    CurrentAt(x, q);
    SealedRun(x, steps, q);
  }

  /** Nobody starts or unplugs `q` meanwhile. */
  ghost predicate Undisturbed(steps: seq<Step>, q: WorkQueue) {
    (forall t :: t in steps ==> !Starts(t, q)) && UnplugStep(q) !in steps
  }

  /** The worker of `q` holds `w`, and nothing stands in the way of its
      submission. */
  ghost predicate Ready(x: World, q: WorkQueue, w: Work)
    requires WorldWf(x)
  {
    && q in x.pc && x.pc[q] == Promoting(w, false) && Usable(w) && IdLeft(x, w) && x.s.works[w].flags.queued == false
    && !x.s.works[w].flags.canceling && !x.s.works[w].flags.running
    && x.s.queues[q].gates.started && !x.s.queues[q].gates.stopping && x.s.queues[q].count == 0
  }

  lemma ReadyLeaks(x: World, q: WorkQueue, w: Work)
    requires WorldWf(x) && Ready(x, q, w)
    ensures Enabled(x, PromoteStep(q))
    ensures On(Next(x, PromoteStep(q)).log, Submitted, q)
         == On(x.log, Submitted, q) + [Ticket(w, x.s.works[w].sub + 1)]
  {
    hide On, Wf;
    LoggedOn(x.log, Event(Submitted, q, Ticket(w, x.s.works[w].sub + 1)), Submitted, q);
  }

  /** What a cancel leaves of a held item and of the queue that holds it. */
  lemma CancelHeld(x: World, q: WorkQueue, w: Work)
    requires Inv(x) && q in x.pc && x.pc[q] == Promoting(w, false) && Usable(w) && Drained(x.s.queues[q])
    ensures Enabled(x, CancelStep(w))
    ensures var r, i := Next(x, CancelStep(w)), x.s.works[w];
            && r.pc == x.pc && r.s.queues[q] == x.s.queues[q]
            && r.s.works[w].flags == i.flags.(queued := false, canceling := i.flags.running)
            && r.s.works[w].sub == i.sub && On(r.log, Submitted, q) == On(x.log, Submitted, q)
  {
    hide Linked, Deferred, Executing, GatesOk, IdsOk, History, On, Wf, Without;
    var i := x.s.works[w];
    CountAt(x, q);
    QueuedAt(x.s, w);
    IdAt(x, w);
    if i.flags.queued {
      LoggedOn(x.log, Event(Dropped, i.queue, Ticket(w, i.sub)), Submitted, q);
    }
  }

  /** What the end of its handler elsewhere leaves of a held item. */
  lemma FinishHeld(x: World, q: WorkQueue, w: Work) returns (p: WorkQueue)
    requires Inv(x) && q in x.pc && x.pc[q] == Promoting(w, false) && x.s.works[w].flags.running
    ensures p != q && Enabled(x, FinishStep(p))
    ensures var r, i := Next(x, FinishStep(p)), x.s.works[w];
            && r.pc[q] == x.pc[q] && r.s.queues[q] == x.s.queues[q]
            && r.s.works[w].flags == i.flags.(running := false, canceling := false)
            && r.s.works[w].sub == i.sub && On(r.log, Submitted, q) == On(x.log, Submitted, q)
  {
    hide Linked, Deferred, Executing, GatesOk, IdsOk, History, On, Wf;
    p := WorkerOf(x, w);
    LoggedOn(x.log, Event(Ended, p, Ticket(w, x.s.works[w].run)), Submitted, q);
  }

  /** Otherwise the queue is not final, whatever the item's flags: after the
      drain has reported an empty, plugged queue, the worker's submission of
      the item it holds is accepted. */
  lemma PlugLeaks(x: World, q: WorkQueue) returns (steps: seq<Step>)
    requires Inv(x) && q in x.pc && Drained(x.s.queues[q]) && !x.s.queues[q].gates.stopping
    requires Holds(x.pc[q]) && IdLeft(x, x.pc[q].w)
    ensures Legal(x, steps) && Undisturbed(steps, q)
    ensures var w := x.pc[q].w;
            On(Exec(x, steps).log, Submitted, q) == On(x.log, Submitted, q) + [Ticket(w, x.s.works[w].sub + 1)]
  {
    hide Inv, Next, Enabled, On, Wf;
    var w := x.pc[q].w;
    HolderOpen(x, q);
    CancelHeld(x, q, w);
    var a := Next(x, CancelStep(w));
    StepKeeps(x, CancelStep(w));
    if a.s.works[w].flags.running {
      var p := FinishHeld(a, q, w);
      var b := Next(a, FinishStep(p));
      ReadyLeaks(b, q, w);
      LegalNil(Next(b, PromoteStep(q)));
      LegalStep(b, PromoteStep(q), []);
      LegalStep(a, FinishStep(p), [PromoteStep(q)] + []);
      steps := [FinishStep(p)] + ([PromoteStep(q)] + []);
    } else {
      ReadyLeaks(a, q, w);
      LegalNil(Next(a, PromoteStep(q)));
      LegalStep(a, PromoteStep(q), []);
      steps := [PromoteStep(q)] + [];
    }
    LegalStep(x, CancelStep(w), steps);
    steps := [CancelStep(w)] + steps;
  }

  lemma HolderOpen(x: World, q: WorkQueue)
    requires Inv(x) && q in x.pc && x.pc[q].Promoting?
    ensures x.s.queues[q].gates.started && x.pc[q].w in x.s.works
  {
    hide Linked, Deferred, Executing, GatesOk, IdsOk, History, Wf;
    GateAt(x, q);
  }

  /** A plugged and drained queue is final exactly when its worker holds no due
      item unlinked before the plug. */
  lemma PlugFinalIff(x: World, q: WorkQueue)
    requires Inv(x) && q in x.pc && Drained(x.s.queues[q])
    requires x.s.queues[q].gates.plugged && !x.s.queues[q].gates.stopping
    requires x.pc[q].Promoting? ==> IdLeft(x, x.pc[q].w)
    ensures !Holds(x.pc[q])
       <==> forall steps :: Legal(x, steps) && Undisturbed(steps, q) ==> Quiet(x, Exec(x, steps), q)
  {
    hide Inv, Drained, Undisturbed, On;
    if Holds(x.pc[q]) {
      var steps := PlugLeaks(x, q);
      assert !Quiet(x, Exec(x, steps), q);
    } else {
      forall steps | Legal(x, steps) && Undisturbed(steps, q) ensures Quiet(x, Exec(x, steps), q) {
        PlugFinality(x, steps, q);
      }
    }
  }

  /** One item on one queue, nothing queued and nobody in a handler. */
  ghost predicate Solo(x: World, q: WorkQueue, w: Work, p: Pc, delayed: seq<Work>, gates: Gates) {
    && WorldWf(x) && q in x.pc && w in x.s.works && x.pc[q] == p
    && x.s.works[w].flags == IDLE.(delayed := delayed != []) && x.s.works[w].sub == 0
    && (delayed != [] ==> x.s.works[w].deadline == 1 && x.s.works[w].delayQueue == q)
    && x.s.queues[q] == Chan([], 0, delayed, null, gates)
  }

  lemma SoloDelay(x: World, q: WorkQueue, w: Work)
    requires Init(x) && q in x.pc && w in x.s.works && Usable(w)
    ensures WorldWf(x) && Enabled(x, StartStep(q, 1, Works))
    ensures var a := Next(x, StartStep(q, 1, Works));
            && Enabled(a, ScheduleStep(q, w, 1, false, null, 0))
            && Solo(Next(a, ScheduleStep(q, w, 1, false, null, 0)), q, w, Scanning, [w],
                    Gates(true, false, false, false))
  {
    hide Wf;
  }

  lemma SoloScan(x: World, q: WorkQueue, w: Work)
    requires Solo(x, q, w, Scanning, [w], Gates(true, false, false, false))
    ensures Enabled(x, ScanStep(q, 1))
    ensures Solo(Next(x, ScanStep(q, 1)), q, w, Promoting(w, false), [], Gates(true, false, false, false))
  {
    assert Without([w], w) == [];
    hide Wf;
  }

  lemma SoloPlug(x: World, q: WorkQueue, w: Work)
    requires Solo(x, q, w, Promoting(w, false), [], Gates(true, false, false, false))
    ensures Enabled(x, DrainBeginStep(q, true))
    ensures var a := Next(x, DrainBeginStep(q, true));
            && Enabled(a, DrainPollStep(q))
            && Solo(Next(a, DrainPollStep(q)), q, w, Promoting(w, false), [], Gates(true, false, false, true))
  {
    hide Wf;
  }

  /** That case is reached from a fresh start: an item comes due, the worker
      unlinks it, and the queue is plugged and drained before it is submitted. */
  lemma PlugLeaksReached(x: World, q: WorkQueue, w: Work) returns (steps: seq<Step>)
    requires Init(x) && q in x.pc && w in x.s.works && Usable(w)
    ensures WorldWf(x) && Legal(x, steps)
    ensures var r := Exec(x, steps);
            && q in r.pc && w in r.s.works && Holds(r.pc[q]) && r.pc[q].w == w && IdLeft(r, w)
            && Drained(r.s.queues[q]) && r.s.queues[q].gates == Gates(true, false, false, true)
  {
    hide Enabled, Next, Init, Solo, Legal, Exec, WorldWf;
    SoloDelay(x, q, w);
    var a := Next(x, StartStep(q, 1, Works));
    var b := Next(a, ScheduleStep(q, w, 1, false, null, 0));
    SoloScan(b, q, w);
    var c := Next(b, ScanStep(q, 1));
    SoloPlug(c, q, w);
    LegalNil(x);
    LegalThen(x, [], StartStep(q, 1, Works));
    steps := [] + [StartStep(q, 1, Works)];
    LegalThen(x, steps, ScheduleStep(q, w, 1, false, null, 0));
    steps := steps + [ScheduleStep(q, w, 1, false, null, 0)];
    LegalThen(x, steps, ScanStep(q, 1));
    steps := steps + [ScanStep(q, 1)];
    LegalThen(x, steps, DrainBeginStep(q, true));
    steps := steps + [DrainBeginStep(q, true)];
    LegalThen(x, steps, DrainPollStep(q));
    steps := steps + [DrainPollStep(q)];
    SoloHolds(Exec(x, steps), q, w);
  }

  lemma SoloHolds(x: World, q: WorkQueue, w: Work)
    requires Solo(x, q, w, Promoting(w, false), [], Gates(true, false, false, true)) && Usable(w)
    ensures q in x.pc && w in x.s.works && x.pc[q] == Promoting(w, false) && Holds(x.pc[q]) && IdLeft(x, w)
    ensures Drained(x.s.queues[q]) && x.s.queues[q].gates == Gates(true, false, false, true)
  {}
}
