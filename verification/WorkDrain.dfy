/** What draining and plugging a queue keep out, and until when. */
module WorkDrain {
  import opened WorkObjects
  import opened WorkSpec
  import opened WorkWorld
  import opened WorkInvariants
  import opened WorkHistory
  import opened WorkRuns
  import opened WorkStop

  /** The worker of `q` itself submits or schedules: from a handler it runs, or
      by promoting a due item. */
  predicate Own(step: Step, q: WorkQueue) {
    match step
    case SubmitStep(_, _, caller) => caller == q
    case ScheduleStep(_, _, _, _, caller, _) => caller == q
    case PromoteStep(on) => on == q
    case _ => false
  }

  /** From `x` to `r` nothing is accepted, queued or delayed on `q`. */
  ghost predicate Shut(x: World, r: World, q: WorkQueue)
    requires q in x.s.queues && q in r.s.queues
  {
    && On(r.log, Submitted, q) == On(x.log, Submitted, q)
    && (forall l :: l in r.s.queues[q].fifo ==> l == Stop || l in x.s.queues[q].fifo)
    && (forall w :: w in r.s.queues[q].delayed ==> w in x.s.queues[q].delayed)
  }

  /** The queue is draining or plugged. */
  ghost predicate Reserved(x: World, q: WorkQueue)
    requires q in x.s.queues
  {
    x.s.queues[q].gates.draining || x.s.queues[q].gates.plugged
  }

  // ---- One step

  lemma SubmitShut(x: World, to: WorkQueue?, w: Work, caller: WorkQueue?, q: WorkQueue)
    requires WorldWf(x) && w in x.s.works && (to != null ==> to in x.pc) && q in x.pc
    requires Reserved(x, q) && caller != q
    ensures Shut(x, x.(s := Submit(x.s, to, w, caller), log := SubmitLog(x, to, w, caller)), q)
  {
    hide On, Wf;
    if Accepted(SubmitReply(x.s, to, w, caller)) {
      LoggedOn(x.log, Event(Submitted, Target(x.s, to, w), Ticket(w, x.s.works[w].sub + 1)), Submitted, q);
    }
  }

  lemma PromoteShut(x: World, p: WorkQueue, q: WorkQueue)
    requires WorldWf(x) && p in x.pc && q in x.pc && x.pc[p].Promoting? && Reserved(x, q) && p != q
    ensures Shut(x, PromoteNext(x, p), q)
  {
    hide On, Wf, Submit;
    if !x.pc[p].blocked {
      SubmitShut(x, p, x.pc[p].w, p, q);
    }
  }

  lemma CancelShut(x: World, w: Work, q: WorkQueue)
    requires WorldWf(x) && w in x.s.works && q in x.pc
    ensures Shut(x, x.(s := Cancel(x.s, w), log := CancelLog(x, w)), q)
  {
    hide On, Wf, Cancel;
    CancelQueues(x.s, w, q);
    var i := x.s.works[w];
    if w.magic && w.sync && i.flags.queued && i.queue != null {
      LoggedOn(x.log, Event(Dropped, i.queue, Ticket(w, i.sub)), Submitted, q);
    }
  }

  lemma PopShut(x: World, p: WorkQueue, q: WorkQueue)
    requires WorldWf(x) && p in x.pc && q in x.pc
    ensures Shut(x, PopNext(x, p), q)
  {
    hide On, Wf, Pop;
    PopQueues(x.s, p, q);
    var got := Pop(x.s, p).1;
    if got.Take? {
      LoggedOn(x.log, Event(Begun, p, Ticket(got.work, Pop(x.s, p).0.works[got.work].run)), Submitted, q);
    }
  }

  lemma FinishShut(x: World, p: WorkQueue, q: WorkQueue)
    requires WorldWf(x) && p in x.pc && q in x.pc && x.pc[p].Running?
    ensures Shut(x, FinishNext(x, p), q)
  {
    hide On, Wf;
    LoggedOn(x.log, Event(Ended, p, Ticket(x.pc[p].w, x.s.works[x.pc[p].w].run)), Submitted, q);
  }

  lemma ScheduleShut(x: World, to: WorkQueue, w: Work, delay: nat, again: bool, caller: WorkQueue?, now: nat,
                     q: WorkQueue)
    requires WorldWf(x) && to in x.pc && w in x.s.works && q in x.pc && Reserved(x, q) && caller != q
    ensures Shut(x, x.(s := Schedule(x.s, to, w, delay, again, caller, now)), q)
  {
    hide On, Wf, Undelay;
    UndelayQueues(x.s, w, q);
  }

  lemma UndelayShut(x: World, w: Work, q: WorkQueue)
    requires WorldWf(x) && w in x.s.works && q in x.pc
    ensures Shut(x, x.(s := Undelay(x.s, w)), q)
  {
    hide On, Wf, Undelay;
    UndelayQueues(x.s, w, q);
  }

  lemma ScanShut(x: World, p: WorkQueue, now: nat, q: WorkQueue)
    requires WorldWf(x) && p in x.pc && q in x.pc
    ensures Shut(x, ScanNext(x, p, now), q)
  {
    hide On, Wf, Scan;
    ScanQueues(x.s, p, now, q);
  }

  lemma ReleaseShut(x: World, p: WorkQueue, q: WorkQueue)
    requires WorldWf(x) && p in x.pc && q in x.pc
    ensures Shut(x, x.(s := StopRelease(x.s, p)), q)
  {
    hide On, Detach;
    var d := x.s.queues[p].delayed;
    if d != [] {
      assert d[0] in d;
      DetachQueues(x.s, p, d[0], q);
    }
  }

  lemma GatesShut(x: World, step: Step, q: WorkQueue)
    requires WorldWf(x) && Enabled(x, step) && q in x.pc
    requires step.StartStep? || step.DrainBeginStep? || step.DrainPollStep? || step.UnplugStep?
             || step.StopMarkStep? || step.StopEndStep? || step.TimeoutStep?
    ensures Shut(x, Next(x, step), q)
  {
    hide On, Wf, Submit, Cancel, Schedule, Undelay, ScanNext, PromoteNext, PopNext, FinishNext, StopRelease;
  }

  /** While a queue drains or is plugged, only its own worker gets anything
      onto it. */
  lemma StepShut(x: World, step: Step, q: WorkQueue)
    requires WorldWf(x) && Enabled(x, step) && q in x.pc && Reserved(x, q) && !Own(step, q)
    ensures Shut(x, Next(x, step), q)
  {
    hide Wf, Shut, Reserved, Submit, Cancel, Schedule, Undelay, ScanNext, PromoteNext, PopNext, FinishNext,
         Start, DrainBegin, DrainPoll, Unplug, StopMark, StopEnd, StopRelease;
    match step
    case SubmitStep(to, w, caller) => SubmitShut(x, to, w, caller, q);
    case PromoteStep(p) => PromoteShut(x, p, q);
    case CancelStep(w) => CancelShut(x, w, q);
    case PopStep(p) => PopShut(x, p, q);
    case FinishStep(p) => FinishShut(x, p, q);
    case ScheduleStep(to, w, delay, again, caller, now) => ScheduleShut(x, to, w, delay, again, caller, now, q);
    case UndelayStep(w) => UndelayShut(x, w, q);
    case ScanStep(p, now) => ScanShut(x, p, now, q);
    case StopReleaseStep(p) => ReleaseShut(x, p, q);
    case _ => GatesShut(x, step, q);
  }

  // ---- Which steps move the gates

  /** The gates of `q` are moved as the step on `q` says, and by no other. */
  ghost predicate GatesMoved(step: Step, q: WorkQueue, c: Chan, g: Gates) {
    && (c.gates.draining && !g.draining ==>
          Starts(step, q) || (step == DrainPollStep(q) && c.count == 0 && c.current == null))
    && (c.gates.plugged && !g.plugged ==> Starts(step, q) || step == UnplugStep(q))
    && (!c.gates.draining && g.draining ==> step == DrainBeginStep(q, true) || step == DrainBeginStep(q, false))
    && (!c.gates.plugged && g.plugged ==> step == DrainBeginStep(q, true))
    && (!c.gates.stopping && g.stopping ==> step.StopMarkStep? && step.on == q && c.gates.plugged)
    && (c.gates.stopping && !g.stopping ==> Starts(step, q))
    && (!c.gates.started && g.started ==> Starts(step, q))
    && (c.gates.started && !g.started ==> step == StopEndStep(q))
  }

  lemma StepGates(x: World, step: Step, q: WorkQueue)
    requires WorldWf(x) && Enabled(x, step) && q in x.pc
    ensures GatesMoved(step, q, x.s.queues[q], Next(x, step).s.queues[q].gates)
  {
    hide Wf, GatesMoved, Submit, Cancel, Schedule, Undelay, ScanNext, PromoteNext, PopNext, FinishNext,
         Start, DrainBegin, DrainPoll, Unplug, StopMark, StopEnd, StopRelease;
    match step
    case SubmitStep(to, w, caller) => SubmitGates(x.s, to, w, caller, q, step);
    case PromoteStep(p) => PromoteGates(x, p, q, step);
    case CancelStep(w) => CancelQueues(x.s, w, q); SameGates(step, q, x.s.queues[q]);
    case PopStep(p) => PopGatesStay(x, p, q, step);
    case FinishStep(p) => FinishGates(x, p, q, step);
    case ScheduleStep(to, w, delay, again, caller, now) =>
      ScheduleGates(x.s, to, w, delay, again, caller, now, q, step);
    case UndelayStep(w) => UndelayQueues(x.s, w, q); SameGates(step, q, x.s.queues[q]);
    case ScanStep(p, now) => ScanGates(x, p, now, q, step);
    case StopReleaseStep(p) => ReleaseGates(x.s, p, q, step);
    case _ => GateStepMoves(x, step, q);
  }

  lemma SameGates(step: Step, q: WorkQueue, c: Chan)
    ensures GatesMoved(step, q, c, c.gates)
  {}

  lemma SubmitGates(s: State, to: WorkQueue?, w: Work, caller: WorkQueue?, q: WorkQueue, step: Step)
    requires Wf(s) && w in s.works && (to != null ==> to in s.queues) && q in s.queues
    ensures GatesMoved(step, q, s.queues[q], Submit(s, to, w, caller).queues[q].gates)
  {
    hide Wf, GatesMoved;
    SameGates(step, q, s.queues[q]);
  }

  lemma PromoteGates(x: World, p: WorkQueue, q: WorkQueue, step: Step)
    requires WorldWf(x) && p in x.pc && q in x.pc && x.pc[p].Promoting?
    ensures GatesMoved(step, q, x.s.queues[q], PromoteNext(x, p).s.queues[q].gates)
  {
    hide Wf, GatesMoved, Submit;
    SubmitGates(x.s, p, x.pc[p].w, p, q, step);
    SameGates(step, q, x.s.queues[q]);
  }

  lemma PopGatesStay(x: World, p: WorkQueue, q: WorkQueue, step: Step)
    requires WorldWf(x) && p in x.pc && q in x.pc
    ensures GatesMoved(step, q, x.s.queues[q], PopNext(x, p).s.queues[q].gates)
  {
    hide Wf, GatesMoved, Pop;
    PopQueues(x.s, p, q);
    SameGates(step, q, x.s.queues[q]);
  }

  lemma FinishGates(x: World, p: WorkQueue, q: WorkQueue, step: Step)
    requires WorldWf(x) && p in x.pc && q in x.pc && x.pc[p].Running?
    ensures GatesMoved(step, q, x.s.queues[q], FinishNext(x, p).s.queues[q].gates)
  {
    hide Wf, GatesMoved;
    SameGates(step, q, x.s.queues[q]);
  }

  lemma ScheduleGates(s: State, to: WorkQueue, w: Work, delay: nat, again: bool, caller: WorkQueue?, now: nat,
                      q: WorkQueue, step: Step)
    requires Wf(s) && to in s.queues && w in s.works && q in s.queues
    ensures GatesMoved(step, q, s.queues[q], Schedule(s, to, w, delay, again, caller, now).queues[q].gates)
  {
    hide Wf, GatesMoved, Undelay;
    UndelayQueues(s, w, q);
    UndelayQueues(s, w, to);
    SameGates(step, q, s.queues[q]);
  }

  lemma ScanGates(x: World, p: WorkQueue, now: nat, q: WorkQueue, step: Step)
    requires WorldWf(x) && p in x.pc && q in x.pc
    ensures GatesMoved(step, q, x.s.queues[q], ScanNext(x, p, now).s.queues[q].gates)
  {
    hide Wf, GatesMoved, Scan;
    ScanQueues(x.s, p, now, q);
    SameGates(step, q, x.s.queues[q]);
  }

  lemma ReleaseGates(s: State, p: WorkQueue, q: WorkQueue, step: Step)
    requires Wf(s) && p in s.queues && q in s.queues
    ensures GatesMoved(step, q, s.queues[q], StopRelease(s, p).queues[q].gates)
  {
    hide GatesMoved, Detach;
    SameGates(step, q, s.queues[q]);
    var d := s.queues[p].delayed;
    if d != [] {
      assert d[0] in d;
      DetachQueues(s, p, d[0], q);
    }
  }

  lemma GateStepMoves(x: World, step: Step, q: WorkQueue)
    requires WorldWf(x) && Enabled(x, step) && q in x.pc
    requires step.StartStep? || step.DrainBeginStep? || step.DrainPollStep? || step.UnplugStep?
             || step.StopMarkStep? || step.StopEndStep? || step.TimeoutStep?
    ensures GatesMoved(step, q, x.s.queues[q], Next(x, step).s.queues[q].gates)
  {
    hide Wf, Submit, Cancel, Schedule, Undelay, ScanNext, PromoteNext, PopNext, FinishNext, StopRelease;
  }

  // ---- Runs

  /** The step leaves `q` neither draining nor plugged. */
  ghost predicate Reopens(x: World, step: Step, q: WorkQueue)
    requires WorldWf(x) && q in x.pc
  {
    var c := x.s.queues[q];
    || Starts(step, q)
    || (step == DrainPollStep(q) && c.count == 0 && c.current == null && !c.gates.plugged)
    || (step == UnplugStep(q) && !c.gates.draining)
  }

  /** Along the run, until a step reopens `q`, each step is one of its own
      worker or gets nothing onto it. */
  ghost predicate Shielded(x: World, steps: seq<Step>, q: WorkQueue)
    requires WorldWf(x) && Legal(x, steps) && q in x.pc
    decreases |steps|
  {
    steps != [] ==>
      && (Own(steps[0], q) || Shut(x, Next(x, steps[0]), q))
      && (Reopens(x, steps[0], q) || Shielded(Next(x, steps[0]), steps[1..], q))
  }

  lemma StaysReserved(x: World, step: Step, q: WorkQueue)
    requires WorldWf(x) && Enabled(x, step) && q in x.pc && Reserved(x, q) && !Reopens(x, step, q)
    ensures Reserved(Next(x, step), q)
  {
    hide Wf, Next, Enabled;
    StepGates(x, step, q);
  }

  /** A draining or plugged queue is closed to all but its own worker, until
      it is started anew, a drain finds it empty, or it is unplugged. */
  lemma {:induction false} ReservedRun(x: World, steps: seq<Step>, q: WorkQueue)
    requires WorldWf(x) && Legal(x, steps) && q in x.pc && Reserved(x, q)
    ensures Shielded(x, steps, q)
    decreases |steps|
  {
    hide WorldWf, Next, Enabled, Reserved, Reopens, Shut;
    if steps != [] {
      if !Own(steps[0], q) {
        StepShut(x, steps[0], q);
      }
      if !Reopens(x, steps[0], q) {
        StaysReserved(x, steps[0], q);
        ReservedRun(Next(x, steps[0]), steps[1..], q);
      }
    }
  }

  /** A drain call marks the queue draining, plugs it only if asked, changes
      nothing else, and from there on the queue is closed to outsiders. */
  lemma DrainShields(x: World, q: WorkQueue, plug: bool, steps: seq<Step>)
    requires WorldWf(x) && Enabled(x, DrainBeginStep(q, plug)) && Legal(Next(x, DrainBeginStep(q, plug)), steps)
    ensures var r, c := Next(x, DrainBeginStep(q, plug)), x.s.queues[q];
            && r.s.works == x.s.works && r.pc == x.pc && r.log == x.log
            && r.s.queues == x.s.queues[q := c.(gates := r.s.queues[q].gates)]
            && r.s.queues[q].gates.draining && (r.s.queues[q].gates.plugged <==> c.gates.plugged || plug)
            && r.s.queues[q].gates.started && r.s.queues[q].gates.stopping == c.gates.stopping
            && Shielded(r, steps, q)
  {
    hide Wf, Shielded, Legal;
    ReservedRun(Next(x, DrainBeginStep(q, plug)), steps, q);
  }

  /** Nobody reopens `q`, and its own worker submits and schedules nothing. */
  ghost predicate Outside(x: World, steps: seq<Step>, q: WorkQueue)
    requires WorldWf(x) && Legal(x, steps) && q in x.pc
    decreases |steps|
  {
    steps != [] ==>
      !Own(steps[0], q) && !Reopens(x, steps[0], q) && Outside(Next(x, steps[0]), steps[1..], q)
  }

  lemma {:induction false} OutsideShut(x: World, steps: seq<Step>, q: WorkQueue)
    requires WorldWf(x) && Legal(x, steps) && q in x.pc && Reserved(x, q) && Outside(x, steps, q)
    ensures Shut(x, Exec(x, steps), q) && Reserved(Exec(x, steps), q)
    decreases |steps|
  {
    hide WorldWf, Next, Enabled, Reserved, Reopens, On;
    if steps != [] {
      StepShut(x, steps[0], q);
      StaysReserved(x, steps[0], q);
      OutsideShut(Next(x, steps[0]), steps[1..], q);
    }
  }

  /** A drain is not held open from outside: whatever others do, all the queue
      has started or still has to start was accepted before it was closed. */
  lemma DrainRunsDown(x: World, steps: seq<Step>, q: WorkQueue)
    requires Inv(x) && Legal(x, steps) && q in x.pc && Reserved(x, q) && Outside(x, steps, q)
    ensures var r := Exec(x, steps);
            && Within(r.s.works, r.s.queues[q].fifo)
            && On(r.log, Begun, q) + Pending(r.s.works, r.s.queues[q].fifo)
               == Kept(On(x.log, Submitted, q), Cancelled(r.log))
  {
    hide Linked, Deferred, Executing, GatesOk, IdsOk, FatesOk, TalliesOk, OrderOk, Wf, On, Kept, Cancelled, Pending,
         Exec, Legal, Outside;
    OutsideShut(x, steps, q);
    RunInv(x, steps);
    OrderIn(Exec(x, steps), q);
  }
}
