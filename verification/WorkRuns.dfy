/** Whole runs of the work queues: exactly-once execution in order, what a
    flush may conclude, and what stopping and draining a queue guarantee. */
module WorkRuns {
  import opened Lists
  import opened MachineInts
  import opened WorkObjects
  import opened WorkSpec
  import opened WorkWorld
  import opened WorkInvariants
  import opened WorkHistory

  /** All that holds between critical sections. */
  ghost predicate Inv(x: World)
    ensures Inv(x) ==> WorldWf(x)
  {
    WorldWf(x) && Coupled(x) && History(x)
  }

  // ---- Each event keeps the history

  lemma FateIn(x: World, w: Work, id: int)
    requires FatesOk(x.s.works, x.log) && w in x.s.works
    ensures Fate(x.s.works[w], w, id, x.log)
  {}

  lemma OrderIn(x: World, q: WorkQueue)
    requires OrderOk(x.s.works, x.s.queues, x.log) && q in x.s.queues
    ensures InOrder(x.s.works, x.s.queues[q].fifo, x.log, q)
  {}

  lemma Ordered(s: State, log: seq<Event>)
    ensures (forall q {:trigger s.queues[q]} :: q in s.queues ==> InOrder(s.works, s.queues[q].fifo, log, q))
        ==> OrderOk(s.works, s.queues, log)
  {}

  lemma QueuedOnly(x: World, q: WorkQueue, w: Work)
    requires Linked(x.s.works, x.s.queues) && q in x.s.queues && w in x.s.works && x.s.works[w].flags.queued
    ensures Of(w) in x.s.queues[q].fifo <==> q == x.s.works[w].queue
  {}

  /** Item `e.t.w` changes as event `e` says, and the lists follow. */
  lemma EventHistory(x: World, r: World, e: Event)
    requires Inv(x) && WorldWf(r) && r.log == x.log + [e] && e.t.w in x.s.works && e.t.w in r.s.works
    requires r.s.works == x.s.works[e.t.w := r.s.works[e.t.w]] && r.s.queues.Keys == x.s.queues.Keys
    requires Advances(x.s.works[e.t.w], r.s.works[e.t.w], e)
    requires OrderOk(r.s.works, r.s.queues, r.log)
    ensures History(r)
  {
    hide Linked, Deferred, Executing, GatesOk, Wf, FatesOk, TalliesOk, OrderOk, Advances;
    IdAt(x, e.t.w);
    EventFates(x.s.works, r.s.works, x.log, e);
    EventTallies(x.s.works, r.s.works, x.log, e);
  }

  lemma SubmitOrder(x: World, q: WorkQueue, w: Work)
    requires Inv(x) && w in x.s.works && q in x.s.queues && !x.s.works[w].flags.queued
    requires x.s.works[w].sub < UINT32 - 1
    ensures var r := Enqueue(x.s, q, w);
            OrderOk(r.works, r.queues, x.log + [Event(Submitted, q, Ticket(w, x.s.works[w].sub + 1))])
  {
    hide Linked, Deferred, Executing, GatesOk, IdsOk, FatesOk, TalliesOk, OrderOk, InOrder, Wf;
    var r, e := Enqueue(x.s, q, w), Event(Submitted, q, Ticket(w, x.s.works[w].sub + 1));
    QueuedNowhere(x.s, w);
    FateIn(x, w, e.t.id);
    Ordered(r, x.log + [e]);
    forall p | p in r.queues ensures InOrder(r.works, r.queues[p].fifo, x.log + [e], p) {
      OrderIn(x, p);
      SubmittedOrder(x.s.works, r.works, x.s.queues[p].fifo, x.log, e, p);
    }
  }

  lemma SubmitHistory(x: World, q: WorkQueue?, w: Work, caller: WorkQueue?)
    requires Inv(x) && IdLeft(x, w) && (q != null ==> q in x.pc)
    ensures History(x.(s := Submit(x.s, q, w, caller), log := SubmitLog(x, q, w, caller)))
  {
    hide Coupling, History, Wf, OrderOk;
    if Accepted(SubmitReply(x.s, q, w, caller)) {
      var to := Target(x.s, q, w);
      SubmitOrder(x, to, w);
      EventHistory(x, x.(s := Submit(x.s, q, w, caller), log := SubmitLog(x, q, w, caller)),
                   Event(Submitted, to, Ticket(w, x.s.works[w].sub + 1)));
    }
  }

  lemma CancelOrder(x: World, w: Work)
    requires Inv(x) && w in x.s.works && x.s.works[w].flags.queued && x.s.works[w].queue != null && w.magic && w.sync
    ensures var r := Cancel(x.s, w); OrderOk(r.works, r.queues, CancelLog(x, w))
  {
    hide Linked, Deferred, Executing, GatesOk, IdsOk, FatesOk, TalliesOk, OrderOk, InOrder, Wf, Without, Distinct;
    var r, i := Cancel(x.s, w), x.s.works[w];
    var e := Event(Dropped, i.queue, Ticket(w, i.sub));
    QueuedAt(x.s, w);
    IdAt(x, w);
    FateIn(x, w, i.sub);
    Ordered(r, x.log + [e]);
    forall p | p in r.queues ensures InOrder(r.works, r.queues[p].fifo, x.log + [e], p) {
      OrderIn(x, p);
      QueuedOnly(x, p, w);
      CountAt(x, p);
      DroppedOrder(x.s.works, r.works, x.s.queues[p].fifo, x.log, e, p);
    }
  }

  lemma CancelHistory(x: World, w: Work)
    requires Inv(x) && w in x.s.works
    ensures History(x.(s := Cancel(x.s, w), log := CancelLog(x, w)))
  {
    hide Linked, Deferred, Executing, GatesOk, IdsOk, FatesOk, TalliesOk, OrderOk, Wf, Without;
    var r, i := x.(s := Cancel(x.s, w), log := CancelLog(x, w)), x.s.works[w];
    IdAt(x, w);
    QueuedAt(x.s, w);
    if w.magic && w.sync && i.flags.queued {
      CancelOrder(x, w);
      EventHistory(x, r, Event(Dropped, i.queue, Ticket(w, i.sub)));
    } else {
      QuietHistory(x, r);
    }
  }

  lemma PopOrder(x: World, q: WorkQueue)
    requires Inv(x) && q in x.pc && x.s.queues[q].fifo != [] && x.s.queues[q].fifo[0].Of?
    ensures var r := PopNext(x, q); OrderOk(r.s.works, r.s.queues, r.log)
  {
    hide Linked, Deferred, Executing, GatesOk, IdsOk, FatesOk, TalliesOk, OrderOk, InOrder, Wf;
    var r, f := PopNext(x, q), x.s.queues[q].fifo;
    var w := f[0].work;
    HeadAt(x.s, q);
    Ordered(r.s, r.log);
    forall p | p in r.s.queues ensures InOrder(r.s.works, r.s.queues[p].fifo, r.log, p) {
      OrderIn(x, p);
      BegunOrder(x.s.works, r.s.works, x.s.queues[p].fifo, x.log,
                 Event(Begun, q, Ticket(w, x.s.works[w].sub)), p);
    }
  }

  lemma PopHistory(x: World, q: WorkQueue)
    requires Inv(x) && q in x.pc && x.pc[q] == Waiting
    ensures History(PopNext(x, q))
  {
    hide Linked, Deferred, Executing, GatesOk, IdsOk, FatesOk, TalliesOk, OrderOk, Wf, Without;
    var r, f := PopNext(x, q), x.s.queues[q].fifo;
    if f != [] && f[0].Of? {
      var w := f[0].work;
      HeadAt(x.s, q);
      IdAt(x, w);
      RunningOnce(x, q, w);
      PopOrder(x, q);
      EventHistory(x, r, Event(Begun, q, Ticket(w, x.s.works[w].sub)));
    } else {
      if f != [] {
        StopAlone(x, q);
      }
      QuietHistory(x, r);
    }
  }

  /** An item at the head of a queue whose worker is idle is not running. */
  lemma RunningOnce(x: World, q: WorkQueue, w: Work)
    requires Inv(x) && q in x.pc && !x.pc[q].Running? && w in x.s.works && x.s.works[w].queue == q
    ensures !x.s.works[w].flags.running
  {}

  lemma StopAlone(x: World, q: WorkQueue)
    requires Inv(x) && q in x.pc && x.s.queues[q].fifo != [] && x.s.queues[q].fifo[0] == Stop
    ensures x.s.queues[q].fifo == [Stop]
  {
    hide Linked, Deferred, Executing, IdsOk, History, Wf;
    assert Stop in x.s.queues[q].fifo;
  }

  lemma FinishHistory(x: World, q: WorkQueue)
    requires Inv(x) && q in x.pc && x.pc[q].Running?
    ensures History(FinishNext(x, q))
  {
    hide Linked, Deferred, Executing, GatesOk, IdsOk, FatesOk, TalliesOk, InOrder, Wf;
    var r, w := FinishNext(x, q), x.pc[q].w;
    var e := Event(Ended, q, Ticket(w, x.s.works[w].run));
    IdAt(x, w);
    RunningAt(x, q);
    forall p | p in r.s.queues ensures InOrder(r.s.works, r.s.queues[p].fifo, r.log, p) {
      assert InOrder(x.s.works, x.s.queues[p].fifo, x.log, p);
      EndedOrder(x.s.works, r.s.works, x.s.queues[p].fifo, x.log, e, p);
    }
    EventHistory(x, r, e);
  }

  lemma PromoteHistory(x: World, q: WorkQueue)
    requires Inv(x) && q in x.pc && x.pc[q].Promoting? && IdLeft(x, x.pc[q].w)
    ensures History(PromoteNext(x, q))
  {
    hide Coupling, FatesOk, TalliesOk, OrderOk, Wf, Submit;
    if !x.pc[q].blocked {
      SubmitHistory(x, q, x.pc[q].w, q);
    }
  }

  lemma DetachDelays(s: State, q: WorkQueue, w: Work)
    requires Wf(s) && q in s.queues && w in s.works
    ensures OnlyDelays(s, Detach(s, q, w))
  {
    hide Without, Wf;
  }

  lemma UndelayDelays(s: State, w: Work)
    requires Wf(s) && w in s.works
    ensures OnlyDelays(s, Undelay(s, w))
  {
    hide Without;
  }

  lemma ScheduleDelays(s: State, q: WorkQueue, w: Work, delay: nat, again: bool, caller: WorkQueue?, now: nat)
    requires Wf(s) && w in s.works && q in s.queues
    ensures OnlyDelays(s, Schedule(s, q, w, delay, again, caller, now))
  {
    hide Undelay, Wf;
    UndelayDelays(s, w);
  }

  lemma ScanDelays(s: State, q: WorkQueue, now: nat)
    requires Wf(s) && q in s.queues
    ensures OnlyDelays(s, Scan(s, q, now).0)
  {
    hide Detach, OnlyDelays;
    var k := FirstDue(s.works, s.queues[q].delayed, now);
    if k < |s.queues[q].delayed| {
      DetachDelays(s, q, s.queues[q].delayed[k]);
    } else {
      SameDelays(s);
    }
  }

  lemma ReleaseDelays(s: State, q: WorkQueue)
    requires Wf(s) && q in s.queues
    ensures OnlyDelays(s, StopRelease(s, q))
  {
    hide Detach, OnlyDelays;
    if s.queues[q].delayed != [] {
      assert s.queues[q].delayed[0] in s.queues[q].delayed;
      DetachDelays(s, q, s.queues[q].delayed[0]);
    } else {
      SameDelays(s);
    }
  }

  lemma SameDelays(s: State)
    ensures OnlyDelays(s, s)
  {}

  /** Delaying, un-delaying and the promotion scan log nothing. */
  lemma DelayHistory(x: World, step: Step)
    requires Inv(x) && Enabled(x, step)
    requires step.ScheduleStep? || step.UndelayStep? || step.ScanStep? || step.StopReleaseStep?
    ensures History(Next(x, step))
  {
    hide Coupling, History, Unlogged, OnlyDelays, Wf, Schedule, Undelay, Scan, StopRelease;
    match step {
      case ScheduleStep(q, w, delay, again, caller, now) => ScheduleDelays(x.s, q, w, delay, again, caller, now);
      case UndelayStep(w) => UndelayDelays(x.s, w);
      case ScanStep(q, now) => ScanDelays(x.s, q, now);
      case StopReleaseStep(q) => ReleaseDelays(x.s, q);
    }
    DelaysUnlogged(x.s, Next(x, step).s);
    QuietHistory(x, Next(x, step));
  }

  lemma GateHistory(x: World, step: Step)
    requires Inv(x) && Enabled(x, step)
    requires step.StartStep? || step.DrainBeginStep? || step.DrainPollStep? || step.UnplugStep?
             || step.StopMarkStep? || step.StopEndStep? || step.TimeoutStep?
    ensures History(Next(x, step))
  {
    hide Linked, Deferred, Executing, GatesOk, IdsOk, FatesOk, TalliesOk, OrderOk, Wf;
    GateAt(x, step.on);
    CountAt(x, step.on);
    QuietHistory(x, Next(x, step));
  }

  lemma StepKeeps(x: World, step: Step)
    requires Inv(x) && Enabled(x, step)
    ensures Inv(Next(x, step))
  {
    hide Coupling, History, Wf, Submit, Cancel, Schedule, Undelay, ScanNext, PromoteNext, PopNext, FinishNext,
         Start, DrainBegin, DrainPoll, Unplug, StopMark, StopEnd, StopRelease;
    StepCoupled(x, step);
    match step
    case SubmitStep(q, w, caller) => SubmitHistory(x, q, w, caller);
    case CancelStep(w) => CancelHistory(x, w);
    case PromoteStep(q) => PromoteHistory(x, q);
    case PopStep(q) => PopHistory(x, q);
    case FinishStep(q) => FinishHistory(x, q);
    case ScheduleStep(_, _, _, _, _, _) => DelayHistory(x, step);
    case UndelayStep(_) => DelayHistory(x, step);
    case ScanStep(_, _) => DelayHistory(x, step);
    case StopReleaseStep(_) => DelayHistory(x, step);
    case _ => GateHistory(x, step);
  }

  lemma {:induction false} RunInv(x: World, steps: seq<Step>)
    requires Inv(x) && Legal(x, steps)
    ensures Inv(Exec(x, steps))
    decreases |steps|
  {
    hide Inv, Next, Enabled;
    if steps != [] {
      StepKeeps(x, steps[0]);
      RunInv(Next(x, steps[0]), steps[1..]);
    }
  }

  lemma InitInv(x: World)
    requires Init(x)
    ensures Inv(x)
  {
    InitCoupled(x);
    hide Coupling;
  }
}
