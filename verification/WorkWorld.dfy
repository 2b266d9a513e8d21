/** Any number of callers and workers interleaving the critical sections of
    the work queue, with a log of what was accepted, run and cancelled. */
module WorkWorld {
  import opened MachineInts
  import opened WorkObjects
  import opened WorkSpec

  /** Where a worker thread is between two critical sections: about to look
      for due items, between unlinking a due item and submitting it, in its
      timed wait, in a handler, or gone. */
  datatype Pc = Scanning | Promoting(w: Work, blocked: bool) | Waiting | Running(w: Work) | Exited

  /** One submission of one item. */
  datatype Ticket = Ticket(w: Work, id: int)

  datatype Kind = Submitted | Begun | Ended | Dropped

  datatype Event = Event(kind: Kind, q: WorkQueue, t: Ticket)

  datatype World = World(s: State, pc: map<WorkQueue, Pc>, log: seq<Event>)

  /** `caller` names the queue whose handler makes the call, null elsewhere. */
  datatype Step =
    | SubmitStep(q: WorkQueue?, w: Work, caller: WorkQueue?)
    | CancelStep(w: Work)
    | ScheduleStep(to: WorkQueue, w: Work, delay: nat, again: bool, caller: WorkQueue?, now: nat)
    | UndelayStep(w: Work)
    | ScanStep(on: WorkQueue, now: nat)
    | PromoteStep(on: WorkQueue)
    | TimeoutStep(on: WorkQueue)
    | PopStep(on: WorkQueue)
    | FinishStep(on: WorkQueue)
    | StartStep(on: WorkQueue, stackSize: nat, native: Native)
    | DrainBeginStep(on: WorkQueue, plug: bool)
    | DrainPollStep(on: WorkQueue)
    | UnplugStep(on: WorkQueue)
    | StopMarkStep(on: WorkQueue, caller: WorkQueue?)
    | StopReleaseStep(on: WorkQueue)
    | StopEndStep(on: WorkQueue)

  ghost predicate WorldWf(x: World) {
    && Wf(x.s) && x.pc.Keys == x.s.queues.Keys
    && (forall q {:trigger x.pc[q]} :: q in x.pc && (x.pc[q].Promoting? || x.pc[q].Running?) ==>
          x.pc[q].w in x.s.works)
  }

  ghost predicate Calls(x: World, caller: WorkQueue?) {
    caller == null || (caller in x.pc && x.pc[caller].Running?)
  }

  ghost predicate IdLeft(x: World, w: Work) {
    w in x.s.works && x.s.works[w].sub < UINT32 - 1
  }

  /** Which steps a scheduler may take. Two things are asked of the system:
      submission numbers do not wrap, and a queue is stopped once per start. */
  ghost predicate Enabled(x: World, step: Step)
    requires WorldWf(x)
  {
    match step
    case SubmitStep(q, w, caller) => IdLeft(x, w) && (q != null ==> q in x.pc) && Calls(x, caller)
    case CancelStep(w) => w in x.s.works
    case ScheduleStep(q, w, _, _, caller, _) => q in x.pc && w in x.s.works && Calls(x, caller)
    case UndelayStep(w) => w in x.s.works
    case ScanStep(q, _) => q in x.pc && x.pc[q] == Scanning
    case PromoteStep(q) => q in x.pc && x.pc[q].Promoting? && IdLeft(x, x.pc[q].w)
    case TimeoutStep(q) => q in x.pc && x.pc[q] == Waiting
    case PopStep(q) => q in x.pc && x.pc[q] == Waiting
    case FinishStep(q) => q in x.pc && x.pc[q].Running?
    case StartStep(q, _, _) => q in x.pc
    case DrainBeginStep(q, _) => q in x.pc && x.s.queues[q].gates.started
    case DrainPollStep(q) => q in x.pc && x.s.queues[q].gates.started
    case UnplugStep(q) => q in x.pc
    case StopMarkStep(q, caller) => q in x.pc && Calls(x, caller) && !x.s.queues[q].gates.stopping
    case StopReleaseStep(q) => q in x.pc && Joined(x, q)
    case StopEndStep(q) => q in x.pc && Joined(x, q) && x.s.queues[q].delayed == []
  }

  /** A stop call on `q` has seen its worker exit. */
  ghost predicate Joined(x: World, q: WorkQueue)
    requires WorldWf(x) && q in x.pc
  {
    x.s.queues[q].gates.started && x.s.queues[q].gates.stopping && x.pc[q] == Exited
  }

  ghost function SubmitLog(x: World, q: WorkQueue?, w: Work, caller: WorkQueue?): seq<Event>
    requires WorldWf(x) && w in x.s.works && (q != null ==> q in x.s.queues)
  {
    if Accepted(SubmitReply(x.s, q, w, caller))
    then x.log + [Event(Submitted, Target(x.s, q, w), Ticket(w, x.s.works[w].sub + 1))]
    else x.log
  }

  ghost function CancelLog(x: World, w: Work): seq<Event>
    requires WorldWf(x) && w in x.s.works
  {
    var i := x.s.works[w];
    if w.magic && w.sync && i.flags.queued && i.queue != null
    then x.log + [Event(Dropped, i.queue, Ticket(w, i.sub))]
    else x.log
  }

  ghost function ScanNext(x: World, q: WorkQueue, now: nat): (r: World)
    requires WorldWf(x) && q in x.pc
    ensures WorldWf(r) && r.s.works.Keys == x.s.works.Keys && r.pc.Keys == x.pc.Keys
  {
    var (s, due, blocked) := Scan(x.s, q, now);
    x.(s := s, pc := x.pc[q := if due == null then Waiting else Promoting(due, blocked)])
  }

  /** The due item is submitted by the worker itself, or only notified. */
  ghost function PromoteNext(x: World, q: WorkQueue): (r: World)
    requires WorldWf(x) && q in x.pc && x.pc[q].Promoting?
    ensures WorldWf(r) && r.s.works.Keys == x.s.works.Keys && r.pc.Keys == x.pc.Keys
  {
    var w, pc := x.pc[q].w, x.pc[q := Scanning];
    if x.pc[q].blocked then x.(pc := pc)
    else World(Submit(x.s, q, w, q), pc, SubmitLog(x, q, w, q))
  }

  ghost function PopNext(x: World, q: WorkQueue): (r: World)
    requires WorldWf(x) && q in x.pc
    ensures WorldWf(r) && r.s.works.Keys == x.s.works.Keys && r.pc.Keys == x.pc.Keys
  {
    var (s, got) := Pop(x.s, q);
    match got
    case Nothing => World(s, x.pc[q := Scanning], x.log)
    case Finished => World(s, x.pc[q := Exited], x.log)
    case Take(w) => World(s, x.pc[q := Running(w)], x.log + [Event(Begun, q, Ticket(w, s.works[w].run))])
  }

  ghost function FinishNext(x: World, q: WorkQueue): (r: World)
    requires WorldWf(x) && q in x.pc && x.pc[q].Running?
    ensures WorldWf(r) && r.s.works.Keys == x.s.works.Keys && r.pc.Keys == x.pc.Keys
  {
    var w := x.pc[q].w;
    World(Finish(x.s, q, w), x.pc[q := Scanning], x.log + [Event(Ended, q, Ticket(w, x.s.works[w].run))])
  }

  ghost function Next(x: World, step: Step): (r: World)
    requires WorldWf(x) && Enabled(x, step)
    ensures WorldWf(r) && r.s.works.Keys == x.s.works.Keys && r.pc.Keys == x.pc.Keys
  {
    match step
    case SubmitStep(q, w, caller) => x.(s := Submit(x.s, q, w, caller), log := SubmitLog(x, q, w, caller))
    case CancelStep(w) => x.(s := Cancel(x.s, w), log := CancelLog(x, w))
    case ScheduleStep(q, w, delay, again, caller, now) => x.(s := Schedule(x.s, q, w, delay, again, caller, now))
    case UndelayStep(w) => x.(s := Undelay(x.s, w))
    case ScanStep(q, now) => ScanNext(x, q, now)
    case PromoteStep(q) => PromoteNext(x, q)
    case TimeoutStep(q) => x.(pc := x.pc[q := Scanning])
    case PopStep(q) => PopNext(x, q)
    case FinishStep(q) => FinishNext(x, q)
    case StartStep(q, stackSize, native) =>
      x.(s := Start(x.s, q, stackSize, native),
         pc := if StartReply(x.s, q, stackSize, native) == NoChange then x.pc[q := Scanning] else x.pc)
    case DrainBeginStep(q, plug) => x.(s := DrainBegin(x.s, q, plug))
    case DrainPollStep(q) => x.(s := DrainPoll(x.s, q))
    case UnplugStep(q) => x.(s := Unplug(x.s, q))
    case StopMarkStep(q, caller) => x.(s := StopMark(x.s, q, caller))
    case StopReleaseStep(q) => x.(s := StopRelease(x.s, q))
    case StopEndStep(q) => x.(s := StopEnd(x.s, q).0)
  }

  /** The step starts queue `q`. */
  predicate Starts(step: Step, q: WorkQueue) {
    step.StartStep? && step.on == q
  }

  // ---- Runs

  ghost predicate Legal(x: World, steps: seq<Step>)
    requires WorldWf(x)
    decreases |steps|
  {
    steps == [] || (Enabled(x, steps[0]) && Legal(Next(x, steps[0]), steps[1..]))
  }

  ghost function Exec(x: World, steps: seq<Step>): (r: World)
    requires WorldWf(x) && Legal(x, steps)
    ensures WorldWf(r) && r.s.works.Keys == x.s.works.Keys && r.pc.Keys == x.pc.Keys
    decreases |steps|
  {
    if steps == [] then x else Exec(Next(x, steps[0]), steps[1..])
  }

  lemma LegalNil(x: World)
    requires WorldWf(x)
    ensures Legal(x, []) && Exec(x, []) == x
  {}

  lemma LegalStep(x: World, step: Step, steps: seq<Step>)
    requires WorldWf(x) && Enabled(x, step) && Legal(Next(x, step), steps)
    ensures Legal(x, [step] + steps) && Exec(x, [step] + steps) == Exec(Next(x, step), steps)
  {
    assert ([step] + steps)[1..] == steps;
    hide Enabled, Next;
  }

  lemma {:induction false} LegalThen(x: World, steps: seq<Step>, step: Step)
    requires WorldWf(x) && Legal(x, steps) && Enabled(Exec(x, steps), step)
    ensures Legal(x, steps + [step]) && Exec(x, steps + [step]) == Next(Exec(x, steps), step)
    decreases |steps|
  {
    hide WorldWf, Enabled, Next;
    if steps == [] {
      LegalNil(Next(x, step));
      LegalStep(x, step, []);
      assert [] + [step] == [step] + [];
    } else {
      LegalThen(Next(x, steps[0]), steps[1..], step);
      assert (steps + [step])[1..] == steps[1..] + [step];
    }
  }
}
