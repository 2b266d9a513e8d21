/** Delays in unbounded time: a scheduled item comes off the delayed list at its
    deadline, and never before. */
module WorkDeadlines {
  import opened Lists
  import opened MachineInts
  import opened WorkObjects
  import opened WorkSpec
  import opened WorkWorld
  import opened WorkInvariants
  import opened WorkHistory
  import opened WorkRuns
  import opened WorkStop
  import opened WorkAnswers
  import opened WorkPromotion

  // ---- The deadline

  /** Called at time `now`, a schedule that goes ahead puts the item last in the
      delayed list with `delay` ticks left, and at any later time up to half a
      wrap past its deadline the time left is the real one. */
  lemma ScheduledAt(s: State, q: WorkQueue, w: Work, delay: nat, again: bool, caller: WorkQueue?, now: nat)
    requires Wf(s) && q in s.queues && w in s.works && ScheduleReply(s, q, w, delay, again, caller) == Scheduled
    ensures var r := Schedule(s, q, w, delay, again, caller, now % UINT32); var d := r.queues[q].delayed;
            && d != [] && d[|d| - 1] == w && w in r.works && r.works[w].flags.delayed && r.works[w].delayQueue == q
            && Remaining(r.works[w].deadline, now % UINT32) == delay
            && (forall time: nat :: now <= time <= now + delay + 0x8000_0000 ==>
                  Remaining(r.works[w].deadline, time % UINT32)
                  == if now + delay > time then now + delay - time else 0)
  {
    hide Wf, Remaining, Undelay;
    DeadlineSet(s, q, w, delay, again, caller, now);
    RemainingExact(now + delay, now);
    forall time: nat | now <= time <= now + delay + 0x8000_0000
      ensures Remaining((now + delay) % UINT32, time % UINT32) == if now + delay > time then now + delay - time else 0
    {
      RemainingExact(now + delay, time);
    }
  }

  lemma DeadlineSet(s: State, q: WorkQueue, w: Work, delay: nat, again: bool, caller: WorkQueue?, now: nat)
    requires Wf(s) && q in s.queues && w in s.works && ScheduleReply(s, q, w, delay, again, caller) == Scheduled
    ensures Schedule(s, q, w, delay, again, caller, now % UINT32).works[w].deadline == (now + delay) % UINT32
    ensures delay <= INT32_MAX
  {
    hide Wf, Undelay;
  }

  /** The deadlines of the other items stay what they were. */
  lemma ScheduleWindow(x: World, q: WorkQueue, w: Work, delay: nat, again: bool, caller: WorkQueue?, now: nat,
                       due: map<Work, nat>, time: nat)
    requires Inv(x) && q in x.pc && w in x.s.works && ScheduleReply(x.s, q, w, delay, again, caller) == Scheduled
    requires Window(due, x.s.works, Without<Work>(x.s.queues[q].delayed, w), time)
    requires now <= time <= now + delay + HALF
    ensures var r := Schedule(x.s, q, w, delay, again, caller, now % UINT32);
            && r.queues[q].delayed == Without<Work>(x.s.queues[q].delayed, w) + [w] && Distinct(r.queues[q].delayed)
            && Window(due[w := now + delay], r.works, r.queues[q].delayed, time)
  {
    hide Wf, Coupled, History, Schedule, ScheduleReply, Without, Distinct, Window;
    ScheduleLeaves(x, q, w, delay, again, caller, now % UINT32);
    DeadlineSet(x.s, q, w, delay, again, caller, now);
    DistinctDelayed(x, q);
    WithoutKeeps<Work>(x.s.queues[q].delayed, w);
    var rest, r := Without<Work>(x.s.queues[q].delayed, w), Schedule(x.s, q, w, delay, again, caller, now % UINT32);
    AppendDistinct<Work>(rest, w);
    WindowMore(due, x.s.works, rest, r.works, w, now + delay, time);
  }

  lemma WindowMore(due: map<Work, nat>, works: Works, rest: seq<Work>, works': Works, w: Work, deadline: nat, time: nat)
    requires Window(due, works, rest, time) && w in works && w in works' && works' == works[w := works'[w]]
    requires w !in rest && works'[w].deadline == deadline % UINT32
    requires deadline - time < HALF && time - deadline <= HALF
    ensures Window(due[w := deadline], works', rest + [w], time)
  {}

  lemma DistinctDelayed(x: World, q: WorkQueue)
    requires Inv(x) && q in x.pc
    ensures Distinct(x.s.queues[q].delayed)
  {
    hide Linked, Executing, GatesOk, IdsOk, History, Wf, Distinct;
  }

  lemma LaterIn(due: map<Work, nat>, d: seq<Work>, now: nat, w: Work)
    requires forall v :: v in d ==> v in due
    ensures w in Later(due, d, now) <==> w in d && due[w] > now
  {}

  /** An item scheduled at `now` for `delay` ticks, and then promotion without
      interference: the item leaves the list at no sample before `now + delay`,
      and once there is one at or after it, it has left. */
  lemma ScheduledPromotion(x: World, q: WorkQueue, w: Work, delay: nat, again: bool, caller: WorkQueue?, now: nat,
                           clock: nat -> nat, due: map<Work, nat>)
    requires Inv(x) && q in x.pc && w in x.s.works && ScheduleReply(x.s, q, w, delay, again, caller) == Scheduled
    requires now <= clock(0) && forall i, j :: 0 <= i <= j ==> clock(i) <= clock(j)
    requires forall i :: 0 <= i <= Promote(Schedule(x.s, q, w, delay, again, caller, now % UINT32), q, clock, 0).2 ==>
               clock(i) <= now + delay + HALF
               && Window(due, x.s.works, Without<Work>(x.s.queues[q].delayed, w), clock(i))
    ensures var s := Schedule(x.s, q, w, delay, again, caller, now % UINT32);
            var due', (r, timeout, last) := due[w := now + delay], Promote(s, q, clock, 0);
            && (w in r.queues[q].delayed <==> clock(last) < now + delay)
            && (clock(last) < now + delay ==> timeout <= now + delay - clock(last))
            && (forall v :: v in s.queues[q].delayed ==> v in due')
            && (forall i :: 0 <= i < |Taken(due', s.queues[q].delayed, clock, 0)| ==>
                  Taken(due', s.queues[q].delayed, clock, 0)[i] == w ==> now + delay <= clock(i))
  {
    hide Wf, Coupled, History, Schedule, ScheduleReply, Without, Distinct, Promote, Window, Later, Taken;
    var s, due' := Schedule(x.s, q, w, delay, again, caller, now % UINT32), due[w := now + delay];
    var last := Promote(s, q, clock, 0).2;
    forall i | 0 <= i <= last
      ensures Distinct(s.queues[q].delayed) && w in s.queues[q].delayed
      ensures Window(due', s.works, s.queues[q].delayed, clock(i))
    {
      assert clock(0) <= clock(i);
      ScheduleWindow(x, q, w, delay, again, caller, now, due, clock(i));
    }
    assert Window(due', s.works, s.queues[q].delayed, clock(last));
    PromoteExact(s, q, clock, 0, due');
    LaterIn(due', s.queues[q].delayed, clock(last), w);
    TakenDue(due', s.queues[q].delayed, clock, 0);
  }

  // ---- Never early, whatever else goes on

  /** `w` waits in the delayed list of `q` for the tick `due` wraps to. */
  ghost predicate Pends(x: World, q: WorkQueue, w: Work, due: nat) {
    && q in x.s.queues && w in x.s.works && w in x.s.queues[q].delayed
    && x.s.works[w].flags.delayed && x.s.works[w].delayQueue == q && x.s.works[w].deadline == due % UINT32
  }

  /** The tick `now` is that of a time less than half a wrap before `due`. */
  ghost predicate Before(now: nat, due: nat) {
    exists time: nat {:trigger time % UINT32} :: time < due && due - time < HALF && now == time % UINT32
  }

  /** The calls that take a delayed item off its list, and the scans of the
      list that may find it due. */
  ghost predicate Releases(step: Step, q: WorkQueue, w: Work, due: nat) {
    match step
    case ScheduleStep(_, v, _, again, _, _) => v == w && again
    case UndelayStep(v) => v == w
    case ScanStep(on, now) => on == q && !Before(now, due)
    case StopReleaseStep(on) => on == q
    case _ => false
  }

  lemma BeforeLeft(now: nat, due: nat)
    requires Before(now, due)
    ensures Remaining(due % UINT32, now) > 0
  {
    var time: nat :| time < due && due - time < HALF && now == time % UINT32;
    RemainingExact(due, time);
  }

  /** Nothing about delays changes. */
  ghost predicate SameDelay(s: State, r: State, q: WorkQueue, w: Work) {
    && q in s.queues && q in r.queues && w in s.works && w in r.works
    && r.queues[q].delayed == s.queues[q].delayed
    && r.works[w].flags.delayed == s.works[w].flags.delayed
    && r.works[w].delayQueue == s.works[w].delayQueue && r.works[w].deadline == s.works[w].deadline
  }

  lemma SubmitSame(s: State, to: WorkQueue?, v: Work, caller: WorkQueue?, q: WorkQueue, w: Work)
    requires Wf(s) && v in s.works && (to != null ==> to in s.queues) && q in s.queues && w in s.works
    ensures SameDelay(s, Submit(s, to, v, caller), q, w)
  {
    hide Wf;
  }

  lemma CancelSame(s: State, v: Work, q: WorkQueue, w: Work)
    requires Wf(s) && v in s.works && q in s.queues && w in s.works
    ensures SameDelay(s, Cancel(s, v), q, w)
  {
    hide Wf, Without;
  }

  lemma PopSame(s: State, p: WorkQueue, q: WorkQueue, w: Work)
    requires Wf(s) && p in s.queues && q in s.queues && w in s.works
    ensures SameDelay(s, Pop(s, p).0, q, w)
  {
    if s.queues[p].fifo != [] {
      assert s.queues[p].fifo[0] in s.queues[p].fifo;
    }
  }

  lemma FinishSame(s: State, p: WorkQueue, v: Work, q: WorkQueue, w: Work)
    requires Wf(s) && p in s.queues && v in s.works && q in s.queues && w in s.works
    ensures SameDelay(s, Finish(s, p, v), q, w)
  {
    hide Wf;
  }

  lemma SchedulePends(x: World, to: WorkQueue, v: Work, delay: nat, again: bool, caller: WorkQueue?, now: nat,
                      q: WorkQueue, w: Work, due: nat)
    requires Inv(x) && to in x.pc && v in x.s.works && Pends(x, q, w, due) && (v == w ==> !again)
    ensures Pends(x.(s := Schedule(x.s, to, v, delay, again, caller, now)), q, w, due)
  {
    hide Wf, Coupling, History, Schedule, Without, Distinct;
    ScheduleLeaves(x, to, v, delay, again, caller, now);
    DistinctDelayed(x, q);
    WithoutKeeps<Work>(x.s.queues[q].delayed, v);
  }

  lemma UndelayPends(x: World, v: Work, q: WorkQueue, w: Work, due: nat)
    requires Inv(x) && v in x.s.works && Pends(x, q, w, due) && v != w
    ensures Pends(x.(s := Undelay(x.s, v)), q, w, due)
  {
    hide Wf, Coupling, History, Undelay, Without, Distinct;
    UndelayLeaves(x, v);
    DistinctDelayed(x, q);
    WithoutKeeps<Work>(x.s.queues[q].delayed, v);
  }

  /** Any other item may leave the list of `p`. */
  lemma DetachPends(x: World, p: WorkQueue, v: Work, q: WorkQueue, w: Work, due: nat)
    requires Inv(x) && p in x.pc && v in x.s.works && Pends(x, q, w, due) && v != w
    ensures Pends(x.(s := Detach(x.s, p, v)), q, w, due)
  {
    hide Wf, Coupling, History, Without, Distinct;
    DistinctDelayed(x, p);
    WithoutKeeps<Work>(x.s.queues[p].delayed, v);
  }

  lemma ElsewhereOther(x: World, p: WorkQueue, v: Work, q: WorkQueue, w: Work, due: nat)
    requires Inv(x) && p in x.pc && v in x.s.queues[p].delayed && Pends(x, q, w, due) && p != q
    ensures v in x.s.works && v != w
  {
    hide Linked, Executing, GatesOk, IdsOk, History, Wf;
  }

  lemma ScanPends(x: World, p: WorkQueue, now: nat, q: WorkQueue, w: Work, due: nat)
    requires Inv(x) && p in x.pc && Pends(x, q, w, due) && (p == q ==> Before(now, due))
    ensures Pends(ScanNext(x, p, now), q, w, due)
  {
    hide Coupling, History, Detach, Remaining, Before;
    var d := x.s.queues[p].delayed;
    var k := FirstDue(x.s.works, d, now);
    if k < |d| {
      assert d[k] in d;
      if p == q {
        BeforeLeft(now, due);
      } else {
        ElsewhereOther(x, p, d[k], q, w, due);
      }
      DetachPends(x, p, d[k], q, w, due);
    }
  }

  lemma ReleasePends(x: World, p: WorkQueue, q: WorkQueue, w: Work, due: nat)
    requires Inv(x) && p in x.pc && Pends(x, q, w, due) && p != q
    ensures Pends(x.(s := StopRelease(x.s, p)), q, w, due)
  {
    hide Coupling, History, Detach;
    var d := x.s.queues[p].delayed;
    if d != [] {
      assert d[0] in d;
      ElsewhereOther(x, p, d[0], q, w, due);
      DetachPends(x, p, d[0], q, w, due);
    }
  }

  lemma GatesSame(x: World, step: Step, q: WorkQueue, w: Work)
    requires WorldWf(x) && Enabled(x, step) && q in x.pc && w in x.s.works
    requires step.DrainBeginStep? || step.DrainPollStep? || step.UnplugStep? || step.StopMarkStep?
             || step.StopEndStep? || step.TimeoutStep?
    ensures SameDelay(x.s, Next(x, step).s, q, w)
  {
    hide Wf, Submit, Cancel, Schedule, Undelay, ScanNext, PromoteNext, PopNext, FinishNext, StopRelease, Start;
  }

  /** A queue with a delayed item is in use, so that a start leaves it alone. */
  lemma StartSame(x: World, p: WorkQueue, stackSize: nat, native: Native, q: WorkQueue, w: Work)
    requires Inv(x) && p in x.pc && q in x.pc && w in x.s.works && w in x.s.queues[q].delayed
    ensures SameDelay(x.s, Start(x.s, p, stackSize, native), q, w)
  {
    hide Linked, Deferred, Executing, IdsOk, GatesOk, History, Wf;
    GateAt(x, q);
  }

  lemma StepPends(x: World, step: Step, q: WorkQueue, w: Work, due: nat)
    requires Inv(x) && Enabled(x, step) && Pends(x, q, w, due) && !Releases(step, q, w, due)
    ensures Pends(Next(x, step), q, w, due)
  {
    hide Wf, Coupling, History, Before, Submit, Cancel, Schedule, Undelay, ScanNext, Pop, Finish,
         Start, DrainBegin, DrainPoll, Unplug, StopMark, StopEnd, StopRelease;
    match step
    case SubmitStep(to, v, caller) => SubmitSame(x.s, to, v, caller, q, w);
    case PromoteStep(p) => SubmitSame(x.s, p, x.pc[p].w, p, q, w);
    case CancelStep(v) => CancelSame(x.s, v, q, w);
    case PopStep(p) => PopSame(x.s, p, q, w);
    case FinishStep(p) => FinishSame(x.s, p, x.pc[p].w, q, w);
    case ScheduleStep(to, v, delay, again, caller, now) =>
      SchedulePends(x, to, v, delay, again, caller, now, q, w, due);
    case UndelayStep(v) => UndelayPends(x, v, q, w, due);
    case ScanStep(p, now) => ScanPends(x, p, now, q, w, due);
    case StopReleaseStep(p) => ReleasePends(x, p, q, w, due);
    case StartStep(p, stackSize, native) => StartSame(x, p, stackSize, native, q, w);
    case _ => GatesSame(x, step, q, w);
  }

  lemma {:induction false} RunPends(x: World, steps: seq<Step>, q: WorkQueue, w: Work, due: nat)
    requires Inv(x) && Legal(x, steps) && Pends(x, q, w, due)
    requires forall t :: t in steps ==> !Releases(t, q, w, due)
    ensures Pends(Exec(x, steps), q, w, due)
    decreases |steps|
  {
    hide Inv, Next, Enabled, Pends, Releases;
    if steps != [] {
      assert steps[0] in steps && forall t :: t in steps[1..] ==> t in steps;
      StepPends(x, steps[0], q, w, due);
      StepKeeps(x, steps[0]);
      RunPends(Next(x, steps[0]), steps[1..], q, w, due);
    }
  }

  /** An item scheduled at `now` for `delay` ticks stays delayed over every run
      on which nobody reschedules it, cancels its delay or stops the queue, and
      the worker looks at the list at times before `now + delay` only. */
  lemma NeverEarly(x: World, q: WorkQueue, w: Work, delay: nat, again: bool, caller: WorkQueue?, now: nat,
                   steps: seq<Step>)
    requires Inv(x) && Enabled(x, ScheduleStep(q, w, delay, again, caller, now % UINT32))
    requires ScheduleReply(x.s, q, w, delay, again, caller) == Scheduled
    requires Legal(Next(x, ScheduleStep(q, w, delay, again, caller, now % UINT32)), steps)
    requires forall t :: t in steps ==> !Releases(t, q, w, now + delay)
    ensures var r := Exec(Next(x, ScheduleStep(q, w, delay, again, caller, now % UINT32)), steps).s;
            w in r.queues[q].delayed && w in r.works && r.works[w].flags.delayed
  {
    hide Coupled, History, Wf, Schedule, ScheduleReply, Releases, Remaining, Exec, Legal;
    var step := ScheduleStep(q, w, delay, again, caller, now % UINT32);
    ScheduledAt(x.s, q, w, delay, again, caller, now);
    DeadlineSet(x.s, q, w, delay, again, caller, now);
    StepKeeps(x, step);
    RunPends(Next(x, step), steps, q, w, now + delay);
  }

  /** The first item due is no further down than one that is. */
  lemma FirstAhead(works: Works, d: seq<Work>, w: Work, now: nat)
    requires (forall v :: v in d ==> v in works) && w in d && Remaining(works[w].deadline, now) == 0
    ensures var k := FirstDue(works, d, now);
            k < |d| && Remaining(works[d[k]].deadline, now) == 0 && Find<Work>(d, d[k]) <= Find<Work>(d, w)
  {
    hide Remaining, Find, FirstDue;
    assert d[Find<Work>(d, w)] == w;
  }

  /** A look at the list at its deadline, or up to half a wrap past it, finds the
      item due, unless it takes one ahead of it. */
  lemma DueFound(x: World, q: WorkQueue, w: Work, due: nat, time: nat)
    requires Inv(x) && Pends(x, q, w, due) && due <= time <= due + HALF
    ensures var d, v := x.s.queues[q].delayed, Scan(x.s, q, time % UINT32).1;
            v != null && v in d && v in x.s.works && Remaining(x.s.works[v].deadline, time % UINT32) == 0
            && Find<Work>(d, v) <= Find<Work>(d, w)
  {
    hide Coupling, History, Remaining, Find, FirstDue, Detach;
    RemainingExact(due, time);
    var d := x.s.queues[q].delayed;
    FirstAhead(x.s.works, d, w, time % UINT32);
    assert d[FirstDue(x.s.works, d, time % UINT32)] in d;
  }
}
