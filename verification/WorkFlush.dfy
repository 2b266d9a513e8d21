/** What a flush may conclude, and exactly when one can return. */
module WorkFlush {
  import opened Lists
  import opened MachineInts
  import opened WorkObjects
  import opened WorkSpec
  import opened WorkWorld
  import opened WorkInvariants
  import opened WorkHistory
  import opened WorkRuns

  // ---- How the numbers of an item move

  /** What any step may do to the numbers of item `w`. */
  ghost predicate Moves(step: Step, w: Work, i: Item, i': Item) {
    && i.sub <= i'.sub <= i.sub + 1
    && (i'.comp == i.comp || (i'.sub == i.sub && i'.comp == if i.flags.running then i.run else i.sub))
    && (i'.comp != i.comp && !i.flags.running ==> step == CancelStep(w))
    && (i'.flags.running ==>
          (i.flags.running && i'.run == i.run) || (i'.sub == i.sub && i.flags.queued && i'.run == i.sub))
    && (i'.flags.queued ==> i.flags.queued || i'.sub == i.sub + 1)
  }

  lemma StepMoves(x: World, step: Step, w: Work)
    requires Inv(x) && Enabled(x, step) && w in x.s.works
    ensures Moves(step, w, x.s.works[w], Next(x, step).s.works[w])
  {
    hide Inv, Wf, Moves, OnlyDelays, Submit, Cancel, Schedule, Undelay, ScanNext, PromoteNext, PopNext, FinishNext,
         Start, DrainBegin, DrainPoll, Unplug, StopMark, StopEnd, StopRelease;
    match step
    case SubmitStep(q, v, caller) => SubmitMoves(x, q, v, caller, step, w);
    case PromoteStep(q) => PromoteMoves(x, q, w);
    case CancelStep(v) => CancelMoves(x, v, w);
    case PopStep(q) => PopMoves(x, q, w);
    case FinishStep(q) => FinishMoves(x, q, w);
    case ScheduleStep(q, v, delay, again, caller, now) =>
      ScheduleDelays(x.s, q, v, delay, again, caller, now);
      DelayMoves(x.s, Next(x, step).s, step, w);
    case UndelayStep(v) =>
      UndelayDelays(x.s, v);
      DelayMoves(x.s, Next(x, step).s, step, w);
    case ScanStep(q, now) => ScanMoves(x, q, now, w);
    case StopReleaseStep(q) =>
      ReleaseDelays(x.s, q);
      DelayMoves(x.s, Next(x, step).s, step, w);
    case _ => SameMoves(step, w, x.s.works[w]);
  }

  lemma DelayMoves(s: State, r: State, step: Step, w: Work)
    requires OnlyDelays(s, r) && w in s.works
    ensures Moves(step, w, s.works[w], r.works[w])
  {}

  lemma SameMoves(step: Step, w: Work, i: Item)
    ensures Moves(step, w, i, i)
  {}

  lemma SubmitMoves(x: World, q: WorkQueue?, v: Work, caller: WorkQueue?, step: Step, w: Work)
    requires WorldWf(x) && IdLeft(x, v) && (q != null ==> q in x.pc) && w in x.s.works
    ensures Moves(step, w, x.s.works[w], Submit(x.s, q, v, caller).works[w])
  {
    hide Wf;
  }

  lemma PromoteMoves(x: World, q: WorkQueue, w: Work)
    requires WorldWf(x) && q in x.pc && x.pc[q].Promoting? && IdLeft(x, x.pc[q].w) && w in x.s.works
    ensures Moves(PromoteStep(q), w, x.s.works[w], PromoteNext(x, q).s.works[w])
  {
    hide Wf, Submit;
    SubmitMoves(x, q, x.pc[q].w, q, PromoteStep(q), w);
  }

  lemma CancelMoves(x: World, v: Work, w: Work)
    requires Inv(x) && v in x.s.works && w in x.s.works
    ensures Moves(CancelStep(v), w, x.s.works[w], Cancel(x.s, v).works[w])
  {
    hide Linked, Deferred, GatesOk, Executing, IdsOk, History, Wf, Without;
  }

  lemma PopMoves(x: World, q: WorkQueue, w: Work)
    requires Inv(x) && q in x.pc && w in x.s.works
    ensures Moves(PopStep(q), w, x.s.works[w], PopNext(x, q).s.works[w])
  {
    hide Linked, Deferred, GatesOk, Executing, IdsOk, History, Wf;
    if x.s.queues[q].fifo != [] {
      HeadAt(x.s, q);
    }
  }

  lemma FinishMoves(x: World, q: WorkQueue, w: Work)
    requires Inv(x) && q in x.pc && x.pc[q].Running? && w in x.s.works
    ensures Moves(FinishStep(q), w, x.s.works[w], FinishNext(x, q).s.works[w])
  {
    hide Linked, Deferred, GatesOk, Executing, IdsOk, History, Wf;
    RunningAt(x, q);
  }

  lemma ScanMoves(x: World, q: WorkQueue, now: nat, w: Work)
    requires WorldWf(x) && q in x.pc && w in x.s.works
    ensures Moves(ScanStep(q, now), w, x.s.works[w], ScanNext(x, q, now).s.works[w])
  {
    hide Wf, Scan;
    ScanDelays(x.s, q, now);
  }

  lemma StepMonotone(x: World, step: Step, w: Work)
    requires Inv(x) && Enabled(x, step) && w in x.s.works
    ensures x.s.works[w].comp <= Next(x, step).s.works[w].comp
    ensures x.s.works[w].sub <= Next(x, step).s.works[w].sub
  {
    hide Linked, Deferred, GatesOk, Executing, IdsOk, History, Wf, Next, Enabled;
    StepMoves(x, step, w);
    IdAt(x, w);
  }

  lemma {:induction false} RunMonotone(x: World, steps: seq<Step>, w: Work)
    requires Inv(x) && Legal(x, steps) && w in x.s.works
    ensures x.s.works[w].comp <= Exec(x, steps).s.works[w].comp
    ensures x.s.works[w].sub <= Exec(x, steps).s.works[w].sub
    decreases |steps|
  {
    hide Inv, Next, Enabled;
    if steps != [] {
      StepKeeps(x, steps[0]);
      StepMonotone(x, steps[0], w);
      RunMonotone(Next(x, steps[0]), steps[1..], w);
    }
  }

  /** Submission `id` of `w` has ended or been cancelled while queued. */
  ghost predicate Settled(log: seq<Event>, w: Work, id: int) {
    Count(log, Ended, Ticket(w, id)) + Count(log, Dropped, Ticket(w, id)) == 1
  }

  /** The completion number vouches for all submissions up to it. */
  lemma SettledUpTo(x: World, w: Work, id: int)
    requires Inv(x) && w in x.s.works && 1 <= id <= x.s.works[w].comp
    ensures Settled(x.log, w, id)
  {
    hide Linked, Deferred, Executing, GatesOk, TalliesOk, OrderOk, FatesOk, IdsOk, Count, Wf;
    IdAt(x, w);
    FateIn(x, w, id);
  }

  /** A flush that returns has waited for every submission made before it:
      it samples `target`, and returns on reading it as the completion number. */
  lemma FlushSafety(x: World, steps: seq<Step>, w: Work, id: int)
    requires Inv(x) && Legal(x, steps) && w in x.s.works && 1 <= id <= x.s.works[w].sub
    requires Exec(x, steps).s.works[w].comp == x.s.works[w].sub
    ensures Settled(Exec(x, steps).log, w, id)
  {
    RunInv(x, steps);
    hide Inv, Exec, Legal, Settled;
    SettledUpTo(Exec(x, steps), w, id);
  }

  // ---- When a flush can return

  /** The completion number of `w` can still come to be `target`: it is not
      past it, and `target` is the latest submission or the one running. */
  ghost predicate Attainable(i: Item, target: nat) {
    i.comp == target
    || (i.comp < target && (target == i.sub || (i.flags.running && i.run == target)))
  }

  lemma StepAttains(x: World, step: Step, w: Work, target: nat)
    requires Inv(x) && Enabled(x, step) && w in x.s.works && target <= x.s.works[w].sub
    requires !Attainable(x.s.works[w], target)
    ensures !Attainable(Next(x, step).s.works[w], target)
  {
    hide Linked, Deferred, GatesOk, Executing, IdsOk, History, Wf, Next, Enabled;
    StepMoves(x, step, w);
    IdAt(x, w);
  }

  lemma {:induction false} RunAttains(x: World, steps: seq<Step>, w: Work, target: nat)
    requires Inv(x) && Legal(x, steps) && w in x.s.works && target <= x.s.works[w].sub
    requires !Attainable(x.s.works[w], target)
    ensures Exec(x, steps).s.works[w].comp != target
    decreases |steps|
  {
    hide Inv, Next, Enabled;
    if steps != [] {
      StepKeeps(x, steps[0]);
      StepMonotone(x, steps[0], w);
      StepAttains(x, steps[0], w, target);
      RunAttains(Next(x, steps[0]), steps[1..], w, target);
    }
  }

  /** The end of the handler shows the running submission. */
  lemma FinishShows(x: World, w: Work) returns (q: WorkQueue)
    requires Inv(x) && w in x.s.works && x.s.works[w].flags.running
    ensures Enabled(x, FinishStep(q))
    ensures var i, i' := x.s.works[w], Next(x, FinishStep(q)).s.works[w];
            i'.comp == i.run && i'.sub == i.sub && !i'.flags.running
  {
    hide Linked, Deferred, Executing, GatesOk, IdsOk, History, Wf;
    q := WorkerOf(x, w);
  }

  /** Cancelling an item that is not running shows its latest submission. */
  lemma CancelShows(x: World, w: Work)
    requires Inv(x) && w in x.s.works && !x.s.works[w].flags.running && w.magic && w.sync
    ensures Enabled(x, CancelStep(w))
    ensures Next(x, CancelStep(w)).s.works[w].comp == x.s.works[w].sub
  {
    hide Linked, Deferred, GatesOk, Executing, IdsOk, History, Wf, Without;
  }

  /** Some run shows a flush its target exactly when the completion number is
      not past it and the target is the latest submission or the running one.
      A submission that was cancelled while its item ran is neither once the
      item has been submitted again. */
  lemma FlushReturnsIff(x: World, w: Work, target: nat)
    requires Inv(x) && w in x.s.works && w.magic && w.sync && target <= x.s.works[w].sub
    ensures Attainable(x.s.works[w], target)
       <==> exists steps, r :: Legal(x, steps) && r == Exec(x, steps) && r.s.works[w].comp == target
  {
    hide Inv, Attainable;
    if Attainable(x.s.works[w], target) {
      FlushReturns(x, w, target);
    }
    if steps, r :| Legal(x, steps) && r == Exec(x, steps) && r.s.works[w].comp == target {
      if !Attainable(x.s.works[w], target) {
        RunAttains(x, steps, w, target);
      }
    }
  }

  /** At most two steps show an attainable target. */
  lemma FlushReturns(x: World, w: Work, target: nat)
    requires Inv(x) && w in x.s.works && w.magic && w.sync && Attainable(x.s.works[w], target)
    ensures exists steps, r :: Legal(x, steps) && r == Exec(x, steps) && r.s.works[w].comp == target
  {
    hide Inv, Enabled, Next, WorldWf;
    var i := x.s.works[w];
    LegalNil(x);
    if i.comp != target && i.flags.running {
      var q := FinishShows(x, w);
      var a := Next(x, FinishStep(q));
      StepKeeps(x, FinishStep(q));
      LegalNil(a);
      LegalStep(x, FinishStep(q), []);
      if i.run != target {
        CancelShows(a, w);
        LegalNil(Next(a, CancelStep(w)));
        LegalStep(a, CancelStep(w), []);
        LegalStep(x, FinishStep(q), [CancelStep(w)] + []);
      }
    } else if i.comp != target {
      CancelShows(x, w);
      LegalNil(Next(x, CancelStep(w)));
      LegalStep(x, CancelStep(w), []);
    }
  }

  /** A flush whose target has been passed can never return. */
  lemma FlushMissed(x: World, steps: seq<Step>, w: Work, target: nat)
    requires Inv(x) && Legal(x, steps) && w in x.s.works && target < x.s.works[w].comp
    ensures Exec(x, steps).s.works[w].comp != target
  {
    RunMonotone(x, steps, w);
    hide Inv, Exec, Legal;
  }

  /** A flush of an idle item with an unfinished number waits, with every flag
      clear, until somebody cancels the item or submits it again. */
  lemma {:induction false} FlushIdle(x: World, steps: seq<Step>, w: Work)
    requires Inv(x) && Legal(x, steps) && w in x.s.works
    requires !x.s.works[w].flags.running && !x.s.works[w].flags.queued
    requires CancelStep(w) !in steps && Exec(x, steps).s.works[w].sub == x.s.works[w].sub
    ensures Exec(x, steps).s.works[w].comp == x.s.works[w].comp
    decreases |steps|
  {
    hide Inv, Next, Enabled, WorldWf;
    if steps != [] {
      assert steps[0] in steps && forall t :: t in steps[1..] ==> t in steps;
      var r := Next(x, steps[0]);
      StepKeeps(x, steps[0]);
      StepMoves(x, steps[0], w);
      StepMonotone(x, steps[0], w);
      RunMonotone(r, steps[1..], w);
      FlushIdle(r, steps[1..], w);
    }
  }

  /** A step that passes a target by finds the target's submission cancelled
      before it ever began. */
  lemma FlushPassedBy(x: World, step: Step, w: Work, target: nat)
    requires Inv(x) && Enabled(x, step) && w in x.s.works
    requires x.s.works[w].comp < target < Next(x, step).s.works[w].comp
    ensures Count(x.log, Dropped, Ticket(w, target)) == 1 && Count(x.log, Begun, Ticket(w, target)) == 0
  {
    hide Linked, Deferred, Executing, GatesOk, TalliesOk, OrderOk, FatesOk, IdsOk, Count, Wf, Next, Enabled;
    StepMoves(x, step, w);
    IdAt(x, w);
    FateIn(x, w, target);
  }

  /** The step that ends the target's handler shows the flush its target. */
  lemma FlushAtEnd(x: World, q: WorkQueue)
    requires Inv(x) && q in x.pc && x.pc[q].Running?
    ensures var w, r := x.pc[q].w, FinishNext(x, q);
            && r.log == x.log + [Event(Ended, q, Ticket(w, r.s.works[w].comp))]
            && Settled(r.log, w, r.s.works[w].comp)
  {
    hide Linked, Deferred, Executing, GatesOk, IdsOk, History, Wf, Count;
    var w, r := x.pc[q].w, FinishNext(x, q);
    IdAt(x, w);
    RunningAt(x, q);
    StepKeeps(x, FinishStep(q));
    SettledUpTo(r, w, r.s.works[w].comp);
  }

  const OPEN := Gates(true, false, false, false)

  /** The part of the state around one item alone on one open queue. */
  ghost predicate Alone(x: World, q: WorkQueue, w: Work, p: Pc, flags: Flags, sub: nat, run: nat, comp: nat)
    ensures Alone(x, q, w, p, flags, sub, run, comp) ==> WorldWf(x) && w in x.s.works && x.s.works[w].comp == comp
  {
    && WorldWf(x) && q in x.pc && w in x.s.works && Usable(w)
    && x.pc[q] == p && x.s.works[w].flags == flags && (flags != IDLE ==> x.s.works[w].queue == q)
    && x.s.works[w].sub == sub < UINT32 - 1 && x.s.works[w].run == run && x.s.works[w].comp == comp
    && x.s.queues[q] == Chan(if flags.queued then [Of(w)] else [], if flags.queued then 1 else 0, [],
                             if flags.running then w else null, OPEN)
  }

  lemma AloneSubmit(x: World, q: WorkQueue, w: Work, p: Pc, flags: Flags, sub: nat, run: nat, comp: nat)
    requires Alone(x, q, w, p, flags, sub, run, comp) && !flags.queued && !flags.canceling && sub < UINT32 - 2
    ensures Enabled(x, SubmitStep(q, w, null))
    ensures Alone(Next(x, SubmitStep(q, w, null)), q, w, p, flags.(queued := true), sub + 1, run, comp)
  {
    hide Wf;
  }

  lemma AloneBegin(x: World, q: WorkQueue, w: Work, sub: nat, run: nat, comp: nat)
    requires Alone(x, q, w, Scanning, Flags(false, false, true, false), sub, run, comp)
    ensures Enabled(x, ScanStep(q, 0)) && Enabled(Next(x, ScanStep(q, 0)), PopStep(q))
    ensures Alone(Next(x, ScanStep(q, 0)), q, w, Waiting, Flags(false, false, true, false), sub, run, comp)
    ensures Alone(Next(Next(x, ScanStep(q, 0)), PopStep(q)), q, w, Running(w), Flags(true, false, false, false),
                  sub, sub, comp)
  {
    hide Wf;
  }

  lemma AloneCancel(x: World, q: WorkQueue, w: Work, sub: nat, run: nat, comp: nat)
    requires Alone(x, q, w, Running(w), Flags(true, false, true, false), sub, run, comp)
    ensures Enabled(x, CancelStep(w))
    ensures Alone(Next(x, CancelStep(w)), q, w, Running(w), Flags(true, true, false, false), sub, run, comp)
  {
    assert Without([Of(w)], Of(w)) == [];
    hide Wf;
  }

  lemma AloneFinish(x: World, q: WorkQueue, w: Work, canceling: bool, sub: nat, run: nat, comp: nat)
    requires Alone(x, q, w, Running(w), Flags(true, canceling, false, false), sub, run, comp)
    ensures Enabled(x, FinishStep(q))
    ensures Alone(Next(x, FinishStep(q)), q, w, Scanning, IDLE, sub, run, run)
  {
    hide Wf;
  }

  /** A run on which nobody ever reads `target` as the completion number of
      `w`, and after which it is too late. */
  ghost predicate Misses(x: World, steps: seq<Step>, w: Work, target: nat)
    requires WorldWf(x) && w in x.s.works
    decreases |steps|
  {
    && x.s.works[w].comp != target
    && if steps == [] then x.s.works[w].comp > target
       else Enabled(x, steps[0]) && Misses(Next(x, steps[0]), steps[1..], w, target)
  }

  lemma MissesStep(x: World, step: Step, steps: seq<Step>, w: Work, target: nat)
    requires WorldWf(x) && w in x.s.works && x.s.works[w].comp != target
    requires Enabled(x, step) && Misses(Next(x, step), steps, w, target)
    ensures Misses(x, [step] + steps, w, target)
  {
    assert ([step] + steps)[1..] == steps;
    hide Enabled, Next;
  }

  /** An item re-queued from its own handler, cancelled, and submitted again:
      its completion number passes the cancelled submission without stopping
      there, so a flush that waits for that submission does not return. */
  lemma FlushSkips(x: World, q: WorkQueue, w: Work, sub: nat, run: nat, comp: nat)
    requires Alone(x, q, w, Running(w), Flags(true, false, true, false), sub, run, comp)
    requires comp < run < sub < UINT32 - 2
    ensures Misses(x, [CancelStep(w), FinishStep(q), SubmitStep(q, w, null), ScanStep(q, 0), PopStep(q),
                       FinishStep(q)], w, sub)
  {
    hide Enabled, Next, Alone, Misses, WorldWf;
    AloneCancel(x, q, w, sub, run, comp);
    var a := Next(x, CancelStep(w));
    AloneFinish(a, q, w, true, sub, run, comp);
    var b := Next(a, FinishStep(q));
    AloneSubmit(b, q, w, Scanning, IDLE, sub, run, run);
    var c := Next(b, SubmitStep(q, w, null));
    AloneBegin(c, q, w, sub + 1, run, run);
    var d := Next(c, ScanStep(q, 0));
    var e := Next(d, PopStep(q));
    AloneFinish(e, q, w, false, sub + 1, sub + 1, run);
    MissesNil(Next(e, FinishStep(q)), w, sub);
    var s1, s2 := [FinishStep(q)] + [], [PopStep(q)] + ([FinishStep(q)] + []);
    MissesStep(e, FinishStep(q), [], w, sub);
    MissesStep(d, PopStep(q), s1, w, sub);
    MissesStep(c, ScanStep(q, 0), s2, w, sub);
    MissesStep(b, SubmitStep(q, w, null), [ScanStep(q, 0)] + s2, w, sub);
    MissesStep(a, FinishStep(q), [SubmitStep(q, w, null)] + ([ScanStep(q, 0)] + s2), w, sub);
    var s5 := [FinishStep(q)] + ([SubmitStep(q, w, null)] + ([ScanStep(q, 0)] + s2));
    MissesStep(x, CancelStep(w), s5, w, sub);
    assert [CancelStep(w)] + s5 == [CancelStep(w), FinishStep(q), SubmitStep(q, w, null), ScanStep(q, 0),
                                    PopStep(q), FinishStep(q)];
  }

  lemma MissesNil(x: World, w: Work, target: nat)
    requires WorldWf(x) && w in x.s.works && x.s.works[w].comp > target
    ensures Misses(x, [], w, target)
  {}

  /** Such a state is reached within five steps. */
  lemma FlushSkipsReached(x: World, q: WorkQueue, w: Work) returns (steps: seq<Step>)
    requires Init(x) && q in x.pc && w in x.s.works && Usable(w)
    ensures WorldWf(x) && Legal(x, steps)
    ensures Alone(Exec(x, steps), q, w, Running(w), Flags(true, false, true, false), 2, 1, 0)
  {
    hide Enabled, Next, Init, Alone, Legal, Exec, WorldWf;
    AloneStart(x, q, w);
    var a := Next(x, StartStep(q, 1, Works));
    AloneSubmit(a, q, w, Scanning, IDLE, 0, 0, 0);
    var b := Next(a, SubmitStep(q, w, null));
    AloneBegin(b, q, w, 1, 0, 0);
    var c := Next(b, ScanStep(q, 0));
    var d := Next(c, PopStep(q));
    AloneSubmit(d, q, w, Running(w), Flags(true, false, false, false), 1, 1, 0);
    LegalNil(x);
    LegalThen(x, [], StartStep(q, 1, Works));
    steps := [] + [StartStep(q, 1, Works)];
    LegalThen(x, steps, SubmitStep(q, w, null));
    steps := steps + [SubmitStep(q, w, null)];
    LegalThen(x, steps, ScanStep(q, 0));
    steps := steps + [ScanStep(q, 0)];
    LegalThen(x, steps, PopStep(q));
    steps := steps + [PopStep(q)];
    LegalThen(x, steps, SubmitStep(q, w, null));
    steps := steps + [SubmitStep(q, w, null)];
  }

  /** Two steps later the item is idle and its latest submission unfinished:
      a flush called now waits for a number that only a further cancel shows. */
  lemma FlushIdleReached(x: World, q: WorkQueue, w: Work) returns (steps: seq<Step>)
    requires Init(x) && q in x.pc && w in x.s.works && Usable(w)
    ensures WorldWf(x) && Legal(x, steps) && Alone(Exec(x, steps), q, w, Scanning, IDLE, 2, 1, 1)
  {
    hide Enabled, Next, Init, Alone, Legal, Exec, WorldWf;
    steps := FlushSkipsReached(x, q, w);
    var e := Exec(x, steps);
    AloneCancel(e, q, w, 2, 1, 0);
    AloneFinish(Next(e, CancelStep(w)), q, w, true, 2, 1, 0);
    LegalThen(x, steps, CancelStep(w));
    steps := steps + [CancelStep(w)];
    LegalThen(x, steps, FinishStep(q));
    steps := steps + [FinishStep(q)];
  }

  lemma AloneStart(x: World, q: WorkQueue, w: Work)
    requires Init(x) && q in x.pc && w in x.s.works && Usable(w)
    ensures WorldWf(x) && Enabled(x, StartStep(q, 1, Works))
    ensures Alone(Next(x, StartStep(q, 1, Works)), q, w, Scanning, IDLE, 0, 0, 0)
  {
    hide Wf;
  }
}
