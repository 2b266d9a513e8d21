/** What the calls on work items and queues answer and leave behind, read off
    the lists, the workers and the gates. */
module WorkAnswers {
  import opened Lists
  import opened WorkObjects
  import opened WorkSpec
  import opened WorkWorld
  import opened WorkInvariants
  import opened WorkHistory
  import opened WorkRuns

  /** The queue takes work from `caller`: it is open, or the caller is its own
      worker and it is not stopping. */
  predicate Admits(g: Gates, q: WorkQueue, caller: WorkQueue?) {
    g.started && !g.stopping && (caller == q || (!g.draining && !g.plugged))
  }

  /** `w` waits in the immediate list of some queue. */
  ghost predicate Queues(x: World, w: Work) {
    exists q {:trigger x.s.queues[q]} :: q in x.s.queues && Of(w) in x.s.queues[q].fifo
  }

  /** `w` waits in the delayed list of some queue. */
  ghost predicate Delays(x: World, w: Work) {
    exists q {:trigger x.s.queues[q]} :: q in x.s.queues && w in x.s.queues[q].delayed
  }

  /** Some worker other than that of `to` runs the handler of `w`. */
  ghost predicate RunsElsewhere(x: World, w: Work, to: WorkQueue) {
    exists q {:trigger x.pc[q]} :: q in x.pc && q != to && x.pc[q] == Running(w)
  }

  /** `to` takes work from `caller`, and `w` is nowhere in use but, perhaps, in
      the handler of `to`, where nobody has cancelled it. */
  ghost predicate MaySubmit(x: World, to: WorkQueue, w: Work, caller: WorkQueue?)
    requires to in x.s.queues && w in x.s.works
  {
    && Admits(x.s.queues[to].gates, to, caller) && !x.s.works[w].flags.canceling
    && !Queues(x, w) && !RunsElsewhere(x, w, to)
  }

  // ---- Flags and places

  lemma QueuesIff(x: World, w: Work)
    requires Inv(x) && w in x.s.works
    ensures Queues(x, w) <==> x.s.works[w].flags.queued
    ensures forall q :: q in x.s.queues ==>
              (Of(w) in x.s.queues[q].fifo <==> x.s.works[w].flags.queued && x.s.works[w].queue == q)
  {
    hide Deferred, Executing, GatesOk, IdsOk, History, Wf, Counted;
  }

  lemma DelaysIff(x: World, w: Work)
    requires Inv(x) && w in x.s.works
    ensures Delays(x, w) <==> x.s.works[w].flags.delayed
    ensures forall q :: q in x.s.queues ==>
              (w in x.s.queues[q].delayed <==> x.s.works[w].flags.delayed && x.s.works[w].delayQueue == q)
  {
    hide Linked, Executing, GatesOk, IdsOk, History, Wf, DelayedOnce;
  }

  lemma RunsIff(x: World, w: Work, to: WorkQueue)
    requires Inv(x) && w in x.s.works && to in x.pc
    ensures RunsElsewhere(x, w, to) <==> x.s.works[w].flags.running && x.s.works[w].queue != to
    ensures x.pc[to] == Running(w) <==> x.s.works[w].flags.running && x.s.works[w].queue == to
  {
    hide Linked, Deferred, GatesOk, IdsOk, History, Wf;
  }

  // ---- Submission

  /** What a submission answers, in all cases: it is accepted exactly if the item
      is usable, the queue named by the call or else the item's last one takes
      work from the caller and has room, and the item is nowhere in use but in
      the handler it may be submitted from; and the answer says whether it
      runs. */
  lemma SubmitAnswers(x: World, q: WorkQueue?, w: Work, caller: WorkQueue?)
    requires Inv(x) && w in x.s.works && (q != null ==> q in x.pc)
    ensures var a, to := SubmitReply(x.s, q, w, caller), if q == null then x.s.works[w].queue else q;
            && (a == EINVAL <==> !w.magic || !w.handler || !w.sync || to == null)
            && (w.magic && w.handler && w.sync && to != null ==>
                 to in x.pc && var c, i := x.s.queues[to], x.s.works[w];
                 && (a == ENODEV <==> !c.gates.started)
                 && (Accepted(a) <==> MaySubmit(x, to, w, caller) && |c.fifo| < 0xffff)
                 && (a == ENOSPC <==> MaySubmit(x, to, w, caller) && |c.fifo| >= 0xffff)
                 && (a == Requeued <==> Accepted(a) && x.pc[to] == Running(w))
                 && (a == NoChange <==> Admits(c.gates, to, caller) && !i.flags.canceling && Of(w) in c.fifo)
                 && a in {ENODEV, Queued, Requeued, NoChange, ENOSPC, EBUSY})
  {
    hide Coupling, History, Wf, Queues, RunsElsewhere;
    QueuesIff(x, w);
    var to := if q == null then x.s.works[w].queue else q;
    if to != null {
      SubmitTo(x, w, to);
    }
  }

  lemma SubmitTo(x: World, w: Work, to: WorkQueue)
    requires Inv(x) && w in x.s.works && (to in x.pc || to == x.s.works[w].queue)
    ensures to in x.pc && x.s.queues[to].count == |x.s.queues[to].fifo|
    ensures RunsElsewhere(x, w, to) <==> x.s.works[w].flags.running && x.s.works[w].queue != to
    ensures x.pc[to] == Running(w) <==> x.s.works[w].flags.running && x.s.works[w].queue == to
  {
    hide Linked, Deferred, Executing, GatesOk, IdsOk, History, RunsElsewhere;
    RunsIff(x, w, to);
    CountAt(x, to);
  }

  /** An accepted submission puts the item at the end of the list under the next
      number; any other changes nothing. */
  lemma SubmitLeaves(x: World, q: WorkQueue?, w: Work, caller: WorkQueue?)
    requires Inv(x) && IdLeft(x, w) && (q != null ==> q in x.pc)
    ensures var a, to, r := SubmitReply(x.s, q, w, caller), Target(x.s, q, w), Submit(x.s, q, w, caller);
            if Accepted(a) then
              && to != null && to in r.queues && to in x.s.queues
              && r.works == x.s.works[w := r.works[w]] && r.queues == x.s.queues[to := r.queues[to]]
              && r.works[w].sub == x.s.works[w].sub + 1 && r.works[w].queue == to && r.works[w].flags.queued
              && r.queues[to].fifo == x.s.queues[to].fifo + [Of(w)]
              && r.queues[to].delayed == x.s.queues[to].delayed && r.queues[to].gates == x.s.queues[to].gates
            else r == x.s
  {
    hide Coupling, History, Wf;
  }

  // ---- Cancellation

  /** A cancel takes the item out of every immediate list and leaves the others
      in order. An item in its handler is marked; any other is finished. */
  lemma CancelLeaves(x: World, w: Work)
    requires Inv(x) && w in x.s.works && w.magic && w.sync
    ensures var r, i := Cancel(x.s, w), x.s.works[w]; var i' := r.works[w];
            && r.works == x.s.works[w := i'] && i'.sub == i.sub
            && (forall q :: q in x.s.queues ==>
                  r.queues[q].fifo == Without(x.s.queues[q].fifo, Of(w)) && Of(w) !in r.queues[q].fifo
                  && r.queues[q].delayed == x.s.queues[q].delayed && r.queues[q].gates == x.s.queues[q].gates)
            && i'.flags == Flags(i.flags.running, i.flags.running, false, i.flags.delayed)
            && i'.comp == if i.flags.running then i.comp else i.sub
  {
    hide Deferred, Executing, GatesOk, History, Wf, Without, Distinct, Linked, IdsOk;
    QueuesIff(x, w);
    QueuedAt(x.s, w);
    IdAt(x, w);
    forall q | q in x.s.queues
      ensures Of(w) !in Without(x.s.queues[q].fifo, Of(w))
      ensures Of(w) !in x.s.queues[q].fifo ==> Without(x.s.queues[q].fifo, Of(w)) == x.s.queues[q].fifo
    {
      CountAt(x, q);
      WithoutKeeps(x.s.queues[q].fifo, Of(w));
    }
  }

  // ---- Scheduling

  lemma UndelayLeaves(x: World, w: Work)
    requires Inv(x) && w in x.s.works
    ensures var r := Undelay(x.s, w);
            && r.works == x.s.works[w := x.s.works[w].(flags := x.s.works[w].flags.(delayed := false))]
            && forall q :: q in x.s.queues ==>
                 && r.queues[q] == x.s.queues[q].(delayed := Without(x.s.queues[q].delayed, w))
                 && w !in r.queues[q].delayed
  {
    hide Linked, Executing, GatesOk, History, Wf, Without, Distinct, IdsOk, DelayedOnly, DelayedThere;
    DelaysIff(x, w);
    forall q | q in x.s.queues
      ensures w !in Without(x.s.queues[q].delayed, w)
      ensures w !in x.s.queues[q].delayed ==> Without(x.s.queues[q].delayed, w) == x.s.queues[q].delayed
    {
      WithoutKeeps(x.s.queues[q].delayed, w);
    }
    UndelayFields(x.s, w);
  }

  lemma UndelayFields(s: State, w: Work)
    requires Wf(s) && w in s.works
    ensures var i, r := s.works[w], Undelay(s, w); var q := i.delayQueue;
            if i.flags.delayed && q != null
            then q in s.queues
                 && r.works == s.works[w := i.(flags := i.flags.(delayed := false))]
                 && r.queues == s.queues[q := s.queues[q].(delayed := Without(s.queues[q].delayed, w))]
            else r == s
  {
    hide Without;
  }

  /** What a schedule or (`again`) reschedule call answers: a schedule leaves an
      item alone that waits somewhere already, a reschedule never does. */
  lemma ScheduleAnswers(x: World, q: WorkQueue, w: Work, delay: nat, again: bool, caller: WorkQueue?)
    requires Inv(x) && w in x.s.works && q in x.pc
    ensures var a, i := ScheduleReply(x.s, q, w, delay, again, caller), x.s.works[w];
            && (a == EINVAL <==> !w.magic || delay >= 0x8000_0000)
            && (a == ENODEV <==> w.magic && delay < 0x8000_0000 && !x.s.queues[q].gates.started)
            && (w.magic && delay < 0x8000_0000 && x.s.queues[q].gates.started ==>
                 var open, waits := Admits(x.s.queues[q].gates, q, caller) && !i.flags.canceling,
                                    Queues(x, w) || Delays(x, w);
                 && (a == EBUSY <==> !open)
                 && (a == NoChange <==> open && waits && !again)
                 && (a == Proceed <==> open && (again || !waits) && delay == 0)
                 && (a == Scheduled <==> open && (again || !waits) && delay > 0))
  {
    hide Coupling, History, Wf, Queues, Delays;
    QueuesIff(x, w);
    DelaysIff(x, w);
  }

  /** A schedule that goes ahead moves the item from wherever it was delayed to
      the end of the delayed list of `q`, or to none if it is to run at once; any
      other changes nothing. */
  lemma ScheduleLeaves(x: World, q: WorkQueue, w: Work, delay: nat, again: bool, caller: WorkQueue?, now: nat)
    requires Inv(x) && w in x.s.works && q in x.pc
    ensures var a, r := ScheduleReply(x.s, q, w, delay, again, caller), Schedule(x.s, q, w, delay, again, caller, now);
            if a == Scheduled || a == Proceed then
              && r.works == x.s.works[w := r.works[w]] && r.works[w].sub == x.s.works[w].sub
              && r.works[w].flags == x.s.works[w].flags.(delayed := a == Scheduled)
              && (a == Scheduled ==> r.works[w].delayQueue == q)
              && (forall p :: p in x.s.queues ==>
                    r.queues[p] == x.s.queues[p].(delayed := Without(x.s.queues[p].delayed, w)
                                                             + if a == Scheduled && p == q then [w] else []))
            else r == x.s
  {
    hide Coupling, History, Wf, Undelay, Without, ScheduleReply;
    UndelayLeaves(x, w);
  }

  // ---- Starting, unplugging, stopping

  /** A start is refused without a stack and while the queue is in use. One that
      goes through leaves an empty queue that takes work from everyone. */
  lemma StartLeaves(x: World, q: WorkQueue, stackSize: nat, native: Native, caller: WorkQueue?)
    requires Inv(x) && q in x.pc
    ensures var a, r, c := StartReply(x.s, q, stackSize, native), Start(x.s, q, stackSize, native), x.s.queues[q];
            && (a == EINVAL <==> stackSize == 0)
            && (a == EALREADY <==> stackSize > 0 && c.gates.started)
            && (a == NoChange <==> stackSize > 0 && !c.gates.started && native == Works)
            && (c.gates.started ==> r == x.s)
            && (Admits(r.queues[q].gates, q, caller) <==> a == NoChange || Admits(c.gates, q, caller))
            && (a == NoChange ==> r.queues[q].fifo == [] && r.queues[q].delayed == [] && r.queues[q].current == null)
  {
    hide Linked, Deferred, Executing, GatesOk, IdsOk, History, Wf;
  }

  /** An unplug that succeeds opens the queue again to everyone, unless it is
      still draining or already stopping. */
  lemma UnplugLeaves(x: World, q: WorkQueue, caller: WorkQueue?)
    requires Inv(x) && q in x.pc
    ensures var a, r, c := UnplugReply(x.s, q), Unplug(x.s, q), x.s.queues[q];
            && (a == NoChange <==> c.gates.started && c.gates.plugged)
            && (a == EALREADY <==> c.gates.started && !c.gates.plugged)
            && (a == NoChange || a == EALREADY || a == EINVAL)
            && (a != NoChange ==> r == x.s)
            && (a == NoChange ==> var g := r.queues[q].gates;
                 && r.queues == x.s.queues[q := c.(gates := g)] && !g.plugged
                 && (caller != q ==> (Admits(g, q, caller) <==> !g.draining && !g.stopping))
                 && g.draining == c.gates.draining && g.stopping == c.gates.stopping)
  {
    hide Coupling, History, Wf;
  }

  /** A stop goes ahead exactly on a started, plugged queue with an empty list
      and no handler running, called from elsewhere. */
  lemma StopAnswers(x: World, q: WorkQueue, caller: WorkQueue?)
    requires Inv(x) && q in x.pc
    ensures var a, c := StopReply(x.s, q, caller), x.s.queues[q];
            && (a == EALREADY <==> !c.gates.started)
            && (a == EDEADLK <==> c.gates.started && caller == q)
            && (c.gates.started && caller != q ==>
                 && (a == Proceed <==> c.gates.plugged && c.fifo == [] && !x.pc[q].Running?)
                 && (a == EBUSY <==> !(c.gates.plugged && c.fifo == [] && !x.pc[q].Running?)))
            && (a != Proceed ==> StopMark(x.s, q, caller) == x.s)
  {
    hide Linked, Deferred, Executing, GatesOk, IdsOk, History;
    CountAt(x, q);
    CurrentAt(x, q);
  }
}
