/** What users of the work queues may rely on, over every run. */
module WorkGuarantees {
  import opened Lists
  import opened WorkObjects
  import opened WorkSpec
  import opened WorkWorld
  import opened WorkInvariants
  import opened WorkHistory
  import opened WorkRuns

  // ---- Coupling and exclusion

  /** The flags of an item say where it is linked and where it runs. */
  lemma RunCoupling(x: World, steps: seq<Step>, w: Work, q: WorkQueue)
    requires Init(x) && Legal(x, steps) && w in x.s.works && q in x.s.queues
    ensures var r := Exec(x, steps).s; var i, c := r.works[w], r.queues[q];
            && (Of(w) in c.fifo <==> i.flags.queued && i.queue == q)
            && (w in c.delayed <==> i.flags.delayed && i.delayQueue == q)
            && (c.current == w <==> i.flags.running && i.queue == q)
            && (i.flags.canceling ==> i.flags.running && !i.flags.queued)
            && Distinct(c.fifo) && Distinct(c.delayed) && c.count == |c.fifo|
  {
    InitInv(x);
    RunInv(x, steps);
    hide Exec, Legal, Init, History, GatesOk, Distinct;
  }

  /** No item is ever in the handlers of two workers. */
  lemma RunExclusion(x: World, steps: seq<Step>, p: WorkQueue, q: WorkQueue)
    requires Init(x) && Legal(x, steps) && p in x.pc && q in x.pc && p != q
    ensures var pc := Exec(x, steps).pc; !(pc[p].Running? && pc[q].Running? && pc[p].w == pc[q].w)
  {
    InitInv(x);
    RunInv(x, steps);
    hide Exec, Legal, Init, History, GatesOk, Linked, Deferred, IdsOk, Wf, Executing;
    var r := Exec(x, steps);
    if r.pc[p].Running? && r.pc[q].Running? {
      RunningAt(r, p);
      RunningAt(r, q);
    }
  }

  // ---- Exactly once, in order

  /** Each accepted submission is begun or cancelled while queued, never both,
      never twice, and nothing else is ever begun. */
  lemma RunExactlyOnce(x: World, steps: seq<Step>, w: Work, id: int)
    requires Init(x) && Legal(x, steps) && w in x.s.works
    ensures var r, t := Exec(x, steps), Ticket(w, id);
            && Count(r.log, Submitted, t) == (if 1 <= id <= r.s.works[w].sub then 1 else 0)
            && Count(r.log, Begun, t) + Count(r.log, Dropped, t) <= Count(r.log, Submitted, t)
            && (Count(r.log, Begun, t) + Count(r.log, Dropped, t) < Count(r.log, Submitted, t)
                <==> r.s.works[w].flags.queued && id == r.s.works[w].sub)
            && Count(r.log, Ended, t) <= Count(r.log, Begun, t)
            && (Count(r.log, Ended, t) < Count(r.log, Begun, t)
                <==> r.s.works[w].flags.running && id == r.s.works[w].run)
  {
    InitInv(x);
    RunInv(x, steps);
    hide Exec, Legal, Init, Linked, Deferred, Executing, GatesOk, TalliesOk, OrderOk, FatesOk, IdsOk, Count, Wf;
    FateIn(Exec(x, steps), w, id);
    IdAt(Exec(x, steps), w);
    RunIdPositive(Exec(x, steps), w);
  }

  lemma RunIdPositive(x: World, w: Work)
    requires Inv(x) && w in x.s.works
    ensures x.s.works[w].flags.running ==> 1 <= x.s.works[w].run
    ensures x.s.works[w].flags.queued ==> 1 <= x.s.works[w].sub
  {}

  /** The submission number counts handler starts, cancellations while queued,
      and the submission still queued. */
  lemma RunTally(x: World, steps: seq<Step>, w: Work)
    requires Init(x) && Legal(x, steps) && w in x.s.works
    ensures var r := Exec(x, steps); var i := r.s.works[w];
            i.sub == Total(r.log, Begun, w) + Total(r.log, Dropped, w) + (if i.flags.queued then 1 else 0)
  {
    InitInv(x);
    RunInv(x, steps);
    hide Exec, Legal, Init, Linked, Deferred, Executing, GatesOk, OrderOk, FatesOk, IdsOk, Total, Wf;
  }

  /** Each worker starts handlers in the order of the accepted submissions,
      those cancelled while queued left out; nothing is skipped or repeated,
      and what is missing is exactly what is still queued. */
  lemma RunOrder(x: World, steps: seq<Step>, q: WorkQueue)
    requires Init(x) && Legal(x, steps) && q in x.s.queues
    ensures var r := Exec(x, steps);
            var due := Kept(On(r.log, Submitted, q), Cancelled(r.log));
            && Within(r.s.works, r.s.queues[q].fifo)
            && due == On(r.log, Begun, q) + Pending(r.s.works, r.s.queues[q].fifo)
            && (r.s.queues[q].count == 0 ==> On(r.log, Begun, q) == due)
  {
    InitInv(x);
    RunInv(x, steps);
    hide Exec, Legal, Init, Linked, Deferred, Executing, GatesOk, TalliesOk, OrderOk, FatesOk, IdsOk, Wf,
         Kept, On, Cancelled;
    OrderIn(Exec(x, steps), q);
    CountAt(Exec(x, steps), q);
  }

  /** How the numbers of an item stand to each other at all times. */
  lemma RunNumbers(x: World, steps: seq<Step>, w: Work)
    requires Init(x) && Legal(x, steps) && w in x.s.works
    ensures var i := Exec(x, steps).s.works[w];
            && i.comp <= i.sub
            && (i.flags.running ==> i.comp < i.run <= i.sub <= i.run + 1)
            && (i.flags.queued ==> i.comp < i.sub && i.run < i.sub)
  {
    InitInv(x);
    RunInv(x, steps);
    hide Exec, Legal, Init, Linked, Deferred, Executing, GatesOk, History, IdsOk, Wf;
    IdAt(Exec(x, steps), w);
  }
}
