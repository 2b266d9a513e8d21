/** How the flags of the items, the lists of the queues and the workers agree
    with each other between critical sections. */
module WorkInvariants {
  import opened Lists
  import opened MachineInts
  import opened WorkObjects
  import opened WorkSpec
  import opened WorkWorld

  /** QUEUED iff linked, exactly once, in the immediate list of `work.queue`. */
  ghost predicate Linked(works: Works, queues: Queues) {
    Counted(queues) && LinkedOnly(works, queues) && LinkedThere(works, queues)
  }

  ghost predicate Counted(queues: Queues) {
    forall q {:trigger queues[q]} :: q in queues ==>
      Distinct(queues[q].fifo) && queues[q].count == |queues[q].fifo|
  }

  ghost predicate LinkedOnly(works: Works, queues: Queues) {
    forall q, l {:trigger l in queues[q].fifo} :: q in queues && l in queues[q].fifo && l.Of? ==>
      l.work in works && works[l.work].flags.queued && works[l.work].queue == q
  }

  ghost predicate LinkedThere(works: Works, queues: Queues) {
    forall w {:trigger works[w]} :: w in works && works[w].flags.queued ==>
      works[w].queue != null && works[w].queue in queues && Of(w) in queues[works[w].queue].fifo
  }

  /** DELAYED iff linked, exactly once, in the delayed list of `dwork.queue`. */
  ghost predicate Deferred(works: Works, queues: Queues) {
    DelayedOnce(queues) && DelayedOnly(works, queues) && DelayedThere(works, queues)
  }

  ghost predicate DelayedOnce(queues: Queues) {
    forall q {:trigger queues[q]} :: q in queues ==> Distinct(queues[q].delayed)
  }

  ghost predicate DelayedOnly(works: Works, queues: Queues) {
    forall q, w {:trigger w in queues[q].delayed} :: q in queues && w in queues[q].delayed ==>
      w in works && works[w].flags.delayed && works[w].delayQueue == q
  }

  ghost predicate DelayedThere(works: Works, queues: Queues) {
    forall w {:trigger works[w]} :: w in works && works[w].flags.delayed ==>
      works[w].delayQueue != null && works[w].delayQueue in queues && w in queues[works[w].delayQueue].delayed
  }

  /** RUNNING iff the worker of `work.queue` is in the item's handler. */
  ghost predicate Executing(works: Works, queues: Queues, pc: map<WorkQueue, Pc>)
    requires pc.Keys == queues.Keys
  {
    && (forall q {:trigger queues[q]} {:trigger pc[q]} :: q in queues ==>
          queues[q].current == if pc[q].Running? then pc[q].w else null)
    && (forall q {:trigger queues[q]} :: q in queues && queues[q].current != null ==>
          queues[q].current in works
          && works[queues[q].current].flags.running && works[queues[q].current].queue == q)
    && (forall w {:trigger works[w]} :: w in works && works[w].flags.running ==>
          works[w].queue != null && works[w].queue in queues && queues[works[w].queue].current == w)
  }

  /** One queue's gates, lists and worker. */
  ghost predicate Gated(c: Chan, pc: Pc) {
    && (Stop in c.fifo ==> c.gates.stopping)
    && (c.gates.stopping ==> !pc.Running? && c.fifo == if pc == Exited then [] else [Stop])
    && (!c.gates.started ==> pc == Exited && c.fifo == [] && c.delayed == [])
    && (c.gates.started && !c.gates.stopping ==> pc != Exited)
  }

  ghost predicate GatesOk(queues: Queues, pc: map<WorkQueue, Pc>)
    requires pc.Keys == queues.Keys
  {
    forall q {:trigger queues[q]} {:trigger pc[q]} :: q in queues ==> Gated(queues[q], pc[q])
  }

  /** One item's flags and submission numbers. */
  ghost predicate Numbered(i: Item) {
    && i.comp <= i.sub < UINT32 && i.run <= i.sub
    && (i.flags.canceling ==> i.flags.running && !i.flags.queued)
    && (i.flags.running ==> i.comp < i.run <= i.sub <= i.run + 1)
    && (i.flags.running && !i.flags.queued && !i.flags.canceling ==> i.sub == i.run)
    && (i.flags.queued ==> i.comp < i.sub && i.run < i.sub)
  }

  ghost predicate IdsOk(works: Works) {
    forall w {:trigger works[w]} :: w in works ==> Numbered(works[w])
  }

  ghost predicate Coupling(s: State, pc: map<WorkQueue, Pc>)
    requires pc.Keys == s.queues.Keys
  {
    && Linked(s.works, s.queues) && Deferred(s.works, s.queues)
    && Executing(s.works, s.queues, pc) && GatesOk(s.queues, pc) && IdsOk(s.works)
  }

  ghost predicate Coupled(x: World)
    requires WorldWf(x)
  {
    Coupling(x.s, x.pc)
  }

  // ---- The immediate lists

  /** Only list `q` changes. */
  ghost predicate OneList(queues: Queues, queues': Queues, q: WorkQueue) {
    && q in queues && queues'.Keys == queues.Keys
    && (forall p {:trigger queues'[p]} :: p in queues && p != q ==>
          queues'[p].fifo == queues[p].fifo && queues'[p].count == queues[p].count)
  }

  /** Of the items, only the one behind `l` is linked or unlinked. */
  ghost predicate OneItem(works: Works, works': Works, l: Link) {
    && works'.Keys == works.Keys && (l.Of? ==> l.work in works)
    && (forall w {:trigger works'[w]} :: w in works && l != Of(w) ==>
          works'[w].flags.queued == works[w].flags.queued && works'[w].queue == works[w].queue)
  }

  lemma AppendLinked(works: Works, queues: Queues, works': Works, queues': Queues, q: WorkQueue, l: Link)
    requires Linked(works, queues) && OneList(queues, queues', q) && OneItem(works, works', l)
    requires l !in queues[q].fifo && queues'[q].fifo == queues[q].fifo + [l]
    requires queues'[q].count == queues[q].count + 1
    requires l.Of? ==> !works[l.work].flags.queued && works'[l.work].flags.queued && works'[l.work].queue == q
    ensures Linked(works', queues')
  {
    hide Counted, LinkedOnly, LinkedThere;
    AppendCounted(queues, queues', q, l);
    AppendOnly(works, queues, works', queues', q, l);
    AppendThere(works, queues, works', queues', q, l);
  }

  lemma AppendCounted(queues: Queues, queues': Queues, q: WorkQueue, l: Link)
    requires Counted(queues) && OneList(queues, queues', q)
    requires l !in queues[q].fifo && queues'[q].fifo == queues[q].fifo + [l]
    requires queues'[q].count == queues[q].count + 1
    ensures Counted(queues')
  {}

  lemma AppendOnly(works: Works, queues: Queues, works': Works, queues': Queues, q: WorkQueue, l: Link)
    requires LinkedOnly(works, queues) && OneList(queues, queues', q) && OneItem(works, works', l)
    requires queues'[q].fifo == queues[q].fifo + [l]
    requires l.Of? ==> !works[l.work].flags.queued && works'[l.work].flags.queued && works'[l.work].queue == q
    ensures LinkedOnly(works', queues')
  {}

  lemma AppendThere(works: Works, queues: Queues, works': Works, queues': Queues, q: WorkQueue, l: Link)
    requires LinkedThere(works, queues) && OneList(queues, queues', q) && OneItem(works, works', l)
    requires queues'[q].fifo == queues[q].fifo + [l] && (l.Of? ==> works'[l.work].queue == q)
    ensures LinkedThere(works', queues')
  {
    assert l in queues'[q].fifo;
  }

  lemma RemoveLinked(works: Works, queues: Queues, works': Works, queues': Queues, q: WorkQueue, l: Link)
    requires Linked(works, queues) && OneList(queues, queues', q) && OneItem(works, works', l)
    requires l in queues[q].fifo && queues'[q].fifo == Without(queues[q].fifo, l)
    requires queues'[q].count == Pred(queues[q].count)
    requires l.Of? ==> !works'[l.work].flags.queued
    ensures Linked(works', queues')
  {
    hide Counted, LinkedOnly, LinkedThere;
    RemoveCounted(queues, queues', q, l);
    RemoveOnly(works, queues, works', queues', q, l);
    RemoveThere(works, queues, works', queues', q, l);
  }

  lemma RemoveCounted(queues: Queues, queues': Queues, q: WorkQueue, l: Link)
    requires Counted(queues) && OneList(queues, queues', q)
    requires l in queues[q].fifo && queues'[q].fifo == Without(queues[q].fifo, l)
    requires queues'[q].count == Pred(queues[q].count)
    ensures Counted(queues')
    ensures forall x :: x in queues'[q].fifo <==> x in queues[q].fifo && x != l
  {
    WithoutKeeps(queues[q].fifo, l);
    hide Distinct;
  }

  lemma RemoveOnly(works: Works, queues: Queues, works': Works, queues': Queues, q: WorkQueue, l: Link)
    requires LinkedOnly(works, queues) && OneList(queues, queues', q) && OneItem(works, works', l)
    requires forall x :: x in queues'[q].fifo <==> x in queues[q].fifo && x != l
    requires l in queues[q].fifo
    ensures LinkedOnly(works', queues')
  {}

  lemma RemoveThere(works: Works, queues: Queues, works': Works, queues': Queues, q: WorkQueue, l: Link)
    requires LinkedThere(works, queues) && OneList(queues, queues', q) && OneItem(works, works', l)
    requires forall x :: x in queues'[q].fifo <==> x in queues[q].fifo && x != l
    requires l.Of? ==> !works'[l.work].flags.queued
    ensures LinkedThere(works', queues')
  {}

  /** Nothing the immediate lists depend on changes. */
  lemma SameLinked(works: Works, queues: Queues, works': Works, queues': Queues)
    requires Linked(works, queues) && queues'.Keys == queues.Keys && works'.Keys == works.Keys
    requires forall q :: q in queues ==>
               queues'[q].fifo == queues[q].fifo && queues'[q].count == queues[q].count
    requires forall w :: w in works ==>
               works'[w].flags.queued == works[w].flags.queued
               && (works[w].flags.queued ==> works'[w].queue == works[w].queue)
    ensures Linked(works', queues')
  {}

  // ---- The delayed lists

  lemma AttachDeferred(s: State, q: WorkQueue, w: Work, deadline: nat)
    requires Wf(s) && w in s.works && q in s.queues && Deferred(s.works, s.queues) && !s.works[w].flags.delayed
    ensures Deferred(Attach(s, q, w, deadline).works, Attach(s, q, w, deadline).queues)
  {
    hide DelayedOnce, DelayedOnly, DelayedThere, Wf;
    var r := Attach(s, q, w, deadline);
    AttachOnce(s, q, w, deadline);
    AttachOnly(s, q, w, deadline);
    AttachThere(s, q, w, deadline);
  }

  lemma AttachOnce(s: State, q: WorkQueue, w: Work, deadline: nat)
    requires Wf(s) && w in s.works && q in s.queues && DelayedOnce(s.queues) && DelayedOnly(s.works, s.queues)
    requires !s.works[w].flags.delayed
    ensures DelayedOnce(Attach(s, q, w, deadline).queues)
  {
    hide Wf;
    assert w !in s.queues[q].delayed;
  }

  lemma AttachOnly(s: State, q: WorkQueue, w: Work, deadline: nat)
    requires Wf(s) && w in s.works && q in s.queues && DelayedOnly(s.works, s.queues)
    requires !s.works[w].flags.delayed
    ensures DelayedOnly(Attach(s, q, w, deadline).works, Attach(s, q, w, deadline).queues)
  {
    hide Wf;
  }

  lemma AttachThere(s: State, q: WorkQueue, w: Work, deadline: nat)
    requires Wf(s) && w in s.works && q in s.queues && DelayedThere(s.works, s.queues)
    ensures DelayedThere(Attach(s, q, w, deadline).works, Attach(s, q, w, deadline).queues)
  {
    hide Wf;
    assert w in s.queues[q].delayed + [w];
  }

  lemma DetachDeferred(s: State, q: WorkQueue, w: Work)
    requires Wf(s) && q in s.queues && Deferred(s.works, s.queues) && w in s.queues[q].delayed
    ensures Deferred(Detach(s, q, w).works, Detach(s, q, w).queues)
    ensures !Detach(s, q, w).works[w].flags.delayed
  {
    hide DelayedOnce, DelayedOnly, DelayedThere, Detach;
    DetachOnce(s, q, w);
    DetachOnly(s, q, w);
    DetachThere(s, q, w);
  }

  lemma DetachOnce(s: State, q: WorkQueue, w: Work)
    requires Wf(s) && w in s.works && q in s.queues && DelayedOnce(s.queues)
    ensures DelayedOnce(Detach(s, q, w).queues)
    ensures forall v :: v in Without(s.queues[q].delayed, w) <==> v in s.queues[q].delayed && v != w
  {
    WithoutKeeps(s.queues[q].delayed, w);
    hide Wf, Without, Distinct;
  }

  lemma DetachOnly(s: State, q: WorkQueue, w: Work)
    requires Wf(s) && w in s.works && q in s.queues && DelayedOnly(s.works, s.queues) && w in s.queues[q].delayed
    requires forall v {:trigger v in Without(s.queues[q].delayed, w)} ::
               v in Without(s.queues[q].delayed, w) ==> v in s.queues[q].delayed && v != w
    ensures DelayedOnly(Detach(s, q, w).works, Detach(s, q, w).queues)
  {
    hide Wf, Without;
    var r := Detach(s, q, w);
    forall p, v | p in r.queues && v in r.queues[p].delayed
      ensures v in r.works && r.works[v].flags.delayed && r.works[v].delayQueue == p
    {
      assert v in s.queues[p].delayed && s.works[w].delayQueue == q;
    }
  }

  lemma DetachThere(s: State, q: WorkQueue, w: Work)
    requires Wf(s) && w in s.works && q in s.queues && DelayedThere(s.works, s.queues)
    requires forall v :: v in Without(s.queues[q].delayed, w) <==> v in s.queues[q].delayed && v != w
    ensures DelayedThere(Detach(s, q, w).works, Detach(s, q, w).queues)
    ensures !Detach(s, q, w).works[w].flags.delayed
  {
    hide Wf, Without;
  }

  lemma SameDeferred(works: Works, queues: Queues, works': Works, queues': Queues)
    requires Deferred(works, queues) && queues'.Keys == queues.Keys && works'.Keys == works.Keys
    requires forall q :: q in queues ==> queues'[q].delayed == queues[q].delayed
    requires forall w :: w in works ==>
               works'[w].flags.delayed == works[w].flags.delayed
               && works'[w].delayQueue == works[w].delayQueue
    ensures Deferred(works', queues')
  {}

  // ---- The workers and the gates

  lemma SameExecuting(works: Works, queues: Queues, pc: map<WorkQueue, Pc>,
                      works': Works, queues': Queues, pc': map<WorkQueue, Pc>)
    requires pc.Keys == queues.Keys && Executing(works, queues, pc)
    requires works'.Keys == works.Keys && queues'.Keys == queues.Keys && pc'.Keys == pc.Keys
    requires forall q :: q in queues ==> queues'[q].current == queues[q].current
    requires forall q :: q in pc ==> pc'[q] == pc[q] || (!pc[q].Running? && !pc'[q].Running?)
    requires forall w :: w in works ==>
               works'[w].flags.running == works[w].flags.running
               && (works[w].flags.running ==> works'[w].queue == works[w].queue)
    ensures Executing(works', queues', pc')
  {}

  lemma OneGate(queues: Queues, pc: map<WorkQueue, Pc>, queues': Queues, pc': map<WorkQueue, Pc>, q: WorkQueue)
    requires pc.Keys == queues.Keys && GatesOk(queues, pc) && q in queues && q in queues' && q in pc'
    requires queues' == queues[q := queues'[q]] && pc' == pc[q := pc'[q]] && Gated(queues'[q], pc'[q])
    ensures GatesOk(queues', pc')
  {
    hide Gated;
  }

  lemma OneId(works: Works, works': Works, w: Work)
    requires IdsOk(works) && w in works && w in works' && works' == works[w := works'[w]] && Numbered(works'[w])
    ensures IdsOk(works')
  {
    hide Numbered;
  }

  lemma GateAt(x: World, q: WorkQueue)
    requires x.pc.Keys == x.s.queues.Keys && GatesOk(x.s.queues, x.pc) && q in x.s.queues
    ensures Gated(x.s.queues[q], x.pc[q])
  {}

  lemma IdAt(x: World, w: Work)
    requires IdsOk(x.s.works) && w in x.s.works
    ensures Numbered(x.s.works[w])
  {}

  // ---- The steps

  lemma QueuedNowhere(s: State, w: Work)
    requires Linked(s.works, s.queues) && w in s.works && !s.works[w].flags.queued
    ensures forall q :: q in s.queues ==> Of(w) !in s.queues[q].fifo
  {}

  lemma QueuedAt(s: State, w: Work)
    requires Linked(s.works, s.queues) && w in s.works
    ensures s.works[w].flags.queued ==>
              var q := s.works[w].queue; q != null && q in s.queues && Of(w) in s.queues[q].fifo
  {}

  /** What is linked at the head of a list. */
  lemma HeadAt(s: State, q: WorkQueue)
    requires Linked(s.works, s.queues) && q in s.queues && s.queues[q].fifo != []
    ensures var l := s.queues[q].fifo[0];
            l.Of? ==> l.work in s.works && s.works[l.work].flags.queued && s.works[l.work].queue == q
    ensures s.queues[q].fifo[1..] == Without(s.queues[q].fifo, s.queues[q].fifo[0])
    ensures s.queues[q].fifo[0] !in s.queues[q].fifo[1..]
  {
    var f := s.queues[q].fifo;
    assert f[0] in f;
    WithoutKeeps(f, f[0]);
  }

  lemma EnqueueLists(s: State, q: WorkQueue, w: Work)
    requires Wf(s) && w in s.works && q in s.queues && Linked(s.works, s.queues) && Deferred(s.works, s.queues)
    requires !s.works[w].flags.queued
    ensures Linked(Enqueue(s, q, w).works, Enqueue(s, q, w).queues)
    ensures Deferred(Enqueue(s, q, w).works, Enqueue(s, q, w).queues)
  {
    var r := Enqueue(s, q, w);
    QueuedNowhere(s, w);
    hide Linked, Deferred;
    AppendLinked(s.works, s.queues, r.works, r.queues, q, Of(w));
    SameDeferred(s.works, s.queues, r.works, r.queues);
  }

  /** An item may be submitted to `q` when nothing else is using it. */
  lemma EnqueueCoupled(x: World, q: WorkQueue, w: Work)
    requires WorldWf(x) && Coupled(x) && w in x.s.works && q in x.s.queues
    requires x.s.queues[q].gates.started && !x.s.queues[q].gates.stopping && x.s.works[w].sub < UINT32 - 1
    requires var i := x.s.works[w];
             !i.flags.queued && !i.flags.canceling && (i.flags.running ==> i.queue == q)
    ensures Coupled(x.(s := Enqueue(x.s, q, w)))
  {
    hide Linked, Deferred, Wf, GatesOk, Executing, IdsOk;
    var r := Enqueue(x.s, q, w);
    GateAt(x, q);
    IdAt(x, w);
    EnqueueLists(x.s, q, w);
    SameExecuting(x.s.works, x.s.queues, x.pc, r.works, r.queues, x.pc);
    OneGate(x.s.queues, x.pc, r.queues, x.pc, q);
    OneId(x.s.works, r.works, w);
  }

  // ---- Cancel

  lemma CancelLists(s: State, w: Work)
    requires Wf(s) && w in s.works && Linked(s.works, s.queues) && Deferred(s.works, s.queues)
    ensures Linked(Cancel(s, w).works, Cancel(s, w).queues)
    ensures Deferred(Cancel(s, w).works, Cancel(s, w).queues)
  {
    hide Linked, Deferred, Without, Wf;
    var r, i := Cancel(s, w), s.works[w];
    QueuedAt(s, w);
    SameDeferred(s.works, s.queues, r.works, r.queues);
    if w.magic && w.sync && i.flags.queued && i.queue != null {
      RemoveLinked(s.works, s.queues, r.works, r.queues, i.queue, Of(w));
    } else {
      SameLinked(s.works, s.queues, r.works, r.queues);
    }
  }

  lemma CancelCoupled(x: World, w: Work)
    requires WorldWf(x) && Coupled(x) && w in x.s.works
    ensures Coupled(x.(s := Cancel(x.s, w)))
  {
    hide Linked, Deferred, Wf, GatesOk, Executing, IdsOk, Cancel;
    CancelLists(x.s, w);
    CancelWorks(x, w);
    CancelGates(x, w);
  }

  lemma CancelWorks(x: World, w: Work)
    requires WorldWf(x) && Coupled(x) && w in x.s.works
    ensures var r := Cancel(x.s, w); Executing(r.works, r.queues, x.pc) && IdsOk(r.works)
  {
    hide Wf, Linked, Deferred, GatesOk, Executing, IdsOk, Without;
    var r := Cancel(x.s, w);
    QueuedAt(x.s, w);
    IdAt(x, w);
    SameExecuting(x.s.works, x.s.queues, x.pc, r.works, r.queues, x.pc);
    OneId(x.s.works, r.works, w);
  }

  lemma CancelGates(x: World, w: Work)
    requires WorldWf(x) && Coupled(x) && w in x.s.works
    ensures GatesOk(Cancel(x.s, w).queues, x.pc)
  {
    hide Linked, Deferred, Wf, GatesOk, Executing, IdsOk, Without, Distinct;
    var r, i := Cancel(x.s, w), x.s.works[w];
    QueuedAt(x.s, w);
    if i.flags.queued && i.queue != null {
      CountAt(x, i.queue);
      WithoutKeeps(x.s.queues[i.queue].fifo, Of(w));
      GateAt(x, i.queue);
      OneGate(x.s.queues, x.pc, r.queues, x.pc, i.queue);
    }
  }

  // ---- Delayed items

  lemma DetachCoupled(x: World, q: WorkQueue, w: Work)
    requires WorldWf(x) && Coupled(x) && q in x.s.queues && w in x.s.queues[q].delayed && w in x.s.works
    ensures Coupled(x.(s := Detach(x.s, q, w)))
  {
    hide Linked, Deferred, GatesOk, Executing, IdsOk, Without, Wf;
    var r := Detach(x.s, q, w);
    DetachDeferred(x.s, q, w);
    SameLinked(x.s.works, x.s.queues, r.works, r.queues);
    SameExecuting(x.s.works, x.s.queues, x.pc, r.works, r.queues, x.pc);
    GateAt(x, q);
    OneGate(x.s.queues, x.pc, r.queues, x.pc, q);
    IdAt(x, w);
    OneId(x.s.works, r.works, w);
  }

  lemma UndelayCoupled(x: World, w: Work)
    requires WorldWf(x) && Coupled(x) && w in x.s.works
    ensures Coupled(x.(s := Undelay(x.s, w)))
    ensures !Undelay(x.s, w).works[w].flags.delayed
  {
    var i := x.s.works[w];
    if i.flags.delayed {
      assert w in x.s.queues[i.delayQueue].delayed;
      hide Linked, Deferred, Wf, GatesOk, Executing, IdsOk;
      DetachCoupled(x, i.delayQueue, w);
    }
  }

  lemma AttachCoupled(x: World, q: WorkQueue, w: Work, deadline: nat)
    requires WorldWf(x) && Coupled(x) && q in x.s.queues && w in x.s.works
    requires !x.s.works[w].flags.delayed && x.s.queues[q].gates.started
    ensures Coupled(x.(s := Attach(x.s, q, w, deadline)))
  {
    hide Linked, Deferred, Wf, GatesOk, Executing, IdsOk;
    var r := Attach(x.s, q, w, deadline);
    AttachDeferred(x.s, q, w, deadline);
    SameLinked(x.s.works, x.s.queues, r.works, r.queues);
    SameExecuting(x.s.works, x.s.queues, x.pc, r.works, r.queues, x.pc);
    GateAt(x, q);
    OneGate(x.s.queues, x.pc, r.queues, x.pc, q);
    IdAt(x, w);
    OneId(x.s.works, r.works, w);
  }

  lemma ScheduleCoupled(x: World, q: WorkQueue, w: Work, delay: nat, again: bool, caller: WorkQueue?, now: nat)
    requires WorldWf(x) && Coupled(x) && q in x.s.queues && w in x.s.works
    ensures Coupled(x.(s := Schedule(x.s, q, w, delay, again, caller, now)))
  {
    hide Coupling, Wf, Attach;
    var reply := ScheduleReply(x.s, q, w, delay, again, caller);
    if reply == Proceed || reply == Scheduled {
      UndelayCoupled(x, w);
      if reply == Scheduled {
        UndelayGates(x.s, w, q);
        AttachCoupled(x.(s := Undelay(x.s, w)), q, w, (now + delay) % UINT32);
      }
    }
  }

  lemma UndelayGates(s: State, w: Work, q: WorkQueue)
    requires Wf(s) && w in s.works && q in s.queues
    ensures Undelay(s, w).queues[q].gates == s.queues[q].gates
  {}

  // ---- The worker

  lemma Moved(x: World, q: WorkQueue, p: Pc)
    requires WorldWf(x) && Coupled(x) && q in x.pc && !x.pc[q].Running? && !p.Running?
    requires x.pc[q] != Exited && p != Exited && (p.Promoting? ==> p.w in x.s.works)
    ensures Coupled(x.(pc := x.pc[q := p]))
  {
    hide Linked, Deferred, Wf, GatesOk, Executing, IdsOk;
    var pc' := x.pc[q := p];
    SameExecuting(x.s.works, x.s.queues, x.pc, x.s.works, x.s.queues, pc');
    GateAt(x, q);
    assert x.s.queues[q := x.s.queues[q]] == x.s.queues;
    OneGate(x.s.queues, x.pc, x.s.queues, pc', q);
  }

  lemma PopLists(s: State, q: WorkQueue)
    requires Wf(s) && q in s.queues && Linked(s.works, s.queues) && Deferred(s.works, s.queues)
    ensures Linked(Pop(s, q).0.works, Pop(s, q).0.queues)
    ensures Deferred(Pop(s, q).0.works, Pop(s, q).0.queues)
  {
    hide Linked, Deferred, Without, Wf;
    var r, c := Pop(s, q).0, s.queues[q];
    if c.fifo != [] {
      HeadAt(s, q);
      RemoveLinked(s.works, s.queues, r.works, r.queues, q, c.fifo[0]);
      SameDeferred(s.works, s.queues, r.works, r.queues);
    }
  }

  lemma PopCoupled(x: World, q: WorkQueue)
    requires WorldWf(x) && Coupled(x) && q in x.pc && x.pc[q] == Waiting
    ensures Coupled(PopNext(x, q))
  {
    hide Linked, Deferred, Wf, GatesOk, Executing, IdsOk, Pop;
    PopLists(x.s, q);
    PopWorks(x, q);
    PopGates(x, q);
  }

  lemma PopWorks(x: World, q: WorkQueue)
    requires WorldWf(x) && Coupled(x) && q in x.pc && x.pc[q] == Waiting
    ensures var r := PopNext(x, q); Executing(r.s.works, r.s.queues, r.pc) && IdsOk(r.s.works)
  {
    hide Linked, Deferred, GatesOk, IdsOk, Wf, Executing, Without;
    var r, c := PopNext(x, q), x.s.queues[q];
    if c.fifo != [] && c.fifo[0].Of? {
      var w := c.fifo[0].work;
      HeadAt(x.s, q);
      IdAt(x, w);
      BeginExecuting(x.s.works, x.s.queues, x.pc, q, w, r.s.works, r.s.queues, r.pc);
      OneId(x.s.works, r.s.works, w);
    } else {
      SameExecuting(x.s.works, x.s.queues, x.pc, r.s.works, r.s.queues, r.pc);
    }
  }

  lemma BeginExecuting(works: Works, queues: Queues, pc: map<WorkQueue, Pc>, q: WorkQueue, w: Work,
                       works': Works, queues': Queues, pc': map<WorkQueue, Pc>)
    requires pc.Keys == queues.Keys && Executing(works, queues, pc) && q in pc && w in works
    requires !pc[q].Running? && works[w].queue == q && pc' == pc[q := Running(w)]
    requires works'.Keys == works.Keys && queues'.Keys == queues.Keys
    requires works'[w].flags.running && works'[w].queue == q && queues'[q].current == w
    requires forall v :: v in works && v != w ==> works'[v] == works[v]
    requires forall p :: p in queues && p != q ==> queues'[p] == queues[p]
    ensures Executing(works', queues', pc')
  {}

  lemma EndExecuting(works: Works, queues: Queues, pc: map<WorkQueue, Pc>, q: WorkQueue, w: Work,
                     works': Works, queues': Queues, pc': map<WorkQueue, Pc>)
    requires pc.Keys == queues.Keys && Executing(works, queues, pc) && q in pc && w in works
    requires pc[q] == Running(w) && pc' == pc[q := Scanning]
    requires works'.Keys == works.Keys && queues'.Keys == queues.Keys
    requires !works'[w].flags.running && queues'[q].current == null
    requires forall v :: v in works && v != w ==> works'[v] == works[v]
    requires forall p :: p in queues && p != q ==> queues'[p] == queues[p]
    ensures Executing(works', queues', pc')
  {}

  lemma PopGates(x: World, q: WorkQueue)
    requires WorldWf(x) && Coupled(x) && q in x.pc && x.pc[q] == Waiting
    ensures GatesOk(PopNext(x, q).s.queues, PopNext(x, q).pc)
  {
    hide Linked, Deferred, Wf, GatesOk, Executing, IdsOk;
    var r, c := PopNext(x, q), x.s.queues[q];
    GateAt(x, q);
    if c.fifo == [] {
      assert x.s.queues[q := c] == x.s.queues;
    } else {
      assert c.fifo[0] in c.fifo && forall l :: l in c.fifo[1..] ==> l in c.fifo;
    }
    OneGate(x.s.queues, x.pc, r.s.queues, r.pc, q);
  }

  lemma RunningAt(x: World, q: WorkQueue)
    requires WorldWf(x) && Executing(x.s.works, x.s.queues, x.pc) && q in x.pc && x.pc[q].Running?
    ensures x.s.works[x.pc[q].w].flags.running && x.s.works[x.pc[q].w].queue == q
    ensures x.s.queues[q].current == x.pc[q].w
  {}

  /** The worker a running item is in the handler of. */
  lemma WorkerOf(x: World, w: Work) returns (q: WorkQueue)
    requires WorldWf(x) && Executing(x.s.works, x.s.queues, x.pc) && w in x.s.works && x.s.works[w].flags.running
    ensures q in x.pc && q == x.s.works[w].queue && x.pc[q] == Running(w)
  {
    q := x.s.works[w].queue;
  }

  lemma FinishCoupled(x: World, q: WorkQueue)
    requires WorldWf(x) && Coupled(x) && q in x.pc && x.pc[q].Running?
    ensures Coupled(FinishNext(x, q))
  {
    hide Linked, Deferred, Wf, GatesOk, IdsOk, Executing;
    var r, w := FinishNext(x, q), x.pc[q].w;
    RunningAt(x, q);
    EndExecuting(x.s.works, x.s.queues, x.pc, q, w, r.s.works, r.s.queues, r.pc);
    SameLinked(x.s.works, x.s.queues, r.s.works, r.s.queues);
    SameDeferred(x.s.works, x.s.queues, r.s.works, r.s.queues);
    GateAt(x, q);
    OneGate(x.s.queues, x.pc, r.s.queues, r.pc, q);
    IdAt(x, w);
    OneId(x.s.works, r.s.works, w);
  }

  lemma ScanCoupled(x: World, q: WorkQueue, now: nat)
    requires WorldWf(x) && Coupled(x) && q in x.pc && x.pc[q] == Scanning
    ensures Coupled(ScanNext(x, q, now))
  {
    hide Coupling, Detach;
    var c := x.s.queues[q];
    var k := FirstDue(x.s.works, c.delayed, now);
    if k == |c.delayed| {
      Moved(x, q, Waiting);
    } else {
      assert c.delayed[k] in c.delayed;
      DetachCoupled(x, q, c.delayed[k]);
      Moved(x.(s := Detach(x.s, q, c.delayed[k])), q, Promoting(c.delayed[k], c.gates.plugged || c.gates.stopping));
    }
  }

  lemma SubmitCoupled(x: World, q: WorkQueue?, w: Work, caller: WorkQueue?)
    requires WorldWf(x) && Coupled(x) && IdLeft(x, w) && (q != null ==> q in x.s.queues)
    ensures Coupled(x.(s := Submit(x.s, q, w, caller)))
  {
    hide Coupling, Enqueue, Wf;
    if Accepted(SubmitReply(x.s, q, w, caller)) {
      EnqueueCoupled(x, Target(x.s, q, w), w);
    }
  }

  lemma PromoteCoupled(x: World, q: WorkQueue)
    requires WorldWf(x) && Coupled(x) && q in x.pc && x.pc[q].Promoting? && IdLeft(x, x.pc[q].w)
    ensures Coupled(PromoteNext(x, q))
  {
    hide Coupling, Submit, Wf;
    Moved(x, q, Scanning);
    if !x.pc[q].blocked {
      SubmitCoupled(x.(pc := x.pc[q := Scanning]), q, x.pc[q].w, q);
    }
  }

  // ---- The gates

  /** Only the gates of `q`, its stop marker or its idle worker change. */
  lemma GateCoupled(x: World, r: World, q: WorkQueue)
    requires WorldWf(x) && Coupled(x) && q in x.pc && WorldWf(r) && r.s.works == x.s.works
    requires q in r.s.queues && q in r.pc
    requires r.s.queues == x.s.queues[q := r.s.queues[q]] && r.pc == x.pc[q := r.pc[q]]
    requires !r.pc[q].Running? || r.pc == x.pc
    requires !x.pc[q].Running? || r.pc == x.pc
    requires var c, c' := x.s.queues[q], r.s.queues[q];
             && c'.current == c.current && c'.delayed == c.delayed && Gated(c', r.pc[q])
             && ((c'.fifo == c.fifo && c'.count == c.count) || (c.fifo == [] && c'.fifo == [Stop] && c'.count == 1))
    ensures Coupled(r)
  {
    hide Linked, Deferred, Wf, GatesOk, Executing, IdsOk;
    SameDeferred(x.s.works, x.s.queues, r.s.works, r.s.queues);
    SameExecuting(x.s.works, x.s.queues, x.pc, r.s.works, r.s.queues, r.pc);
    OneGate(x.s.queues, x.pc, r.s.queues, r.pc, q);
    if r.s.queues[q].fifo == x.s.queues[q].fifo && r.s.queues[q].count == x.s.queues[q].count {
      SameLinked(x.s.works, x.s.queues, r.s.works, r.s.queues);
    } else {
      CountAt(x, q);
      AppendLinked(x.s.works, x.s.queues, r.s.works, r.s.queues, q, Stop);
    }
  }

  lemma CountAt(x: World, q: WorkQueue)
    requires Linked(x.s.works, x.s.queues) && q in x.s.queues
    ensures x.s.queues[q].count == |x.s.queues[q].fifo| && Distinct(x.s.queues[q].fifo)
  {}

  lemma CurrentAt(x: World, q: WorkQueue)
    requires x.pc.Keys == x.s.queues.Keys && Executing(x.s.works, x.s.queues, x.pc) && q in x.pc
    ensures x.s.queues[q].current == if x.pc[q].Running? then x.pc[q].w else null
  {}

  lemma GateStepCoupled(x: World, step: Step)
    requires WorldWf(x) && Coupled(x) && Enabled(x, step)
    requires step.StartStep? || step.DrainBeginStep? || step.DrainPollStep? || step.UnplugStep?
             || step.StopMarkStep? || step.StopEndStep?
    ensures Coupled(Next(x, step))
  {
    hide Linked, Deferred, Wf, GatesOk, Executing, IdsOk, Submit, Cancel, Schedule, Undelay, ScanNext,
         PromoteNext, PopNext, FinishNext, StopRelease;
    var q, r := step.on, Next(x, step);
    GateAt(x, q);
    CountAt(x, q);
    CurrentAt(x, q);
    assert x.s.queues[q := x.s.queues[q]] == x.s.queues && x.pc[q := x.pc[q]] == x.pc;
    GateCoupled(x, r, q);
  }

  lemma ReleaseCoupled(x: World, q: WorkQueue)
    requires WorldWf(x) && Coupled(x) && q in x.s.queues
    ensures Coupled(x.(s := StopRelease(x.s, q)))
  {
    hide Coupling, Detach;
    var d := x.s.queues[q].delayed;
    if d != [] {
      assert d[0] in d;
      DetachCoupled(x, q, d[0]);
    }
  }

  lemma StepCoupled(x: World, step: Step)
    requires WorldWf(x) && Coupled(x) && Enabled(x, step)
    ensures Coupled(Next(x, step))
  {
    hide Coupling, Wf, Submit, Cancel, Schedule, Undelay, ScanNext, PromoteNext, PopNext, FinishNext,
         Start, DrainBegin, DrainPoll, Unplug, StopMark, StopEnd, StopRelease;
    match step
    case SubmitStep(q, w, caller) => SubmitCoupled(x, q, w, caller);
    case CancelStep(w) => CancelCoupled(x, w);
    case ScheduleStep(q, w, delay, again, caller, now) => ScheduleCoupled(x, q, w, delay, again, caller, now);
    case UndelayStep(w) => UndelayCoupled(x, w);
    case ScanStep(q, now) => ScanCoupled(x, q, now);
    case PromoteStep(q) => PromoteCoupled(x, q);
    case TimeoutStep(q) => Moved(x, q, Scanning);
    case PopStep(q) => PopCoupled(x, q);
    case FinishStep(q) => FinishCoupled(x, q);
    case StopReleaseStep(q) => ReleaseCoupled(x, q);
    case _ => GateStepCoupled(x, step);
  }

  /** Nothing in use: every queue is off. */
  ghost predicate Init(x: World) {
    && WorldWf(x) && x.log == []
    && (forall w {:trigger x.s.works[w]} :: w in x.s.works ==>
          x.s.works[w].flags == IDLE && x.s.works[w].sub == x.s.works[w].run == x.s.works[w].comp == 0)
    && (forall q {:trigger x.s.queues[q]} :: q in x.s.queues ==>
          x.s.queues[q] == Chan([], 0, [], null, Gates(false, false, false, false)) && x.pc[q] == Exited)
  }

  lemma InitCoupled(x: World)
    requires Init(x)
    ensures Coupled(x)
  {}
}
