/** The work queue's critical sections on the objects themselves, each proved
    to take the state where the specification takes it. */
module WorkBackend {
  import opened Lists
  import opened MachineInts
  import opened WorkObjects
  import opened WorkSpec
  import opened WorkPromotion

  datatype Option<T> = None | Some(value: T)

  class Kernel {
    ghost const works: set<Work>
    ghost const queues: set<WorkQueue>

    constructor (ghost works: set<Work>, ghost queues: set<WorkQueue>)
      ensures this.works == works && this.queues == queues
    {
      this.works, this.queues := works, queues;
    }

    ghost function ItemOf(w: Work): Item
      reads w
    {
      Item(w.flags, w.submissionId, w.runningId, w.completionId, w.queue, w.delayQueue, w.deadline)
    }

    ghost function ChanOf(q: WorkQueue): Chan
      reads q
    {
      Chan(q.fifo, q.count, q.delayed, q.current, Gates(q.started, q.stopping, q.draining, q.plugged))
    }

    /** The fields of all objects, as one value. */
    ghost function View(): State
      reads works, queues
    {
      State(map w | w in works :: ItemOf(w), map q | q in queues :: ChanOf(q))
    }

    /** Every field has the value `s` gives it. */
    ghost predicate Shows(s: State)
      reads works, queues
      ensures Shows(s) ==> Wf(s) && s.works.Keys == works && s.queues.Keys == queues
    {
      && Wf(s) && s.works.Keys == works && s.queues.Keys == queues
      && ShowsItems(s.works) && ShowsChans(s.queues)
    }

    ghost predicate ShowsItems(items: Works)
      reads works
    {
      works <= items.Keys
      && forall w {:trigger ItemOf(w)} {:trigger items[w]} :: w in works ==> ItemOf(w) == items[w]
    }

    ghost predicate ShowsChans(chans: Queues)
      reads queues
    {
      queues <= chans.Keys
      && forall q {:trigger ChanOf(q)} {:trigger chans[q]} :: q in queues ==> ChanOf(q) == chans[q]
    }

    lemma ViewIs(s: State)
      requires Shows(s)
      ensures View() == s
    {
      hide Wf;
    }

    lemma ViewShows()
      requires Wf(View())
      ensures Shows(View())
    {
      hide Wf;
    }

    lemma Fields(s: State, w: Work)
      requires Shows(s) && w in works
      ensures ItemOf(w) == s.works[w]
      ensures w.queue != null ==> w.queue in queues
      ensures w.delayQueue != null ==> w.delayQueue in queues
    {}

    lemma QueueFields(s: State, q: WorkQueue)
      requires Shows(s) && q in queues
      ensures ChanOf(q) == s.queues[q]
      ensures forall w :: w in q.delayed ==> w in works
      ensures q.current != null ==> q.current in works
      ensures forall l :: l in q.fifo && l.Of? ==> l.work in works
    {}

    // ---- Submission

    method SubmitToQueue(q: WorkQueue?, work: Work, caller: WorkQueue?) returns (r: Reply)
      requires Wf(View()) && (q != null ==> q in queues) && work in works
      modifies works, queues
      ensures View() == Submit(old(View()), q, work, caller)
      ensures r == SubmitReply(old(View()), q, work, caller)
    {
      hide Wf, View, Shows, Enqueue;
      ghost var s := View();
      ViewShows();
      Fields(s, work);
      r := EINVAL;
      if !work.magic || !work.handler || !work.sync {
        ViewIs(s);
        return;
      }
      var to := if q == null then work.queue else q;
      if to == null {
        ViewIs(s);
        return;
      }
      QueueFields(s, to);
      if !to.started {
        r := ENODEV;
      } else if to.stopping || ((to.draining || to.plugged) && caller != to) || work.flags.canceling {
        r := EBUSY;
      } else if work.flags.queued {
        r := if work.queue == to then NoChange else EBUSY;
      } else if work.flags.running && work.queue != to {
        r := EBUSY;
      } else if to.count >= UINT16_MAX {
        r := ENOSPC;
      } else {
        r := if work.flags.running then Requeued else Queued;
        Append(to, work, s);
      }
      ViewIs(Submit(s, q, work, caller));
    }

    /** Numbers a new submission of `work` and links it. */
    method Append(q: WorkQueue, work: Work, ghost s: State)
      requires Shows(s) && q in queues && work in works
      modifies work, q
      ensures Shows(Enqueue(s, q, work))
    {
      hide Wf, ShowsItems, ShowsChans;
      Fields(s, work);
      ghost var i := s.works[work];
      ghost var i' := i.(sub := (i.sub + 1) % UINT32, queue := q, flags := i.flags.(queued := true));
      QueueFields(s, q);
      SetQueued(work, q, i', s);
      SetFifo(q, q.fifo + [Of(work)], q.count + 1, s.(works := s.works[work := i']));
    }

    // ---- Field writes

    method SetQueued(work: Work, q: WorkQueue, ghost i: Item, ghost s: State)
      requires Shows(s) && q in queues && work in works
      requires i == s.works[work].(sub := (s.works[work].sub + 1) % UINT32, queue := q,
                                   flags := s.works[work].flags.(queued := true))
      modifies work
      ensures Shows(s.(works := s.works[work := i]))
    {
      hide ShowsChans, Wf;
      Fields(s, work);
      WfItem(s, work);
      work.submissionId := (work.submissionId + 1) % UINT32;
      work.queue := q;
      work.flags := work.flags.(queued := true);
    }

    method SetFlags(work: Work, flags: Flags, ghost s: State)
      requires Shows(s) && work in works
      modifies work`flags
      ensures Shows(s.(works := s.works[work := s.works[work].(flags := flags)]))
    {
      hide ShowsChans, Wf;
      Fields(s, work);
      WfItem(s, work);
      work.flags := flags;
    }

    method SetRunning(work: Work, id: nat, flags: Flags, ghost s: State)
      requires Shows(s) && work in works
      modifies work`runningId, work`flags
      ensures Shows(s.(works := s.works[work := s.works[work].(run := id, flags := flags)]))
    {
      hide ShowsChans, Wf;
      Fields(s, work);
      WfItem(s, work);
      work.runningId, work.flags := id, flags;
    }

    method SetCompleted(work: Work, id: nat, flags: Flags, ghost s: State)
      requires Shows(s) && work in works
      modifies work`completionId, work`flags
      ensures Shows(s.(works := s.works[work := s.works[work].(comp := id, flags := flags)]))
    {
      hide ShowsChans, Wf;
      Fields(s, work);
      WfItem(s, work);
      work.completionId, work.flags := id, flags;
    }

    method SetDelay(work: Work, q: WorkQueue, deadline: nat, flags: Flags, ghost s: State)
      requires Shows(s) && work in works && q in queues
      modifies work`delayQueue, work`deadline, work`flags
      ensures Shows(s.(works := s.works[work := s.works[work].(delayQueue := q, deadline := deadline,
                                                              flags := flags)]))
    {
      hide ShowsChans, Wf;
      Fields(s, work);
      WfItem(s, work);
      work.delayQueue, work.deadline, work.flags := q, deadline, flags;
    }

    method SetFifo(q: WorkQueue, fifo: seq<Link>, count: nat, ghost s: State)
      requires Shows(s) && q in queues && forall l :: l in fifo && l.Of? ==> l.work in works
      modifies q`fifo, q`count
      ensures Shows(s.(queues := s.queues[q := s.queues[q].(fifo := fifo, count := count)]))
    {
      hide ShowsItems, Wf;
      QueueFields(s, q);
      WfChan(s, q);
      q.fifo, q.count := fifo, count;
    }

    method SetDelayed(q: WorkQueue, delayed: seq<Work>, ghost s: State)
      requires Shows(s) && q in queues && forall w :: w in delayed ==> w in works
      modifies q`delayed
      ensures Shows(s.(queues := s.queues[q := s.queues[q].(delayed := delayed)]))
    {
      hide ShowsItems, Wf;
      QueueFields(s, q);
      WfChan(s, q);
      q.delayed := delayed;
    }

    method SetCurrent(q: WorkQueue, work: Work?, ghost s: State)
      requires Shows(s) && q in queues && (work != null ==> work in works)
      modifies q`current
      ensures Shows(s.(queues := s.queues[q := s.queues[q].(current := work)]))
    {
      hide ShowsItems, Wf;
      QueueFields(s, q);
      WfChan(s, q);
      q.current := work;
    }

    method SetAllGates(q: WorkQueue, g: Gates, ghost s: State)
      requires Shows(s) && q in queues
      modifies q`started, q`stopping, q`draining, q`plugged
      ensures Shows(SetGates(s, q, g))
    {
      hide ShowsItems, Wf;
      QueueFields(s, q);
      WfChan(s, q);
      q.started, q.stopping, q.draining, q.plugged := g.started, g.stopping, g.draining, g.plugged;
    }

    // ---- Cancellation

    /** The flags left, or nothing for an item that is not initialised. */
    method CancelWork(work: Work) returns (flags: Option<nat>)
      requires Wf(View()) && work in works
      modifies works, queues
      ensures View() == Cancel(old(View()), work)
      ensures flags == if work.magic && work.sync then Some(work.flags.Bits()) else None
    {
      hide Wf, View, Shows, Dequeue;
      ghost var s := View();
      ViewShows();
      if !work.magic || !work.sync {
        ViewIs(s);
        return None;
      }
      Unlink(work, s);
      ghost var s1 := Dequeue(s, work);
      Fields(s1, work);
      if work.flags.running {
        SetFlags(work, work.flags.(canceling := true), s1);
      } else {
        SetCompleted(work, work.submissionId, work.flags.(canceling := false), s1);
      }
      Fields(Cancel(s, work), work);
      flags := Some(work.flags.Bits());
      ViewIs(Cancel(s, work));
    }

    /** Takes `work` out of the immediate list it is in, if any. */
    method Unlink(work: Work, ghost s: State)
      requires Shows(s) && work in works
      modifies works, queues
      ensures Shows(Dequeue(s, work))
    {
      hide Wf, Shows, Without;
      Fields(s, work);
      if work.flags.queued && work.queue != null {
        var q := work.queue;
        QueueFields(s, q);
        WithoutIn(q.fifo, Of(work));
        var fifo := Removed(q.fifo, Of(work));
        SetFlags(work, work.flags.(queued := false), s);
        SetFifo(q, fifo, if q.count == 0 then UINT32 - 1 else q.count - 1,
                s.(works := s.works[work := s.works[work].(flags := s.works[work].flags.(queued := false))]));
      }
    }

    // ---- Delayed items

    /** Unlinks `work` from the delayed list of `q`. */
    method DetachFrom(q: WorkQueue, work: Work, ghost s: State)
      requires Shows(s) && q in queues && work in works
      modifies work, q
      ensures Shows(Detach(s, q, work))
    {
      hide Wf, Shows, Without;
      Fields(s, work);
      QueueFields(s, q);
      WithoutIn(q.delayed, work);
      var delayed := Removed(q.delayed, work);
      SetDelayed(q, delayed, s);
      SetFlags(work, work.flags.(delayed := false), s.(queues := s.queues[q := s.queues[q].(delayed := delayed)]));
    }

    method UndelayWork(work: Work, ghost s: State) returns (from: WorkQueue?)
      requires Shows(s) && work in works
      modifies works, queues
      ensures Shows(Undelay(s, work))
      ensures from == if s.works[work].flags.delayed then s.works[work].delayQueue else null
    {
      hide Wf, Shows, Detach;
      Fields(s, work);
      from := null;
      if work.flags.delayed {
        from := work.delayQueue;
        if from != null {
          DetachFrom(from, work, s);
        }
      }
    }

    /** The critical section of schedule and reschedule calls. */
    method ScheduleSection(q: WorkQueue, work: Work, delay: nat, again: bool, caller: WorkQueue?, now: nat)
      returns (r: Reply)
      requires Wf(View()) && q in queues && work in works
      modifies works, queues
      ensures View() == Schedule(old(View()), q, work, delay, again, caller, now)
      ensures r == ScheduleReply(old(View()), q, work, delay, again, caller)
    {
      hide Wf, View, Shows, Undelay, Attach;
      ghost var s := View();
      ViewShows();
      Fields(s, work);
      QueueFields(s, q);
      if !work.magic || delay > INT32_MAX {
        r := EINVAL;
      } else if !q.started {
        r := ENODEV;
      } else if work.flags.canceling || q.stopping || ((q.draining || q.plugged) && caller != q) {
        r := EBUSY;
      } else if !again && (work.flags.delayed || work.flags.queued) {
        r := NoChange;
      } else {
        r := Replan(q, work, delay, now, s);
      }
      ViewIs(Schedule(s, q, work, delay, again, caller, now));
    }

    /** Takes `work` off its delayed list, and puts it on that of `q` unless it
        is to run at once. */
    method Replan(q: WorkQueue, work: Work, delay: nat, now: nat, ghost s: State) returns (r: Reply)
      requires Shows(s) && q in queues && work in works
      modifies works, queues
      ensures r == if delay == 0 then Proceed else Scheduled
      ensures Shows(if delay == 0 then Undelay(s, work)
                    else Attach(Undelay(s, work), q, work, (now + delay) % UINT32))
    {
      hide Wf, Shows, Undelay, Attach;
      var from := UndelayWork(work, s);
      r := Proceed;
      if delay != 0 {
        AttachTo(q, work, (now + delay) % UINT32, Undelay(s, work));
        r := Scheduled;
      }
    }

    method AttachTo(q: WorkQueue, work: Work, deadline: nat, ghost s: State)
      requires Shows(s) && q in queues && work in works
      modifies work, q
      ensures Shows(Attach(s, q, work, deadline))
    {
      hide Wf, Shows;
      Fields(s, work);
      QueueFields(s, q);
      var delayed := q.delayed + [work];
      SetDelay(work, q, deadline, work.flags.(delayed := true), s);
      SetDelayed(q, delayed,
                 s.(works := s.works[work := s.works[work].(delayQueue := q, deadline := deadline,
                                                            flags := s.works[work].flags.(delayed := true))]));
    }

    /** A schedule or reschedule call that nothing interferes with. */
    method ScheduleWork(q: WorkQueue, work: Work, delay: nat, again: bool, caller: WorkQueue?, now: nat)
      returns (r: Reply)
      requires Wf(View()) && q in queues && work in works
      modifies works, queues
      ensures var s1 := Schedule(old(View()), q, work, delay, again, caller, now);
              if ScheduleReply(old(View()), q, work, delay, again, caller) == Proceed
              then View() == Submit(s1, q, work, caller) && r == SubmitReply(s1, q, work, caller)
              else View() == s1 && r == ScheduleReply(old(View()), q, work, delay, again, caller)
    {
      hide Wf, View, Schedule, ScheduleReply, Submit, SubmitReply;
      r := ScheduleSection(q, work, delay, again, caller, now);
      if r == Proceed {
        r := SubmitToQueue(q, work, caller);
      }
    }

    /** A cancel call on a delayable item that nothing interferes with. */
    method CancelDelayable(work: Work) returns (flags: Option<nat>)
      requires Wf(View()) && work in works
      modifies works, queues
      ensures View() == if work.magic then Cancel(Undelay(old(View()), work), work) else old(View())
      ensures flags == if work.magic && work.sync then Some(work.flags.Bits()) else None
    {
      hide Wf, View, Shows, Undelay, Cancel;
      ghost var s := View();
      if !work.magic {
        return None;
      }
      ViewShows();
      var from := UndelayWork(work, s);
      ViewIs(Undelay(s, work));
      flags := CancelWork(work);
    }

    // ---- Promotion

    /** The promotion's critical section: the due item it unlinked, whether it
        may not be submitted, and otherwise the timeout. */
    method PromoteScan(q: WorkQueue, now: nat) returns (due: Work?, blocked: bool, timeout: nat)
      requires Wf(View()) && q in queues && now < UINT32
      modifies works, queues
      ensures (View(), due, blocked) == Scan(old(View()), q, now)
      ensures due == null ==> timeout == Nearest(old(View()).works, old(View()).queues[q].delayed, now)
    {
      hide Wf, View, Shows, Detach, Remaining, Nearest, FirstDue;
      ghost var s := View();
      ViewShows();
      QueueFields(s, q);
      var k, nearest := LookForDue(q, now, s);
      due, blocked, timeout := null, false, nearest;
      if k < |q.delayed| {
        due, blocked := q.delayed[k], q.plugged || q.stopping;
        assert q.delayed[k] in q.delayed;
        DetachFrom(q, due, s);
      }
      ViewIs(Scan(s, q, now).0);
    }

    /** The scan of the delayed list: the place of the first due item, or the
        end of the list and the least time left. */
    method LookForDue(q: WorkQueue, now: nat, ghost s: State) returns (k: nat, timeout: nat)
      requires Shows(s) && q in queues
      ensures k == FirstDue(s.works, s.queues[q].delayed, now)
      ensures k == |s.queues[q].delayed| ==> timeout == Nearest(s.works, s.queues[q].delayed, now)
    {
      hide Wf, Shows, Remaining, Looked;
      QueueFields(s, q);
      ghost var d := q.delayed;
      LookStart(s.works, d, now);
      k, timeout := 0, WAIT_FOREVER;
      while k < |q.delayed|
        invariant k <= |d| && Looked(s.works, d, k, timeout, now)
      {
        var dwork := q.delayed[k];
        assert d[k] in d;
        Fields(s, dwork);
        var left := Remaining(dwork.deadline, now);
        LookNext(s.works, d, k, timeout, now);
        if left == 0 {
          return;
        }
        if timeout == WAIT_FOREVER || left < timeout {
          timeout := left;
        }
        k := k + 1;
      }
      LookEnd(s.works, d, timeout, now);
    }

    /** The promotion loop without interference, at ticks `clock(0)`,
        `clock(1)` and so on. */
    method PromoteDelayed(q: WorkQueue, clock: nat -> nat) returns (timeout: nat)
      requires Wf(View()) && q in queues
      modifies works, queues
      ensures (View(), timeout) == (Promote(old(View()), q, clock, 0).0, Promote(old(View()), q, clock, 0).1)
    {
      hide Wf, View, Shows, Scan, Submit, Nearest, Remaining;
      var k := 0;
      ghost var s0 := View();
      ViewShows();
      while true
        invariant Wf(View()) && View().works.Keys == works && View().queues.Keys == queues
        invariant Promote(View(), q, clock, k) == Promote(s0, q, clock, 0)
        decreases |View().queues[q].delayed|
      {
        ghost var s := View();
        var due, blocked, left := PromoteScan(q, clock(k) % UINT32);
        ViewShows();
        if due == null {
          ScanNothing(s, q, clock(k) % UINT32);
          return left;
        }
        ScanShorter(s, q, clock(k) % UINT32);
        ghost var s1 := View();
        SubmitDelayed(s1, q, due);
        if !blocked {
          var _ := SubmitToQueue(q, due, q);
          ViewShows();
        }
        k := k + 1;
      }
    }

    // ---- The worker

    method PopWork(q: WorkQueue) returns (r: Popped)
      requires Wf(View()) && q in queues
      modifies works, queues
      ensures (View(), r) == Pop(old(View()), q)
    {
      hide Wf, View, Shows;
      ghost var s := View();
      ViewShows();
      QueueFields(s, q);
      if q.fifo == [] {
        r := Nothing;
      } else {
        var node, rest := q.fifo[0], q.fifo[1..];
        assert node in q.fifo && forall l :: l in rest ==> l in q.fifo;
        SetFifo(q, rest, if q.count == 0 then UINT32 - 1 else q.count - 1, s);
        ghost var c := s.queues[q].(fifo := rest, count := Pred(s.queues[q].count));
        ghost var s1 := s.(queues := s.queues[q := c]);
        if node == Stop {
          r := Finished;
        } else {
          var work := node.work;
          Fields(s1, work);
          ghost var i := s.works[work];
          SetRunning(work, work.submissionId, work.flags.(queued := false, running := true), s1);
          ghost var s2 := s1.(works := s.works[work := i.(run := i.sub,
                                                          flags := i.flags.(queued := false, running := true))]);
          SetCurrent(q, work, s2);
          assert s1.queues[q := c.(current := work)] == s.queues[q := c.(current := work)];
          r := Take(work);
        }
      }
      ViewIs(Pop(s, q).0);
    }

    method FinishWork(q: WorkQueue, work: Work)
      requires Wf(View()) && q in queues && work in works
      modifies works, queues
      ensures View() == Finish(old(View()), q, work)
    {
      hide Wf, View, Shows;
      ghost var s := View();
      ViewShows();
      Fields(s, work);
      SetCurrent(q, null, s);
      SetCompleted(work, work.runningId, work.flags.(running := false, canceling := false),
                   s.(queues := s.queues[q := s.queues[q].(current := null)]));
      ViewIs(Finish(s, q, work));
    }

    // ---- The gates

    method Zero(q: WorkQueue, open: bool, ghost s: State)
      requires Shows(s) && q in queues
      modifies q
      ensures Shows(s.(queues := s.queues[q := Chan([], 0, [], null, Gates(open, false, false, false))]))
    {
      hide Shows, Wf;
      ghost var c := s.queues[q];
      SetFifo(q, [], 0, s);
      ghost var s1 := s.(queues := s.queues[q := c.(fifo := [], count := 0)]);
      SetDelayed(q, [], s1);
      ghost var s2 := s1.(queues := s1.queues[q := c.(fifo := [], count := 0, delayed := [])]);
      SetCurrent(q, null, s2);
      ghost var s3 := s2.(queues := s2.queues[q := Chan([], 0, [], null, c.gates)]);
      SetAllGates(q, Gates(open, false, false, false), s3);
      assert s3.queues[q := Chan([], 0, [], null, Gates(open, false, false, false))]
          == s.queues[q := Chan([], 0, [], null, Gates(open, false, false, false))];
    }

    /** A start call whose native calls go as `native` says. */
    method QueueStart(q: WorkQueue, stackSize: nat, native: Native) returns (r: Reply)
      requires Wf(View()) && q in queues
      modifies q
      ensures View() == Start(old(View()), q, stackSize, native)
      ensures r == StartReply(old(View()), q, stackSize, native)
    {
      hide Wf, View, Shows;
      ghost var s := View();
      ViewShows();
      QueueFields(s, q);
      if stackSize == 0 {
        r := EINVAL;
      } else if q.started {
        r := EALREADY;
      } else if native == FifoFails {
        Zero(q, false, s);
        r := ENOMEM;
      } else if native == ThreadFails {
        Zero(q, false, s);
        r := ENATIVE;
      } else {
        Zero(q, true, s);
        r := NoChange;
      }
      ViewIs(Start(s, q, stackSize, native));
    }

    method QueueDrainBegin(q: WorkQueue, plug: bool) returns (waited: bool)
      requires Wf(View()) && q in queues
      modifies q
      ensures View() == DrainBegin(old(View()), q, plug)
      ensures waited == !Drained(old(View()).queues[q])
    {
      hide Wf, View, Shows;
      ghost var s := View();
      ViewShows();
      QueueFields(s, q);
      SetAllGates(q, Gates(q.started, q.stopping, true, q.plugged || plug), s);
      waited := q.count != 0 || q.current != null;
      QueueFields(DrainBegin(s, q, plug), q);
      ViewIs(DrainBegin(s, q, plug));
    }

    method QueueDrainPoll(q: WorkQueue) returns (drained: bool)
      requires Wf(View()) && q in queues
      modifies q
      ensures View() == DrainPoll(old(View()), q)
      ensures drained == Drained(old(View()).queues[q])
    {
      hide Wf, View, Shows;
      ghost var s := View();
      ViewShows();
      QueueFields(s, q);
      drained := q.count == 0 && q.current == null;
      if drained {
        SetAllGates(q, Gates(q.started, q.stopping, false, q.plugged), s);
      }
      ViewIs(DrainPoll(s, q));
    }

    method QueueUnplug(q: WorkQueue) returns (r: Reply)
      requires Wf(View()) && q in queues
      modifies q
      ensures View() == Unplug(old(View()), q)
      ensures r == UnplugReply(old(View()), q)
    {
      hide Wf, View, Shows;
      ghost var s := View();
      ViewShows();
      QueueFields(s, q);
      if !q.started {
        r := EINVAL;
      } else if !q.plugged {
        r := EALREADY;
      } else {
        SetAllGates(q, Gates(q.started, q.stopping, q.draining, false), s);
        r := NoChange;
      }
      ViewIs(Unplug(s, q));
    }

    method QueueStopMark(q: WorkQueue, caller: WorkQueue?) returns (r: Reply)
      requires Wf(View()) && q in queues
      modifies q
      ensures View() == StopMark(old(View()), q, caller)
      ensures r == StopReply(old(View()), q, caller)
    {
      hide Wf, View, Shows;
      ghost var s := View();
      ViewShows();
      QueueFields(s, q);
      if !q.started {
        r := EALREADY;
      } else if caller == q {
        r := EDEADLK;
      } else if !q.plugged || q.count != 0 || q.current != null {
        r := EBUSY;
      } else {
        ghost var c := s.queues[q];
        ghost var g := c.gates.(stopping := true);
        SetAllGates(q, Gates(q.started, true, q.draining, q.plugged), s);
        ghost var s1 := SetGates(s, q, g);
        QueueFields(s1, q);
        SetFifo(q, q.fifo + [Stop], q.count + 1, s1);
        assert s1.queues[q := c.(fifo := c.fifo + [Stop], count := c.count + 1, gates := g)]
            == s.queues[q := c.(fifo := c.fifo + [Stop], count := c.count + 1, gates := g)];
        r := Proceed;
      }
      ViewIs(StopMark(s, q, caller));
    }

    /** The loop at the end of a stop call that lets go of all delayed items. */
    method ReleaseDelayed(q: WorkQueue)
      requires Wf(View()) && q in queues
      modifies works, queues
      ensures View() == ReleaseAll(old(View()), q)
    {
      hide Wf, View, Shows, Detach;
      ghost var s0 := View();
      ViewShows();
      ghost var s := s0;
      while q.delayed != []
        invariant Shows(s) && ReleaseAll(s, q) == ReleaseAll(s0, q)
        decreases |s.queues[q].delayed|
      {
        QueueFields(s, q);
        ReleaseShorter(s, q);
        assert q.delayed[0] in q.delayed;
        DetachFrom(q, q.delayed[0], s);
        s := StopRelease(s, q);
        QueueFields(s, q);
      }
      QueueFields(s, q);
      ViewIs(s);
    }

    method QueueStopEnd(q: WorkQueue) returns (r: Reply)
      requires Wf(View()) && q in queues
      modifies q
      ensures (View(), r) == StopEnd(old(View()), q)
    {
      hide Wf, View, Shows;
      ghost var s := View();
      ViewShows();
      QueueFields(s, q);
      if q.fifo != [] {
        r := EBUSY;
      } else {
        ghost var c := s.queues[q];
        SetFifo(q, [], 0, s);
        ghost var s1 := s.(queues := s.queues[q := c.(fifo := [], count := 0)]);
        QueueFields(s1, q);
        SetAllGates(q, Gates(false, q.stopping, q.draining, q.plugged), s1);
        assert s1.queues[q := c.(count := 0, gates := c.gates.(started := false))]
            == s.queues[q := c.(count := 0, gates := c.gates.(started := false))];
        r := NoChange;
      }
      ViewIs(StopEnd(s, q).0);
    }

    method Removed<T(==)>(list: seq<T>, node: T) returns (r: seq<T>)
      ensures r == Without(list, node)
    {
      var k := Find(list, node);
      r := if k < |list| then list[..k] + list[k + 1..] else list;
    }
  }

  /** All delayed items of `q` let go, first to last. */
  ghost function ReleaseAll(s: State, q: WorkQueue): (r: State)
    requires Wf(s) && q in s.queues
    ensures Wf(r) && r.works.Keys == s.works.Keys && r.queues.Keys == s.queues.Keys
    ensures r.queues[q].delayed == []
    decreases |s.queues[q].delayed|
  {
    if s.queues[q].delayed == [] then s
    else
      ReleaseShorter(s, q);
      ReleaseAll(StopRelease(s, q), q)
  }

  lemma ReleaseShorter(s: State, q: WorkQueue)
    requires Wf(s) && q in s.queues && s.queues[q].delayed != []
    ensures |StopRelease(s, q).queues[q].delayed| < |s.queues[q].delayed|
  {}

  /** The loop clears the DELAYED flag of exactly the items that were in the
      list, and changes nothing else. */
  lemma {:induction false} ReleaseAllExact(s: State, q: WorkQueue)
    requires Wf(s) && q in s.queues
    ensures var r, d := ReleaseAll(s, q), s.queues[q].delayed;
            && r.queues == s.queues[q := s.queues[q].(delayed := [])]
            && (forall w :: w in s.works ==>
                  r.works[w] == if w in d then Undelayed(s.works[w]) else s.works[w])
    decreases |s.queues[q].delayed|
  {
    hide Wf, StopRelease, ReleaseAll;
    ReleaseAllNext(s, q);
    if s.queues[q].delayed == [] {
      assert s.queues == s.queues[q := s.queues[q].(delayed := [])];
    } else {
      ReleaseFirst(s, q);
      ReleaseAllExact(StopRelease(s, q), q);
    }
  }

  lemma ReleaseAllNext(s: State, q: WorkQueue)
    requires Wf(s) && q in s.queues
    ensures ReleaseAll(s, q) == if s.queues[q].delayed == [] then s else ReleaseAll(StopRelease(s, q), q)
  {
    hide Wf, StopRelease;
  }

  lemma ReleaseFirst(s: State, q: WorkQueue)
    requires Wf(s) && q in s.queues && s.queues[q].delayed != []
    ensures var r, d := StopRelease(s, q), s.queues[q].delayed;
            && d[0] in s.works && (forall w :: w in d <==> w == d[0] || w in d[1..])
            && r.works == s.works[d[0] := Undelayed(s.works[d[0]])]
            && r.queues == s.queues[q := s.queues[q].(delayed := d[1..])] && |d[1..]| < |d|
  {
    var d := s.queues[q].delayed;
    assert d == [d[0]] + d[1..] && d[0] in d;
    assert Without<Work>(d, d[0]) == d[1..];
  }

  lemma ScanNothing(s: State, q: WorkQueue, now: nat)
    requires Wf(s) && q in s.queues && Scan(s, q, now).1 == null
    ensures Scan(s, q, now).0 == s
  {}

  /** The first `k` items have been looked at, none of them is due, and
      `timeout` is the least time left among them. */
  ghost predicate Looked(works: Works, d: seq<Work>, k: nat, timeout: nat, now: nat) {
    && k <= |d| && (forall w :: w in d ==> w in works)
    && timeout == Nearest(works, d[..k], now)
    && FirstDue(works, d, now) == k + FirstDue(works, d[k..], now)
  }

  lemma LookStart(works: Works, d: seq<Work>, now: nat)
    requires forall w :: w in d ==> w in works
    ensures Looked(works, d, 0, WAIT_FOREVER, now)
  {
    assert d[0..] == d && d[..0] == [];
  }

  lemma LookNext(works: Works, d: seq<Work>, k: nat, timeout: nat, now: nat)
    requires Looked(works, d, k, timeout, now) && k < |d|
    ensures var left := Remaining(works[d[k]].deadline, now);
            if left == 0 then FirstDue(works, d, now) == k
            else Looked(works, d, k + 1, if timeout == WAIT_FOREVER || left < timeout then left else timeout, now)
  {
    hide Remaining, Nearest, FirstDue;
    DueNext(works, d, k, now);
    NearestNext(works, d, k, now);
  }

  lemma NearestNext(works: Works, d: seq<Work>, k: nat, now: nat)
    requires k < |d| && forall w :: w in d ==> w in works
    ensures var r, left := Nearest(works, d[..k], now), Remaining(works[d[k]].deadline, now);
            Nearest(works, d[..k + 1], now) == if r == WAIT_FOREVER || left < r then left else r
  {
    hide Remaining;
    assert d[..k + 1][..k] == d[..k];
  }

  lemma DueNext(works: Works, d: seq<Work>, k: nat, now: nat)
    requires k < |d| && forall w :: w in d ==> w in works
    ensures FirstDue(works, d[k..], now)
         == if Remaining(works[d[k]].deadline, now) == 0 then 0 else 1 + FirstDue(works, d[k + 1..], now)
  {
    hide Remaining;
    assert d[k..][1..] == d[k + 1..];
  }

  lemma LookEnd(works: Works, d: seq<Work>, timeout: nat, now: nat)
    requires Looked(works, d, |d|, timeout, now)
    ensures FirstDue(works, d, now) == |d| && timeout == Nearest(works, d, now)
  {
    assert d[..|d|] == d;
  }

  lemma WfItem(s: State, w: Work)
    requires Wf(s) && w in s.works
    ensures forall i: Item {:trigger s.works[w := i]} ::
              (i.queue != null ==> i.queue in s.queues) && (i.delayQueue != null ==> i.delayQueue in s.queues)
              ==> Wf(s.(works := s.works[w := i]))
  {}

  lemma WfChan(s: State, q: WorkQueue)
    requires Wf(s) && q in s.queues
    ensures forall c: Chan {:trigger s.queues[q := c]} ::
              (forall l :: l in c.fifo && l.Of? ==> l.work in s.works) && (forall w :: w in c.delayed ==> w in s.works)
              && (c.current != null ==> c.current in s.works)
              ==> Wf(s.(queues := s.queues[q := c]))
  {}

  lemma WithoutIn<T>(q: seq<T>, t: T)
    ensures forall x :: x in Without(q, t) ==> x in q
  {}
}
