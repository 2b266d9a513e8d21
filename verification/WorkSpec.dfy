/** What each critical section of the work queue does to the items and queues. */
module WorkSpec {
  import opened Lists
  import opened MachineInts
  import opened WorkObjects

  datatype Item = Item(flags: Flags, sub: nat, run: nat, comp: nat,
                       queue: WorkQueue?, delayQueue: WorkQueue?, deadline: nat)

  datatype Gates = Gates(started: bool, stopping: bool, draining: bool, plugged: bool)

  datatype Chan = Chan(fifo: seq<Link>, count: nat, delayed: seq<Work>, current: Work?, gates: Gates)

  type Works = map<Work, Item>
  type Queues = map<WorkQueue, Chan>

  datatype State = State(works: Works, queues: Queues)

  datatype Reply =
    | NoChange | Queued | Requeued | Scheduled | Waited | Proceed
    | EINVAL | ENODEV | EBUSY | ENOSPC | EALREADY | EDEADLK | ENOMEM | ENATIVE

  /** Every pointer leads to an object of the system. */
  ghost predicate Wf(s: State) {
    && (forall w {:trigger s.works[w]} :: w in s.works ==>
          && (s.works[w].queue != null ==> s.works[w].queue in s.queues)
          && (s.works[w].delayQueue != null ==> s.works[w].delayQueue in s.queues))
    && (forall q, l {:trigger l in s.queues[q].fifo} ::
          q in s.queues && l in s.queues[q].fifo && l.Of? ==> l.work in s.works)
    && (forall q, w {:trigger w in s.queues[q].delayed} ::
          q in s.queues && w in s.queues[q].delayed ==> w in s.works)
    && (forall q {:trigger s.queues[q]} ::
          q in s.queues && s.queues[q].current != null ==> s.queues[q].current in s.works)
  }

  // ---- Submission

  ghost function Target(s: State, q: WorkQueue?, w: Work): (r: WorkQueue?)
    requires Wf(s) && w in s.works && (q != null ==> q in s.queues)
    ensures r != null ==> r in s.queues
  {
    if q == null then s.works[w].queue else q
  }

  /** Is the queue closed to this caller? Only the worker itself, named by its
      queue, may submit while the queue drains or is plugged. */
  predicate Closed(g: Gates, q: WorkQueue, caller: WorkQueue?) {
    g.stopping || ((g.draining || g.plugged) && caller != q)
  }

  /** Initialised, with a handler to run. */
  predicate Usable(w: Work) {
    w.magic && w.handler && w.sync
  }

  ghost function SubmitReply(s: State, q: WorkQueue?, w: Work, caller: WorkQueue?): Reply
    requires Wf(s) && w in s.works && (q != null ==> q in s.queues)
  {
    var i, to := s.works[w], Target(s, q, w);
    if !Usable(w) then EINVAL
    else if to == null then EINVAL
    else if !s.queues[to].gates.started then ENODEV
    else if Closed(s.queues[to].gates, to, caller) || i.flags.canceling then EBUSY
    else if i.flags.queued then if i.queue == to then NoChange else EBUSY
    else if i.flags.running && i.queue != to then EBUSY
    else if s.queues[to].count >= UINT16_MAX then ENOSPC
    else if i.flags.running then Requeued
    else Queued
  }

  predicate Accepted(r: Reply) {
    r == Queued || r == Requeued
  }

  ghost function Submit(s: State, q: WorkQueue?, w: Work, caller: WorkQueue?): (r: State)
    requires Wf(s) && w in s.works && (q != null ==> q in s.queues)
    ensures Wf(r) && r.works.Keys == s.works.Keys && r.queues.Keys == s.queues.Keys
  {
    if Accepted(SubmitReply(s, q, w, caller)) then Enqueue(s, Target(s, q, w), w) else s
  }

  ghost function Enqueue(s: State, q: WorkQueue, w: Work): (r: State)
    requires Wf(s) && w in s.works && q in s.queues
    ensures Wf(r) && r.works.Keys == s.works.Keys && r.queues.Keys == s.queues.Keys
  {
    var i, c := s.works[w], s.queues[q];
    State(s.works[w := i.(sub := (i.sub + 1) % UINT32, queue := q, flags := i.flags.(queued := true))],
          s.queues[q := c.(fifo := c.fifo + [Of(w)], count := c.count + 1)])
  }

  // ---- Cancellation

  ghost function Cancel(s: State, w: Work): (r: State)
    requires Wf(s) && w in s.works
    ensures Wf(r) && r.works.Keys == s.works.Keys && r.queues.Keys == s.queues.Keys
  {
    if !w.magic || !w.sync then s
    else
      var s1 := Dequeue(s, w);
      var i := s1.works[w];
      if i.flags.running then s1.(works := s1.works[w := i.(flags := i.flags.(canceling := true))])
      else s1.(works := s1.works[w := i.(comp := i.sub, flags := i.flags.(canceling := false))])
  }

  /** Unlinks `w` from the immediate list it is in, if any. */
  ghost function Dequeue(s: State, w: Work): (r: State)
    requires Wf(s) && w in s.works
    ensures Wf(r) && r.works.Keys == s.works.Keys && r.queues.Keys == s.queues.Keys
  {
    var i := s.works[w];
    if !i.flags.queued || i.queue == null then s
    else
      var c := s.queues[i.queue];
      assert forall x :: x in Without(c.fifo, Of(w)) ==> x in c.fifo;
      State(s.works[w := i.(flags := i.flags.(queued := false))],
            s.queues[i.queue := c.(fifo := Without(c.fifo, Of(w)), count := Pred(c.count))])
  }

  /** Decrement of an unsigned counter. */
  function Pred(n: nat): nat {
    if n == 0 then UINT32 - 1 else n - 1
  }

  // ---- Delayed items

  /** Ticks left until `deadline`, read as a signed 32-bit difference. */
  function Remaining(deadline: nat, now: nat): (r: nat)
    ensures r <= INT32_MAX
  {
    var d := (deadline - now) % UINT32;
    if d <= INT32_MAX then d else 0
  }

  /** Takes a delayed item off the list it is in. */
  ghost function Undelay(s: State, w: Work): (r: State)
    requires Wf(s) && w in s.works
    ensures Wf(r) && r.works.Keys == s.works.Keys && r.queues.Keys == s.queues.Keys
  {
    var i := s.works[w];
    if !i.flags.delayed || i.delayQueue == null then s else Detach(s, i.delayQueue, w)
  }

  /** Unlinks `w` from the delayed list of `q`. */
  ghost function Detach(s: State, q: WorkQueue, w: Work): (r: State)
    requires Wf(s) && w in s.works && q in s.queues
    ensures Wf(r) && r.works.Keys == s.works.Keys && r.queues.Keys == s.queues.Keys
  {
    var i, c := s.works[w], s.queues[q];
    assert forall x :: x in Without(c.delayed, w) ==> x in c.delayed;
    State(s.works[w := i.(flags := i.flags.(delayed := false))],
          s.queues[q := c.(delayed := Without(c.delayed, w))])
  }

  ghost function ScheduleReply(s: State, q: WorkQueue, w: Work, delay: nat, again: bool,
                               caller: WorkQueue?): Reply
    requires Wf(s) && w in s.works && q in s.queues
  {
    var i := s.works[w];
    if !w.magic || delay > INT32_MAX then EINVAL
    else if !s.queues[q].gates.started then ENODEV
    else if i.flags.canceling || Closed(s.queues[q].gates, q, caller) then EBUSY
    else if !again && (i.flags.delayed || i.flags.queued) then NoChange
    else if delay == 0 then Proceed
    else Scheduled
  }

  /** The critical section of a schedule or (`again`) reschedule call at tick
      `now`. On `Proceed` the call goes on to submit the item. */
  ghost function Schedule(s: State, q: WorkQueue, w: Work, delay: nat, again: bool,
                          caller: WorkQueue?, now: nat): (r: State)
    requires Wf(s) && w in s.works && q in s.queues
    ensures Wf(r) && r.works.Keys == s.works.Keys && r.queues.Keys == s.queues.Keys
  {
    var reply := ScheduleReply(s, q, w, delay, again, caller);
    if reply == Proceed then Undelay(s, w)
    else if reply == Scheduled then Attach(Undelay(s, w), q, w, (now + delay) % UINT32)
    else s
  }

  ghost function Attach(s: State, q: WorkQueue, w: Work, deadline: nat): (r: State)
    requires Wf(s) && w in s.works && q in s.queues
    ensures Wf(r) && r.works.Keys == s.works.Keys && r.queues.Keys == s.queues.Keys
  {
    var i, c := s.works[w], s.queues[q];
    State(s.works[w := i.(delayQueue := q, deadline := deadline, flags := i.flags.(delayed := true))],
          s.queues[q := c.(delayed := c.delayed + [w])])
  }

  /** Where the promotion scan stops: the first item that is due at `now`. */
  ghost function FirstDue(works: Works, delayed: seq<Work>, now: nat): (k: nat)
    requires forall w :: w in delayed ==> w in works
    ensures k <= |delayed|
    ensures forall j :: 0 <= j < k ==> Remaining(works[delayed[j]].deadline, now) > 0
    ensures k < |delayed| ==> Remaining(works[delayed[k]].deadline, now) == 0
  {
    if delayed == [] || Remaining(works[delayed[0]].deadline, now) == 0 then 0
    else 1 + FirstDue(works, delayed[1..], now)
  }

  /** The promotion's critical section: unlinks the first due item, if any. */
  ghost function Scan(s: State, q: WorkQueue, now: nat): (r: (State, Work?, bool))
    requires Wf(s) && q in s.queues
    ensures Wf(r.0) && r.0.works.Keys == s.works.Keys && r.0.queues.Keys == s.queues.Keys
    ensures r.1 != null ==> r.1 in s.works
  {
    var c := s.queues[q];
    var k := FirstDue(s.works, c.delayed, now);
    if k == |c.delayed| then (s, null, false)
    else (Detach(s, q, c.delayed[k]), c.delayed[k], c.gates.plugged || c.gates.stopping)
  }

  // ---- The worker

  datatype Popped = Nothing | Finished | Take(work: Work)

  ghost function Pop(s: State, q: WorkQueue): (r: (State, Popped))
    requires Wf(s) && q in s.queues
    ensures Wf(r.0) && r.0.works.Keys == s.works.Keys && r.0.queues.Keys == s.queues.Keys
    ensures r.1.Take? ==> r.1.work in s.works
  {
    var c := s.queues[q];
    if c.fifo == [] then (s, Nothing)
    else
      var rest := c.(fifo := c.fifo[1..], count := Pred(c.count));
      assert c.fifo[0] in c.fifo && forall x :: x in c.fifo[1..] ==> x in c.fifo;
      match c.fifo[0]
      case Stop => (s.(queues := s.queues[q := rest]), Finished)
      case Of(w) =>
        var i := s.works[w];
        (State(s.works[w := i.(run := i.sub, flags := i.flags.(queued := false, running := true))],
               s.queues[q := rest.(current := w)]),
         Take(w))
  }

  /** After the handler has returned. */
  ghost function Finish(s: State, q: WorkQueue, w: Work): (r: State)
    requires Wf(s) && q in s.queues && w in s.works
    ensures Wf(r) && r.works.Keys == s.works.Keys && r.queues.Keys == s.queues.Keys
  {
    var i := s.works[w];
    State(s.works[w := i.(comp := i.run, flags := i.flags.(running := false, canceling := false))],
          s.queues[q := s.queues[q].(current := null)])
  }

  // ---- Gates

  ghost function SetGates(s: State, q: WorkQueue, g: Gates): (r: State)
    requires Wf(s) && q in s.queues
    ensures Wf(r) && r.works == s.works && r.queues.Keys == s.queues.Keys
  {
    s.(queues := s.queues[q := s.queues[q].(gates := g)])
  }

  /** How the native calls of a start go. */
  datatype Native = Works | FifoFails | ThreadFails

  ghost function StartReply(s: State, q: WorkQueue, stackSize: nat, native: Native): Reply
    requires Wf(s) && q in s.queues
  {
    if stackSize == 0 then EINVAL
    else if s.queues[q].gates.started then EALREADY
    else match native
      case Works => NoChange
      case FifoFails => ENOMEM
      case ThreadFails => ENATIVE
  }

  /** A start over storage that is not in use zeroes it, and opens the queue if
      the native calls succeed. */
  ghost function Start(s: State, q: WorkQueue, stackSize: nat, native: Native): (r: State)
    requires Wf(s) && q in s.queues
    ensures Wf(r) && r.works == s.works && r.queues.Keys == s.queues.Keys
  {
    if StartReply(s, q, stackSize, native) in {EINVAL, EALREADY} then s
    else s.(queues := s.queues[q := Chan([], 0, [], null, Gates(native == Works, false, false, false))])
  }

  predicate Drained(c: Chan) {
    c.count == 0 && c.current == null
  }

  ghost function DrainBegin(s: State, q: WorkQueue, plug: bool): (r: State)
    requires Wf(s) && q in s.queues
    ensures Wf(r) && r.works == s.works && r.queues.Keys == s.queues.Keys
  {
    var g := s.queues[q].gates;
    SetGates(s, q, g.(draining := true, plugged := g.plugged || plug))
  }

  ghost function DrainPoll(s: State, q: WorkQueue): (r: State)
    requires Wf(s) && q in s.queues
    ensures Wf(r) && r.works == s.works && r.queues.Keys == s.queues.Keys
  {
    if Drained(s.queues[q]) then SetGates(s, q, s.queues[q].gates.(draining := false)) else s
  }

  ghost function UnplugReply(s: State, q: WorkQueue): Reply
    requires Wf(s) && q in s.queues
  {
    var g := s.queues[q].gates;
    if !g.started then EINVAL else if !g.plugged then EALREADY else NoChange
  }

  ghost function Unplug(s: State, q: WorkQueue): (r: State)
    requires Wf(s) && q in s.queues
    ensures Wf(r) && r.works == s.works && r.queues.Keys == s.queues.Keys
  {
    if UnplugReply(s, q) == NoChange then SetGates(s, q, s.queues[q].gates.(plugged := false)) else s
  }

  ghost function StopReply(s: State, q: WorkQueue, caller: WorkQueue?): Reply
    requires Wf(s) && q in s.queues
  {
    var c := s.queues[q];
    if !c.gates.started then EALREADY
    else if caller == q then EDEADLK
    else if !c.gates.plugged || !Drained(c) then EBUSY
    else Proceed
  }

  /** The critical section that asks the worker to stop. */
  ghost function StopMark(s: State, q: WorkQueue, caller: WorkQueue?): (r: State)
    requires Wf(s) && q in s.queues
    ensures Wf(r) && r.works == s.works && r.queues.Keys == s.queues.Keys
  {
    if StopReply(s, q, caller) != Proceed then s
    else
      var c := s.queues[q];
      s.(queues := s.queues[q := c.(fifo := c.fifo + [Stop], count := c.count + 1,
                                    gates := c.gates.(stopping := true))])
  }

  /** One round of the loop that empties the delayed list of a stopped queue. */
  ghost function StopRelease(s: State, q: WorkQueue): (r: State)
    requires Wf(s) && q in s.queues
    ensures Wf(r) && r.works.Keys == s.works.Keys && r.queues.Keys == s.queues.Keys
  {
    var d := s.queues[q].delayed;
    if d == [] then s else
      assert d[0] in d;
      Detach(s, q, d[0])
  }

  /** The end of a stop call: the list must be empty, and the queue is off. */
  ghost function StopEnd(s: State, q: WorkQueue): (r: (State, Reply))
    requires Wf(s) && q in s.queues
    ensures Wf(r.0) && r.0.works == s.works && r.0.queues.Keys == s.queues.Keys
  {
    var c := s.queues[q];
    if c.fifo != [] then (s, EBUSY)
    else (s.(queues := s.queues[q := c.(count := 0, gates := c.gates.(started := false))]), NoChange)
  }
}
