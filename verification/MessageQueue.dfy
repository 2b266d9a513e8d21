/** The ring-buffer message queue, with any number of putters and getters
    between their semaphore takes, critical sections and gives. */
module MessageQueue {
  import opened Semaphore

  type Byte = x: int | 0 <= x < 256

  type Message = seq<Byte>

  /** The buffer and the indices. */
  datatype Ring = Ring(slots: seq<Message>, read: nat, write: nat, count: nat)

  /** Callers past their take and before their critical section (`putting`,
      `getting`), and past their critical section and before their give
      (`filled`, `emptied`). */
  datatype InFlight = InFlight(putting: nat, filled: nat, getting: nat, emptied: nat)

  /** `written` and `got` record the messages copied in and out. */
  datatype Msgq = Msgq(ring: Ring, spaces: nat, items: nat, busy: InFlight,
                       written: seq<Message>, got: seq<Message>)

  datatype Step = PutTake | PutCopy(m: Message) | PutGive | GetTake | GetCopy | GetGive

  ghost predicate RingWf(r: Ring) {
    |r.slots| > 0 && r.read < |r.slots| && r.write < |r.slots|
  }

  /** The unread messages, oldest first. */
  ghost function Contents(r: Ring): seq<Message>
    requires RingWf(r)
  {
    seq(r.count, i requires 0 <= i < r.count => r.slots[(r.read + i) % |r.slots|])
  }

  ghost function Put(r: Ring, m: Message): Ring
    requires RingWf(r)
  {
    Ring(r.slots[r.write := m], r.read, (r.write + 1) % |r.slots|, r.count + 1)
  }

  ghost function Get(r: Ring): Ring
    requires RingWf(r) && r.count > 0
  {
    Ring(r.slots, (r.read + 1) % |r.slots|, r.write, r.count - 1)
  }

  ghost predicate Wf(q: Msgq) {
    RingWf(q.ring)
  }

  /** A caller takes a token, runs its critical section, or gives a token. */
  ghost predicate Enabled(q: Msgq, step: Step) {
    match step
    case PutTake => CanTake(q.spaces)
    case PutCopy(_) => q.busy.putting > 0
    case PutGive => q.busy.filled > 0
    case GetTake => CanTake(q.items)
    case GetCopy => q.busy.getting > 0 && q.ring.count > 0
    case GetGive => q.busy.emptied > 0
  }

  ghost function Next(q: Msgq, step: Step): (r: Msgq)
    requires Wf(q) && Enabled(q, step)
    ensures Wf(r) && |r.ring.slots| == |q.ring.slots|
  {
    var b := q.busy;
    match step
    case PutTake => q.(spaces := q.spaces - 1, busy := b.(putting := b.putting + 1))
    case PutCopy(m) =>
      q.(ring := Put(q.ring, m), busy := b.(putting := b.putting - 1, filled := b.filled + 1),
         written := q.written + [m])
    case PutGive => q.(items := Given(q.items, |q.ring.slots|), busy := b.(filled := b.filled - 1))
    case GetTake => q.(items := q.items - 1, busy := b.(getting := b.getting + 1))
    case GetCopy =>
      q.(ring := Get(q.ring), busy := b.(getting := b.getting - 1, emptied := b.emptied + 1),
         got := q.got + [q.ring.slots[q.ring.read]])
    case GetGive => q.(spaces := Given(q.spaces, |q.ring.slots|), busy := b.(emptied := b.emptied - 1))
  }

  /** Every message is accounted for by a token or a caller in flight, and so
      is every free slot; what was read and what is unread is what was written. */
  ghost predicate Inv(q: Msgq)
    ensures Inv(q) ==> Wf(q)
  {
    && Wf(q) && q.ring.count <= |q.ring.slots|
    && q.ring.write == (q.ring.read + q.ring.count) % |q.ring.slots|
    && q.items + q.busy.filled + q.busy.getting == q.ring.count
    && q.spaces + q.busy.putting + q.busy.emptied == |q.ring.slots| - q.ring.count
    && q.written == q.got + Contents(q.ring)
  }

  /** What initialisation leaves behind. */
  ghost predicate Init(q: Msgq) {
    && Wf(q) && q.ring.read == q.ring.write == q.ring.count == 0
    && q.spaces == |q.ring.slots| && q.items == 0 && q.busy == InFlight(0, 0, 0, 0)
    && q.written == q.got == []
  }

  lemma Wrap(k: nat, n: nat)
    requires 0 < n && k < 2 * n
    ensures k % n == if k < n then k else k - n
  {
    if k >= n {
      assert k % n == (k - n) % n;
    }
  }

  /** A put that finds room appends, and leaves the unread messages alone. */
  lemma PutAppends(r: Ring, m: Message)
    requires RingWf(r) && r.count < |r.slots| && r.write == (r.read + r.count) % |r.slots|
    ensures Contents(Put(r, m)) == Contents(r) + [m]
    ensures Put(r, m).write == (r.read + r.count + 1) % |r.slots|
  {
    var n := |r.slots|;
    Wrap(r.read + r.count, n);
    Wrap(r.read + r.count + 1, n);
    Wrap(r.write + 1, n);
    forall i | 0 <= i <= r.count ensures Contents(Put(r, m))[i] == (Contents(r) + [m])[i] {
      Wrap(r.read + i, n);
    }
  }

  /** A get takes the oldest message. */
  lemma GetRemoves(r: Ring)
    requires RingWf(r) && 0 < r.count <= |r.slots|
    ensures Contents(r) == [r.slots[r.read]] + Contents(Get(r))
    ensures (Get(r).read + (r.count - 1)) % |r.slots| == (r.read + r.count) % |r.slots|
  {
    var n := |r.slots|;
    Wrap(r.read, n);
    Wrap(r.read + 1, n);
    Wrap(r.read + r.count, n);
    Wrap(Get(r).read + (r.count - 1), n);
    forall i | 0 <= i < r.count ensures Contents(r)[i] == ([r.slots[r.read]] + Contents(Get(r)))[i] {
      Wrap(r.read + i, n);
      if i > 0 {
        Wrap(Get(r).read + (i - 1), n);
      }
    }
  }

  lemma StepKeeps(q: Msgq, step: Step)
    requires Inv(q) && Enabled(q, step)
    ensures Inv(Next(q, step))
  {
    hide Contents;
    match step
    case PutCopy(m) => PutAppends(q.ring, m);
    case GetCopy => GetRemoves(q.ring);
    case _ =>
  }

  /** No give is lost to saturation, no getter finds the ring empty, and no
      putter finds it full. */
  lemma NeverBlockedInside(q: Msgq)
    requires Inv(q)
    ensures q.busy.filled > 0 ==> Given(q.items, |q.ring.slots|) == q.items + 1
    ensures q.busy.emptied > 0 ==> Given(q.spaces, |q.ring.slots|) == q.spaces + 1
    ensures q.busy.getting > 0 ==> Enabled(q, GetCopy)
    ensures q.busy.putting > 0 ==> q.ring.count < |q.ring.slots|
  {
    hide Contents;
  }

  // ---- Runs

  ghost predicate Legal(q: Msgq, steps: seq<Step>)
    requires Wf(q)
    decreases |steps|
  {
    steps == [] || (Enabled(q, steps[0]) && Legal(Next(q, steps[0]), steps[1..]))
  }

  ghost function Exec(q: Msgq, steps: seq<Step>): (r: Msgq)
    requires Wf(q) && Legal(q, steps)
    ensures Wf(r) && |r.ring.slots| == |q.ring.slots|
    decreases |steps|
  {
    if steps == [] then q else Exec(Next(q, steps[0]), steps[1..])
  }

  lemma {:induction false} RunInv(q: Msgq, steps: seq<Step>)
    requires Inv(q) && Legal(q, steps)
    ensures Inv(Exec(q, steps))
    decreases |steps|
  {
    hide Inv, Next, Enabled;
    if steps != [] {
      StepKeeps(q, steps[0]);
      RunInv(Next(q, steps[0]), steps[1..]);
    }
  }

  /** A bounded FIFO under every interleaving: tokens and callers in flight add
      up to the capacity, at most the capacity is unread, and the messages read
      are a prefix of the messages written, the rest being in the ring. No
      message and no free slot is stranded: with nobody on the way, a getter can
      come for the one and a putter for the other. */
  lemma RunFifo(q: Msgq, steps: seq<Step>)
    requires Init(q) && Legal(q, steps)
    ensures var r := Exec(q, steps); var b := r.busy;
            && Wf(r) && r.spaces + r.items + b.putting + b.filled + b.getting + b.emptied == |q.ring.slots|
            && r.ring.write == (r.ring.read + r.ring.count) % |q.ring.slots|
            && r.got <= r.written && |r.written| - |r.got| == r.ring.count <= |q.ring.slots|
            && r.written == r.got + Contents(r.ring)
            && (b.filled == b.getting == 0 ==> (Enabled(r, GetTake) <==> r.got != r.written))
            && (b.putting == b.emptied == 0 ==> (Enabled(r, PutTake) <==> r.ring.count < |q.ring.slots|))
  {
    RunInv(q, steps);
    hide Legal;
  }

  // ---- The queue as an object

  class MessageQueue {
    const messageSize: nat
    const capacity: nat
    const buffer: array<Byte>
    var readIndex: nat
    var writeIndex: nat
    var count: nat
    const items: Sem
    const spaces: Sem
    ghost var busy: InFlight
    ghost var written: seq<Message>
    ghost var got: seq<Message>

    /** The buffer comes from the caller; what it holds does not matter. */
    constructor (buffer: array<Byte>, messageSize: nat, capacity: nat)
      requires messageSize > 0 && capacity > 0 && buffer.Length == messageSize * capacity
      ensures Valid() && Init(View()) && this.buffer == buffer
      ensures fresh(items) && fresh(spaces)
      ensures this.messageSize == messageSize && this.capacity == capacity
    {
      this.buffer, this.messageSize, this.capacity := buffer, messageSize, capacity;
      readIndex, writeIndex, count := 0, 0, 0;
      items := new Sem(0, capacity);
      spaces := new Sem(capacity, capacity);
      busy, written, got := InFlight(0, 0, 0, 0), [], [];
    }

    ghost predicate Valid()
      reads this
    {
      && messageSize > 0 && capacity > 0 && buffer.Length == messageSize * capacity
      && readIndex < capacity && writeIndex < capacity
      && items.limit == spaces.limit == capacity && items != spaces
    }

    ghost function Bytes(): seq<Byte>
      reads buffer
    {
      buffer[..]
    }

    ghost function View(): Msgq
      requires Valid()
      reads this, buffer, items, spaces
    {
      Msgq(Ring(SlotsOf(Bytes(), messageSize, capacity), readIndex, writeIndex, count),
           spaces.count, items.count, busy, written, got)
    }

    // ---- The three parts of a put

    method PutTake() returns (ok: bool)
      requires Valid()
      modifies this`busy, spaces
      ensures Valid() && ok == Enabled(old(View()), Step.PutTake)
      ensures View() == if ok then Next(old(View()), Step.PutTake) else old(View())
    {
      ok := spaces.TryTake();
      if ok {
        busy := busy.(putting := busy.putting + 1);
      }
    }

    /** The critical section: copies `message` into the slot at the write index. */
    method PutCopy(message: array<Byte>)
      requires Valid() && message != buffer && message.Length == messageSize
      requires Enabled(View(), Step.PutCopy(message[..]))
      modifies this`writeIndex, this`count, this`busy, this`written, buffer
      ensures Valid() && View() == Next(old(View()), Step.PutCopy(message[..]))
    {
      hide SlotsOf, SlotAt, Contents;
      ghost var before := Bytes();
      SlotInside(writeIndex, messageSize, capacity);
      assert (writeIndex + 1) * messageSize == writeIndex * messageSize + messageSize;
      CopyInto(message, writeIndex * messageSize);
      Overwritten(before, Bytes(), writeIndex, message[..], capacity);
      writeIndex := (writeIndex + 1) % capacity;
      count := count + 1;
      busy := busy.(putting := busy.putting - 1, filled := busy.filled + 1);
      written := written + [message[..]];
    }

    method CopyInto(message: array<Byte>, at: nat)
      requires message != buffer && at + message.Length <= buffer.Length
      modifies buffer
      ensures Bytes() == old(Bytes())[..at] + message[..] + old(Bytes())[at + message.Length..]
    {
      ghost var before := Bytes();
      for j := 0 to message.Length
        invariant Bytes() == before[..at] + message[..j] + before[at + j..]
      {
        buffer[at + j] := message[j];
      }
      assert message[..message.Length] == message[..];
    }

    method PutGive()
      requires Valid() && Enabled(View(), Step.PutGive)
      modifies this`busy, items
      ensures Valid() && View() == Next(old(View()), Step.PutGive)
    {
      items.Give();
      busy := busy.(filled := busy.filled - 1);
    }

    // ---- The three parts of a get

    method GetTake() returns (ok: bool)
      requires Valid()
      modifies this`busy, items
      ensures Valid() && ok == Enabled(old(View()), Step.GetTake)
      ensures View() == if ok then Next(old(View()), Step.GetTake) else old(View())
    {
      ok := items.TryTake();
      if ok {
        busy := busy.(getting := busy.getting + 1);
      }
    }

    /** The critical section: copies the slot at the read index to `message`. */
    method GetCopy(message: array<Byte>)
      requires Valid() && message != buffer && message.Length == messageSize
      requires Enabled(View(), Step.GetCopy)
      modifies this`readIndex, this`count, this`busy, this`got, message
      ensures Valid() && View() == Next(old(View()), Step.GetCopy)
      ensures message[..] == old(View()).ring.slots[old(readIndex)]
    {
      hide SlotsOf, SlotAt, Contents;
      SlotInside(readIndex, messageSize, capacity);
      SlotIs(Bytes(), readIndex, messageSize, capacity);
      CopyOut(message, readIndex * messageSize);
      readIndex := (readIndex + 1) % capacity;
      count := count - 1;
      busy := busy.(getting := busy.getting - 1, emptied := busy.emptied + 1);
      got := got + [message[..]];
    }

    method CopyOut(message: array<Byte>, at: nat)
      requires message != buffer && at + message.Length <= buffer.Length
      modifies message
      ensures message[..] == Bytes()[at..at + message.Length]
    {
      for j := 0 to message.Length
        invariant message[..j] == Bytes()[at..at + j]
      {
        message[j] := buffer[at + j];
      }
      assert message[..message.Length] == message[..];
    }

    method GetGive()
      requires Valid() && Enabled(View(), Step.GetGive)
      modifies this`busy, spaces
      ensures Valid() && View() == Next(old(View()), Step.GetGive)
    {
      spaces.Give();
      busy := busy.(emptied := busy.emptied - 1);
    }
  }

  lemma SlotInside(k: nat, size: nat, capacity: nat)
    requires k < capacity
    ensures k * size <= (k + 1) * size <= size * capacity
  {
    assert (k + 1) * size <= capacity * size;
  }

  /** The bytes of slot `k`. */
  ghost function SlotAt(bytes: seq<Byte>, k: nat, size: nat, capacity: nat): Message
    requires k < capacity && |bytes| == size * capacity
  {
    SlotInside(k, size, capacity);
    bytes[k * size..(k + 1) * size]
  }

  ghost function SlotsOf(bytes: seq<Byte>, size: nat, capacity: nat): (slots: seq<Message>)
    requires |bytes| == size * capacity
    ensures |slots| == capacity
  {
    seq(capacity, k requires 0 <= k < capacity => SlotAt(bytes, k, size, capacity))
  }

  lemma SlotIs(bytes: seq<Byte>, k: nat, size: nat, capacity: nat)
    requires k < capacity && |bytes| == size * capacity
    ensures k * size + size <= |bytes| && SlotsOf(bytes, size, capacity)[k] == bytes[k * size..k * size + size]
  {
    SlotInside(k, size, capacity);
    assert (k + 1) * size == k * size + size;
  }

  /** Writing the bytes of slot `w` changes slot `w` and no other. */
  lemma Overwritten(before: seq<Byte>, after: seq<Byte>, w: nat, m: Message, capacity: nat)
    requires w < capacity && |before| == |m| * capacity && w * |m| + |m| <= |before|
    requires after == before[..w * |m|] + m + before[w * |m| + |m|..]
    ensures SlotsOf(after, |m|, capacity) == SlotsOf(before, |m|, capacity)[w := m]
  {
    forall k: nat | k < capacity
      ensures SlotAt(after, k, |m|, capacity) == if k == w then m else SlotAt(before, k, |m|, capacity)
    {
      SlotInside(k, |m|, capacity);
      assert (w + 1) * |m| == w * |m| + |m|;
      if k != w {
        SlotsApart(k, w, |m|);
        SliceBefore(before, after, w * |m|, k * |m|, (k + 1) * |m|);
        SliceAfter(before, after, w * |m| + |m|, k * |m|, (k + 1) * |m|);
      }
    }
  }

  lemma SliceBefore(a: seq<Byte>, b: seq<Byte>, n: nat, lo: nat, hi: nat)
    requires n <= |a| && n <= |b| && a[..n] == b[..n]
    ensures lo <= hi <= n ==> a[lo..hi] == b[lo..hi]
  {
    if lo <= hi <= n {
      assert a[lo..hi] == a[..n][lo..hi] && b[lo..hi] == b[..n][lo..hi];
    }
  }

  lemma SliceAfter(a: seq<Byte>, b: seq<Byte>, n: nat, lo: nat, hi: nat)
    requires n <= |a| == |b| && a[n..] == b[n..]
    ensures n <= lo <= hi <= |a| ==> a[lo..hi] == b[lo..hi]
  {
    if n <= lo <= hi <= |a| {
      forall i | lo <= i < hi ensures a[i] == b[i] {
        assert a[n..][i - n] == b[n..][i - n];
      }
    }
  }

  /** Different slots do not overlap. */
  lemma SlotsApart(k: nat, w: nat, size: nat)
    requires k != w
    ensures (k + 1) * size <= w * size || (w + 1) * size <= k * size
  {
    if k < w {
      assert (k + 1) * size <= w * size;
    } else {
      assert (w + 1) * size <= k * size;
    }
  }
}
