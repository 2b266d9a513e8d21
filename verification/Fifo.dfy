/** The zero-copy FIFO: an intrusive list and a semaphore that counts it, under
    any interleaving of putters and getters. */
module Fifo {
  import opened Lists
  import opened MachineInts
  import opened Semaphore

  datatype Code = OK | EBUSY | ENOSPC | EAGAIN

  /** A node of the caller's object, and whether some FIFO holds it. */
  class Node {
    var queued: bool

    constructor ()
      ensures !queued
    {
      queued := false;
    }
  }

  /** `giving` putters have linked their node and not given its token yet;
      `taking` getters hold a token and have not unlinked a node yet. `put` and
      `got` record the nodes that went in and came out. */
  datatype Queue = Queue(list: seq<Node>, queued: set<Node>, count: nat, tokens: nat,
                         giving: nat, taking: nat, put: seq<Node>, got: seq<Node>)

  /** `Elsewhere`: another FIFO takes or releases a node this one does not hold. */
  datatype Step = PutLink(n: Node) | PutGive | GetTake | GetUnlink | Elsewhere(n: Node, held: bool)

  ghost predicate Enabled(q: Queue, step: Step) {
    match step
    case PutLink(_) => true
    case PutGive => q.giving > 0
    case GetTake => CanTake(q.tokens)
    case GetUnlink => q.taking > 0
    case Elsewhere(n, _) => n !in q.list
  }

  function PutReply(q: Queue, n: Node): Code {
    if n in q.queued then EBUSY else if q.count >= UINT16_MAX then ENOSPC else OK
  }

  function GetReply(q: Queue): Code {
    if q.list == [] then EAGAIN else OK
  }

  ghost function Next(q: Queue, step: Step): Queue
    requires Enabled(q, step)
  {
    match step
    case PutLink(n) =>
      if PutReply(q, n) != OK then q
      else q.(list := q.list + [n], queued := q.queued + {n}, count := q.count + 1, giving := q.giving + 1,
              put := q.put + [n])
    case PutGive => q.(tokens := Given(q.tokens, UINT16_MAX), giving := q.giving - 1)
    case GetTake => q.(tokens := q.tokens - 1, taking := q.taking + 1)
    case GetUnlink =>
      if GetReply(q) != OK then q.(taking := q.taking - 1)
      else q.(list := q.list[1..], queued := q.queued - {q.list[0]}, count := if q.count > 0 then q.count - 1 else 0,
              taking := q.taking - 1, got := q.got + [q.list[0]])
    case Elsewhere(n, held) => q.(queued := if held then q.queued + {n} else q.queued - {n})
  }

  /** Each linked node is linked once and is accounted for by a token, a
      pending give, or a getter that already holds its token. */
  ghost predicate Inv(q: Queue) {
    && Distinct(q.list) && (forall n :: n in q.list ==> n in q.queued)
    && q.count == |q.list| <= UINT16_MAX
    && q.tokens + q.giving + q.taking == q.count
    && q.put == q.got + q.list
  }

  ghost predicate Init(q: Queue) {
    q == Queue([], {}, 0, 0, 0, 0, [], [])
  }

  lemma StepKeeps(q: Queue, step: Step)
    requires Inv(q) && Enabled(q, step)
    ensures Inv(Next(q, step))
  {
    hide Distinct;
    match step
    case GetUnlink =>
      TailDistinct(q.list);
      assert q.list == [q.list[0]] + q.list[1..];
    case PutLink(n) =>
      if PutReply(q, n) == OK {
        AppendDistinct(q.list, n);
      }
    case _ =>
  }

  /** A put is refused exactly for a node some FIFO holds and for a full list,
      and then changes nothing; otherwise the node goes to the end. */
  lemma PutAccepted(q: Queue, n: Node)
    requires Inv(q)
    ensures PutReply(q, n) == EBUSY <==> n in q.queued
    ensures PutReply(q, n) == OK <==> n !in q.queued && |q.list| < 0xffff
    ensures var r := Next(q, PutLink(n));
            if n !in q.queued && |q.list| < 0xffff
            then r.list == q.list + [n] && n in r.queued && r.put == q.put + [n] && r.got == q.got
            else r == q
  {
    hide Distinct;
  }

  ghost predicate Legal(q: Queue, steps: seq<Step>)
    decreases |steps|
  {
    steps == [] || (Enabled(q, steps[0]) && Legal(Next(q, steps[0]), steps[1..]))
  }

  ghost function Exec(q: Queue, steps: seq<Step>): Queue
    requires Legal(q, steps)
    decreases |steps|
  {
    if steps == [] then q else Exec(Next(q, steps[0]), steps[1..])
  }

  lemma {:induction false} RunInv(q: Queue, steps: seq<Step>)
    requires Inv(q) && Legal(q, steps)
    ensures Inv(Exec(q, steps))
    decreases |steps|
  {
    hide Inv, Next, Enabled;
    if steps != [] {
      StepKeeps(q, steps[0]);
      RunInv(Next(q, steps[0]), steps[1..]);
    }
  }

  /** On every run: the tokens, pending gives and getters in flight add up to
      the list, no give is lost to saturation, a getter that holds a token
      finds a node, nodes leave in the order in which they came, and no node
      is stranded: a getter can come for it or somebody is on the way. */
  lemma RunFifo(q: Queue, steps: seq<Step>)
    requires Init(q) && Legal(q, steps)
    ensures var r := Exec(q, steps);
            && r.tokens + r.giving + r.taking == |r.list| == r.count <= UINT16_MAX
            && (r.giving > 0 ==> Given(r.tokens, UINT16_MAX) == r.tokens + 1)
            && (r.taking > 0 ==> GetReply(r) == OK)
            && (r.list != [] ==> Enabled(r, GetTake) || r.taking > 0 || r.giving > 0)
            && r.got <= r.put && r.put == r.got + r.list
  {
    RunInv(q, steps);
    hide Legal, Exec;
  }

  // ---- The FIFO as an object

  class Fifo {
    var list: seq<Node>
    var count: nat
    const items: Sem
    ghost var giving: nat
    ghost var taking: nat
    ghost var put: seq<Node>
    ghost var got: seq<Node>
    ghost const nodes: set<Node>   // the nodes in play

    constructor (ghost nodes: set<Node>)
      requires forall n :: n in nodes ==> !n.queued
      ensures Valid() && Init(View()) && this.nodes == nodes && fresh(items)
    {
      list, count := [], 0;
      items := new Sem(0, UINT16_MAX);
      giving, taking, put, got := 0, 0, [], [];
      this.nodes := nodes;
    }

    ghost predicate Valid()
      reads this
    {
      items.limit == UINT16_MAX && forall n :: n in list ==> n in nodes
    }

    ghost function View(): Queue
      reads this, nodes, items
    {
      Queue(list, (set n | n in nodes && n.queued), count, items.count, giving, taking, put, got)
    }

    /** The critical section of a put. */
    method PutLink(n: Node) returns (r: Code)
      requires Valid() && n in nodes
      modifies this`list, this`count, this`giving, this`put, n
      ensures Valid() && View() == Next(old(View()), Step.PutLink(n))
      ensures r == PutReply(old(View()), n)
    {
      if n.queued {
        return EBUSY;
      }
      if count >= UINT16_MAX {
        return ENOSPC;
      }
      n.queued := true;
      list := list + [n];
      count := count + 1;
      giving, put := giving + 1, put + [n];
      r := OK;
    }

    method PutGive()
      requires Valid() && Enabled(View(), Step.PutGive)
      modifies this`giving, items
      ensures Valid() && View() == Next(old(View()), Step.PutGive)
    {
      items.Give();
      giving := giving - 1;
    }

    method GetTake() returns (ok: bool)
      requires Valid()
      modifies this`taking, items
      ensures Valid() && ok == Enabled(old(View()), Step.GetTake)
      ensures View() == if ok then Next(old(View()), Step.GetTake) else old(View())
    {
      ok := items.TryTake();
      if ok {
        taking := taking + 1;
      }
    }

    /** The critical section of a get. */
    method GetUnlink() returns (n: Node?, r: Code)
      requires Valid() && Inv(View()) && Enabled(View(), Step.GetUnlink)
      modifies this`list, this`count, this`taking, this`got, nodes
      ensures Valid() && View() == Next(old(View()), Step.GetUnlink)
      ensures r == GetReply(old(View())) == OK
      ensures old(list) == [n] + list
    {
      n, r := null, EAGAIN;
      taking := taking - 1;
      if list != [] {
        n := list[0];
        assert n in list && forall x :: x in list[1..] ==> x in list;
        list := list[1..];
        n.queued := false;
        count := count - 1;
        got := got + [n];
        r := OK;
      }
    }
  }
}
