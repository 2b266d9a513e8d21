/** The fixed-size block allocator: a free chain threaded through the first
    word of each free block, under any interleaving of its callers. */
module MemSlab {
  import opened Lists
  import opened Semaphore

  datatype Code = OK | EINVAL

  const NULL: nat := 0

  /** Where the blocks are. */
  datatype Layout = Layout(base: nat, size: nat, blocks: nat)

  /** `words[k]` is the first word of block `k`, an address or the client's
      data. `free` lists the blocks of the free chain, head first. `taking`
      callers hold a token and have not unlinked a block yet, `giving` callers
      have linked theirs back and not given its token yet. */
  datatype Slab = Slab(at: Layout, words: seq<nat>, head: nat, freeBlocks: nat, tokens: nat,
                       free: seq<nat>, taking: nat, giving: nat)

  datatype Step =
    | AllocTake
    | AllocUnlink
    | Free(address: nat)
    | FreeGive
    | ClientWrite(block: nat, value: nat)

  ghost predicate LayoutWf(l: Layout) {
    l.base > 0 && l.size > 0 && l.blocks > 0
  }

  function Block(l: Layout, k: nat): nat {
    l.base + k * l.size
  }

  /** The address check of a free call. */
  predicate InRange(l: Layout, address: nat)
    requires LayoutWf(l)
  {
    !(address < l.base || address - l.base >= l.size * l.blocks || (address - l.base) % l.size != 0)
  }

  function IndexOf(l: Layout, address: nat): nat
    requires LayoutWf(l) && address >= l.base
  {
    (address - l.base) / l.size
  }

  lemma BlockIndex(l: Layout, k: nat)
    requires LayoutWf(l)
    ensures Block(l, k) >= l.base && Block(l, k) != NULL && IndexOf(l, Block(l, k)) == k
    ensures (Block(l, k) - l.base) % l.size == 0
    ensures InRange(l, Block(l, k)) <==> k < l.blocks
  {
    assert Block(l, k) - l.base == k * l.size;
    Multiple(k, l.size);
    if k < l.blocks {
      assert (k + 1) * l.size <= l.blocks * l.size;
    } else {
      assert l.blocks * l.size <= k * l.size;
    }
  }

  lemma Multiple(k: nat, m: nat)
    requires m > 0
    ensures (k * m) / m == k && (k * m) % m == 0
  {
    var q, r := (k * m) / m, (k * m) % m;
    assert k * m == m * q + r;
    SameProduct(k, q, m);
    SameProduct(q, k, m);
  }

  lemma SameProduct(a: nat, b: nat, m: nat)
    ensures a < b ==> a * m + m <= b * m
  {
    if a < b {
      var d := b - a - 1;
      assert (a + 1 + d) * m == a * m + m + d * m;
      assert d * m >= 0;
    }
  }

  /** The check passes exactly the addresses of blocks. */
  lemma InRangeExact(l: Layout, address: nat)
    requires LayoutWf(l)
    ensures InRange(l, address) <==> exists k: nat :: k < l.blocks && address == Block(l, k)
  {
    if InRange(l, address) {
      var k := IndexOf(l, address);
      assert address - l.base == k * l.size;
      SameProduct(k, l.blocks, l.size);
      assert k < l.blocks;
      assert address == Block(l, k);
    }
    if k: nat :| k < l.blocks && address == Block(l, k) {
      BlockIndex(l, k);
    }
  }

  // ---- The chain

  /** Following the words from `a` visits the blocks `path` and ends in NULL. */
  ghost predicate Chain(l: Layout, words: seq<nat>, a: nat, path: seq<nat>)
    decreases |path|
  {
    if path == [] then a == NULL
    else path[0] < |words| && a == Block(l, path[0]) && Chain(l, words, words[path[0]], path[1..])
  }

  /** Writing a word off the chain leaves the chain alone. */
  lemma {:induction false} ChainFrame(l: Layout, words: seq<nat>, a: nat, path: seq<nat>, k: nat, v: nat)
    requires Chain(l, words, a, path) && k < |words| && k !in path
    ensures Chain(l, words[k := v], a, path)
    decreases |path|
  {
    if path != [] {
      ChainFrame(l, words, words[path[0]], path[1..], k, v);
    }
  }

  /** The double-free scan: does it meet `address` within `fuel` blocks? */
  ghost predicate Scan(l: Layout, words: seq<nat>, a: nat, fuel: nat, address: nat)
    requires LayoutWf(l)
    decreases fuel
  {
    if a == NULL || fuel == 0 then false
    else if a == address then true
    else if InRange(l, a) && IndexOf(l, a) < |words| then Scan(l, words, words[IndexOf(l, a)], fuel - 1, address)
    else false
  }

  /** Bounded by the length of the chain, the scan is exact. */
  lemma {:induction false} ScanExact(l: Layout, words: seq<nat>, a: nat, path: seq<nat>, k: nat)
    requires LayoutWf(l) && Chain(l, words, a, path) && |words| == l.blocks
    ensures Scan(l, words, a, |path|, Block(l, k)) <==> k in path
    decreases |path|
  {
    if path != [] {
      BlockIndex(l, path[0]);
      BlockIndex(l, k);
      ScanExact(l, words, words[path[0]], path[1..], k);
    }
  }

  lemma ScanNext(l: Layout, words: seq<nat>, a: nat, path: seq<nat>, address: nat)
    requires LayoutWf(l) && |words| == l.blocks && Chain(l, words, a, path) && path != []
    ensures a >= l.base && IndexOf(l, a) < |words| && Chain(l, words, words[IndexOf(l, a)], path[1..])
    ensures Scan(l, words, a, |path|, address)
       <==> a == address || Scan(l, words, words[IndexOf(l, a)], |path| - 1, address)
  {
    BlockIndex(l, path[0]);
  }

  lemma ScanLast(l: Layout, words: seq<nat>, a: nat, path: seq<nat>, address: nat)
    requires LayoutWf(l) && (a == NULL || path == [])
    ensures !Scan(l, words, a, |path|, address)
  {}

  // ---- Steps

  ghost predicate Wf(s: Slab) {
    LayoutWf(s.at) && |s.words| == s.at.blocks
  }

  ghost function FreeReply(s: Slab, address: nat): Code
    requires Wf(s)
  {
    if !InRange(s.at, address) then EINVAL
    else if s.freeBlocks >= s.at.blocks then EINVAL
    else if Scan(s.at, s.words, s.head, s.freeBlocks, address) then EINVAL
    else OK
  }

  /** A client may write to any block it holds, and only there. */
  ghost predicate Enabled(s: Slab, step: Step)
    requires Wf(s)
  {
    match step
    case AllocTake => CanTake(s.tokens)
    case AllocUnlink => s.taking > 0
    case Free(_) => true
    case FreeGive => s.giving > 0
    case ClientWrite(k, _) => k < s.at.blocks && k !in s.free
  }

  /** The block an allocation returns is the one at the head of the chain. */
  ghost function Unlinked(s: Slab): (r: Slab)
    requires Wf(s)
    ensures Wf(r)
  {
    var next := if InRange(s.at, s.head) && IndexOf(s.at, s.head) < |s.words|
                then s.words[IndexOf(s.at, s.head)] else NULL;
    s.(head := next, freeBlocks := if s.freeBlocks > 0 then s.freeBlocks - 1 else 0,
       free := if s.free != [] then s.free[1..] else [], taking := if s.taking > 0 then s.taking - 1 else 0)
  }

  ghost function Linked(s: Slab, address: nat): (r: Slab)
    requires Wf(s) && InRange(s.at, address)
    ensures Wf(r)
  {
    var k := IndexOf(s.at, address);
    if k < |s.words| then
      s.(words := s.words[k := s.head], head := address, freeBlocks := s.freeBlocks + 1,
         free := [k] + s.free, giving := s.giving + 1)
    else s
  }

  ghost function Next(s: Slab, step: Step): (r: Slab)
    requires Wf(s) && Enabled(s, step)
    ensures Wf(r)
  {
    match step
    case AllocTake => s.(tokens := s.tokens - 1, taking := s.taking + 1)
    case AllocUnlink => Unlinked(s)
    case Free(a) => if FreeReply(s, a) == OK then Linked(s, a) else s
    case FreeGive => s.(tokens := Given(s.tokens, s.at.blocks), giving := s.giving - 1)
    case ClientWrite(k, v) => s.(words := s.words[k := v])
  }

  /** The chain is a NULL-terminated path over `freeBlocks` distinct blocks,
      and tokens and callers in flight account for each of them. */
  ghost predicate Inv(s: Slab)
    ensures Inv(s) ==> Wf(s)
  {
    && Wf(s) && Chain(s.at, s.words, s.head, s.free) && Distinct(s.free) && |s.free| == s.freeBlocks
    && (forall k :: k in s.free ==> k < s.at.blocks)
    && s.tokens + s.taking + s.giving == s.freeBlocks <= s.at.blocks
  }

  /** `address` is that of a block some client holds. */
  ghost predicate Live(s: Slab, address: nat) {
    exists k: nat :: k < s.at.blocks && k !in s.free && address == Block(s.at, k)
  }

  lemma {:induction false} AtMost(q: seq<nat>, n: nat)
    requires Distinct(q) && forall k :: k in q ==> k < n
    ensures |q| <= n
    decreases n
  {
    hide Without;
    if q != [] {
      assert q[0] in q;
      var last: nat := n - 1;
      if last in q {
        var rest: seq<nat> := Without(q, last);
        WithoutKeeps(q, last);
        assert |multiset(q)| == |q| && |multiset(rest)| == |rest|;
        AtMost(rest, last);
      } else {
        AtMost(q, last);
      }
    }
  }

  /** Distinct numbers below `n`, `n` of them: all of them. */
  lemma Pigeonhole(q: seq<nat>, n: nat, k: nat)
    requires Distinct(q) && |q| == n && (forall j :: j in q ==> j < n) && k < n
    ensures k in q
  {
    if k !in q {
      assert forall x :: multiset(q + [k])[x] == multiset(q)[x] + multiset{k}[x];
      AtMost(q + [k], n);
    }
  }

  /** A free succeeds exactly on the address of a live block: every foreign
      pointer and every double free is refused, and no legitimate one is. */
  lemma FreeExact(s: Slab, address: nat)
    requires Inv(s)
    ensures FreeReply(s, address) == OK <==> Live(s, address)
  {
    InRangeExact(s.at, address);
    if InRange(s.at, address) {
      var k: nat :| k < s.at.blocks && address == Block(s.at, k);
      BlockIndex(s.at, k);
      ScanExact(s.at, s.words, s.head, s.free, k);
      if s.freeBlocks >= s.at.blocks {
        Pigeonhole(s.free, s.at.blocks, k);
      }
      if j: nat :| j < s.at.blocks && j !in s.free && address == Block(s.at, j) {
        BlockIndex(s.at, j);
      }
    }
  }

  /** An allocation that holds a token finds a block, and one nobody holds;
      afterwards it is live, and it was the only one that became so. */
  lemma AllocFresh(s: Slab)
    requires Inv(s) && Enabled(s, AllocUnlink)
    ensures s.head != NULL && InRange(s.at, s.head) && !Live(s, s.head)
    ensures Live(Next(s, AllocUnlink), s.head)
    ensures forall a: nat {:trigger Live(s, a)} :: a != s.head ==> (Live(Next(s, AllocUnlink), a) <==> Live(s, a))
  {
    var r, k := Next(s, AllocUnlink), s.free[0];
    BlockIndex(s.at, k);
    WithoutKeeps(s.free, k);
    assert k in s.free && s.free == [k] + r.free && Without(s.free, k) == r.free;
    assert forall j :: j in r.free <==> j in s.free && j != k;
    if j: nat :| j < s.at.blocks && j !in s.free && s.head == Block(s.at, j) {
      BlockIndex(s.at, j);
    }
    forall a: nat | a != s.head ensures Live(r, a) <==> Live(s, a) {
      if Live(r, a) {
        var j: nat :| j < s.at.blocks && j !in r.free && a == Block(s.at, j);
        assert j !in s.free;
      }
    }
  }

  /** A free of a live block makes it free, and the only one to become so; any
      other free changes nothing. */
  lemma FreeReleases(s: Slab, address: nat)
    requires Inv(s)
    ensures var r := Next(s, Free(address));
            if Live(s, address)
            then r.freeBlocks == s.freeBlocks + 1
                 && forall a: nat {:trigger Live(s, a)} :: Live(r, a) <==> Live(s, a) && a != address
            else r == s
  {
    hide Scan, Chain, Distinct, InRange, IndexOf;
    FreeExact(s, address);
    if Live(s, address) {
      var k: nat :| k < s.at.blocks && k !in s.free && address == Block(s.at, k);
      BlockIndex(s.at, k);
      FreedLive(s, Next(s, Free(address)), k);
    }
  }

  lemma FreedLive(s: Slab, r: Slab, k: nat)
    requires LayoutWf(s.at) && r.at == s.at && r.free == [k] + s.free && k < s.at.blocks && k !in s.free
    ensures forall a: nat {:trigger Live(s, a)} :: Live(r, a) <==> Live(s, a) && a != Block(s.at, k)
  {
    assert forall j :: j in r.free <==> j == k || j in s.free;
    BlockIndex(s.at, k);
    forall a: nat ensures Live(r, a) <==> Live(s, a) && a != Block(s.at, k) {
      if Live(r, a) {
        var j: nat :| j < s.at.blocks && j !in r.free && a == Block(s.at, j);
        BlockIndex(s.at, j);
      }
      if Live(s, a) && a != Block(s.at, k) {
        var j: nat :| j < s.at.blocks && j !in s.free && a == Block(s.at, j);
        assert j !in r.free;
      }
    }
  }

  lemma StepKeeps(s: Slab, step: Step)
    requires Inv(s) && Enabled(s, step)
    ensures Inv(Next(s, step))
  {
    match step
    case AllocUnlink =>
      BlockIndex(s.at, s.free[0]);
      WithoutKeeps(s.free, s.free[0]);
      assert Without(s.free, s.free[0]) == s.free[1..];
    case Free(a) =>
      if FreeReply(s, a) == OK {
        FreeKeeps(s, a);
      }
    case ClientWrite(k, v) => ChainFrame(s.at, s.words, s.head, s.free, k, v);
    case _ =>
  }

  lemma FreeKeeps(s: Slab, a: nat)
    requires Inv(s) && FreeReply(s, a) == OK
    ensures Inv(Linked(s, a))
  {
    var r := Linked(s, a);
    FreeExact(s, a);
    var k: nat :| k < s.at.blocks && k !in s.free && a == Block(s.at, k);
    BlockIndex(s.at, k);
    ChainFrame(s.at, s.words, s.head, s.free, k, s.head);
    assert r.free[0] == k && r.free[1..] == s.free;
    assert forall x :: multiset(r.free)[x] == multiset{k}[x] + multiset(s.free)[x];
  }

  /** What initialisation leaves behind: all blocks chained in order. */
  ghost predicate Init(s: Slab) {
    && Wf(s) && s.freeBlocks == s.tokens == s.at.blocks && s.taking == s.giving == 0
    && s.free == UpTo(s.at.blocks) && Chain(s.at, s.words, s.head, s.free)
  }

  lemma InitInv(s: Slab)
    requires Init(s)
    ensures Inv(s)
  {
    CountingDistinct(s.at.blocks);
  }

  ghost function UpTo(n: nat): seq<nat> {
    if n == 0 then [] else UpTo(n - 1) + [n - 1]
  }

  lemma {:induction false} CountingDistinct(n: nat)
    ensures Distinct(UpTo(n)) && |UpTo(n)| == n && forall k :: k in UpTo(n) ==> k < n
  {
    if n > 0 {
      CountingDistinct(n - 1);
      var last: nat := n - 1;
      AppendDistinct<nat>(UpTo(n - 1), last);
      hide Distinct;
    }
  }

  // ---- Runs

  ghost predicate Legal(s: Slab, steps: seq<Step>)
    requires Wf(s)
    decreases |steps|
  {
    steps == [] || (Enabled(s, steps[0]) && Legal(Next(s, steps[0]), steps[1..]))
  }

  ghost function Exec(s: Slab, steps: seq<Step>): (r: Slab)
    requires Wf(s) && Legal(s, steps)
    ensures Wf(r)
    decreases |steps|
  {
    if steps == [] then s else Exec(Next(s, steps[0]), steps[1..])
  }

  lemma {:induction false} RunInv(s: Slab, steps: seq<Step>)
    requires Inv(s) && Legal(s, steps)
    ensures Inv(Exec(s, steps))
    decreases |steps|
  {
    hide Inv, Next, Enabled;
    if steps != [] {
      StepKeeps(s, steps[0]);
      RunInv(Next(s, steps[0]), steps[1..]);
    }
  }

  /** On every run: the chain holds exactly the blocks no client holds, the
      tokens account for it, frees are judged exactly, and a free block can be
      allocated as soon as nobody is on the way. */
  lemma RunSlab(s: Slab, steps: seq<Step>, address: nat)
    requires Init(s) && Legal(s, steps)
    ensures var r := Exec(s, steps);
            && Wf(r) && Chain(r.at, r.words, r.head, r.free) && Distinct(r.free) && |r.free| == r.freeBlocks
            && r.tokens + r.taking + r.giving == r.freeBlocks <= r.at.blocks
            && (r.taking == r.giving == 0 ==> (Enabled(r, AllocTake) <==> r.free != []))
            && (FreeReply(r, address) == OK <==> Live(r, address))
  {
    InitInv(s);
    RunInv(s, steps);
    FreeExact(Exec(s, steps), address);
    hide FreeReply, Live, Legal, Init;
  }

  // ---- The allocator as an object

  class MemSlab {
    const at: Layout
    const words: array<nat>
    var freeList: nat
    var freeBlocks: nat
    const available: Sem
    ghost var free: seq<nat>
    ghost var taking: nat
    ghost var giving: nat

    /** Chains the blocks of the caller's buffer in order. */
    constructor (at: Layout, words: array<nat>)
      requires LayoutWf(at) && words.Length == at.blocks
      modifies words
      ensures Valid() && Init(View()) && this.at == at && this.words == words && fresh(available)
    {
      this.at, this.words := at, words;
      available := new Sem(at.blocks, at.blocks);
      freeList, freeBlocks := at.base, at.blocks;
      free, taking, giving := UpTo(at.blocks), 0, 0;
      new;
      for i := 0 to at.blocks
        modifies words
        invariant forall k :: 0 <= k < i ==> words[k] == if k + 1 < at.blocks then Block(at, k + 1) else NULL
      {
        words[i] := if i + 1 < at.blocks then Block(at, i + 1) else NULL;
      }
      ChainedInOrder(at, words[..], 0);
      CountingFrom(at.blocks, 0);
      assert UpTo(0) + From(0, at.blocks) == From(0, at.blocks);
    }

    ghost predicate Valid()
      reads this
    {
      LayoutWf(at) && words.Length == at.blocks && available.limit == at.blocks
    }

    ghost function View(): Slab
      reads this, words, available
    {
      Slab(at, words[..], freeList, freeBlocks, available.count, free, taking, giving)
    }

    method AllocTake() returns (ok: bool)
      requires Valid()
      modifies this`taking, available
      ensures Valid() && ok == Enabled(old(View()), Step.AllocTake)
      ensures View() == if ok then Next(old(View()), Step.AllocTake) else old(View())
    {
      ok := available.TryTake();
      if ok {
        taking := taking + 1;
      }
    }

    /** The critical section of an allocation; the head it reads is a block. */
    method AllocUnlink() returns (memory: nat)
      requires Valid() && Inv(View()) && Enabled(View(), Step.AllocUnlink)
      modifies this`freeList, this`freeBlocks, this`free, this`taking
      ensures Valid() && View() == Next(old(View()), Step.AllocUnlink)
      ensures memory == old(freeList) && Live(View(), memory) && !Live(old(View()), memory)
    {
      AllocFresh(View());
      BlockIndex(at, free[0]);
      memory := freeList;
      freeList := words[IndexOf(at, freeList)];
      freeBlocks := freeBlocks - 1;
      free, taking := free[1..], taking - 1;
    }

    /** The checks and the critical section of a free. */
    method FreeBlock(memory: nat) returns (r: Code)
      requires Valid() && Inv(View())
      modifies this`freeList, this`freeBlocks, this`free, this`giving, words
      ensures Valid() && View() == Next(old(View()), Step.Free(memory))
      ensures r == FreeReply(old(View()), memory)
      ensures r == OK <==> Live(old(View()), memory)
    {
      hide Inv, Scan, Live, Linked;
      FreeExact(View(), memory);
      var start := at.base;
      if memory < start || memory - start >= at.size * at.blocks || (memory - start) % at.size != 0 {
        return EINVAL;
      }
      if freeBlocks >= at.blocks {
        return EINVAL;
      }
      var found := InChain(memory);
      if found {
        return EINVAL;
      }
      LinkBack(memory);
      r := OK;
    }

    /** The bounded scan for a double free. */
    method InChain(memory: nat) returns (found: bool)
      requires Valid() && Inv(View())
      ensures found == Scan(at, words[..], freeList, freeBlocks, memory)
    {
      hide Scan, Chain, Distinct, InRange, IndexOf;
      ghost var w := words[..];
      var block, scanned := freeList, 0;
      ghost var rest: seq<nat> := free;
      while block != NULL && scanned < freeBlocks
        invariant scanned + |rest| == freeBlocks && Chain(at, w, block, rest)
        invariant Scan(at, w, freeList, freeBlocks, memory) <==> Scan(at, w, block, |rest|, memory)
        decreases freeBlocks - scanned
      {
        ScanNext(at, w, block, rest, memory);
        if block == memory {
          return true;
        }
        block, scanned := words[IndexOf(at, block)], scanned + 1;
        rest := rest[1..];
      }
      ScanLast(at, w, block, rest, memory);
      return false;
    }

    method LinkBack(memory: nat)
      requires Valid() && InRange(at, memory)
      modifies this`freeList, this`freeBlocks, this`free, this`giving, words
      ensures Valid() && View() == Linked(old(View()), memory)
    {
      InRangeExact(at, memory);
      ghost var b: nat :| b < at.blocks && memory == Block(at, b);
      BlockIndex(at, b);
      var k: nat := IndexOf(at, memory);
      words[k] := freeList;
      free := [k] + free;
      freeList := memory;
      freeBlocks, giving := freeBlocks + 1, giving + 1;
    }

    method FreeGive()
      requires Valid() && Enabled(View(), Step.FreeGive)
      modifies this`giving, available
      ensures Valid() && View() == Next(old(View()), Step.FreeGive)
    {
      available.Give();
      giving := giving - 1;
    }
  }

  /** The numbers from `k` up to `n`. */
  ghost function From(k: nat, n: nat): seq<nat>
    requires k <= n
    decreases n - k
  {
    if k == n then [] else [k] + From(k + 1, n)
  }

  lemma {:induction false} CountingFrom(n: nat, k: nat)
    requires k <= n
    ensures UpTo(n) == UpTo(k) + From(k, n)
    decreases n - k
  {
    if k < n {
      CountingFrom(n, k + 1);
      assert UpTo(k) + From(k, n) == UpTo(k + 1) + From(k + 1, n);
    }
  }

  lemma {:induction false} ChainedInOrder(l: Layout, words: seq<nat>, k: nat)
    requires LayoutWf(l) && |words| == l.blocks && k <= l.blocks
    requires forall i :: 0 <= i < l.blocks ==> words[i] == if i + 1 < l.blocks then Block(l, i + 1) else NULL
    ensures Chain(l, words, if k < l.blocks then Block(l, k) else NULL, From(k, l.blocks))
    decreases l.blocks - k
  {
    if k < l.blocks {
      ChainedInOrder(l, words, k + 1);
    }
  }
}
