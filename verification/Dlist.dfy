/** The circular doubly-linked list behind every queue: pointers around a
    sentinel, proved to be a sequence. */
module Dlist {

  /** A node, or the sentinel of a list, whose `next` is the head and whose
      `prev` is the tail. */
  class Node {
    var next: Node?
    var prev: Node?

    constructor ()
      ensures next == null && prev == null
    {
      next, prev := null, null;
    }
  }

  /** The `i`-th stop of a walk around the ring, the sentinel at both ends. */
  ghost function Stop(list: Node, s: seq<Node>, i: nat): Node
    requires i <= |s| + 1
  {
    if i == 0 || i == |s| + 1 then list else s[i - 1]
  }

  /** The pointers of `list` and of the nodes `s` form one ring in this order. */
  ghost predicate Ring(list: Node, s: seq<Node>)
    reads list, s
  {
    && list !in s && (forall i, j :: 0 <= i < j < |s| ==> s[i] != s[j])
    && Forward(list, s) && Backward(list, s)
  }

  ghost predicate Forward(list: Node, s: seq<Node>)
    reads list, s
  {
    forall i {:trigger Stop(list, s, i)} :: 0 <= i <= |s| ==> Stop(list, s, i).next == Stop(list, s, i + 1)
  }

  ghost predicate Backward(list: Node, s: seq<Node>)
    reads list, s
  {
    forall i {:trigger Stop(list, s, i)} :: 1 <= i <= |s| + 1 ==> Stop(list, s, i).prev == Stop(list, s, i - 1)
  }

  method Init(list: Node)
    modifies list
    ensures Ring(list, [])
  {
    list.next := list;
    list.prev := list;
  }

  method NodeInit(node: Node)
    modifies node
    ensures node.next == null && node.prev == null
  {
    node.next := null;
    node.prev := null;
  }

  /** The sentinel and the nodes are all different objects. */
  ghost predicate Apart(list: Node, s: seq<Node>) {
    list !in s && forall i, j :: 0 <= i < j < |s| ==> s[i] != s[j]
  }

  /** Along one round all stops differ. */
  lemma StopsDiffer(list: Node, s: seq<Node>, k: nat)
    requires Apart(list, s) && k <= |s|
    ensures forall i {:trigger Stop(list, s, i)} :: 0 <= i <= |s| && i != k ==> Stop(list, s, i) != Stop(list, s, k)
    ensures forall i {:trigger Stop(list, s, i)} :: 1 <= i <= |s| + 1 && i != k + 1 ==>
              Stop(list, s, i) != Stop(list, s, k + 1)
  {}

  /** All links of the ring but those between stops `lo` and `hi`. */
  ghost predicate LinkedBut(list: Node, s: seq<Node>, lo: nat, hi: nat)
    requires lo <= hi <= |s| + 1
    reads list, s
  {
    forall i {:trigger Stop(list, s, i)} :: 0 <= i <= |s| && (i < lo || hi <= i) ==>
      Stop(list, s, i).next == Stop(list, s, i + 1) && Stop(list, s, i + 1).prev == Stop(list, s, i)
  }

  /** The nodes of `m` are chained to each other. */
  ghost predicate Chained(m: seq<Node>)
    reads m
  {
    forall i {:trigger m[i].next} {:trigger m[i + 1]} :: 0 <= i < |m| - 1 ==>
      m[i].next == m[i + 1] && m[i + 1].prev == m[i]
  }

  /** A chain hooked in behind stop `k`. */
  lemma Joined(list: Node, s: seq<Node>, k: nat, m: seq<Node>)
    requires k <= |s| && m != [] && Apart(list, s + m) && LinkedBut(list, s, k, k + 1) && Chained(m)
    requires Stop(list, s, k).next == m[0] && m[0].prev == Stop(list, s, k)
    requires Stop(list, s, k + 1).prev == m[|m| - 1] && m[|m| - 1].next == Stop(list, s, k + 1)
    ensures Ring(list, s[..k] + m + s[k..])
  {
    hide Stop, Apart;
    var r := s[..k] + m + s[k..];
    JoinedApart(list, s, k, m);
    forall i | 0 <= i <= |r|
      ensures Stop(list, r, i).next == Stop(list, r, i + 1) && Stop(list, r, i + 1).prev == Stop(list, r, i)
    {
      JoinedStop(list, s, k, m, i);
      JoinedStop(list, s, k, m, i + 1);
      if i < k {
        assert Stop(list, s, i).next == Stop(list, s, i + 1);
      } else if i > k + |m| {
        assert Stop(list, s, i - |m|).next == Stop(list, s, i - |m| + 1);
      }
    }
  }

  lemma JoinedStop(list: Node, s: seq<Node>, k: nat, m: seq<Node>, i: nat)
    requires k <= |s| && i <= |s| + |m| + 1
    ensures Stop(list, s[..k] + m + s[k..], i)
         == if i <= k then Stop(list, s, i) else if i <= k + |m| then m[i - k - 1] else Stop(list, s, i - |m|)
  {}

  lemma JoinedApart(list: Node, s: seq<Node>, k: nat, m: seq<Node>)
    requires k <= |s| && Apart(list, s + m)
    ensures Apart(list, s[..k] + m + s[k..])
  {
    var r, n := s[..k] + m + s[k..], |m|;
    forall i | 0 <= i < |r| ensures r[i] == (s + m)[OldIndex(|s|, n, k, i)] {}
    forall i, j | 0 <= i < j < |r| ensures r[i] != r[j] {
      assert OldIndex(|s|, n, k, i) != OldIndex(|s|, n, k, j);
      assert r[i] == (s + m)[OldIndex(|s|, n, k, i)] && r[j] == (s + m)[OldIndex(|s|, n, k, j)];
    }
  }

  /** Where element `i` of a join at `k` was in the two sequences put together. */
  ghost function OldIndex(len: nat, n: nat, k: nat, i: nat): (r: nat)
    requires k <= len && i < len + n
    ensures r < len + n
  {
    if i < k then i else if i < k + n then len + i - k else i - n
  }

  lemma AddApart(list: Node, s: seq<Node>, node: Node)
    requires Apart(list, s) && node != list && node !in s
    ensures Apart(list, s + [node])
  {}

  /** The stretch between stops `lo` and `hi` taken out. */
  lemma Cut(list: Node, s: seq<Node>, lo: nat, hi: nat)
    requires lo < hi <= |s| + 1 && Apart(list, s) && LinkedBut(list, s, lo, hi)
    requires Stop(list, s, lo).next == Stop(list, s, hi) && Stop(list, s, hi).prev == Stop(list, s, lo)
    ensures Ring(list, s[..lo] + s[hi - 1..])
  {
    hide Stop;
    var r, gap := s[..lo] + s[hi - 1..], hi - lo - 1;
    forall i | 0 <= i <= |r|
      ensures Stop(list, r, i).next == Stop(list, r, i + 1) && Stop(list, r, i + 1).prev == Stop(list, r, i)
    {
      CutStop(list, s, lo, hi, i);
      CutStop(list, s, lo, hi, i + 1);
      if i < lo {
        assert Stop(list, s, i).next == Stop(list, s, i + 1);
      } else if i > lo {
        assert Stop(list, s, i + gap).next == Stop(list, s, i + gap + 1);
      }
    }
  }

  lemma CutStop(list: Node, s: seq<Node>, lo: nat, hi: nat, i: nat)
    requires lo < hi <= |s| + 1 && i <= |s| - (hi - lo - 1) + 1
    ensures Stop(list, s[..lo] + s[hi - 1..], i) == Stop(list, s, if i <= lo then i else i + (hi - lo - 1))
  {}

  /** A ring is apart and linked everywhere. */
  lemma RingLinks(list: Node, s: seq<Node>, lo: nat, hi: nat)
    requires Ring(list, s) && lo <= hi <= |s| + 1
    ensures Apart(list, s) && LinkedBut(list, s, lo, hi)
    ensures lo <= |s| ==> Stop(list, s, lo).next == Stop(list, s, lo + 1)
    ensures hi >= 1 ==> Stop(list, s, hi).prev == Stop(list, s, hi - 1)
  {
    forall i {:trigger Stop(list, s, i)} | 0 <= i <= |s|
      ensures Stop(list, s, i).next == Stop(list, s, i + 1) && Stop(list, s, i + 1).prev == Stop(list, s, i)
    {
      assert Stop(list, s, i + 1) == Stop(list, s, i + 1);
    }
  }

  // ---- Operations

  /** Links `node` before `successor`, which is stop number `k + 1`. */
  method Insert(successor: Node, node: Node, ghost list: Node, ghost s: seq<Node>, ghost k: nat)
    requires Ring(list, s) && node != list && node !in s && k <= |s| && successor == Stop(list, s, k + 1)
    modifies successor, successor.prev, node
    ensures Ring(list, s[..k] + [node] + s[k..])
  {
    RingLinks(list, s, k, k + 1);
    StopsDiffer(list, s, k);
    AddApart(list, s, node);
    hide Ring, Apart;
    var prev := successor.prev;
    node.prev := prev;
    node.next := successor;
    prev.next := node;
    successor.prev := node;
    Joined(list, s, k, [node]);
  }

  method Append(list: Node, node: Node, ghost s: seq<Node>)
    requires Ring(list, s) && node != list && node !in s
    modifies list, list.prev, node
    ensures Ring(list, s + [node])
  {
    hide Ring, Apart;
    RingLinks(list, s, |s|, |s| + 1);
    StopsDiffer(list, s, |s|);
    AddApart(list, s, node);
    var tail := list.prev;
    node.next := list;
    node.prev := tail;
    tail.next := node;
    list.prev := node;
    Joined(list, s, |s|, [node]);
    assert s[..|s|] + [node] + s[|s|..] == s + [node];
  }

  method Prepend(list: Node, node: Node, ghost s: seq<Node>)
    requires Ring(list, s) && node != list && node !in s
    modifies list, list.next, node
    ensures Ring(list, [node] + s)
  {
    hide Ring, Apart;
    RingLinks(list, s, 0, 1);
    StopsDiffer(list, s, 0);
    AddApart(list, s, node);
    var head := list.next;
    node.next := head;
    node.prev := list;
    head.prev := node;
    list.next := node;
    Joined(list, s, 0, [node]);
    assert s[..0] + [node] + s[0..] == [node] + s;
  }

  /** Links the stops `lo` and `hi` to each other, past what is between. */
  method Bridge(prev: Node, next: Node, ghost list: Node, ghost s: seq<Node>, ghost lo: nat, ghost hi: nat)
    requires lo < hi <= |s| + 1 && Apart(list, s) && LinkedBut(list, s, lo, hi)
    requires prev == Stop(list, s, lo) && next == Stop(list, s, hi)
    modifies prev`next, next`prev
    ensures LinkedBut(list, s, lo, hi) && prev.next == next && next.prev == prev
  {
    StopsDiffer(list, s, lo);
    StopsDiffer(list, s, hi - 1);
    hide Stop, Apart;
    prev.next := next;
    next.prev := prev;
  }

  /** Unlinks `node`, the element number `k`, and marks it unlinked. */
  method Remove(node: Node, ghost list: Node, ghost s: seq<Node>, ghost k: nat)
    requires Ring(list, s) && k < |s| && node == s[k]
    modifies node, node.prev, node.next
    ensures Ring(list, s[..k] + s[k + 1..]) && node.next == null && node.prev == null
  {
    hide Ring, Apart, LinkedBut;
    RingLinks(list, s, k, k + 2);
    RingLinks(list, s, k + 1, k + 1);
    assert node == Stop(list, s, k + 1);
    var prev, next := node.prev, node.next;
    Bridge(prev, next, list, s, k, k + 2);
    Cut(list, s, k, k + 2);
    TakenOut(list, s, k, k + 1);
    NodeInit(node);
  }

  /** What is taken out is apart from what stays. */
  lemma TakenOut(list: Node, s: seq<Node>, lo: nat, hi: nat)
    requires Apart(list, s) && lo <= hi <= |s|
    ensures forall n :: n in s[lo..hi] ==> n !in s[..lo] + s[hi..] && n != list
    ensures forall i :: lo <= i < hi ==> s[i] !in s[..lo] + s[hi..]
  {}

  /** Unlinks the first node; an empty list gives nothing. */
  method Get(list: Node, ghost s: seq<Node>) returns (node: Node?)
    requires Ring(list, s)
    modifies list, list.next, if s == [] then list else s[0].next
    ensures s == [] ==> node == null && Ring(list, s)
    ensures s != [] ==> node == s[0] && Ring(list, s[1..]) && node.next == null && node.prev == null
  {
    hide Ring, LinkedBut;
    RingLinks(list, s, 0, 1);
    assert list.next == Stop(list, s, 1) && Stop(list, s, 0) == list;
    node := null;
    if list.next != list {
      node := list.next;
      assert s != [] && node == s[0] == Stop(list, s, 1);
      RingLinks(list, s, 1, 1);
      Remove(node, list, s, 0);
      assert s[..0] + s[1..] == s[1..];
    }
  }

  /** Counts the nodes; the walk meets each of them once and comes back. */
  method Len(list: Node, ghost s: seq<Node>) returns (len: nat)
    requires Ring(list, s)
    ensures len == |s|
  {
    len := 0;
    var node := list.next;
    assert Stop(list, s, 0).next == Stop(list, s, 1);
    while node != list
      invariant len <= |s| && node == Stop(list, s, len + 1)
      decreases |s| - len
    {
      assert len < |s| && node == s[len] && Stop(list, s, len + 1).next == Stop(list, s, len + 2);
      len := len + 1;
      node := node.next;
    }
  }

  // ---- Moving a range to one end of a list

  /** The two lists share no object. */
  ghost predicate Separate(dest: Node, d: seq<Node>, list: Node, s: seq<Node>) {
    dest != list && dest !in s && list !in d && forall n :: n in d ==> n !in s
  }

  /** The surroundings of the stretch from element `lo` to `hi`. */
  lemma Neighbours(list: Node, s: seq<Node>, lo: nat, hi: nat)
    requires Ring(list, s) && lo < hi <= |s|
    ensures s[lo].prev == Stop(list, s, lo) && s[hi - 1].next == Stop(list, s, hi + 1)
    ensures Stop(list, s, lo) !in s[lo..hi] && Stop(list, s, hi + 1) !in s[lo..hi]
    ensures Apart(list, s) && LinkedBut(list, s, lo, hi + 1)
  {
    assert Stop(list, s, lo + 1) == s[lo] && Stop(list, s, hi) == s[hi - 1];
    RingLinks(list, s, lo, hi + 1);
    RingLinks(list, s, lo, lo + 1);
    RingLinks(list, s, hi, hi + 1);
  }

  lemma StretchChained(list: Node, s: seq<Node>, lo: nat, hi: nat)
    requires Ring(list, s) && lo < hi <= |s|
    ensures Chained(s[lo..hi])
  {
    var m := s[lo..hi];
    RingLinks(list, s, 0, 0);
    hide Ring;
    forall i {:trigger m[i].next} {:trigger m[i + 1]} | 0 <= i < |m| - 1
      ensures m[i].next == m[i + 1] && m[i + 1].prev == m[i]
    {
      assert Stop(list, s, lo + i + 1) == m[i] && Stop(list, s, lo + i + 2) == m[i + 1];
    }
  }

  /** Closes a list behind the stretch from `start` to `last`. */
  method Detach(start: Node, last: Node, ghost list: Node, ghost s: seq<Node>, ghost lo: nat, ghost hi: nat)
    requires Ring(list, s) && lo < hi <= |s| && start == s[lo] && last == s[hi - 1]
    modifies start.prev, last.next
    ensures Ring(list, s[..lo] + s[hi..]) && Chained(s[lo..hi])
  {
    hide Ring, Apart, LinkedBut;
    Neighbours(list, s, lo, hi);
    StretchChained(list, s, lo, hi);
    hide Chained, Stop;
    var prev, next := start.prev, last.next;
    Bridge(prev, next, list, s, lo, hi + 1);
    Cut(list, s, lo, hi + 1);
  }

  lemma NotAmong(dest: Node, d: seq<Node>, m: seq<Node>)
    requires Apart(dest, d + m)
    ensures forall i {:trigger Stop(dest, d, i)} :: 0 <= i <= |d| + 1 ==> Stop(dest, d, i) !in m
    ensures forall i, j :: 0 <= i < j < |m| ==> m[i] != m[j]
  {
    assert forall i :: 0 <= i < |m| ==> m[i] == (d + m)[|d| + i];
    assert forall i :: 0 <= i < |d| ==> d[i] == (d + m)[i];
  }

  /** Writes the four links that hook a stretch in between `before` and
      `after`. If `fits`, these are neighbours in a ring apart from the
      stretch, and the ring takes it in. */
  method Hook(before: Node, after: Node, start: Node, last: Node, ghost fits: bool,
              ghost dest: Node, ghost d: seq<Node>, ghost k: nat, ghost m: seq<Node>)
    requires fits ==> Ring(dest, d) && Apart(dest, d + m) && Chained(m) && m != []
    requires fits ==> start == m[0] && last == m[|m| - 1]
    requires fits ==> k <= |d| && before == Stop(dest, d, k) && after == Stop(dest, d, k + 1)
    modifies start`prev, last`next, before`next, after`prev
    ensures fits ==> Ring(dest, d[..k] + m + d[k..])
    ensures before.next == start && after.prev == last
  {
    hide Stop, Ring, Apart;
    if fits {
      RingLinks(dest, d, k, k + 1);
      StopsDiffer(dest, d, k);
      NotAmong(dest, d, m);
    }
    last.next := after;
    start.prev := before;
    after.prev := last;
    before.next := start;
    if fits {
      assert LinkedBut(dest, d, k, k + 1);
      assert Chained(m);
      Joined(dest, d, k, m);
    }
  }

  /** Moves the elements `lo` to `hi` of a list to the front of a list. Within
      one list this works unless the stretch is at the front already: then the
      pointers no longer form a ring at all. */
  method RangePrepend(dest: Node, start: Node, last: Node, ghost d: seq<Node>,
                      ghost list: Node, ghost s: seq<Node>, ghost lo: nat, ghost hi: nat)
    requires Ring(dest, d) && Ring(list, s) && (Separate(dest, d, list, s) || (dest == list && d == s))
    requires lo < hi <= |s| && start == s[lo] && last == s[hi - 1]
    modifies start, last, start.prev, last.next, dest, dest.next
    ensures dest != list ==> Ring(list, s[..lo] + s[hi..]) && Ring(dest, s[lo..hi] + d)
    ensures dest == list && lo > 0 ==> Ring(list, s[lo..hi] + (s[..lo] + s[hi..]))
    ensures dest == list && lo == 0 ==> !exists r :: Ring(list, r)
  {
    hide Ring, Apart, Chained, LinkedBut;
    ghost var m, rest := s[lo..hi], s[..lo] + s[hi..];
    ghost var d1 := if dest == list then rest else d;
    RingLinks(dest, d, 0, 1);
    Neighbours(list, s, lo, hi);
    StretchApart(dest, d, list, s, lo, hi);
    if dest == list {
      SelfStop(list, s, lo, hi);
    } else {
      StopSeparate(dest, d, list, s, lo);
      StopSeparate(dest, d, list, s, hi + 1);
      OtherStop(dest, d, list, s, 1, lo, hi);
    }
    var head := dest.next;
    Detach(start, last, list, s, lo, hi);
    Hook(dest, head, start, last, dest != list || lo > 0, dest, d1, 0, m);
    assert d1[..0] + m + d1[0..] == m + d1;
    if dest == list && lo == 0 {
      NoRingFrom(list);
    }
  }

  /** Moves the elements `lo` to `hi` of a list to the end of a list. Within
      one list this works unless the stretch is at the end already. */
  method RangeAppend(dest: Node, start: Node, last: Node, ghost d: seq<Node>,
                     ghost list: Node, ghost s: seq<Node>, ghost lo: nat, ghost hi: nat)
    requires Ring(dest, d) && Ring(list, s) && (Separate(dest, d, list, s) || (dest == list && d == s))
    requires lo < hi <= |s| && start == s[lo] && last == s[hi - 1]
    modifies start, last, start.prev, last.next, dest, dest.prev
    ensures dest != list ==> Ring(list, s[..lo] + s[hi..]) && Ring(dest, d + s[lo..hi])
    ensures dest == list && hi < |s| ==> Ring(list, (s[..lo] + s[hi..]) + s[lo..hi])
    ensures dest == list && hi == |s| ==> !exists r :: Ring(list, r)
  {
    hide Ring, Apart, Chained, LinkedBut;
    ghost var m, rest := s[lo..hi], s[..lo] + s[hi..];
    ghost var d1 := if dest == list then rest else d;
    RingLinks(dest, d, |d|, |d| + 1);
    Neighbours(list, s, lo, hi);
    StretchApart(dest, d, list, s, lo, hi);
    if dest == list {
      SelfStop(list, s, lo, hi);
    } else {
      StopSeparate(dest, d, list, s, lo);
      StopSeparate(dest, d, list, s, hi + 1);
      OtherStop(dest, d, list, s, |d|, lo, hi);
    }
    var tail := dest.prev;
    Detach(start, last, list, s, lo, hi);
    Hook(tail, dest, start, last, dest != list || hi < |s|, dest, d1, |d1|, m);
    assert d1[..|d1|] + m + d1[|d1|..] == d1 + m;
    if dest == list && hi == |s| {
      NoRingFrom(list);
    }
  }

  /** Pointers that disagree at one end of a list form no ring. */
  lemma NoRingFrom(list: Node)
    requires (list.next != null && list.next.prev != list) || (list.prev != null && list.prev.next != list)
    ensures !exists r :: Ring(list, r)
  {
    forall r: seq<Node> ensures !Ring(list, r) {
      if Ring(list, r) {
        RingLinks(list, r, 0, 1);
        RingLinks(list, r, |r|, |r| + 1);
        RingLinks(list, r, 1, 1);
      }
    }
  }

  /** The stretch, what stays, and where it goes do not meet. */
  lemma StretchApart(dest: Node, d: seq<Node>, list: Node, s: seq<Node>, lo: nat, hi: nat)
    requires Apart(dest, d) && Apart(list, s) && lo < hi <= |s|
    requires Separate(dest, d, list, s) || (dest == list && d == s)
    ensures Apart(dest, (if dest == list then s[..lo] + s[hi..] else d) + s[lo..hi])
    ensures forall n :: n in s[lo..hi] ==> n !in s[..lo] + s[hi..] && n != list && n != dest
  {
    if dest == list {
      SelfApart(list, s, lo, hi);
    } else {
      MovedApart(dest, d, list, s, lo, hi);
    }
  }

  lemma SelfApart(list: Node, s: seq<Node>, lo: nat, hi: nat)
    requires Apart(list, s) && lo < hi <= |s|
    ensures Apart(list, (s[..lo] + s[hi..]) + s[lo..hi])
    ensures forall n :: n in s[lo..hi] ==> n !in s[..lo] + s[hi..] && n != list
  {
    TakenOut(list, s, lo, hi);
    var r, m := s[..lo] + s[hi..], s[lo..hi];
    forall i, j | 0 <= i < j < |r + m| ensures (r + m)[i] != (r + m)[j] {
      if i < |r| <= j {
        assert r[i] in r && m[j - |r|] in m;
      }
    }
  }

  lemma StopSeparate(dest: Node, d: seq<Node>, list: Node, s: seq<Node>, k: nat)
    requires Separate(dest, d, list, s) && k <= |s| + 1
    ensures Stop(list, s, k) != dest && Stop(list, s, k) !in d
  {}

  /** What stays of a list has the ends of the whole, unless they are taken. */
  lemma SelfStop(list: Node, s: seq<Node>, lo: nat, hi: nat)
    requires lo < hi <= |s|
    ensures var r := s[..lo] + s[hi..];
            && (lo > 0 ==> Stop(list, r, 1) == Stop(list, s, 1))
            && (hi < |s| ==> Stop(list, r, |r|) == Stop(list, s, |s|))
  {}

  lemma OtherStop(dest: Node, d: seq<Node>, list: Node, s: seq<Node>, k: nat, lo: nat, hi: nat)
    requires Separate(dest, d, list, s) && k <= |d| + 1 && lo <= hi <= |s|
    ensures dest !in s[..lo] + s[hi..] && dest != list
    ensures Stop(dest, d, k) != list && Stop(dest, d, k) !in s[..lo] + s[hi..]
  {
    assert forall n :: n in s[..lo] + s[hi..] ==> n in s;
  }

  lemma MovedApart(dest: Node, d: seq<Node>, list: Node, s: seq<Node>, lo: nat, hi: nat)
    requires Separate(dest, d, list, s) && Apart(dest, d) && Apart(list, s) && lo < hi <= |s|
    ensures Apart(dest, d + s[lo..hi])
    ensures forall n :: n in s[lo..hi] ==> n !in s[..lo] + s[hi..] && n != list && n !in d && n != dest
  {
    TakenOut(list, s, lo, hi);
    var m := s[lo..hi];
    assert forall n :: n in m ==> n in s;
    forall i, j | 0 <= i < j < |d + m| ensures (d + m)[i] != (d + m)[j] {
      if i < |d| <= j {
        assert d[i] in d && m[j - |d|] in m;
      }
    }
  }
}
