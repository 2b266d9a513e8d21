/** When the promotion of due items is exact: wrapped 32-bit deadlines against
    unbounded time. */
module WorkPromotion {
  import opened Lists
  import opened MachineInts
  import opened WorkObjects
  import opened WorkSpec

  const HALF: nat := 0x8000_0000

  /** The wrapped difference is the time really left exactly when the deadline
      is less than half a wrap ahead, and not in the first half of a later
      wrap behind. */
  lemma RemainingExact(deadline: nat, now: nat)
    ensures Remaining(deadline % UINT32, now % UINT32) == (if deadline > now then deadline - now else 0)
        <==> deadline - now < HALF && (deadline >= now || (now - deadline) % UINT32 <= HALF)
  {
    var d := (deadline % UINT32 - now % UINT32) % UINT32;
    assert d == (deadline - now) % UINT32;
    if deadline < now {
      var m := (now - deadline) % UINT32;
      assert (m + d) % UINT32 == 0;
    }
  }

  /** An item looked at just over half a wrap after its deadline seems to have
      as long as possible still to wait, and one half a wrap ahead seems due. */
  lemma RemainingWrong()
    ensures Remaining(0, HALF + 1) == INT32_MAX
    ensures Remaining(HALF, 0) == 0
  {}

  /** Sampled at `now`, all deadlines of `delayed` are within half a wrap. */
  ghost predicate Window(due: map<Work, nat>, works: Works, delayed: seq<Work>, now: nat) {
    forall w :: w in delayed ==>
      w in due && w in works && works[w].deadline == due[w] % UINT32
      && due[w] - now < HALF && now - due[w] <= HALF
  }

  lemma WindowExact(due: map<Work, nat>, works: Works, delayed: seq<Work>, now: nat)
    requires Window(due, works, delayed, now)
    ensures forall w :: w in delayed ==>
              w in due && w in works
              && Remaining(works[w].deadline, now % UINT32) == if due[w] > now then due[w] - now else 0
  {
    forall w | w in delayed
      ensures w in due && w in works
              && Remaining(works[w].deadline, now % UINT32) == if due[w] > now then due[w] - now else 0
    {
      RemainingExact(due[w], now);
    }
  }

  /** The items of `delayed` that are not due yet, in their order. */
  ghost function Later(due: map<Work, nat>, delayed: seq<Work>, now: nat): seq<Work>
    requires forall w :: w in delayed ==> w in due
  {
    if delayed == [] then []
    else
      assert delayed[0] in delayed;
      (if due[delayed[0]] > now then [delayed[0]] else []) + Later(due, delayed[1..], now)
  }

  lemma {:induction false} LaterAll(due: map<Work, nat>, delayed: seq<Work>, now: nat)
    requires forall w :: w in delayed ==> w in due && due[w] > now
    ensures Later(due, delayed, now) == delayed
  {
    if delayed != [] {
      assert delayed[0] in delayed;
      LaterAll(due, delayed[1..], now);
    }
  }

  lemma {:induction false} LaterCut(due: map<Work, nat>, a: seq<Work>, w: Work, b: seq<Work>, now: nat)
    requires forall v :: v in a + [w] + b ==> v in due
    requires due[w] <= now
    ensures forall v :: v in a + b ==> v in due
    ensures Later(due, a + [w] + b, now) == Later(due, a + b, now)
  {
    assert forall v :: v in a + b ==> v in a + [w] + b;
    if a == [] {
      assert a + [w] + b == [w] + b && a + b == b && ([w] + b)[1..] == b;
    } else {
      assert (a + [w] + b)[1..] == a[1..] + [w] + b && (a + b)[1..] == a[1..] + b;
      LaterCut(due, a[1..], w, b, now);
    }
  }

  /** What the scan returns when nothing is due: the shortest time left. */
  ghost function Nearest(works: Works, delayed: seq<Work>, now: nat): (r: nat)
    requires forall w :: w in delayed ==> w in works
    ensures delayed == [] <==> r == WAIT_FOREVER
    ensures forall w :: w in delayed ==> r <= Remaining(works[w].deadline, now)
    ensures delayed != [] ==> exists w :: w in delayed && r == Remaining(works[w].deadline, now)
  {
    if delayed == [] then WAIT_FOREVER
    else
      var last := delayed[|delayed| - 1];
      assert delayed == delayed[..|delayed| - 1] + [last];
      var r, left := Nearest(works, delayed[..|delayed| - 1], now), Remaining(works[last].deadline, now);
      if r == WAIT_FOREVER || left < r then left else r
  }

  /** The promotion loop run alone, its samples of the clock being `clock(k)`,
      `clock(k + 1)` and so on: the final state, the timeout it returns, and
      the number of its last sample. */
  ghost function Promote(s: State, q: WorkQueue, clock: nat -> nat, k: nat): (r: (State, nat, nat))
    requires Wf(s) && q in s.queues
    ensures Wf(r.0) && q in r.0.queues && k <= r.2
    decreases |s.queues[q].delayed|
  {
    var (s1, due, blocked) := Scan(s, q, clock(k) % UINT32);
    if due == null then (s, Nearest(s.works, s.queues[q].delayed, clock(k) % UINT32), k)
    else
      ScanShorter(s, q, clock(k) % UINT32);
      SubmitDelayed(s1, q, due);
      Promote(if blocked then s1 else Submit(s1, q, due, q), q, clock, k + 1)
  }

  lemma ScanShorter(s: State, q: WorkQueue, now: nat)
    requires Wf(s) && q in s.queues && Scan(s, q, now).1 != null
    ensures |Scan(s, q, now).0.queues[q].delayed| < |s.queues[q].delayed|
    ensures Scan(s, q, now).0.queues[q].delayed == Without<Work>(s.queues[q].delayed, Scan(s, q, now).1)
    ensures Scan(s, q, now).1 in s.queues[q].delayed
    ensures Remaining(s.works[Scan(s, q, now).1].deadline, now) == 0
    ensures forall w :: w in s.works ==> Scan(s, q, now).0.works[w].deadline == s.works[w].deadline
  {
    var d := s.queues[q].delayed;
    assert d[FirstDue(s.works, d, now)] in d;
  }

  lemma SubmitDelayed(s: State, q: WorkQueue, w: Work)
    requires Wf(s) && q in s.queues && w in s.works
    ensures Submit(s, q, w, q).queues[q].delayed == s.queues[q].delayed
    ensures forall v :: v in s.works ==> Submit(s, q, w, q).works[v].deadline == s.works[v].deadline
  {}

  /** What is left of the list, and what the loop returns for it. */
  ghost predicate Exact(due: map<Work, nat>, before: seq<Work>, left: seq<Work>, timeout: nat, now: nat) {
    && (forall w :: w in before ==> w in due)
    && left == Later(due, before, now)
    && (timeout == WAIT_FOREVER <==> left == [])
    && (forall w :: w in left ==> w in due && timeout <= due[w] - now)
    && (left != [] ==> exists w :: w in left && timeout == due[w] - now)
  }

  lemma NothingDue(s: State, q: WorkQueue, now: nat, due: map<Work, nat>)
    requires Wf(s) && q in s.queues && Window(due, s.works, s.queues[q].delayed, now)
    requires Scan(s, q, now % UINT32).1 == null
    ensures var d := s.queues[q].delayed; Exact(due, d, d, Nearest(s.works, d, now % UINT32), now)
  {
    var d := s.queues[q].delayed;
    WindowExact(due, s.works, d, now);
    hide Window, Nearest;
    LaterAll(due, d, now);
  }

  lemma WindowShrinks(due: map<Work, nat>, works: Works, delayed: seq<Work>, works': Works, delayed': seq<Work>,
                      now: nat)
    requires Window(due, works, delayed, now) && works'.Keys == works.Keys
    requires forall w :: w in delayed' ==> w in delayed
    requires forall w :: w in works ==> works'[w].deadline == works[w].deadline
    ensures Window(due, works', delayed', now)
  {}

  lemma LaterWithout(due: map<Work, nat>, d: seq<Work>, w: Work, now: nat)
    requires w in d && w in due && due[w] <= now && forall v :: v in Without(d, w) ==> v in due
    ensures forall v :: v in d ==> v in due
    ensures Later(due, d, now) == Later(due, Without(d, w), now)
  {
    hide Without, Later;
    var i := WithoutSplit(d, w);
    var a, b := d[..i], d[i + 1..];
    forall v | v in d ensures v in due {
      assert v in a || v == w || v in b;
      assert v != w ==> v in Without(d, w);
    }
    LaterCut(due, a, w, b, now);
  }

  lemma ExactWithout(due: map<Work, nat>, d: seq<Work>, w: Work, left: seq<Work>, timeout: nat, now: nat)
    requires w in d && w in due && due[w] <= now && Exact(due, Without(d, w), left, timeout, now)
    ensures Exact(due, d, left, timeout, now)
  {
    hide Later, Without;
    LaterWithout(due, d, w, now);
  }

  /** One round of the loop that finds a due item. */
  lemma PromoteRound(s: State, q: WorkQueue, now: nat, due: map<Work, nat>)
    requires Wf(s) && q in s.queues && Distinct(s.queues[q].delayed) && Scan(s, q, now % UINT32).1 != null
    requires Window(due, s.works, s.queues[q].delayed, now)
    ensures var (s1, w, blocked) := Scan(s, q, now % UINT32);
            var s2 := if blocked then s1 else Submit(s1, q, w, q);
            && w in due && due[w] <= now && w in s.queues[q].delayed && s2.works.Keys == s.works.Keys
            && q in s2.queues && s2.queues[q].delayed == Without<Work>(s.queues[q].delayed, w)
            && Distinct(s2.queues[q].delayed)
            && (forall v :: v in s2.queues[q].delayed ==> v in s.queues[q].delayed)
            && (forall v :: v in s.works ==> s2.works[v].deadline == s.works[v].deadline)
  {
    hide Wf, Without, Scan, Submit, Remaining;
    var (s1, w, blocked) := Scan(s, q, now % UINT32);
    ScanShorter(s, q, now % UINT32);
    SubmitDelayed(s1, q, w);
    WithoutKeeps<Work>(s.queues[q].delayed, w);
    WindowExact(due, s.works, s.queues[q].delayed, now);
  }

  /** Promotion is exact: with deadlines within half a wrap of every sample,
      what is left is exactly what is not due at the last sample, in order, and
      the timeout is the least time really left, or forever iff none is. */
  lemma {:induction false} PromoteExact(s: State, q: WorkQueue, clock: nat -> nat, k: nat, due: map<Work, nat>)
    requires Wf(s) && q in s.queues && Distinct(s.queues[q].delayed)
    requires forall i, j :: k <= i <= j ==> clock(i) <= clock(j)
    requires forall i :: k <= i <= Promote(s, q, clock, k).2 ==> Window(due, s.works, s.queues[q].delayed, clock(i))
    ensures var (r, timeout, last) := Promote(s, q, clock, k);
            Exact(due, s.queues[q].delayed, r.queues[q].delayed, timeout, clock(last))
    decreases |s.queues[q].delayed|
  {
    hide Wf, Exact, Window, Without, Scan, Submit, Nearest, Remaining;
    var d := s.queues[q].delayed;
    var (s1, w, blocked) := Scan(s, q, clock(k) % UINT32);
    assert Window(due, s.works, d, clock(k));
    if w == null {
      NothingDue(s, q, clock(k), due);
    } else {
      ScanShorter(s, q, clock(k) % UINT32);
      PromoteRound(s, q, clock(k), due);
      var s2 := if blocked then s1 else Submit(s1, q, w, q);
      var (r, timeout, last) := Promote(s2, q, clock, k + 1);
      forall i | k + 1 <= i <= last ensures Window(due, s2.works, s2.queues[q].delayed, clock(i)) {
        WindowShrinks(due, s.works, d, s2.works, s2.queues[q].delayed, clock(i));
      }
      PromoteExact(s2, q, clock, k + 1, due);
      ExactWithout(due, d, w, r.queues[q].delayed, timeout, clock(last));
    }
  }

  // ---- What becomes of the due items

  /** Where the first item stands that is really due at `now`. */
  ghost function Turn(due: map<Work, nat>, d: seq<Work>, now: nat): (j: nat)
    requires forall w :: w in d ==> w in due
    ensures j <= |d|
    ensures forall i :: 0 <= i < j ==> due[d[i]] > now
    ensures j < |d| ==> due[d[j]] <= now
  {
    if d == [] then 0
    else
      assert d[0] in d;
      if due[d[0]] <= now then 0 else 1 + Turn(due, d[1..], now)
  }

  /** The items of `d` in the order in which they come off the list: at each
      sample the first one due, until none is. */
  ghost function Taken(due: map<Work, nat>, d: seq<Work>, clock: nat -> nat, k: nat): seq<Work>
    requires forall w :: w in d ==> w in due
    decreases |d|
  {
    var j := Turn(due, d, clock(k));
    if j == |d| then []
    else [d[j]] + Taken(due, d[..j] + d[j + 1..], clock, k + 1)
  }

  /** Each item taken was in the list, and due at its sample. */
  lemma {:induction false} TakenDue(due: map<Work, nat>, d: seq<Work>, clock: nat -> nat, k: nat)
    requires forall w :: w in d ==> w in due
    ensures forall w :: w in Taken(due, d, clock, k) ==> w in d
    ensures forall i :: 0 <= i < |Taken(due, d, clock, k)| ==> due[Taken(due, d, clock, k)[i]] <= clock(k + i)
    decreases |d|
  {
    hide Turn, Taken;
    var j := Turn(due, d, clock(k));
    TakenNext(due, d, clock, k);
    if j < |d| {
      var rest := d[..j] + d[j + 1..];
      TakenDue(due, rest, clock, k + 1);
      var p := Taken(due, rest, clock, k + 1);
      forall i | 0 <= i < |[d[j]] + p| ensures due[([d[j]] + p)[i]] <= clock(k + i) {
        if i > 0 {
          assert ([d[j]] + p)[i] == p[i - 1] && k + 1 + (i - 1) == k + i;
        }
      }
    }
  }

  lemma TakenNext(due: map<Work, nat>, d: seq<Work>, clock: nat -> nat, k: nat)
    requires forall w :: w in d ==> w in due
    ensures var j := Turn(due, d, clock(k)); var rest := if j < |d| then d[..j] + d[j + 1..] else [];
            && (forall w :: w in rest ==> w in d)
            && Taken(due, d, clock, k) == if j == |d| then [] else [d[j]] + Taken(due, rest, clock, k + 1)
  {
    hide Turn;
  }

  /** The due items of `d`, in their order. */
  ghost function Due(due: map<Work, nat>, d: seq<Work>, now: nat): seq<Work>
    requires forall w :: w in d ==> w in due
  {
    if d == [] then []
    else
      assert d[0] in d;
      (if due[d[0]] <= now then [d[0]] else []) + Due(due, d[1..], now)
  }

  lemma {:induction false} DueAfter(due: map<Work, nat>, a: seq<Work>, b: seq<Work>, now: nat)
    requires forall w :: w in a + b ==> w in due
    requires forall i :: 0 <= i < |a| ==> a[i] in due && due[a[i]] > now
    ensures forall w :: w in b ==> w in due
    ensures Due(due, a + b, now) == Due(due, b, now)
  {
    assert forall w :: w in b ==> w in a + b;
    if a == [] {
      assert a + b == b;
    } else {
      assert (a + b)[1..] == a[1..] + b;
      DueAfter(due, a[1..], b, now);
    }
  }

  /** While the clock stands still the due items come off in list order. */
  lemma {:induction false} TakenSteady(due: map<Work, nat>, d: seq<Work>, clock: nat -> nat, k: nat, now: nat)
    requires (forall w :: w in d ==> w in due) && (forall i :: k <= i ==> clock(i) == now)
    ensures Taken(due, d, clock, k) == Due(due, d, now)
    decreases |d|
  {
    hide Turn, Due, Taken;
    var j := Turn(due, d, now);
    assert clock(k) == now;
    TakenNext(due, d, clock, k);
    DueTurn(due, d, now);
    if j < |d| {
      TakenSteady(due, d[..j] + d[j + 1..], clock, k + 1, now);
    }
  }

  lemma DueTurn(due: map<Work, nat>, d: seq<Work>, now: nat)
    requires forall w :: w in d ==> w in due
    ensures var j := Turn(due, d, now);
            Due(due, d, now) == if j == |d| then [] else [d[j]] + Due(due, d[..j] + d[j + 1..], now)
  {
    hide Turn, Due;
    var j := Turn(due, d, now);
    assert forall i :: 0 <= i < |d| ==> d[i] in d;
    if j < |d| {
      assert d == d[..j] + [d[j]] + d[j + 1..];
      DueCut(due, d[..j], d[j], d[j + 1..], now);
    } else {
      assert d == d + [];
      DueAfter(due, d, [], now);
      DueNone(due, now);
    }
  }

  lemma DueCut(due: map<Work, nat>, a: seq<Work>, w: Work, b: seq<Work>, now: nat)
    requires (forall v :: v in a + [w] + b ==> v in due) && due[w] <= now
    requires forall i :: 0 <= i < |a| ==> a[i] in due && due[a[i]] > now
    ensures forall v :: v in a + b ==> v in due
    ensures Due(due, a + [w] + b, now) == [w] + Due(due, a + b, now)
  {
    hide Due;
    assert forall v :: v in a + b ==> v in a + [w] + b;
    assert a + [w] + b == a + ([w] + b);
    DueAfter(due, a, [w] + b, now);
    DueAfter(due, a, b, now);
    DueFirst(due, w, b, now);
  }

  lemma DueFirst(due: map<Work, nat>, w: Work, b: seq<Work>, now: nat)
    requires w in due && due[w] <= now && forall v :: v in b ==> v in due
    ensures Due(due, [w] + b, now) == [w] + Due(due, b, now)
  {
    assert ([w] + b)[1..] == b;
  }

  lemma DueNone(due: map<Work, nat>, now: nat)
    ensures Due(due, [], now) == []
  {}

  ghost function Links(ws: seq<Work>): (r: seq<Link>)
    ensures |r| == |ws| && forall i :: 0 <= i < |ws| ==> r[i] == Of(ws[i])
  {
    if ws == [] then [] else [Of(ws[0])] + Links(ws[1..])
  }

  lemma FirstIsTurn(works: Works, d: seq<Work>, now: nat, due: map<Work, nat>)
    requires Window(due, works, d, now)
    ensures forall w :: w in d ==> w in due && w in works
    ensures FirstDue(works, d, now % UINT32) == Turn(due, d, now)
  {
    hide Remaining, Turn, FirstDue, Window;
    WindowExact(due, works, d, now);
    assert forall i :: 0 <= i < |d| ==> d[i] in d;
    var k, j := FirstDue(works, d, now % UINT32), Turn(due, d, now);
    assert !(k < j) && !(j < k);
  }

  /** Within the window the scan stops at the first item that is really due. */
  lemma ScanTurn(s: State, q: WorkQueue, now: nat, due: map<Work, nat>)
    requires Wf(s) && q in s.queues && Window(due, s.works, s.queues[q].delayed, now)
    ensures forall w :: w in s.queues[q].delayed ==> w in due
    ensures var d := s.queues[q].delayed; var j := Turn(due, d, now);
            Scan(s, q, now % UINT32) == if j == |d| then (s, null, false)
            else (Detach(s, q, d[j]), d[j], s.queues[q].gates.plugged || s.queues[q].gates.stopping)
  {
    hide Window, Turn, FirstDue, Detach;
    var d := s.queues[q].delayed;
    FirstIsTurn(s.works, d, now, due);
    assert forall i :: 0 <= i < |d| ==> d[i] in d;
  }

  lemma WithoutAt(d: seq<Work>, j: nat)
    requires Distinct(d) && j < |d|
    ensures Without<Work>(d, d[j]) == d[..j] + d[j + 1..]
  {
    hide Distinct;
    var k := Find<Work>(d, d[j]);
    DistinctAt(d, k, j);
  }

  /** The worker's own submissions are let in. */
  predicate Open(g: Gates) {
    g.started && !g.stopping && !g.plugged
  }

  /** An item that does nothing but wait out its delay, and may be submitted. */
  predicate Waits(w: Work, i: Item) {
    w.magic && w.handler && w.sync && i.flags == IDLE.(delayed := true) && i.sub < UINT32 - 1
  }

  /** Such an item under its next number in the immediate list of `q`. */
  function Promoted(i: Item, q: WorkQueue): Item {
    i.(sub := i.sub + 1, queue := q, flags := IDLE.(queued := true))
  }

  function Undelayed(i: Item): Item {
    i.(flags := i.flags.(delayed := false))
  }

  /** The items `p` have come off the delayed list of `q`, been put at the end
      of its immediate list in that order if `submitted`, and no other queue has
      changed. */
  ghost predicate ListsTake(queues: Queues, q: WorkQueue, queues': Queues, p: seq<Work>, submitted: bool) {
    && q in queues && q in queues'
    && (var c := queues[q].(delayed := queues'[q].delayed);
        queues' == queues[q := if submitted then c.(fifo := c.fifo + Links(p), count := c.count + |p|) else c])
    && (forall w :: w in p ==> w in queues[q].delayed && w !in queues'[q].delayed)
    && (forall w :: w in queues[q].delayed ==> w in p || w in queues'[q].delayed)
    && (forall w :: w in queues'[q].delayed ==> w in queues[q].delayed)
  }

  /** The items `p` have been submitted to `q`, or only lost their DELAYED flag,
      and no other item has changed. */
  ghost predicate ItemsTake(works: Works, q: WorkQueue, works': Works, p: seq<Work>, submitted: bool) {
    works'.Keys == works.Keys
    && forall w {:trigger works'[w]} {:trigger works[w]} :: w in works ==>
         works'[w] == if w !in p then works[w] else if submitted then Promoted(works[w], q) else Undelayed(works[w])
  }

  ghost predicate TakesOff(s: State, q: WorkQueue, r: State, p: seq<Work>, submitted: bool) {
    ListsTake(s.queues, q, r.queues, p, submitted) && ItemsTake(s.works, q, r.works, p, submitted)
  }

  lemma TakesNone(s: State, q: WorkQueue, submitted: bool)
    requires q in s.queues
    ensures TakesOff(s, q, s, [], submitted)
  {
    var c := s.queues[q];
    assert c.fifo + Links([]) == c.fifo;
    assert s.queues == s.queues[q := c];
  }

  lemma TakesOneMore(s: State, q: WorkQueue, w: Work, s2: State, r: State, p: seq<Work>, submitted: bool)
    requires TakesOff(s, q, s2, [w], submitted) && TakesOff(s2, q, r, p, submitted)
    ensures TakesOff(s, q, r, [w] + p, submitted)
  {
    hide ItemsTake;
    ListsOneMore(s.queues, q, w, s2.queues, r.queues, p, submitted);
    assert w in [w] && w !in p;
    ItemsOneMore(s.works, q, w, s2.works, r.works, p, submitted);
  }

  lemma ListsOneMore(queues: Queues, q: WorkQueue, w: Work, queues2: Queues, queues': Queues, p: seq<Work>,
                     submitted: bool)
    requires ListsTake(queues, q, queues2, [w], submitted) && ListsTake(queues2, q, queues', p, submitted)
    ensures ListsTake(queues, q, queues', [w] + p, submitted)
  {
    hide Links;
    LinksMore(w, p);
    assert w in [w] && forall v :: v in [w] + p <==> v == w || v in p;
    var f := queues[q].fifo;
    assert f + Links([w]) + Links(p) == f + (Links([w]) + Links(p));
    assert queues' == queues[q := queues'[q]];
  }

  lemma LinksMore(w: Work, p: seq<Work>)
    ensures Links([w] + p) == Links([w]) + Links(p) && |Links([w] + p)| == 1 + |p|
  {
    assert ([w] + p)[1..] == p && [w][1..] == [];
  }

  lemma ItemsOneMore(works: Works, q: WorkQueue, w: Work, works2: Works, works': Works, p: seq<Work>, submitted: bool)
    requires ItemsTake(works, q, works2, [w], submitted) && ItemsTake(works2, q, works', p, submitted) && w !in p
    ensures ItemsTake(works, q, works', [w] + p, submitted)
  {
    hide Promoted, Undelayed;
    assert forall v :: v in [w] + p <==> v == w || v in p;
  }

  lemma RoundSubmits(s: State, q: WorkQueue, w: Work)
    requires Wf(s) && q in s.queues && Distinct(s.queues[q].delayed) && w in s.queues[q].delayed && w in s.works
    requires Open(s.queues[q].gates) && Waits(w, s.works[w]) && s.queues[q].count < UINT16_MAX
    ensures TakesOff(s, q, Submit(Detach(s, q, w), q, w, q), [w], true)
  {
    hide Wf, Without, Distinct;
    WithoutKeeps<Work>(s.queues[q].delayed, w);
    var r := Submit(Detach(s, q, w), q, w, q);
    assert [w][1..] == [] && Links([w]) == [Of(w)];
    assert w in [w] && r.queues == s.queues[q := r.queues[q]];
  }

  lemma RoundBarred(s: State, q: WorkQueue, w: Work)
    requires Wf(s) && q in s.queues && Distinct(s.queues[q].delayed) && w in s.queues[q].delayed && w in s.works
    ensures TakesOff(s, q, Detach(s, q, w), [w], false)
  {
    hide Wf, Without, Distinct;
    WithoutKeeps<Work>(s.queues[q].delayed, w);
    var r := Detach(s, q, w);
    assert w in [w];
    assert ItemsTake(s.works, q, r.works, [w], false);
    assert ListsTake(s.queues, q, r.queues, [w], false);
  }

  /** What the loop does with a due item: submit it, or drop it. */
  ghost function Round(s: State, q: WorkQueue, w: Work): (r: State)
    requires Wf(s) && q in s.queues && w in s.works
    ensures Wf(r) && q in r.queues
  {
    var g := s.queues[q].gates;
    if g.plugged || g.stopping then Detach(s, q, w) else Submit(Detach(s, q, w), q, w, q)
  }

  lemma PromoteTurn(s: State, q: WorkQueue, clock: nat -> nat, k: nat, due: map<Work, nat>)
    requires Wf(s) && q in s.queues && Distinct(s.queues[q].delayed)
    requires Window(due, s.works, s.queues[q].delayed, clock(k))
    ensures forall w :: w in s.queues[q].delayed ==> w in due && w in s.works
    ensures var d := s.queues[q].delayed; var j := Turn(due, d, clock(k));
            if j == |d| then Promote(s, q, clock, k).0 == s && Promote(s, q, clock, k).2 == k
            else d[j] in d && Promote(s, q, clock, k) == Promote(Round(s, q, d[j]), q, clock, k + 1)
  {
    hide Wf, Turn, Distinct, Submit, Detach, Nearest;
    ScanTurn(s, q, clock(k), due);
    var d := s.queues[q].delayed;
    var j := Turn(due, d, clock(k));
    if j < |d| {
      assert d[j] in d;
    }
  }

  lemma RoundKeeps(s: State, q: WorkQueue, now: nat, due: map<Work, nat>)
    requires Wf(s) && q in s.queues && Distinct(s.queues[q].delayed)
    requires Window(due, s.works, s.queues[q].delayed, now)
    ensures forall w :: w in s.queues[q].delayed ==> w in due && w in s.works
    ensures var d := s.queues[q].delayed; var j := Turn(due, d, now);
            j < |d| ==> d[j] in d && var r := Round(s, q, d[j]);
              && r.works.Keys == s.works.Keys
              && (forall v :: v in s.works ==> r.works[v].deadline == s.works[v].deadline)
              && r.queues[q].delayed == d[..j] + d[j + 1..] && Distinct(r.queues[q].delayed)
              && (forall v :: v in r.queues[q].delayed ==> v in d && v != d[j])
  {
    hide Wf, Turn, Distinct, Round, Window, Without;
    var d := s.queues[q].delayed;
    WindowKnown(due, s.works, d, now);
    var j := Turn(due, d, now);
    if j < |d| {
      assert d[j] in d;
      RoundDelays(s, q, d[j]);
      WithoutAt(d, j);
      WithoutKeeps<Work>(d, d[j]);
    }
  }

  lemma RoundDelays(s: State, q: WorkQueue, w: Work)
    requires Wf(s) && q in s.queues && w in s.works
    ensures var r := Round(s, q, w);
            && r.works.Keys == s.works.Keys && (forall v :: v in s.works ==> r.works[v].deadline == s.works[v].deadline)
            && r.queues[q].delayed == Without<Work>(s.queues[q].delayed, w)
  {
    hide Wf, Without, Submit;
    SubmitDelayed(Detach(s, q, w), q, w);
  }

  lemma WindowKnown(due: map<Work, nat>, works: Works, d: seq<Work>, now: nat)
    requires Window(due, works, d, now)
    ensures forall w :: w in d ==> w in due && w in works
  {}

  lemma RoundTakes(s: State, q: WorkQueue, w: Work, submitted: bool)
    requires Wf(s) && q in s.queues && Distinct(s.queues[q].delayed) && w in s.queues[q].delayed && w in s.works
    requires submitted ==> Open(s.queues[q].gates) && Waits(w, s.works[w]) && s.queues[q].count < UINT16_MAX
    requires !submitted ==> s.queues[q].gates.plugged || s.queues[q].gates.stopping
    ensures TakesOff(s, q, Round(s, q, w), [w], submitted)
  {
    hide Wf, TakesOff, Distinct, Waits, Submit, Detach;
    if submitted {
      RoundSubmits(s, q, w);
    } else {
      RoundBarred(s, q, w);
    }
  }

  /** The items may all be submitted, and there is room for them; or the queue
      is barred to its own worker. */
  ghost predicate Suits(s: State, q: WorkQueue, p: seq<Work>, submitted: bool)
    requires q in s.queues
  {
    var c := s.queues[q];
    if submitted then
      && Open(c.gates) && c.count + |p| <= UINT16_MAX
      && forall w :: w in p ==> w in s.works && Waits(w, s.works[w])
    else c.gates.plugged || c.gates.stopping
  }

  lemma SuitsFirst(s: State, q: WorkQueue, w: Work, p: seq<Work>, submitted: bool)
    requires q in s.queues && Suits(s, q, [w] + p, submitted)
    ensures submitted ==> w in s.works
    ensures submitted ==> Open(s.queues[q].gates) && Waits(w, s.works[w]) && s.queues[q].count < UINT16_MAX
    ensures !submitted ==> s.queues[q].gates.plugged || s.queues[q].gates.stopping
  {
    hide Waits, Open;
    assert w in [w] + p;
  }

  lemma SuitsRest(s: State, q: WorkQueue, w: Work, s2: State, p: seq<Work>, submitted: bool)
    requires q in s.queues && Suits(s, q, [w] + p, submitted) && TakesOff(s, q, s2, [w], submitted)
    requires w !in p
    ensures q in s2.queues && Suits(s2, q, p, submitted)
  {
    hide Waits, Promoted, Undelayed, Links;
    if submitted {
      forall v | v in p ensures v in s2.works && Waits(v, s2.works[v]) {
        assert v in [w] + p && v !in [w] && s2.works[v] == s.works[v];
      }
    }
  }

  /** The loop takes the due items off in turn, one at a sample, and what
      becomes of them depends on whether the queue is barred. */
  lemma {:induction false} PromoteTakes(s: State, q: WorkQueue, clock: nat -> nat, k: nat, due: map<Work, nat>,
                                        submitted: bool)
    requires Wf(s) && q in s.queues && Distinct(s.queues[q].delayed)
    requires forall w :: w in s.queues[q].delayed ==> w in due
    requires forall i :: k <= i <= Promote(s, q, clock, k).2 ==> Window(due, s.works, s.queues[q].delayed, clock(i))
    requires Suits(s, q, Taken(due, s.queues[q].delayed, clock, k), submitted)
    ensures var (r, _, last), p := Promote(s, q, clock, k), Taken(due, s.queues[q].delayed, clock, k);
            last == k + |p| && TakesOff(s, q, r, p, submitted)
    decreases |s.queues[q].delayed|
  {
    hide Wf, Window, Distinct, Suits, TakesOff, Promote, Round, Turn, Waits;
    var d := s.queues[q].delayed;
    assert Window(due, s.works, d, clock(k));
    PromoteTurn(s, q, clock, k, due);
    RoundKeeps(s, q, clock(k), due);
    var j := Turn(due, d, clock(k));
    if j == |d| {
      TakesNone(s, q, submitted);
    } else {
      var w, s2 := d[j], Round(s, q, d[j]);
      var p := Taken(due, s2.queues[q].delayed, clock, k + 1);
      assert Taken(due, d, clock, k) == [w] + p;
      TakenDue(due, s2.queues[q].delayed, clock, k + 1);
      SuitsFirst(s, q, w, p, submitted);
      RoundTakes(s, q, w, submitted);
      SuitsRest(s, q, w, s2, p, submitted);
      forall i | k + 1 <= i <= Promote(s2, q, clock, k + 1).2
        ensures Window(due, s2.works, s2.queues[q].delayed, clock(i))
      {
        WindowShrinks(due, s.works, d, s2.works, s2.queues[q].delayed, clock(i));
      }
      PromoteTakes(s2, q, clock, k + 1, due, submitted);
      TakesOneMore(s, q, w, s2, Promote(s2, q, clock, k + 1).0, p, submitted);
    }
  }

  /** On an open queue with room for them, the due items, if they only wait out
      their delay, are all submitted: in the order in which they came off the
      delayed list they stand at the end of the immediate list, each QUEUED
      under its next number. */
  lemma PromoteSubmits(s: State, q: WorkQueue, clock: nat -> nat, due: map<Work, nat>)
    requires Wf(s) && q in s.queues && Distinct(s.queues[q].delayed) && Open(s.queues[q].gates)
    requires forall w :: w in s.queues[q].delayed ==> w in due
    requires forall i :: 0 <= i <= Promote(s, q, clock, 0).2 ==> Window(due, s.works, s.queues[q].delayed, clock(i))
    requires var p := Taken(due, s.queues[q].delayed, clock, 0);
             s.queues[q].count + |p| <= 0xffff && forall w :: w in p ==> w in s.works && Waits(w, s.works[w])
    ensures var (r, _, last), c, p := Promote(s, q, clock, 0), s.queues[q], Taken(due, s.queues[q].delayed, clock, 0);
            && last == |p| && r.works.Keys == s.works.Keys
            && r.queues[q].fifo == c.fifo + Links(p) && r.queues[q].count == c.count + |p|
            && (forall w :: w in s.works ==>
                  if w in p then
                    && r.works[w].sub == s.works[w].sub + 1 && r.works[w].queue == q
                    && r.works[w].flags == Flags(false, false, true, false)
                  else r.works[w] == s.works[w])
  {
    hide Wf, Window, Distinct, Promote, Taken, Waits, Links;
    PromoteTakes(s, q, clock, 0, due, true);
  }

  /** On a plugged or stopping queue the due items are dropped: they lose their
      DELAYED flag, and no list or number changes but the delayed one. */
  lemma PromoteBarred(s: State, q: WorkQueue, clock: nat -> nat, due: map<Work, nat>)
    requires Wf(s) && q in s.queues && Distinct(s.queues[q].delayed)
    requires s.queues[q].gates.plugged || s.queues[q].gates.stopping
    requires forall w :: w in s.queues[q].delayed ==> w in due
    requires forall i :: 0 <= i <= Promote(s, q, clock, 0).2 ==> Window(due, s.works, s.queues[q].delayed, clock(i))
    ensures var (r, _, last), c, p := Promote(s, q, clock, 0), s.queues[q], Taken(due, s.queues[q].delayed, clock, 0);
            && last == |p| && r.works.Keys == s.works.Keys
            && r.queues == s.queues[q := c.(delayed := r.queues[q].delayed)]
            && (forall w :: w in s.works ==>
                  if w in p then r.works[w] == s.works[w].(flags := s.works[w].flags.(delayed := false))
                  else r.works[w] == s.works[w])
  {
    hide Wf, Window, Distinct, Promote, Taken;
    PromoteTakes(s, q, clock, 0, due, false);
  }
}
