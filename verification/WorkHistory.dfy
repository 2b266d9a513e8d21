/** What the log of a run says: every accepted submission is run or cancelled
    exactly once, and each queue runs its submissions in order. */
module WorkHistory {
  import opened Lists
  import opened WorkObjects
  import opened WorkSpec
  import opened WorkWorld
  import opened WorkInvariants

  /** How often the log says `kind` of ticket `t`. */
  ghost function Count(log: seq<Event>, kind: Kind, t: Ticket): nat {
    if log == [] then 0
    else
      var e := log[|log| - 1];
      Count(log[..|log| - 1], kind, t) + if e.kind == kind && e.t == t then 1 else 0
  }

  /** How often the log says `kind` of any submission of `w`. */
  ghost function Total(log: seq<Event>, kind: Kind, w: Work): nat {
    if log == [] then 0
    else
      var e := log[|log| - 1];
      Total(log[..|log| - 1], kind, w) + if e.kind == kind && e.t.w == w then 1 else 0
  }

  /** The tickets the log says `kind` of on queue `q`, in order. */
  ghost function On(log: seq<Event>, kind: Kind, q: WorkQueue): seq<Ticket> {
    if log == [] then []
    else
      var e := log[|log| - 1];
      On(log[..|log| - 1], kind, q) + if e.kind == kind && e.q == q then [e.t] else []
  }

  /** The tickets cancelled while queued. */
  ghost function Cancelled(log: seq<Event>): set<Ticket> {
    set e | e in log && e.kind == Dropped :: e.t
  }

  /** `ts` with the members of `gone` deleted. */
  ghost function Kept(ts: seq<Ticket>, gone: set<Ticket>): seq<Ticket> {
    if ts == [] then []
    else
      var t := ts[|ts| - 1];
      Kept(ts[..|ts| - 1], gone) + if t in gone then [] else [t]
  }

  lemma KeptOne(ts: seq<Ticket>, t: Ticket, gone: set<Ticket>)
    requires t !in gone
    ensures Kept(ts + [t], gone) == Kept(ts, gone) + [t]
  {
    assert (ts + [t])[..|ts|] == ts;
  }

  lemma KeptTail(a: seq<Ticket>, b: seq<Ticket>, t: Ticket)
    requires t !in a
    ensures Kept(a + b, {t}) == a + Kept(b, {t})
  {
    KeptConcat(a, b, {t});
    KeptAll(a, t);
  }

  ghost predicate Within(works: Works, f: seq<Link>) {
    forall l :: l in f && l.Of? ==> l.work in works
  }

  /** The submissions waiting in an immediate list. */
  ghost function Pending(works: Works, fifo: seq<Link>): seq<Ticket>
    requires Within(works, fifo)
  {
    if fifo == [] then []
    else
      assert fifo[0] in fifo;
      (if fifo[0].Of? then [Ticket(fifo[0].work, works[fifo[0].work].sub)] else []) + Pending(works, fifo[1..])
  }

  // ---- Lemmas about these functions

  lemma Logged(log: seq<Event>, e: Event, kind: Kind, t: Ticket)
    ensures Count(log + [e], kind, t) == Count(log, kind, t) + if e.kind == kind && e.t == t then 1 else 0
    ensures Total(log + [e], kind, t.w) == Total(log, kind, t.w) + if e.kind == kind && e.t.w == t.w then 1 else 0
  {
    assert (log + [e])[..|log|] == log;
  }

  lemma LoggedOn(log: seq<Event>, e: Event, kind: Kind, q: WorkQueue)
    ensures On(log + [e], kind, q)
         == if e.kind == kind && e.q == q then On(log, kind, q) + [e.t] else On(log, kind, q)
  {
    assert (log + [e])[..|log|] == log;
  }

  lemma LoggedCancelled(log: seq<Event>, e: Event)
    ensures Cancelled(log + [e]) == if e.kind == Dropped then Cancelled(log) + {e.t} else Cancelled(log)
  {
    assert forall x :: x in log + [e] <==> x in log || x == e;
    if e.kind == Dropped {
      assert e in log + [e];
    }
  }

  lemma {:induction false} CancelledCount(log: seq<Event>, t: Ticket)
    ensures t in Cancelled(log) <==> Count(log, Dropped, t) > 0
  {
    if log != [] {
      var front, e := log[..|log| - 1], log[|log| - 1];
      assert log == front + [e];
      CancelledCount(front, t);
      LoggedCancelled(front, e);
    }
  }

  lemma {:induction false} OnCount(log: seq<Event>, kind: Kind, q: WorkQueue, t: Ticket)
    ensures t in On(log, kind, q) ==> Count(log, kind, t) > 0
  {
    if log != [] {
      OnCount(log[..|log| - 1], kind, q, t);
    }
  }

  lemma {:induction false} KeptConcat(a: seq<Ticket>, b: seq<Ticket>, gone: set<Ticket>)
    ensures Kept(a + b, gone) == Kept(a, gone) + Kept(b, gone)
  {
    if b == [] {
      assert a + b == a;
    } else {
      KeptConcat(a, b[..|b| - 1], gone);
      assert (a + b)[..|a + b| - 1] == a + b[..|b| - 1];
    }
  }

  lemma {:induction false} KeptTwice(ts: seq<Ticket>, gone: set<Ticket>, t: Ticket)
    ensures Kept(ts, gone + {t}) == Kept(Kept(ts, gone), {t})
  {
    if ts != [] {
      var front, last := ts[..|ts| - 1], ts[|ts| - 1];
      KeptTwice(front, gone, t);
      KeptConcat(Kept(front, gone), if last in gone then [] else [last], {t});
      if last !in gone {
        assert [last][..0] == [];
      }
    }
  }

  lemma {:induction false} KeptAll(ts: seq<Ticket>, t: Ticket)
    requires t !in ts
    ensures Kept(ts, {t}) == ts
  {
    if ts != [] {
      KeptAll(ts[..|ts| - 1], t);
    }
  }

  lemma WithinConcat(works: Works, f: seq<Link>, g: seq<Link>)
    ensures Within(works, f + g) <==> Within(works, f) && Within(works, g)
  {
    assert forall l :: l in f + g <==> l in f || l in g;
  }

  lemma {:induction false} PendingConcat(works: Works, f: seq<Link>, g: seq<Link>)
    requires Within(works, f + g)
    ensures Within(works, f) && Within(works, g)
    ensures Pending(works, f + g) == Pending(works, f) + Pending(works, g)
  {
    WithinConcat(works, f, g);
    if f == [] {
      assert f + g == g;
    } else {
      assert (f + g)[1..] == f[1..] + g && f == [f[0]] + f[1..];
      WithinConcat(works, [f[0]], f[1..]);
      WithinConcat(works, f[1..], g);
      PendingConcat(works, f[1..], g);
    }
  }

  lemma PendingOne(works: Works, f: seq<Link>, w: Work)
    requires Within(works, f) && w in works
    ensures Within(works, f + [Of(w)])
    ensures Pending(works, f + [Of(w)]) == Pending(works, f) + [Ticket(w, works[w].sub)]
  {
    PendingConcat(works, f, [Of(w)]);
    assert [Of(w)][1..] == [];
  }

  lemma {:induction false} PendingSame(works: Works, works': Works, f: seq<Link>)
    requires forall l :: l in f && l.Of? ==> l.work in works && l.work in works'
    requires forall l :: l in f && l.Of? ==> works'[l.work].sub == works[l.work].sub
    ensures Pending(works', f) == Pending(works, f)
  {
    if f != [] {
      assert f[0] in f && forall l :: l in f[1..] ==> l in f;
      PendingSame(works, works', f[1..]);
    }
  }

  lemma {:induction false} PendingHas(works: Works, f: seq<Link>, t: Ticket)
    requires Within(works, f)
    ensures t in Pending(works, f) ==> Of(t.w) in f
  {
    if f != [] {
      assert forall l :: l in f[1..] ==> l in f;
      PendingHas(works, f[1..], t);
    }
  }

  lemma {:induction false} PendingCut(works: Works, a: seq<Link>, w: Work, b: seq<Link>)
    requires Within(works, a + [Of(w)] + b) && Within(works, a + b) && w in works
    requires Of(w) !in a + b
    ensures Pending(works, a + b) == Kept(Pending(works, a + [Of(w)] + b), {Ticket(w, works[w].sub)})
  {
    var t := Ticket(w, works[w].sub);
    if a == [] {
      assert a + b == b && (a + [Of(w)] + b)[1..] == b;
      PendingHas(works, b, t);
      KeptConcat([t], Pending(works, b), {t});
      assert [t][..0] == [];
      KeptAll(Pending(works, b), t);
    } else {
      assert (a + b)[1..] == a[1..] + b && (a + [Of(w)] + b)[1..] == a[1..] + [Of(w)] + b;
      assert (a + b)[0] in a + b;
      assert forall l :: l in a[1..] + b ==> l in a + b;
      PendingCut(works, a[1..], w, b);
      var rest := Pending(works, a[1..] + [Of(w)] + b);
      var head := if a[0].Of? then [Ticket(a[0].work, works[a[0].work].sub)] else [];
      KeptConcat(head, rest, {t});
      if a[0].Of? {
        KeptAll(head, t);
      }
    }
  }

  /** Unlinking an item takes exactly its submission out. */
  lemma PendingWithout(works: Works, f: seq<Link>, w: Work)
    requires Distinct(f) && Of(w) in f && Within(works, f)
    ensures Within(works, Without(f, Of(w)))
    ensures Pending(works, Without(f, Of(w))) == Kept(Pending(works, f), {Ticket(w, works[w].sub)})
  {
    hide Without, Kept, Pending;
    WithoutKeeps(f, Of(w));
    var k := WithoutSplit(f, Of(w));
    PendingCut(works, f[..k], w, f[k + 1..]);
  }

  // ---- The fate of each submission

  /** Submission `id` of `w`: accepted once; then begun, cancelled or still
      queued, and only one of these, once; if begun, ended once, or running. */
  ghost predicate Fate(i: Item, w: Work, id: int, log: seq<Event>) {
    var t := Ticket(w, id);
    if 1 <= id <= i.sub then
      && Count(log, Submitted, t) == 1
      && Count(log, Begun, t) + Count(log, Dropped, t) + (if i.flags.queued && id == i.sub then 1 else 0) == 1
      && Count(log, Ended, t) + (if i.flags.running && id == i.run then 1 else 0) == Count(log, Begun, t)
      && (Count(log, Ended, t) > 0 ==> id <= i.comp)
    else
      && Count(log, Submitted, t) == Count(log, Begun, t) == 0
      && Count(log, Dropped, t) == Count(log, Ended, t) == 0
  }

  ghost predicate FatesOk(works: Works, log: seq<Event>) {
    forall w, id: int {:trigger Fate(works[w], w, id, log)} :: w in works ==> Fate(works[w], w, id, log)
  }

  /** The submission number counts handler starts, cancellations while queued
      and the submission still queued. */
  ghost predicate Tallied(i: Item, w: Work, log: seq<Event>) {
    && i.sub == Total(log, Submitted, w)
    && i.sub == Total(log, Begun, w) + Total(log, Dropped, w) + (if i.flags.queued then 1 else 0)
    && Total(log, Begun, w) == Total(log, Ended, w) + (if i.flags.running then 1 else 0)
  }

  ghost predicate TalliesOk(works: Works, log: seq<Event>) {
    forall w {:trigger works[w]} :: w in works ==> Tallied(works[w], w, log)
  }

  /** The handler starts on `q`, followed by what it has queued, are the
      submissions it accepted without those cancelled while queued. */
  ghost predicate InOrder(works: Works, fifo: seq<Link>, log: seq<Event>, q: WorkQueue) {
    && Within(works, fifo)
    && Kept(On(log, Submitted, q), Cancelled(log)) == On(log, Begun, q) + Pending(works, fifo)
  }

  ghost predicate OrderOk(works: Works, queues: Queues, log: seq<Event>) {
    forall q {:trigger queues[q]} :: q in queues ==> InOrder(works, queues[q].fifo, log, q)
  }

  ghost predicate History(x: World) {
    FatesOk(x.s.works, x.log) && TalliesOk(x.s.works, x.log) && OrderOk(x.s.works, x.s.queues, x.log)
  }

  // ---- Fates and tallies from one event to the next

  /** How the item behind event `e` changes with it. */
  ghost predicate Advances(i: Item, i': Item, e: Event) {
    && i'.sub == i.sub + (if e.kind == Submitted then 1 else 0)
    && i.comp <= i'.comp
    && (match e.kind
        case Submitted =>
          e.t.id == i'.sub && !i.flags.queued && i'.flags.queued
          && i'.flags.running == i.flags.running && i'.run == i.run
        case Dropped =>
          e.t.id == i.sub > 0 && i.flags.queued && !i'.flags.queued
          && i'.flags.running == i.flags.running && i'.run == i.run
        case Begun =>
          e.t.id == i.sub > 0 && i.flags.queued && !i'.flags.queued
          && !i.flags.running && i'.flags.running && i'.run == i.sub
        case Ended =>
          e.t.id == i.run == i'.comp && i.flags.running && !i'.flags.running && i'.flags.queued == i.flags.queued)
  }

  lemma EventFates(works: Works, works': Works, log: seq<Event>, e: Event)
    requires FatesOk(works, log) && e.t.w in works && e.t.w in works'
    requires works' == works[e.t.w := works'[e.t.w]] && Advances(works[e.t.w], works'[e.t.w], e)
    requires Numbered(works[e.t.w])
    ensures FatesOk(works', log + [e])
  {
    forall w, id: int | w in works' ensures Fate(works'[w], w, id, log + [e]) {
      var t := Ticket(w, id);
      assert Fate(works[w], w, id, log);
      Logged(log, e, Submitted, t);
      Logged(log, e, Begun, t);
      Logged(log, e, Dropped, t);
      Logged(log, e, Ended, t);
    }
  }

  lemma EventTallies(works: Works, works': Works, log: seq<Event>, e: Event)
    requires TalliesOk(works, log) && e.t.w in works && e.t.w in works'
    requires works' == works[e.t.w := works'[e.t.w]] && Advances(works[e.t.w], works'[e.t.w], e)
    ensures TalliesOk(works', log + [e])
  {
    forall w | w in works' ensures Tallied(works'[w], w, log + [e]) {
      var t := Ticket(w, 0);
      Logged(log, e, Submitted, t);
      Logged(log, e, Begun, t);
      Logged(log, e, Dropped, t);
      Logged(log, e, Ended, t);
    }
  }

  /** Items and lists change only in ways the log ignores. */
  ghost predicate Unlogged(s: State, r: State) {
    && r.works.Keys == s.works.Keys && r.queues.Keys == s.queues.Keys
    && (forall w {:trigger r.works[w]} :: w in s.works ==>
          var i, i' := s.works[w], r.works[w];
          i'.sub == i.sub && i'.run == i.run && i.comp <= i'.comp
          && i'.flags.queued == i.flags.queued && i'.flags.running == i.flags.running)
    && (forall q {:trigger r.queues[q]} :: q in s.queues ==>
          var f, f' := s.queues[q].fifo, r.queues[q].fifo;
          f' == f || (f == [] && f' == [Stop]) || (f == [Stop] && f' == []))
  }

  /** Only what concerns delays changes. */
  ghost predicate OnlyDelays(s: State, r: State) {
    && r.works.Keys == s.works.Keys && r.queues.Keys == s.queues.Keys
    && (forall w {:trigger r.works[w]} :: w in s.works ==>
          var i, i' := s.works[w], r.works[w];
          i' == i.(flags := i.flags.(delayed := i'.flags.delayed),
                   delayQueue := i'.delayQueue, deadline := i'.deadline))
    && (forall q {:trigger r.queues[q]} :: q in s.queues ==>
          r.queues[q] == s.queues[q].(delayed := r.queues[q].delayed))
  }

  lemma DelaysUnlogged(s: State, r: State)
    requires OnlyDelays(s, r)
    ensures Unlogged(s, r)
  {}

  lemma QuietHistory(x: World, r: World)
    requires History(x) && r.log == x.log && Unlogged(x.s, r.s)
    ensures History(r)
  {
    forall w, id: int | w in r.s.works ensures Fate(r.s.works[w], w, id, r.log) {
      assert Fate(x.s.works[w], w, id, x.log);
    }
    forall q | q in r.s.queues ensures InOrder(r.s.works, r.s.queues[q].fifo, r.log, q) {
      assert InOrder(x.s.works, x.s.queues[q].fifo, x.log, q);
      PendingSame(x.s.works, r.s.works, x.s.queues[q].fifo);
      assert [Stop][1..] == [];
    }
  }

  // ---- The order on each queue

  lemma SubmittedOrder(works: Works, works': Works, f: seq<Link>, log: seq<Event>, e: Event, q: WorkQueue)
    requires InOrder(works, f, log, q) && e.kind == Submitted && e.t.w in works && e.t.w in works'
    requires works' == works[e.t.w := works'[e.t.w]] && works'[e.t.w].sub == e.t.id
    requires Count(log, Dropped, e.t) == 0 && Of(e.t.w) !in f
    ensures InOrder(works', if e.q == q then f + [Of(e.t.w)] else f, log + [e], q)
  {
    hide On, Kept, Pending, Cancelled, Count;
    LoggedOn(log, e, Submitted, q);
    LoggedOn(log, e, Begun, q);
    LoggedCancelled(log, e);
    CancelledCount(log, e.t);
    PendingSame(works, works', f);
    if e.q == q {
      KeptOne(On(log, Submitted, q), e.t, Cancelled(log));
      PendingOne(works', f, e.t.w);
    }
  }

  lemma DroppedOrder(works: Works, works': Works, f: seq<Link>, log: seq<Event>, e: Event, q: WorkQueue)
    requires InOrder(works, f, log, q) && e.kind == Dropped && e.t.w in works && e.t.w in works'
    requires works' == works[e.t.w := works'[e.t.w]] && works'[e.t.w].sub == works[e.t.w].sub == e.t.id
    requires Count(log, Begun, e.t) == 0 && Distinct(f) && (Of(e.t.w) in f <==> q == e.q)
    ensures InOrder(works', if e.q == q then Without(f, Of(e.t.w)) else f, log + [e], q)
  {
    hide Distinct, On, Kept, Pending, Cancelled, Count, Without;
    LoggedOn(log, e, Submitted, q);
    LoggedOn(log, e, Begun, q);
    LoggedCancelled(log, e);
    KeptTwice(On(log, Submitted, q), Cancelled(log), e.t);
    KeptTail(On(log, Begun, q), Pending(works, f), e.t) by { OnCount(log, Begun, q, e.t); }
    if e.q == q {
      PendingWithout(works, f, e.t.w);
      PendingSame(works, works', Without(f, Of(e.t.w)));
    } else {
      PendingHas(works, f, e.t);
      KeptAll(Pending(works, f), e.t);
      PendingSame(works, works', f);
    }
  }

  lemma BegunOrder(works: Works, works': Works, f: seq<Link>, log: seq<Event>, e: Event, q: WorkQueue)
    requires InOrder(works, f, log, q) && e.kind == Begun && e.t.w in works && e.t.w in works'
    requires works' == works[e.t.w := works'[e.t.w]] && works'[e.t.w].sub == works[e.t.w].sub == e.t.id
    requires q == e.q ==> f != [] && f[0] == Of(e.t.w)
    ensures InOrder(works', if e.q == q then f[1..] else f, log + [e], q)
  {
    LoggedOn(log, e, Submitted, q);
    LoggedOn(log, e, Begun, q);
    LoggedCancelled(log, e);
    PendingSame(works, works', f);
    assert e.q == q ==> forall l :: l in f[1..] ==> l in f;
  }

  lemma EndedOrder(works: Works, works': Works, f: seq<Link>, log: seq<Event>, e: Event, q: WorkQueue)
    requires InOrder(works, f, log, q) && e.kind == Ended && e.t.w in works && e.t.w in works'
    requires works' == works[e.t.w := works'[e.t.w]] && works'[e.t.w].sub == works[e.t.w].sub
    ensures InOrder(works', f, log + [e], q)
  {
    LoggedOn(log, e, Submitted, q);
    LoggedOn(log, e, Begun, q);
    LoggedCancelled(log, e);
    PendingSame(works, works', f);
  }
}
