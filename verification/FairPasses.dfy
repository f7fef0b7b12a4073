/** Every pass of a transition ends (node/reconcile.go): in whatever order the participants step,
    with steps on views seen late and packs coming in without end, a participant that keeps
    stepping is done at some time, even if no delay ever passes.  The seals bound what a pass has
    to do: packs above the first are left to the cover pass, packs above the second to nobody.
    The exception is exact: a pack with a live key whose higher-ranked participant counts as done
    without having reported its primary keys. */
module FairPasses {

  import opened Pass
  import opened Transition
  import opened Deferral

  // ---- runs ----

  /** Whoever is not done works on this round and has its reports in the view. */
  ghost predicate Working(c: Cluster, s: State)
  {
    && !s.committed && s.view.frozen
    && forall n :: n in s.view.participants && n !in s.view.done ==> InStep(c, s, n)
  }

  /** A step on a view of this round, perhaps an earlier one.  A node that wrote its last report
      has seen it. */
  ghost predicate StepsInRound(s: State, e: Event)
  {
    && e.StepNode? && e.reported && e.n in s.view.participants && e.n !in s.view.done
    && e.w.round == s.view.round && e.w.participants == s.view.participants && e.w.primaryDone <= s.view.primaryDone
  }

  ghost predicate Moves(c: Cluster, s: State, e: Event, t: State)
  {
    Enabled(c, s, e) && t == Effect(c, s, e) && (e.AddPack? || e.Ack? || StepsInRound(s, e))
  }

  ghost predicate IsMoving(c: Cluster, states: seq<State>, events: seq<Event>)
  {
    && |states| == |events| + 1 && Working(c, states[0])
    && forall i :: 0 <= i < |events| ==> Moves(c, states[i], events[i], states[i + 1])
  }

  /** m counts as done although it never reported its primary keys in this round. */
  ghost predicate DoneUnreported(v: Pending, m: Node)
  {
    m in v.participants && m in v.done && m !in v.primaryDone
  }

  ghost predicate SameRound(v: Pending, w: Pending)
  {
    && w.round == v.round && w.participants == v.participants && w.frozen == v.frozen
    && v.done <= w.done && v.primaryDone <= w.primaryDone
    && forall m :: DoneUnreported(w, m) <==> DoneUnreported(v, m)
  }

  lemma StepMoves(c: Cluster, s: State, e: Event, t: State)
    requires Working(c, s) && Moves(c, s, e, t) && e.StepNode?
    ensures InStep(c, t, e.n) || e.n in t.view.done
    ensures SameRound(s.view, t.view) && t.locals.Keys == s.locals.Keys && !t.committed
    ensures forall n :: n != e.n && n in s.locals ==> t.locals[n] == s.locals[n]
    ensures forall n :: n != e.n ==> (n in t.view.done <==> n in s.view.done) && (n in t.view.primaryDone <==> n in s.view.primaryDone)
  {
    var m := e.n;
    assert InStep(c, s, m);
    StepLocal(c.l, e.w, e.a, m, s.locals[m], e.segs);
    StepReports(c.l, e.w, e.a, m, s.locals[m], e.segs);
    hide LocalOk, Step;
  }

  lemma MoveKeeps(c: Cluster, s: State, e: Event, t: State)
    requires Working(c, s) && Moves(c, s, e, t)
    ensures Working(c, t) && SameRound(s.view, t.view)
  {
    hide LocalOk, Step;
    if e.StepNode? {
      StepMoves(c, s, e, t);
      hide Moves;
      forall n | n in t.view.participants && n !in t.view.done ensures InStep(c, t, n) {
        if n != e.n { assert InStep(c, s, n); }
      }
    } else {
      forall n | n in t.view.participants && n !in t.view.done ensures InStep(c, t, n) {
        assert InStep(c, s, n);
        if e.AddPack? && e.n == n { AddPackLocal(c.l, n, s.locals[n], e.p, e.keys); }
      }
    }
  }

  lemma {:induction false} MovingKeeps(c: Cluster, states: seq<State>, events: seq<Event>, i: nat, j: nat)
    requires IsMoving(c, states, events) && i <= j < |states|
    ensures Working(c, states[j]) && SameRound(states[i].view, states[j].view)
    decreases j
  {
    hide Working, Moves;
    if i < j {
      MovingKeeps(c, states, events, i, j - 1);
      MoveKeeps(c, states[j - 1], events[j - 1], states[j]);
    } else if j > 0 {
      MovingKeeps(c, states, events, j - 1, j - 1);
      MoveKeeps(c, states[j - 1], events[j - 1], states[j]);
    }
  }

  // ---- what is left of a pass ----

  /** The packs the pass has yet to do.  The seals keep later packs out. */
  ghost function Ahead(s: Local, x: Xfer): set<Pack> { set p | p in s.packs && Remains(s, x, p) }

  /** What is left of the first pass: its packs, the report, and the turn to the cover pass. */
  ghost function FirstLeft(s: Local, x: Xfer): nat
  {
    if x.cover then 0 else |Ahead(s, x)| + (if x.primary then 1 else 2)
  }

  /** What is left of the cover pass. */
  ghost function CoverLeft(s: Local, x: Xfer): nat
  {
    if x.finished then 0 else |Ahead(s, x)| + 1
  }

  lemma AheadLess(s: Local, x: Xfer, t: Local, y: Xfer, p: Pack)
    requires Remains(s, x, p) && t.packs == s.packs && y == x.(done := x.done + {p}, deferred := y.deferred)
    ensures |Ahead(t, y)| == |Ahead(s, x)| - 1
  {
    assert Ahead(s, x) == Ahead(t, y) + {p};
  }

  lemma AheadSame(s: Local, x: Xfer, t: Local, y: Xfer)
    requires t.packs == s.packs && y.seal == x.seal && y.done == x.done && y.cover == x.cover && y.seal2 == x.seal2
    ensures Ahead(t, y) == Ahead(s, x)
  {
  }

  /** A step of the first pass leaves less of it unless it is stuck. */
  lemma FirstStep(l: Layout, v: Pending, a: Around, n: Node, s: Local, segs: seq<Pack>)
    requires LocalOk(l, n, s) && Segments(s, segs) && v.round in s.xfers && !s.xfers[v.round].cover
    ensures var t := Step(l, v, a, n, s, segs).s;
      && v.round in t.xfers && FirstLeft(t, t.xfers[v.round]) <= FirstLeft(s, s.xfers[v.round])
      && (!Stuck(l, v, a, n, s, s.xfers[v.round]) ==> FirstLeft(t, t.xfers[v.round]) < FirstLeft(s, s.xfers[v.round]))
  {
    var x, t := s.xfers[v.round], Step(l, v, a, n, s, segs).s;
    var sc := Scan(l, v, a, n, s, x, segs);
    assert XferOk(l, n, s, x);
    ScanKeeps(l, v, a, n, s, x, segs);
    ScanStops(l, v, a, n, s, x, segs);
    hide Scan, MustWait, Forwarded, LocalOk, Ahead;
    if sc.stopped {
      var p :| p in segs && p <= Limit(x) && !Passed(x, p) && sc.x.done == x.done + {p};
      AheadLess(s, x, t, t.xfers[v.round], p);
    } else if !sc.allDone {
      AheadSame(s, x, t, t.xfers[v.round]);
    }
  }

  /** A step of the cover pass leaves less of it unless it is stuck. */
  lemma CoverStep(l: Layout, v: Pending, a: Around, n: Node, s: Local, segs: seq<Pack>)
    requires LocalOk(l, n, s) && Segments(s, segs) && v.round in s.xfers
    requires s.xfers[v.round].cover && !s.xfers[v.round].finished
    ensures var t := Step(l, v, a, n, s, segs).s;
      && v.round in t.xfers && t.xfers[v.round].cover
      && CoverLeft(t, t.xfers[v.round]) <= CoverLeft(s, s.xfers[v.round])
      && (!Stuck(l, v, a, n, s, s.xfers[v.round]) ==> CoverLeft(t, t.xfers[v.round]) < CoverLeft(s, s.xfers[v.round]))
  {
    var x, t := s.xfers[v.round], Step(l, v, a, n, s, segs).s;
    var sc := Scan(l, v, a, n, s, x, segs);
    assert XferOk(l, n, s, x);
    ScanKeeps(l, v, a, n, s, x, segs);
    ScanStops(l, v, a, n, s, x, segs);
    hide Scan, MustWait, Forwarded, LocalOk, Ahead;
    if sc.stopped {
      var p :| p in segs && p <= Limit(x) && !Passed(x, p) && sc.x.done == x.done + {p};
      AheadLess(s, x, t, t.xfers[v.round], p);
    } else if !sc.allDone {
      AheadSame(s, x, t, t.xfers[v.round]);
    }
  }

  /** A pack that comes in is above the seals: it adds nothing to a pass under way. */
  lemma AddedIsBeyond(l: Layout, n: Node, s: Local, p: Pack, keys: seq<Key>, round: nat)
    requires LocalOk(l, n, s) && p > s.top && round in s.xfers
    ensures Ahead(s.(packs := s.packs[p := keys], top := p), s.xfers[round]) == Ahead(s, s.xfers[round])
  {
    assert XferOk(l, n, s, s.xfers[round]);
  }

  /** n takes part, is not done, and has adopted the round. */
  ghost predicate Going(s: State, n: Node)
  {
    n in s.view.participants && n !in s.view.done && n in s.locals && s.view.round in s.locals[n].xfers
  }

  ghost function FirstOf(s: State, n: Node): nat
  {
    if Going(s, n) then FirstLeft(s.locals[n], s.locals[n].xfers[s.view.round]) else 0
  }

  ghost function CoverOf(s: State, n: Node): nat
  {
    if Going(s, n) then CoverLeft(s.locals[n], s.locals[n].xfers[s.view.round]) else 0
  }

  /** n is done or on its cover pass. */
  ghost predicate Covering(s: State, n: Node)
  {
    Going(s, n) ==> s.locals[n].xfers[s.view.round].cover
  }

  ghost predicate Unstuck(c: Cluster, s: State, e: Event)
  {
    e.StepNode? && (Going(s, e.n) ==> !Stuck(c.l, e.w, e.a, e.n, s.locals[e.n], s.locals[e.n].xfers[s.view.round]))
  }

  /** What a step does to the node that steps. */
  lemma OwnMove(c: Cluster, s: State, e: Event, t: State)
    requires Working(c, s) && Moves(c, s, e, t) && e.StepNode?
    ensures Going(s, e.n) && FirstOf(t, e.n) <= FirstOf(s, e.n)
    ensures Covering(s, e.n) ==> Covering(t, e.n) && CoverOf(t, e.n) <= CoverOf(s, e.n)
    ensures Unstuck(c, s, e) ==>
      if Covering(s, e.n) then CoverOf(t, e.n) < CoverOf(s, e.n) else FirstOf(t, e.n) < FirstOf(s, e.n)
  {
    StepMoves(c, s, e, t);
    assert InStep(c, s, e.n);
    var me := s.locals[e.n];
    if me.xfers[s.view.round].cover {
      CoverStep(c.l, e.w, e.a, e.n, me, e.segs);
    } else {
      FirstStep(c.l, e.w, e.a, e.n, me, e.segs);
    }
    hide Step, LocalOk, Ahead, Stuck, Working, SameRound;
  }

  /** What another node does, and a pack that comes in, change nothing of n's. */
  lemma OtherMove(c: Cluster, s: State, e: Event, t: State, n: Node)
    requires Working(c, s) && Moves(c, s, e, t) && !(e.StepNode? && e.n == n)
    ensures FirstOf(t, n) == FirstOf(s, n) && CoverOf(t, n) == CoverOf(s, n) && (Covering(t, n) <==> Covering(s, n))
  {
    if e.StepNode? {
      StepMoves(c, s, e, t);
      hide Step, Ahead, LocalOk, Working;
    } else {
      if Going(s, n) {
        assert InStep(c, s, n);
        if e.AddPack? && e.n == n { AddedIsBeyond(c.l, n, s.locals[n], e.p, e.keys, s.view.round); }
      }
      hide Ahead, LocalOk, Working;
    }
  }

  /** The first passes of ns together. */
  ghost function FirstTotal(s: State, ns: seq<Node>): nat
  {
    if ns == [] then 0 else FirstOf(s, ns[0]) + FirstTotal(s, ns[1..])
  }

  lemma {:induction false} FirstTotalMoves(s: State, t: State, m: Node, ns: seq<Node>)
    requires FirstOf(t, m) <= FirstOf(s, m) && forall n :: n != m ==> FirstOf(t, n) == FirstOf(s, n)
    ensures FirstTotal(t, ns) <= FirstTotal(s, ns)
    ensures m in ns && FirstOf(t, m) < FirstOf(s, m) ==> FirstTotal(t, ns) < FirstTotal(s, ns)
  {
    hide FirstOf;
    if ns != [] {
      FirstTotalMoves(s, t, m, ns[1..]);
      assert ns == [ns[0]] + ns[1..];
    }
  }

  lemma {:induction false} FirstTotalHas(s: State, m: Node, ns: seq<Node>)
    requires m in ns
    ensures FirstOf(s, m) <= FirstTotal(s, ns)
  {
    hide FirstOf;
    assert ns == [ns[0]] + ns[1..];
    if m != ns[0] { FirstTotalHas(s, m, ns[1..]); }
  }

  lemma MoveFirst(c: Cluster, s: State, e: Event, t: State, ns: seq<Node>)
    requires Working(c, s) && Moves(c, s, e, t)
    ensures FirstTotal(t, ns) <= FirstTotal(s, ns)
    ensures Unstuck(c, s, e) && !Covering(s, e.n) && e.n in ns ==> FirstTotal(t, ns) < FirstTotal(s, ns)
  {
    hide Working, Moves, FirstOf, Covering, CoverOf, Unstuck;
    var m := if e.StepNode? then e.n else 0;
    forall n | n != m ensures FirstOf(t, n) == FirstOf(s, n) {
      OtherMove(c, s, e, t, n);
    }
    if e.StepNode? {
      OwnMove(c, s, e, t);
    } else {
      OtherMove(c, s, e, t, m);
    }
    FirstTotalMoves(s, t, m, ns);
    assert !e.StepNode? ==> !Unstuck(c, s, e) by { NoStep(c, s, e); }
  }

  lemma NoStep(c: Cluster, s: State, e: Event)
    ensures Unstuck(c, s, e) ==> e.StepNode?
  {
  }

  lemma {:induction false} FirstBetween(c: Cluster, states: seq<State>, events: seq<Event>, ns: seq<Node>, i: nat, j: nat)
    requires IsMoving(c, states, events) && i <= j <= |events|
    ensures FirstTotal(states[j], ns) <= FirstTotal(states[i], ns)
    decreases j
  {
    hide Moves, FirstTotal, Covering, Unstuck;
    if i < j {
      FirstBetween(c, states, events, ns, i, j - 1);
      MovingKeeps(c, states, events, 0, j - 1);
      hide Working;
      MoveFirst(c, states[j - 1], events[j - 1], states[j], ns);
    }
  }

  lemma {:induction false} CoverBetween(c: Cluster, states: seq<State>, events: seq<Event>, n: Node, i: nat, j: nat)
    requires IsMoving(c, states, events) && i <= j <= |events| && Covering(states[i], n)
    ensures Covering(states[j], n) && CoverOf(states[j], n) <= CoverOf(states[i], n)
    decreases j
  {
    hide Moves, Covering, CoverOf, FirstOf, Unstuck;
    if i < j {
      CoverBetween(c, states, events, n, i, j - 1);
      MovingKeeps(c, states, events, 0, j - 1);
      hide Working;
      var s, e, t := states[j - 1], events[j - 1], states[j];
      assert Moves(c, s, e, t);
      if e.StepNode? && e.n == n { OwnMove(c, s, e, t); } else { OtherMove(c, s, e, t, n); }
    }
  }

  // ---- rounds of steps ----

  /** n steps on the view in force somewhere from lo up to hi. */
  ghost predicate StepsIn(states: seq<State>, events: seq<Event>, n: Node, lo: nat, hi: nat)
    requires |states| == |events| + 1 && hi <= |events|
  {
    exists i :: lo <= i < hi && events[i].StepNode? && events[i].n == n && events[i].w == states[i].view
  }

  /** Every participant that is not done by hi steps. */
  ghost predicate FairFrom(states: seq<State>, events: seq<Event>, lo: nat, hi: nat)
    requires |states| == |events| + 1 && lo <= hi <= |events|
  {
    forall n :: n in states[lo].view.participants && n !in states[hi].view.done ==> StepsIn(states, events, n, lo, hi)
  }

  /** One step that is not stuck makes the whole stretch leave less of the first passes. */
  lemma FirstDrops(c: Cluster, states: seq<State>, events: seq<Event>, ns: seq<Node>, lo: nat, i: nat, hi: nat)
    requires IsMoving(c, states, events) && lo <= i < hi <= |events|
    requires Unstuck(c, states[i], events[i]) && !Covering(states[i], events[i].n) && events[i].n in ns
    ensures FirstTotal(states[hi], ns) < FirstTotal(states[lo], ns)
  {
    hide FirstTotal, Unstuck, Covering, Moves;
    MovingKeeps(c, states, events, 0, i);
    FirstBetween(c, states, events, ns, lo, i);
    FirstBetween(c, states, events, ns, i + 1, hi);
    hide Working;
    MoveFirst(c, states[i], events[i], states[i + 1], ns);
  }

  ghost predicate Unreported(v: Pending, m: Node)
  {
    m in v.participants && m !in v.done && m !in v.primaryDone
  }

  /** A participant that has not reported is on its first pass, and never stuck. */
  lemma UnreportedGoesOn(c: Cluster, s: State, e: Event)
    requires Working(c, s) && e.StepNode? && Unreported(s.view, e.n)
    ensures Unstuck(c, s, e) && !Covering(s, e.n) && FirstOf(s, e.n) > 0
  {
    assert InStep(c, s, e.n);
    assert XferOk(c.l, e.n, s.locals[e.n], s.locals[e.n].xfers[s.view.round]);
  }

  /** A participant that has not reported and steps, or ends up done, does its share. */
  lemma {:induction false} UnreportedDrops(c: Cluster, states: seq<State>, events: seq<Event>, ns: seq<Node>, m: Node, lo: nat, i: nat,
                                           hi: nat)
    requires IsMoving(c, states, events) && m in ns && lo <= i <= hi <= |events| && Unreported(states[i].view, m)
    requires StepsIn(states, events, m, i, hi) || m in states[hi].view.done
    ensures FirstTotal(states[hi], ns) < FirstTotal(states[lo], ns)
    decreases hi - i
  {
    hide FirstTotal, Covering, Unstuck;
    MovingKeeps(c, states, events, 0, i);
    if i < hi {
      var s, e, t := states[i], events[i], states[i + 1];
      assert Moves(c, s, e, t);
      if e.StepNode? && e.n == m {
        UnreportedGoesOn(c, s, e);
        FirstDrops(c, states, events, ns, lo, i, hi);
      } else {
        OthersReport(c, s, e, t, m);
        hide Moves, Working;
        UnreportedDrops(c, states, events, ns, m, lo, i + 1, hi);
      }
    }
  }

  /** Only its own steps report for a node. */
  lemma OthersReport(c: Cluster, s: State, e: Event, t: State, m: Node)
    requires Working(c, s) && Moves(c, s, e, t) && !(e.StepNode? && e.n == m)
    ensures m in t.view.done <==> m in s.view.done
    ensures m in t.view.primaryDone <==> m in s.view.primaryDone
    ensures m in t.view.participants <==> m in s.view.participants
  {
    if e.StepNode? { StepMoves(c, s, e, t); }
  }

  // ---- when a pack is blocked for good ----

  /** Above n for this key there is a participant that counts as done and never reported. */
  ghost predicate KeyBlocked(l: Layout, v: Pending, n: Node, k: Key)
  {
    && Position(l.owners(k), v.participants, n) > 1
    && exists m :: m in Above(l.owners(k), v.participants, n) && DoneUnreported(v, m)
  }

  /** Some key of the pack that is not dead is blocked. */
  ghost predicate PackBlocked(l: Layout, v: Pending, dead: set<Key>, n: Node, keys: seq<Key>)
  {
    exists k :: k in keys && k !in dead && KeyBlocked(l, v, n, k)
  }

  /** A pack that the pass has yet to do, now or after the cover pass begins. */
  ghost predicate Todo(s: Local, x: Xfer, p: Pack)
  {
    p in s.packs && p !in x.done && (x.cover ==> x.seal < p <= x.seal2)
  }

  ghost predicate NothingBlocked(c: Cluster, s: State, dead: set<Key>, n: Node)
  {
    n in s.locals && s.view.round in s.locals[n].xfers &&
    forall p :: Todo(s.locals[n], s.locals[n].xfers[s.view.round], p) ==> !PackBlocked(c.l, s.view, dead, n, s.locals[n].packs[p])
  }

  ghost predicate AllReported(v: Pending)
  {
    forall n :: n in v.participants && n !in v.done ==> n in v.primaryDone
  }

  /** Once everybody not done has reported, only a blocked pack has to wait. */
  lemma ReportedNotStuck(c: Cluster, s: State, a: Around, dead: set<Key>, n: Node)
    requires AllReported(s.view) && NothingBlocked(c, s, dead, n) && dead <= a.skip
    ensures !Stuck(c.l, s.view, a, n, s.locals[n], s.locals[n].xfers[s.view.round])
  {
    var me := s.locals[n];
    var x := me.xfers[s.view.round];
    if Stuck(c.l, s.view, a, n, me, x) {
      var p :| Remains(me, x, p);
      assert MustWait(c.l, s.view, a, n, me.packs[p]);
      var k :| k in me.packs[p] && k !in a.skip && !Ready(c.l, s.view, a.waited, n, k);
      var above := Above(c.l.owners(k), s.view.participants, n);
      var m :| m in above && m !in s.view.primaryDone;
      assert DoneUnreported(s.view, m);
      assert KeyBlocked(c.l, s.view, n, k);
      assert Todo(me, x, p);
    }
  }

  // ---- fair runs end ----

  /** Nothing n has to do is ever blocked, and what is dead stays skipped. */
  ghost predicate Unblocked(c: Cluster, states: seq<State>, events: seq<Event>, dead: set<Key>, n: Node)
    requires |states| == |events| + 1
  {
    && (forall i :: 0 <= i < |events| ==> n in states[i].view.done || NothingBlocked(c, states[i], dead, n))
    && (forall i :: 0 <= i < |events| && events[i].StepNode? && events[i].n == n ==> dead <= events[i].a.skip)
  }

  lemma ReportedOn(v: Pending, w: Pending)
    requires SameRound(v, w) && AllReported(v)
    ensures AllReported(w)
  {
  }

  lemma UnreportedBefore(v: Pending, w: Pending, m: Node)
    requires SameRound(v, w) && Unreported(w, m)
    ensures Unreported(v, m)
  {
  }

  /** Once everybody has reported, a step of n on the view in force is not stuck. */
  lemma ReportedGoesOn(c: Cluster, states: seq<State>, events: seq<Event>, dead: set<Key>, n: Node, lo: nat, i: nat)
    requires IsMoving(c, states, events) && Unblocked(c, states, events, dead, n) && lo <= i < |events|
    requires AllReported(states[lo].view) && events[i].StepNode? && events[i].n == n && events[i].w == states[i].view
    ensures Unstuck(c, states[i], events[i])
  {
    hide NothingBlocked, Stuck;
    MovingKeeps(c, states, events, lo, i);
    ReportedOn(states[lo].view, states[i].view);
    assert Moves(c, states[i], events[i], states[i + 1]);
    assert n !in states[i].view.done;
    ReportedNotStuck(c, states[i], events[i].a, dead, n);
  }

  /** The run falls into stretches in each of which every participant not yet done steps. */
  ghost predicate FairRun(states: seq<State>, events: seq<Event>, cuts: seq<nat>)
  {
    && |states| == |events| + 1 && |cuts| > 0 && cuts[0] == 0
    && (forall j :: 0 <= j < |cuts| ==> cuts[j] <= |events|)
    && (forall j :: 0 <= j < |cuts| - 1 ==> cuts[j] <= cuts[j + 1] && FairFrom(states, events, cuts[j], cuts[j + 1]))
  }

  ghost predicate Lists(s: State, ns: seq<Node>) { forall m :: m in s.view.participants ==> m in ns }

  lemma {:induction false} CutsRise(states: seq<State>, events: seq<Event>, cuts: seq<nat>, i: nat, j: nat)
    requires FairRun(states, events, cuts) && i <= j < |cuts|
    ensures cuts[i] <= cuts[j]
    decreases j
  {
    hide FairFrom;
    if i < j {
      CutsRise(states, events, cuts, i, j - 1);
      assert FairFrom(states, events, cuts[j - 1], cuts[j]);
    }
  }

  lemma {:induction false} UnreportedWindows(c: Cluster, states: seq<State>, events: seq<Event>, cuts: seq<nat>, ns: seq<Node>, m: Node, j: nat)
    requires IsMoving(c, states, events) && FairRun(states, events, cuts) && Lists(states[0], ns) && j < |cuts|
    requires Unreported(states[cuts[j]].view, m)
    ensures j + FirstTotal(states[cuts[j]], ns) <= FirstTotal(states[0], ns)
  {
    hide IsMoving, FairFrom, FirstTotal, Unreported;
    if j > 0 {
      var lo, hi := cuts[j - 1], cuts[j];
      assert FairFrom(states, events, lo, hi);
      MovingKeeps(c, states, events, 0, lo);
      MovingKeeps(c, states, events, lo, hi);
      hide Working;
      UnreportedBefore(states[lo].view, states[hi].view, m);
      UnreportedWindows(c, states, events, cuts, ns, m, j - 1);
      UnreportedWindow(c, states, events, ns, m, lo, hi);
    }
  }

  lemma UnreportedWindow(c: Cluster, states: seq<State>, events: seq<Event>, ns: seq<Node>, m: Node, lo: nat, hi: nat)
    requires IsMoving(c, states, events) && lo <= hi <= |events| && FairFrom(states, events, lo, hi)
    requires Lists(states[0], ns) && Unreported(states[lo].view, m)
    ensures FirstTotal(states[hi], ns) < FirstTotal(states[lo], ns)
  {
    hide Moves, FirstTotal;
    MovingKeeps(c, states, events, 0, lo);
    hide Working, IsMoving;
    UnreportedDrops(c, states, events, ns, m, lo, lo, hi);
  }

  /** Every fair run, whatever packs come in: after as many stretches as there was to do in the
      first passes, everybody not done has reported. */
  lemma ReportedInTime(c: Cluster, states: seq<State>, events: seq<Event>, cuts: seq<nat>, ns: seq<Node>)
    requires IsMoving(c, states, events) && FairRun(states, events, cuts) && Lists(states[0], ns)
    requires FirstTotal(states[0], ns) < |cuts|
    ensures AllReported(states[cuts[FirstTotal(states[0], ns)]].view)
  {
    hide FairRun, FirstTotal, Moves, FirstOf;
    var k := FirstTotal(states[0], ns);
    CutInRange(states, events, cuts, k);
    var s := states[cuts[k]];
    forall m | m in s.view.participants && m !in s.view.done ensures m in s.view.primaryDone {
      if m !in s.view.primaryDone {
        UnreportedWindows(c, states, events, cuts, ns, m, k);
        MovingKeeps(c, states, events, 0, cuts[k]);
        hide Working;
        FirstTotalHas(s, m, ns);
        UnreportedHas(c, s, m);
      }
    }
  }

  lemma CutInRange(states: seq<State>, events: seq<Event>, cuts: seq<nat>, k: nat)
    requires FairRun(states, events, cuts) && k < |cuts|
    ensures cuts[k] <= |events| && |states| == |events| + 1
  {
  }

  lemma UnreportedHas(c: Cluster, s: State, m: Node)
    requires Working(c, s) && Unreported(s.view, m)
    ensures FirstOf(s, m) > 0
  {
    assert InStep(c, s, m);
    assert XferOk(c.l, m, s.locals[m], s.locals[m].xfers[s.view.round]);
  }

  /** A stretch that leaves n on its first pass leaves less of the first passes. */
  lemma FirstWindow(c: Cluster, states: seq<State>, events: seq<Event>, ns: seq<Node>, dead: set<Key>, n: Node, lo: nat, hi: nat)
    requires IsMoving(c, states, events) && Unblocked(c, states, events, dead, n) && Lists(states[0], ns)
    requires lo <= hi <= |events| && FairFrom(states, events, lo, hi) && !Covering(states[hi], n)
    ensures FirstTotal(states[hi], ns) < FirstTotal(states[lo], ns)
  {
    hide Moves, Unblocked, FirstTotal, Unstuck;
    MovingKeeps(c, states, events, 0, lo);
    MovingKeeps(c, states, events, lo, hi);
    hide Working;
    if m :| Unreported(states[lo].view, m) {
      UnreportedWindow(c, states, events, ns, m, lo, hi);
    } else {
      assert AllReported(states[lo].view) by {
        forall x | x in states[lo].view.participants && x !in states[lo].view.done ensures x in states[lo].view.primaryDone {
          assert !Unreported(states[lo].view, x);
        }
      }
      assert StepsIn(states, events, n, lo, hi);
      var i :| lo <= i < hi && events[i].StepNode? && events[i].n == n && events[i].w == states[i].view;
      ReportedGoesOn(c, states, events, dead, n, lo, i);
      if Covering(states[i], n) { CoverBetween(c, states, events, n, i, hi); }
      FirstDrops(c, states, events, ns, lo, i, hi);
    }
  }

  lemma {:induction false} FirstWindows(c: Cluster, states: seq<State>, events: seq<Event>, cuts: seq<nat>, ns: seq<Node>, dead: set<Key>,
                                        n: Node, j: nat)
    requires IsMoving(c, states, events) && FairRun(states, events, cuts) && Lists(states[0], ns)
    requires Unblocked(c, states, events, dead, n) && j < |cuts| && !Covering(states[cuts[j]], n)
    ensures j + FirstTotal(states[cuts[j]], ns) <= FirstTotal(states[0], ns)
  {
    hide IsMoving, Unblocked, FairFrom, FirstTotal, Covering, Lists;
    if j > 0 {
      var lo, hi := cuts[j - 1], cuts[j];
      assert FairFrom(states, events, lo, hi);
      if Covering(states[lo], n) { CoverBetween(c, states, events, n, lo, hi); }
      FirstWindows(c, states, events, cuts, ns, dead, n, j - 1);
      FirstWindow(c, states, events, ns, dead, n, lo, hi);
    }
  }

  /** By then, too, a participant whose packs are never blocked has begun its cover pass. */
  lemma FirstPassEnds(c: Cluster, states: seq<State>, events: seq<Event>, cuts: seq<nat>, ns: seq<Node>, dead: set<Key>, n: Node)
    requires IsMoving(c, states, events) && FairRun(states, events, cuts) && Lists(states[0], ns)
    requires Unblocked(c, states, events, dead, n) && FirstTotal(states[0], ns) < |cuts|
    ensures Covering(states[cuts[FirstTotal(states[0], ns)]], n)
  {
    hide FairRun, FirstTotal, Moves, Unblocked;
    var k := FirstTotal(states[0], ns);
    CutInRange(states, events, cuts, k);
    var s := states[cuts[k]];
    if !Covering(s, n) {
      FirstWindows(c, states, events, cuts, ns, dead, n, k);
      MovingKeeps(c, states, events, 0, cuts[k]);
      hide Working;
      FirstTotalHas(s, n, ns);
    }
  }

  /** A stretch of the cover pass leaves less of it, or n is done. */
  lemma CoverWindow(c: Cluster, states: seq<State>, events: seq<Event>, dead: set<Key>, n: Node, lo: nat, hi: nat)
    requires IsMoving(c, states, events) && Unblocked(c, states, events, dead, n)
    requires lo <= hi <= |events| && FairFrom(states, events, lo, hi) && Covering(states[lo], n) && AllReported(states[lo].view)
    requires n in states[lo].view.participants && n !in states[hi].view.done
    ensures CoverOf(states[hi], n) < CoverOf(states[lo], n)
  {
    hide Moves, Unblocked, CoverOf, Covering, FirstOf, Unstuck;
    assert StepsIn(states, events, n, lo, hi);
    var i :| lo <= i < hi && events[i].StepNode? && events[i].n == n && events[i].w == states[i].view;
    ReportedGoesOn(c, states, events, dead, n, lo, i);
    MovingKeeps(c, states, events, 0, i);
    CoverBetween(c, states, events, n, lo, i);
    hide Working;
    OwnMove(c, states[i], events[i], states[i + 1]);
    CoverBetween(c, states, events, n, i + 1, hi);
  }

  lemma {:induction false} CoverWindows(c: Cluster, states: seq<State>, events: seq<Event>, cuts: seq<nat>, dead: set<Key>, n: Node,
                                        k: nat, j: nat)
    requires IsMoving(c, states, events) && FairRun(states, events, cuts) && Unblocked(c, states, events, dead, n)
    requires k <= j < |cuts| && Covering(states[cuts[k]], n) && AllReported(states[cuts[k]].view)
    requires n in states[cuts[k]].view.participants && n !in states[cuts[j]].view.done
    ensures j - k + CoverOf(states[cuts[j]], n) <= CoverOf(states[cuts[k]], n)
    decreases j
  {
    hide IsMoving, Unblocked, FairFrom, CoverOf, Covering, AllReported;
    if k < j {
      var at, lo, hi := cuts[k], cuts[j - 1], cuts[j];
      CutsRise(states, events, cuts, k, j - 1);
      assert FairFrom(states, events, lo, hi);
      MovingKeeps(c, states, events, at, lo);
      MovingKeeps(c, states, events, lo, hi);
      hide Working;
      ReportedOn(states[at].view, states[lo].view);
      CoverBetween(c, states, events, n, at, lo);
      CoverWindows(c, states, events, cuts, dead, n, k, j - 1);
      CoverWindow(c, states, events, dead, n, lo, hi);
    }
  }

  /** In every fair run a participant whose packs are never blocked is done, even if no delay
      ever passes: after as many stretches as there was to do in the first passes it is on its
      cover pass, and after as many more as that has packs it is done.  Packs that come in
      meanwhile, however many, do not put that off. */
  lemma FairPassEnds(c: Cluster, states: seq<State>, events: seq<Event>, cuts: seq<nat>, ns: seq<Node>, dead: set<Key>, n: Node)
    requires IsMoving(c, states, events) && FairRun(states, events, cuts) && Lists(states[0], ns)
    requires Unblocked(c, states, events, dead, n) && n in states[0].view.participants
    requires FirstTotal(states[0], ns) < |cuts|
    ensures var k := FirstTotal(states[0], ns); var m := CoverOf(states[cuts[k]], n);
      Covering(states[cuts[k]], n) && (k + m < |cuts| ==> n in states[cuts[k + m]].view.done)
  {
    hide FairRun, FirstTotal, Moves, Unblocked, Covering, AllReported;
    var k := FirstTotal(states[0], ns);
    CutInRange(states, events, cuts, k);
    var m := CoverOf(states[cuts[k]], n);
    FirstPassEnds(c, states, events, cuts, ns, dead, n);
    ReportedInTime(c, states, events, cuts, ns);
    MovingKeeps(c, states, events, 0, cuts[k]);
    if k + m < |cuts| {
      CutInRange(states, events, cuts, k + m);
      MovingKeeps(c, states, events, 0, cuts[k + m]);
      hide Working;
      if n !in states[cuts[k + m]].view.done {
        CoverWindows(c, states, events, cuts, dead, n, k, k + m);
        GoingHasLeft(c, states[cuts[k + m]], n);
      }
    }
  }

  lemma GoingHasLeft(c: Cluster, s: State, n: Node)
    requires Working(c, s) && n in s.view.participants && n !in s.view.done
    ensures CoverOf(s, n) > 0
  {
    assert InStep(c, s, n);
  }

  // ---- runs that go on for ever ----

  ghost predicate MovesOn(c: Cluster, run: nat -> State, evs: nat -> Event)
  {
    Working(c, run(0)) && forall i: nat :: Moves(c, run(i), evs(i), run(i + 1))
  }

  ghost predicate StepsAt(run: nat -> State, evs: nat -> Event, n: Node, j: nat)
  {
    evs(j).StepNode? && evs(j).n == n && evs(j).w == run(j).view
  }

  /** From i on, n is done at some time or steps on the view in force. */
  ghost predicate StepsAgain(run: nat -> State, evs: nat -> Event, n: Node, i: nat)
  {
    exists j: nat :: j >= i && (n in run(j).view.done || StepsAt(run, evs, n, j))
  }

  /** Every participant that is never done steps again and again. */
  ghost predicate Fair(run: nat -> State, evs: nat -> Event)
  {
    forall n, i: nat {:trigger StepsAgain(run, evs, n, i)} :: n in run(0).view.participants ==> StepsAgain(run, evs, n, i)
  }

  lemma {:induction false} OnwardKeeps(c: Cluster, run: nat -> State, evs: nat -> Event, i: nat, j: nat)
    requires MovesOn(c, run, evs) && i <= j
    ensures Working(c, run(j)) && SameRound(run(i).view, run(j).view)
    decreases j
  {
    hide Working, Moves;
    if i < j {
      OnwardKeeps(c, run, evs, i, j - 1);
      MoveKeeps(c, run(j - 1), evs(j - 1), run(j));
    } else if j > 0 {
      OnwardKeeps(c, run, evs, j - 1, j - 1);
      MoveKeeps(c, run(j - 1), evs(j - 1), run(j));
    }
  }

  /** The first so many states and events from time at on. */
  ghost function StatesFrom(run: nat -> State, at: nat, len: nat): (r: seq<State>)
    ensures |r| == len + 1 && forall i :: 0 <= i <= len ==> r[i] == run(at + i)
  {
    seq(len + 1, (i: nat) => run(at + i))
  }

  ghost function EventsFrom(evs: nat -> Event, at: nat, len: nat): (r: seq<Event>)
    ensures |r| == len && forall i :: 0 <= i < len ==> r[i] == evs(at + i)
  {
    seq(len, (i: nat) => evs(at + i))
  }

  lemma MovesFor(c: Cluster, run: nat -> State, evs: nat -> Event, at: nat, len: nat)
    requires MovesOn(c, run, evs)
    ensures IsMoving(c, StatesFrom(run, at, len), EventsFrom(evs, at, len))
  {
    OnwardKeeps(c, run, evs, 0, at);
    hide Working, Moves;
    var states, events := StatesFrom(run, at, len), EventsFrom(evs, at, len);
    forall i | 0 <= i < |events| ensures Moves(c, states[i], events[i], states[i + 1]) {
      assert Moves(c, run(at + i), evs(at + i), run(at + i + 1));
    }
  }

  /** n is done by hi, or steps from lo up to hi. */
  ghost predicate Served(run: nat -> State, evs: nat -> Event, n: Node, lo: nat, hi: nat)
  {
    n in run(hi).view.done || exists i: nat :: lo <= i < hi && StepsAt(run, evs, n, i)
  }

  lemma ServedOn(c: Cluster, run: nat -> State, evs: nat -> Event, n: Node, lo: nat, hi: nat, later: nat)
    requires MovesOn(c, run, evs) && Served(run, evs, n, lo, hi) && lo <= hi <= later
    ensures Served(run, evs, n, lo, later)
  {
    OnwardKeeps(c, run, evs, hi, later);
  }

  /** A time by which all of ps are served. */
  lemma {:induction false} NextCut(c: Cluster, run: nat -> State, evs: nat -> Event, ps: set<Node>, lo: nat) returns (hi: nat)
    requires MovesOn(c, run, evs) && Fair(run, evs) && ps <= run(0).view.participants
    ensures lo <= hi && forall n :: n in ps ==> Served(run, evs, n, lo, hi)
    decreases |ps|
  {
    hide MovesOn, Served;
    hi := lo;
    if ps != {} {
      var n :| n in ps;
      var h := NextCut(c, run, evs, ps - {n}, lo);
      var g := ServedOnce(run, evs, n, lo);
      hi := if g > h then g else h;
      forall m | m in ps ensures Served(run, evs, m, lo, hi) {
        ServedOn(c, run, evs, m, lo, if m == n then g else h, hi);
      }
    }
  }

  lemma ServedOnce(run: nat -> State, evs: nat -> Event, n: Node, lo: nat) returns (hi: nat)
    requires Fair(run, evs) && n in run(0).view.participants
    ensures lo <= hi && Served(run, evs, n, lo, hi)
  {
    assert StepsAgain(run, evs, n, lo);
    var j: nat :| j >= lo && (n in run(j).view.done || StepsAt(run, evs, n, j));
    hi := if n in run(j).view.done then j else j + 1;
  }

  /** Stretches in each of which everybody is served. */
  ghost predicate GoodCuts(run: nat -> State, evs: nat -> Event, cuts: seq<nat>)
  {
    && |cuts| > 0 && cuts[0] == 0
    && forall j :: 0 <= j < |cuts| - 1 ==> cuts[j] <= cuts[j + 1] && AllServed(run, evs, cuts[j], cuts[j + 1])
  }

  ghost predicate AllServed(run: nat -> State, evs: nat -> Event, lo: nat, hi: nat)
  {
    forall n :: n in run(0).view.participants ==> Served(run, evs, n, lo, hi)
  }

  lemma {:induction false} MoreCuts(c: Cluster, run: nat -> State, evs: nat -> Event, cuts: seq<nat>, more: nat) returns (all: seq<nat>)
    requires MovesOn(c, run, evs) && Fair(run, evs) && GoodCuts(run, evs, cuts)
    ensures GoodCuts(run, evs, all) && |all| == |cuts| + more && all[..|cuts|] == cuts
    decreases more
  {
    hide MovesOn, Fair, Served;
    all := cuts;
    if more > 0 {
      all := MoreCuts(c, run, evs, cuts, more - 1);
      var last := all[|all| - 1];
      var hi := NextCut(c, run, evs, run(0).view.participants, last);
      assert AllServed(run, evs, last, hi);
      hide AllServed;
      var next := all + [hi];
      forall j | 0 <= j < |next| - 1 ensures next[j] <= next[j + 1] && AllServed(run, evs, next[j], next[j + 1]) {
        if j + 1 < |all| { assert next[j] == all[j] && next[j + 1] == all[j + 1]; }
      }
      assert next[..|cuts|] == all[..|cuts|];
      all := next;
    }
  }

  lemma {:induction false} CutsBelow(run: nat -> State, evs: nat -> Event, cuts: seq<nat>, i: nat, j: nat)
    requires GoodCuts(run, evs, cuts) && i <= j < |cuts|
    ensures cuts[i] <= cuts[j]
    decreases j
  {
    hide AllServed;
    if i < j { CutsBelow(run, evs, cuts, i, j - 1); }
  }

  lemma CutsAreFair(c: Cluster, run: nat -> State, evs: nat -> Event, cuts: seq<nat>)
    requires MovesOn(c, run, evs) && GoodCuts(run, evs, cuts)
    ensures var len := cuts[|cuts| - 1]; FairRun(StatesFrom(run, 0, len), EventsFrom(evs, 0, len), cuts)
  {
    var len := cuts[|cuts| - 1];
    var states, events := StatesFrom(run, 0, len), EventsFrom(evs, 0, len);
    hide MovesOn, Served;
    forall j | 0 <= j < |cuts| ensures cuts[j] <= len {
      CutsBelow(run, evs, cuts, j, |cuts| - 1);
    }
    forall j | 0 <= j < |cuts| - 1 ensures cuts[j] <= cuts[j + 1] && FairFrom(states, events, cuts[j], cuts[j + 1]) {
      assert AllServed(run, evs, cuts[j], cuts[j + 1]);
      OnwardKeeps(c, run, evs, 0, cuts[j]);
      ServedIsFair(run, evs, len, cuts[j], cuts[j + 1]);
    }
  }

  lemma ServedIsFair(run: nat -> State, evs: nat -> Event, len: nat, lo: nat, hi: nat)
    requires lo <= hi <= len && AllServed(run, evs, lo, hi) && run(lo).view.participants == run(0).view.participants
    ensures FairFrom(StatesFrom(run, 0, len), EventsFrom(evs, 0, len), lo, hi)
  {
    var states, events := StatesFrom(run, 0, len), EventsFrom(evs, 0, len);
    forall n | n in states[lo].view.participants && n !in states[hi].view.done ensures StepsIn(states, events, n, lo, hi) {
      assert Served(run, evs, n, lo, hi);
      var i: nat :| lo <= i < hi && StepsAt(run, evs, n, i);
      assert events[i] == evs(i) && states[i] == run(i);
    }
  }

  lemma {:induction false} Listing(ps: set<Node>) returns (ns: seq<Node>)
    ensures forall m :: m in ps ==> m in ns
  {
    ns := [];
    if ps != {} {
      var n :| n in ps;
      ns := Listing(ps - {n});
      ns := [n] + ns;
    }
  }

  /** Nothing n has to do is ever blocked, and what is dead stays skipped. */
  ghost predicate NeverBlocked(c: Cluster, run: nat -> State, evs: nat -> Event, dead: set<Key>, n: Node)
  {
    && (forall i: nat :: n in run(i).view.done || NothingBlocked(c, run(i), dead, n))
    && (forall i: nat :: evs(i).StepNode? && evs(i).n == n ==> dead <= evs(i).a.skip)
  }

  lemma UnblockedFor(c: Cluster, run: nat -> State, evs: nat -> Event, dead: set<Key>, n: Node, len: nat)
    requires NeverBlocked(c, run, evs, dead, n)
    ensures Unblocked(c, StatesFrom(run, 0, len), EventsFrom(evs, 0, len), dead, n)
  {
    hide NothingBlocked;
  }

  /** Every fair run, whatever packs come in and however long: a participant whose packs are
      never blocked is done at some time, even if no delay ever passes. */
  lemma FairRunEnds(c: Cluster, run: nat -> State, evs: nat -> Event, dead: set<Key>, n: Node) returns (at: nat)
    requires MovesOn(c, run, evs) && Fair(run, evs) && NeverBlocked(c, run, evs, dead, n) && n in run(0).view.participants
    ensures n in run(at).view.done
  {
    hide MovesOn, Fair, NeverBlocked, GoodCuts, FirstTotal, CoverOf, Unblocked, IsMoving, FairRun, Covering;
    var ns := Listing(run(0).view.participants);
    var k := FirstTotal(run(0), ns);
    var cuts := [0];
    assert GoodCuts(run, evs, [0]) by { OneCut(run, evs); }
    cuts := MoreCuts(c, run, evs, cuts, k);
    var m := CoverOf(run(cuts[k]), n);
    var all := MoreCuts(c, run, evs, cuts, m);
    assert all[k] == cuts[k];
    var len := all[|all| - 1];
    var states, events := StatesFrom(run, 0, len), EventsFrom(evs, 0, len);
    MovesFor(c, run, evs, 0, len);
    CutsAreFair(c, run, evs, all);
    UnblockedFor(c, run, evs, dead, n, len);
    CutInRange(states, events, all, k);
    CutInRange(states, events, all, k + m);
    assert states[0] == run(0) && states[all[k]] == run(all[k]) && states[all[k + m]] == run(all[k + m]);
    FairPassEnds(c, states, events, all, ns, dead, n);
    at := all[k + m];
  }

  lemma OneCut(run: nat -> State, evs: nat -> Event)
    ensures GoodCuts(run, evs, [0])
  {
  }

  lemma DoneStays(c: Cluster, run: nat -> State, evs: nat -> Event, n: Node, i: nat, j: nat)
    requires MovesOn(c, run, evs) && i <= j && n in run(i).view.done
    ensures n in run(j).view.done
  {
    OnwardKeeps(c, run, evs, i, j);
  }

  /** With nobody done unreported, nothing is ever blocked. */
  lemma ReportedUnblocks(c: Cluster, run: nat -> State, evs: nat -> Event, n: Node)
    requires MovesOn(c, run, evs) && DoneReported(run(0).view) && n in run(0).view.participants
    ensures NeverBlocked(c, run, evs, {}, n)
  {
    forall i: nat ensures n in run(i).view.done || NothingBlocked(c, run(i), {}, n) {
      OnwardKeeps(c, run, evs, 0, i);
      var v := run(i).view;
      forall m ensures !DoneUnreported(v, m) {
        assert DoneUnreported(v, m) <==> DoneUnreported(run(0).view, m);
      }
      if n !in v.done { assert InStep(c, run(i), n); }
    }
  }

  /** Every pass ends: where whoever counts as done has reported, every fair run comes to a time
      from which on every participant is done. */
  lemma EveryPassEnds(c: Cluster, run: nat -> State, evs: nat -> Event) returns (at: nat)
    requires MovesOn(c, run, evs) && Fair(run, evs) && DoneReported(run(0).view)
    ensures run(0).view.participants <= run(at).view.done
  {
    at := AllEnd(c, run, evs, run(0).view.participants);
  }

  lemma {:induction false} AllEnd(c: Cluster, run: nat -> State, evs: nat -> Event, ps: set<Node>) returns (at: nat)
    requires MovesOn(c, run, evs) && Fair(run, evs) && DoneReported(run(0).view) && ps <= run(0).view.participants
    ensures ps <= run(at).view.done
  {
    hide MovesOn, Fair, DoneReported, NeverBlocked;
    at := 0;
    if ps != {} {
      var n :| n in ps;
      var h := AllEnd(c, run, evs, ps - {n});
      ReportedUnblocks(c, run, evs, n);
      var g := FairRunEnds(c, run, evs, {}, n);
      at := if g > h then g else h;
      forall m | m in ps ensures m in run(at).view.done {
        DoneStays(c, run, evs, m, if m == n then g else h, at);
      }
    }
  }

  // ---- runs without waiting ----

  /** A step that is not stuck leaves less. */
  lemma ProductiveStep(c: Cluster, s: State, e: Event, t: State, ns: seq<Node>)
    requires Working(c, s) && Moves(c, s, e, t) && Unstuck(c, s, e) && e.n in ns
    ensures Total(t, ns) < Total(s, ns)
  {
    StepMoves(c, s, e, t);
    assert InStep(c, s, e.n);
    StepProgress(c.l, e.w, e.a, e.n, s.locals[e.n], e.segs);
    hide Step, LocalOk, Left, Stuck, Working, SameRound;
    TotalFalls(s, t, e.n, ns);
  }

  /** Steps that are not stuck, in whatever order, are at most as many as there was to do. */
  lemma {:induction false} UnstuckRunsAreShort(c: Cluster, states: seq<State>, events: seq<Event>, ns: seq<Node>, i: nat)
    requires IsMoving(c, states, events) && i <= |events| && Lists(states[0], ns)
    requires forall j :: 0 <= j < i ==> Unstuck(c, states[j], events[j])
    ensures i + Total(states[i], ns) <= Total(states[0], ns)
  {
    if i > 0 {
      hide Unstuck, InStep, Total;
      UnstuckRunsAreShort(c, states, events, ns, i - 1);
      MovingKeeps(c, states, events, 0, i - 1);
      assert Moves(c, states[i - 1], events[i - 1], states[i]);
      NoStep(c, states[i - 1], events[i - 1]);
      ProductiveStep(c, states[i - 1], events[i - 1], states[i], ns);
    }
  }

  // ---- a blocked pack is never done ----

  /** n has a pack to do whose live key k is blocked. */
  ghost predicate HasBlocked(c: Cluster, s: State, n: Node, p: Pack, k: Key)
  {
    && n in s.view.participants && n !in s.view.done && n in s.locals && s.view.round in s.locals[n].xfers
    && Todo(s.locals[n], s.locals[n].xfers[s.view.round], p) && k in s.locals[n].packs[p] && KeyBlocked(c.l, s.view, n, k)
  }

  /** While no delay passes and k stays alive for n. */
  ghost predicate NoWayOut(e: Event, n: Node, k: Key)
  {
    e.StepNode? && e.n == n ==> k !in e.a.skip && forall j: nat :: !e.a.waited(j)
  }

  lemma BlockedWaits(l: Layout, v: Pending, w: Pending, a: Around, n: Node, keys: seq<Key>, k: Key)
    requires k in keys && k !in a.skip && KeyBlocked(l, v, n, k) && (forall j: nat :: !a.waited(j))
    requires w.participants == v.participants && w.primaryDone <= v.primaryDone
    ensures MustWait(l, w, a, n, keys)
  {
    var m :| m in Above(l.owners(k), v.participants, n) && DoneUnreported(v, m);
    assert !Ready(l, w, a.waited, n, k);
  }

  /** A scan that meets a pack which has to wait neither does it nor ends the pass. */
  lemma {:induction false} ScanLeaves(l: Layout, v: Pending, a: Around, n: Node, s: Local, x: Xfer, segs: seq<Pack>, p: Pack)
    requires (forall q :: q in segs ==> q in s.packs) && Ascending(segs) && p in s.packs && MustWait(l, v, a, n, s.packs[p])
    requires Todo(s, x, p)
    ensures p !in Scan(l, v, a, n, s, x, segs).x.done
    ensures p in segs && p <= Limit(x) ==> !Scan(l, v, a, n, s, x, segs).allDone
    decreases |segs|
  {
    hide MustWait, VisitPack;
    if segs == [] || segs[0] > Limit(x) {
      assert forall i :: 0 < i < |segs| ==> segs[0] < segs[i];
    } else {
      assert segs == [segs[0]] + segs[1..];
      var q := segs[0];
      if Passed(x, q) {
        ScanLeaves(l, v, a, n, s, x, segs[1..], p);
      } else if MustWait(l, v, a, n, s.packs[q]) {
        VisitForwards(l, v, a, n, s, q);
        ScanLeaves(l, v, a, n, VisitPack(l, v, a, n, s, q), x.(deferred := x.deferred + {q}), segs[1..], p);
      }
    }
  }

  lemma BlockedStep(l: Layout, v: Pending, w: Pending, a: Around, n: Node, s: Local, segs: seq<Pack>, p: Pack, k: Key)
    requires LocalOk(l, n, s) && Segments(s, segs) && w.round in s.xfers && !s.xfers[w.round].finished
    requires Todo(s, s.xfers[w.round], p) && k in s.packs[p] && k !in a.skip && KeyBlocked(l, v, n, k)
      && (forall j: nat :: !a.waited(j))
    requires w.participants == v.participants && w.primaryDone <= v.primaryDone
    ensures var r := Step(l, w, a, n, s, segs);
      w.round in r.s.xfers && r.s.packs == s.packs && Todo(r.s, r.s.xfers[w.round], p) && !r.doneNow
  {
    var x := s.xfers[w.round];
    BlockedWaits(l, v, w, a, n, s.packs[p], k);
    ScanLeaves(l, w, a, n, s, x, segs, p);
    assert XferOk(l, n, s, x);
    ScanKeeps(l, w, a, n, s, x, segs);
    hide Scan, MustWait, Forwarded, KeyBlocked;
  }

  lemma BlockedMove(c: Cluster, s: State, e: Event, t: State, n: Node, p: Pack, k: Key)
    requires Working(c, s) && Moves(c, s, e, t) && HasBlocked(c, s, n, p, k) && NoWayOut(e, n, k)
    ensures HasBlocked(c, t, n, p, k)
  {
    MoveKeeps(c, s, e, t);
    BlockedOn(c.l, s.view, t.view, n, k);
    assert InStep(c, s, n);
    if e.StepNode? && e.n == n {
      BlockedStep(c.l, s.view, e.w, e.a, n, s.locals[n], e.segs, p, k);
      hide Step, LocalOk, KeyBlocked;
    } else {
      OthersReport(c, s, e, t, n);
      if e.StepNode? { StepMoves(c, s, e, t); }
      hide Step, KeyBlocked, Working;
      if e.AddPack? && e.n == n { assert p != e.p; }
    }
  }

  lemma BlockedOn(l: Layout, v: Pending, w: Pending, n: Node, k: Key)
    requires SameRound(v, w) && KeyBlocked(l, v, n, k)
    ensures KeyBlocked(l, w, n, k)
  {
    var m :| m in Above(l.owners(k), v.participants, n) && DoneUnreported(v, m);
    assert DoneUnreported(w, m);
  }

  /** The exception is exact: a participant with a blocked pack to do is never done, however the
      participants step, as long as no delay passes and the key stays alive. */
  lemma {:induction false} BlockedNeverDone(c: Cluster, states: seq<State>, events: seq<Event>, n: Node, p: Pack, k: Key, i: nat)
    requires IsMoving(c, states, events) && i < |states| && HasBlocked(c, states[0], n, p, k)
    requires forall j :: 0 <= j < |events| ==> NoWayOut(events[j], n, k)
    ensures n !in states[i].view.done && HasBlocked(c, states[i], n, p, k)
  {
    if i > 0 {
      BlockedNeverDone(c, states, events, n, p, k, i - 1);
      MovingKeeps(c, states, events, 0, i - 1);
      assert Moves(c, states[i - 1], events[i - 1], states[i]);
      hide Moves, Working, HasBlocked;
      BlockedMove(c, states[i - 1], events[i - 1], states[i], n, p, k);
      BlockedNotDone(c, states[i], n, p, k);
    }
  }

  lemma BlockedNotDone(c: Cluster, s: State, n: Node, p: Pack, k: Key)
    requires HasBlocked(c, s, n, p, k)
    ensures n !in s.view.done
  {
  }

  /** No delay passes for n, and it skips exactly what is dead. */
  ghost predicate NoDelay(evs: nat -> Event, n: Node, dead: set<Key>)
  {
    forall i: nat :: evs(i).StepNode? && evs(i).n == n ==> evs(i).a.skip == dead && forall j: nat :: !evs(i).a.waited(j)
  }

  /** So without delays it is exact: in a fair run a participant is done at some time if and only
      if it never has a pack to do with a live key that waits for a node done unreported. */
  lemma DoneIffNeverBlocked(c: Cluster, run: nat -> State, evs: nat -> Event, dead: set<Key>, n: Node)
    requires MovesOn(c, run, evs) && Fair(run, evs) && NoDelay(evs, n, dead) && n in run(0).view.participants
    ensures (exists i: nat :: n in run(i).view.done) <==>
            forall i: nat, p: Pack, k: Key :: k !in dead ==> !HasBlocked(c, run(i), n, p, k)
  {
    hide Fair, MovesOn;
    if i: nat, p: Pack, k: Key :| k !in dead && HasBlocked(c, run(i), n, p, k) {
      forall j: nat ensures n !in run(j).view.done {
        BlockedFrom(c, run, evs, dead, n, p, k, i, j);
      }
    } else {
      forall i: nat ensures n in run(i).view.done || NothingBlocked(c, run(i), dead, n) {
        OnwardKeeps(c, run, evs, 0, i);
        if n !in run(i).view.done { FreeAt(c, run(i), dead, n); }
      }
      var i := FairRunEnds(c, run, evs, dead, n);
    }
  }

  lemma FreeAt(c: Cluster, s: State, dead: set<Key>, n: Node)
    requires Working(c, s) && n in s.view.participants && n !in s.view.done
    requires forall p: Pack, k: Key :: k !in dead ==> !HasBlocked(c, s, n, p, k)
    ensures NothingBlocked(c, s, dead, n)
  {
    assert InStep(c, s, n);
    hide LocalOk, KeyBlocked;
    forall p | Todo(s.locals[n], s.locals[n].xfers[s.view.round], p)
      ensures !PackBlocked(c.l, s.view, dead, n, s.locals[n].packs[p])
    {
      forall k | k in s.locals[n].packs[p] && k !in dead ensures !KeyBlocked(c.l, s.view, n, k) {
        assert !HasBlocked(c, s, n, p, k);
      }
    }
  }

  lemma BlockedFrom(c: Cluster, run: nat -> State, evs: nat -> Event, dead: set<Key>, n: Node, p: Pack, k: Key, i: nat, j: nat)
    requires MovesOn(c, run, evs) && NoDelay(evs, n, dead) && k !in dead && HasBlocked(c, run(i), n, p, k)
    ensures n !in run(j).view.done
  {
    hide MovesOn, HasBlocked;
    BlockedNotDone(c, run(i), n, p, k);
    if j <= i {
      if n in run(j).view.done { DoneStays(c, run, evs, n, j, i); }
    } else {
      var states, events := StatesFrom(run, i, j - i), EventsFrom(evs, i, j - i);
      MovesFor(c, run, evs, i, j - i);
      assert states[0] == run(i) && states[j - i] == run(j);
      hide IsMoving;
      BlockedNeverDone(c, states, events, n, p, k, j - i);
    }
  }

  lemma KeyOfOneBlocked(v: Pending)
    requires v == Pending(1, true, {0, 1}, {0, 1, 2}, {1}, {0})
    ensures KeyBlocked(Three().l, v, 1, 7)
  {
    var o: seq<Node> := [0, 1];
    assert o[1..] == [1];
    assert Above(o, v.participants, 1) == [0];
    assert Position(o, v.participants, 1) == 2;
    assert DoneUnreported(v, 0);
    assert 0 in Above(Three().l.owners(7), v.participants, 1);
  }

  lemma ReachedOk(c: Cluster, s: State)
    requires Reached(c, s)
    ensures Transition.Inv(c, s)
  {
    var states, events :| Transition.IsRun(c, states, events) && s == states[|events|];
    RunInv(c, states, events, |events|);
  }

  /** A late report from an earlier round leads there: the state it leaves is one in which node 1
      is never done while no delay passes. */
  lemma StaleReportBlocksForGood(a: Around) returns (s: State)
    requires NoWaiting(a)
    ensures Reached(Three(), s) && Working(Three(), s) && HasBlocked(Three(), s, 1, 1, 7)
  {
    s := StaleReportBlocks(a);
    ReachedOk(Three(), s);
    KeyOfOneBlocked(s.view);
    hide Reached, LocalOk, Stuck, KeyBlocked;
  }
}
