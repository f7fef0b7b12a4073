/** One participant's pass over its packs in a placement transition (node/reconcile.go). */
module Pass {

  type Node = nat
  type Pack = nat
  type Key = nat

  /** Owners in ranking order, under the current placement and under the pending one. */
  datatype Layout = Layout(owners: Key -> seq<Node>, pending: Key -> seq<Node>)

  /** The pending change as a view carries it. */
  datatype Pending = Pending(round: nat, frozen: bool, participants: set<Node>, acks: set<Node>, primaryDone: set<Node>, done: set<Node>)

  /** A node's progress in one round. */
  datatype Xfer = Xfer(seal: Pack, done: set<Pack>, deferred: set<Pack>, primary: bool, cover: bool, seal2: Pack, finished: bool)

  datatype Offer = Offer(key: Key, target: Node)

  /** What the node keeps: its sealed packs, its passes by round, and what they did. */
  datatype Local = Local(
    packs: map<Pack, seq<Key>>, top: Pack,
    xfers: map<nat, Xfer>, firstSeal: Pack,
    offered: set<Offer>, relied: set<Offer>, skipped: set<Key>)

  /** What a visit finds around it: keys corrupt or proved dead, packs settled for the current
      placement, and the positions whose share of the delay has passed. */
  datatype Around = Around(skip: set<Key>, settled: set<Pack>, waited: nat -> bool)

  // ---- who forwards ----

  /** The participants ranked above self. */
  function Above(o: seq<Node>, parts: set<Node>, self: Node): (r: seq<Node>)
    ensures forall n :: n in r ==> n in o && n in parts && n != self
  {
    if o == [] then []
    else if o[0] !in parts then Above(o[1..], parts, self)
    else if o[0] == self then []
    else [o[0]] + Above(o[1..], parts, self)
  }

  function Position(o: seq<Node>, parts: set<Node>, self: Node): (pos: nat)
    ensures pos == 0 <==> self !in o || self !in parts
    ensures pos > 0 ==> pos == |Above(o, parts, self)| + 1
  {
    if o == [] then 0
    else if o[0] !in parts then Position(o[1..], parts, self)
    else if o[0] == self then 1
    else
      var p := Position(o[1..], parts, self);
      if p == 0 then 0 else p + 1
  }

  /** rankAmong: one loop over the owners. */
  method RankAmong(o: seq<Node>, self: Node, parts: set<Node>) returns (pos: nat, above: seq<Node>)
    ensures pos == Position(o, parts, self) && above == Above(o, parts, self)
  {
    above := [];
    var i := 0;
    assert o[0..] == o;
    while i < |o|
      invariant i <= |o|
      invariant Above(o, parts, self) == above + Above(o[i..], parts, self)
      invariant Position(o, parts, self) ==
                if Position(o[i..], parts, self) == 0 then 0 else |above| + Position(o[i..], parts, self)
    {
      assert o[i..][0] == o[i] && o[i..][1..] == o[i + 1..];
      if o[i] in parts {
        if o[i] == self {
          return |above| + 1, above;
        }
        above := above + [o[i]];
      }
      i := i + 1;
    }
    return 0, above;
  }

  predicate AllIn(s: seq<Node>, t: set<Node>) { forall n :: n in s ==> n in t }

  /** A key may be forwarded now: self ranks first or not at all, has waited its share, or
      everybody above has reported. */
  predicate Ready(l: Layout, v: Pending, waited: nat -> bool, self: Node, k: Key)
  {
    var pos := Position(l.owners(k), v.participants, self);
    pos <= 1 || waited(pos) || AllIn(Above(l.owners(k), v.participants, self), v.primaryDone)
  }

  /** n is a participating owner before self's first place. */
  ghost predicate RanksAbove(o: seq<Node>, parts: set<Node>, self: Node, n: Node)
  {
    exists i :: 0 <= i < |o| && o[i] == n && n in parts && n != self && (self in parts ==> forall j :: 0 <= j < i ==> o[j] != self)
  }

  lemma {:induction false} AboveIff(o: seq<Node>, parts: set<Node>, self: Node, n: Node)
    ensures n in Above(o, parts, self) <==> RanksAbove(o, parts, self, n)
  {
    if o != [] {
      AboveIff(o[1..], parts, self, n);
      var rest := o[1..];
      if RanksAbove(rest, parts, self, n) {
        var i :| 0 <= i < |rest| && rest[i] == n && n in parts && n != self && (self in parts ==> forall j :: 0 <= j < i ==> rest[j] != self);
        assert o[i + 1] == n;
        if !(o[0] == self && self in parts) {
          assert forall j :: 0 < j < i + 1 ==> o[j] == rest[j - 1];
          assert RanksAbove(o, parts, self, n);
        }
      }
      if RanksAbove(o, parts, self, n) {
        var i :| 0 <= i < |o| && o[i] == n && n in parts && n != self && (self in parts ==> forall j :: 0 <= j < i ==> o[j] != self);
        if i > 0 {
          assert rest[i - 1] == n;
          assert forall j :: 0 <= j < i - 1 ==> rest[j] == o[j + 1];
          assert RanksAbove(rest, parts, self, n);
        }
      }
    }
  }

  /** When a key may be forwarded, on the owners themselves: self is no participating owner, its
      share of the delay has passed, or every participating owner before it has reported. */
  lemma ReadyIff(l: Layout, v: Pending, waited: nat -> bool, self: Node, k: Key)
    ensures Ready(l, v, waited, self, k) <==>
      || self !in l.owners(k) || self !in v.participants
      || waited(Position(l.owners(k), v.participants, self))
      || forall n :: RanksAbove(l.owners(k), v.participants, self, n) ==> n in v.primaryDone
  {
    var o := l.owners(k);
    forall n ensures n in Above(o, v.participants, self) <==> RanksAbove(o, v.participants, self, n) {
      AboveIff(o, v.participants, self, n);
    }
    hide RanksAbove;
  }

  /** The nodes a key is offered to. */
  predicate Wants(l: Layout, self: Node, settled: bool, k: Key, t: Node)
  {
    t != self && if settled then t in l.pending(k) && t !in l.owners(k) else t in l.pending(k) || t in l.owners(k)
  }

  predicate Handled(l: Layout, v: Pending, a: Around, self: Node, k: Key)
  {
    k !in a.skip && Ready(l, v, a.waited, self, k)
  }

  /** Which keys of a pack are offered, and to whom. */
  lemma HandledMeans(l: Layout, v: Pending, a: Around, self: Node, settled: bool, k: Key, t: Node)
    ensures Handled(l, v, a, self, k) <==>
      && k !in a.skip
      && (|| self !in l.owners(k) || self !in v.participants
          || a.waited(Position(l.owners(k), v.participants, self))
          || forall n :: RanksAbove(l.owners(k), v.participants, self, n) ==> n in v.primaryDone)
    ensures Wants(l, self, settled, k, t) ==> t != self && (t in l.pending(k) || t in l.owners(k))
    ensures t != self && t in l.pending(k) && t !in l.owners(k) ==> Wants(l, self, settled, k, t)
    ensures t != self && t in l.owners(k) ==> (Wants(l, self, settled, k, t) <==> !settled)
  {
    ReadyIff(l, v, a.waited, self, k);
  }

  // ---- one pack ----

  function At(m: map<Node, seq<Key>>, t: Node): (ks: seq<Key>) { if t in m then m[t] else [] }

  /** byTarget holds, for each target, the handled keys it is to be offered. */
  ghost predicate Grouped(l: Layout, v: Pending, a: Around, self: Node, settled: bool, keys: seq<Key>, m: map<Node, seq<Key>>)
  {
    forall t: Node, k: Key ::
      k in At(m, t) <==> k in keys && Handled(l, v, a, self, k) && Wants(l, self, settled, k, t)
  }

  ghost predicate AddedFor(m0: map<Node, seq<Key>>, m: map<Node, seq<Key>>, k: Key, ts: set<Node>)
  {
    forall t: Node, x: Key :: x in At(m, t) <==> x in At(m0, t) || (x == k && t in ts)
  }

  function TargetSet(targets: seq<Node>, self: Node, except: seq<Node>): (r: set<Node>)
  {
    set t | t in targets && t != self && t !in except
  }

  /** Appends k for every target but self and the excepted. */
  method AddTargets(m0: map<Node, seq<Key>>, targets: seq<Node>, self: Node, k: Key, except: seq<Node>, once: bool)
    returns (m: map<Node, seq<Key>>)
    ensures AddedFor(m0, m, k, TargetSet(targets, self, except))
  {
    m := m0;
    var i := 0;
    hide AddedFor, TargetSet, At;
    assert AddedFor(m0, m, k, TargetSet([], self, except)) by { NoTargets(m0, k, self, except); }
    while i < |targets|
      invariant i <= |targets| && AddedFor(m0, m, k, TargetSet(targets[..i], self, except))
    {
      var t := targets[i];
      OneMoreTarget(targets, i, self, except);
      AddedStep(m0, m, k, TargetSet(targets[..i], self, except), t);
      if t != self && t !in except {
        if !(once && k in At(m, t)) {
          m := m[t := At(m, t) + [k]];
        }
      }
      i := i + 1;
    }
    assert targets[..i] == targets;
  }

  lemma NoTargets(m: map<Node, seq<Key>>, k: Key, self: Node, except: seq<Node>)
    ensures AddedFor(m, m, k, TargetSet([], self, except))
  {
  }

  lemma OneMoreTarget(targets: seq<Node>, i: nat, self: Node, except: seq<Node>)
    requires i < |targets|
    ensures TargetSet(targets[..i + 1], self, except) ==
            TargetSet(targets[..i], self, except) + if targets[i] != self && targets[i] !in except then {targets[i]} else {}
  {
    assert targets[..i + 1] == targets[..i] + [targets[i]];
  }

  lemma AddedStep(m0: map<Node, seq<Key>>, m: map<Node, seq<Key>>, k: Key, ts: set<Node>, t: Node)
    requires AddedFor(m0, m, k, ts)
    ensures AddedFor(m0, m[t := At(m, t) + [k]], k, ts + {t})
    ensures k in At(m, t) ==> AddedFor(m0, m, k, ts + {t})
    ensures AddedFor(m0, m, k, ts + {})
  {
    var n := m[t := At(m, t) + [k]];
    assert forall u: Node :: u != t ==> At(n, u) == At(m, u);
    assert At(n, t) == At(m, t) + [k];
  }

  /** The grouping loop of reconcilePack; deferred says whether some key must wait. */
  method GroupPack(l: Layout, v: Pending, a: Around, self: Node, settled: bool, keys: seq<Key>)
    returns (deferred: bool, m: map<Node, seq<Key>>)
    ensures Grouped(l, v, a, self, settled, keys, m)
    ensures deferred <==> MustWait(l, v, a, self, keys)
  {
    deferred, m := false, map[];
    var i := 0;
    hide Ready, Grouped;
    assert Grouped(l, v, a, self, settled, [], m) by { NothingGrouped(l, v, a, self, settled); }
    while i < |keys|
      invariant i <= |keys| && Grouped(l, v, a, self, settled, keys[..i], m)
      invariant deferred <==> MustWait(l, v, a, self, keys[..i])
    {
      var k := keys[i];
      ghost var more := keys[..i + 1];
      assert more == keys[..i] + [k];
      if k in a.skip {
        GroupedSkip(l, v, a, self, settled, keys, i, m);
      } else {
        var ready := IsReady(l, v, a, self, k);
        if ready {
          m := AddKey(l, v, a, self, settled, keys, i, m);
        } else {
          deferred := true;
          GroupedSkip(l, v, a, self, settled, keys, i, m);
        }
      }
      i := i + 1;
    }
    assert keys[..i] == keys;
  }

  /** Some key of the pack has to wait for the nodes above. */
  predicate MustWait(l: Layout, v: Pending, a: Around, self: Node, keys: seq<Key>)
  {
    exists k :: k in keys && k !in a.skip && !Ready(l, v, a.waited, self, k)
  }

  method IsReady(l: Layout, v: Pending, a: Around, self: Node, k: Key) returns (ready: bool)
    ensures ready == Ready(l, v, a.waited, self, k)
  {
    var pos, above := RankAmong(l.owners(k), self, v.participants);
    ready := pos == 0 || pos == 1;
    if !ready {
      ready := a.waited(pos);
    }
    if !ready {
      ready := true;
      var i := 0;
      while i < |above|
        invariant i <= |above| && (ready <==> AllIn(above[..i], v.primaryDone))
      {
        ghost var more := above[..i + 1];
        assert more == above[..i] + [above[i]];
        if above[i] !in v.primaryDone {
          ready := false;
        }
        i := i + 1;
      }
      assert above[..i] == above;
    }
  }

  method AddKey(l: Layout, ghost v: Pending, ghost a: Around, self: Node, settled: bool, keys: seq<Key>, i: nat, m0: map<Node, seq<Key>>)
    returns (m: map<Node, seq<Key>>)
    requires i < |keys| && Grouped(l, v, a, self, settled, keys[..i], m0)
    requires keys[i] !in a.skip && Ready(l, v, a.waited, self, keys[i])
    ensures Grouped(l, v, a, self, settled, keys[..i + 1], m)
  {
    hide Ready, Grouped, AddedFor, TargetSet;
    var k := keys[i];
    var m1 := AddTargets(m0, l.pending(k), self, k, if settled then l.owners(k) else [], false);
    m := m1;
    if !settled {
      m := AddTargets(m1, l.owners(k), self, k, [], true);
    }
    GroupedStep(l, v, a, self, settled, keys, i, m0, m1, m);
  }

  lemma NothingGrouped(l: Layout, v: Pending, a: Around, self: Node, settled: bool)
    ensures Grouped(l, v, a, self, settled, [], map[])
  {
  }

  lemma GroupedSkip(l: Layout, v: Pending, a: Around, self: Node, settled: bool, keys: seq<Key>, i: nat, m: map<Node, seq<Key>>)
    requires i < |keys| && Grouped(l, v, a, self, settled, keys[..i], m) && !Handled(l, v, a, self, keys[i])
    ensures Grouped(l, v, a, self, settled, keys[..i + 1], m)
  {
    hide Handled;
    var more := keys[..i + 1];
    assert more == keys[..i] + [keys[i]];
  }

  lemma GroupedStep(l: Layout, v: Pending, a: Around, self: Node, settled: bool, keys: seq<Key>, i: nat,
                    m0: map<Node, seq<Key>>, m1: map<Node, seq<Key>>, m: map<Node, seq<Key>>)
    requires i < |keys| && Grouped(l, v, a, self, settled, keys[..i], m0) && Handled(l, v, a, self, keys[i])
    requires AddedFor(m0, m1, keys[i], TargetSet(l.pending(keys[i]), self, if settled then l.owners(keys[i]) else []))
    requires settled ==> m == m1
    requires !settled ==> AddedFor(m1, m, keys[i], TargetSet(l.owners(keys[i]), self, []))
    ensures Grouped(l, v, a, self, settled, keys[..i + 1], m)
  {
    hide Handled;
    var k, more := keys[i], keys[..i + 1];
    assert more == keys[..i] + [k];
    forall t: Node, x: Key
      ensures x in At(m, t) <==> x in more && Handled(l, v, a, self, x) && Wants(l, self, settled, x, t)
    {
      assert x in At(m1, t) <==> x in At(m0, t) || (x == k && t in l.pending(k) && t != self && (settled ==> t !in l.owners(k)));
      assert x in At(m, t) <==> x in At(m1, t) || (!settled && x == k && t in l.owners(k) && t != self);
      assert x in At(m0, t) <==> x in keys[..i] && Handled(l, v, a, self, x) && Wants(l, self, settled, x, t);
    }
  }

  /** What a visit to a pack offers, and where it relies on the pack's stamp instead. */
  function Offers(l: Layout, v: Pending, a: Around, self: Node, settled: bool, keys: seq<Key>): (r: set<Offer>)
  {
    set k, t | k in keys && t in l.pending(k) + l.owners(k) && Handled(l, v, a, self, k) && Wants(l, self, settled, k, t) ::
      Offer(k, t)
  }

  function Reliance(l: Layout, v: Pending, a: Around, self: Node, settled: bool, keys: seq<Key>): (r: set<Offer>)
  {
    set k, t | k in keys && t in l.pending(k) && settled && t in l.owners(k) && t != self && Handled(l, v, a, self, k) ::
      Offer(k, t)
  }

  lemma OffersAre(l: Layout, v: Pending, a: Around, self: Node, settled: bool, keys: seq<Key>, o: Offer)
    ensures o in Offers(l, v, a, self, settled, keys) <==>
            o.key in keys && Handled(l, v, a, self, o.key) && Wants(l, self, settled, o.key, o.target)
    ensures o in Reliance(l, v, a, self, settled, keys) <==>
            && o.key in keys && Handled(l, v, a, self, o.key)
            && settled && o.target in l.pending(o.key) && o.target in l.owners(o.key) && o.target != self
  {
    hide Handled;
    assert o == Offer(o.key, o.target);
  }

  /** reconcilePack: groups the keys and offers each group to its target. */
  method ReconcilePack(l: Layout, v: Pending, a: Around, self: Node, settled: bool, keys: seq<Key>)
    returns (deferred: bool, offers: set<Offer>)
    ensures offers == Offers(l, v, a, self, settled, keys)
    ensures deferred <==> MustWait(l, v, a, self, keys)
  {
    var m;
    deferred, m := GroupPack(l, v, a, self, settled, keys);
    hide Handled, MustWait;
    offers := {};
    var todo := m.Keys;
    while todo != {}
      invariant todo <= m.Keys
      invariant forall o :: o in offers <==> o.target in m && o.target !in todo && o.key in m[o.target]
      decreases |todo|
    {
      var t :| t in todo;
      offers := offers + (set k | k in m[t] :: Offer(k, t));
      todo := todo - {t};
    }
    forall o: Offer
      ensures o in offers <==> o in Offers(l, v, a, self, settled, keys)
    {
      OffersAre(l, v, a, self, settled, keys, o);
      assert o in offers <==> o.key in At(m, o.target);
    }
  }

  function VisitPack(l: Layout, v: Pending, a: Around, self: Node, s: Local, p: Pack): (r: Local)
    requires p in s.packs
  {
    s.(offered := s.offered + Offers(l, v, a, self, p in a.settled, s.packs[p]),
       relied := s.relied + Reliance(l, v, a, self, p in a.settled, s.packs[p]),
       skipped := s.skipped + (set k | k in s.packs[p] && k in a.skip))
  }

  // ---- one step of the pass ----

  predicate Ascending(segs: seq<Pack>)
  {
    forall i, j :: 0 <= i < j < |segs| ==> segs[i] < segs[j]
  }

  /** The sealed packs in id order. */
  ghost predicate Segments(s: Local, segs: seq<Pack>)
  {
    Ascending(segs) && forall p :: p in segs <==> p in s.packs
  }

  function Limit(x: Xfer): (p: Pack) { if x.cover then x.seal2 else x.seal }

  predicate Passed(x: Xfer, p: Pack) { p in x.done || (x.cover && p <= x.seal) }

  datatype Scanned = Scanned(s: Local, x: Xfer, stopped: bool, allDone: bool)

  /** The loop over the packs: each one left is visited; the first that has nothing to wait for
      is done and ends the step. */
  function Scan(l: Layout, v: Pending, a: Around, self: Node, s: Local, x: Xfer, segs: seq<Pack>): (r: Scanned)
    requires forall p :: p in segs ==> p in s.packs
    decreases |segs|
  {
    if segs == [] || segs[0] > Limit(x) then Scanned(s, x, false, true)
    else if Passed(x, segs[0]) then Scan(l, v, a, self, s, x, segs[1..])
    else
      var s1 := VisitPack(l, v, a, self, s, segs[0]);
      if MustWait(l, v, a, self, s.packs[segs[0]]) then
        Scan(l, v, a, self, s1, x.(deferred := x.deferred + {segs[0]}), segs[1..]).(allDone := false)
      else
        Scanned(s1, x.(done := x.done + {segs[0]}, deferred := x.deferred - {segs[0]}), true, false)
  }

  datatype Stepped = Stepped(s: Local, primaryNow: bool, doneNow: bool)

  function Record(s: Local, round: nat, x: Xfer): (r: Local) { s.(xfers := s.xfers[round := x]) }

  /** transitionStep on an adopted round. */
  function Step(l: Layout, v: Pending, a: Around, self: Node, s: Local, segs: seq<Pack>): (r: Stepped)
    requires Segments(s, segs) && v.round in s.xfers
  {
    var sc := Scan(l, v, a, self, s, s.xfers[v.round], segs);
    if sc.stopped then Stepped(Record(sc.s, v.round, sc.x), false, false)
    else
      var x := sc.x.(primary := true);
      if !sc.allDone then Stepped(Record(sc.s, v.round, x), !sc.x.primary, false)
      else if !x.cover then Stepped(Record(sc.s, v.round, x.(cover := true, seal2 := s.top)), !sc.x.primary, false)
      else Stepped(Record(sc.s, v.round, x.(finished := true)), !sc.x.primary, true)
  }

  class Participant {
    const self: Node
    var packs: map<Pack, seq<Key>>
    var top: Pack
    var firstSeal: Pack
    var xfers: map<nat, Xfer>
    ghost var offered: set<Offer>
    ghost var relied: set<Offer>
    ghost var skipped: set<Key>

    constructor (self: Node)
      ensures this.self == self && Contents() == Local(map[], 0, map[], 0, {}, {}, {})
    {
      this.self := self;
      packs, top, firstSeal, xfers, offered, relied, skipped := map[], 0, 0, map[], {}, {}, {};
    }

    ghost function Contents(): (s: Local)
      reads this
    {
      Local(packs, top, xfers, firstSeal, offered, relied, skipped)
    }

    method Visit(l: Layout, v: Pending, a: Around, p: Pack) returns (deferred: bool)
      requires p in packs
      modifies this`offered, this`relied, this`skipped
      ensures Contents() == VisitPack(l, v, a, self, old(Contents()), p)
      ensures deferred <==> MustWait(l, v, a, self, packs[p])
    {
      var offers;
      deferred, offers := ReconcilePack(l, v, a, self, p in a.settled, packs[p]);
      hide Offers, Reliance, MustWait;
      offered := offered + offers;
      relied := relied + Reliance(l, v, a, self, p in a.settled, packs[p]);
      skipped := skipped + (set k | k in packs[p] && k in a.skip);
    }

    /** The loop over the packs. */
    method ScanPacks(l: Layout, v: Pending, a: Around, x0: Xfer, segs: seq<Pack>)
      returns (x: Xfer, stopped: bool, allDone: bool)
      requires forall p :: p in segs ==> p in packs
      modifies this`offered, this`relied, this`skipped
      ensures Scanned(Contents(), x, stopped, allDone) == Scan(l, v, a, self, old(Contents()), x0, segs)
    {
      x, allDone := x0, true;
      var limit := Limit(x);
      var i := 0;
      ghost var whole := Scan(l, v, a, self, Contents(), x, segs);
      assert segs[0..] == segs;
      hide VisitPack, MustWait;
      while i < |segs|
        invariant i <= |segs| && Limit(x) == limit
        invariant var sc := Scan(l, v, a, self, Contents(), x, segs[i..]); whole == sc.(allDone := sc.allDone && allDone)
      {
        var p := segs[i];
        assert p in segs;
        ghost var cur := segs[i..];
        assert cur[0] == p && cur[1..] == segs[i + 1..];
        if p > limit {
          return x, false, allDone;
        }
        if !Passed(x, p) {
          allDone := false;
          var deferred := Visit(l, v, a, p);
          if deferred {
            x := x.(deferred := x.deferred + {p});
          } else {
            x := x.(done := x.done + {p}, deferred := x.deferred - {p});
            return x, true, false;
          }
        }
        i := i + 1;
      }
      stopped := false;
    }

    /** transitionStep: at most one pack is finished per step. */
    method TransitionStep(l: Layout, v: Pending, a: Around, segs: seq<Pack>) returns (primaryNow: bool, doneNow: bool)
      requires Segments(Contents(), segs) && v.round in xfers
      modifies this`offered, this`relied, this`skipped, this`xfers
      ensures Stepped(Contents(), primaryNow, doneNow) == Step(l, v, a, self, old(Contents()), segs)
    {
      SegmentsHeld(Contents(), segs);
      var x, stopped, allDone := ScanPacks(l, v, a, xfers[v.round], segs);
      hide Scan, Segments;
      primaryNow, doneNow := false, false;
      if !stopped {
        primaryNow, x := !x.primary, x.(primary := true);
        if allDone {
          if !x.cover {
            x := x.(cover := true, seal2 := top);
          } else {
            x, doneNow := x.(finished := true), true;
          }
        }
      }
      xfers := xfers[v.round := x];
    }
  }

  lemma SegmentsHeld(s: Local, segs: seq<Pack>)
    requires Segments(s, segs)
    ensures forall p :: p in segs ==> p in s.packs
  {
  }
}

/** Forward before commit (node/reconcile.go, node/maintenance.go): in every run of a transition,
    with views seen late, re-freezes and lost reports, the change commits only after every
    participant offered what it held when it adopted the change. */
module Transition {

  import opened Pass

  // ---- what a pass has done ----

  /** Node n offered k to target t, or relied on the stamp that says owner t has it. */
  ghost predicate Sent(l: Layout, s: Local, k: Key, t: Node)
  {
    Offer(k, t) in s.offered || (Offer(k, t) in s.relied && t in l.owners(k))
  }

  /** Every live record of the pack was sent to each of its pending owners. */
  ghost predicate Forwarded(l: Layout, n: Node, s: Local, keys: seq<Key>)
  {
    forall k, t :: k in keys && k !in s.skipped && t in l.pending(k) && t != n ==> Sent(l, s, k, t)
  }

  ghost predicate XferOk(l: Layout, n: Node, s: Local, x: Xfer)
  {
    && s.firstSeal <= x.seal <= s.top && x.seal2 <= s.top
    && (forall p :: p in x.done ==> p in s.packs && Forwarded(l, n, s, s.packs[p]))
    && (x.cover ==> forall p :: p in s.packs && p <= x.seal ==> p in x.done)
    && (x.cover ==> x.primary) && (x.finished ==> x.cover)
  }

  ghost predicate LocalOk(l: Layout, n: Node, s: Local)
  {
    && (forall p :: p in s.packs ==> p <= s.top)
    && (forall r :: r in s.xfers ==> XferOk(l, n, s, s.xfers[r]))
  }

  ghost predicate Grown(s: Local, t: Local)
  {
    && t.packs == s.packs && t.top == s.top && t.firstSeal == s.firstSeal && t.xfers == s.xfers
    && s.offered <= t.offered && s.relied <= t.relied && s.skipped <= t.skipped
  }

  lemma ForwardedGrows(l: Layout, n: Node, s: Local, t: Local, keys: seq<Key>)
    requires Grown(s, t) && Forwarded(l, n, s, keys)
    ensures Forwarded(l, n, t, keys)
  {
    forall k, u | k in keys && k !in t.skipped && u in l.pending(k) && u != n
      ensures Sent(l, t, k, u)
    {
      assert Sent(l, s, k, u);
    }
  }

  lemma XferGrows(l: Layout, n: Node, s: Local, t: Local, x: Xfer)
    requires Grown(s, t) && XferOk(l, n, s, x)
    ensures XferOk(l, n, t, x)
  {
    hide Forwarded;
    forall p | p in x.done
      ensures p in t.packs && Forwarded(l, n, t, t.packs[p])
    {
      ForwardedGrows(l, n, s, t, s.packs[p]);
    }
  }

  /** A pack with nothing to wait for is forwarded whole. */
  lemma VisitForwards(l: Layout, v: Pending, a: Around, n: Node, s: Local, p: Pack)
    requires p in s.packs
    ensures Grown(s, VisitPack(l, v, a, n, s, p))
    ensures !MustWait(l, v, a, n, s.packs[p]) ==> Forwarded(l, n, VisitPack(l, v, a, n, s, p), s.packs[p])
  {
    hide Ready, Offers, Reliance;
    var t, keys, settled := VisitPack(l, v, a, n, s, p), s.packs[p], p in a.settled;
    if !MustWait(l, v, a, n, keys) {
      forall k, u | k in keys && k !in t.skipped && u in l.pending(k) && u != n
        ensures Sent(l, t, k, u)
      {
        assert Handled(l, v, a, n, k);
        OffersAre(l, v, a, n, settled, keys, Offer(k, u));
      }
    }
  }

  ghost predicate ScanOk(l: Layout, n: Node, s: Local, x: Xfer, segs: seq<Pack>, r: Scanned)
  {
    && Grown(s, r.s) && XferOk(l, n, r.s, r.x)
    && r.x == x.(done := r.x.done, deferred := r.x.deferred) && x.done <= r.x.done
    && (!r.stopped ==> r.x.done == x.done)
    && (r.stopped ==> !r.allDone && exists p :: p in segs && p <= Limit(x) && !Passed(x, p) && r.x.done == x.done + {p})
    && (r.allDone ==> forall p :: p in segs && p <= Limit(x) ==> Passed(x, p))
  }

  lemma {:induction false} ScanKeeps(l: Layout, v: Pending, a: Around, n: Node, s: Local, x: Xfer, segs: seq<Pack>)
    requires (forall p :: p in segs ==> p in s.packs) && XferOk(l, n, s, x) && Ascending(segs)
    ensures ScanOk(l, n, s, x, segs, Scan(l, v, a, n, s, x, segs))
    decreases |segs|
  {
    hide Forwarded, MustWait, VisitPack;
    if segs == [] || segs[0] > Limit(x) {
    } else {
      assert segs == [segs[0]] + segs[1..];
      var p := segs[0];
      if Passed(x, p) {
        ScanKeeps(l, v, a, n, s, x, segs[1..]);
      } else {
        var s1 := VisitPack(l, v, a, n, s, p);
        VisitForwards(l, v, a, n, s, p);
        XferGrows(l, n, s, s1, x);
        if MustWait(l, v, a, n, s.packs[p]) {
          ScanKeeps(l, v, a, n, s1, x.(deferred := x.deferred + {p}), segs[1..]);
        }
      }
    }
  }

  ghost predicate FinishedSome(s: Local)
  {
    exists r :: r in s.xfers && s.xfers[r].finished
  }

  lemma RecordKeeps(l: Layout, n: Node, s: Local, g: Local, round: nat, x: Xfer)
    requires LocalOk(l, n, s) && Grown(s, g) && XferOk(l, n, g, x)
    ensures LocalOk(l, n, Record(g, round, x))
    ensures XferOk(l, n, Record(g, round, x), x)
  {
    hide Forwarded;
    var t := Record(g, round, x);
    forall r | r in t.xfers
      ensures XferOk(l, n, t, t.xfers[r])
    {
      if r != round { XferGrows(l, n, s, g, s.xfers[r]); }
      XferMoves(l, n, g, t, t.xfers[r]);
    }
    XferMoves(l, n, g, t, x);
  }

  /** The record of a pass does not depend on the other passes. */
  lemma XferMoves(l: Layout, n: Node, g: Local, t: Local, x: Xfer)
    requires t == g.(xfers := t.xfers) && XferOk(l, n, g, x)
    ensures XferOk(l, n, t, x)
  {
    forall p | p in x.done
      ensures Forwarded(l, n, t, t.packs[p])
    {
      SameForwarded(l, n, g, t, g.packs[p]);
    }
  }

  lemma SameForwarded(l: Layout, n: Node, g: Local, t: Local, keys: seq<Key>)
    requires t == g.(xfers := t.xfers) && Forwarded(l, n, g, keys)
    ensures Forwarded(l, n, t, keys)
  {
    forall k, u | k in keys && k !in t.skipped && u in l.pending(k) && u != n
      ensures Sent(l, t, k, u)
    {
      assert Sent(l, g, k, u);
    }
  }

  lemma StepLocal(l: Layout, v: Pending, a: Around, n: Node, s: Local, segs: seq<Pack>)
    requires LocalOk(l, n, s) && Segments(s, segs) && v.round in s.xfers
    ensures LocalOk(l, n, Step(l, v, a, n, s, segs).s)
    ensures Step(l, v, a, n, s, segs).doneNow ==> FinishedSome(Step(l, v, a, n, s, segs).s)
    ensures FinishedSome(s) && !s.xfers[v.round].finished ==> FinishedSome(Step(l, v, a, n, s, segs).s)
    ensures Step(l, v, a, n, s, segs).s.firstSeal == s.firstSeal && Step(l, v, a, n, s, segs).s.xfers != map[]
  {
    var x := s.xfers[v.round];
    ScanKeeps(l, v, a, n, s, x, segs);
    var r := Step(l, v, a, n, s, segs);
    assert XferOk(l, n, Scan(l, v, a, n, s, x, segs).s, r.s.xfers[v.round]) by { StepXfer(l, v, a, n, s, segs); }
    hide Scan, Forwarded;
    RecordKeeps(l, n, s, Scan(l, v, a, n, s, x, segs).s, v.round, r.s.xfers[v.round]);
    if FinishedSome(s) && !x.finished {
      var q :| q in s.xfers && s.xfers[q].finished;
      assert q in r.s.xfers && r.s.xfers[q].finished;
    }
    if r.doneNow {
      assert r.s.xfers[v.round].finished;
    }
  }

  lemma StepXfer(l: Layout, v: Pending, a: Around, n: Node, s: Local, segs: seq<Pack>)
    requires LocalOk(l, n, s) && Segments(s, segs) && v.round in s.xfers
    requires ScanOk(l, n, s, s.xfers[v.round], segs, Scan(l, v, a, n, s, s.xfers[v.round], segs))
    ensures XferOk(l, n, Scan(l, v, a, n, s, s.xfers[v.round], segs).s, Step(l, v, a, n, s, segs).s.xfers[v.round])
  {
    hide Scan, Forwarded;
  }

  // ---- the cluster ----

  datatype Cluster = Cluster(l: Layout, members: set<Node>)

  datatype State = State(view: Pending, past: set<Pending>, locals: map<Node, Local>, committed: bool)

  datatype Event =
    | AddPack(n: Node, p: Pack, keys: seq<Key>)
    | Adopt(n: Node, w: Pending)
    | Ack(n: Node)
    | Freeze
    | Refreeze(force: bool)
    | StepNode(n: Node, w: Pending, a: Around, segs: seq<Pack>, reported: bool)
    | Commit

  predicate Published(s: State, w: Pending) { w == s.view || w in s.past }

  function NewXfer(s: Local): (x: Xfer) { Xfer(s.top, {}, {}, false, false, 0, false) }

  function Adopted(s: Local, round: nat): (t: Local)
  {
    s.(xfers := s.xfers[round := NewXfer(s)], firstSeal := if s.xfers == map[] then s.top else s.firstSeal)
  }

  /** Participants that reported stay; with force only those that finished. */
  function Remaining(v: Pending, force: bool): (r: set<Node>)
  {
    set n | n in v.participants && (n in v.done || (n in v.primaryDone && !force))
  }

  function Publish(s: State, w: Pending): (t: State)
  {
    s.(view := w, past := s.past + {s.view})
  }

  ghost predicate Enabled(c: Cluster, s: State, e: Event)
  {
    && !s.committed
    && match e
       case AddPack(n, p, _) => n in s.locals && p > s.locals[n].top
       case Adopt(n, w) => n in s.locals && Published(s, w) && w.round !in s.locals[n].xfers
       case Ack(n) => n in s.locals && s.locals[n].xfers != map[]
       case Freeze => !s.view.frozen
       case Refreeze(force) => s.view.frozen && (force || Remaining(s.view, force) != s.view.participants)
       case StepNode(n, w, a, segs, _) =>
         && n in s.locals && Published(s, w) && w.frozen && n in w.participants && n !in w.done
         && w.round in s.locals[n].xfers && !s.locals[n].xfers[w.round].finished && Segments(s.locals[n], segs)
       case Commit => s.view.frozen && s.view.participants <= s.view.done
  }

  /** What a node's CAS writes: it checks the change, not the round. */
  function Reported(v: Pending, n: Node, primaryNow: bool, doneNow: bool): (w: Pending)
  {
    v.(primaryDone := if primaryNow then v.primaryDone + {n} else v.primaryDone,
       done := if doneNow then v.done + {n} else v.done)
  }

  ghost function Effect(c: Cluster, s: State, e: Event): (t: State)
    requires Enabled(c, s, e)
  {
    match e
    case AddPack(n, p, keys) =>
      s.(locals := s.locals[n := s.locals[n].(packs := s.locals[n].packs[p := keys], top := p)])
    case Adopt(n, w) => s.(locals := s.locals[n := Adopted(s.locals[n], w.round)])
    case Ack(n) => Publish(s, s.view.(acks := s.view.acks + {n}))
    case Freeze => Publish(s, s.view.(frozen := true, participants := c.members * s.view.acks))
    case Refreeze(force) =>
      Publish(s, s.view.(round := s.view.round + 1, participants := Remaining(s.view, force), primaryDone := {}, done := {}))
    case StepNode(n, w, a, segs, reported) =>
      var r := Step(c.l, w, a, n, s.locals[n], segs);
      Publish(s.(locals := s.locals[n := r.s]), if reported then Reported(s.view, n, r.primaryNow, r.doneNow) else s.view)
    case Commit => s.(committed := true)
  }

  ghost predicate Init(c: Cluster, s: State)
  {
    && s.view == Pending(0, false, {}, {}, {}, {}) && s.past == {} && !s.committed
    && s.locals.Keys == c.members
    && forall n :: n in s.locals ==> LocalOk(c.l, n, s.locals[n]) && s.locals[n].xfers == map[]
  }

  ghost predicate ViewOk(s: State, w: Pending)
  {
    && (forall n :: n in w.done ==> n in s.locals && FinishedSome(s.locals[n]))
    && (forall n :: n in w.acks ==> n in s.locals && s.locals[n].xfers != map[])
    && w.participants <= w.acks
  }

  ghost predicate Inv(c: Cluster, s: State)
  {
    && (forall n :: n in s.locals ==> LocalOk(c.l, n, s.locals[n]))
    && (forall w :: Published(s, w) ==> ViewOk(s, w))
  }

  // ---- what every step keeps ----

  ghost predicate LocalSteps(l: Layout, n: Node, s: Local, t: Local)
  {
    && LocalOk(l, n, t)
    && (FinishedSome(s) ==> FinishedSome(t))
    && (s.xfers != map[] ==> t.xfers != map[] && t.firstSeal == s.firstSeal)
  }

  lemma AddPackLocal(l: Layout, n: Node, s: Local, p: Pack, keys: seq<Key>)
    requires LocalOk(l, n, s) && p > s.top
    ensures LocalSteps(l, n, s, s.(packs := s.packs[p := keys], top := p))
  {
    var t := s.(packs := s.packs[p := keys], top := p);
    forall r | r in t.xfers
      ensures XferOk(l, n, t, t.xfers[r])
    {
      var x := s.xfers[r];
      forall q | q in x.done
        ensures q in t.packs && Forwarded(l, n, t, t.packs[q])
      {
        assert q <= s.top;
        ForwardedElsewhere(l, n, s, t, s.packs[q]);
      }
    }
    if FinishedSome(s) {
      var q :| q in s.xfers && s.xfers[q].finished;
      assert q in t.xfers && t.xfers[q].finished;
    }
  }

  lemma ForwardedElsewhere(l: Layout, n: Node, s: Local, t: Local, keys: seq<Key>)
    requires t.offered == s.offered && t.relied == s.relied && t.skipped == s.skipped && Forwarded(l, n, s, keys)
    ensures Forwarded(l, n, t, keys)
  {
    forall k, u | k in keys && k !in t.skipped && u in l.pending(k) && u != n
      ensures Sent(l, t, k, u)
    {
      assert Sent(l, s, k, u);
    }
  }

  lemma AdoptLocal(l: Layout, n: Node, s: Local, round: nat)
    requires LocalOk(l, n, s) && round !in s.xfers
    ensures LocalSteps(l, n, s, Adopted(s, round)) && Adopted(s, round).xfers != map[]
  {
    var t := Adopted(s, round);
    assert round in t.xfers;
    forall r | r in t.xfers
      ensures XferOk(l, n, t, t.xfers[r])
    {
      if r != round {
        var x := s.xfers[r];
        forall q | q in x.done
          ensures Forwarded(l, n, t, t.packs[q])
        {
          ForwardedElsewhere(l, n, s, t, s.packs[q]);
        }
      }
    }
    if FinishedSome(s) {
      var q :| q in s.xfers && s.xfers[q].finished;
      assert q in t.xfers && t.xfers[q].finished;
    }
  }

  /** The node an event works at, and that node's new state. */
  lemma EventLocal(c: Cluster, s: State, e: Event, n: Node)
    requires Inv(c, s) && Enabled(c, s, e) && n in s.locals
    ensures n in Effect(c, s, e).locals && LocalSteps(c.l, n, s.locals[n], Effect(c, s, e).locals[n])
  {
    hide LocalOk, FinishedSome, Step, ViewOk;
    match e
    case AddPack(m, p, keys) => if m == n { AddPackLocal(c.l, n, s.locals[n], p, keys); }
    case Adopt(m, w) => if m == n { AdoptLocal(c.l, n, s.locals[n], w.round); }
    case StepNode(m, w, a, segs, _) => if m == n { StepLocal(c.l, w, a, n, s.locals[n], segs); }
    case _ =>
  }

  lemma ViewStays(c: Cluster, s: State, e: Event, w: Pending)
    requires Inv(c, s) && Enabled(c, s, e) && ViewOk(s, w)
    ensures ViewOk(Effect(c, s, e), w)
  {
    hide LocalOk, FinishedSome, Step;
    var t := Effect(c, s, e);
    forall n | n in w.done || n in w.acks
      ensures n in t.locals && (FinishedSome(s.locals[n]) ==> FinishedSome(t.locals[n]))
      ensures s.locals[n].xfers != map[] ==> t.locals[n].xfers != map[]
    {
      EventLocal(c, s, e, n);
    }
  }

  lemma NewView(c: Cluster, s: State, e: Event)
    requires Inv(c, s) && Enabled(c, s, e)
    ensures ViewOk(Effect(c, s, e), Effect(c, s, e).view)
  {
    var t := Effect(c, s, e);
    assert ViewOk(s, s.view) by { assert Published(s, s.view); }
    ViewStays(c, s, e, s.view);
    if e.StepNode? {
      StepLocal(c.l, e.w, e.a, e.n, s.locals[e.n], e.segs);
      assert ViewOk(s, e.w);
    }
    hide LocalOk, FinishedSome, Step, Inv;
  }

  lemma StepKeeps(c: Cluster, s: State, e: Event)
    requires Inv(c, s) && Enabled(c, s, e)
    ensures Inv(c, Effect(c, s, e))
  {
    hide LocalOk, FinishedSome, Step, ViewOk;
    var t := Effect(c, s, e);
    forall n | n in t.locals
      ensures LocalOk(c.l, n, t.locals[n])
    {
      assert n in s.locals;
      EventLocal(c, s, e, n);
    }
    forall w | Published(t, w)
      ensures ViewOk(t, w)
    {
      if w == t.view {
        NewView(c, s, e);
      } else {
        ViewStays(c, s, e, w);
      }
    }
  }

  // ---- whole runs ----

  ghost predicate IsRun(c: Cluster, states: seq<State>, events: seq<Event>)
  {
    && |states| == |events| + 1 && Init(c, states[0])
    && forall i :: 0 <= i < |events| ==> Enabled(c, states[i], events[i]) && states[i + 1] == Effect(c, states[i], events[i])
  }

  lemma {:induction false} RunInv(c: Cluster, states: seq<State>, events: seq<Event>, i: nat)
    requires IsRun(c, states, events) && i < |states|
    ensures Inv(c, states[i])
  {
    if i > 0 {
      RunInv(c, states, events, i - 1);
      hide Inv, Enabled, Effect, Init;
      StepKeeps(c, states[i - 1], events[i - 1]);
    }
  }

  /** What node n held when it first adopted the change: its packs up to the first seal. */
  ghost predicate HeldAtAdoption(s: Local, p: Pack)
  {
    p in s.packs && p <= s.firstSeal
  }

  lemma FinishedForwarded(l: Layout, n: Node, s: Local, p: Pack)
    requires LocalOk(l, n, s) && FinishedSome(s) && HeldAtAdoption(s, p)
    ensures Forwarded(l, n, s, s.packs[p])
  {
    hide Forwarded;
    var r :| r in s.xfers && s.xfers[r].finished;
    assert XferOk(l, n, s, s.xfers[r]);
    assert p in s.xfers[r].done;
  }

  /** When the change commits, every participant adopted it before the freeze and has sent every
      live record it then held to each of the record's pending owners. */
  lemma ForwardBeforeCommit(c: Cluster, states: seq<State>, events: seq<Event>, i: nat, n: Node, p: Pack)
    requires IsRun(c, states, events) && i < |events| && events[i] == Commit
    requires n in states[i].view.participants
    ensures n in states[i].locals && states[i].locals[n].xfers != map[]
    ensures HeldAtAdoption(states[i].locals[n], p) ==> Forwarded(c.l, n, states[i].locals[n], states[i].locals[n].packs[p])
  {
    var s := states[i];
    RunInv(c, states, events, i);
    assert Enabled(c, s, events[i]);
    assert Published(s, s.view);
    assert ViewOk(s, s.view);
    if HeldAtAdoption(s.locals[n], p) {
      FinishedForwarded(c.l, n, s.locals[n], p);
    }
  }

  /** The seal of the first adoption never changes, and packs are only added above it. */
  lemma {:induction false} FirstSealStays(c: Cluster, states: seq<State>, events: seq<Event>, i: nat, j: nat, n: Node)
    requires IsRun(c, states, events) && i <= j < |states| && n in states[i].locals && states[i].locals[n].xfers != map[]
    ensures n in states[j].locals && states[j].locals[n].xfers != map[]
    ensures states[j].locals[n].firstSeal == states[i].locals[n].firstSeal
    ensures forall p :: p in states[i].locals[n].packs ==>
              p in states[j].locals[n].packs && states[j].locals[n].packs[p] == states[i].locals[n].packs[p]
    decreases j - i
  {
    if i < j {
      RunInv(c, states, events, i);
      EventLocal(c, states[i], events[i], n);
      PacksStay(c, states[i], events[i], n);
      hide Inv, Enabled, Effect, Init;
      FirstSealStays(c, states, events, i + 1, j, n);
    }
  }

  lemma PacksStay(c: Cluster, s: State, e: Event, n: Node)
    requires Inv(c, s) && Enabled(c, s, e) && n in s.locals
    ensures n in Effect(c, s, e).locals
    ensures forall p :: p in s.locals[n].packs ==>
              p in Effect(c, s, e).locals[n].packs && Effect(c, s, e).locals[n].packs[p] == s.locals[n].packs[p]
  {
    if e.StepNode? && e.n == n {
      assert LocalOk(c.l, n, s.locals[n]);
      ScanKeeps(c.l, e.w, e.a, n, s.locals[n], s.locals[n].xfers[e.w.round], e.segs);
    } else if e.AddPack? && e.n == n {
      assert LocalOk(c.l, n, s.locals[n]);
    }
  }
}

/** The deferral rule does not deadlock: nodes acting on the view in force, with their reports
    written and no share of the delay ever passing, all finish, unless a node counts as done that
    never reported its primary keys in this round. */
module Deferral {

  import opened Pass
  import opened Transition

  /** What is left of a pass. */
  function Left(s: Local, x: Xfer): (m: nat)
  {
    |s.packs.Keys - x.done| +
    (if x.primary then 0 else 1) + (if x.cover then 0 else 1) + (if x.finished then 0 else 1)
  }

  /** A pack the pass still has to do. */
  predicate Remains(s: Local, x: Xfer, p: Pack)
  {
    p in s.packs && p <= Limit(x) && !Passed(x, p)
  }

  /** Reported, with packs left that all have to wait: a step changes nothing that matters. */
  ghost predicate Stuck(l: Layout, v: Pending, a: Around, n: Node, s: Local, x: Xfer)
  {
    && x.primary
    && (exists p :: Remains(s, x, p))
    && (forall p :: Remains(s, x, p) ==> MustWait(l, v, a, n, s.packs[p]))
  }

  ghost predicate Waits(l: Layout, v: Pending, a: Around, n: Node, s: Local, x: Xfer, segs: seq<Pack>)
  {
    forall p :: p in segs && Remains(s, x, p) ==> MustWait(l, v, a, n, s.packs[p])
  }

  /** The loop runs to its end exactly when every pack left has to wait. */
  lemma {:induction false} ScanStops(l: Layout, v: Pending, a: Around, n: Node, s: Local, x: Xfer, segs: seq<Pack>)
    requires (forall p :: p in segs ==> p in s.packs) && Ascending(segs)
    ensures !Scan(l, v, a, n, s, x, segs).stopped <==> Waits(l, v, a, n, s, x, segs)
    ensures Scan(l, v, a, n, s, x, segs).allDone <==> forall p :: p in segs ==> !Remains(s, x, p)
    decreases |segs|
  {
    hide MustWait, VisitPack;
    if segs == [] {
    } else if segs[0] > Limit(x) {
      assert forall i :: 0 < i < |segs| ==> segs[0] < segs[i];
    } else {
      assert segs == [segs[0]] + segs[1..];
      var p := segs[0];
      if Passed(x, p) {
        ScanStops(l, v, a, n, s, x, segs[1..]);
      } else if MustWait(l, v, a, n, s.packs[p]) {
        assert Remains(s, x, p);
        var s1, x1 := VisitPack(l, v, a, n, s, p), x.(deferred := x.deferred + {p});
        VisitForwards(l, v, a, n, s, p);
        ScanStops(l, v, a, n, s1, x1, segs[1..]);
        assert forall q :: Remains(s1, x1, q) <==> Remains(s, x, q);
      } else {
        assert Remains(s, x, p);
      }
    }
  }

  lemma OneLess(a: set<Pack>, d: set<Pack>, p: Pack)
    requires p in a && p !in d
    ensures |a - (d + {p})| == |a - d| - 1
  {
    assert a - d == (a - (d + {p})) + {p};
  }

  /** A step that is not stuck leaves less to do. */
  lemma StepProgress(l: Layout, v: Pending, a: Around, n: Node, s: Local, segs: seq<Pack>)
    requires LocalOk(l, n, s) && Segments(s, segs) && v.round in s.xfers && !s.xfers[v.round].finished
    requires !Stuck(l, v, a, n, s, s.xfers[v.round])
    ensures var t := Step(l, v, a, n, s, segs).s; v.round in t.xfers && Left(t, t.xfers[v.round]) < Left(s, s.xfers[v.round])
  {
    var x := s.xfers[v.round];
    var sc := Scan(l, v, a, n, s, x, segs);
    assert XferOk(l, n, s, x);
    ScanKeeps(l, v, a, n, s, x, segs);
    ScanStops(l, v, a, n, s, x, segs);
    hide Scan, MustWait, Forwarded, LocalOk;
    if sc.stopped {
      var p :| p in segs && p !in x.done && sc.x.done == x.done + {p};
      OneLess(s.packs.Keys, x.done, p);
    }
  }

  /** A stuck node waits for a participant that has not reported. */
  lemma StuckWaitsForOne(l: Layout, v: Pending, a: Around, n: Node, s: Local, x: Xfer) returns (m: Node)
    requires Stuck(l, v, a, n, s, x)
    ensures m in v.participants && m != n && m !in v.primaryDone
  {
    var p :| Remains(s, x, p);
    assert MustWait(l, v, a, n, s.packs[p]);
    var k :| k in s.packs[p] && k !in a.skip && !Ready(l, v, a.waited, n, k);
    var above := Above(l.owners(k), v.participants, n);
    m :| m in above && m !in v.primaryDone;
  }

  /** Every participant works on this round and its reports are in the view. */
  ghost predicate InStep(c: Cluster, s: State, n: Node)
  {
    && n in s.locals && s.view.round in s.locals[n].xfers && LocalOk(c.l, n, s.locals[n])
    && (s.locals[n].xfers[s.view.round].primary ==> n in s.view.primaryDone)
    && (s.locals[n].xfers[s.view.round].finished ==> n in s.view.done)
  }

  /** Whoever counts as done has reported its primary keys in this round. */
  ghost predicate DoneReported(v: Pending)
  {
    v.done * v.participants <= v.primaryDone
  }

  /** While somebody is not done, somebody not done can go on, whatever its visit finds. */
  lemma SomebodyCanGoOn(c: Cluster, s: State, a: Around, n: Node) returns (m: Node)
    requires (forall i :: i in s.view.participants ==> InStep(c, s, i)) && DoneReported(s.view)
    requires n in s.view.participants && n !in s.view.done
    ensures m in s.view.participants && m !in s.view.done && InStep(c, s, m)
    ensures !Stuck(c.l, s.view, a, m, s.locals[m], s.locals[m].xfers[s.view.round])
  {
    assert InStep(c, s, n);
    hide LocalOk;
    var x := s.locals[n].xfers[s.view.round];
    if Stuck(c.l, s.view, a, n, s.locals[n], x) {
      m := StuckWaitsForOne(c.l, s.view, a, n, s.locals[n], x);
      assert InStep(c, s, m);
    } else {
      m := n;
    }
  }

  lemma StepReports(l: Layout, v: Pending, a: Around, n: Node, s: Local, segs: seq<Pack>)
    requires LocalOk(l, n, s) && Segments(s, segs) && v.round in s.xfers && !s.xfers[v.round].finished
    ensures var r := Step(l, v, a, n, s, segs);
            && v.round in r.s.xfers
            && (r.s.xfers[v.round].primary ==> s.xfers[v.round].primary || r.primaryNow)
            && (r.s.xfers[v.round].finished <==> r.doneNow)
            && (r.doneNow ==> r.s.xfers[v.round].primary)
  {
    assert XferOk(l, n, s, s.xfers[v.round]);
    ScanKeeps(l, v, a, n, s, s.xfers[v.round], segs);
    hide Scan, LocalOk, XferOk;
  }

  ghost predicate AllInStep(c: Cluster, s: State)
  {
    && !s.committed && s.view.frozen && DoneReported(s.view)
    && forall n :: n in s.view.participants ==> InStep(c, s, n)
  }

  /** A step on the view in force, with its reports written. */
  ghost predicate Takes(c: Cluster, s: State, e: Event, t: State)
  {
    e.StepNode? && e.w == s.view && e.reported && Enabled(c, s, e) && t == Effect(c, s, e)
  }

  /** Counting as done only after reporting is what such steps keep. */
  lemma TakesKeeps(c: Cluster, s: State, e: Event, t: State)
    requires AllInStep(c, s) && Takes(c, s, e, t)
    ensures AllInStep(c, t) && t.view.participants == s.view.participants && t.view.round == s.view.round
  {
    var m := e.n;
    assert InStep(c, s, m);
    StepLocal(c.l, s.view, e.a, m, s.locals[m], e.segs);
    StepReports(c.l, s.view, e.a, m, s.locals[m], e.segs);
    hide LocalOk, Step;
    forall n | n in t.view.participants
      ensures InStep(c, t, n)
    {
      assert InStep(c, s, n);
    }
  }

  function LeftOf(s: State, n: Node): (m: nat)
  {
    if n in s.locals && s.view.round in s.locals[n].xfers then Left(s.locals[n], s.locals[n].xfers[s.view.round]) else 0
  }

  function Total(s: State, ns: seq<Node>): (m: nat)
  {
    if ns == [] then 0 else LeftOf(s, ns[0]) + Total(s, ns[1..])
  }

  lemma {:induction false} TotalFalls(s: State, t: State, m: Node, ns: seq<Node>)
    requires t.view.round == s.view.round && LeftOf(t, m) < LeftOf(s, m)
    requires forall n :: n != m ==> LeftOf(t, n) == LeftOf(s, n)
    ensures Total(t, ns) <= Total(s, ns) && (m in ns ==> Total(t, ns) < Total(s, ns))
  {
    if ns != [] {
      TotalFalls(s, t, m, ns[1..]);
      assert ns == [ns[0]] + ns[1..];
    }
  }

  lemma {:induction false} Largest(ps: set<Pack>) returns (p: Pack)
    requires ps != {}
    ensures p in ps && forall q :: q in ps ==> q <= p
  {
    var x :| x in ps;
    p := x;
    if ps != {x} {
      var q := Largest(ps - {x});
      if q > x { p := q; }
      assert forall r :: r in ps ==> r == x || r in ps - {x};
    }
  }

  lemma {:induction false} InOrder(ps: set<Pack>) returns (segs: seq<Pack>)
    ensures Ascending(segs) && forall p :: p in segs <==> p in ps
  {
    if ps == {} {
      segs := [];
    } else {
      var p := Largest(ps);
      var rest := InOrder(ps - {p});
      segs := rest + [p];
      assert forall i :: 0 <= i < |rest| ==> rest[i] in rest;
    }
  }

  ghost predicate Through(c: Cluster, states: seq<State>, events: seq<Event>)
  {
    && |states| == |events| + 1
    && forall i :: 0 <= i < |events| ==> Takes(c, states[i], events[i], states[i + 1])
  }

  lemma OneStep(c: Cluster, s: State, a: Around, n: Node) returns (e: Event, t: State)
    requires AllInStep(c, s) && n in s.view.participants && n !in s.view.done
    ensures Takes(c, s, e, t) && e.n in s.view.participants && t.view.round == s.view.round
    ensures LeftOf(t, e.n) < LeftOf(s, e.n) && forall i :: i != e.n ==> LeftOf(t, i) == LeftOf(s, i)
  {
    hide Step, Stuck, LocalOk;
    var m := SomebodyCanGoOn(c, s, a, n);
    var segs := InOrder(s.locals[m].packs.Keys);
    assert Segments(s.locals[m], segs);
    e := StepNode(m, s.view, a, segs, true);
    t := Effect(c, s, e);
    StepProgress(c.l, s.view, a, m, s.locals[m], segs);
  }

  /** From there some steps lead to every participant being done. */
  lemma {:induction false} PassCanEnd(c: Cluster, s: State, a: Around, ns: seq<Node>)
    returns (states: seq<State>, events: seq<Event>)
    requires AllInStep(c, s) && forall n :: n in s.view.participants ==> n in ns
    ensures Through(c, states, events) && states[0] == s && |events| <= Total(s, ns)
    ensures states[|events|].view.participants == s.view.participants <= states[|events|].view.done
    decreases Total(s, ns)
  {
    if s.view.participants <= s.view.done {
      states, events := [s], [];
    } else {
      var n :| n in s.view.participants && n !in s.view.done;
      hide AllInStep, Takes, Through, LeftOf;
      var e, t := OneStep(c, s, a, n);
      TakesKeeps(c, s, e, t);
      TotalFalls(s, t, e.n, ns);
      var more, rest := PassCanEnd(c, t, a, ns);
      states, events := [s] + more, [e] + rest;
      ThroughOne(c, s, e, t, more, rest);
    }
  }

  lemma ThroughOne(c: Cluster, s: State, e: Event, t: State, states: seq<State>, events: seq<Event>)
    requires Takes(c, s, e, t) && Through(c, states, events) && states[0] == t
    ensures Through(c, [s] + states, [e] + events)
    ensures |states| == |events| + 1 && ([s] + states)[|[e] + events|] == states[|events|]
  {
    hide Takes;
    var ss, es := [s] + states, [e] + events;
    forall i | 0 <= i < |es|
      ensures Takes(c, ss[i], es[i], ss[i + 1])
    {
      if i > 0 { assert Takes(c, states[i - 1], events[i - 1], states[i - 1 + 1]); }
    }
  }

  // ---- the exception ----

  /** Every key is owned by 0 and 1 in that order and moves to 2; node 1 holds one pack. */
  function Three(): (c: Cluster)
  {
    Cluster(Layout(k => [0, 1], k => [2]), {0, 1, 2})
  }

  function Empty(): (s: Local) { Local(map[], 0, map[], 0, {}, {}, {}) }

  function OnePack(): (s: Local) { Empty().(packs := map[1 := [7]], top := 1) }

  function Start(): (s: State)
  {
    State(Pending(0, false, {}, {}, {}, {}), {}, map[0 := Empty(), 1 := OnePack(), 2 := Empty()], false)
  }

  ghost predicate NoWaiting(a: Around)
  {
    7 !in a.skip && forall j: nat :: !a.waited(j)
  }

  ghost predicate Reached(c: Cluster, s: State)
  {
    exists states, events :: IsRun(c, states, events) && s == states[|events|]
  }

  lemma ReachedNext(c: Cluster, s: State, e: Event)
    requires Reached(c, s) && Enabled(c, s, e)
    ensures Reached(c, Effect(c, s, e))
  {
    hide Enabled, Effect, Init;
    var states, events :| IsRun(c, states, events) && s == states[|events|];
    var ss, es := states + [Effect(c, s, e)], events + [e];
    assert IsRun(c, ss, es) && ss[|es|] == Effect(c, s, e);
  }

  lemma StartReached()
    ensures Reached(Three(), Start())
  {
    var c, s := Three(), Start();
    assert s.locals.Keys == c.members;
    var es: seq<Event> := [];
    assert IsRun(c, [s], es) && [s][|es|] == s;
  }

  lemma OneWaits(v: Pending, a: Around)
    requires NoWaiting(a) && {0, 1} <= v.participants && 0 !in v.primaryDone
    ensures MustWait(Three().l, v, a, 1, [7])
  {
    var o := [0, 1];
    assert o[1..] == [1];
    assert Above(o, v.participants, 1) == [0];
    assert Position(o, v.participants, 1) == 2;
    assert 7 in [7] && !Ready(Three().l, v, a.waited, 1, 7);
  }

  /** Node 1 visits its pack, has to wait, and reports. */
  lemma OneStepsAndWaits(v: Pending, a: Around, s: Local)
    requires NoWaiting(a) && {0, 1} <= v.participants && 0 !in v.primaryDone
    requires s.packs == map[1 := [7]] && v.round in s.xfers && s.xfers[v.round] == NewXfer(OnePack())
    ensures Segments(s, [1])
    ensures var r := Step(Three().l, v, a, 1, s, [1]);
            && r.primaryNow && !r.doneNow && r.s.packs == s.packs && r.s.top == s.top && v.round in r.s.xfers
            && r.s.xfers[v.round] == NewXfer(OnePack()).(deferred := {1}, primary := true)
            && forall q :: q in s.xfers && q != v.round ==> q in r.s.xfers && r.s.xfers[q] == s.xfers[q]
  {
    OneWaits(v, a);
    hide VisitPack, MustWait;
    VisitForwards(Three().l, v, a, 1, s, 1);
    var x := s.xfers[v.round];
    var x1 := x.(deferred := {1});
    assert [1][1..] == [] && x.deferred + {1} == {1};
    assert Scan(Three().l, v, a, 1, VisitPack(Three().l, v, a, 1, s, 1), x1, []) ==
      Scanned(VisitPack(Three().l, v, a, 1, s, 1), x1, false, true);
    assert Scan(Three().l, v, a, 1, s, x, [1]) == Scanned(VisitPack(Three().l, v, a, 1, s, 1), x1, false, false);
  }

  lemma Adopting() returns (s: State)
    ensures Reached(Three(), s) && !s.committed && s.past == {}
    ensures s.view == Pending(0, false, {}, {}, {}, {}) && s.locals.Keys == {0, 1, 2}
    ensures forall n :: n in s.locals ==>
              s.locals[n] == Adopted(if n == 1 then OnePack() else Empty(), 0)
  {
    var c, v := Three(), Start().view;
    StartReached();
    hide Reached;
    ReachedNext(c, Start(), Adopt(0, v));
    var s1 := Effect(c, Start(), Adopt(0, v));
    ReachedNext(c, s1, Adopt(1, v));
    var s2 := Effect(c, s1, Adopt(1, v));
    ReachedNext(c, s2, Adopt(2, v));
    s := Effect(c, s2, Adopt(2, v));
  }

  lemma Freezing() returns (s: State)
    ensures Reached(Three(), s) && !s.committed
    ensures s.view == Pending(0, true, {0, 1, 2}, {0, 1, 2}, {}, {}) && s.locals.Keys == {0, 1, 2}
    ensures s.locals[0] == Adopted(Empty(), 0) && s.locals[1] == Adopted(OnePack(), 0)
  {
    hide Reached;
    var c := Three();
    var s0 := Adopting();
    assert forall n :: n in s0.locals ==> 0 in s0.locals[n].xfers;
    ReachedNext(c, s0, Ack(0));
    var s1 := Effect(c, s0, Ack(0));
    ReachedNext(c, s1, Ack(1));
    var s2 := Effect(c, s1, Ack(1));
    ReachedNext(c, s2, Ack(2));
    var s3 := Effect(c, s2, Ack(2));
    assert s3.view.acks == {0, 1, 2};
    ReachedNext(c, s3, Freeze);
    s := Effect(c, s3, Freeze);
    assert c.members * s3.view.acks == {0, 1, 2};
  }

  lemma Reporting(a: Around) returns (s: State, w: Pending)
    requires NoWaiting(a)
    ensures Reached(Three(), s) && !s.committed && w in s.past
    ensures w == Pending(0, true, {0, 1, 2}, {0, 1, 2}, {}, {})
    ensures s.view == w.(primaryDone := {0}) && s.locals.Keys == {0, 1, 2}
    ensures s.locals[0] == Adopted(Empty(), 0).(xfers := map[0 := Xfer(0, {}, {}, true, true, 0, false)])
    ensures s.locals[1] == Adopted(OnePack(), 0)
  {
    hide Reached;
    var c := Three();
    var s0 := Freezing();
    w := s0.view;
    var e0 := StepNode(0, w, a, [], true);
    assert Segments(s0.locals[0], []);
    ReachedNext(c, s0, e0);
    s := Effect(c, s0, e0);
  }

  lemma Refreezing(a: Around) returns (s: State, w: Pending)
    requires NoWaiting(a)
    ensures Reached(Three(), s) && !s.committed && w in s.past
    ensures w == Pending(0, true, {0, 1, 2}, {0, 1, 2}, {}, {})
    ensures s.view == Pending(1, true, {0, 1}, {0, 1, 2}, {}, {}) && s.locals.Keys == {0, 1, 2}
    ensures s.locals[0] == Adopted(Empty(), 0).(xfers := map[0 := Xfer(0, {}, {}, true, true, 0, false)])
    ensures s.locals[1].packs == map[1 := [7]] && s.locals[1].top == 1 && s.locals[1].xfers.Keys == {0}
  {
    hide Reached, Step;
    var c := Three();
    var s1;
    s1, w := Reporting(a);
    var e1 := StepNode(1, w, a, [1], true);
    OneStepsAndWaits(w, a, s1.locals[1]);
    ReachedNext(c, s1, e1);
    var s2 := Effect(c, s1, e1);
    assert s2.view == w.(primaryDone := {0, 1});
    assert Remaining(s2.view, false) == {0, 1};
    ReachedNext(c, s2, Refreeze(false));
    s := Effect(c, s2, Refreeze(false));
    assert s.locals[1].xfers.Keys == {0} by { StepRounds(w, a, s1.locals[1]); }
  }

  lemma StepRounds(v: Pending, a: Around, s: Local)
    requires Segments(s, [1]) && v.round in s.xfers && LocalOk(Three().l, 1, s)
    ensures Step(Three().l, v, a, 1, s, [1]).s.xfers.Keys == s.xfers.Keys
  {
    ScanKeeps(Three().l, v, a, 1, s, s.xfers[v.round], [1]);
    hide Scan;
  }

  lemma FinishingLate(a: Around) returns (s: State)
    requires NoWaiting(a)
    ensures Reached(Three(), s) && !s.committed && s.locals.Keys == {0, 1, 2}
    ensures s.view == Pending(1, true, {0, 1}, {0, 1, 2}, {}, {0})
    ensures s.locals[1].packs == map[1 := [7]] && s.locals[1].top == 1 && s.locals[1].xfers.Keys == {0}
  {
    hide Reached;
    var c := Three();
    var s0, w := Refreezing(a);
    var e0 := StepNode(0, w, a, [], true);
    assert Segments(s0.locals[0], []);
    ReachedNext(c, s0, e0);
    s := Effect(c, s0, e0);
  }

  /** Without that condition passes can block: a node that finished an earlier round on a view it
      had kept counts as done, never reports, and the node below it waits. */
  lemma StaleReportBlocks(a: Around) returns (s: State)
    requires NoWaiting(a)
    ensures Reached(Three(), s) && s.view.frozen && !(s.view.participants <= s.view.done) && !DoneReported(s.view)
    ensures forall n :: n in s.view.participants && n !in s.view.done ==>
              && n in s.locals && s.view.round in s.locals[n].xfers
              && Stuck(Three().l, s.view, a, n, s.locals[n], s.locals[n].xfers[s.view.round])
    ensures s.view == Pending(1, true, {0, 1}, {0, 1, 2}, {1}, {0}) && !s.committed && 1 in s.locals
    ensures s.locals[1].packs == map[1 := [7]] && 1 in s.locals[1].xfers
    ensures s.locals[1].xfers[1] == NewXfer(OnePack()).(deferred := {1}, primary := true)
  {
    hide Reached, Step;
    var c := Three();
    var s1 := FinishingLate(a);
    var v := s1.view;
    ReachedNext(c, s1, Adopt(1, v));
    var s2 := Effect(c, s1, Adopt(1, v));
    assert s2.locals[1].xfers[1] == NewXfer(OnePack());
    OneStepsAndWaits(v, a, s2.locals[1]);
    var e1 := StepNode(1, v, a, [1], true);
    ReachedNext(c, s2, e1);
    s := Effect(c, s2, e1);
    assert s.view == v.(primaryDone := {1});
    assert Stuck(c.l, s.view, a, 1, s.locals[1], s.locals[1].xfers[1]) by { LastStuck(s.view, a, s.locals[1]); }
  }

  lemma LastStuck(v: Pending, a: Around, s: Local)
    requires NoWaiting(a) && {0, 1} <= v.participants && 0 !in v.primaryDone && s.packs == map[1 := [7]]
    requires v.round in s.xfers && s.xfers[v.round] == NewXfer(OnePack()).(deferred := {1}, primary := true)
    ensures Stuck(Three().l, v, a, 1, s, s.xfers[v.round])
  {
    OneWaits(v, a);
    assert Remains(s, s.xfers[v.round], 1);
  }
}
