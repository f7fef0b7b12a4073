/** The distributed mark of a garbage collection (node/gc.go): workers that expand and
    deliver keys in counted batches, and a coordinator that polls for termination.

    Nodes 0 .. |ws|-2 are the workers that acked the barrier; the last index is the
    coordinator, one more sender.  A batch once sent may be delivered late, twice or
    never; its sender retries or gives up. */
module GcMark {

  type Key = nat
  type Node = nat

  /** What the mark works on: the object graph, who works on a key, who of the acked nodes
      owns it under the mark's placement, and what each node holds in sweepable packs. */
  datatype Env = Env(
    children: Key -> seq<Key>,
    leaf: Key -> bool,
    worker: Key -> Node,
    owners: Key -> set<Node>,
    eligible: seq<set<Key>>,
    roots: set<Key>)

  datatype Out = Out(keys: seq<Key>, expand: seq<Key>)

  datatype Batch = Batch(sender: Node, target: Node, seqNo: nat, keys: seq<Key>, expand: bool)

  /** Batches sent and received, the last number used per target, the last seen per sender. */
  datatype Counters = Counters(sent: nat, recv: nat, seqs: map<Node, nat>, seen: map<Node, nat>)

  /** One worker's mark state.  busy holds the keys taken from the queue and not finished;
      fetching says that the first of them was marked visited and is being read. */
  datatype Worker = Worker(
    queue: seq<Key>, busy: seq<Key>, fetching: bool,
    out: map<Node, Out>, ctr: Counters,
    marked: set<Key>, visited: set<Key>, forwarded: set<Key>, missing: bool,
    done: set<Key>)
  {
    predicate Idle() { queue == [] && busy == [] && out == map[] }
  }

  datatype State = State(ws: seq<Worker>, net: set<Batch>, accepted: set<Batch>)

  datatype Event =
    | Take(w: Node, n: nat)
    | Process(w: Node)
    | Fetch(w: Node, ok: bool)
    | Send(w: Node, t: Node, n: nat)
    | Refused(w: Node)
    | Close(w: Node, t: Node)
    | Receive(b: Batch)

  function SeqOf(w: Worker, t: Node): nat { if t in w.ctr.seqs then w.ctr.seqs[t] else 0 }

  predicate Fresh(w: Worker, b: Batch) { b.sender !in w.ctr.seen || b.seqNo > w.ctr.seen[b.sender] }

  ghost predicate Includes(a: map<Node, Out>, b: map<Node, Out>)
  {
    forall t, k :: t in a && t in b ==>
      (k in a[t].keys ==> k in b[t].keys) && (k in a[t].expand ==> k in b[t].expand)
  }

  function AddKeys(out: map<Node, Out>, to: set<Node>, k: Key): (r: map<Node, Out>)
    ensures r.Keys == out.Keys + to
    ensures Includes(out, r) && forall t :: t in to ==> k in r[t].keys
  {
    map t | t in out.Keys + to ::
      var o := if t in out then out[t] else Out([], []);
      if t in to then Out(o.keys + [k], o.expand) else o
  }

  function AddExpand(out: map<Node, Out>, t: Node, k: Key): (r: map<Node, Out>)
    ensures r.Keys == out.Keys + {t}
    ensures Includes(out, r) && k in r[t].expand
  {
    var o := if t in out then out[t] else Out([], []);
    out[t := Out(o.keys, o.expand + [k])]
  }

  /** deliver: queue k for every acked owner; the own copy is marked at once. */
  function Deliver(e: Env, w: Worker, self: Node, k: Key): (r: Worker)
    requires self < |e.eligible|
    ensures r.ctr == w.ctr
  {
    w.(out := AddKeys(w.out, e.owners(k) - {self}, k),
       marked := if self in e.owners(k) && k in e.eligible[self] then w.marked + {k} else w.marked,
       done := w.done + {k})
  }

  /** The rest of process: a leaf is finished, a key of another worker is forwarded once,
      an own interior key is visited once and then read. */
  function Route(e: Env, w: Worker, self: Node): (r: Worker)
    requires w.busy != []
    ensures r.ctr == w.ctr
  {
    var k := w.busy[0];
    if e.leaf(k) then w.(busy := w.busy[1..])
    else if e.worker(k) != self then
      if k in w.forwarded then w.(busy := w.busy[1..])
      else w.(forwarded := w.forwarded + {k}, out := AddExpand(w.out, e.worker(k), k), busy := w.busy[1..])
    else if k in w.visited then w.(busy := w.busy[1..])
    else w.(visited := w.visited + {k}, fetching := true)
  }

  /** process, up to the point where an interior object has to be read. */
  function ProcessKey(e: Env, w: Worker, self: Node): (r: Worker)
    requires w.busy != [] && self < |e.eligible|
    ensures r.ctr == w.ctr
  {
    Route(e, Deliver(e, w, self, w.busy[0]), self)
  }

  function FetchKey(e: Env, w: Worker, ok: bool): (r: Worker)
    requires w.busy != []
  {
    if ok then w.(queue := w.queue + e.children(w.busy[0]), busy := w.busy[1..], fetching := false)
    else w.(missing := true, busy := w.busy[1..], fetching := false)
  }

  /** The next batch for t: expansions first, then plain keys. */
  function NextBatch(w: Worker, self: Node, t: Node, n: nat): (r: (Worker, Batch))
    requires t in w.out
    requires if w.out[t].expand != [] then 0 < n <= |w.out[t].expand| else 0 < n <= |w.out[t].keys|
  {
    var o := w.out[t];
    var s := SeqOf(w, t) + 1;
    var w' := w.(ctr := w.ctr.(sent := w.ctr.sent + 1, seqs := w.ctr.seqs[t := s]));
    if o.expand != [] then
      (w'.(out := w.out[t := Out(o.keys, o.expand[n..])]), Batch(self, t, s, o.expand[..n], true))
    else
      (w'.(out := w.out[t := Out(o.keys[n..], [])]), Batch(self, t, s, o.keys[..n], false))
  }

  /** handleKeys on a batch not seen before. */
  function ReceiveBatch(e: Env, w: Worker, self: Node, b: Batch): (r: Worker)
    requires self < |e.eligible|
  {
    w.(ctr := w.ctr.(seen := w.ctr.seen[b.sender := b.seqNo], recv := w.ctr.recv + 1),
       marked := w.marked + (set k | k in b.keys && k in e.eligible[self]),
       queue := if b.expand then w.queue + b.keys else w.queue)
  }

  ghost predicate GoodEnv(e: Env, n: nat)
  {
    && |e.eligible| == n
    && (forall k :: e.worker(k) < n)
    && (forall k, o :: o in e.owners(k) ==> o < n)
  }

  ghost predicate Enabled(e: Env, s: State, a: Event)
  {
    var n := |s.ws| - 1;
    match a
    case Take(w, c) => w < n && s.ws[w].busy == [] && 0 < c <= |s.ws[w].queue|
    case Process(w) => w < n && s.ws[w].busy != [] && !s.ws[w].fetching
    case Fetch(w, _) => w < n && s.ws[w].busy != [] && s.ws[w].fetching
    case Send(w, t, c) => w <= n && t in s.ws[w].out && t < n
      && if s.ws[w].out[t].expand != [] then 0 < c <= |s.ws[w].out[t].expand| else 0 < c <= |s.ws[w].out[t].keys|
    case Refused(w) => w <= n
    case Close(w, t) => w <= n && t in s.ws[w].out && s.ws[w].out[t] == Out([], [])
    case Receive(b) => b in s.net && b.target < n && Fresh(s.ws[b.target], b)
  }

  ghost function Apply(e: Env, s: State, a: Event): (t: State)
    requires |s.ws| > 0 && GoodEnv(e, |s.ws| - 1) && Enabled(e, s, a)
  {
    match a
    case Take(w, c) =>
      s.(ws := s.ws[w := s.ws[w].(busy := s.ws[w].queue[..c], queue := s.ws[w].queue[c..])])
    case Process(w) => s.(ws := s.ws[w := ProcessKey(e, s.ws[w], w)])
    case Fetch(w, ok) => s.(ws := s.ws[w := FetchKey(e, s.ws[w], ok)])
    case Send(w, t, c) =>
      var r := NextBatch(s.ws[w], w, t, c);
      s.(ws := s.ws[w := r.0], net := s.net + {r.1})
    case Refused(w) => s.(ws := s.ws[w := s.ws[w].(missing := true)])
    case Close(w, t) => s.(ws := s.ws[w := s.ws[w].(out := s.ws[w].out - {t})])
    case Receive(b) =>
      s.(ws := s.ws[b.target := ReceiveBatch(e, s.ws[b.target], b.target, b)], accepted := s.accepted + {b})
  }

  /** k waits at worker i to be processed. */
  ghost predicate Holding(s: State, i: Node, k: Key)
  {
    i < |s.ws| && (k in s.ws[i].queue || k in s.ws[i].busy)
  }

  /** k waits at sender i to be forwarded to t for expansion. */
  ghost predicate Outgoing(s: State, i: Node, t: Node, k: Key)
  {
    i < |s.ws| && t in s.ws[i].out && k in s.ws[i].out[t].expand
  }

  /** k is in a batch that its target has not taken. */
  ghost predicate Flying(s: State, b: Batch, k: Key)
  {
    b in s.net && b !in s.accepted && k in b.keys
  }

  ghost predicate DoneAt(s: State, i: Node, k: Key)
  {
    i < |s.ws| && k in s.ws[i].done
  }

  ghost predicate BlankWorker(w: Worker)
  {
    && w.busy == [] && !w.fetching && w.ctr == Counters(0, 0, map[], map[])
    && w.marked == {} && w.visited == {} && w.forwarded == {} && !w.missing && w.done == {}
  }

  /** The start of the mark: the coordinator holds the roots, grouped by worker, except
      those its own worker already has in its queue. */
  ghost predicate Init(e: Env, s: State)
  {
    && |s.ws| > 1 && GoodEnv(e, |s.ws| - 1) && s.net == {} && s.accepted == {}
    && (forall i :: 0 <= i < |s.ws| ==> BlankWorker(s.ws[i]))
    && (forall i :: 0 <= i < |s.ws| - 1 ==> s.ws[i].out == map[])
    && s.ws[|s.ws| - 1].queue == []
    && (forall k :: k in e.roots ==>
          Outgoing(s, |s.ws| - 1, e.worker(k), k) || k in s.ws[e.worker(k)].queue)
  }

  // ---- counting ----

  function SumSent(ws: seq<Worker>): nat
  {
    if ws == [] then 0 else SumSent(ws[..|ws| - 1]) + ws[|ws| - 1].ctr.sent
  }

  function SumRecv(ws: seq<Worker>): nat
  {
    if ws == [] then 0 else SumRecv(ws[..|ws| - 1]) + ws[|ws| - 1].ctr.recv
  }

  lemma {:induction false} SumUpdate(ws: seq<Worker>, i: nat, w: Worker)
    requires i < |ws|
    ensures SumSent(ws[i := w]) == SumSent(ws) - ws[i].ctr.sent + w.ctr.sent
    ensures SumRecv(ws[i := w]) == SumRecv(ws) - ws[i].ctr.recv + w.ctr.recv
  {
    var k := |ws| - 1;
    if i < k {
      assert ws[i := w][..k] == ws[..k][i := w];
      SumUpdate(ws[..k], i, w);
    } else {
      assert ws[i := w][..k] == ws[..k];
    }
  }

  /** Counters that only rise and whose sums did not change did not change at all. */
  lemma {:induction false} EqualSums(a: seq<Worker>, b: seq<Worker>)
    requires |a| == |b| && forall i :: 0 <= i < |a| ==> a[i].ctr.sent <= b[i].ctr.sent && a[i].ctr.recv <= b[i].ctr.recv
    ensures SumSent(a) <= SumSent(b) && SumRecv(a) <= SumRecv(b)
    ensures SumSent(a) == SumSent(b) ==> forall i :: 0 <= i < |a| ==> a[i].ctr.sent == b[i].ctr.sent
    ensures SumRecv(a) == SumRecv(b) ==> forall i :: 0 <= i < |a| ==> a[i].ctr.recv == b[i].ctr.recv
  {
    if a != [] {
      var k := |a| - 1;
      EqualSums(a[..k], b[..k]);
      assert forall i :: 0 <= i < k ==> a[i] == a[..k][i] && b[i] == b[..k][i];
    }
  }

  ghost predicate Counted(s: State)
  {
    && s.accepted <= s.net
    && SumSent(s.ws) == |s.net| && SumRecv(s.ws) == |s.accepted|
  }

  ghost predicate Numbered(s: State)
  {
    && (forall b :: b in s.net ==>
          b.sender < |s.ws| && b.target < |s.ws| - 1 && b.seqNo <= SeqOf(s.ws[b.sender], b.target))
    && (forall b :: b in s.accepted ==> b.target < |s.ws| && !Fresh(s.ws[b.target], b))
  }

  ghost predicate Step(e: Env, s: State, a: Event, t: State)
  {
    |s.ws| > 1 && GoodEnv(e, |s.ws| - 1) && Enabled(e, s, a) && t == Apply(e, s, a)
  }

  ghost function ActorOf(a: Event): Node { if a.Receive? then a.b.target else a.w }

  /** What one step does, apart from the inside of process and fetch. */
  lemma StepShape(e: Env, s: State, a: Event, t: State)
    requires Step(e, s, a, t)
    ensures |t.ws| == |s.ws| && ActorOf(a) < |s.ws|
    ensures forall i :: 0 <= i < |s.ws| && i != ActorOf(a) ==> t.ws[i] == s.ws[i]
    ensures t.ws == s.ws[ActorOf(a) := t.ws[ActorOf(a)]]
    ensures !a.Send? ==> t.net == s.net
    ensures !a.Receive? ==> t.accepted == s.accepted
    ensures a.Process? ==> t.ws[a.w] == ProcessKey(e, s.ws[a.w], a.w)
    ensures a.Fetch? ==> t.ws[a.w] == FetchKey(e, s.ws[a.w], a.ok)
    ensures a.Receive? ==> t.ws[a.b.target] == ReceiveBatch(e, s.ws[a.b.target], a.b.target, a.b)
    ensures a.Receive? ==> t.accepted == s.accepted + {a.b}
    ensures a.Send? ==> t.ws[a.w] == NextBatch(s.ws[a.w], a.w, a.t, a.n).0
    ensures a.Send? ==> t.net == s.net + {NextBatch(s.ws[a.w], a.w, a.t, a.n).1}
  {
    hide ProcessKey, FetchKey, ReceiveBatch, NextBatch, GoodEnv;
  }

  /** Only a send raises sent, only a new batch raises recv. */
  lemma CountersOf(e: Env, s: State, a: Event, t: State)
    requires Step(e, s, a, t)
    ensures var c, c' := s.ws[ActorOf(a)].ctr, t.ws[ActorOf(a)].ctr;
      match a
      case Send(w, to, n) => c' == c.(sent := c.sent + 1, seqs := c.seqs[to := SeqOf(s.ws[w], to) + 1])
      case Receive(b) => c' == c.(recv := c.recv + 1, seen := c.seen[b.sender := b.seqNo])
      case _ => c' == c
  {
    StepShape(e, s, a, t);
    hide ProcessKey, Step;
  }

  /** A batch sent carries a number its target has not seen from this sender. */
  lemma NewBatchIsNew(e: Env, s: State, a: Event, t: State)
    requires Step(e, s, a, t) && Numbered(s) && a.Send?
    ensures NextBatch(s.ws[a.w], a.w, a.t, a.n).1 !in s.net
  {
  }

  lemma NewlyAccepted(e: Env, s: State, a: Event, t: State)
    requires Step(e, s, a, t) && Numbered(s) && a.Receive?
    ensures a.b in s.net && a.b !in s.accepted
  {
  }

  lemma NetCounts(e: Env, s: State, a: Event, t: State)
    requires Step(e, s, a, t) && Numbered(s) && s.accepted <= s.net
    ensures t.accepted <= t.net
    ensures |t.net| == if a.Send? then |s.net| + 1 else |s.net|
    ensures |t.accepted| == if a.Receive? then |s.accepted| + 1 else |s.accepted|
  {
    hide Step, Numbered, ProcessKey, FetchKey, ReceiveBatch, NextBatch;
    StepShape(e, s, a, t);
    if a.Send? {
      NewBatchIsNew(e, s, a, t);
    } else if a.Receive? {
      NewlyAccepted(e, s, a, t);
    }
  }

  lemma WsShape(e: Env, s: State, a: Event, t: State)
    requires Step(e, s, a, t)
    ensures |t.ws| == |s.ws| && ActorOf(a) < |s.ws| && t.ws == s.ws[ActorOf(a) := t.ws[ActorOf(a)]]
  {
    hide ProcessKey, FetchKey, ReceiveBatch, NextBatch, GoodEnv;
  }

  lemma CountedKept(e: Env, s: State, a: Event, t: State)
    requires Step(e, s, a, t) && Counted(s) && Numbered(s)
    ensures Counted(t)
  {
    hide Step, Numbered, SumSent, SumRecv;
    WsShape(e, s, a, t);
    CountersOf(e, s, a, t);
    NetCounts(e, s, a, t);
    SumUpdate(s.ws, ActorOf(a), t.ws[ActorOf(a)]);
  }

  lemma NumberedKept(e: Env, s: State, a: Event, t: State)
    requires Step(e, s, a, t) && Numbered(s)
    ensures Numbered(t)
  {
    StepShape(e, s, a, t);
    CountersOf(e, s, a, t);
    forall b | b in t.net
      ensures b.sender < |t.ws| && b.target < |t.ws| - 1 && b.seqNo <= SeqOf(t.ws[b.sender], b.target)
    {
      if b in s.net {
        assert SeqOf(s.ws[b.sender], b.target) <= SeqOf(t.ws[b.sender], b.target);
      }
    }
    hide Step, ProcessKey, FetchKey, ReceiveBatch, NextBatch;
    forall b | b in t.accepted ensures b.target < |t.ws| && !Fresh(t.ws[b.target], b) {
    }
  }

  // ---- what is still to do ----

  /** k is on its way to be expanded by its worker, or the worker has taken it up. */
  ghost predicate Routed(e: Env, s: State, k: Key)
  {
    || Holding(s, e.worker(k), k)
    || DoneAt(s, e.worker(k), k)
    || (exists i :: Outgoing(s, i, e.worker(k), k))
    || (exists b :: Flying(s, b, k) && b.expand && b.target == e.worker(k))
  }

  /** k is queued somewhere, or was processed somewhere. */
  ghost predicate Covered(e: Env, s: State, k: Key)
  {
    || (exists i :: Holding(s, i, k))
    || (exists i :: DoneAt(s, i, k))
    || Routed(e, s, k)
  }

  /** The owner o has k marked, cannot sweep it, or will hear of it from i. */
  ghost predicate Paid(e: Env, s: State, i: Node, k: Key, o: Node)
    requires i < |s.ws| && o < |e.eligible| && o < |s.ws|
  {
    || k !in e.eligible[o]
    || k in s.ws[o].marked
    || (o in s.ws[i].out && k in s.ws[i].out[o].keys)
    || (exists b :: Flying(s, b, k) && b.target == o)
  }

  ghost predicate Expanded(e: Env, s: State, i: Node, k: Key)
    requires i < |s.ws|
  {
    || (s.ws[i].fetching && s.ws[i].busy != [] && s.ws[i].busy[0] == k)
    || s.ws[i].missing
    || (forall c :: c in e.children(k) ==> Covered(e, s, c))
  }

  ghost predicate RootsOk(e: Env, s: State)
  {
    forall k :: k in e.roots ==> Covered(e, s, k)
  }

  ghost predicate ForwardsOk(e: Env, s: State)
  {
    forall i, k :: 0 <= i < |s.ws| && k in s.ws[i].forwarded ==> Routed(e, s, k)
  }

  ghost predicate OwnersOk(e: Env, s: State)
  {
    forall i, k, o :: 0 <= i < |s.ws| && k in s.ws[i].done && o in e.owners(k) && o < |e.eligible| && o < |s.ws| ==>
      Paid(e, s, i, k, o)
  }

  ghost predicate ExpandsOk(e: Env, s: State)
  {
    forall i, k :: 0 <= i < |s.ws| && k in s.ws[i].visited ==> Expanded(e, s, i, k)
  }

  ghost predicate DoneOk(e: Env, s: State)
  {
    forall i, k :: 0 <= i < |s.ws| && k in s.ws[i].done && !e.leaf(k) ==>
      if e.worker(k) == i then k in s.ws[i].visited else k in s.ws[i].forwarded
  }

  ghost predicate FetchingOk(s: State)
  {
    forall i :: 0 <= i < |s.ws| && s.ws[i].fetching ==>
      s.ws[i].busy != [] && s.ws[i].busy[0] in s.ws[i].done
  }

  ghost predicate Inv(e: Env, s: State)
  {
    && |s.ws| > 1 && GoodEnv(e, |s.ws| - 1)
    && Counted(s) && Numbered(s)
    && RootsOk(e, s) && ForwardsOk(e, s) && OwnersOk(e, s) && ExpandsOk(e, s) && DoneOk(e, s) && FetchingOk(s)
  }

  lemma HoldingMoves(e: Env, s: State, a: Event, t: State, i: Node, k: Key)
    requires Step(e, s, a, t) && FetchingOk(s) && Holding(s, i, k)
    ensures Holding(t, i, k) || DoneAt(t, i, k)
  {
    StepShape(e, s, a, t);
    var w := s.ws[i];
    if a.Take? && a.w == i {
      assert w.queue == w.queue[..a.n] + w.queue[a.n..];
    } else if (a.Process? || a.Fetch?) && a.w == i && k in w.busy && k != w.busy[0] {
      assert w.busy == [w.busy[0]] + w.busy[1..];
    }
  }

  /** done and marked only grow, and so does missing. */
  lemma Monotone(e: Env, s: State, a: Event, t: State, i: Node)
    requires Step(e, s, a, t) && i < |s.ws|
    ensures i < |t.ws| && s.ws[i].done <= t.ws[i].done && s.ws[i].marked <= t.ws[i].marked
    ensures s.ws[i].missing ==> t.ws[i].missing
    ensures s.ws[i].ctr.sent <= t.ws[i].ctr.sent && s.ws[i].ctr.recv <= t.ws[i].ctr.recv
  {
    StepShape(e, s, a, t);
  }

  /** Processing a key only adds to the outgoing lists, and pays every owner. */
  lemma ProcessOut(e: Env, w: Worker, self: Node)
    requires w.busy != [] && self < |e.eligible|
    ensures var w' := ProcessKey(e, w, self);
      && w'.done == w.done + {w.busy[0]}
      && w.out.Keys <= w'.out.Keys && Includes(w.out, w'.out)
      && (forall o :: o in e.owners(w.busy[0]) && o != self ==> o in w'.out && w.busy[0] in w'.out[o].keys)
      && (self in e.owners(w.busy[0]) && w.busy[0] in e.eligible[self] ==> w.busy[0] in w'.marked)
      && (forall k :: k in w'.forwarded && k !in w.forwarded ==>
            e.worker(k) in w'.out && k in w'.out[e.worker(k)].expand)
  {
    hide AddKeys, AddExpand;
  }

  lemma OutgoingMoves(e: Env, s: State, a: Event, t: State, i: Node, to: Node, k: Key)
    requires Step(e, s, a, t) && Numbered(s) && Counted(s) && Outgoing(s, i, to, k)
    ensures Outgoing(t, i, to, k) || exists b :: Flying(t, b, k) && b.expand && b.target == to
  {
    StepShape(e, s, a, t);
    var w := s.ws[i];
    if a.Process? && a.w == i {
      ProcessOut(e, w, i);
    } else if a.Send? && a.w == i && a.t == to {
      hide Step;
      SendSplits(s, t, i, to, a.n, k);
    }
  }

  /** A key taken out of an outgoing list flies in the batch sent. */
  lemma SendSplits(s: State, t: State, i: Node, to: Node, n: nat, k: Key)
    requires i < |s.ws| && to in s.ws[i].out && i < |t.ws| && Numbered(s) && Counted(s)
    requires var o := s.ws[i].out[to]; if o.expand != [] then 0 < n <= |o.expand| else 0 < n <= |o.keys|
    requires var r := NextBatch(s.ws[i], i, to, n);
      t.ws[i] == r.0 && t.net == s.net + {r.1} && t.accepted == s.accepted
    ensures k in s.ws[i].out[to].expand ==>
      Outgoing(t, i, to, k) || exists b :: Flying(t, b, k) && b.expand && b.target == to
    ensures k in s.ws[i].out[to].keys ==>
      (to in t.ws[i].out && k in t.ws[i].out[to].keys) || exists b :: Flying(t, b, k) && b.target == to
  {
    var o := s.ws[i].out[to];
    var b := NextBatch(s.ws[i], i, to, n).1;
    assert b !in s.net;
    if o.expand != [] {
      assert o.expand == o.expand[..n] + o.expand[n..];
      assert k in o.expand[..n] ==> Flying(t, b, k);
    } else {
      assert o.keys == o.keys[..n] + o.keys[n..];
      assert k in o.keys[..n] ==> Flying(t, b, k);
    }
  }

  lemma FlyingMoves(e: Env, s: State, a: Event, t: State, b: Batch, k: Key)
    requires Step(e, s, a, t) && Flying(s, b, k)
    ensures Flying(t, b, k) || a == Receive(b)
    ensures a == Receive(b) ==>
      && b.target < |e.eligible|
      && (k in e.eligible[b.target] ==> k in t.ws[b.target].marked)
      && (b.expand ==> Holding(t, b.target, k))
  {
    StepShape(e, s, a, t);
  }

  lemma RoutedKept(e: Env, s: State, a: Event, t: State, k: Key)
    requires Step(e, s, a, t) && Numbered(s) && Counted(s) && FetchingOk(s) && Routed(e, s, k)
    ensures Routed(e, t, k)
  {
    var w := e.worker(k);
    if Holding(s, w, k) {
      HoldingMoves(e, s, a, t, w, k);
    } else if DoneAt(s, w, k) {
      Monotone(e, s, a, t, w);
    } else if i :| Outgoing(s, i, w, k) {
      OutgoingMoves(e, s, a, t, i, w, k);
    } else {
      var b :| Flying(s, b, k) && b.expand && b.target == w;
      FlyingMoves(e, s, a, t, b, k);
    }
  }

  lemma CoveredKept(e: Env, s: State, a: Event, t: State, k: Key)
    requires Step(e, s, a, t) && Numbered(s) && Counted(s) && FetchingOk(s) && Covered(e, s, k)
    ensures Covered(e, t, k)
  {
    hide Step, Routed;
    if i :| Holding(s, i, k) {
      HoldingMoves(e, s, a, t, i, k);
    } else if i :| DoneAt(s, i, k) {
      Monotone(e, s, a, t, i);
      assert DoneAt(t, i, k);
    } else {
      RoutedKept(e, s, a, t, k);
    }
  }

  lemma PlainMoves(e: Env, s: State, a: Event, t: State, i: Node, o: Node, k: Key)
    requires Step(e, s, a, t) && Numbered(s) && Counted(s) && i < |s.ws| && o in s.ws[i].out && k in s.ws[i].out[o].keys
    ensures i < |t.ws|
    ensures (o in t.ws[i].out && k in t.ws[i].out[o].keys) || exists b :: Flying(t, b, k) && b.target == o
  {
    StepShape(e, s, a, t);
    var w := s.ws[i];
    if a.Process? && a.w == i {
      ProcessOut(e, w, i);
    } else if a.Send? && a.w == i && a.t == o {
      hide Step;
      SendSplits(s, t, i, o, a.n, k);
    }
  }

  lemma PaidKept(e: Env, s: State, a: Event, t: State, i: Node, k: Key, o: Node)
    requires Step(e, s, a, t) && Numbered(s) && Counted(s) && i < |s.ws| && o < |e.eligible| && o < |s.ws|
    requires Paid(e, s, i, k, o)
    ensures i < |t.ws| && o < |t.ws| && Paid(e, t, i, k, o)
  {
    Monotone(e, s, a, t, o);
    Monotone(e, s, a, t, i);
    hide Step;
    if o in s.ws[i].out && k in s.ws[i].out[o].keys {
      PlainMoves(e, s, a, t, i, o, k);
    } else if b :| Flying(s, b, k) && b.target == o {
      FlyingMoves(e, s, a, t, b, k);
    }
  }

  lemma RootsKept(e: Env, s: State, a: Event, t: State)
    requires Step(e, s, a, t) && Numbered(s) && Counted(s) && FetchingOk(s) && RootsOk(e, s)
    ensures RootsOk(e, t)
  {
    hide Step, Covered;
    forall k | k in e.roots ensures Covered(e, t, k) {
      CoveredKept(e, s, a, t, k);
    }
  }

  lemma ForwardsKept(e: Env, s: State, a: Event, t: State)
    requires Step(e, s, a, t) && Numbered(s) && Counted(s) && FetchingOk(s) && ForwardsOk(e, s)
    ensures ForwardsOk(e, t)
  {
    StepShape(e, s, a, t);
    forall i, k | 0 <= i < |t.ws| && k in t.ws[i].forwarded ensures Routed(e, t, k) {
      if k in s.ws[i].forwarded {
        RoutedKept(e, s, a, t, k);
      } else {
        ProcessOut(e, s.ws[i], i);
        assert Outgoing(t, i, e.worker(k), k);
      }
    }
  }

  lemma OwnersKept(e: Env, s: State, a: Event, t: State)
    requires Step(e, s, a, t) && Numbered(s) && Counted(s) && OwnersOk(e, s)
    ensures OwnersOk(e, t)
  {
    StepShape(e, s, a, t);
    forall i, k, o | 0 <= i < |t.ws| && k in t.ws[i].done && o in e.owners(k) && o < |e.eligible| && o < |t.ws|
      ensures Paid(e, t, i, k, o)
    {
      if k in s.ws[i].done {
        PaidKept(e, s, a, t, i, k, o);
      } else {
        ProcessOut(e, s.ws[i], i);
      }
    }
  }

  lemma NewlyVisited(e: Env, s: State, a: Event, t: State, i: Node, k: Key)
    requires Step(e, s, a, t) && i < |t.ws| && i < |s.ws| && k in t.ws[i].visited && k !in s.ws[i].visited
    ensures t.ws[i].fetching && t.ws[i].busy != [] && t.ws[i].busy[0] == k
  {
    StepShape(e, s, a, t);
    hide AddKeys, AddExpand;
  }

  lemma ExpandsKept(e: Env, s: State, a: Event, t: State)
    requires Step(e, s, a, t) && Numbered(s) && Counted(s) && FetchingOk(s) && ExpandsOk(e, s)
    ensures ExpandsOk(e, t)
  {
    StepShape(e, s, a, t);
    hide Step, ProcessKey, FetchKey, ReceiveBatch, NextBatch, Numbered, Counted, FetchingOk, Covered;
    forall i, k | 0 <= i < |t.ws| && k in t.ws[i].visited ensures Expanded(e, t, i, k) {
      if k in s.ws[i].visited {
        assert Expanded(e, s, i, k);
        ExpandedKept(e, s, a, t, i, k);
      } else {
        NewlyVisited(e, s, a, t, i, k);
      }
    }
  }

  lemma ExpandedKept(e: Env, s: State, a: Event, t: State, i: Node, k: Key)
    requires Step(e, s, a, t) && Numbered(s) && Counted(s) && FetchingOk(s) && i < |s.ws| && Expanded(e, s, i, k)
    ensures i < |t.ws| && Expanded(e, t, i, k)
  {
    StepShape(e, s, a, t);
    Monotone(e, s, a, t, i);
    var w := s.ws[i];
    if w.missing {
    } else if w.fetching && w.busy[0] == k {
      if a.Fetch? && a.w == i && a.ok {
        forall c | c in e.children(k) ensures Covered(e, t, c) {
          assert Holding(t, i, c);
        }
      }
    } else {
      forall c | c in e.children(k) ensures Covered(e, t, c) {
        CoveredKept(e, s, a, t, c);
      }
    }
  }

  lemma DoneKept(e: Env, s: State, a: Event, t: State)
    requires Step(e, s, a, t) && DoneOk(e, s) && FetchingOk(s)
    ensures DoneOk(e, t) && FetchingOk(t)
  {
    StepShape(e, s, a, t);
    var i := ActorOf(a);
    assert WorkerDoneOk(e, s.ws[i], i);
    if a.Process? {
      ProcessDone(e, s.ws[i], i);
    }
    assert WorkerDoneOk(e, t.ws[i], i);
    hide Step, ProcessKey, FetchKey, ReceiveBatch, NextBatch;
  }

  ghost predicate WorkerDoneOk(e: Env, w: Worker, i: Node)
  {
    && (forall k :: k in w.done && !e.leaf(k) ==> if e.worker(k) == i then k in w.visited else k in w.forwarded)
    && (w.fetching ==> w.busy != [] && w.busy[0] in w.done)
  }

  lemma ProcessDone(e: Env, w: Worker, self: Node)
    requires w.busy != [] && self < |e.eligible| && WorkerDoneOk(e, w, self) && !w.fetching
    ensures WorkerDoneOk(e, ProcessKey(e, w, self), self)
  {
    hide AddKeys, AddExpand;
  }

  lemma StepKeeps(e: Env, s: State, a: Event, t: State)
    requires Inv(e, s) && Step(e, s, a, t)
    ensures Inv(e, t)
  {
    hide Counted, Numbered, RootsOk, ForwardsOk, OwnersOk, ExpandsOk, DoneOk, FetchingOk, GoodEnv;
    assert |t.ws| == |s.ws| by { StepShape(e, s, a, t); }
    CountedKept(e, s, a, t);
    NumberedKept(e, s, a, t);
    RootsKept(e, s, a, t);
    ForwardsKept(e, s, a, t);
    OwnersKept(e, s, a, t);
    ExpandsKept(e, s, a, t);
    DoneKept(e, s, a, t);
  }
}
