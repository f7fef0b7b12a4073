/** The mark state of one node, changed in place by its worker and its handlers (node/gc.go). */
module GcWorker {

  import opened Options
  import opened GcMark

  const MAX_KEYS := 8192
  const TAKE := 256

  function Min(a: nat, b: nat): (m: nat) { if a < b then a else b }

  predicate NoRepeat(s: seq<Node>)
  {
    forall i, j :: 0 <= i < j < |s| ==> s[i] != s[j]
  }

  /** The first node of the read order that acked the barrier. */
  ghost predicate FirstAcked(order: seq<Node>, acked: set<Node>, w: Option<Node>)
  {
    match w
    case None => forall n :: n in order ==> n !in acked
    case Some(x) => exists i :: 0 <= i < |order| && order[i] == x && x in acked && forall j :: 0 <= j < i ==> order[j] !in acked
  }

  method WorkerOf(order: seq<Node>, acked: set<Node>) returns (w: Option<Node>)
    ensures FirstAcked(order, acked, w)
  {
    var i := 0;
    while i < |order|
      invariant i <= |order| && forall j :: 0 <= j < i ==> order[j] !in acked
    {
      if order[i] in acked {
        return Some(order[i]);
      }
      i := i + 1;
    }
    return None;
  }

  /** The keys of a batch that are in sweepable packs are marked. */
  method MarkEligible(marked: set<Key>, keys: seq<Key>, eligible: set<Key>) returns (r: set<Key>)
    ensures r == marked + (set k | k in keys && k in eligible)
  {
    r := marked;
    var i := 0;
    while i < |keys|
      invariant i <= |keys| && r == marked + (set k | k in keys[..i] && k in eligible)
    {
      ghost var more := keys[..i + 1];
      assert more == keys[..i] + [keys[i]];
      if keys[i] in eligible {
        r := r + {keys[i]};
      }
      i := i + 1;
    }
    assert keys[..i] == keys;
  }

  class MarkState {
    const self: Node
    var queue: seq<Key>
    var busy: seq<Key>
    var fetching: bool
    var out: map<Node, Out>
    var sent: nat
    var recv: nat
    var seqs: map<Node, nat>
    var seen: map<Node, nat>
    var marked: set<Key>
    var visited: set<Key>
    var forwarded: set<Key>
    var missing: bool
    /** The keys that have been delivered to their owners. */
    ghost var done: set<Key>

    ghost function Contents(): (w: Worker)
      reads this
    {
      Worker(queue, busy, fetching, out, Counters(sent, recv, seqs, seen), marked, visited, forwarded, missing, done)
    }

    constructor (self: Node)
      ensures this.self == self && BlankWorker(Contents()) && queue == [] && out == map[]
    {
      this.self := self;
      queue, busy, fetching, out, sent, recv := [], [], false, map[], 0, 0;
      seqs, seen, marked, visited, forwarded, missing, done := map[], map[], {}, {}, {}, false, {};
    }

    /** handleKeys: a number not above the last from its sender is a duplicate and only acked. */
    method HandleKeys(e: Env, b: Batch) returns (duplicate: bool)
      requires self < |e.eligible|
      modifies this
      ensures duplicate <==> !Fresh(old(Contents()), b)
      ensures Contents() == if duplicate then old(Contents()) else ReceiveBatch(e, old(Contents()), self, b)
    {
      if b.sender in seen && b.seqNo <= seen[b.sender] {
        return true;
      }
      seen := seen[b.sender := b.seqNo];
      recv := recv + 1;
      marked := MarkEligible(marked, b.keys, e.eligible[self]);
      if b.expand {
        queue := queue + b.keys;
      }
      return false;
    }

    /** deliver: one loop over the acked owners. */
    method DeliverKey(e: Env, owners: seq<Node>, k: Key)
      requires self < |e.eligible| && NoRepeat(owners) && (set o | o in owners) == e.owners(k)
      modifies this`out, this`marked, this`done
      ensures Contents() == Deliver(e, old(Contents()), self, k)
    {
      ghost var out0, marked0 := out, marked;
      NoOwners(out, self, k);
      hide AddKeys, Others, NoRepeat;
      var i := 0;
      while i < |owners|
        invariant i <= |owners|
        invariant out == AddKeys(out0, Others(owners[..i], self), k)
        invariant marked == if self in owners[..i] && k in e.eligible[self] then marked0 + {k} else marked0
        invariant done == old(done)
      {
        var o := owners[i];
        OneOwnerMore(owners, i, self);
        if o == self {
          if k in e.eligible[self] {
            marked := marked + {k};
          }
        } else {
          AddOne(out0, Others(owners[..i], self), o, k);
          var b := if o in out then out[o] else Out([], []);
          out := out[o := Out(b.keys + [k], b.expand)];
        }
        i := i + 1;
      }
      assert owners[..i] == owners;
      AllOwners(owners, self, e.owners(k));
      assert out == AddKeys(out0, e.owners(k) - {self}, k);
      done := done + {k};
    }

    /** The rest of process, up to reading an interior object. */
    method RouteKey(e: Env)
      requires busy != []
      modifies this`busy, this`forwarded, this`out, this`visited, this`fetching
      ensures Contents() == Route(e, old(Contents()), self)
    {
      hide AddExpand;
      var k := busy[0];
      if e.leaf(k) {
        busy := busy[1..];
        return;
      }
      var w := e.worker(k);
      if w != self {
        if k !in forwarded {
          forwarded := forwarded + {k};
          out := AddExpand(out, w, k);
        }
        busy := busy[1..];
        return;
      }
      if k in visited {
        busy := busy[1..];
        return;
      }
      visited := visited + {k};
      fetching := true;
    }

    /** process: delivered to its owners, then routed. */
    method Process(e: Env, owners: seq<Node>)
      requires busy != [] && self < |e.eligible| && NoRepeat(owners) && (set o | o in owners) == e.owners(busy[0])
      modifies this
      ensures Contents() == ProcessKey(e, old(Contents()), self)
    {
      hide Deliver, Route, NoRepeat;
      DeliverKey(e, owners, busy[0]);
      RouteKey(e);
    }

    /** The object read: its children are queued; unread it is reported missing. */
    method Fetched(e: Env, ok: bool)
      requires busy != []
      modifies this
      ensures Contents() == FetchKey(e, old(Contents()), ok)
    {
      if ok {
        var kids := e.children(busy[0]);
        var i := 0;
        while i < |kids|
          invariant i <= |kids| && Contents() == old(Contents()).(queue := old(queue) + kids[..i])
        {
          queue := queue + [kids[i]];
          i := i + 1;
        }
        assert kids[..i] == kids;
      } else {
        missing := true;
      }
      busy := busy[1..];
      fetching := false;
    }

    /** The worker's turn: up to 256 keys leave the queue and count as busy. */
    method Take() returns (n: nat)
      requires busy == []
      modifies this`queue, this`busy
      ensures n <= 256 && n <= |old(queue)| && (n == 256 || n == |old(queue)|)
      ensures busy == old(queue)[..n] && queue == old(queue)[n..]
    {
      n := Min(|queue|, TAKE);
      busy, queue := queue[..n], queue[n..];
    }

    /** flushOut, one round for one target: the next batch, expansions first, or the entry closed. */
    method NextFor(t: Node) returns (b: Option<Batch>)
      requires t in out
      modifies this`out, this`sent, this`seqs
      ensures b.None? <==> old(out)[t] == Out([], [])
      ensures b.None? ==> Contents() == old(Contents()).(out := old(out) - {t})
      ensures b.Some? ==>
                var o := old(out)[t];
                var all := if o.expand != [] then o.expand else o.keys;
                var n := |b.value.keys|;
                && 0 < n <= |all| && n <= MAX_KEYS && (n == MAX_KEYS || n == |all|)
                && (Contents(), b.value) == NextBatch(old(Contents()), self, t, n)
    {
      var o := out[t];
      var keys: seq<Key>, expand := [], false;
      if |o.expand| > 0 {
        var n := Min(|o.expand|, MAX_KEYS);
        keys, expand := o.expand[..n], true;
        out := out[t := Out(o.keys, o.expand[n..])];
      } else if |o.keys| > 0 {
        var n := Min(|o.keys|, MAX_KEYS);
        keys := o.keys[..n];
        out := out[t := Out(o.keys[n..], o.expand)];
      }
      if |keys| == 0 {
        out := out - {t};
        return None;
      }
      sent := sent + 1;
      var s := (if t in seqs then seqs[t] else 0) + 1;
      seqs := seqs[t := s];
      return Some(Batch(self, t, s, keys, expand));
    }
  }

  function Others(owners: seq<Node>, self: Node): (r: set<Node>)
  {
    (set o | o in owners) - {self}
  }

  lemma OneOwnerMore(owners: seq<Node>, i: nat, self: Node)
    requires i < |owners| && NoRepeat(owners)
    ensures owners[i] == self ==> Others(owners[..i + 1], self) == Others(owners[..i], self)
    ensures owners[i] != self ==> Others(owners[..i + 1], self) == Others(owners[..i], self) + {owners[i]}
    ensures owners[i] !in owners[..i] && owners[i] !in Others(owners[..i], self)
    ensures self in owners[..i + 1] <==> self in owners[..i] || owners[i] == self
  {
    assert owners[..i + 1] == owners[..i] + [owners[i]];
  }

  lemma NoOwners(out: map<Node, Out>, self: Node, k: Key)
    ensures AddKeys(out, Others([], self), k) == out
  {
    assert Others([], self) == {};
  }

  lemma AllOwners(owners: seq<Node>, self: Node, all: set<Node>)
    requires (set o | o in owners) == all
    ensures Others(owners, self) == all - {self} && (self in owners <==> self in all)
  {
  }

  lemma AddOne(out: map<Node, Out>, to: set<Node>, o: Node, k: Key)
    requires o !in to
    ensures var m := AddKeys(out, to, k);
            var b := if o in m then m[o] else Out([], []);
            AddKeys(out, to + {o}, k) == m[o := Out(b.keys + [k], b.expand)]
  {
  }
}
