/** The fetch scheduler (client/fetch.go): one dispatcher that batches keys per owner, and workers
    that fetch batches and hand back what they did not get. */
module Batches {

  type Key = nat
  type Node = nat

  const BATCH_KEYS := 2048
  const BATCH_BYTES := 0x80_0000

  /** A key on its way: its position in the read order, and how often it has been asked for,
      before its read order was started over and in all. */
  datatype Token = Token(key: Key, attempt: nat, before: nat, asked: nat)

  datatype Acc = Acc(keys: seq<Token>, bytes: nat)

  function Est(est: Key -> nat, ts: seq<Token>): (n: nat)
  {
    if ts == [] then 0 else Est(est, ts[..|ts| - 1]) + est(ts[|ts| - 1].key)
  }

  lemma {:induction false} EstSplit(est: Key -> nat, ts: seq<Token>, n: nat)
    requires n <= |ts|
    ensures Est(est, ts) == Est(est, ts[..n]) + Est(est, ts[n..])
  {
    if n == |ts| {
      assert ts[..n] == ts;
    } else {
      var k := |ts| - 1;
      EstSplit(est, ts[..k], n);
      assert ts[..k][..n] == ts[..n] && ts[..k][n..] == ts[n..][..k - n];
    }
  }

  /** The sizes are kept with the keys. */
  predicate AccOk(est: Key -> nat, a: Acc) { a.bytes == Est(est, a.keys) }

  predicate AllAccOk(est: Key -> nat, acc: seq<Acc>) { forall i :: 0 <= i < |acc| ==> AccOk(est, acc[i]) }

  predicate Full(a: Acc) { |a.keys| >= BATCH_KEYS || a.bytes >= BATCH_BYTES }

  /** The accumulator a batch comes from: a full one, else one with the most keys. */
  predicate Chosen(acc: seq<Acc>, best: Node)
  {
    && best < |acc| && acc[best].keys != []
    && (Full(acc[best]) || forall i :: 0 <= i < |acc| && acc[i].keys != [] ==> !Full(acc[i]) && |acc[i].keys| <= |acc[best].keys|)
  }

  /** The batch: as many keys from the front as the limits allow, at least one. */
  predicate BatchSize(est: Key -> nat, ts: seq<Token>, n: nat)
  {
    && 0 < n <= |ts| && n <= BATCH_KEYS
    && (n == 1 || Est(est, ts[..n]) <= BATCH_BYTES)
    && (n == |ts| || n == BATCH_KEYS || Est(est, ts[..n + 1]) > BATCH_BYTES)
  }

  predicate NoneLeft(acc: seq<Acc>) { forall i :: 0 <= i < |acc| ==> acc[i].keys == [] }

  function Without(est: Key -> nat, acc: seq<Acc>, best: Node, n: nat): (r: seq<Acc>)
    requires best < |acc| && n <= |acc[best].keys|
  {
    var rest := acc[best].keys[n..];
    acc[best := Acc(rest, Est(est, rest))]
  }

  /** pickBatch: a batch within the limits, taken off its accumulator. */
  method PickBatch(est: Key -> nat, acc: seq<Acc>) returns (ok: bool, best: Node, batch: seq<Token>, left: seq<Acc>)
    requires AllAccOk(est, acc)
    ensures !ok <==> NoneLeft(acc)
    ensures !ok ==> left == acc
    ensures ok ==>
              && Chosen(acc, best) && BatchSize(est, acc[best].keys, |batch|) && batch == acc[best].keys[..|batch|]
              && left == Without(est, acc, best, |batch|)
    ensures ok ==> 0 < |batch| <= 2048 && (|batch| > 1 ==> Est(est, batch) <= 0x80_0000)
    ensures ok ==> forall i :: 0 <= i < |acc| && |acc[i].keys| > |acc[best].keys| ==>
              |acc[best].keys| >= 2048 || acc[best].bytes >= 0x80_0000
    ensures ok ==> forall i :: 0 <= i < |acc| && acc[i].keys != [] && (|acc[i].keys| >= 2048 || acc[i].bytes >= 0x80_0000) ==>
              |acc[best].keys| >= 2048 || acc[best].bytes >= 0x80_0000
  {
    left, batch := acc, [];
    ok, best := Choose(acc);
    if !ok {
      return;
    }
    var ts := acc[best].keys;
    var n, bytes := 0, 0;
    while n < |ts| && n < BATCH_KEYS && (n == 0 || bytes + est(ts[n].key) <= BATCH_BYTES)
      invariant n <= |ts| && n <= BATCH_KEYS && bytes == Est(est, ts[..n])
      invariant n <= 1 || bytes <= BATCH_BYTES
    {
      EstOneMore(est, ts, n);
      bytes := bytes + est(ts[n].key);
      n := n + 1;
    }
    if n < |ts| { EstOneMore(est, ts, n); }
    EstSplit(est, ts, n);
    batch := ts[..n];
    left := acc[best := Acc(ts[n..], acc[best].bytes - bytes)];
  }

  lemma EstOneMore(est: Key -> nat, ts: seq<Token>, n: nat)
    requires n < |ts|
    ensures Est(est, ts[..n + 1]) == Est(est, ts[..n]) + est(ts[n].key)
  {
    assert ts[..n + 1][..n] == ts[..n];
  }

  /** The loop over the accumulators: stops at a full one, else keeps the largest. */
  method Choose(acc: seq<Acc>) returns (ok: bool, best: Node)
    ensures !ok <==> NoneLeft(acc)
    ensures ok ==> Chosen(acc, best)
  {
    ok, best := false, 0;
    var i := 0;
    while i < |acc|
      invariant i <= |acc|
      invariant !ok ==> forall j :: 0 <= j < i ==> acc[j].keys == []
      invariant ok ==> best < i && acc[best].keys != []
      invariant forall j :: 0 <= j < i && acc[j].keys != [] ==> !Full(acc[j]) && ok && |acc[j].keys| <= |acc[best].keys|
    {
      if acc[i].keys != [] {
        if Full(acc[i]) {
          return true, i;
        }
        if !ok || |acc[i].keys| > |acc[best].keys| {
          ok, best := true, i;
        }
      }
      i := i + 1;
    }
  }
}

/** Every interleaving of the dispatcher and the workers. */
module Fetch {

  import opened Options
  import opened Batches

  /** Owners 0 to nodes-1; order(v) is the read order under view v, at most limit long. */
  datatype Setup = Setup(nodes: nat, workers: nat, est: Key -> nat, order: nat -> Key -> seq<Node>, limit: nat)

  ghost predicate GoodSetup(c: Setup)
  {
    forall v: nat, k: Key :: |c.order(v)(k)| <= c.limit && forall n :: n in c.order(v)(k) ==> n < c.nodes
  }

  /** An outcome: the record was got, or no owner has it. */
  datatype Fetched = Fetched(key: Key, got: bool, asked: nat)

  /** A batch at a worker: what was asked, what came, and, once the stream has ended, the keys
      still to be looked at. */
  datatype Job = Job(node: Node, keys: seq<Token>, got: set<Key>, streaming: bool, rest: seq<Token>)

  /** Where the dispatcher is in its loop. */
  datatype At = TakingInput | TakingRetries | Dispatching | Waiting | Stopped

  datatype State = State(
    view: nat, refreshed: bool,
    handed: set<Key>, input: seq<Key>, closed: bool, inOpen: bool,
    acc: seq<Acc>, workers: seq<Option<Job>>, tokens: nat, inflight: nat,
    retry: seq<Token>, out: seq<Fetched>, at: At)

  datatype Event =
    | Hand(k: Key)
    | Finish
    | NewView
    | TakeInput
    | InputEmpty
    | TakeRetry
    | RetriesEmpty
    | Dispatch(w: nat, best: Node, n: nat)
    | DoneDispatching
    | Wake
    | WakeInput
    | WakeRetry
    | WakeDone
    | Receive(w: nat, i: nat)
    | EndStream(w: nat)
    | PushBack(w: nat)
    | FinishJob(w: nat)

  // ---- routing ----

  /** Past its read order a key starts over once the view has been refreshed, the first time. */
  function Restarted(c: Setup, s: State, t: Token): (r: Token)
  {
    if t.attempt >= |c.order(s.view)(t.key)| && !s.refreshed then Token(t.key, 0, t.asked, t.asked) else t
  }

  function RefreshedBy(c: Setup, s: State, t: Token): (r: State)
  {
    if t.attempt >= |c.order(s.view)(t.key)| && !s.refreshed then s.(refreshed := true, view := s.view + 1) else s
  }

  function Append(est: Key -> nat, a: Acc, t: Token): (r: Acc) { Acc(a.keys + [t], a.bytes + est(t.key)) }

  /** route: to the owner the attempt names, else out as missing. */
  function Route(c: Setup, s: State, t: Token): (r: State)
  {
    var u, s1 := Restarted(c, s, t), RefreshedBy(c, s, t);
    var order := c.order(s1.view)(u.key);
    if u.attempt >= |order| then s1.(out := s1.out + [Fetched(u.key, false, u.asked)])
    else if order[u.attempt] < |s1.acc| then
      s1.(acc := s1.acc[order[u.attempt] := Append(c.est, s1.acc[order[u.attempt]], u)])
    else s1
  }

  /** The token waits at n, and nothing is out that was not. */
  ghost predicate QueuedAt(c: Setup, s: State, r: State, n: Node, t: Token)
  {
    n < |s.acc| && r.acc == s.acc[n := Append(c.est, s.acc[n], t)] && r.out == s.out
  }

  ghost predicate ReportedMissing(s: State, r: State, t: Token)
  {
    r.acc == s.acc && r.out == s.out + [Fetched(t.key, false, t.asked)]
  }

  /** Where a token goes.  Within its read order: to the next owner.  Past it, the first time in
      the run: the view is fetched anew and the key starts over.  Past it after that: it is missing. */
  lemma RouteExactly(c: Setup, s: State, t: Token)
    requires GoodSetup(c) && |s.acc| == c.nodes
    ensures t.attempt < |c.order(s.view)(t.key)| ==>
      QueuedAt(c, s, Route(c, s, t), c.order(s.view)(t.key)[t.attempt], t)
    ensures t.attempt < |c.order(s.view)(t.key)| || s.refreshed ==>
      Route(c, s, t).view == s.view && Route(c, s, t).refreshed == s.refreshed
    ensures t.attempt >= |c.order(s.view)(t.key)| && s.refreshed ==> ReportedMissing(s, Route(c, s, t), t)
    ensures t.attempt >= |c.order(s.view)(t.key)| && !s.refreshed ==>
      && Route(c, s, t).refreshed && Route(c, s, t).view == s.view + 1
      && (c.order(s.view + 1)(t.key) == [] ==> ReportedMissing(s, Route(c, s, t), t))
      && (c.order(s.view + 1)(t.key) != [] ==>
           QueuedAt(c, s, Route(c, s, t), c.order(s.view + 1)(t.key)[0], Token(t.key, 0, t.asked, t.asked)))
  {
    var order, anew := c.order(s.view)(t.key), c.order(s.view + 1)(t.key);
    if t.attempt < |order| {
      assert order[t.attempt] in order;
    }
    if anew != [] {
      assert anew[0] in anew;
    }
  }

  /** The tokens of a batch once they have been asked for. */
  function Asked(ts: seq<Token>): (r: seq<Token>)
    ensures |r| == |ts| && forall i :: 0 <= i < |ts| ==> r[i] == ts[i].(asked := ts[i].asked + 1)
  {
    if ts == [] then [] else Asked(ts[..|ts| - 1]) + [ts[|ts| - 1].(asked := ts[|ts| - 1].asked + 1)]
  }

  ghost predicate Enabled(c: Setup, s: State, e: Event)
  {
    match e
    case Hand(k) => !s.closed && k !in s.handed
    case Finish => true
    case NewView => true
    case TakeInput => s.at == TakingInput && s.inOpen && s.input != []
    case InputEmpty => s.at == TakingInput && s.input == []
    case TakeRetry => s.at == TakingRetries && s.retry != []
    case RetriesEmpty => s.at == TakingRetries && s.retry == []
    case Dispatch(w, best, n) =>
      && s.at == Dispatching && s.inflight < c.workers && w < |s.workers| && s.workers[w] == None
      && Chosen(s.acc, best) && BatchSize(c.est, s.acc[best].keys, n)
    case DoneDispatching => s.at == Dispatching && (s.inflight >= c.workers || NoneLeft(s.acc))
    case Wake => s.at == Waiting && s.inOpen && s.closed && s.input == []
    case WakeInput => s.at == Waiting && s.inOpen && s.input != []
    case WakeRetry => s.at == Waiting && s.retry != []
    case WakeDone => s.at == Waiting && s.tokens > 0 && s.inflight > 0
    case Receive(w, i) =>
      && w < |s.workers| && s.workers[w].Some? && s.workers[w].value.streaming
      && i < |s.workers[w].value.keys| && s.workers[w].value.keys[i].key !in s.workers[w].value.got
    case EndStream(w) => w < |s.workers| && s.workers[w].Some? && s.workers[w].value.streaming
    case PushBack(w) =>
      w < |s.workers| && s.workers[w].Some? && !s.workers[w].value.streaming && s.workers[w].value.rest != []
    case FinishJob(w) =>
      w < |s.workers| && s.workers[w].Some? && !s.workers[w].value.streaming && s.workers[w].value.rest == []
  }

  function StopOrWait(s: State): (r: State)
  {
    s.(at := if !s.inOpen && s.inflight == 0 && NoneLeft(s.acc) then Stopped else Waiting)
  }

  /** One missed token of a finished stream goes back for the next owner. */
  function PushOne(s: State, w: nat): (r: State)
    requires w < |s.workers| && s.workers[w].Some? && s.workers[w].value.rest != []
  {
    var j := s.workers[w].value;
    var t := j.rest[0];
    var s1 := s.(workers := s.workers[w := Some(j.(rest := j.rest[1..]))]);
    if t.key in j.got then s1 else s1.(retry := s1.retry + [t.(attempt := t.attempt + 1)])
  }

  ghost function Effect(c: Setup, s: State, e: Event): (t: State)
    requires Enabled(c, s, e)
  {
    match e
    case Hand(k) => s.(handed := s.handed + {k}, input := s.input + [k])
    case Finish => s.(closed := true)
    case NewView => s.(view := s.view + 1)
    case TakeInput => Route(c, s.(input := s.input[1..]), Token(s.input[0], 0, 0, 0))
    case InputEmpty => s.(at := TakingRetries, inOpen := s.inOpen && !s.closed)
    case TakeRetry => Route(c, s.(retry := s.retry[1..]), s.retry[0])
    case RetriesEmpty => s.(at := Dispatching)
    case Dispatch(w, best, n) =>
      s.(workers := s.workers[w := Some(Job(best, Asked(s.acc[best].keys[..n]), {}, true, []))],
         acc := Without(c.est, s.acc, best, n), inflight := s.inflight + 1)
    case DoneDispatching => StopOrWait(s)
    case Wake => s.(inOpen := false, at := TakingInput)
    case WakeInput => Route(c, s.(input := s.input[1..], at := TakingInput), Token(s.input[0], 0, 0, 0))
    case WakeRetry => Route(c, s.(retry := s.retry[1..], at := TakingInput), s.retry[0])
    case WakeDone => s.(tokens := s.tokens - 1, inflight := s.inflight - 1, at := TakingInput)
    case Receive(w, i) =>
      var j := s.workers[w].value;
      s.(workers := s.workers[w := Some(j.(got := j.got + {j.keys[i].key}))],
         out := s.out + [Fetched(j.keys[i].key, true, j.keys[i].asked)])
    case EndStream(w) =>
      s.(workers := s.workers[w := Some(s.workers[w].value.(streaming := false, rest := s.workers[w].value.keys))])
    case PushBack(w) => PushOne(s, w)
    case FinishJob(w) => s.(workers := s.workers[w := None], tokens := s.tokens + 1)
  }

  // ---- where a key is ----

  function One(b: bool): (n: nat) { if b then 1 else 0 }

  function InKeys(ks: seq<Key>, k: Key): (n: nat)
  {
    if ks == [] then 0 else One(ks[0] == k) + InKeys(ks[1..], k)
  }

  lemma {:induction false} InKeysAppend(ks: seq<Key>, x: Key, k: Key)
    ensures InKeys(ks + [x], k) == InKeys(ks, k) + One(x == k)
  {
    if ks == [] {
      assert ks + [x] == [x];
    } else {
      InKeysAppend(ks[1..], x, k);
      assert (ks + [x])[1..] == ks[1..] + [x];
    }
  }

  /** How many tokens of ts are for k, those in got left out. */
  function InTokens(ts: seq<Token>, got: set<Key>, k: Key): (n: nat)
  {
    if ts == [] then 0 else One(ts[0].key == k && k !in got) + InTokens(ts[1..], got, k)
  }

  lemma {:induction false} InTokensAppend(ts: seq<Token>, t: Token, k: Key)
    ensures InTokens(ts + [t], {}, k) == InTokens(ts, {}, k) + One(t.key == k)
  {
    if ts == [] {
      assert ts + [t] == [t];
    } else {
      InTokensAppend(ts[1..], t, k);
      assert (ts + [t])[1..] == ts[1..] + [t];
    }
  }

  lemma {:induction false} InTokensSplit(ts: seq<Token>, n: nat, k: Key)
    requires n <= |ts|
    ensures InTokens(ts, {}, k) == InTokens(ts[..n], {}, k) + InTokens(ts[n..], {}, k)
  {
    if n > 0 {
      InTokensSplit(ts[1..], n - 1, k);
      assert ts[1..][..n - 1] == ts[..n][1..] && ts[1..][n - 1..] == ts[n..];
    } else {
      assert ts[n..] == ts;
    }
  }

  lemma {:induction false} InTokensGot(ts: seq<Token>, got: set<Key>, x: Key, k: Key)
    ensures InTokens(ts, got + {x}, k) == if k == x then 0 else InTokens(ts, got, k)
  {
    if ts != [] { InTokensGot(ts[1..], got, x, k); }
  }

  lemma {:induction false} InTokensHas(ts: seq<Token>, got: set<Key>, i: nat)
    requires i < |ts| && ts[i].key !in got
    ensures InTokens(ts, got, ts[i].key) >= 1
  {
    if i > 0 { InTokensHas(ts[1..], got, i - 1); }
  }

  lemma {:induction false} InAsked(ts: seq<Token>, k: Key)
    ensures InTokens(Asked(ts), {}, k) == InTokens(ts, {}, k)
  {
    SameKeys(Asked(ts), ts, k);
  }

  lemma {:induction false} SameKeys(a: seq<Token>, b: seq<Token>, k: Key)
    requires |a| == |b| && forall i :: 0 <= i < |a| ==> a[i].key == b[i].key
    ensures InTokens(a, {}, k) == InTokens(b, {}, k)
  {
    if a != [] { SameKeys(a[1..], b[1..], k); }
  }

  function InAcc(acc: seq<Acc>, k: Key): (n: nat)
  {
    if acc == [] then 0 else InTokens(acc[0].keys, {}, k) + InAcc(acc[1..], k)
  }

  lemma {:induction false} AccUpdate(acc: seq<Acc>, i: nat, a: Acc, k: Key)
    requires i < |acc|
    ensures InAcc(acc[i := a], k) + InTokens(acc[i].keys, {}, k) == InAcc(acc, k) + InTokens(a.keys, {}, k)
  {
    if i == 0 {
      assert acc[i := a][1..] == acc[1..];
    } else {
      AccUpdate(acc[1..], i - 1, a, k);
      assert acc[i := a][1..] == acc[1..][i - 1 := a];
    }
  }

  lemma {:induction false} AccNone(acc: seq<Acc>, k: Key)
    requires NoneLeft(acc)
    ensures InAcc(acc, k) == 0
  {
    if acc != [] { AccNone(acc[1..], k); }
  }

  function InJob(j: Option<Job>, k: Key): (n: nat)
  {
    if j == None then 0 else InTokens(if j.value.streaming then j.value.keys else j.value.rest, j.value.got, k)
  }

  function InWork(ws: seq<Option<Job>>, k: Key): (n: nat)
  {
    if ws == [] then 0 else InJob(ws[0], k) + InWork(ws[1..], k)
  }

  lemma {:induction false} WorkUpdate(ws: seq<Option<Job>>, i: nat, j: Option<Job>, k: Key)
    requires i < |ws|
    ensures InWork(ws[i := j], k) + InJob(ws[i], k) == InWork(ws, k) + InJob(j, k)
  {
    hide InJob;
    if i == 0 {
      assert ws[i := j][1..] == ws[1..];
    } else {
      WorkUpdate(ws[1..], i - 1, j, k);
      assert ws[i := j][1..] == ws[1..][i - 1 := j];
    }
  }

  function Busy(ws: seq<Option<Job>>): (n: nat)
  {
    if ws == [] then 0 else One(ws[0].Some?) + Busy(ws[1..])
  }

  lemma {:induction false} BusyUpdate(ws: seq<Option<Job>>, i: nat, j: Option<Job>)
    requires i < |ws|
    ensures Busy(ws[i := j]) + One(ws[i].Some?) == Busy(ws) + One(j.Some?)
    ensures ws[i].Some? ==> Busy(ws) > 0
  {
    if i == 0 {
      assert ws[i := j][1..] == ws[1..];
    } else {
      BusyUpdate(ws[1..], i - 1, j);
      assert ws[i := j][1..] == ws[1..][i - 1 := j];
    }
  }

  lemma {:induction false} NotBusy(ws: seq<Option<Job>>, k: Key)
    requires Busy(ws) == 0
    ensures InWork(ws, k) == 0
  {
    if ws != [] { NotBusy(ws[1..], k); }
  }

  function InOut(out: seq<Fetched>, k: Key): (n: nat)
  {
    if out == [] then 0 else One(out[0].key == k) + InOut(out[1..], k)
  }

  lemma {:induction false} OutAppend(out: seq<Fetched>, f: Fetched, k: Key)
    ensures InOut(out + [f], k) == InOut(out, k) + One(f.key == k)
  {
    if out == [] {
      assert out + [f] == [f];
    } else {
      OutAppend(out[1..], f, k);
      assert (out + [f])[1..] == out[1..] + [f];
    }
  }

  /** How often k occurs, in all places together. */
  function Everywhere(s: State, k: Key): (n: nat)
  {
    InKeys(s.input, k) + InAcc(s.acc, k) + InWork(s.workers, k) + InTokens(s.retry, {}, k) + InOut(s.out, k)
  }

  // ---- what every step keeps ----

  ghost predicate Shape(c: Setup, s: State)
  {
    && |s.acc| == c.nodes && |s.workers| == c.workers && AllAccOk(c.est, s.acc)
    && Busy(s.workers) + s.tokens == s.inflight
    && (!s.inOpen ==> s.closed && s.input == [])
    && (s.at == Dispatching && s.inflight == 0 ==> s.retry == [])
    && (s.at == Stopped ==> !s.inOpen && s.inflight == 0 && NoneLeft(s.acc) && s.retry == [])
  }

  /** Each key handed in is in exactly one place, and no other key is anywhere. */
  ghost predicate Conserved(s: State) { forall k :: Everywhere(s, k) == One(k in s.handed) }

  lemma RouteKeeps(c: Setup, s: State, t: Token, k: Key)
    requires GoodSetup(c) && |s.acc| == c.nodes
    ensures Everywhere(Route(c, s, t), k) == Everywhere(s, k) + One(t.key == k)
  {
    var u, s1 := Restarted(c, s, t), RefreshedBy(c, s, t);
    var order := c.order(s1.view)(u.key);
    if u.attempt >= |order| {
      OutAppend(s1.out, Fetched(u.key, false, u.asked), k);
    } else {
      var n := order[u.attempt];
      assert n in order;
      AccUpdate(s1.acc, n, Append(c.est, s1.acc[n], u), k);
      InTokensAppend(s1.acc[n].keys, u, k);
    }
  }

  /** Routing changes only the view, the accumulators and the outcomes. */
  lemma RouteFrame(c: Setup, s: State, t: Token)
    ensures var r := Route(c, s, t); r == s.(view := r.view, refreshed := r.refreshed, acc := r.acc, out := r.out) && |r.acc| == |s.acc|
  {
  }

  lemma RouteShape(c: Setup, s: State, t: Token)
    requires AllAccOk(c.est, s.acc)
    ensures AllAccOk(c.est, Route(c, s, t).acc)
  {
    var u, s1 := Restarted(c, s, t), RefreshedBy(c, s, t);
    var order := c.order(s1.view)(u.key);
    if u.attempt < |order| && order[u.attempt] < |s1.acc| {
      var ts := s1.acc[order[u.attempt]].keys;
      assert (ts + [u])[..|ts|] == ts;
    }
  }

  /** The token an event routes, and the state it is routed in. */
  predicate Routes(e: Event) { e.TakeInput? || e.TakeRetry? || e.WakeInput? || e.WakeRetry? }

  ghost function TokenOf(s: State, e: Event): Token
    requires Routes(e) && (e.TakeInput? || e.WakeInput? ==> s.input != []) && (e.TakeRetry? || e.WakeRetry? ==> s.retry != [])
  {
    if e.TakeInput? || e.WakeInput? then Token(s.input[0], 0, 0, 0) else s.retry[0]
  }

  ghost function Taken(s: State, e: Event): State
    requires Routes(e) && (e.TakeInput? || e.WakeInput? ==> s.input != []) && (e.TakeRetry? || e.WakeRetry? ==> s.retry != [])
  {
    match e
    case TakeInput => s.(input := s.input[1..])
    case TakeRetry => s.(retry := s.retry[1..])
    case WakeInput => s.(input := s.input[1..], at := TakingInput)
    case WakeRetry => s.(retry := s.retry[1..], at := TakingInput)
    case _ => s
  }

  lemma RoutingEffect(c: Setup, s: State, e: Event)
    requires Enabled(c, s, e) && Routes(e)
    ensures (e.TakeInput? || e.WakeInput? ==> s.input != []) && (e.TakeRetry? || e.WakeRetry? ==> s.retry != [])
    ensures Effect(c, s, e) == Route(c, Taken(s, e), TokenOf(s, e))
  {
    hide Route;
  }

  lemma TakenShape(c: Setup, s: State, e: Event)
    requires Shape(c, s) && Enabled(c, s, e) && Routes(e)
    requires (e.TakeInput? || e.WakeInput? ==> s.input != []) && (e.TakeRetry? || e.WakeRetry? ==> s.retry != [])
    ensures Shape(c, Taken(s, e)) && Taken(s, e).at != Stopped
  {
    hide Busy, AllAccOk, Route;
  }

  lemma RoutedShape(c: Setup, s: State, t: Token)
    requires Shape(c, s) && s.at != Stopped
    ensures Shape(c, Route(c, s, t))
  {
    RouteFrame(c, s, t);
    RouteShape(c, s, t);
    hide Route, Busy, AllAccOk;
  }

  predicate AtWorker(e: Event) { e.Receive? || e.EndStream? || e.PushBack? || e.FinishJob? }

  /** What a worker's event leaves alone, and whether the worker stays busy. */
  ghost predicate WorkerFrame(s: State, t: State, w: nat)
  {
    && w < |s.workers| && s.workers[w].Some? && |t.workers| == |s.workers|
    && t == s.(workers := s.workers[w := t.workers[w]], out := t.out, retry := t.retry, tokens := t.tokens)
    && t.tokens == s.tokens + One(t.workers[w] == None)
  }

  lemma WorkerEffect(c: Setup, s: State, e: Event)
    requires Enabled(c, s, e) && AtWorker(e)
    ensures WorkerFrame(s, Effect(c, s, e), e.w)
  {
  }

  /** A worker that goes on, or ends with its token. */
  lemma WorkerShape(c: Setup, s: State, t: State, w: nat)
    requires Shape(c, s) && WorkerFrame(s, t, w)
    ensures Shape(c, t)
  {
    BusyUpdate(s.workers, w, t.workers[w]);
    hide Busy, AllAccOk;
  }

  lemma DispatchShape(c: Setup, s: State, w: nat, best: Node, n: nat)
    requires Shape(c, s) && Enabled(c, s, Dispatch(w, best, n))
    ensures Shape(c, Effect(c, s, Dispatch(w, best, n)))
  {
    var t := Effect(c, s, Dispatch(w, best, n));
    BusyUpdate(s.workers, w, t.workers[w]);
    DispatchBounds(c, s, best, n);
    hide Busy, Chosen, BatchSize, AllAccOk;
  }

  lemma PlainShape(c: Setup, s: State, e: Event)
    requires Shape(c, s) && Enabled(c, s, e) && !Routes(e) && !AtWorker(e) && !e.Dispatch?
    ensures Shape(c, Effect(c, s, e))
  {
    hide Busy, AllAccOk, Route;
  }

  lemma ShapeStep(c: Setup, s: State, e: Event)
    requires Shape(c, s) && Enabled(c, s, e)
    ensures Shape(c, Effect(c, s, e))
  {
    hide Shape, Enabled, Effect, Route;
    if Routes(e) {
      RoutingEffect(c, s, e);
      TakenShape(c, s, e);
      RoutedShape(c, Taken(s, e), TokenOf(s, e));
    } else if AtWorker(e) {
      WorkerEffect(c, s, e);
      WorkerShape(c, s, Effect(c, s, e), e.w);
    } else if e.Dispatch? {
      DispatchShape(c, s, e.w, e.best, e.n);
    } else {
      PlainShape(c, s, e);
    }
  }

  lemma DispatchBounds(c: Setup, s: State, best: Node, n: nat)
    requires Chosen(s.acc, best) && BatchSize(c.est, s.acc[best].keys, n) && AllAccOk(c.est, s.acc)
    ensures best < |s.acc| && n <= |s.acc[best].keys| && AllAccOk(c.est, Without(c.est, s.acc, best, n))
  {
  }

  lemma DispatchKeeps(c: Setup, s: State, w: nat, best: Node, n: nat, k: Key)
    requires Shape(c, s) && Enabled(c, s, Dispatch(w, best, n))
    ensures Everywhere(Effect(c, s, Dispatch(w, best, n)), k) == Everywhere(s, k)
  {
    DispatchBounds(c, s, best, n);
    hide Chosen, BatchSize;
    var t := Effect(c, s, Dispatch(w, best, n));
    var ts := s.acc[best].keys;
    AccUpdate(s.acc, best, t.acc[best], k);
    WorkUpdate(s.workers, w, t.workers[w], k);
    InTokensSplit(ts, n, k);
    InAsked(ts[..n], k);
  }

  lemma ReceiveKeeps(c: Setup, s: State, w: nat, i: nat, k: Key)
    requires Shape(c, s) && Enabled(c, s, Receive(w, i)) && Everywhere(s, s.workers[w].value.keys[i].key) <= 1
    ensures Everywhere(Effect(c, s, Receive(w, i)), k) == Everywhere(s, k)
  {
    var t, j := Effect(c, s, Receive(w, i)), s.workers[w].value;
    var x := j.keys[i].key;
    WorkUpdate(s.workers, w, t.workers[w], k);
    WorkUpdate(s.workers, w, t.workers[w], x);
    OutAppend(s.out, Fetched(x, true, j.keys[i].asked), k);
    InTokensGot(j.keys, j.got, x, k);
    InTokensHas(j.keys, j.got, i);
    InTokensGot(j.keys, j.got, x, x);
  }

  lemma PushKeeps(c: Setup, s: State, w: nat, k: Key)
    requires Shape(c, s) && Enabled(c, s, PushBack(w))
    ensures Everywhere(Effect(c, s, PushBack(w)), k) == Everywhere(s, k)
  {
    hide InWork, InAcc, InOut, InKeys, Shape, InTokens, InJob;
    var j := s.workers[w].value;
    var t := j.rest[0].(attempt := j.rest[0].attempt + 1);
    WorkUpdate(s.workers, w, Some(j.(rest := j.rest[1..])), k);
    InTokensAppend(s.retry, t, k);
    RestFirst(j, k);
  }

  lemma RestFirst(j: Job, k: Key)
    requires !j.streaming && j.rest != []
    ensures InJob(Some(j), k) == InJob(Some(j.(rest := j.rest[1..])), k) + One(j.rest[0].key == k && k !in j.got)
  {
  }

  lemma TakenKeeps(c: Setup, s: State, e: Event, k: Key)
    requires Enabled(c, s, e) && Routes(e)
    requires (e.TakeInput? || e.WakeInput? ==> s.input != []) && (e.TakeRetry? || e.WakeRetry? ==> s.retry != [])
    ensures Everywhere(Taken(s, e), k) + One(TokenOf(s, e).key == k) == Everywhere(s, k)
    ensures |Taken(s, e).acc| == |s.acc|
  {
    if e.TakeRetry? || e.WakeRetry? { FirstToken(s.retry, k); }
    hide InAcc, InWork, InTokens, InOut, Route;
  }

  lemma EndKeeps(c: Setup, s: State, w: nat, k: Key)
    requires Enabled(c, s, EndStream(w))
    ensures Everywhere(Effect(c, s, EndStream(w)), k) == Everywhere(s, k)
  {
    WorkUpdate(s.workers, w, Effect(c, s, EndStream(w)).workers[w], k);
    StreamEnds(s.workers[w].value, k);
    hide InJob, InWork, InAcc, InTokens, InOut, InKeys;
  }

  lemma FinishKeeps(c: Setup, s: State, w: nat, k: Key)
    requires Enabled(c, s, FinishJob(w))
    ensures Everywhere(Effect(c, s, FinishJob(w)), k) == Everywhere(s, k)
  {
    WorkUpdate(s.workers, w, None, k);
    NothingPending(s.workers[w], k);
    hide InJob, InWork, InAcc, InTokens, InOut, InKeys;
  }

  lemma PlainKeeps(c: Setup, s: State, e: Event, k: Key)
    requires Enabled(c, s, e) && !Routes(e) && !AtWorker(e) && !e.Dispatch?
    ensures Everywhere(Effect(c, s, e), k) == Everywhere(s, k) + One(e.Hand? && e.k == k)
  {
    if e.Hand? { InKeysAppend(s.input, e.k, k); }
    hide InKeys, InAcc, InWork, InTokens, InOut, Route;
  }

  lemma KeyStep(c: Setup, s: State, e: Event, k: Key)
    requires GoodSetup(c) && Shape(c, s) && Enabled(c, s, e)
    requires e.Receive? ==> Everywhere(s, s.workers[e.w].value.keys[e.i].key) <= 1
    ensures Everywhere(Effect(c, s, e), k) == Everywhere(s, k) + One(e.Hand? && e.k == k)
  {
    assert |s.acc| == c.nodes;
    hide Effect, Enabled, Everywhere, GoodSetup, Shape, Route;
    if Routes(e) {
      RoutingEffect(c, s, e);
      TakenKeeps(c, s, e, k);
      RouteKeeps(c, Taken(s, e), TokenOf(s, e), k);
    } else if e.Dispatch? {
      DispatchKeeps(c, s, e.w, e.best, e.n, k);
    } else if e.Receive? {
      ReceiveKeeps(c, s, e.w, e.i, k);
    } else if e.EndStream? {
      EndKeeps(c, s, e.w, k);
    } else if e.PushBack? {
      PushKeeps(c, s, e.w, k);
    } else if e.FinishJob? {
      FinishKeeps(c, s, e.w, k);
    } else {
      PlainKeeps(c, s, e, k);
    }
  }

  lemma FirstToken(ts: seq<Token>, k: Key)
    requires ts != []
    ensures InTokens(ts, {}, k) == One(ts[0].key == k) + InTokens(ts[1..], {}, k)
  {
  }

  lemma StreamEnds(j: Job, k: Key)
    requires j.streaming
    ensures InJob(Some(j.(streaming := false, rest := j.keys)), k) == InJob(Some(j), k)
  {
  }

  lemma NothingPending(j: Option<Job>, k: Key)
    requires j.Some? && !j.value.streaming && j.value.rest == []
    ensures InJob(j, k) == 0 && InJob(None, k) == 0
  {
  }

  lemma ConservedStep(c: Setup, s: State, e: Event)
    requires GoodSetup(c) && Shape(c, s) && Conserved(s) && Enabled(c, s, e)
    ensures Conserved(Effect(c, s, e))
  {
    hide Everywhere, Shape, GoodSetup;
    forall k
      ensures Everywhere(Effect(c, s, e), k) == One(k in Effect(c, s, e).handed)
    {
      KeyStep(c, s, e, k);
      HandedStep(c, s, e, k);
    }
  }

  lemma HandedStep(c: Setup, s: State, e: Event, k: Key)
    requires Enabled(c, s, e)
    ensures One(k in Effect(c, s, e).handed) == One(k in s.handed) + One(e.Hand? && e.k == k)
  {
    hide Route, PushOne, Without, Asked, Chosen, BatchSize;
    match e
    case TakeInput => RouteFrame(c, s.(input := s.input[1..]), Token(s.input[0], 0, 0, 0));
    case TakeRetry => RouteFrame(c, s.(retry := s.retry[1..]), s.retry[0]);
    case WakeInput => RouteFrame(c, s.(input := s.input[1..], at := TakingInput), Token(s.input[0], 0, 0, 0));
    case WakeRetry => RouteFrame(c, s.(retry := s.retry[1..], at := TakingInput), s.retry[0]);
    case PushBack(w) => PushFrame(s, w);
    case _ =>
  }

  lemma PushFrame(s: State, w: nat)
    requires w < |s.workers| && s.workers[w].Some? && s.workers[w].value.rest != []
    ensures PushOne(s, w) == s.(workers := PushOne(s, w).workers, retry := PushOne(s, w).retry)
    ensures |PushOne(s, w).workers| == |s.workers|
  {
  }

  // ---- how often a key is asked for ----

  /** limit bounds the read orders; until the view was refreshed no key started over. */
  ghost predicate TokenOk(limit: nat, refreshed: bool, t: Token)
  {
    && t.attempt <= limit && t.before <= limit && t.asked == t.before + t.attempt
    && (!refreshed ==> t.before == 0)
  }

  /** At a worker a token has been asked for once more. */
  ghost predicate AskedOk(limit: nat, refreshed: bool, t: Token)
  {
    t.asked > 0 && t.attempt < limit && TokenOk(limit, refreshed, t.(asked := t.asked - 1))
  }

  ghost predicate AccCounted(limit: nat, refreshed: bool, a: Acc)
  {
    forall j :: 0 <= j < |a.keys| ==> TokenOk(limit, refreshed, a.keys[j]) && a.keys[j].attempt < limit
  }

  ghost predicate AskedAll(limit: nat, refreshed: bool, ts: seq<Token>)
  {
    forall i :: 0 <= i < |ts| ==> AskedOk(limit, refreshed, ts[i])
  }

  ghost predicate JobCounted(limit: nat, refreshed: bool, j: Option<Job>)
  {
    j.Some? ==> AskedAll(limit, refreshed, j.value.keys) && AskedAll(limit, refreshed, j.value.rest)
  }

  ghost predicate Counted(limit: nat, s: State)
  {
    && (forall i :: 0 <= i < |s.acc| ==> AccCounted(limit, s.refreshed, s.acc[i]))
    && (forall i :: 0 <= i < |s.retry| ==> TokenOk(limit, s.refreshed, s.retry[i]))
    && (forall i :: 0 <= i < |s.workers| ==> JobCounted(limit, s.refreshed, s.workers[i]))
    && (forall i :: 0 <= i < |s.out| ==> s.out[i].asked <= 2 * limit)
  }

  /** A refresh only loosens the count. */
  lemma Refreshing(limit: nat, s: State, t: State)
    requires Counted(limit, s) && t == s.(view := t.view, refreshed := true)
    ensures Counted(limit, t)
  {
    forall a | AccCounted(limit, s.refreshed, a)
      ensures AccCounted(limit, true, a)
    {
    }
    forall j | JobCounted(limit, s.refreshed, j)
      ensures JobCounted(limit, true, j)
    {
    }
  }

  lemma AppendCounted(limit: nat, refreshed: bool, est: Key -> nat, a: Acc, t: Token)
    requires AccCounted(limit, refreshed, a) && TokenOk(limit, refreshed, t) && t.attempt < limit
    ensures AccCounted(limit, refreshed, Append(est, a, t))
  {
  }

  lemma RouteCounted(c: Setup, s: State, t: Token)
    requires GoodSetup(c) && Counted(c.limit, s) && TokenOk(c.limit, s.refreshed, t)
    ensures Counted(c.limit, Route(c, s, t))
  {
    var u, s1 := Restarted(c, s, t), RefreshedBy(c, s, t);
    assert TokenOk(c.limit, s1.refreshed, u) && u.asked <= 2 * c.limit;
    assert Counted(c.limit, s1) by { if s1 != s { Refreshing(c.limit, s, s1); } }
    var order := c.order(s1.view)(u.key);
    assert |order| <= c.limit;
    hide GoodSetup, TokenOk, AccCounted, JobCounted, Restarted, RefreshedBy;
    if u.attempt < |order| && order[u.attempt] < |s1.acc| {
      AppendCounted(c.limit, s1.refreshed, c.est, s1.acc[order[u.attempt]], u);
    }
  }

  lemma BatchCounted(limit: nat, refreshed: bool, a: Acc, n: nat, bytes: nat)
    requires AccCounted(limit, refreshed, a) && n <= |a.keys|
    ensures AskedAll(limit, refreshed, Asked(a.keys[..n])) && AccCounted(limit, refreshed, Acc(a.keys[n..], bytes))
  {
    forall i | 0 <= i < n
      ensures AskedOk(limit, refreshed, Asked(a.keys[..n])[i])
    {
      assert a.keys[..n][i] == a.keys[i];
    }
  }

  lemma DispatchCounted(c: Setup, s: State, w: nat, best: Node, n: nat)
    requires Shape(c, s) && Counted(c.limit, s) && Enabled(c, s, Dispatch(w, best, n))
    ensures Counted(c.limit, Effect(c, s, Dispatch(w, best, n)))
  {
    DispatchBounds(c, s, best, n);
    hide Chosen, BatchSize, Shape, AccCounted, AskedAll, Asked, TokenOk;
    BatchCounted(c.limit, s.refreshed, s.acc[best], n, Est(c.est, s.acc[best].keys[n..]));
    assert AskedAll(c.limit, s.refreshed, []) by { NoneCounted(c.limit, s.refreshed); }
  }

  lemma NoneCounted(limit: nat, refreshed: bool)
    ensures AccCounted(limit, refreshed, Acc([], 0)) && AskedAll(limit, refreshed, [])
  {
  }

  lemma PushCounted(limit: nat, s: State, w: nat)
    requires Counted(limit, s) && w < |s.workers| && s.workers[w].Some? && s.workers[w].value.rest != []
    ensures Counted(limit, PushOne(s, w))
  {
    var j := s.workers[w].value;
    assert JobCounted(limit, s.refreshed, s.workers[w]);
    assert AskedOk(limit, s.refreshed, j.rest[0]);
    assert JobCounted(limit, s.refreshed, Some(j.(rest := j.rest[1..])));
    assert TokenOk(limit, s.refreshed, j.rest[0].(attempt := j.rest[0].attempt + 1));
    hide JobCounted, AccCounted, TokenOk, AskedOk;
  }

  lemma ReceiveCounted(c: Setup, s: State, w: nat, i: nat)
    requires Counted(c.limit, s) && Enabled(c, s, Receive(w, i))
    ensures Counted(c.limit, Effect(c, s, Receive(w, i)))
  {
    var j := s.workers[w].value;
    assert JobCounted(c.limit, s.refreshed, s.workers[w]);
    assert AskedOk(c.limit, s.refreshed, j.keys[i]);
    assert JobCounted(c.limit, s.refreshed, Some(j.(got := j.got + {j.keys[i].key})));
    hide JobCounted, AccCounted, TokenOk;
  }

  lemma CountedStep(c: Setup, s: State, e: Event)
    requires GoodSetup(c) && Shape(c, s) && Counted(c.limit, s) && Enabled(c, s, e)
    ensures Counted(c.limit, Effect(c, s, e))
  {
    hide Route, Shape, AccCounted, JobCounted, AskedAll, GoodSetup, Chosen, BatchSize;
    match e
    case TakeInput => RouteCounted(c, s.(input := s.input[1..]), Token(s.input[0], 0, 0, 0));
    case TakeRetry => RouteCounted(c, s.(retry := s.retry[1..]), s.retry[0]);
    case WakeInput => RouteCounted(c, s.(input := s.input[1..], at := TakingInput), Token(s.input[0], 0, 0, 0));
    case WakeRetry => RouteCounted(c, s.(retry := s.retry[1..], at := TakingInput), s.retry[0]);
    case Dispatch(w, best, n) => DispatchCounted(c, s, w, best, n);
    case Receive(w, i) => ReceiveCounted(c, s, w, i);
    case EndStream(w) => StreamCounted(c.limit, s.refreshed, s.workers[w].value);
    case PushBack(w) => PushCounted(c.limit, s, w);
    case FinishJob(w) => NoJobCounted(c.limit, s.refreshed);
    case _ =>
  }

  lemma StreamCounted(limit: nat, refreshed: bool, j: Job)
    ensures JobCounted(limit, refreshed, Some(j)) ==> JobCounted(limit, refreshed, Some(j.(streaming := false, rest := j.keys)))
  {
  }

  lemma NoJobCounted(limit: nat, refreshed: bool)
    ensures JobCounted(limit, refreshed, None)
  {
  }

  // ---- whole runs ----

  function Blank(n: nat): (acc: seq<Acc>)
    ensures |acc| == n && forall i :: 0 <= i < n ==> acc[i] == Acc([], 0)
  {
    if n == 0 then [] else Blank(n - 1) + [Acc([], 0)]
  }

  function Idle(n: nat): (ws: seq<Option<Job>>)
    ensures |ws| == n && forall i :: 0 <= i < n ==> ws[i] == None
  {
    if n == 0 then [] else [None] + Idle(n - 1)
  }

  function Start(c: Setup): (s: State)
  {
    State(0, false, {}, [], false, true, Blank(c.nodes), Idle(c.workers), 0, 0, [], [], TakingInput)
  }

  ghost predicate IsRun(c: Setup, states: seq<State>, events: seq<Event>)
  {
    && |states| == |events| + 1 && states[0] == Start(c)
    && forall i :: 0 <= i < |events| ==> Enabled(c, states[i], events[i]) && states[i + 1] == Effect(c, states[i], events[i])
  }

  lemma {:induction false} IdleBusy(n: nat)
    ensures Busy(Idle(n)) == 0
  {
    if n > 0 {
      IdleBusy(n - 1);
      assert Idle(n)[1..] == Idle(n - 1);
    }
  }

  lemma StartOk(c: Setup)
    ensures Shape(c, Start(c)) && Conserved(Start(c)) && Counted(c.limit, Start(c))
  {
    IdleBusy(c.workers);
    forall k
      ensures Everywhere(Start(c), k) == 0
    {
      NotBusy(Idle(c.workers), k);
      AccNone(Blank(c.nodes), k);
    }
  }

  lemma {:induction false} RunKeeps(c: Setup, states: seq<State>, events: seq<Event>, i: nat)
    requires GoodSetup(c) && IsRun(c, states, events) && i < |states|
    ensures Shape(c, states[i]) && Conserved(states[i]) && Counted(c.limit, states[i])
  {
    hide Shape, Conserved, Counted, Enabled, Effect;
    if i == 0 {
      StartOk(c);
    } else {
      RunKeeps(c, states, events, i - 1);
      ShapeStep(c, states[i - 1], events[i - 1]);
      ConservedStep(c, states[i - 1], events[i - 1]);
      CountedStep(c, states[i - 1], events[i - 1]);
    }
  }

  /** In every run, at every moment: each key handed in is in exactly one place, and no outcome
      took more than two passes over the longest read order. */
  lemma KeysConserved(c: Setup, states: seq<State>, events: seq<Event>, i: nat, k: Key)
    requires GoodSetup(c) && IsRun(c, states, events) && i < |states|
    ensures Everywhere(states[i], k) == if k in states[i].handed then 1 else 0
    ensures forall j :: 0 <= j < |states[i].out| ==> states[i].out[j].asked <= 2 * c.limit
  {
    RunKeeps(c, states, events, i);
  }

  lemma RouteMissing(c: Setup, s: State, t: Token)
    requires GoodSetup(c) && TokenOk(c.limit, s.refreshed, t)
    ensures var r := Route(c, s, t);
      || r.out == s.out
      || (r.out == s.out + [Fetched(t.key, false, r.out[|r.out| - 1].asked)] && r.refreshed
          && r.out[|r.out| - 1].asked >= |c.order(r.view)(t.key)|)
  {
  }

  lemma TakenCounted(c: Setup, s: State, e: Event)
    requires Counted(c.limit, s) && Routes(e) && (e.TakeInput? || e.WakeInput? ==> s.input != []) && (e.TakeRetry? || e.WakeRetry? ==> s.retry != [])
    ensures TokenOk(c.limit, s.refreshed, TokenOf(s, e)) && Taken(s, e).out == s.out && Taken(s, e).refreshed == s.refreshed
  {
  }

  lemma OthersReportNone(c: Setup, s: State, e: Event)
    requires Enabled(c, s, e) && !Routes(e) && |Effect(c, s, e).out| > |s.out|
    ensures Effect(c, s, e).out[|Effect(c, s, e).out| - 1].got
  {
    hide Route;
  }

  lemma MissingStep(c: Setup, s: State, e: Event)
    requires GoodSetup(c) && Counted(c.limit, s) && Enabled(c, s, e) && |Effect(c, s, e).out| > |s.out|
    ensures var t := Effect(c, s, e); var last := t.out[|t.out| - 1];
      !last.got ==> t.refreshed && last.asked >= |c.order(t.view)(last.key)|
  {
    hide Counted, Enabled, Effect, Route;
    if Routes(e) {
      RoutingEffect(c, s, e);
      TakenCounted(c, s, e);
      RouteMissing(c, Taken(s, e), TokenOf(s, e));
    } else {
      OthersReportNone(c, s, e);
    }
  }

  lemma StepAt(c: Setup, states: seq<State>, events: seq<Event>, i: nat)
    requires IsRun(c, states, events) && i < |events|
    ensures Enabled(c, states[i], events[i]) && states[i + 1] == Effect(c, states[i], events[i])
  {
  }

  /** A key is reported missing only after the view was fetched anew, and after it was asked for at
      least as often as its read order under that view is long. */
  lemma MissingWasAsked(c: Setup, states: seq<State>, events: seq<Event>, i: nat)
    requires GoodSetup(c) && IsRun(c, states, events) && i < |events| && |states[i + 1].out| > |states[i].out|
    ensures var t := states[i + 1]; var last := t.out[|t.out| - 1];
      !last.got ==> t.refreshed && last.asked >= |c.order(t.view)(last.key)|
  {
    hide Shape, Conserved, Counted, Enabled, Effect, GoodSetup;
    StepAt(c, states, events, i);
    RunKeeps(c, states, events, i);
    hide IsRun;
    MissingStep(c, states[i], events[i]);
  }

  /** The dispatcher stops only when every key handed in has exactly one outcome. */
  lemma StopsWhenAllAnswered(c: Setup, states: seq<State>, events: seq<Event>, i: nat, k: Key)
    requires GoodSetup(c) && IsRun(c, states, events) && i < |states| && states[i].at == Stopped
    ensures InOut(states[i].out, k) == if k in states[i].handed then 1 else 0
  {
    RunKeeps(c, states, events, i);
    var s := states[i];
    assert Everywhere(s, k) == One(k in s.handed);
    NotBusy(s.workers, k);
    AccNone(s.acc, k);
  }
}
