/** The completeness gate of a reference write (node/refs.go): a walk from the root that asks the
    owners of every key it sees, and a cache of subtrees that passed before. */
module Gate {

  import opened Options

  type Key = nat
  type Node = nat

  /** Content-addressed objects: the keys below each key; blobs and xattr sets have none. */
  datatype Graph = Graph(kids: Key -> seq<Key>, leaf: Key -> bool)

  /** Owners under nodes and, during a transition, under pending.nodes. */
  datatype Plan = Plan(owners: Key -> seq<Node>, pending: Option<Key -> seq<Node>>)

  datatype Answer = Failed | Lacks(keys: set<Key>)

  datatype Fetched = Kids(kids: seq<Key>) | Unfetched | Refused

  // ---- reachability ----

  ghost predicate ReachIn(g: Graph, a: Key, b: Key, n: nat)
    decreases n
  {
    if n == 0 then a == b else exists c: Key :: c in g.kids(a) && ReachIn(g, c, b, n - 1)
  }

  ghost predicate Reach(g: Graph, a: Key, b: Key)
  {
    exists n: nat :: ReachIn(g, a, b, n)
  }

  lemma ReachSelf(g: Graph, a: Key)
    ensures Reach(g, a, a)
  {
    assert ReachIn(g, a, a, 0);
  }

  lemma {:induction false} ReachInChild(g: Graph, a: Key, b: Key, c: Key, n: nat)
    requires ReachIn(g, a, b, n) && c in g.kids(b)
    ensures ReachIn(g, a, c, n + 1)
    decreases n
  {
    if n == 0 {
      assert ReachIn(g, c, c, 0);
    } else {
      var d: Key :| d in g.kids(a) && ReachIn(g, d, b, n - 1);
      ReachInChild(g, d, b, c, n - 1);
    }
  }

  lemma ReachChild(g: Graph, a: Key, b: Key, c: Key)
    requires Reach(g, a, b) && c in g.kids(b)
    ensures Reach(g, a, c)
  {
    var n: nat :| ReachIn(g, a, b, n);
    ReachInChild(g, a, b, c, n);
  }

  lemma {:induction false} ReachInThen(g: Graph, a: Key, b: Key, c: Key, m: nat, n: nat)
    requires ReachIn(g, a, b, m) && ReachIn(g, b, c, n)
    ensures ReachIn(g, a, c, m + n)
    decreases m
  {
    if m > 0 {
      var d: Key :| d in g.kids(a) && ReachIn(g, d, b, m - 1);
      ReachInThen(g, d, b, c, m - 1, n);
    }
  }

  lemma ReachThen(g: Graph, a: Key, b: Key, c: Key)
    requires Reach(g, a, b) && Reach(g, b, c)
    ensures Reach(g, a, c)
  {
    var m: nat :| ReachIn(g, a, b, m);
    var n: nat :| ReachIn(g, b, c, n);
    ReachInThen(g, a, b, c, m, n);
  }

  /** Every key of s has its children in s, or is one of stop. */
  ghost predicate ClosedBut(g: Graph, s: set<Key>, stop: set<Key>)
  {
    forall a, b :: a in s && a !in stop && b in g.kids(a) ==> b in s
  }

  ghost predicate BelowStop(g: Graph, s: set<Key>, stop: set<Key>, k: Key)
  {
    exists c :: c in s && c in stop && Reach(g, c, k)
  }

  /** What is reachable is in the walked set or below a key the walk stopped at. */
  lemma {:induction false} WalkedOrBelow(g: Graph, s: set<Key>, stop: set<Key>, a: Key, k: Key, n: nat)
    requires ClosedBut(g, s, stop) && a in s && ReachIn(g, a, k, n)
    ensures k in s || BelowStop(g, s, stop, k)
    decreases n
  {
    if n > 0 {
      if a in stop {
        assert Reach(g, a, k);
      } else {
        var c: Key :| c in g.kids(a) && ReachIn(g, c, k, n - 1);
        WalkedOrBelow(g, s, stop, c, k, n - 1);
      }
    }
  }

  // ---- negotiation ----

  function PendingOwners(p: Plan, k: Key): (o: seq<Node>)
  {
    if p.pending.Some? then p.pending.value(k) else []
  }

  predicate InWriteSet(p: Plan, k: Key, o: Node)
  {
    o in p.owners(k) || o in PendingOwners(p, k)
  }

  /** The keys an owner is asked about, in order. */
  function KeysFor(p: Plan, keys: seq<Key>, o: Node): (ks: seq<Key>)
    ensures forall k :: k in ks <==> k in keys && InWriteSet(p, k, o)
  {
    if keys == [] then []
    else
      var n := |keys| - 1;
      assert keys == keys[..n] + [keys[n]];
      KeysFor(p, keys[..n], o) + (if InWriteSet(p, keys[n], o) then [keys[n]] else [])
  }

  type Asking = (Node, seq<Key>) -> Answer

  /** Asked about keys, o answered and did not report k lacking. */
  predicate Present(p: Plan, ask: Asking, keys: seq<Key>, o: Node, k: Key)
  {
    var a := ask(o, KeysFor(p, keys, o));
    a.Lacks? && k !in a.keys
  }

  function CountPresent(p: Plan, ask: Asking, keys: seq<Key>, owners: seq<Node>, k: Key): (n: nat)
    ensures n <= |owners|
  {
    if owners == [] then 0
    else
      CountPresent(p, ask, keys, owners[..|owners| - 1], k) +
      if Present(p, ask, keys, owners[|owners| - 1], k) then 1 else 0
  }

  function Min(a: nat, b: nat): (m: nat) { if a < b then a else b }

  /** o was asked about k, answered, and did not name k among what it lacks. */
  ghost predicate Vouches(p: Plan, ask: Asking, keys: seq<Key>, o: Node, k: Key)
  {
    exists q: seq<Key>, lacking: set<Key> :: q == KeysFor(p, keys, o) && k in q && ask(o, q) == Lacks(lacking) && k !in lacking
  }

  /** minR of the owners, or all of them if there are fewer, vouch for k. */
  ghost predicate EnoughVouch(p: Plan, minR: nat, ask: Asking, keys: seq<Key>, owners: seq<Node>, k: Key)
  {
    exists vs: set<Node> ::
      AllVouch(p, ask, keys, owners, k, vs) && (minR <= |owners| ==> |vs| == minR) && (minR > |owners| ==> |vs| == |owners|)
  }

  ghost predicate AllVouch(p: Plan, ask: Asking, keys: seq<Key>, owners: seq<Node>, k: Key, vs: set<Node>)
  {
    forall o :: o in vs ==> o in owners && Vouches(p, ask, keys, o, k)
  }

  /** Enough owners hold k, under nodes and, in a transition, under pending.nodes. */
  ghost predicate Held(p: Plan, minR: nat, ask: Asking, keys: seq<Key>, k: Key)
  {
    && EnoughVouch(p, minR, ask, keys, p.owners(k), k)
    && (p.pending.Some? ==> EnoughVouch(p, minR, ask, keys, p.pending.value(k), k))
  }

  lemma PresentVouches(p: Plan, ask: Asking, keys: seq<Key>, o: Node, k: Key)
    requires k in keys && InWriteSet(p, k, o)
    ensures Present(p, ask, keys, o, k) <==> Vouches(p, ask, keys, o, k)
  {
    if Present(p, ask, keys, o, k) {
      assert ask(o, KeysFor(p, keys, o)) == Lacks(ask(o, KeysFor(p, keys, o)).keys);
    }
  }

  /** The owners counted. */
  lemma {:induction false} CountedVouch(p: Plan, ask: Asking, keys: seq<Key>, owners: seq<Node>, k: Key) returns (vs: set<Node>)
    requires k in keys && NoRepeat(owners) && forall o :: o in owners ==> InWriteSet(p, k, o)
    ensures |vs| == CountPresent(p, ask, keys, owners, k)
    ensures forall o :: o in vs <==> o in owners && Vouches(p, ask, keys, o, k)
  {
    hide Vouches, Present, InWriteSet;
    vs := {};
    if owners != [] {
      var n := |owners| - 1;
      assert owners == owners[..n] + [owners[n]];
      vs := CountedVouch(p, ask, keys, owners[..n], k);
      PresentVouches(p, ask, keys, owners[n], k);
      assert owners[n] !in owners[..n];
      if Present(p, ask, keys, owners[n], k) {
        vs := vs + {owners[n]};
      }
    }
  }

  /** The count reaches the minimum exactly when enough owners vouch. */
  lemma CountIsEnough(p: Plan, minR: nat, ask: Asking, keys: seq<Key>, owners: seq<Node>, k: Key)
    requires k in keys && NoRepeat(owners) && forall o :: o in owners ==> InWriteSet(p, k, o)
    ensures CountPresent(p, ask, keys, owners, k) >= Min(minR, |owners|) <==> EnoughVouch(p, minR, ask, keys, owners, k)
  {
    var all := CountedVouch(p, ask, keys, owners, k);
    hide Vouches, InWriteSet, NoRepeat, CountPresent, EnoughVouch;
    if |all| >= Min(minR, |owners|) {
      var vs := SomeOf(all, Min(minR, |owners|));
      SomeAreEnough(p, minR, ask, keys, owners, k, all, vs);
    }
    if EnoughVouch(p, minR, ask, keys, owners, k) {
      EnoughAreCounted(p, minR, ask, keys, owners, k, all);
    }
  }

  lemma SomeAreEnough(p: Plan, minR: nat, ask: Asking, keys: seq<Key>, owners: seq<Node>, k: Key, all: set<Node>, vs: set<Node>)
    requires vs <= all && |vs| == Min(minR, |owners|)
    requires forall o :: o in all ==> o in owners && Vouches(p, ask, keys, o, k)
    ensures EnoughVouch(p, minR, ask, keys, owners, k)
  {
    hide Vouches;
    assert AllVouch(p, ask, keys, owners, k, vs);
  }

  lemma NoMore(vs: set<Node>, all: set<Node>)
    requires vs <= all
    ensures |vs| <= |all|
  {
    assert all == vs + (all - vs);
  }

  lemma EnoughAreCounted(p: Plan, minR: nat, ask: Asking, keys: seq<Key>, owners: seq<Node>, k: Key, all: set<Node>)
    requires EnoughVouch(p, minR, ask, keys, owners, k)
    requires forall o :: o in owners && Vouches(p, ask, keys, o, k) ==> o in all
    ensures |all| >= Min(minR, |owners|)
  {
    hide Vouches;
    var vs: set<Node> :|
      AllVouch(p, ask, keys, owners, k, vs) && (minR <= |owners| ==> |vs| == minR) && (minR > |owners| ==> |vs| == |owners|);
    hide EnoughVouch;
    assert vs <= all;
    hide AllVouch;
    NoMore(vs, all);
  }

  lemma {:induction false} SomeOf(s: set<Node>, n: nat) returns (t: set<Node>)
    requires n <= |s|
    ensures t <= s && |t| == n
  {
    t := s;
    if n < |s| {
      var x :| x in s;
      t := SomeOf(s - {x}, n);
    }
  }

  method WriteSetOf(p: Plan, k: Key) returns (out: seq<Node>)
    requires NoRepeat(p.owners(k)) && NoRepeat(PendingOwners(p, k))
    ensures NoRepeat(out) && forall o :: o in out <==> InWriteSet(p, k, o)
  {
    out := p.owners(k);
    if p.pending.Some? {
      var po := p.pending.value(k);
      var i := 0;
      while i < |po|
        invariant i <= |po| && NoRepeat(out)
        invariant forall o :: o in out <==> o in p.owners(k) || o in po[..i]
      {
        ghost var more := po[..i + 1];
        assert more == po[..i] + [po[i]];
        assert po[i] !in po[..i];
        if po[i] !in p.owners(k) {
          out := out + [po[i]];
        }
        i := i + 1;
      }
      assert po[..i] == po;
    }
  }

  predicate NoRepeat(s: seq<Node>)
  {
    forall i, j :: 0 <= i < j < |s| ==> s[i] != s[j]
  }

  ghost predicate DistinctOwners(p: Plan)
  {
    forall k: Key :: NoRepeat(p.owners(k)) && NoRepeat(PendingOwners(p, k))
  }

  function ListOf(m: map<Node, seq<Key>>, o: Node): (ks: seq<Key>)
  {
    if o in m then m[o] else []
  }

  ghost predicate AskedSoFar(p: Plan, keys: seq<Key>, m: map<Node, seq<Key>>)
  {
    forall o: Node :: ListOf(m, o) == KeysFor(p, keys, o)
  }

  /** m is base with k appended for each of the nodes. */
  ghost predicate Appended(base: map<Node, seq<Key>>, m: map<Node, seq<Key>>, k: Key, nodes: seq<Node>)
  {
    forall o: Node :: ListOf(m, o) == if o in nodes then ListOf(base, o) + [k] else ListOf(base, o)
  }

  /** Which keys go to which owner. */
  method GroupByOwner(p: Plan, keys: seq<Key>) returns (m: map<Node, seq<Key>>)
    requires DistinctOwners(p)
    ensures AskedSoFar(p, keys, m)
  {
    m := map[];
    var i := 0;
    while i < |keys|
      invariant i <= |keys| && AskedSoFar(p, keys[..i], m)
    {
      ghost var base := m;
      assert NoRepeat(p.owners(keys[i]));
      var ws := WriteSetOf(p, keys[i]);
      m := AddKey(m, keys[i], ws);
      MoreAsked(p, keys, i, base, m, ws);
      i := i + 1;
    }
    assert keys[..i] == keys;
  }

  method AddKey(base: map<Node, seq<Key>>, k: Key, ws: seq<Node>) returns (m: map<Node, seq<Key>>)
    requires NoRepeat(ws)
    ensures Appended(base, m, k, ws)
  {
    m := base;
    var j := 0;
    while j < |ws|
      invariant j <= |ws| && Appended(base, m, k, ws[..j])
    {
      var o := ws[j];
      assert o !in ws[..j];
      assert ws[..j + 1] == ws[..j] + [o];
      m := m[o := ListOf(m, o) + [k]];
      j := j + 1;
    }
    assert ws[..j] == ws;
  }

  lemma MoreAsked(p: Plan, keys: seq<Key>, i: nat, base: map<Node, seq<Key>>, m: map<Node, seq<Key>>, ws: seq<Node>)
    requires i < |keys| && AskedSoFar(p, keys[..i], base) && Appended(base, m, keys[i], ws)
    requires forall o :: o in ws <==> InWriteSet(p, keys[i], o)
    ensures AskedSoFar(p, keys[..i + 1], m)
  {
    var more := keys[..i + 1];
    assert more[..i] == keys[..i];
    forall o: Node
      ensures ListOf(m, o) == KeysFor(p, more, o)
    {
      assert KeysFor(p, more, o) == KeysFor(p, keys[..i], o) + (if InWriteSet(p, keys[i], o) then [keys[i]] else []);
    }
  }

  ghost predicate Answered(p: Plan, ask: Asking, keys: seq<Key>, results: map<Node, Answer>)
  {
    forall o: Node ::
      if KeysFor(p, keys, o) == [] then o !in results
      else o in results && results[o] == ask(o, KeysFor(p, keys, o))
  }

  method AskOwners(p: Plan, ask: Asking, keys: seq<Key>) returns (results: map<Node, Answer>)
    requires DistinctOwners(p)
    ensures Answered(p, ask, keys, results)
  {
    var m := GroupByOwner(p, keys);
    results := map[];
    var todo := m.Keys;
    while todo != {}
      invariant todo <= m.Keys
      invariant forall o :: o in results <==> o in m && o !in todo && m[o] != []
      invariant forall o :: o in results ==> results[o] == ask(o, m[o])
      decreases |todo|
    {
      var o :| o in todo;
      if m[o] != [] {
        results := results[o := ask(o, m[o])];
      }
      todo := todo - {o};
    }
    forall o: Node
      ensures if KeysFor(p, keys, o) == [] then o !in results
              else o in results && results[o] == ask(o, KeysFor(p, keys, o))
    {
      assert ListOf(m, o) == KeysFor(p, keys, o);
    }
  }

  method Count(p: Plan, ghost ask: Asking, ghost keys: seq<Key>, results: map<Node, Answer>, owners: seq<Node>, k: Key)
    returns (c: nat)
    requires Answered(p, ask, keys, results) && k in keys
    requires forall o :: o in owners ==> InWriteSet(p, k, o)
    ensures c == CountPresent(p, ask, keys, owners, k)
  {
    c := 0;
    var i := 0;
    while i < |owners|
      invariant i <= |owners| && c == CountPresent(p, ask, keys, owners[..i], k)
    {
      var o := owners[i];
      assert InWriteSet(p, k, o);
      assert k in KeysFor(p, keys, o);
      ghost var more := owners[..i + 1];
      assert more[..i] == owners[..i] && more[i] == o;
      if o in results && results[o].Lacks? && k !in results[o].keys {
        c := c + 1;
      }
      i := i + 1;
    }
    assert owners[..i] == owners;
  }

  /** Enough of the owners have k, and of the owners to come when there are any. */
  method HeldEnough(p: Plan, ghost ask: Asking, ghost keys: seq<Key>, minR: nat, results: map<Node, Answer>, k: Key)
    returns (held: bool)
    requires Answered(p, ask, keys, results) && k in keys && NoRepeat(p.owners(k)) && NoRepeat(PendingOwners(p, k))
    ensures held <==> Held(p, minR, ask, keys, k)
  {
    hide EnoughVouch;
    var c := Count(p, ask, keys, results, p.owners(k), k);
    CountIsEnough(p, minR, ask, keys, p.owners(k), k);
    if c < Min(minR, |p.owners(k)|) {
      return false;
    }
    if p.pending.None? {
      return true;
    }
    var po := p.pending.value(k);
    var d := Count(p, ask, keys, results, po, k);
    CountIsEnough(p, minR, ask, keys, po, k);
    return d >= Min(minR, |po|);
  }

  /** negotiateComplete: asks every owner about its keys; short are those not held often enough. */
  method NegotiateComplete(p: Plan, keys: seq<Key>, minR: nat, ask: Asking) returns (short: seq<Key>)
    requires DistinctOwners(p)
    ensures forall k :: k in short <==> k in keys && !Held(p, minR, ask, keys, k)
  {
    var results := AskOwners(p, ask, keys);
    hide Held;
    short := [];
    var i := 0;
    while i < |keys|
      invariant i <= |keys|
      invariant forall k :: k in short <==> k in keys[..i] && !Held(p, minR, ask, keys, k)
    {
      ghost var more := keys[..i + 1];
      assert more == keys[..i] + [keys[i]];
      var held := HeldEnough(p, ask, keys, minR, results, keys[i]);
      if !held {
        short := short + [keys[i]];
      }
      i := i + 1;
    }
    assert keys[..i] == keys;
  }

  // ---- the walk ----

  const MAX_KEYS := 8192
  const SAMPLE := 1024
  const CACHE_LIMIT := 0x10_0000

  predicate Fresh(cache: map<Key, int>, cutoff: int, k: Key)
  {
    k in cache && cache[k] > cutoff
  }

  /** One level: the keys not seen before, and of these the objects to fetch. */
  method Admit(g: Graph, cache: map<Key, int>, cutoff: int, frontier: seq<Key>, seen0: set<Key>, toCheck0: seq<Key>)
    returns (seen: set<Key>, toCheck: seq<Key>, interior: seq<Key>)
    ensures forall k :: k in seen <==> k in seen0 || k in frontier
    ensures toCheck0 <= toCheck
    ensures forall k :: k in toCheck <==> k in toCheck0 || (k in frontier && k !in seen0)
    ensures forall k :: k in interior <==> k in frontier && k !in seen0 && !g.leaf(k) && !Fresh(cache, cutoff, k)
  {
    seen, toCheck, interior := seen0, toCheck0, [];
    var i := 0;
    while i < |frontier|
      invariant i <= |frontier| && toCheck0 <= toCheck
      invariant forall k :: k in seen <==> k in seen0 || k in frontier[..i]
      invariant forall k :: k in toCheck <==> k in toCheck0 || (k in frontier[..i] && k !in seen0)
      invariant forall k :: k in interior <==>
                  k in frontier[..i] && k !in seen0 && !g.leaf(k) && !Fresh(cache, cutoff, k)
    {
      var k := frontier[i];
      ghost var more := frontier[..i + 1];
      assert more == frontier[..i] + [k];
      if k !in seen {
        seen := seen + {k};
        toCheck := toCheck + [k];
        if !g.leaf(k) && !Fresh(cache, cutoff, k) {
          interior := interior + [k];
        }
      }
      i := i + 1;
    }
    assert frontier[..i] == frontier;
  }

  ghost predicate FetchOk(g: Graph, fetch: Key -> Fetched)
  {
    forall k: Key :: fetch(k).Kids? ==> fetch(k).kids == g.kids(k)
  }

  ghost predicate ChildOf(g: Graph, from: seq<Key>, c: Key)
  {
    exists k :: k in from && c in g.kids(k)
  }

  /** The children of what could be fetched; a refused object ends the walk. */
  method Expand(ghost g: Graph, interior: seq<Key>, fetch: Key -> Fetched, unread0: set<Key>)
    returns (ok: bool, next: seq<Key>, unread: set<Key>)
    requires FetchOk(g, fetch)
    ensures !ok ==> exists k :: k in interior && fetch(k).Refused?
    ensures ok ==>
              && (forall k :: k in unread <==> k in unread0 || (k in interior && fetch(k).Unfetched?))
              && (forall k, c :: k in interior && k !in unread && c in g.kids(k) ==> c in next)
              && (forall c :: c in next ==> ChildOf(g, interior, c))
  {
    next, unread := [], unread0;
    var i := 0;
    while i < |interior|
      invariant i <= |interior|
      invariant forall k :: k in unread <==> k in unread0 || (k in interior[..i] && fetch(k).Unfetched?)
      invariant forall k, c :: k in interior[..i] && k !in unread && c in g.kids(k) ==> c in next
      invariant forall c :: c in next ==> ChildOf(g, interior, c)
    {
      var k := interior[i];
      ghost var more := interior[..i + 1];
      assert more == interior[..i] + [k];
      match fetch(k) {
        case Refused => return false, next, unread;
        case Unfetched => unread := unread + {k};
        case Kids(ks) =>
          assert ks == g.kids(k);
          assert forall c :: c in ks ==> ChildOf(g, interior, c);
          next := next + ks;
      }
      i := i + 1;
    }
    assert interior[..i] == interior;
    return true, next, unread;
  }

  /** Negotiates the collected keys.  A key that could not be read must turn out short. */
  method Flush(p: Plan, minR: nat, ask: Asking, toCheck: seq<Key>, unread: set<Key>, missing0: seq<Key>, shortfall0: nat)
    returns (ok: bool, missing: seq<Key>, shortfall: nat)
    requires DistinctOwners(p)
    requires missing0 == [] <==> shortfall0 == 0
    ensures ok <==> forall k :: k in toCheck && k in unread ==> !Held(p, minR, ask, toCheck, k)
    ensures missing == [] <==> shortfall == 0
    ensures shortfall == 0 <==> shortfall0 == 0 && forall k :: k in toCheck ==> Held(p, minR, ask, toCheck, k)
    ensures forall k :: k in missing ==> k in missing0 || (k in toCheck && !Held(p, minR, ask, toCheck, k))
  {
    missing, shortfall := missing0, shortfall0;
    if toCheck == [] {
      return true, missing, shortfall;
    }
    var short := NegotiateComplete(p, toCheck, minR, ask);
    hide Held;
    missing, shortfall := Report(short, missing, shortfall);
    ok := AllShort(toCheck, unread, short);
    assert short != [] ==> short[0] in toCheck;
  }

  /** Counts the short keys and keeps a sample of them. */
  method Report(short: seq<Key>, missing0: seq<Key>, shortfall0: nat) returns (missing: seq<Key>, shortfall: nat)
    requires missing0 == [] <==> shortfall0 == 0
    ensures shortfall == shortfall0 + |short|
    ensures missing == [] <==> shortfall == 0
    ensures forall k :: k in missing ==> k in missing0 || k in short
  {
    missing, shortfall := missing0, shortfall0;
    var i := 0;
    while i < |short|
      invariant i <= |short| && shortfall == shortfall0 + i
      invariant missing == [] <==> shortfall == 0
      invariant forall k :: k in missing ==> k in missing0 || k in short
    {
      if |missing| < SAMPLE {
        missing := missing + [short[i]];
      }
      shortfall := shortfall + 1;
      i := i + 1;
    }
  }

  method AllShort(toCheck: seq<Key>, unread: set<Key>, short: seq<Key>) returns (ok: bool)
    ensures ok <==> forall k :: k in toCheck && k in unread ==> k in short
  {
    var i := 0;
    while i < |toCheck|
      invariant i <= |toCheck|
      invariant forall j :: 0 <= j < i ==> toCheck[j] !in unread || toCheck[j] in short
    {
      if toCheck[i] in unread && toCheck[i] !in short {
        return false;
      }
      i := i + 1;
    }
    return true;
  }

  /** What a walk depends on besides the cache.  ask(j) is how nodes answer its j-th negotiation. */
  datatype Trip = Trip(g: Graph, p: Plan, minR: nat, fetch: Key -> Fetched, ask: nat -> Asking, root: Key)

  /** Objects are finite trees: universe holds the root and is closed under children. */
  ghost predicate GoodTrip(t: Trip, universe: set<Key>)
  {
    && DistinctOwners(t.p) && FetchOk(t.g, t.fetch)
    && (forall k: Key :: t.g.leaf(k) ==> t.g.kids(k) == [])
    && t.root in universe && ClosedBut(t.g, universe, {})
  }

  ghost predicate InRounds(rounds: seq<seq<Key>>, k: Key)
  {
    exists j :: 0 <= j < |rounds| && k in rounds[j]
  }

  ghost predicate HeldIn(t: Trip, rounds: seq<seq<Key>>, j: nat, k: Key)
    requires j < |rounds|
  {
    k in rounds[j] && Held(t.p, t.minR, t.ask(j), rounds[j], k)
  }

  /** Some negotiation of the walk found k at enough owners. */
  ghost predicate FoundIn(t: Trip, rounds: seq<seq<Key>>, k: Key)
  {
    exists j: nat :: j < |rounds| && HeldIn(t, rounds, j, k)
  }

  ghost predicate ShortIn(t: Trip, rounds: seq<seq<Key>>, k: Key)
  {
    exists j: nat :: j < |rounds| && k in rounds[j] && !HeldIn(t, rounds, j, k)
  }

  /** The keys flushed so far: all found when nothing is short, and a key named missing was not. */
  ghost predicate Tally(t: Trip, rounds: seq<seq<Key>>, missing: seq<Key>, shortfall: nat)
  {
    && (missing == [] <==> shortfall == 0)
    && (shortfall == 0 ==> forall k :: InRounds(rounds, k) ==> FoundIn(t, rounds, k))
    && (forall k :: k in missing ==> ShortIn(t, rounds, k))
  }

  lemma MoreRounds(t: Trip, rounds: seq<seq<Key>>, more: seq<Key>, k: Key)
    ensures FoundIn(t, rounds, k) ==> FoundIn(t, rounds + [more], k)
    ensures ShortIn(t, rounds, k) ==> ShortIn(t, rounds + [more], k)
    ensures InRounds(rounds + [more], k) <==> InRounds(rounds, k) || k in more
    ensures k in more && Held(t.p, t.minR, t.ask(|rounds|), more, k) ==> FoundIn(t, rounds + [more], k)
    ensures k in more && !Held(t.p, t.minR, t.ask(|rounds|), more, k) ==> ShortIn(t, rounds + [more], k)
  {
    hide Held;
    var all := rounds + [more];
    if FoundIn(t, rounds, k) {
      var j: nat :| j < |rounds| && HeldIn(t, rounds, j, k);
      assert HeldIn(t, all, j, k);
    }
    if ShortIn(t, rounds, k) {
      var j: nat :| j < |rounds| && k in rounds[j] && !HeldIn(t, rounds, j, k);
      assert k in all[j] && !HeldIn(t, all, j, k);
    }
    if InRounds(rounds, k) {
      var j :| 0 <= j < |rounds| && k in rounds[j];
      assert k in all[j];
    }
    var n := |rounds|;
    assert all[n] == more;
    assert HeldIn(t, all, n, k) <==> k in more && Held(t.p, t.minR, t.ask(n), more, k);
  }

  /** A flush of the walk: what was collected becomes one more negotiated round. */
  method FlushRound(t: Trip, round: nat, ghost rounds0: seq<seq<Key>>, toCheck: seq<Key>, unread: set<Key>,
                    missing0: seq<Key>, shortfall0: nat)
    returns (ok: bool, missing: seq<Key>, shortfall: nat, next: nat, ghost rounds: seq<seq<Key>>)
    requires DistinctOwners(t.p) && round == |rounds0| && Tally(t, rounds0, missing0, shortfall0)
    ensures next == |rounds| && Tally(t, rounds, missing, shortfall)
    ensures forall k :: InRounds(rounds, k) <==> InRounds(rounds0, k) || k in toCheck
    ensures shortfall == 0 ==> shortfall0 == 0
    ensures ok && shortfall == 0 ==> forall k :: k in toCheck ==> k !in unread
    ensures !ok ==> exists k :: k in toCheck && k in unread && FoundIn(t, rounds, k)
  {
    if toCheck == [] {
      return true, missing0, shortfall0, round, rounds0;
    }
    ok, missing, shortfall := Flush(t.p, t.minR, t.ask(round), toCheck, unread, missing0, shortfall0);
    hide Held;
    next, rounds := round + 1, rounds0 + [toCheck];
    forall k
      ensures InRounds(rounds, k) <==> InRounds(rounds0, k) || k in toCheck
      ensures shortfall == 0 && InRounds(rounds, k) ==> FoundIn(t, rounds, k)
      ensures k in missing ==> ShortIn(t, rounds, k)
      ensures k in toCheck && Held(t.p, t.minR, t.ask(round), toCheck, k) ==> FoundIn(t, rounds, k)
    {
      MoreRounds(t, rounds0, toCheck, k);
    }
  }

  /** Every key seen has its children seen or waiting, unless the walk stops there. */
  ghost predicate Expanded(g: Graph, seen: set<Key>, waiting: seq<Key>, stop: set<Key>)
  {
    forall a, b :: a in seen && a !in stop && b in g.kids(a) ==> b in seen || b in waiting
  }

  ghost function FreshSet(cache: map<Key, int>, cutoff: int): (s: set<Key>)
  {
    set k | k in cache && Fresh(cache, cutoff, k)
  }

  lemma LevelExpanded(t: Trip, cache: map<Key, int>, cutoff: int, seen0: set<Key>, seen: set<Key>,
                      frontier: seq<Key>, interior: seq<Key>, next: seq<Key>, unread0: set<Key>, unread: set<Key>)
    requires forall k: Key :: t.g.leaf(k) ==> t.g.kids(k) == []
    requires Expanded(t.g, seen0, frontier, FreshSet(cache, cutoff) + unread0)
    requires forall k :: k in seen <==> k in seen0 || k in frontier
    requires forall k :: k in interior <==> k in frontier && k !in seen0 && !t.g.leaf(k) && !Fresh(cache, cutoff, k)
    requires unread0 <= unread
    requires forall k, c :: k in interior && k !in unread && c in t.g.kids(k) ==> c in next
    ensures Expanded(t.g, seen, next, FreshSet(cache, cutoff) + unread)
  {
    forall a, b | a in seen && a !in FreshSet(cache, cutoff) + unread && b in t.g.kids(a)
      ensures b in seen || b in next
    {
      if a !in seen0 {
        assert !Fresh(cache, cutoff, a);
        assert !t.g.leaf(a);
      }
    }
  }

  datatype WalkResult = Malformed | HeldButUnread | Walked(missing: seq<Key>, shortfall: nat)

  /** What holds between levels. */
  ghost predicate Level(t: Trip, universe: set<Key>, stop: set<Key>, seen: set<Key>, frontier: seq<Key>,
                        toCheck: seq<Key>, unread: set<Key>, shortfall: nat, rounds: seq<seq<Key>>)
  {
    && (forall k :: k in seen <==> k in toCheck || InRounds(rounds, k))
    && (shortfall == 0 ==> forall k :: k in unread ==> k in toCheck)
    && Expanded(t.g, seen, frontier, stop + unread)
    && (forall k :: k in seen || k in frontier ==> k in universe && Reach(t.g, t.root, k))
    && (t.root in seen || t.root in frontier)
    && (forall k :: k in unread ==> k in seen && t.fetch(k).Unfetched?)
  }

  /** An object below the root was fetched and refused. */
  ghost predicate RefusedBelow(t: Trip)
  {
    exists k :: Reach(t.g, t.root, k) && t.fetch(k).Refused?
  }

  /** An object below the root could not be read although enough owners hold it. */
  ghost predicate UnreadHeldBelow(t: Trip, rounds: seq<seq<Key>>)
  {
    exists k :: Reach(t.g, t.root, k) && t.fetch(k).Unfetched? && FoundIn(t, rounds, k)
  }

  lemma RefusedLevel(t: Trip, interior: seq<Key>)
    requires forall k :: k in interior ==> Reach(t.g, t.root, k)
    requires exists k :: k in interior && t.fetch(k).Refused?
    ensures RefusedBelow(t)
  {
  }

  lemma UnreadLevel(t: Trip, universe: set<Key>, stop: set<Key>, seen: set<Key>, frontier: seq<Key>, toCheck: seq<Key>,
                    unread: set<Key>, shortfall: nat, rounds0: seq<seq<Key>>, rounds: seq<seq<Key>>)
    requires Level(t, universe, stop, seen, frontier, toCheck, unread, shortfall, rounds0)
    requires exists k :: k in toCheck && k in unread && FoundIn(t, rounds, k)
    ensures UnreadHeldBelow(t, rounds)
  {
    var k :| k in toCheck && k in unread && FoundIn(t, rounds, k);
    assert Reach(t.g, t.root, k);
  }

  lemma NextReachable(t: Trip, universe: set<Key>, interior: seq<Key>, next: seq<Key>)
    requires ClosedBut(t.g, universe, {})
    requires forall k :: k in interior ==> k in universe && Reach(t.g, t.root, k)
    requires forall c :: c in next ==> ChildOf(t.g, interior, c)
    ensures forall c :: c in next ==> c in universe && Reach(t.g, t.root, c)
  {
    forall c | c in next
      ensures c in universe && Reach(t.g, t.root, c)
    {
      var k :| k in interior && c in t.g.kids(k);
      ReachChild(t.g, t.root, k, c);
    }
  }

  /** One level of the walk without the flush. */
  method WalkLevel(t: Trip, cache: map<Key, int>, cutoff: int, seen0: set<Key>, frontier: seq<Key>, toCheck0: seq<Key>,
                   unread0: set<Key>, ghost universe: set<Key>, ghost shortfall: nat, ghost rounds: seq<seq<Key>>)
    returns (ok: bool, seen: set<Key>, next: seq<Key>, toCheck: seq<Key>, unread: set<Key>)
    requires GoodTrip(t, universe)
    requires Level(t, universe, FreshSet(cache, cutoff), seen0, frontier, toCheck0, unread0, shortfall, rounds)
    ensures ok ==> Level(t, universe, FreshSet(cache, cutoff), seen, next, toCheck, unread, shortfall, rounds)
    ensures ok ==> seen0 <= seen && (seen == seen0 ==> next == [])
    ensures !ok ==> RefusedBelow(t)
  {
    var interior;
    seen, toCheck, interior := Admit(t.g, cache, cutoff, frontier, seen0, toCheck0);
    ok, next, unread := Expand(t.g, interior, t.fetch, unread0);
    if ok {
      hide Reach, FoundIn, InRounds;
      LevelExpanded(t, cache, cutoff, seen0, seen, frontier, interior, next, unread0, unread);
      NextReachable(t, universe, interior, next);
      if next != [] { assert ChildOf(t.g, interior, next[0]); }
    } else {
      hide Reach, FoundIn, InRounds, RefusedBelow;
      RefusedLevel(t, interior);
    }
  }

  /** A finished walk that found nothing short covers what is reachable. */
  lemma WalkCovers(t: Trip, universe: set<Key>, stop: set<Key>, seen: set<Key>, rounds: seq<seq<Key>>, missing: seq<Key>, k: Key)
    requires Level(t, universe, stop, seen, [], [], {}, 0, rounds) && Tally(t, rounds, missing, 0)
    requires Reach(t.g, t.root, k)
    ensures FoundIn(t, rounds, k) || exists c :: c in stop && FoundIn(t, rounds, c) && Reach(t.g, t.root, c) && Reach(t.g, c, k)
  {
    var n: nat :| ReachIn(t.g, t.root, k, n);
    assert ClosedBut(t.g, seen, stop) by { assert stop + {} == stop; }
    WalkedOrBelow(t.g, seen, stop, t.root, k, n);
    if k in seen {
      assert InRounds(rounds, k);
    } else {
      var c :| c in seen && c in stop && Reach(t.g, c, k);
      assert InRounds(rounds, c);
    }
  }

  lemma FirstLevel(t: Trip, universe: set<Key>, stop: set<Key>)
    requires GoodTrip(t, universe)
    ensures Level(t, universe, stop, {}, [t.root], [], {}, 0, []) && Tally(t, [], [], 0)
  {
    ReachSelf(t.g, t.root);
  }

  lemma FlushedLevel(t: Trip, universe: set<Key>, stop: set<Key>, seen: set<Key>, frontier: seq<Key>, toCheck: seq<Key>,
                     unread: set<Key>, shortfall0: nat, rounds0: seq<seq<Key>>, shortfall: nat, rounds: seq<seq<Key>>)
    requires Level(t, universe, stop, seen, frontier, toCheck, unread, shortfall0, rounds0)
    requires forall k :: InRounds(rounds, k) <==> InRounds(rounds0, k) || k in toCheck
    requires shortfall == 0 ==> shortfall0 == 0
    requires shortfall == 0 ==> forall k :: k in toCheck ==> k !in unread
    ensures Level(t, universe, stop, seen, frontier, [], unread, shortfall, rounds)
    ensures shortfall == 0 ==> unread == {}
  {
    hide Reach, InRounds, Expanded;
  }

  lemma LevelSeen(t: Trip, universe: set<Key>, stop: set<Key>, seen: set<Key>, frontier: seq<Key>, toCheck: seq<Key>,
                  unread: set<Key>, shortfall: nat, rounds: seq<seq<Key>>)
    requires Level(t, universe, stop, seen, frontier, toCheck, unread, shortfall, rounds)
    ensures seen <= universe && forall k :: k in seen ==> Reach(t.g, t.root, k)
    ensures toCheck == [] ==> forall k :: k in seen <==> InRounds(rounds, k)
  {
  }

  /** The walk itself. */
  method Walk(t: Trip, cache: map<Key, int>, cutoff: int, ghost universe: set<Key>)
    returns (res: WalkResult, seen: set<Key>, ghost rounds: seq<seq<Key>>)
    requires GoodTrip(t, universe)
    ensures res.Walked? ==> Tally(t, rounds, res.missing, res.shortfall)
    ensures res.Walked? ==> forall k :: k in seen ==> Reach(t.g, t.root, k)
    ensures res.Walked? ==> forall k :: k in seen <==> InRounds(rounds, k)
    ensures res.Walked? && res.shortfall == 0 ==>
              Level(t, universe, FreshSet(cache, cutoff), seen, [], [], {}, 0, rounds)
    ensures res.Malformed? ==> RefusedBelow(t)
    ensures res.HeldButUnread? ==> UnreadHeldBelow(t, rounds)
  {
    var frontier := [t.root];
    var toCheck: seq<Key>, unread: set<Key>, missing: seq<Key>, shortfall: nat, round: nat := [], {}, [], 0, 0;
    var ok;
    seen, rounds := {}, [];
    ghost var stop := FreshSet(cache, cutoff);
    ghost var shortfall0, rounds0;
    FirstLevel(t, universe, stop);
    assert DistinctOwners(t.p);
    hide Level, Tally, Reach, InRounds, FoundIn, GoodTrip, DistinctOwners, FreshSet, RefusedBelow, UnreadHeldBelow;
    while |frontier| > 0
      invariant round == |rounds| && Tally(t, rounds, missing, shortfall)
      invariant Level(t, universe, stop, seen, frontier, toCheck, unread, shortfall, rounds)
      decreases |universe - seen|, |frontier|
    {
      ghost var seen0 := seen;
      ok, seen, frontier, toCheck, unread :=
        WalkLevel(t, cache, cutoff, seen, frontier, toCheck, unread, universe, shortfall, rounds);
      if !ok {
        return Malformed, seen, rounds;
      }
      LevelSeen(t, universe, stop, seen, frontier, toCheck, unread, shortfall, rounds);
      if |toCheck| >= MAX_KEYS {
        shortfall0, rounds0 := shortfall, rounds;
        ok, missing, shortfall, round, rounds := FlushRound(t, round, rounds, toCheck, unread, missing, shortfall);
        if !ok {
          UnreadLevel(t, universe, stop, seen, frontier, toCheck, unread, shortfall0, rounds0, rounds);
          return HeldButUnread, seen, rounds;
        }
        FlushedLevel(t, universe, stop, seen, frontier, toCheck, unread, shortfall0, rounds0, shortfall, rounds);
        toCheck := [];
      }
      Smaller(universe, seen0, seen);
    }
    shortfall0, rounds0 := shortfall, rounds;
    ok, missing, shortfall, round, rounds := FlushRound(t, round, rounds, toCheck, unread, missing, shortfall);
    if !ok {
      UnreadLevel(t, universe, stop, seen, frontier, toCheck, unread, shortfall0, rounds0, rounds);
      return HeldButUnread, seen, rounds;
    }
    FlushedLevel(t, universe, stop, seen, frontier, toCheck, unread, shortfall0, rounds0, shortfall, rounds);
    LevelSeen(t, universe, stop, seen, frontier, [], unread, shortfall, rounds);
    return Walked(missing, shortfall), seen, rounds;
  }

  lemma Smaller(u: set<Key>, a: set<Key>, b: set<Key>)
    requires a <= b <= u
    ensures |u - b| <= |u - a| && (a != b ==> |u - b| < |u - a|)
  {
    assert u - a == (u - b) + (b - a);
    if a != b { assert b - a != {}; }
  }

  // ---- the cache ----

  /** k lies below an entry of the cache that the walk stopped at, and found held itself. */
  ghost predicate BelowCached(t: Trip, rounds: seq<seq<Key>>, cache: map<Key, int>, cutoff: int, k: Key)
  {
    exists c :: c in FreshSet(cache, cutoff) && FoundIn(t, rounds, c) && Reach(t.g, t.root, c) && Reach(t.g, c, k)
  }

  /** Everything below a cached entry was found by some walk. */
  ghost predicate CacheFound(g: Graph, cache: map<Key, int>, found: set<Key>)
  {
    forall c, k :: c in cache && Reach(g, c, k) ==> k in found
  }

  lemma FoundIsSeen(t: Trip, rounds: seq<seq<Key>>, k: Key)
    requires FoundIn(t, rounds, k)
    ensures InRounds(rounds, k)
  {
    var j: nat :| j < |rounds| && HeldIn(t, rounds, j, k);
  }

  lemma SuccessFinds(t: Trip, universe: set<Key>, cache: map<Key, int>, cutoff: int, found: set<Key>,
                     seen: set<Key>, rounds: seq<seq<Key>>, k: Key)
    requires Level(t, universe, FreshSet(cache, cutoff), seen, [], [], {}, 0, rounds) && Tally(t, rounds, [], 0)
    requires CacheFound(t.g, cache, found) && Reach(t.g, t.root, k)
    requires forall x :: x in seen <==> InRounds(rounds, x)
    ensures k in found + seen && (FoundIn(t, rounds, k) || BelowCached(t, rounds, cache, cutoff, k))
  {
    WalkCovers(t, universe, FreshSet(cache, cutoff), seen, rounds, [], k);
    hide Level, Tally, Reach, FoundIn;
    if FoundIn(t, rounds, k) {
      FoundIsSeen(t, rounds, k);
    }
  }

  lemma StampedFound(g: Graph, root: Key, cache0: map<Key, int>, found0: set<Key>, seen: set<Key>,
                     cache: map<Key, int>, found: set<Key>)
    requires CacheFound(g, cache0, found0) && found0 <= found
    requires forall k :: k in cache ==> k in cache0 || k in seen
    requires forall k :: k in seen ==> Reach(g, root, k)
    requires forall k :: Reach(g, root, k) ==> k in found
    ensures CacheFound(g, cache, found)
  {
    hide Reach;
    forall c, k | c in cache && Reach(g, c, k)
      ensures k in found
    {
      if c in seen { ReachThen(g, root, c, k); }
    }
  }

  lemma SeenFound(t: Trip, rounds: seq<seq<Key>>, seen: set<Key>)
    requires Tally(t, rounds, [], 0) && forall x :: x in seen <==> InRounds(rounds, x)
    ensures forall k :: k in seen ==> FoundIn(t, rounds, k)
  {
  }

  class Gatekeeper {
    /** When each interior object last passed. */
    var cache: map<Key, int>
    /** The keys some walk found at enough owners. */
    ghost var found: set<Key>

    constructor ()
      ensures cache == map[] && found == {}
    {
      cache, found := map[], {};
    }

    ghost predicate Valid(g: Graph)
      reads this
    {
      CacheFound(g, cache, found)
    }

    /** walkComplete: with nothing short, every key below the root was found held often enough,
        by this walk or, below an entry still fresh in the cache, by an earlier one.  Every interior
        object it asked about is stamped anew, those it did not look below included. */
    method WalkComplete(t: Trip, start: int, end: int, putTTL: nat, ghost universe: set<Key>)
      returns (res: WalkResult, ghost rounds: seq<seq<Key>>)
      requires GoodTrip(t, universe) && Valid(t.g)
      modifies this
      ensures Valid(t.g)
      ensures res.Walked? && res.shortfall == 0 ==>
                forall k :: Reach(t.g, t.root, k) ==>
                  k in found && (FoundIn(t, rounds, k) || BelowCached(t, rounds, old(cache), start - putTTL / 2, k))
      ensures old(found) <= found && forall k :: k in found ==> k in old(found) || FoundIn(t, rounds, k)
      ensures res.Walked? && res.shortfall > 0 ==>
                res.missing != [] && forall k :: k in res.missing ==> ShortIn(t, rounds, k)
      ensures res.Malformed? ==> RefusedBelow(t)
      ensures res.HeldButUnread? ==> UnreadHeldBelow(t, rounds)
      ensures !res.Walked? || res.shortfall > 0 ==> cache == old(cache)
      ensures res.Walked? && res.shortfall == 0 && cache != map[] ==>
                && (forall k :: InRounds(rounds, k) && !t.g.leaf(k) ==> k in cache && cache[k] == end)
                && (forall k :: k in old(cache) && !InRounds(rounds, k) ==> k in cache && cache[k] == old(cache)[k])
                && (forall k :: k in cache ==> k in old(cache) || InRounds(rounds, k))
    {
      var cutoff := start - putTTL / 2;
      var seen;
      res, seen, rounds := Walk(t, cache, cutoff, universe);
      assert res.Walked? && res.shortfall == 0 ==> res.missing == [];
      assert res.Walked? && res.shortfall > 0 ==>
        res.missing != [] && forall k :: k in res.missing ==> ShortIn(t, rounds, k);
      hide CacheFound, Level, Tally, Reach, FoundIn, InRounds, ShortIn, BelowCached, GoodTrip;
      hide RefusedBelow, UnreadHeldBelow;
      if res.Walked? && res.shortfall == 0 {
        forall k | Reach(t.g, t.root, k)
          ensures k in found + seen && (FoundIn(t, rounds, k) || BelowCached(t, rounds, cache, cutoff, k))
        {
          SuccessFinds(t, universe, cache, cutoff, found, seen, rounds, k);
        }
        SeenFound(t, rounds, seen);
        var stamped := Stamp(t.g, cache, seen, end);
        StampedFound(t.g, t.root, cache, found, seen, stamped, found + seen);
        cache, found := stamped, found + seen;
      }
    }
  }

  /** Stamps the interior objects seen; a cache grown too large starts over. */
  method Stamp(g: Graph, cache0: map<Key, int>, seen: set<Key>, now: int) returns (cache: map<Key, int>)
    ensures forall k :: k in cache ==> k in cache0 || k in seen
    ensures cache != map[] ==> forall k :: k in cache <==> k in cache0 || (k in seen && !g.leaf(k))
    ensures forall k :: k in cache ==> cache[k] == if k in seen && !g.leaf(k) then now else cache0[k]
  {
    cache := cache0;
    var todo := seen;
    while todo != {}
      invariant todo <= seen
      invariant forall k :: k in cache <==> k in cache0 || (k in seen - todo && !g.leaf(k))
      invariant forall k :: k in cache ==> cache[k] == if k in seen - todo && !g.leaf(k) then now else cache0[k]
      decreases |todo|
    {
      var k :| k in todo;
      if !g.leaf(k) {
        cache := cache[k := now];
      }
      todo := todo - {k};
    }
    if |cache| > CACHE_LIMIT {
      cache := map[];
    }
  }
}
