/** The reference watch (node/watch.go, client/watch.go): a node keeps what it believes a client
    holds and sends frames of changes; the client folds them into its map. */
module Watch {

  import opened Options

  type Name = nat
  type Key = nat

  /** Version 0 is the zero ballot: a key the client reported itself. */
  datatype RefState = RefState(key: Option<Key>, version: nat)

  datatype Op = Set(name: Name, key: Key) | Del(name: Name)

  datatype Frame = Frame(refs: seq<Op>, deleted: seq<Name>)

  // ---- folding ----

  /** The keys the client is believed to hold. */
  function Keys(known: map<Name, RefState>): (m: map<Name, Key>)
  {
    map n | n in known && known[n].key.Some? :: known[n].key.value
  }

  function After(m: map<Name, Key>, o: Op): (r: map<Name, Key>)
  {
    if o.Set? then m[o.name := o.key] else m - {o.name}
  }

  /** The changes in the order they were queued. */
  function InTurn(m: map<Name, Key>, ops: seq<Op>): (r: map<Name, Key>)
  {
    if ops == [] then m else After(InTurn(m, ops[..|ops| - 1]), ops[|ops| - 1])
  }

  function Sets(ops: seq<Op>): (r: seq<Op>)
  {
    if ops == [] then []
    else Sets(ops[..|ops| - 1]) + if ops[|ops| - 1].Set? then [ops[|ops| - 1]] else []
  }

  function Dels(ops: seq<Op>): (r: seq<Name>)
  {
    if ops == [] then []
    else Dels(ops[..|ops| - 1]) + if ops[|ops| - 1].Del? then [ops[|ops| - 1].name] else []
  }

  /** The client's folding of a frame: all its settings, then all its deletions. */
  function Folded(m: map<Name, Key>, f: Frame): (r: map<Name, Key>)
  {
    InTurn(m, f.refs) - (set n | n in f.deleted)
  }

  function FrameOf(ops: seq<Op>): (f: Frame) { Frame(Sets(ops), Dels(ops)) }

  /** The last of ops about n is a deletion. */
  predicate EndsDeleted(ops: seq<Op>, n: Name)
  {
    ops != [] &&
    if ops[|ops| - 1].name == n then ops[|ops| - 1].Del? else EndsDeleted(ops[..|ops| - 1], n)
  }

  /** No name is created again after its deletion. */
  ghost predicate NoRecreation(ops: seq<Op>) { forall n :: n in Dels(ops) ==> EndsDeleted(ops, n) }

  lemma {:induction false} InTurnAt(m: map<Name, Key>, ops: seq<Op>, n: Name)
    ensures EndsDeleted(ops, n) ==> n !in InTurn(m, ops)
    ensures n in Dels(ops) && !EndsDeleted(ops, n) ==> n in InTurn(m, ops)
    ensures n !in Dels(ops) ==> (n in InTurn(m, ops) <==> n in InTurn(m, Sets(ops)))
    ensures n !in Dels(ops) && n in InTurn(m, ops) ==> InTurn(m, ops)[n] == InTurn(m, Sets(ops))[n]
    ensures EndsDeleted(ops, n) ==> n in Dels(ops)
  {
    if ops != [] {
      var k := |ops| - 1;
      InTurnAt(m, ops[..k], n);
      var sets := Sets(ops[..k]);
      if ops[k].Set? {
        assert Sets(ops) == sets + [ops[k]] && Dels(ops) == Dels(ops[..k]) + [];
        assert (sets + [ops[k]])[..|sets|] == sets;
      } else {
        assert Sets(ops) == sets + [] == sets && Dels(ops) == Dels(ops[..k]) + [ops[k].name];
      }
    }
  }

  /** A frame folds to what its changes come to in turn exactly when it re-creates nothing. */
  lemma FrameFoldsIff(m: map<Name, Key>, ops: seq<Op>)
    ensures Folded(m, FrameOf(ops)) == InTurn(m, ops) <==> NoRecreation(ops)
  {
    var f, t := Folded(m, FrameOf(ops)), InTurn(m, ops);
    if NoRecreation(ops) {
      forall n
        ensures n in f <==> n in t
        ensures n in f ==> f[n] == t[n]
      {
        InTurnAt(m, ops, n);
      }
      assert f == t;
    } else {
      var n :| n in Dels(ops) && !EndsDeleted(ops, n);
      InTurnAt(m, ops, n);
      assert n in t && n !in f;
    }
  }

  /** The exception: a name deleted and created again between two sends is lost to the client. */
  lemma RecreatedIsLost(n: Name, a: Key, b: Key)
    ensures Folded(map[n := a], FrameOf([Del(n), Set(n, b)])) == map[]
    ensures InTurn(map[n := a], [Del(n), Set(n, b)]) == map[n := b]
  {
    var ops := [Del(n), Set(n, b)];
    assert ops[..1] == [Del(n)] && ops[..1][..0] == [];
    assert [Set(n, b)][..0] == [];
    assert InTurn(map[n := a], [Set(n, b)]) == map[n := b];
    assert Dels([Del(n)]) == Dels([]) + [n] == [n] && Sets([Del(n)]) == Sets([]) + [] == [];
    assert Dels(ops) == [n] + [] == [n] && Sets(ops) == [] + [Set(n, b)] == [Set(n, b)];
  }

  lemma InTurnMore(m: map<Name, Key>, ops: seq<Op>, o: Op)
    ensures InTurn(m, ops + [o]) == After(InTurn(m, ops), o)
    ensures Sets(ops + [o]) == Sets(ops) + if o.Set? then [o] else []
    ensures Dels(ops + [o]) == Dels(ops) + if o.Del? then [o.name] else []
  {
    assert (ops + [o])[..|ops|] == ops;
  }

  /** The client's loop over a frame. */
  method FoldFrame(state: map<Name, Key>, f: Frame) returns (r: map<Name, Key>)
    requires forall i :: 0 <= i < |f.refs| ==> f.refs[i].Set?
    ensures r == Folded(state, f)
  {
    r := state;
    var i := 0;
    while i < |f.refs|
      invariant i <= |f.refs| && r == InTurn(state, f.refs[..i])
    {
      ghost var more := f.refs[..i + 1];
      assert more[..i] == f.refs[..i] && more[i] == f.refs[i];
      r := r[f.refs[i].name := f.refs[i].key];
      i := i + 1;
    }
    assert f.refs[..i] == f.refs;
    ghost var all := r;
    i := 0;
    while i < |f.deleted|
      invariant i <= |f.deleted| && r == all - (set n | n in f.deleted[..i])
    {
      ghost var more := f.deleted[..i + 1];
      assert more == f.deleted[..i] + [f.deleted[i]];
      r := r - {f.deleted[i]};
      i := i + 1;
    }
    assert f.deleted[..i] == f.deleted;
  }

  // ---- the node ----

  datatype Record = Gone | Garbled | Put(key: Key)

  /** A hint with its version; none when it cannot be read. */
  datatype Hint = Hint(name: Name, record: Record, version: Option<nat>)

  /** A listed reference; the key is none when its record cannot be read. */
  datatype Listed = Listed(name: Name, key: Option<Key>, version: nat)

  datatype Page = Failed | Page(entries: seq<Listed>, more: bool)

  const MAX_PAGE := 0x40_0000

  class RefWatch {
    const matches: Name -> bool
    const cost: Op -> nat
    var known: map<Name, RefState>
    var refs: seq<Op>
    var deleted: seq<Name>
    var size: nat
    /** What the client reported. */
    ghost const start: map<Name, Key>
    /** The changes of each frame sent and of the frame being filled, in the order queued. */
    ghost var sent: seq<seq<Op>>
    ghost var ops: seq<Op>

    /** The client's map after the frames sent so far. */
    ghost function Client(): (m: map<Name, Key>)
      reads this
    {
      FoldedAll(start, sent)
    }

    /** The frame being filled is what was queued, and while no frame sent re-creates a name,
        folding the queued changes in turn gives the believed keys. */
    ghost predicate Valid()
      reads this
    {
      && refs == Sets(ops) && deleted == Dels(ops)
      && (Clean(sent) ==> InTurn(Client(), ops) == Keys(known))
    }

    constructor (matches: Name -> bool, cost: Op -> nat, reported: map<Name, Key>)
      ensures Valid() && sent == [] && ops == [] && this.matches == matches
      ensures start == map n | n in reported && matches(n) :: reported[n]
      ensures Keys(known) == start && forall n :: n in known ==> known[n].version == 0
    {
      this.matches, this.cost := matches, cost;
      known := map n | n in reported && matches(n) :: RefState(Some(reported[n]), 0);
      refs, deleted, size := [], [], 0;
      start, sent, ops := map n | n in reported && matches(n) :: reported[n], [], [];
    }

    /** flush: an empty frame is not sent. */
    method Flush()
      requires Valid()
      modifies this`refs, this`deleted, this`size, this`sent, this`ops
      ensures Valid() && ops == [] && refs == [] && deleted == []
      ensures sent == if old(ops) == [] then old(sent) else old(sent) + [old(ops)]
      ensures Clean(sent) ==> Client() == Keys(known)
    {
      hide Clean, NoRecreation, FoldedAll, Folded, FrameOf, Keys;
      if refs == [] && deleted == [] {
        NothingQueued(ops);
        return;
      }
      FrameFoldsIff(Client(), ops);
      SentMore(start, sent, ops);
      sent, ops := sent + [ops], [];
      refs, deleted, size := [], [], 0;
    }

    method Queue(r: Op)
      requires refs == Sets(ops) && deleted == Dels(ops) && r.Set?
      requires Clean(sent) ==> After(InTurn(Client(), ops), r) == Keys(known)
      modifies this`refs, this`deleted, this`size, this`sent, this`ops
      ensures Valid() && old(sent) <= sent
    {
      InTurnMore(Client(), ops, r);
      refs, ops := refs + [r], ops + [r];
      size := size + cost(r);
      if size > MAX_PAGE {
        Flush();
      }
    }

    method QueueDeleted(name: Name)
      requires refs == Sets(ops) && deleted == Dels(ops)
      requires Clean(sent) ==> InTurn(Client(), ops) - {name} == Keys(known)
      modifies this`refs, this`deleted, this`size, this`sent, this`ops
      ensures Valid() && old(sent) <= sent
    {
      InTurnMore(Client(), ops, Del(name));
      deleted, ops := deleted + [name], ops + [Del(name)];
      size := size + cost(Del(name));
      if size > MAX_PAGE {
        Flush();
      }
    }

    /** applyHint: a hint at or below the known version changes nothing; a deletion is remembered. */
    method ApplyHint(h: Hint)
      requires Valid()
      modifies this
      ensures Valid() && old(sent) <= sent
      ensures known == Hinted(old(known), h)
    {
      if h.version == None || h.version == Some(0) {
        return;
      }
      var version := h.version.value;
      if Stale(known, h.name, version) {
        return;
      }
      var had := h.name in known;
      var st := if had then known[h.name] else RefState(None, 0);
      match h.record {
        case Gone =>
          known := known[h.name := RefState(None, version)];
          if had && st.key.Some? {
            KeysGone(old(known), h.name, version);
            QueueDeleted(h.name);
          } else {
            KeysSame(old(known), h.name, RefState(None, version));
          }
        case Garbled =>
        case Put(k) =>
          known := known[h.name := RefState(Some(k), version)];
          if had && st.key == Some(k) {
            KeysSame(old(known), h.name, RefState(Some(k), version));
          } else {
            KeysSet(old(known), h.name, k, version);
            Queue(Set(h.name, k));
          }
      }
    }

    method TakeEntry(e: Listed)
      requires Valid()
      modifies this
      ensures Valid() && old(sent) <= sent && known == Took(matches, old(known), e)
    {
      if !matches(e.name) || e.key.None? {
        return;
      }
      var had := e.name in known;
      var st := if had then known[e.name] else RefState(None, 0);
      if had && st.version != 0 && e.version < st.version {
        return;
      }
      known := known[e.name := RefState(e.key, e.version)];
      if had && st.key == e.key {
        KeysSame(old(known), e.name, RefState(e.key, e.version));
      } else {
        KeysSet(old(known), e.name, e.key.value, e.version);
        Queue(Set(e.name, e.key.value));
      }
    }

    method TakePage(es: seq<Listed>, seen0: set<Name>, ghost before: seq<Listed>) returns (seen: set<Name>)
      requires Valid() && seen0 == Seen(matches, before)
      requires Consistent(before + es) && AllUpToDate(matches, known, before)
      modifies this
      ensures Valid() && old(sent) <= sent
      ensures seen == Seen(matches, before + es) && AllUpToDate(matches, known, before + es)
    {
      seen := seen0;
      var i := 0;
      assert before + es[..0] == before;
      while i < |es|
        invariant i <= |es| && Valid() && old(sent) <= sent
        invariant seen == Seen(matches, before + es[..i]) && AllUpToDate(matches, known, before + es[..i])
      {
        ghost var now := before + es[..i];
        assert now + [es[i]] == before + es[..i + 1];
        assert Consistent(now + [es[i]]) by { PrefixConsistent(before + es, |now| + 1); assert (before + es)[..|now| + 1] == now + [es[i]]; }
        TookKeeps(matches, known, now, es[i]);
        SeenMore(matches, now, es[i]);
        if matches(es[i].name) && es[i].key.Some? {
          seen := seen + {es[i].name};
        }
        TakeEntry(es[i]);
        i := i + 1;
      }
      assert es[..i] == es;
    }

    /** What was not listed is gone. */
    method DropUnseen(seen: set<Name>)
      requires Valid()
      modifies this
      ensures Valid() && old(sent) <= sent
      ensures known == map n | n in old(known) && n in seen :: old(known)[n]
    {
      var todo := known.Keys - seen;
      while todo != {}
        invariant Valid() && old(sent) <= sent
        invariant todo <= known.Keys <= old(known).Keys && todo !! seen
        invariant forall n :: n in old(known) && (n in seen || n in todo) ==> n in known
        invariant forall n :: n in known ==> n in seen || n in todo
        invariant forall n :: n in known ==> known[n] == old(known)[n]
        decreases |todo|
      {
        var n :| n in todo;
        var st := known[n];
        KeysDropped(known, n);
        known := known - {n};
        todo := todo - {n};
        if st.key.Some? {
          QueueDeleted(n);
        }
      }
    }

    /** The scan loop of reconcile. */
    method TakeListing(pages: seq<Page>) returns (ok: bool, seen: set<Name>)
      requires Valid() && Consistent(Listing(pages))
      modifies this
      ensures Valid() && old(sent) <= sent && ok == Complete(pages)
      ensures ok ==> seen == Seen(matches, Listing(pages)) && AllUpToDate(matches, known, Listing(pages))
    {
      hide Consistent, Seen, AllUpToDate, Valid, Listing, Complete, Ahead;
      seen := {};
      ghost var done: seq<Listed> := [];
      var p := 0;
      NothingSeen(matches, known);
      NothingTaken(pages);
      while p < |pages|
        invariant p <= |pages| && Valid() && old(sent) <= sent && Ahead(pages, p, done)
        invariant seen == Seen(matches, done) && AllUpToDate(matches, known, done)
      {
        TakenPage(pages, p, done);
        if pages[p].Failed? {
          return false, seen;
        }
        PageConsistent(pages, p, done);
        seen := TakePage(pages[p].entries, seen, done);
        done := done + pages[p].entries;
        if !pages[p].more || pages[p].entries == [] {
          return true, seen;
        }
        p := p + 1;
      }
      AllTaken(pages, done);
      return true, seen;
    }

    /** reconcile: takes the listing, drops what it lacks, and sends.  A failed listing changes only
        the beliefs it got to. */
    method Reconcile(pages: seq<Page>) returns (ok: bool)
      requires Valid() && Consistent(Listing(pages))
      modifies this
      ensures Valid() && old(sent) <= sent && ok == Complete(pages)
      ensures ok ==> known.Keys == Seen(matches, Listing(pages)) && AllUpToDate(matches, known, Listing(pages))
      ensures ok ==> ops == [] && (Clean(sent) ==> Client() == Keys(known))
    {
      var seen;
      ok, seen := TakeListing(pages);
      if !ok {
        return;
      }
      ghost var full := known;
      SeenKnown(matches, known, Listing(pages));
      hide Seen, AllUpToDate, Listing, Complete, Consistent;
      DropUnseen(seen);
      RestrictedUpToDate(matches, full, known, Listing(pages));
      Flush();
    }
  }

  /** done are the entries of the first p pages, with the rest of the listing still ahead. */
  ghost predicate Ahead(pages: seq<Page>, p: nat, done: seq<Listed>)
    requires p <= |pages|
  {
    done + Listing(pages[p..]) == Listing(pages) && Complete(pages) == Complete(pages[p..])
  }

  lemma NothingSeen(matches: Name -> bool, known: map<Name, RefState>)
    ensures Seen(matches, []) == {} && AllUpToDate(matches, known, [])
  {
  }

  lemma NothingTaken(pages: seq<Page>)
    ensures Ahead(pages, 0, [])
  {
    assert pages[0..] == pages && [] + Listing(pages) == Listing(pages);
  }

  lemma AllTaken(pages: seq<Page>, done: seq<Listed>)
    requires Ahead(pages, |pages|, done)
    ensures done == Listing(pages) && Complete(pages)
  {
    assert pages[|pages|..] == [] && done + [] == done;
  }

  lemma TakenPage(pages: seq<Page>, p: nat, done: seq<Listed>)
    requires p < |pages| && Ahead(pages, p, done)
    ensures pages[p].Failed? ==> !Complete(pages)
    ensures pages[p].Page? && (!pages[p].more || pages[p].entries == []) ==>
              done + pages[p].entries == Listing(pages) && Complete(pages)
    ensures pages[p].Page? && pages[p].more && pages[p].entries != [] ==> Ahead(pages, p + 1, done + pages[p].entries)
  {
    var here := pages[p..];
    assert here[0] == pages[p] && here[1..] == pages[p + 1..];
    if pages[p].Page? && pages[p].more && pages[p].entries != [] {
      var es, rest := pages[p].entries, Listing(pages[p + 1..]);
      assert done + (es + rest) == (done + es) + rest;
    }
  }

  /** An entry that can be read and matches is believed, unless a newer version already is. */
  function Took(matches: Name -> bool, known: map<Name, RefState>, e: Listed): (r: map<Name, RefState>)
  {
    if !matches(e.name) || e.key.None? then known
    else if e.name in known && known[e.name].version != 0 && e.version < known[e.name].version then known
    else known[e.name := RefState(e.key, e.version)]
  }

  /** One listed entry: believed exactly when its name matches, its record can be read, and the
      belief is no newer; no other name is touched. */
  lemma TookIff(matches: Name -> bool, known: map<Name, RefState>, e: Listed, n: Name)
    ensures matches(e.name) && e.key.Some? && (e.name !in known || known[e.name].version <= e.version || known[e.name].version == 0) ==>
      e.name in Took(matches, known, e) && Took(matches, known, e)[e.name] == RefState(e.key, e.version)
    ensures !matches(e.name) || e.key.None? || (e.name in known && known[e.name].version > e.version) ==> Took(matches, known, e) == known
    ensures n != e.name ==> (n in Took(matches, known, e) <==> n in known) && (n in known ==> Took(matches, known, e)[n] == known[n])
  {
  }

  predicate Counts(matches: Name -> bool, e: Listed) { matches(e.name) && e.key.Some? }

  /** The belief is the listed one, or rests on a strictly newer version. */
  predicate UpToDate(known: map<Name, RefState>, e: Listed)
  {
    e.name in known && (known[e.name].version > e.version || known[e.name] == RefState(e.key, e.version))
  }

  ghost predicate AllUpToDate(matches: Name -> bool, known: map<Name, RefState>, es: seq<Listed>)
  {
    forall i :: 0 <= i < |es| && Counts(matches, es[i]) ==> UpToDate(known, es[i])
  }

  /** One version of a name has one key. */
  ghost predicate Consistent(es: seq<Listed>)
  {
    forall i, j :: 0 <= i < |es| && 0 <= j < |es| && es[i].name == es[j].name && es[i].version == es[j].version ==>
      es[i].key == es[j].key
  }

  /** Taking one more entry keeps the earlier ones up to date. */
  lemma TookKeeps(matches: Name -> bool, known: map<Name, RefState>, es: seq<Listed>, e: Listed)
    requires AllUpToDate(matches, known, es) && Consistent(es + [e])
    ensures AllUpToDate(matches, Took(matches, known, e), es + [e])
  {
    var all := es + [e];
    forall i | 0 <= i < |all| && Counts(matches, all[i])
      ensures UpToDate(Took(matches, known, e), all[i])
    {
      assert all[|es|] == e;
      if i < |es| { assert all[i] == es[i]; }
    }
  }

  /** The names of the entries that count. */
  function Seen(matches: Name -> bool, es: seq<Listed>): (r: set<Name>)
  {
    set i | 0 <= i < |es| && Counts(matches, es[i]) :: es[i].name
  }

  lemma SeenMore(matches: Name -> bool, es: seq<Listed>, e: Listed)
    ensures Seen(matches, es + [e]) == Seen(matches, es) + if Counts(matches, e) then {e.name} else {}
  {
    var all := es + [e];
    assert all[|es|] == e;
    forall n | n in Seen(matches, es)
      ensures n in Seen(matches, all)
    {
      var i :| 0 <= i < |es| && Counts(matches, es[i]) && es[i].name == n;
      assert all[i] == es[i];
    }
  }

  /** The entries of the pages up to a failure or the end of the listing. */
  function Listing(pages: seq<Page>): (es: seq<Listed>)
  {
    if pages == [] || pages[0].Failed? then []
    else if !pages[0].more || pages[0].entries == [] then pages[0].entries
    else pages[0].entries + Listing(pages[1..])
  }

  predicate Complete(pages: seq<Page>)
  {
    pages == [] || (pages[0].Page? && (!pages[0].more || pages[0].entries == [] || Complete(pages[1..])))
  }

  /** A belief at or above the version is not changed by it. */
  predicate Stale(known: map<Name, RefState>, n: Name, version: nat)
  {
    n in known && known[n].version != 0 && version <= known[n].version
  }

  function Hinted(known: map<Name, RefState>, h: Hint): (r: map<Name, RefState>)
  {
    if h.version == None || h.version == Some(0) || Stale(known, h.name, h.version.value) then known
    else
      match h.record
      case Gone => known[h.name := RefState(None, h.version.value)]
      case Garbled => known
      case Put(k) => known[h.name := RefState(Some(k), h.version.value)]
  }

  lemma KeysGone(known: map<Name, RefState>, n: Name, version: nat)
    ensures Keys(known[n := RefState(None, version)]) == Keys(known) - {n}
  {
  }

  lemma KeysSet(known: map<Name, RefState>, n: Name, k: Key, version: nat)
    ensures Keys(known[n := RefState(Some(k), version)]) == Keys(known)[n := k]
  {
  }

  lemma KeysSame(known: map<Name, RefState>, n: Name, st: RefState)
    requires st.key == if n in known then known[n].key else None
    ensures Keys(known[n := st]) == Keys(known)
  {
  }

  lemma {:induction false} NothingQueued(ops: seq<Op>)
    ensures Sets(ops) == [] && Dels(ops) == [] <==> ops == []
  {
  }

  /** No frame re-creates a name. */
  ghost predicate Clean(sent: seq<seq<Op>>) { forall i :: 0 <= i < |sent| ==> NoRecreation(sent[i]) }

  /** The client's map after the frames of sent. */
  function FoldedAll(m: map<Name, Key>, sent: seq<seq<Op>>): (r: map<Name, Key>)
  {
    if sent == [] then m else Folded(FoldedAll(m, sent[..|sent| - 1]), FrameOf(sent[|sent| - 1]))
  }

  lemma SentMore(m: map<Name, Key>, sent: seq<seq<Op>>, ops: seq<Op>)
    ensures FoldedAll(m, sent + [ops]) == Folded(FoldedAll(m, sent), FrameOf(ops))
    ensures Clean(sent + [ops]) <==> Clean(sent) && NoRecreation(ops)
  {
    var all := sent + [ops];
    assert all[..|sent|] == sent;
    if Clean(all) {
      assert forall i :: 0 <= i < |sent| ==> all[i] == sent[i];
      assert all[|sent|] == ops;
    }
  }

  lemma PrefixConsistent(es: seq<Listed>, n: nat)
    requires Consistent(es) && n <= |es|
    ensures Consistent(es[..n])
  {
  }

  lemma PageConsistent(pages: seq<Page>, p: nat, done: seq<Listed>)
    requires p < |pages| && pages[p].Page? && Consistent(Listing(pages)) && Ahead(pages, p, done)
    ensures Consistent(done + pages[p].entries)
  {
    var here, all := pages[p..], Listing(pages);
    assert here[0] == pages[p];
    var es := pages[p].entries;
    assert es <= Listing(here);
    PrefixConsistent(all, |done| + |es|);
    assert all[..|done| + |es|] == done + es;
  }

  lemma SeenKnown(matches: Name -> bool, known: map<Name, RefState>, es: seq<Listed>)
    requires AllUpToDate(matches, known, es)
    ensures Seen(matches, es) <= known.Keys
  {
  }

  lemma RestrictedUpToDate(matches: Name -> bool, full: map<Name, RefState>, known: map<Name, RefState>, es: seq<Listed>)
    requires AllUpToDate(matches, full, es) && known == map n | n in full && n in Seen(matches, es) :: full[n]
    ensures AllUpToDate(matches, known, es)
  {
    forall i | 0 <= i < |es| && Counts(matches, es[i])
      ensures UpToDate(known, es[i])
    {
      assert es[i].name in Seen(matches, es);
    }
  }

  lemma KeysDropped(known: map<Name, RefState>, n: Name)
    requires n in known
    ensures Keys(known - {n}) == Keys(known) - {n}
    ensures known[n].key.None? ==> Keys(known - {n}) == Keys(known)
  {
  }

  // ---- hints in any order ----

  /** A hint that says something: a version, and a deletion or a record that can be read. */
  predicate Readable(h: Hint) { h.version.Some? && h.version.value > 0 && !h.record.Garbled? }

  /** What a readable hint says about its name. */
  function Says(h: Hint): (st: RefState)
    requires Readable(h)
  {
    RefState(if h.record.Put? then Some(h.record.key) else None, h.version.value)
  }

  function VersionOf(known: map<Name, RefState>, n: Name): (v: nat) { if n in known then known[n].version else 0 }

  /** One hint: believed exactly when it is readable and newer than the belief, and about its own
      name only. */
  lemma HintIsTakenIff(known: map<Name, RefState>, h: Hint, n: Name)
    ensures Readable(h) && h.name == n && h.version.value > VersionOf(known, n) ==>
      n in Hinted(known, h) && Hinted(known, h)[n] == Says(h)
    ensures !(Readable(h) && h.name == n && h.version.value > VersionOf(known, n)) ==>
      (n in Hinted(known, h) <==> n in known) && (n in known ==> Hinted(known, h)[n] == known[n])
  {
  }

  function HintedAll(known: map<Name, RefState>, hs: seq<Hint>): (r: map<Name, RefState>)
  {
    if hs == [] then known else Hinted(HintedAll(known, hs[..|hs| - 1]), hs[|hs| - 1])
  }

  ghost predicate SaidBy(hs: seq<Hint>, n: Name, st: RefState)
  {
    exists h :: h in hs && Readable(h) && h.name == n && Says(h) == st
  }

  /** After any hints the belief about a name is the newest said, or the one before if that is no
      older. */
  lemma {:induction false} NewestIsBelieved(known: map<Name, RefState>, hs: seq<Hint>, n: Name)
    ensures var r := HintedAll(known, hs);
      && VersionOf(r, n) >= VersionOf(known, n)
      && (forall h :: h in hs && Readable(h) && h.name == n ==> n in r && h.version.value <= r[n].version)
      && (n in known ==> n in r)
      && (n in r ==> (n in known && r[n] == known[n]) || (SaidBy(hs, n, r[n]) && r[n].version > VersionOf(known, n)))
  {
    if hs != [] {
      var k := |hs| - 1;
      var init, h := HintedAll(known, hs[..k]), hs[k];
      assert hs == hs[..k] + [h];
      NewestIsBelieved(known, hs[..k], n);
      HintIsTakenIff(init, h, n);
      hide Hinted, Readable;
      var r := HintedAll(known, hs);
      if n in r && !(n in known && r[n] == known[n]) {
        if n in init && r[n] == init[n] {
          var g :| g in hs[..k] && Readable(g) && g.name == n && Says(g) == init[n];
          assert g in hs;
        }
        assert SaidBy(hs, n, r[n]);
      }
    }
  }

  /** Two hints about one name with one version say the same. */
  ghost predicate Agreeing(hs: seq<Hint>)
  {
    forall g, h :: g in hs && h in hs && Readable(g) && Readable(h) && g.name == h.name && g.version == h.version ==> Says(g) == Says(h)
  }

  /** Order, loss of older ones and repetition do not matter: the same hints in any order, any
      number of times, lead to the same belief. */
  lemma HintsCommute(known: map<Name, RefState>, hs: seq<Hint>, gs: seq<Hint>)
    requires Agreeing(hs) && forall h :: h in hs <==> h in gs
    ensures HintedAll(known, hs) == HintedAll(known, gs)
  {
    var r, q := HintedAll(known, hs), HintedAll(known, gs);
    forall n ensures (n in r <==> n in q) && (n in r ==> r[n] == q[n]) {
      NewestIsBelieved(known, hs, n);
      NewestIsBelieved(known, gs, n);
      hide HintedAll, Readable;
    }
  }

  /** But a deletion is remembered only up to the next reconcile: with the name gone from the
      beliefs a delayed older put is taken. */
  lemma DelayedPutIsTaken(known: map<Name, RefState>, n: Name, k: Key, older: nat, newer: nat)
    requires 0 < older < newer
    ensures Hinted(known[n := RefState(None, newer)], Hint(n, Put(k), Some(older))) == known[n := RefState(None, newer)]
    ensures n !in known ==> Hinted(known, Hint(n, Put(k), Some(older))) == known[n := RefState(Some(k), older)]
  {
  }
}
