/** Why the sweep's guarantee needs the copy to be good when the gate comes by: a copy that was
    corrupt then and is repaired later can be taken below a committed reference. */
module GcRepair {

  import opened GcStore
  import opened GcSafety

  /** Time enough for a gate's request and proposal, and for a barrier to arrive. */
  ghost predicate TakesTime(c: Config)
  {
    GoodConfig(c) && c.putTTL >= 2 && c.lag >= 1
  }

  ghost predicate Reached(c: Config, s: State)
  {
    exists states, events :: IsRun(c, states, events) && states[|events|] == s
  }

  lemma Begin(c: Config, s: State)
    requires Init(s)
    ensures Reached(c, s)
  {
    var states, events: seq<Event> := [s], [];
    assert IsRun(c, states, events) && states[|events|] == s;
  }

  lemma Go(c: Config, s: State, e: Event, t: State)
    requires Reached(c, s) && Next(c, s, e, t)
    ensures Reached(c, t)
  {
    hide Next, Init;
    var states, events :| IsRun(c, states, events) && states[|events|] == s;
    var ss, es := states + [t], events + [e];
    assert IsRun(c, ss, es) && ss[|es|] == t;
  }

  function Kept(k: Key, barriers: nat): (s: Store)
  {
    Store(barriers, seq(barriers, i => 1), map[k := 0], map[], {}, 1)
  }

  function Quiet(now: nat, store: Store, times: seq<nat>, ep: Epochs): (s: State)
  {
    State(now, store, times, map[], 0, map[], map[], map[], ep, Snapshot({}, map[]))
  }

  /** A record in a sealed pack. */
  lemma Sealed(c: Config, k: Key) returns (s: State)
    ensures Reached(c, s) && s == Quiet(2, Kept(k, 0), [], Epochs(0, 0, false, false, Idle))
  {
    hide Reached;
    var ep := Epochs(0, 0, false, false, Idle);
    var s0 := Quiet(0, Store(0, [], map[], map[], {}, 0), [], ep);
    Begin(c, s0);
    var s1 := Quiet(1, Store(0, [], map[k := 0], map[], {}, 0), [], ep);
    PutFirst(c, s0, s1, k);
    Go(c, s0, Put({k}), s1);
    s := Quiet(2, Kept(k, 0), [], ep);
    assert Next(c, s1, Seal(1), s);
    Go(c, s1, Seal(1), s);
  }

  lemma PutFirst(c: Config, s: State, t: State, k: Key)
    requires !Holds(s.store, k) && t.now > s.now
    requires t == s.(now := t.now,
                     store := s.store.(records := s.store.records[k := s.store.active], corrupt := s.store.corrupt - {k}))
    ensures Next(c, s, Put({k}), t)
  {
    WrittenAfresh(s.store, c.tail, k);
    hide PutAll;
  }

  lemma WrittenAfresh(s: Store, tail: Key -> nat, k: Key)
    requires !Holds(s, k)
    ensures PutAll(s, tail, {k}) == s.(records := s.records[k := s.active], corrupt := s.corrupt - {k})
  {
    var held := set x | x in {k} && Holds(s, x);
    assert held == {};
    assert Tails(tail, held) == {};
    var r := PutAll(s, tail, {k});
    assert r.pins == s.pins && r.records == s.records[k := s.active];
  }

  /** Two barriers later, the first epoch given up. */
  lemma TwoBarriers(c: Config, k: Key) returns (s: State)
    requires TakesTime(c)
    ensures Reached(c, s)
    ensures var g := c.gcInterval;
      s == Quiet(6 + g, Kept(k, 2), [3, 5 + g], Epochs(2, 4 + g, true, true, InBarrier))
  {
    hide Reached;
    var g := c.gcInterval;
    var s2 := Sealed(c, k);
    var s3 := Quiet(3, Kept(k, 0), [], Epochs(1, 2, false, false, InBarrier));
    Go(c, s2, StartEpoch, s3);
    var s4 := Quiet(4, Kept(k, 1), [3], Epochs(1, 2, true, true, InBarrier));
    Go(c, s3, HandleBarrier, s4);
    var s5 := Quiet(4 + g, Kept(k, 1), [3], Epochs(1, 2, true, true, Idle));
    Go(c, s4, AbortEpoch, s5);
    var s6 := Quiet(5 + g, Kept(k, 1), [3], Epochs(2, 4 + g, false, false, InBarrier));
    Go(c, s5, StartEpoch, s6);
    s := Quiet(6 + g, Kept(k, 2), [3, 5 + g], Epochs(2, 4 + g, true, true, InBarrier));
    Go(c, s6, HandleBarrier, s);
  }

  function Swept(k: Key): (si: SweepInput) { SweepInput(2, map[k := 0], {}, {k}, false) }

  /** The mark of the second epoch lists the record and finds nothing. */
  lemma NothingMarked(c: Config, k: Key) returns (s: State)
    requires TakesTime(c)
    ensures Reached(c, s)
    ensures var g := c.gcInterval;
      s == Quiet(9 + g, Kept(k, 2), [3, 5 + g], Epochs(2, 4 + g, true, true, Marked(6 + g, Swept(k))))
  {
    hide Reached;
    var g := c.gcInterval;
    var s0 := TwoBarriers(c, k);
    var s1 := Quiet(7 + g, Kept(k, 2), [3, 5 + g], Epochs(2, 4 + g, true, true, Snapshotting(6 + g)));
    Go(c, s0, StartSnapshot, s1);
    var s2 := Quiet(8 + g, Kept(k, 2), [3, 5 + g], Epochs(2, 4 + g, true, true, Marking(6 + g, map[k := 0])));
    assert EligibleNow(s1.store, 2) == map[k := 0];
    Go(c, s1, StartMark, s2);
    s := Quiet(9 + g, Kept(k, 2), [3, 5 + g], Epochs(2, 4 + g, true, true, Marked(6 + g, Swept(k))));
    Go(c, s2, FinishMark({}, {k}, false), s);
  }

  /** The copy goes bad, and a gate finds it so. */
  lemma FoundCorrupt(c: Config, root: Key, k: Key) returns (s: State)
    requires TakesTime(c) && k in c.reach(root)
    ensures Reached(c, s)
    ensures var g := c.gcInterval;
      s == Quiet(12 + g, Kept(k, 2).(corrupt := {k}), [3, 5 + g], Epochs(2, 4 + g, true, true, Marked(6 + g, Swept(k)))).(
             hurt := map[k := 9 + g], gates := map[1 := Gate(root, {k}, 10 + g, 2, map[k := 11 + g], {k})])
  {
    hide Reached;
    var g := c.gcInterval;
    var s0 := NothingMarked(c, k);
    var s1 := s0.(now := 10 + g, store := Kept(k, 2).(corrupt := {k}), hurt := map[k := 9 + g]);
    Go(c, s0, Corrupt(k), s1);
    var s2 := s1.(now := 11 + g, gates := map[1 := Gate(root, {k}, 10 + g, 2, map[], {})]);
    Go(c, s1, StartGate(1, root, {k}), s2);
    s := s2.(now := 12 + g, gates := map[1 := Gate(root, {k}, 10 + g, 2, map[k := 11 + g], {k})]);
    FindsCorrupt(c, s2, s, k);
    Go(c, s2, VisitGate(1, {k}), s);
  }

  lemma FindsCorrupt(c: Config, s: State, t: State, k: Key)
    requires k in s.store.corrupt && 1 in s.gates && s.gates[1].visited == map[] && s.gates[1].missed == {}
    requires s.now < t.now && t == s.(now := t.now, gates := s.gates[1 := s.gates[1].(visited := map[k := s.now], missed := {k})])
    ensures Next(c, s, VisitGate(1, {k}), t)
  {
    NotPinned(c, s, k);
    hide HasAndPin;
    assert Visited(s, s.gates[1], {k}).visited == map[k := s.now];
    assert Visited(s, s.gates[1], {k}).missed == {k};
  }

  lemma NotPinned(c: Config, s: State, k: Key)
    requires k in s.store.corrupt
    ensures HasAndPin(s.store, c.tail, {k}) == s.store
  {
    var held := set x | x in {k} && Holds(s.store, x);
    assert held == {};
    assert Tails(c.tail, held) == {};
  }

  /** In every configuration that leaves time for its steps: a copy that the gate of a committed
      reference found corrupt, and that is good again, may be taken by the sweep. */
  lemma RepairedCopyGoes(c: Config, root: Key, k: Key, name: Name) returns (s: State)
    requires TakesTime(c) && k in c.reach(root)
    ensures Reached(c, s) && s.ep.phase.Marked? && k in s.ep.phase.si.owned
    ensures name in s.refs && Root(s, s.refs[name]) == root && Holds(s.store, k)
    ensures Enabled(c, s, Sweep({k}, {}, _ => false, {}))
  {
    hide Reached;
    var g := c.gcInterval;
    var s0 := FoundCorrupt(c, root, k);
    var s1 := s0.(now := 13 + g, proposals := map[1 := Ref(1, 12 + g)]);
    Go(c, s0, ProposeRef(1, 1), s1);
    var s2 := s1.(now := 14 + g, refs := map[name := Ref(1, 12 + g)]);
    Go(c, s1, CommitRef(name, 1), s2);
    s := s2.(now := 15 + g, store := Kept(k, 2).(records := map[k := 1]));
    PutFirst(c, s2, s, k);
    Go(c, s2, Put({k}), s);
    LiveIff(s.store, c.tail, Swept(k), {}, _ => false, k);
  }
}
