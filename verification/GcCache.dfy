/** How old a finding of an earlier gate may be.  A gate does not ask about keys below an entry that is
    fresh in its cache (node/refs.go); what protects such a key is the pin of the gate that did ask. */
module GcCache {

  import opened GcStore
  import opened GcSafety
  import opened GcRepair

  /** Gate id asked this node for k and found its copy good, which it has been since. */
  ghost predicate FoundBy(c: Config, s: State, id: nat, k: Key)
  {
    id in s.gates && k in c.reach(s.gates[id].root) && Sound(s, s.gates[id], k)
  }

  lemma FinderIsRecent(c: Config, s: State, id: nat, proposed: nat)
    requires StoreOk(s) && TimesOk(c, s) && id in s.gates && GateOk(s, s.gates[id])
    requires AfterSnapshot(s.ep.phase) && proposed > s.ep.phase.began
    requires proposed + c.lag <= s.gates[id].at + c.gcInterval
    ensures s.gates[id].count >= s.store.counter - 1 >= s.dropped
  {
    var i := s.store.counter - 2;
    assert i >= 0 ==> s.times[i] + c.gcInterval <= s.ep.barrierAt + c.lag;
  }

  /** A key below a committed reference that any gate found, at most gcInterval less lag before the
      reference was proposed, is live for the sweep. */
  lemma BorrowedIsLive(c: Config, s: State, name: Name, id: nat, k: Key, mine: set<Key>, settled: Pack -> bool)
    requires GoodConfig(c) && Inv(c, s) && s.ep.phase.Marked? && s.ep.phase.si.count > 0
    requires name in s.refs && k in c.reach(Root(s, s.refs[name])) && k in s.ep.phase.si.owned
    requires FoundBy(c, s, id, k) && s.refs[name].proposed + c.lag <= s.gates[id].at + c.gcInterval
    ensures Live(s.store, c.tail, s.ep.phase.si, mine, settled, k)
  {
    hide KeysOk;
    var r, si, g := s.refs[name], s.ep.phase.si, s.gates[id];
    assert k !in s.store.corrupt;
    if k in si.eligible && !IsRoot(s, r) {
      FinderIsRecent(c, s, id, r.proposed);
      assert Covered(c, s, g, k, Eligible(s.ep.phase)[k]) by {
        assert Guards(c, s, g, k);
      }
    }
  }

  /** In every run no sweep removes such a copy. */
  lemma SweepSparesBorrowed(c: Config, states: seq<State>, events: seq<Event>, i: nat, name: Name, id: nat, k: Key)
    requires GoodConfig(c) && IsRun(c, states, events) && i < |events| && events[i].Sweep?
    requires states[i].ep.phase.Marked? && k in states[i].ep.phase.si.owned && Holds(states[i].store, k)
    requires name in states[i].refs && k in c.reach(Root(states[i], states[i].refs[name]))
    requires FoundBy(c, states[i], id, k)
    requires states[i].refs[name].proposed + c.lag <= states[i].gates[id].at + c.gcInterval
    ensures Holds(states[i + 1].store, k)
  {
    hide Inv, Live;
    var s, e := states[i], events[i];
    RunInv(c, states, events, i);
    RunStep(c, states, events, i);
    hide IsRun;
    BorrowedIsLive(c, s, name, id, k, e.mine, e.settled);
    assert k !in e.dead;
  }

  // ---- an older finding ----

  /** Room for the steps between a barrier's start and its arrival. */
  ghost predicate Roomy(c: Config)
  {
    GoodConfig(c) && c.lag >= 4
  }

  function Pinned0(c: Config, k: Key, barriers: nat): (s: Store)
  {
    Kept(k, barriers).(pins := map[c.tail(k) := 0])
  }

  function Finder(c: Config, root: Key, k: Key): (g: Gate)
  {
    Gate(root, {k}, c.lag, 0, map[k := c.lag + 1], {})
  }

  function Early(c: Config, root: Key, k: Key, now: nat, barriers: nat, times: seq<nat>, ep: Epochs): (s: State)
  {
    Quiet(now, Pinned0(c, k, barriers), times, ep).(gates := map[1 := Finder(c, root, k)])
  }

  lemma FindsGood(c: Config, s: State, t: State, k: Key)
    requires Holds(s.store, k) && s.store.pins == map[] && s.store.counter == 0
    requires 1 in s.gates && s.gates[1].visited == map[] && s.gates[1].missed == {}
    requires s.now < t.now && t == s.(now := t.now, store := s.store.(pins := map[c.tail(k) := 0]),
                                      gates := s.gates[1 := s.gates[1].(visited := map[k := s.now])])
    ensures Next(c, s, VisitGate(1, {k}), t)
  {
    var held := set x | x in {k} && Holds(s.store, x);
    assert held == {k};
    assert Tails(c.tail, held) == {c.tail(k)};
    assert HasAndPin(s.store, c.tail, {k}).pins == map[c.tail(k) := 0];
    hide HasAndPin;
    assert Visited(s, s.gates[1], {k}).visited == map[k := s.now];
    assert Visited(s, s.gates[1], {k}).missed == {};
  }

  /** A gate finds the key just before the first barrier arrives. */
  lemma FoundEarly(c: Config, root: Key, k: Key) returns (s: State)
    requires Roomy(c) && k in c.reach(root)
    ensures Reached(c, s)
    ensures s == Early(c, root, k, c.lag + 2, 0, [], Epochs(1, 2, false, false, InBarrier))
  {
    hide Reached;
    var l := c.lag;
    var s2 := Sealed(c, k);
    var s3 := Quiet(l, Kept(k, 0), [], Epochs(1, 2, false, false, InBarrier));
    Go(c, s2, StartEpoch, s3);
    var s4 := s3.(now := l + 1, gates := map[1 := Gate(root, {k}, l, 0, map[], {})]);
    Go(c, s3, StartGate(1, root, {k}), s4);
    s := Early(c, root, k, l + 2, 0, [], Epochs(1, 2, false, false, InBarrier));
    FindsGood(c, s4, s, k);
    Go(c, s4, VisitGate(1, {k}), s);
  }

  /** The first barrier arrives, and its epoch is given up. */
  lemma OnePassed(c: Config, root: Key, k: Key) returns (s: State)
    requires Roomy(c) && k in c.reach(root)
    ensures Reached(c, s)
    ensures s == Early(c, root, k, 2 + c.gcInterval, 1, [c.lag + 2], Epochs(1, 2, true, true, Idle))
  {
    hide Reached;
    var s0 := FoundEarly(c, root, k);
    var s1 := Early(c, root, k, c.lag + 3, 1, [c.lag + 2], Epochs(1, 2, true, true, InBarrier));
    Go(c, s0, HandleBarrier, s1);
    s := Early(c, root, k, 2 + c.gcInterval, 1, [c.lag + 2], Epochs(1, 2, true, true, Idle));
    Go(c, s1, AbortEpoch, s);
  }

  /** The second arrives, and a snapshot begins. */
  lemma TwoPassed(c: Config, root: Key, k: Key, now: nat) returns (s: State)
    requires Roomy(c) && k in c.reach(root) && now >= 5 + c.gcInterval
    ensures Reached(c, s)
    ensures var g := c.gcInterval;
      s == Early(c, root, k, now, 2, [c.lag + 2, 3 + g], Epochs(2, 2 + g, true, true, Snapshotting(4 + g)))
  {
    hide Reached;
    var g, l := c.gcInterval, c.lag;
    var s0 := OnePassed(c, root, k);
    var s1 := Early(c, root, k, 3 + g, 1, [l + 2], Epochs(2, 2 + g, false, false, InBarrier));
    Go(c, s0, StartEpoch, s1);
    var s2 := Early(c, root, k, 4 + g, 2, [l + 2, 3 + g], Epochs(2, 2 + g, true, true, InBarrier));
    Go(c, s1, HandleBarrier, s2);
    s := Early(c, root, k, now, 2, [l + 2, 3 + g], Epochs(2, 2 + g, true, true, Snapshotting(4 + g)));
    Go(c, s2, StartSnapshot, s);
  }

  /** A second gate asks for nothing here and its reference is proposed. */
  lemma ProposedLate(c: Config, root: Key, k: Key, at: nat) returns (s: State)
    requires Roomy(c) && k in c.reach(root) && at >= 6 + c.gcInterval
    ensures Reached(c, s)
    ensures var g := c.gcInterval;
      s == Early(c, root, k, at + 1, 2, [c.lag + 2, 3 + g], Epochs(2, 2 + g, true, true, Snapshotting(4 + g))).(
             gates := map[1 := Finder(c, root, k), 2 := Gate(root, {}, at - 1, 2, map[], {})],
             proposals := map[1 := Ref(2, at)])
  {
    hide Reached;
    var s0 := TwoPassed(c, root, k, at - 1);
    var s1 := s0.(now := at, gates := map[1 := Finder(c, root, k), 2 := Gate(root, {}, at - 1, 2, map[], {})]);
    Go(c, s0, StartGate(2, root, {}), s1);
    s := s1.(now := at + 1, proposals := map[1 := Ref(2, at)]);
    Go(c, s1, ProposeRef(1, 2), s);
  }

  /** The mark lists the key and does not find it. */
  lemma UnmarkedLate(c: Config, root: Key, k: Key, at: nat) returns (s: State)
    requires Roomy(c) && k in c.reach(root) && at >= 6 + c.gcInterval
    ensures Reached(c, s)
    ensures var g := c.gcInterval;
      s == Early(c, root, k, at + 3, 2, [c.lag + 2, 3 + g], Epochs(2, 2 + g, true, true, Marked(4 + g, Swept(k)))).(
             gates := map[1 := Finder(c, root, k), 2 := Gate(root, {}, at - 1, 2, map[], {})],
             proposals := map[1 := Ref(2, at)])
  {
    hide Reached;
    var g := c.gcInterval;
    var s0 := ProposedLate(c, root, k, at);
    assert EligibleNow(s0.store, 2) == map[k := 0];
    var s1 := s0.(now := at + 2, ep := s0.ep.(phase := Marking(4 + g, map[k := 0])));
    Go(c, s0, StartMark, s1);
    s := s1.(now := at + 3, ep := s0.ep.(phase := Marked(4 + g, Swept(k))));
    Go(c, s1, FinishMark({}, {k}, false), s);
  }

  lemma UnpinnedMayGo(c: Config, s: State, k: Key)
    requires s.store == Pinned0(c, k, 2) && s.ep.phase.Marked? && s.ep.phase.si == Swept(k)
    ensures Enabled(c, s, Sweep({k}, {}, _ => false, {}))
  {
    LiveIff(s.store, c.tail, Swept(k), {}, _ => false, k);
  }

  /** For every age from gcInterval less lag and six on: a run in which a committed reference rests, for
      a key below it, on a finding of that age, the copy has been good all the time, and the sweep may
      take it. */
  lemma OldFindingGoes(c: Config, root: Key, k: Key, name: Name, age: nat) returns (s: State)
    requires Roomy(c) && k in c.reach(root) && age + c.lag >= c.gcInterval + 6
    ensures Reached(c, s) && s.ep.phase.Marked? && k in s.ep.phase.si.owned && Holds(s.store, k)
    ensures name in s.refs && Root(s, s.refs[name]) == root && FoundBy(c, s, 1, k)
    ensures s.refs[name].proposed == s.gates[1].at + age
    ensures Enabled(c, s, Sweep({k}, {}, _ => false, {}))
  {
    hide Reached;
    var at := c.lag + age;
    var s0 := UnmarkedLate(c, root, k, at);
    s := s0.(now := at + 4, refs := map[name := Ref(2, at)]);
    Go(c, s0, CommitRef(name, 1), s);
    UnpinnedMayGo(c, s, k);
    hide Enabled;
  }
}
