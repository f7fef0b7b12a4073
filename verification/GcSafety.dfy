/** What one node keeps for garbage collection (node/gc.go, node/node.go, node/data.go): the
    barrier counter with its history, the records by pack, the pins and the corrupt markers. */
module GcStore {

  type Key = nat
  type Pack = nat

  /** Pins are kept under a key's tail, so keys may share one. */
  datatype Store = Store(
    counter: nat,
    eligBelow: seq<Pack>,
    records: map<Key, Pack>,
    pins: map<nat, nat>,
    corrupt: set<Key>,
    active: Pack)

  function Elements(keys: seq<Key>): (r: set<Key>)
  {
    set k | k in keys
  }

  predicate Holds(s: Store, k: Key) { k in s.records && k !in s.corrupt }

  predicate Pinned(s: Store, tail: Key -> nat, k: Key, atLeast: nat)
  {
    tail(k) in s.pins && s.pins[tail(k)] >= atLeast
  }

  function Tails(tail: Key -> nat, keys: set<Key>): (r: set<nat>)
  {
    set k | k in keys :: tail(k)
  }

  function PinAll(pins: map<nat, nat>, tails: set<nat>, c: nat): (r: map<nat, nat>)
  {
    map t | t in pins.Keys + tails :: if t in tails then c else pins[t]
  }

  lemma PinMore(pins: map<nat, nat>, tail: Key -> nat, keys: seq<Key>, i: nat, c: nat)
    requires i < |keys|
    ensures PinAll(pins, Tails(tail, Elements(keys[..i + 1])), c) ==
            PinAll(pins, Tails(tail, Elements(keys[..i])), c)[tail(keys[i]) := c]
  {
    var less, more := keys[..i], keys[..i + 1];
    assert more == less + [keys[i]];
    assert Elements(more) == Elements(less) + {keys[i]};
    assert Tails(tail, Elements(more)) == Tails(tail, Elements(less)) + {tail(keys[i])};
  }

  /** Presence with pins: the keys held are pinned at the current number. */
  function HasAndPin(s: Store, tail: Key -> nat, keys: set<Key>): (r: Store)
  {
    s.(pins := PinAll(s.pins, Tails(tail, set k | k in keys && Holds(s, k)), s.counter))
  }

  /** A batch of records: those held are pinned, the others are written afresh. */
  function PutAll(s: Store, tail: Key -> nat, keys: set<Key>): (r: Store)
  {
    s.(
    pins := PinAll(s.pins, Tails(tail, set k | k in keys && Holds(s, k)), s.counter),
    records := map k | k in s.records.Keys + keys ::
      if k in keys && !Holds(s, k) then s.active else s.records[k],
    corrupt := s.corrupt - keys)
  }

  /** A barrier: the next number, with the pack that is active now. */
  function Barrier(s: Store): (r: Store)
  {
    s.(counter := s.counter + 1, eligBelow := s.eligBelow + [s.active])
  }

  function DropPins(s: Store, below: nat): (r: Store)
  {
    s.(pins := map t | t in s.pins && s.pins[t] >= below :: s.pins[t])
  }

  /** What the mark hands to the sweep. */
  datatype SweepInput = SweepInput(count: nat, eligible: map<Key, Pack>, marked: set<Key>, owned: set<Key>, overflow: bool)

  /** The pack number a barrier recorded; no barrier, no pack below. */
  function History(s: Store, count: nat): (r: Pack)
  {
    if 0 < count <= |s.eligBelow| then s.eligBelow[count - 1] else 0
  }

  /** The sweep's test: settled and mine say what it needs of the current placement. */
  predicate Live(s: Store, tail: Key -> nat, si: SweepInput, mine: set<Key>, settled: Pack -> bool, k: Key)
    requires si.count > 0
  {
    if k in s.corrupt then false
    else if k !in si.eligible then true
    else if si.eligible[k] >= History(s, si.count - 1) then true
    else if Pinned(s, tail, k, si.count - 1) then true
    else if k in si.owned then k in si.marked || si.overflow
    else if k in mine then true
    else !settled(si.eligible[k])
  }

  /** The test on the fields, see SweepMayRemoveIff. */
  lemma LiveIff(s: Store, tail: Key -> nat, si: SweepInput, mine: set<Key>, settled: Pack -> bool, k: Key)
    requires 0 < si.count <= |s.eligBelow|
    ensures !Live(s, tail, si, mine, settled, k) <==>
      || k in s.corrupt
      || (&& k in si.eligible && si.count > 1 && si.eligible[k] < s.eligBelow[si.count - 2]
          && !(tail(k) in s.pins && s.pins[tail(k)] + 1 >= si.count)
          && if k in si.owned then k !in si.marked && !si.overflow else k !in mine && settled(si.eligible[k]))
  {
  }

  /** Records below the barrier's pack: what the mark may free. */
  function EligibleNow(s: Store, count: nat): (r: map<Key, Pack>)
  {
    map k | k in s.records && s.records[k] < History(s, count) :: s.records[k]
  }

  /** Longest time the clocks may disagree, and the interval below which no refusal is made. */
  const SKEW := 5 * 60 * 1_000_000_000
  const SHORT := 10 * 60 * 1_000_000_000

  class NodeStore {
    var counter: nat
    var lastAck: nat
    var eligBelow: seq<Pack>
    var records: map<Key, Pack>
    var pins: map<nat, nat>
    var corrupt: set<Key>
    var active: Pack
    const tail: Key -> nat

    constructor (tail: Key -> nat)
      ensures this.tail == tail && lastAck == 0
      ensures Contents() == Store(0, [], map[], map[], {}, 1)
    {
      this.tail := tail;
      counter, lastAck, eligBelow, records, pins, corrupt, active := 0, 0, [], map[], map[], {}, 1;
    }

    function Contents(): (r: Store)
      reads this
    {
      Store(counter, eligBelow, records, pins, corrupt, active)
    }

    method PinKeys(keys: seq<Key>)
      modifies this`pins
      ensures pins == PinAll(old(pins), Tails(tail, Elements(keys)), counter)
    {
      var i := 0;
      while i < |keys|
        invariant i <= |keys|
        invariant pins == PinAll(old(pins), Tails(tail, Elements(keys[..i])), counter)
      {
        PinMore(old(pins), tail, keys, i, counter);
        pins := pins[tail(keys[i]) := counter];
        i := i + 1;
      }
      assert keys[..i] == keys;
    }

    /** Splits keys by presence; a corrupt record counts as absent.  The order is the caller's. */
    method Partition(keys: seq<Key>) returns (present: seq<Key>, lacking: seq<Key>)
      ensures Elements(present) == (set k | k in Elements(keys) && Holds(Contents(), k))
      ensures Elements(lacking) == (set k | k in Elements(keys) && !Holds(Contents(), k))
      ensures multiset(lacking) + multiset(present) == multiset(keys)
      ensures |present| + |lacking| == |keys|
    {
      present, lacking := [], [];
      var i := 0;
      while i < |keys|
        invariant i <= |keys|
        invariant forall k :: k in present <==> k in keys[..i] && Holds(Contents(), k)
        invariant forall k :: k in lacking <==> k in keys[..i] && !Holds(Contents(), k)
        invariant multiset(lacking) + multiset(present) == multiset(keys[..i])
        invariant |present| + |lacking| == i
      {
        ghost var more := keys[..i + 1];
        assert more == keys[..i] + [keys[i]];
        if keys[i] !in records || keys[i] in corrupt {
          lacking := lacking + [keys[i]];
        } else {
          present := present + [keys[i]];
        }
        i := i + 1;
      }
      assert keys[..i] == keys;
    }

    /** localMissing: which keys are here, the present ones pinned when asked. */
    method LocalMissing(keys: seq<Key>, pin: bool) returns (lacking: seq<Key>, present: seq<Key>)
      modifies this`pins
      ensures Elements(present) == (set k | k in Elements(keys) && Holds(old(Contents()), k))
      ensures Elements(lacking) == (set k | k in Elements(keys) && !Holds(old(Contents()), k))
      ensures multiset(lacking) + multiset(present) == multiset(keys)
      ensures Contents() == if pin then HasAndPin(old(Contents()), tail, Elements(keys)) else old(Contents())
    {
      present, lacking := Partition(keys);
      if |present| > 0 {
        if pin {
          PinKeys(present);
        }
      } else {
        assert Tails(tail, Elements(present)) == {};
        assert pins == PinAll(pins, {}, counter);
      }
    }

    /** storeBatch: hits are pinned, the rest written to the active pack. */
    method StoreBatch(keys: seq<Key>) returns (stored: nat, dedup: nat)
      modifies this`pins, this`records, this`corrupt
      ensures Contents() == PutAll(old(Contents()), tail, Elements(keys))
      ensures stored + dedup == |keys|
    {
      var hits, missed := Partition(keys);
      records := map k | k in records.Keys + Elements(missed) :: if k in Elements(missed) then active else records[k];
      corrupt := corrupt - Elements(missed);
      PinKeys(hits);
      assert corrupt == old(corrupt) - Elements(keys);
      assert records == PutAll(old(Contents()), tail, Elements(keys)).records;
      stored, dedup := |missed|, |hits|;
    }

    /** A barrier, refused when it comes too soon after the last one. */
    method HandleBarrier(now: nat, interval: nat) returns (ok: bool)
      requires lastAck <= now
      modifies this`counter, this`eligBelow, this`lastAck
      ensures ok <==> old(lastAck) == 0 || now - old(lastAck) >= interval - SKEW || interval <= SHORT
      ensures Contents() == if ok then Barrier(old(Contents())) else old(Contents())
      ensures lastAck == if ok then now else old(lastAck)
    {
      if lastAck != 0 && now - lastAck < interval - SKEW && interval > SHORT {
        return false;
      }
      counter, eligBelow := counter + 1, eligBelow + [active];
      lastAck := now;
      return true;
    }

    method DropPinsBelow(below: nat)
      modifies this`pins
      ensures Contents() == DropPins(old(Contents()), below)
    {
      var todo := pins.Keys;
      while todo != {}
        invariant todo <= pins.Keys <= old(pins).Keys
        invariant forall t :: t in pins ==> pins[t] == old(pins)[t] && (t in todo || pins[t] >= below)
        invariant forall t :: t in old(pins) && old(pins)[t] >= below ==> t in pins
        decreases |todo|
      {
        var t :| t in todo;
        if pins[t] < below {
          pins := pins - {t};
        }
        todo := todo - {t};
      }
      assert pins == DropPins(old(Contents()), below).pins;
    }
  }
}

/** Why a sweep never takes a referenced key, seen from one node.

    A reference is proposed at most putTTL after its gate set out, and only once the gate has
    has-and-pinned at its owners every key below it, one request after the other; epochs start
    at least gcInterval apart; a barrier reaches the node at most lag after its epoch started.
    Registers are read one by one after the barriers; what a register holds then is a root or
    was proposed later.  Every event has its own time. */
module GcSafety {

  import opened GcStore

  type Name = nat

  datatype Config = Config(putTTL: nat, gcInterval: nat, lag: nat, reach: Key -> set<Key>, tail: Key -> nat)

  ghost predicate GoodConfig(c: Config)
  {
    c.gcInterval >= 2 * c.putTTL && c.putTTL >= c.lag
  }

  /** A gate: the keys below root that this node owns and so is asked for, when the gate set
      out and the barrier number here then, when each key was asked for here, and the keys
      whose copy was corrupt then and so went unpinned. */
  datatype Gate = Gate(root: Key, own: set<Key>, at: nat, count: nat, visited: map<Key, nat>, missed: set<Key>)

  /** A reference value: its gate, and when its proposal was made. */
  datatype Ref = Ref(gate: nat, proposed: nat)

  datatype Phase =
    | Idle
    | InBarrier
    | Snapshotting(began: nat)
    | Marking(began: nat, eligible: map<Key, Pack>)
    | Marked(began: nat, si: SweepInput)

  datatype Epochs = Epochs(started: nat, barrierAt: nat, seen: bool, joined: bool, phase: Phase)

  datatype Snapshot = Snapshot(roots: set<Key>, read: map<Name, nat>)

  datatype State = State(
    now: nat,
    store: Store,
    times: seq<nat>,
    hurt: map<Key, nat>,
    dropped: nat,
    gates: map<nat, Gate>,
    proposals: map<nat, Ref>,
    refs: map<Name, Ref>,
    ep: Epochs,
    snap: Snapshot)

  datatype Event =
    | Put(keys: set<Key>)
    | Corrupt(k: Key)
    | Seal(active: Pack)
    | Move(moved: set<Key>)
    | StartGate(id: nat, root: Key, own: set<Key>)
    | VisitGate(id: nat, keys: set<Key>)
    | ProposeRef(id: nat, gate: nat)
    | CommitRef(name: Name, id: nat)
    | DeleteRef(name: Name)
    | StartEpoch
    | AbortEpoch
    | HandleBarrier
    | StartSnapshot
    | ReadRegister(name: Name)
    | StartMark
    | FinishMark(marked: set<Key>, owned: set<Key>, overflow: bool)
    | Sweep(dead: set<Key>, mine: set<Key>, settled: Pack -> bool, moved: set<Key>)

  ghost predicate Init(s: State)
  {
    && s.store == Store(0, [], map[], map[], {}, s.store.active)
    && s.times == [] && s.hurt == map[] && s.dropped == 0
    && s.gates == map[] && s.proposals == map[] && s.refs == map[]
    && s.ep == Epochs(0, 0, false, false, Idle)
    && s.snap == Snapshot({}, map[])
  }

  function Root(s: State, r: Ref): (k: Key)
  {
    if r.gate in s.gates then s.gates[r.gate].root else 0
  }

  predicate AfterSnapshot(p: Phase) { p.Marking? || p.Marked? }

  /** What replaces the root of a register that was read was proposed after the snapshot began,
      and so was what a register the finished snapshot did not report comes to hold (see
      GcSnapshot). */
  ghost predicate MayCommit(s: State, name: Name, p: Ref)
  {
    (s.ep.phase.Snapshotting? && name in s.snap.read) || AfterSnapshot(s.ep.phase) ==> p.proposed > s.ep.phase.began
  }

  ghost predicate MarkComplete(c: Config, s: State, marked: set<Key>, owned: set<Key>)
    requires s.ep.phase.Marking?
  {
    forall root, k :: root in s.snap.roots && k in c.reach(root) && k in owned && k in s.ep.phase.eligible ==> k in marked
  }

  ghost predicate AllDead(c: Config, s: State, e: Event)
    requires e.Sweep? && s.ep.phase.Marked? && s.ep.phase.si.count > 0
  {
    forall k :: k in e.dead ==> !Live(s.store, c.tail, s.ep.phase.si, e.mine, e.settled, k)
  }

  ghost predicate Enabled(c: Config, s: State, e: Event)
  {
    match e
    case Put(_) => true
    case Corrupt(_) => true
    case Seal(a) => a >= s.store.active
    case Move(_) => true
    case StartGate(id, root, own) => id !in s.gates && own <= c.reach(root)
    case VisitGate(id, _) => id in s.gates
    case ProposeRef(id, g) =>
      && id !in s.proposals && g in s.gates && s.now <= s.gates[g].at + c.putTTL
      && s.gates[g].own <= s.gates[g].visited.Keys
    case CommitRef(name, id) => id in s.proposals && MayCommit(s, name, s.proposals[id])
    case DeleteRef(_) => true
    case StartEpoch => s.ep.phase == Idle && (s.ep.started > 0 ==> s.now >= s.ep.barrierAt + c.gcInterval)
    case AbortEpoch => true
    case HandleBarrier => s.ep.started > 0 && !s.ep.seen && s.now <= s.ep.barrierAt + c.lag
    case StartSnapshot => s.ep.phase == InBarrier
    case ReadRegister(name) => s.ep.phase.Snapshotting? && name !in s.snap.read
    case StartMark =>
      && s.ep.phase.Snapshotting? && s.ep.joined
      && forall name :: name in s.refs && name !in s.snap.read ==> s.refs[name].proposed > s.ep.phase.began
    case FinishMark(marked, owned, _) => s.ep.phase.Marking? && MarkComplete(c, s, marked, owned)
    case Sweep(_, _, _, _) => s.ep.phase.Marked? && s.ep.phase.si.count > 0 && AllDead(c, s, e)
  }

  ghost function Moved(s: Store, moved: set<Key>): (t: Store)
  {
    s.(records := map k | k in s.records :: if k in moved then s.active else s.records[k])
  }

  ghost function Removed(s: Store, dead: set<Key>): (t: Store)
  {
    s.(records := map k | k in s.records && k !in dead :: s.records[k])
  }

  /** Compaction removes dead records, moves others to a new pack, then drops old pins. */
  ghost function SweepStore(s: Store, dead: set<Key>, moved: set<Key>, count: nat): (t: Store)
    requires count > 0
  {
    DropPins(Moved(Removed(s, dead), moved), count - 1)
  }

  /** The gate asks for keys not asked for before. */
  ghost function Visited(s: State, g: Gate, keys: set<Key>): (h: Gate)
  {
    g.(visited := map k | k in g.visited.Keys + keys :: if k in g.visited then g.visited[k] else s.now,
       missed := g.missed + ((keys - g.visited.Keys) * s.store.corrupt))
  }

  ghost function Effect(c: Config, s: State, e: Event): (t: State)
    requires Enabled(c, s, e)
  {
    match e
    case Put(keys) => s.(store := PutAll(s.store, c.tail, keys))
    case Corrupt(k) => s.(store := s.store.(corrupt := s.store.corrupt + {k}), hurt := s.hurt[k := s.now])
    case Seal(a) => s.(store := s.store.(active := a))
    case Move(moved) => s.(store := Moved(s.store, moved))
    case StartGate(id, root, own) => s.(gates := s.gates[id := Gate(root, own, s.now, s.store.counter, map[], {})])
    case VisitGate(id, keys) =>
      s.(store := HasAndPin(s.store, c.tail, keys), gates := s.gates[id := Visited(s, s.gates[id], keys)])
    case ProposeRef(id, g) => s.(proposals := s.proposals[id := Ref(g, s.now)])
    case CommitRef(name, id) => s.(refs := s.refs[name := s.proposals[id]])
    case DeleteRef(name) => s.(refs := s.refs - {name})
    case StartEpoch =>
      s.(ep := Epochs(s.ep.started + 1, s.now, false, false, InBarrier), snap := Snapshot({}, map[]))
    case AbortEpoch => s.(ep := s.ep.(phase := Idle))
    case HandleBarrier =>
      s.(store := Barrier(s.store), times := s.times + [s.now],
         ep := s.ep.(seen := true, joined := s.ep.phase == InBarrier))
    case StartSnapshot => s.(ep := s.ep.(phase := Snapshotting(s.now)))
    case ReadRegister(name) =>
      s.(snap := Snapshot(
           if name in s.refs then s.snap.roots + {Root(s, s.refs[name])} else s.snap.roots,
           s.snap.read[name := s.now]))
    case StartMark =>
      s.(ep := s.ep.(phase := Marking(s.ep.phase.began, EligibleNow(s.store, s.store.counter))))
    case FinishMark(marked, owned, overflow) =>
      s.(ep := s.ep.(phase := Marked(
           s.ep.phase.began, SweepInput(s.store.counter, s.ep.phase.eligible, marked, owned, overflow))))
    case Sweep(dead, _, _, moved) =>
      s.(store := SweepStore(s.store, dead, moved, s.ep.phase.si.count), ep := s.ep.(phase := Idle),
         dropped := s.ep.phase.si.count - 1)
  }

  ghost predicate Next(c: Config, s: State, e: Event, t: State)
  {
    Enabled(c, s, e) && t.now > s.now && t == Effect(c, s, e).(now := t.now)
  }

  // ---- what every step keeps ----

  ghost predicate StoreOk(s: State)
  {
    && |s.store.eligBelow| == s.store.counter == |s.times|
    && (forall i :: 0 <= i < s.store.counter ==> s.store.eligBelow[i] <= s.store.active)
    && (forall i, j :: 0 <= i <= j < s.store.counter ==> s.store.eligBelow[i] <= s.store.eligBelow[j])
    && (forall k :: k in s.store.records ==> s.store.records[k] <= s.store.active)
    && (forall t :: t in s.store.pins ==> s.store.pins[t] <= s.store.counter)
  }

  /** Barriers of earlier epochs are gcInterval less lag and more before the current epoch's start. */
  ghost predicate TimesOk(c: Config, s: State)
  {
    && (forall i :: 0 <= i < |s.times| ==> s.times[i] < s.now && s.times[i] <= s.ep.barrierAt + c.lag)
    && (forall i :: 0 <= i < |s.times| - (if s.ep.seen then 1 else 0) ==> s.times[i] + c.gcInterval <= s.ep.barrierAt + c.lag)
    && (s.ep.seen ==> |s.times| > 0)
    && (s.ep.started > 0 ==> s.ep.barrierAt < s.now)
    && (s.ep.started == 0 ==> s.times == [] && s.ep.phase == Idle && !s.ep.seen)
    && (s.ep.joined ==> s.ep.seen)
    && (s.ep.phase.Snapshotting? || AfterSnapshot(s.ep.phase) ==> s.ep.barrierAt < s.ep.phase.began < s.now)
    && (AfterSnapshot(s.ep.phase) ==> s.ep.joined)
    && (s.ep.phase.Marked? ==> s.ep.phase.si.count == s.store.counter)
    && s.dropped <= (if s.ep.seen then s.store.counter - 1 else s.store.counter)
  }

  ghost predicate GateOk(s: State, g: Gate)
  {
    && g.count <= s.store.counter && g.at < s.now && (forall k :: k in g.visited ==> g.visited[k] < s.now)
    && forall i :: g.count <= i < |s.times| ==> s.times[i] > g.at
  }

  ghost predicate RefOk(c: Config, s: State, r: Ref)
  {
    && r.gate in s.gates && r.proposed <= s.gates[r.gate].at + c.putTTL && r.proposed < s.now
    && s.gates[r.gate].own <= s.gates[r.gate].visited.Keys
  }

  ghost predicate GatesOk(c: Config, s: State)
  {
    && (forall id :: id in s.gates ==> GateOk(s, s.gates[id]))
    && (forall id :: id in s.proposals ==> RefOk(c, s, s.proposals[id]))
    && (forall name :: name in s.refs ==> RefOk(c, s, s.refs[name]))
  }

  /** The copy of k here was good when the gate came by and has been since. */
  ghost predicate Sound(s: State, g: Gate, k: Key)
  {
    k in g.visited && k !in g.missed && (k in s.hurt ==> s.hurt[k] < g.visited[k])
  }

  /** The gate had this node asked for k, found its copy good, and it has been good since. */
  ghost predicate GoodSince(s: State, g: Gate, k: Key)
  {
    k in g.own && (k in g.visited ==> k !in g.missed && (k in s.hurt ==> s.hurt[k] < g.visited[k]))
  }

  ghost predicate CorruptOk(c: Config, s: State)
  {
    forall id, k :: id in s.gates && k in s.store.corrupt && k in c.reach(s.gates[id].root) ==> !Sound(s, s.gates[id], k)
  }

  /** Pinned since the gate, or in a pack at or above the gate's barrier. */
  ghost predicate Covered(c: Config, s: State, g: Gate, k: Key, pack: Pack)
  {
    Pinned(s.store, c.tail, k, g.count) || pack >= History(s.store, g.count)
  }

  ghost predicate Guards(c: Config, s: State, g: Gate, k: Key)
  {
    g.count >= s.dropped && k in c.reach(g.root) && Sound(s, g, k)
  }

  ghost predicate KeysOk(c: Config, s: State)
  {
    forall id, k :: id in s.gates && k in s.store.records && Guards(c, s, s.gates[id], k) ==>
      Covered(c, s, s.gates[id], k, s.store.records[k])
  }

  ghost function Eligible(p: Phase): (m: map<Key, Pack>)
  {
    match p
    case Marking(_, e) => e
    case Marked(_, si) => si.eligible
    case _ => map[]
  }

  ghost predicate MarkOk(c: Config, s: State)
  {
    && (forall k :: k in Eligible(s.ep.phase) ==> k in s.store.records)
    && (forall id, k :: id in s.gates && k in Eligible(s.ep.phase) && Guards(c, s, s.gates[id], k) ==>
          Covered(c, s, s.gates[id], k, Eligible(s.ep.phase)[k]))
  }

  ghost predicate IsRoot(s: State, r: Ref)
  {
    Root(s, r) in s.snap.roots
  }

  /** Once its register has been read, a reference is a root or was proposed later. */
  ghost predicate SnapRef(s: State, name: Name)
    requires name in s.refs && (s.ep.phase.Snapshotting? || AfterSnapshot(s.ep.phase))
  {
    || IsRoot(s, s.refs[name])
    || s.refs[name].proposed > s.ep.phase.began
    || (s.ep.phase.Snapshotting? && name !in s.snap.read)
  }

  ghost predicate SnapOk(s: State)
  {
    s.ep.phase.Snapshotting? || AfterSnapshot(s.ep.phase) ==>
      && (forall name :: name in s.snap.read ==> s.ep.phase.began < s.snap.read[name])
      && (forall name :: name in s.refs ==> SnapRef(s, name))
  }

  ghost predicate MarkedOk(c: Config, s: State)
  {
    s.ep.phase.Marked? ==>
      forall root, k ::
        root in s.snap.roots && k in c.reach(root) && k in s.ep.phase.si.owned && k in s.ep.phase.si.eligible ==>
          k in s.ep.phase.si.marked
  }

  ghost predicate ReadOk(s: State)
  {
    s.ep.phase == InBarrier ==> s.snap.read == map[]
  }

  ghost predicate Inv(c: Config, s: State)
  {
    && StoreOk(s) && TimesOk(c, s) && GatesOk(c, s) && CorruptOk(c, s)
    && KeysOk(c, s) && MarkOk(c, s) && SnapOk(s) && MarkedOk(c, s) && ReadOk(s)
  }

  lemma InitInv(c: Config, s: State)
    requires Init(s)
    ensures Inv(c, s)
  {
  }

  lemma StoreStep(c: Config, s: State, e: Event, t: State)
    requires StoreOk(s) && Next(c, s, e, t)
    ensures StoreOk(t)
  {
    hide Next, StoreOk;
    if e.Sweep? {
      StoreSwept(c, s, e, t);
    } else if e == HandleBarrier {
      StoreBarred(c, s, e, t);
    } else {
      StoreKept(c, s, e, t);
    }
  }

  lemma StoreSwept(c: Config, s: State, e: Event, t: State)
    requires StoreOk(s) && Next(c, s, e, t) && e.Sweep?
    ensures StoreOk(t)
  {
  }

  lemma StoreBarred(c: Config, s: State, e: Event, t: State)
    requires StoreOk(s) && Next(c, s, e, t) && e.HandleBarrier?
    ensures StoreOk(t)
  {
  }

  lemma StoreKept(c: Config, s: State, e: Event, t: State)
    requires StoreOk(s) && Next(c, s, e, t) && !e.Sweep? && !e.HandleBarrier?
    ensures StoreOk(t)
  {
  }

  /** The events that move the epoch, the barrier times or what was dropped. */
  ghost predicate MovesEpoch(e: Event)
  {
    e.StartEpoch? || e.AbortEpoch? || e.HandleBarrier? || e.StartSnapshot? || e.StartMark? || e.FinishMark? || e.Sweep?
  }

  lemma EpochFrame(c: Config, s: State, e: Event, t: State)
    requires Next(c, s, e, t)
    ensures t.now > s.now
    ensures !MovesEpoch(e) ==> t.ep == s.ep && t.times == s.times && t.dropped == s.dropped && t.store.counter == s.store.counter
  {
  }

  lemma TimesSame(c: Config, s: State, t: State)
    requires TimesOk(c, s) && t.now > s.now
    requires t.ep == s.ep && t.times == s.times && t.dropped == s.dropped && t.store.counter == s.store.counter
    ensures TimesOk(c, t)
  {
  }

  lemma BarrierTimes(c: Config, s: State, e: Event, t: State)
    requires GoodConfig(c) && StoreOk(s) && TimesOk(c, s) && Next(c, s, e, t) && (e.StartEpoch? || e.HandleBarrier?)
    ensures TimesOk(c, t)
  {
  }

  lemma PhaseTimes(c: Config, s: State, e: Event, t: State)
    requires StoreOk(s) && TimesOk(c, s) && Next(c, s, e, t) && MovesEpoch(e) && !e.StartEpoch? && !e.HandleBarrier?
    ensures TimesOk(c, t)
  {
  }

  lemma TimesStep(c: Config, s: State, e: Event, t: State)
    requires GoodConfig(c) && StoreOk(s) && TimesOk(c, s) && Next(c, s, e, t)
    ensures TimesOk(c, t)
  {
    hide Next, TimesOk, StoreOk;
    EpochFrame(c, s, e, t);
    if !MovesEpoch(e) {
      TimesSame(c, s, t);
    } else if e.StartEpoch? || e.HandleBarrier? {
      BarrierTimes(c, s, e, t);
    } else {
      PhaseTimes(c, s, e, t);
    }
  }

  /** A gate stays what it is, but for the keys it asks for. */
  ghost predicate SameGate(g: Gate, h: Gate)
  {
    h.root == g.root && h.own == g.own && h.at == g.at && h.count == g.count && g.visited.Keys <= h.visited.Keys
  }

  lemma GatesGrow(c: Config, s: State, e: Event, t: State, id: nat)
    requires Next(c, s, e, t) && id in s.gates
    ensures id in t.gates && SameGate(s.gates[id], t.gates[id])
    ensures t.gates[id] == s.gates[id] || (e.VisitGate? && e.id == id && t.gates[id] == Visited(s, s.gates[id], e.keys))
  {
  }

  lemma TimesGrow(c: Config, s: State, e: Event, t: State)
    requires Next(c, s, e, t)
    ensures t.now > s.now && s.store.counter <= t.store.counter
    ensures t.times == s.times || t.times == s.times + [s.now]
  {
  }

  lemma GateStays(c: Config, s: State, e: Event, t: State, id: nat)
    requires StoreOk(s) && id in s.gates && GateOk(s, s.gates[id]) && Next(c, s, e, t)
    ensures id in t.gates && GateOk(t, t.gates[id])
  {
    GatesGrow(c, s, e, t, id);
    TimesGrow(c, s, e, t);
    hide Next, StoreOk;
  }

  lemma RefStays(c: Config, s: State, e: Event, t: State, r: Ref)
    requires RefOk(c, s, r) && Next(c, s, e, t)
    ensures RefOk(c, t, r)
  {
    GatesGrow(c, s, e, t, r.gate);
  }

  lemma GatesStep(c: Config, s: State, e: Event, t: State)
    requires StoreOk(s) && TimesOk(c, s) && GatesOk(c, s) && Next(c, s, e, t)
    ensures GatesOk(c, t)
  {
    hide TimesOk, RefOk, Next;
    forall id | id in t.gates
      ensures GateOk(t, t.gates[id])
    {
      NewGate(c, s, e, t, id);
    }
    forall id | id in t.proposals
      ensures RefOk(c, t, t.proposals[id])
    {
      NewProposal(c, s, e, t, id);
    }
    forall name | name in t.refs
      ensures RefOk(c, t, t.refs[name])
    {
      NewRef(c, s, e, t, name);
    }
  }

  lemma FreshGateOk(c: Config, s: State, e: Event, t: State, id: nat)
    requires StoreOk(s) && Next(c, s, e, t) && id in t.gates && id !in s.gates
    ensures GateOk(t, t.gates[id])
  {
  }

  lemma NewGate(c: Config, s: State, e: Event, t: State, id: nat)
    requires StoreOk(s) && GatesOk(c, s) && Next(c, s, e, t) && id in t.gates
    ensures GateOk(t, t.gates[id])
  {
    hide Next, StoreOk, RefOk, GateOk;
    if id in s.gates {
      GateStays(c, s, e, t, id);
    } else {
      FreshGateOk(c, s, e, t, id);
    }
  }

  lemma NewlyProposed(c: Config, s: State, e: Event, t: State, id: nat)
    requires Next(c, s, e, t) && id in t.proposals
    ensures if id in s.proposals then t.proposals[id] == s.proposals[id] else RefOk(c, t, t.proposals[id])
  {
  }

  lemma NewProposal(c: Config, s: State, e: Event, t: State, id: nat)
    requires GatesOk(c, s) && Next(c, s, e, t) && id in t.proposals
    ensures RefOk(c, t, t.proposals[id])
  {
    hide Next, RefOk;
    NewlyProposed(c, s, e, t, id);
    if id in s.proposals {
      RefStays(c, s, e, t, s.proposals[id]);
    }
  }

  lemma NewRef(c: Config, s: State, e: Event, t: State, name: Name)
    requires GatesOk(c, s) && Next(c, s, e, t) && name in t.refs
    ensures RefOk(c, t, t.refs[name])
  {
    if e.CommitRef? && e.name == name {
      RefStays(c, s, e, t, s.proposals[e.id]);
    } else {
      RefStays(c, s, e, t, s.refs[name]);
    }
  }

  lemma HurtGrows(c: Config, s: State, e: Event, t: State, k: Key)
    requires Next(c, s, e, t)
    ensures k in s.hurt ==> k in t.hurt && (t.hurt[k] == s.hurt[k] || t.hurt[k] == s.now)
    ensures k in t.store.corrupt && k !in s.store.corrupt ==> k in t.hurt && t.hurt[k] == s.now
  {
  }

  lemma GateBegins(c: Config, s: State, e: Event, t: State, id: nat)
    requires Next(c, s, e, t) && id in t.gates && id !in s.gates
    ensures t.gates[id].visited == map[]
  {
  }

  lemma CorruptPoint(c: Config, s: State, e: Event, t: State, id: nat, k: Key)
    requires GatesOk(c, s) && CorruptOk(c, s) && Next(c, s, e, t)
    requires id in t.gates && k in t.store.corrupt && k in c.reach(t.gates[id].root)
    ensures !Sound(t, t.gates[id], k)
  {
    HurtGrows(c, s, e, t, k);
    if id in s.gates {
      GatesGrow(c, s, e, t, id);
      hide Next, RefOk;
      assert GateOk(s, s.gates[id]);
    } else {
      GateBegins(c, s, e, t, id);
    }
  }

  lemma CorruptStep(c: Config, s: State, e: Event, t: State)
    requires GatesOk(c, s) && CorruptOk(c, s) && Next(c, s, e, t)
    ensures CorruptOk(c, t)
  {
    hide Next, GatesOk, Sound;
    forall id, k | id in t.gates && k in t.store.corrupt && k in c.reach(t.gates[id].root)
      ensures !Sound(t, t.gates[id], k)
    {
      CorruptPoint(c, s, e, t, id, k);
    }
  }

  /** A pin the rules still need stays, and barriers never change what they recorded. */
  lemma CoverStays(c: Config, s: State, e: Event, t: State, g: Gate, k: Key, pack: Pack)
    requires StoreOk(s) && TimesOk(c, s) && Next(c, s, e, t)
    requires g.count <= s.store.counter && t.dropped <= g.count && Covered(c, s, g, k, pack)
    ensures Covered(c, t, g, k, pack)
  {
    assert History(t.store, g.count) == History(s.store, g.count);
  }

  lemma DroppedGrows(c: Config, s: State, e: Event, t: State)
    requires TimesOk(c, s) && Next(c, s, e, t)
    ensures s.dropped <= t.dropped
  {
  }

  /** What a gate guards after a step it guarded before, unless it has just asked for it. */
  lemma GuardsShrink(c: Config, s: State, e: Event, t: State, id: nat, k: Key)
    requires TimesOk(c, s) && Next(c, s, e, t) && id in t.gates && Guards(c, t, t.gates[id], k)
    requires id in s.gates ==> GateOk(s, s.gates[id])
    ensures id in s.gates && SameGate(s.gates[id], t.gates[id])
    ensures Guards(c, s, s.gates[id], k) || (e.VisitGate? && e.id == id && k in e.keys && k !in s.gates[id].visited)
  {
    DroppedGrows(c, s, e, t);
    HurtGrows(c, s, e, t, k);
    hide Next, TimesOk;
    if id in s.gates {
      GatesGrow(c, s, e, t, id);
    } else {
      GateBegins(c, s, e, t, id);
    }
  }

  /** A gate's visit covers every good copy it asks for. */
  lemma GateCovers(c: Config, s: State, e: Event, t: State, k: Key, pack: Pack)
    requires StoreOk(s) && Next(c, s, e, t) && e.VisitGate? && k in s.store.records
    requires k in e.keys && k !in s.gates[e.id].visited && GateOk(s, s.gates[e.id])
    requires Guards(c, t, t.gates[e.id], k)
    ensures Covered(c, t, t.gates[e.id], k, pack)
  {
    assert Holds(s.store, k);
    var held := set x | x in e.keys && Holds(s.store, x);
    assert k in held;
    assert c.tail(k) in Tails(c.tail, held);
  }

  lemma KeyPoint(c: Config, s: State, e: Event, t: State, id: nat, k: Key)
    requires StoreOk(s) && TimesOk(c, s) && GatesOk(c, s) && CorruptOk(c, s) && KeysOk(c, s) && Next(c, s, e, t)
    requires id in t.gates && k in t.store.records && Guards(c, t, t.gates[id], k)
    ensures Covered(c, t, t.gates[id], k, t.store.records[k])
  {
    GuardsShrink(c, s, e, t, id, k);
    var g, h := s.gates[id], t.gates[id];
    if Guards(c, s, g, k) {
      if k in s.store.records && s.store.records[k] == t.store.records[k] {
        CoverStays(c, s, e, t, g, k, s.store.records[k]);
        SameCover(c, t, g, h, k, t.store.records[k]);
      } else {
        FreshCover(c, s, e, t, id, k);
      }
    } else {
      GateCovers(c, s, e, t, k, t.store.records[k]);
    }
  }

  lemma SameCover(c: Config, t: State, g: Gate, h: Gate, k: Key, pack: Pack)
    requires SameGate(g, h) && Covered(c, t, g, k, pack)
    ensures Covered(c, t, h, k, pack)
  {
  }

  lemma FreshIsActive(c: Config, s: State, e: Event, t: State, k: Key)
    requires Next(c, s, e, t) && k in t.store.records && (k in s.store.records ==> s.store.records[k] != t.store.records[k])
    ensures t.store.records[k] == s.store.active
  {
  }

  lemma HistoryStays(c: Config, s: State, e: Event, t: State, count: nat)
    requires StoreOk(s) && Next(c, s, e, t) && count <= s.store.counter
    ensures History(t.store, count) == History(s.store, count)
      && (s.store.eligBelow == [] || History(s.store, count) <= s.store.active)
  {
  }

  /** A record that came to the active pack lies above every barrier so far. */
  lemma FreshCover(c: Config, s: State, e: Event, t: State, id: nat, k: Key)
    requires StoreOk(s) && Next(c, s, e, t) && id in s.gates && GateOk(s, s.gates[id])
    requires id in t.gates && SameGate(s.gates[id], t.gates[id]) && k in t.store.records
    requires k in s.store.records ==> s.store.records[k] != t.store.records[k]
    ensures Covered(c, t, t.gates[id], k, t.store.records[k])
  {
    FreshIsActive(c, s, e, t, k);
    HistoryStays(c, s, e, t, s.gates[id].count);
    hide Next, StoreOk;
  }

  lemma KeysStep(c: Config, s: State, e: Event, t: State)
    requires StoreOk(s) && TimesOk(c, s) && GatesOk(c, s) && CorruptOk(c, s) && KeysOk(c, s) && Next(c, s, e, t)
    ensures KeysOk(c, t)
  {
    hide Next, Guards, Covered, StoreOk, TimesOk, GatesOk, CorruptOk;
    forall id, k | id in t.gates && k in t.store.records && Guards(c, t, t.gates[id], k)
      ensures Covered(c, t, t.gates[id], k, t.store.records[k])
    {
      KeyPoint(c, s, e, t, id, k);
    }
  }

  lemma EligibleKeeps(c: Config, s: State, e: Event, t: State)
    requires Next(c, s, e, t) && !e.StartMark?
    ensures Eligible(t.ep.phase) == map[] || (Eligible(t.ep.phase) == Eligible(s.ep.phase) && s.store.records.Keys <= t.store.records.Keys)
  {
  }

  lemma EligibleBegins(c: Config, s: State, t: State)
    requires Next(c, s, StartMark, t)
    ensures Eligible(t.ep.phase) == EligibleNow(s.store, s.store.counter) && t.store == s.store
  {
  }

  lemma EligibleStep(c: Config, s: State, e: Event, t: State)
    requires MarkOk(c, s) && Next(c, s, e, t)
    ensures forall k :: k in Eligible(t.ep.phase) ==> k in t.store.records && k in s.store.records
    ensures Eligible(t.ep.phase) == map[] || Eligible(t.ep.phase) == Eligible(s.ep.phase) || e == StartMark
    ensures e == StartMark ==>
              forall k :: k in Eligible(t.ep.phase) ==> Eligible(t.ep.phase)[k] == s.store.records[k] == t.store.records[k]
  {
    hide Next, Eligible, Guards, Covered;
    if e.StartMark? {
      EligibleBegins(c, s, t);
    } else {
      EligibleKeeps(c, s, e, t);
    }
  }

  lemma MarkPoint(c: Config, s: State, e: Event, t: State, id: nat, k: Key)
    requires StoreOk(s) && TimesOk(c, s) && GatesOk(c, s) && CorruptOk(c, s) && KeysOk(c, s) && MarkOk(c, s)
    requires Next(c, s, e, t)
    requires id in t.gates && k in Eligible(t.ep.phase) && Guards(c, t, t.gates[id], k)
    ensures Covered(c, t, t.gates[id], k, Eligible(t.ep.phase)[k])
  {
    hide KeysOk, Covered, CorruptOk, StoreOk;
    EligibleStep(c, s, e, t);
    if e == StartMark {
      KeyPoint(c, s, e, t, id, k);
    } else {
      GuardsShrink(c, s, e, t, id, k);
      var g := s.gates[id];
      if Guards(c, s, g, k) {
        CoverStays(c, s, e, t, g, k, Eligible(s.ep.phase)[k]);
        SameCover(c, t, g, t.gates[id], k, Eligible(t.ep.phase)[k]);
      } else {
        GateCovers(c, s, e, t, k, Eligible(t.ep.phase)[k]);
      }
    }
  }

  lemma MarkStep(c: Config, s: State, e: Event, t: State)
    requires StoreOk(s) && TimesOk(c, s) && GatesOk(c, s) && CorruptOk(c, s) && KeysOk(c, s) && MarkOk(c, s)
    requires Next(c, s, e, t)
    ensures MarkOk(c, t)
  {
    hide Next, Guards, Covered, StoreOk, TimesOk, GatesOk, CorruptOk, KeysOk;
    EligibleStep(c, s, e, t);
    forall id, k | id in t.gates && k in Eligible(t.ep.phase) && Guards(c, t, t.gates[id], k)
      ensures Covered(c, t, t.gates[id], k, Eligible(t.ep.phase)[k])
    {
      MarkPoint(c, s, e, t, id, k);
    }
  }

  lemma ReadStep(c: Config, s: State, e: Event, t: State)
    requires ReadOk(s) && Next(c, s, e, t)
    ensures ReadOk(t)
  {
  }

  /** A root stays a root while its epoch lasts. */
  lemma RootStays(c: Config, s: State, e: Event, t: State, r: Ref)
    requires RefOk(c, s, r) && IsRoot(s, r) && Next(c, s, e, t) && e != StartEpoch
    ensures IsRoot(t, r)
  {
  }

  lemma SnapPoint(c: Config, s: State, e: Event, t: State, name: Name)
    requires SnapOk(s) && ReadOk(s) && Next(c, s, e, t)
    requires name in s.refs ==> RefOk(c, s, s.refs[name])
    requires name in t.refs && (t.ep.phase.Snapshotting? || AfterSnapshot(t.ep.phase))
    ensures SnapRef(t, name)
  {
    hide IsRoot, RefOk;
    if e.ReadRegister? && e.name == name {
      ReadRoots(c, s, e, t);
    } else if !e.CommitRef? || e.name != name {
      if IsRoot(s, s.refs[name]) {
        RootStays(c, s, e, t, s.refs[name]);
      }
    }
  }

  lemma SnapStep(c: Config, s: State, e: Event, t: State)
    requires TimesOk(c, s) && GatesOk(c, s) && SnapOk(s) && ReadOk(s) && Next(c, s, e, t)
    ensures SnapOk(t)
  {
    hide SnapRef;
    if t.ep.phase.Snapshotting? || AfterSnapshot(t.ep.phase) {
      forall name | name in t.refs
        ensures SnapRef(t, name)
      {
        SnapPoint(c, s, e, t, name);
      }
    }
  }

  lemma ReadRoots(c: Config, s: State, e: Event, t: State)
    requires Next(c, s, e, t) && e.ReadRegister? && e.name in s.refs
    ensures IsRoot(t, s.refs[e.name])
  {
  }

  lemma MarkedStep(c: Config, s: State, e: Event, t: State)
    requires MarkedOk(c, s) && Next(c, s, e, t)
    ensures MarkedOk(c, t)
  {
  }

  lemma StepKeeps(c: Config, s: State, e: Event, t: State)
    requires GoodConfig(c) && Inv(c, s) && Next(c, s, e, t)
    ensures Inv(c, t)
  {
    hide Next, StoreOk, TimesOk, GatesOk, CorruptOk, KeysOk, MarkOk, SnapOk, MarkedOk, ReadOk;
    StoreStep(c, s, e, t);
    TimesStep(c, s, e, t);
    GatesStep(c, s, e, t);
    CorruptStep(c, s, e, t);
    KeysStep(c, s, e, t);
    MarkStep(c, s, e, t);
    SnapStep(c, s, e, t);
    ReadStep(c, s, e, t);
    MarkedStep(c, s, e, t);
  }

  // ---- whole runs ----

  ghost predicate IsRun(c: Config, states: seq<State>, events: seq<Event>)
  {
    && |states| == |events| + 1
    && Init(states[0])
    && forall i :: 0 <= i < |events| ==> Next(c, states[i], events[i], states[i + 1])
  }

  lemma {:induction false} RunInv(c: Config, states: seq<State>, events: seq<Event>, i: nat)
    requires GoodConfig(c) && IsRun(c, states, events) && i < |states|
    ensures Inv(c, states[i])
  {
    hide Inv, Next, Init;
    if i == 0 {
      InitInv(c, states[0]);
    } else {
      RunInv(c, states, events, i - 1);
      assert Next(c, states[i - 1], events[i - 1], states[i - 1 + 1]);
      StepKeeps(c, states[i - 1], events[i - 1], states[i]);
    }
  }

  /** A reference proposed after the snapshot began was gated at the previous barrier or later. */
  lemma LateGateIsRecent(c: Config, s: State, r: Ref)
    requires GoodConfig(c) && StoreOk(s) && TimesOk(c, s) && GatesOk(c, s)
    requires AfterSnapshot(s.ep.phase) && RefOk(c, s, r) && r.proposed > s.ep.phase.began
    ensures s.gates[r.gate].count >= s.store.counter - 1 >= s.dropped
  {
    var g := s.gates[r.gate];
    assert GateOk(s, g);
    var i := s.store.counter - 2;
    assert i >= 0 ==> s.times[i] + c.gcInterval <= s.ep.barrierAt + c.lag;
  }

  /** A copy this node owned under the mark, below a committed reference and good since the
      reference's gate came by, is live for the sweep. */
  lemma ReferencedIsLive(c: Config, s: State, name: Name, k: Key, mine: set<Key>, settled: Pack -> bool)
    requires GoodConfig(c) && Inv(c, s) && s.ep.phase.Marked? && s.ep.phase.si.count > 0
    requires name in s.refs && k in c.reach(Root(s, s.refs[name])) && s.refs[name].gate in s.gates
    requires k in s.ep.phase.si.owned && k !in s.store.corrupt
    requires IsRoot(s, s.refs[name]) || GoodSince(s, s.gates[s.refs[name].gate], k)
    ensures Live(s.store, c.tail, s.ep.phase.si, mine, settled, k)
  {
    hide KeysOk, CorruptOk;
    var r, si := s.refs[name], s.ep.phase.si;
    assert RefOk(c, s, r);
    if k in si.eligible && !IsRoot(s, r) {
      var g := s.gates[r.gate];
      LateGateIsRecent(c, s, r);
      assert Covered(c, s, g, k, Eligible(s.ep.phase)[k]) by {
        assert Guards(c, s, g, k);
      }
    }
  }

  /** In every run: what a sweep removes is below no committed reference, except copies the
      node did not own under the mark and copies found corrupt since the gate. */
  lemma SweepSparesReferenced(c: Config, states: seq<State>, events: seq<Event>, i: nat, name: Name, k: Key)
    requires GoodConfig(c) && IsRun(c, states, events) && i < |events| && events[i].Sweep?
    requires states[i].ep.phase.Marked?
    requires name in states[i].refs && k in c.reach(Root(states[i], states[i].refs[name]))
    requires k in states[i].ep.phase.si.owned && Holds(states[i].store, k)
    requires states[i].refs[name].gate in states[i].gates
    requires || IsRoot(states[i], states[i].refs[name])
             || GoodSince(states[i], states[i].gates[states[i].refs[name].gate], k)
    ensures Holds(states[i + 1].store, k)
  {
    hide Inv, Live;
    var s, e := states[i], events[i];
    RunInv(c, states, events, i);
    assert Next(c, s, e, states[i + 1]);
    ReferencedIsLive(c, s, name, k, e.mine, e.settled);
    assert k !in e.dead;
  }

  /** What a sweep of any reachable state may remove, on the fields: a corrupt record; one the
      mark owned, left unmarked and did not overflow on; or one owned neither then nor now, of a
      settled pack.  But for corrupt ones, only records that were below the pack of the previous
      barrier when the mark began, and unpinned since. */
  lemma SweepMayRemoveIff(c: Config, states: seq<State>, events: seq<Event>, i: nat, dead: set<Key>, mine: set<Key>,
                          settled: Pack -> bool, moved: set<Key>)
    requires GoodConfig(c) && IsRun(c, states, events) && i < |states| && states[i].ep.phase.Marked?
    ensures var s, si := states[i].store, states[i].ep.phase.si;
      Enabled(c, states[i], Sweep(dead, mine, settled, moved)) <==>
        si.count > 0 && forall k :: k in dead ==>
          || k in s.corrupt
          || (&& k in si.eligible && si.count > 1 && |s.eligBelow| >= si.count && si.eligible[k] < s.eligBelow[si.count - 2]
              && !(c.tail(k) in s.pins && s.pins[c.tail(k)] + 1 >= si.count)
              && if k in si.owned then k !in si.marked && !si.overflow else k !in mine && settled(si.eligible[k]))
  {
    RunInv(c, states, events, i);
    hide IsRun, KeysOk, MarkOk, SnapOk, MarkedOk, GatesOk, CorruptOk;
  }

  /** What the mark lists: exactly the records in packs below the one the latest barrier recorded,
      each with its pack. */
  lemma MarkLists(c: Config, s: State, t: State, k: Key)
    requires StoreOk(s) && Next(c, s, StartMark, t)
    ensures t.ep.phase.Marking?
    ensures k in t.ep.phase.eligible <==>
      k in s.store.records && s.store.counter > 0 && s.store.records[k] < s.store.eligBelow[s.store.counter - 1]
    ensures k in t.ep.phase.eligible ==> t.ep.phase.eligible[k] == s.store.records[k]
  {
  }

  /** What a sweep leaves: every record but the dead, in its pack or the active one, and exactly
      the pins of the last two barriers. */
  lemma SweepLeaves(c: Config, s: State, e: Event, t: State, k: Key, x: nat)
    requires Next(c, s, e, t) && e.Sweep?
    ensures k in t.store.records <==> k in s.store.records && k !in e.dead
    ensures k in t.store.records ==> t.store.records[k] == if k in e.moved then s.store.active else s.store.records[k]
    ensures x in t.store.pins <==> x in s.store.pins && s.store.pins[x] + 1 >= s.ep.phase.si.count
    ensures x in t.store.pins ==> t.store.pins[x] == s.store.pins[x]
    ensures t.store.corrupt == s.store.corrupt && t.store.active == s.store.active && t.store.counter == s.store.counter
  {
  }

  /** In every run a sweep spares what the current placement gives this node and what it may
      still be the only one to have: a good record not owned under the mark is held afterwards
      if it is owned now or its pack is not settled, and after an overflow every owned one is. */
  lemma SweepSparesCurrent(c: Config, states: seq<State>, events: seq<Event>, i: nat, k: Key)
    requires GoodConfig(c) && IsRun(c, states, events) && i < |events| && events[i].Sweep? && Holds(states[i].store, k)
    ensures states[i].ep.phase.Marked?
    ensures var e, si := events[i], states[i].ep.phase.si;
      || (k !in si.owned && (k in e.mine || (k in si.eligible && !e.settled(si.eligible[k]))))
      || (k in si.owned && si.overflow)
      || k !in si.eligible
      ==> Holds(states[i + 1].store, k)
  {
    var s, e := states[i], events[i];
    assert Next(c, s, e, states[i + 1]);
    SweepMayRemoveIff(c, states, events, i, e.dead, e.mine, e.settled, e.moved);
    SweepLeaves(c, s, e, states[i + 1], k, 0);
    hide Live, IsRun;
  }

  // ---- what was put stays for its reference ----

  /** The record of k is good, and kept since barrier m: pinned since, or in packs that no sweep
      of the barrier after m frees. */
  ghost predicate KeptSince(c: Config, s: State, k: Key, m: nat)
  {
    && Holds(s.store, k) && m <= s.store.counter
    && (|| Pinned(s.store, c.tail, k, m)
        || (&& s.store.records[k] >= History(s.store, m)
            && (k in Eligible(s.ep.phase) ==> Eligible(s.ep.phase)[k] >= History(s.store, m))))
  }

  lemma PutIsKept(c: Config, s: State, e: Event, t: State, k: Key)
    requires StoreOk(s) && MarkOk(c, s) && Next(c, s, e, t) && e.Put? && k in e.keys
    requires k in s.store.corrupt ==> k !in Eligible(s.ep.phase)
    ensures KeptSince(c, t, k, s.store.counter)
  {
    if Holds(s.store, k) {
      var held := set x | x in e.keys && Holds(s.store, x);
      assert k in held;
      assert c.tail(k) in Tails(c.tail, held);
    }
  }

  lemma HistoryRises(s: State, a: nat, b: nat)
    requires StoreOk(s) && a <= b <= s.store.counter
    ensures History(s.store, a) <= History(s.store, b)
  {
  }

  lemma KeptBySweep(c: Config, s: State, e: Event, t: State, k: Key, m: nat)
    requires StoreOk(s) && TimesOk(c, s) && Next(c, s, e, t) && e.Sweep? && s.ep.phase.si.count <= m + 1 && KeptSince(c, s, k, m)
    ensures KeptSince(c, t, k, m)
  {
    var si := s.ep.phase.si;
    HistoryRises(s, si.count - 1, m);
    assert k !in e.dead;
  }

  lemma KeptByOthers(c: Config, s: State, e: Event, t: State, k: Key, m: nat)
    requires StoreOk(s) && TimesOk(c, s) && Next(c, s, e, t) && KeptSince(c, s, k, m) && !e.Sweep? && e != Corrupt(k) && e != StartMark
    ensures KeptSince(c, t, k, m)
  {
    HistoryStays(c, s, e, t, m);
    EligibleKeeps(c, s, e, t);
    PacksRise(c, s, e, t, k);
    if Pinned(s.store, c.tail, k, m) { PinsRise(c, s, e, t, k, m); }
    hide Next, StoreOk, TimesOk, Eligible, History, Pinned;
  }

  lemma KeptByMark(c: Config, s: State, t: State, k: Key, m: nat)
    requires Next(c, s, StartMark, t) && KeptSince(c, s, k, m)
    ensures KeptSince(c, t, k, m)
  {
    EligibleBegins(c, s, t);
    hide Eligible;
  }

  /** But for its own corruption and the sweeps a good record stays where it is or moves to the
      active pack. */
  lemma PacksRise(c: Config, s: State, e: Event, t: State, k: Key)
    requires StoreOk(s) && Next(c, s, e, t) && Holds(s.store, k) && !e.Sweep? && e != Corrupt(k)
    ensures Holds(t.store, k) && t.store.records[k] >= s.store.records[k] && s.store.counter <= t.store.counter
  {
  }

  lemma PinsRise(c: Config, s: State, e: Event, t: State, k: Key, m: nat)
    requires StoreOk(s) && Next(c, s, e, t) && !e.Sweep? && Pinned(s.store, c.tail, k, m)
    ensures Pinned(t.store, c.tail, k, m)
  {
  }

  /** The event does not corrupt k, and sweeps at most for the barrier after m. */
  ghost predicate Spared(s: State, e: Event, k: Key, m: nat)
  {
    e != Corrupt(k) && (e.Sweep? ==> s.ep.phase.Marked? && s.ep.phase.si.count <= m + 1)
  }

  lemma PutKept(c: Config, s: State, e: Event, t: State, k: Key)
    requires Inv(c, s) && Next(c, s, e, t) && e.Put? && k in e.keys && (k in s.store.corrupt ==> k !in Eligible(s.ep.phase))
    ensures KeptSince(c, t, k, s.store.counter)
  {
    hide Next, KeptSince, Eligible, StoreOk, MarkOk, TimesOk, GatesOk, CorruptOk, KeysOk, SnapOk, MarkedOk, ReadOk;
    PutIsKept(c, s, e, t, k);
  }

  lemma KeptIsHeld(c: Config, s: State, k: Key, m: nat)
    requires KeptSince(c, s, k, m)
    ensures Holds(s.store, k)
  {
  }

  lemma KeptStep(c: Config, s: State, e: Event, t: State, k: Key, m: nat)
    requires Inv(c, s) && Next(c, s, e, t) && KeptSince(c, s, k, m) && Spared(s, e, k, m)
    ensures KeptSince(c, t, k, m)
  {
    hide Next, KeptSince, StoreOk, MarkOk, TimesOk, GatesOk, CorruptOk, KeysOk, SnapOk, MarkedOk, ReadOk;
    if e.Sweep? {
      KeptBySweep(c, s, e, t, k, m);
    } else if e == StartMark {
      KeptByMark(c, s, t, k, m);
    } else {
      KeptByOthers(c, s, e, t, k, m);
    }
  }

  lemma RunStep(c: Config, states: seq<State>, events: seq<Event>, i: nat)
    requires IsRun(c, states, events) && i < |events|
    ensures Next(c, states[i], events[i], states[i + 1])
  {
  }

  /** Nothing between j and i disturbs what was kept since barrier m. */
  ghost predicate Undisturbed(states: seq<State>, events: seq<Event>, j: nat, i: nat, k: Key, m: nat)
    requires i <= |states| && i <= |events|
  {
    forall x :: j <= x < i ==> Spared(states[x], events[x], k, m)
  }

  lemma {:induction false} KeptThrough(c: Config, states: seq<State>, events: seq<Event>, j: nat, i: nat, k: Key, m: nat)
    requires GoodConfig(c) && IsRun(c, states, events) && j <= i <= |events| && KeptSince(c, states[j], k, m)
    requires Undisturbed(states, events, j, i, k, m)
    ensures KeptSince(c, states[i], k, m)
    decreases i
  {
    hide Inv, Next, KeptSince, Spared;
    if j < i {
      KeptThrough(c, states, events, j, i - 1, k, m);
      RunStep(c, states, events, i - 1);
      RunInv(c, states, events, i - 1);
      hide IsRun;
      KeptStep(c, states[i - 1], events[i - 1], states[i], k, m);
    }
  }

  /** A record that was put, found good, or written afresh is held through every sweep of the epoch
      under way and of the next one, unless it is corrupted: time enough for its reference.  The
      exception is a put over a corrupt record that the mark under way has listed. */
  lemma PutSurvives(c: Config, states: seq<State>, events: seq<Event>, j: nat, i: nat, k: Key)
    requires GoodConfig(c) && IsRun(c, states, events) && j < i <= |events| && events[j].Put? && k in events[j].keys
    requires k in states[j].store.corrupt ==> k !in Eligible(states[j].ep.phase)
    requires Undisturbed(states, events, j + 1, i, k, states[j].store.counter)
    ensures KeptSince(c, states[i], k, states[j].store.counter) && Holds(states[i].store, k)
  {
    hide Inv, Next, KeptSince, Eligible, Undisturbed, Holds;
    RunStep(c, states, events, j);
    RunInv(c, states, events, j);
    hide IsRun;
    PutKept(c, states[j], events[j], states[j + 1], k);
    KeptThrough(c, states, events, j + 1, i, k, states[j].store.counter);
    KeptIsHeld(c, states[i], k, states[j].store.counter);
  }

  lemma PutOverCorrupt(c: Config, s: State, t: State, k: Key)
    requires Next(c, s, Put({k}), t) && k in s.store.corrupt
    ensures t.ep == s.ep && t.store == s.store.(records := s.store.records[k := s.store.active], corrupt := s.store.corrupt - {k})
  {
    var held := set x | x in {k} && Holds(s.store, x);
    assert held == {};
    assert Tails(c.tail, held) == {};
    assert t.store.pins == s.store.pins;
    assert t.store.records == s.store.records[k := s.store.active];
  }

  /** In the exception the fresh record may go with the very next sweep: the sweep's input still
      has the pack of the corrupt one. */
  lemma RepairedMayGo(c: Config, s: State, t: State, k: Key, mine: set<Key>, settled: Pack -> bool)
    requires s.ep.phase.Marked? && Next(c, s, Put({k}), t) && k in s.store.corrupt && k in s.store.records
    requires var si := s.ep.phase.si;
      && si.count > 1 && |s.store.eligBelow| >= si.count && k in si.eligible && si.eligible[k] < s.store.eligBelow[si.count - 2]
      && !(c.tail(k) in s.store.pins && s.store.pins[c.tail(k)] + 1 >= si.count)
      && k in si.owned && k !in si.marked && !si.overflow
    ensures Holds(t.store, k) && t.store.records[k] == s.store.active && Enabled(c, t, Sweep({k}, mine, settled, {}))
  {
    PutOverCorrupt(c, s, t, k);
    hide Next, PutAll;
    LiveIff(t.store, c.tail, s.ep.phase.si, mine, settled, k);
    hide Live;
  }
}
