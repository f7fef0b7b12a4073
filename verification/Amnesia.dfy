/** An acceptor that loses its disk (paxos/acceptor.go).  Its marker is gone with the rows, so it
    refuses prepares and reads, but it still takes accepts.  Agreement survives as long as it
    takes none below a promise that it has forgotten. */
module Amnesia {
  import opened Options
  import opened Slots
  import opened Quorums
  import C = Caspaxos
  import A = Agreement

  /** The register machine, the acceptors that lost their disk, and, as history, what every
      acceptor would hold had it lost nothing. */
  datatype State = State(s: C.State, wiped: set<NodeId>, memory: map<NodeId, Slot>)

  datatype Event = Normal(e: C.Event) | Wipe(n: NodeId)

  ghost predicate Init(voters: set<NodeId>, w: State)
  {
    C.Init(voters, w.s) && w.wiped == {} && w.memory == w.s.slots
  }

  ghost predicate Enabled(voters: set<NodeId>, w: State, ev: Event)
  {
    match ev
    case Normal(e) => C.Enabled(voters, w.s, e) && (e.PrepareAt? ==> e.n !in w.wiped)
    case Wipe(n) => n in w.s.slots
  }

  /** n takes the accept of b with the slot it has. */
  ghost predicate TakenBy(s: C.State, n: NodeId, b: Ballot)
  {
    n in s.slots && b in s.proposals && Accept(s.slots[n], b, s.proposals[b].value).1.AcceptedAck?
  }

  /** What the acceptors would hold: each takes the event as its slot of old would. */
  ghost function Remember(s: C.State, memory: map<NodeId, Slot>, e: C.Event): map<NodeId, Slot>
    requires e.AcceptAt? ==> e.b in s.proposals
  {
    match e
    case PrepareAt(n, b) => if n in memory then memory[n := Prepare(memory[n], b).0] else memory
    case AcceptAt(n, b) =>
      if n in memory && TakenBy(s, n, b) then memory[n := Accept(memory[n], b, s.proposals[b].value).0] else memory
    case PurgeAt(n, d) => if n in memory then memory[n := Purge(memory[n], d)] else memory
    case RaiseFloor(n, d) => if n in memory && d > memory[n].floor then memory[n := memory[n].(floor := d)] else memory
    case _ => memory
  }

  ghost function Apply(voters: set<NodeId>, w: State, ev: Event): State
    requires Enabled(voters, w, ev)
  {
    match ev
    case Normal(e) => State(C.Apply(w.s, e), w.wiped, Remember(w.s, w.memory, e))
    case Wipe(n) => State(w.s.(slots := w.s.slots[n := Slot(None, 0)]), w.wiped + {n}, w.memory)
  }

  /** A wiped acceptor takes no accept below the promise it has forgotten. */
  ghost predicate KeepsWord(w: State, ev: Event)
  {
    ev.Normal? && ev.e.AcceptAt? && ev.e.n in w.wiped && ev.e.n in w.memory && TakenBy(w.s, ev.e.n, ev.e.b) ==>
      ev.e.b >= w.memory[ev.e.n].Promised()
  }

  ghost predicate IsRun(voters: set<NodeId>, states: seq<State>, events: seq<Event>)
  {
    && |states| == |events| + 1 && Init(voters, states[0])
    && forall i :: 0 <= i < |events| ==> Enabled(voters, states[i], events[i]) && states[i + 1] == Apply(voters, states[i], events[i])
  }

  // ---- nothing is forgotten that matters ----

  /** The machine in which nobody lost anything. */
  ghost function Whole(w: State): C.State { w.s.(slots := w.memory) }

  ghost predicate Inv(voters: set<NodeId>, w: State)
  {
    C.Inv(voters, Whole(w)) && RealOk(voters, w)
  }

  /** Only wiped acceptors hold anything else. */
  ghost predicate RealOk(voters: set<NodeId>, w: State)
  {
    && w.s.slots.Keys == w.memory.Keys == voters && w.wiped <= voters
    && (forall n :: n in voters && n !in w.wiped ==> w.s.slots[n] == w.memory[n])
  }

  lemma MemoryIsValid(voters: set<NodeId>, w: State, n: NodeId)
    requires Inv(voters, w) && n in voters
    ensures w.memory[n].Valid()
  {
  }

  lemma RealStays(voters: set<NodeId>, w: State, ev: Event)
    requires RealOk(voters, w) && Enabled(voters, w, ev)
    ensures RealOk(voters, Apply(voters, w, ev))
  {
    if ev.Normal? && ev.e.AcceptAt? && !TakenBy(w.s, ev.e.n, ev.e.b) {
      var x, v := w.s.slots[ev.e.n], w.s.proposals[ev.e.b].value;
      assert Accept(x, ev.e.b, v).0 == x;
    }
  }

  lemma AcceptSteps(voters: set<NodeId>, w: State, e: C.Event)
    requires Inv(voters, w) && Enabled(voters, w, Normal(e)) && KeepsWord(w, Normal(e)) && e.AcceptAt?
    ensures TakenBy(w.s, e.n, e.b) ==>
      C.Enabled(voters, Whole(w), e) && C.Apply(Whole(w), e) == Whole(Apply(voters, w, Normal(e)))
    ensures !TakenBy(w.s, e.n, e.b) ==> Whole(Apply(voters, w, Normal(e))) == Whole(w)
  {
    MemoryIsValid(voters, w, e.n);
    hide C.Inv, Inv;
    var y, v := w.memory[e.n], w.s.proposals[e.b].value;
    if TakenBy(w.s, e.n, e.b) {
      assert Accept(y, e.b, v).1.AcceptedAck?;
      hide Slots.Accept;
    }
  }

  /** The same event is a step of the whole machine, or leaves it alone. */
  lemma WholeSteps(voters: set<NodeId>, w: State, e: C.Event)
    requires Inv(voters, w) && Enabled(voters, w, Normal(e)) && KeepsWord(w, Normal(e))
    ensures C.Next(voters, Whole(w), Whole(Apply(voters, w, Normal(e)))) || Whole(Apply(voters, w, Normal(e))) == Whole(w)
  {
    hide C.Inv;
    var t := Whole(Apply(voters, w, Normal(e)));
    if e.AcceptAt? {
      AcceptSteps(voters, w, e);
    } else if e.RaiseFloor? && e.d <= w.memory[e.n].floor {
      assert t == Whole(w);
    } else {
      assert C.Enabled(voters, Whole(w), e) && C.Apply(Whole(w), e) == t;
    }
  }

  lemma StepKeeps(voters: set<NodeId>, w: State, ev: Event)
    requires Inv(voters, w) && Enabled(voters, w, ev) && KeepsWord(w, ev)
    ensures Inv(voters, Apply(voters, w, ev))
  {
    RealStays(voters, w, ev);
    hide C.Inv;
    if ev.Normal? {
      WholeSteps(voters, w, ev.e);
      hide Enabled, Apply, C.Next;
      if Whole(Apply(voters, w, ev)) != Whole(w) {
        C.StepKeeps(voters, Whole(w), Whole(Apply(voters, w, ev)));
      }
    } else {
      assert Whole(Apply(voters, w, ev)) == Whole(w);
    }
  }

  lemma {:induction false} RunInv(voters: set<NodeId>, states: seq<State>, events: seq<Event>, i: nat)
    requires IsRun(voters, states, events) && (forall j :: 0 <= j < |events| ==> KeepsWord(states[j], events[j])) && i < |states|
    ensures Inv(voters, states[i])
  {
    if i > 0 {
      RunInv(voters, states, events, i - 1);
      hide Inv, Enabled, Apply, KeepsWord, Init;
      StepKeeps(voters, states[i - 1], events[i - 1]);
    }
  }

  /** Agreement survives wiped acceptors that keep their word: of any two chosen proposals the
      lower is an ancestor of the higher. */
  lemma AgreementSurvives(voters: set<NodeId>, states: seq<State>, events: seq<Event>, b: Ballot, c: Ballot)
    requires IsRun(voters, states, events) && forall j :: 0 <= j < |events| ==> KeepsWord(states[j], events[j])
    requires A.Chosen(voters, states[|events|].s, b) && A.Chosen(voters, states[|events|].s, c) && b <= c
    ensures A.Descends(states[|events|].s, c, b)
  {
    var w := states[|events|];
    RunInv(voters, states, events, |events|);
    var f := Whole(w);
    ChosenInWhole(voters, w, b);
    ChosenInWhole(voters, w, c);
    hide C.Inv, IsRun;
    A.ChosenIsProposal(voters, f, c);
    A.ChosenIsAncestor(voters, f, b, c);
    DescendsInWhole(w, c, b);
  }

  lemma ChosenInWhole(voters: set<NodeId>, w: State, b: Ballot)
    requires A.Chosen(voters, w.s, b)
    ensures A.Chosen(voters, Whole(w), b)
  {
    var q :| IsQuorum(q, voters) && A.AckedBy(w.s, b, q);
    assert A.AckedBy(Whole(w), b, q);
  }

  lemma {:induction false} DescendsInWhole(w: State, c: Ballot, b: Ballot)
    requires A.Descends(Whole(w), c, b)
    ensures A.Descends(w.s, c, b)
    decreases c
  {
    if c != b {
      var p: nat :| p < c && A.Parent(Whole(w), p, c) && A.Descends(Whole(w), p, b);
      DescendsInWhole(w, p, b);
      assert A.Parent(w.s, p, c);
    }
  }

  // ---- an acceptor that breaks its word ----

  const THREE: set<NodeId> := {0, 1, 2}

  ghost predicate Reached(w: State)
  {
    exists states, events :: IsRun(THREE, states, events) && states[|events|] == w
  }

  lemma Step(w: State, ev: Event)
    requires Reached(w) && Enabled(THREE, w, ev)
    ensures Reached(Apply(THREE, w, ev))
  {
    hide Enabled, Apply, Init;
    var states, events :| IsRun(THREE, states, events) && states[|events|] == w;
    var ss, es := states + [Apply(THREE, w, ev)], events + [ev];
    assert IsRun(THREE, ss, es) && ss[|es|] == Apply(THREE, w, ev);
  }

  function One(): Option<Value> { Some(Value(Some([1]), 5)) }

  function Two(): Option<Value> { Some(Value(Some([2]), 7)) }

  function Empty(): C.State { C.State(map n | n in THREE :: Slot(None, 0), {}, map[], {}, {}) }

  ghost predicate Majority(q: set<NodeId>) { IsQuorum(q, THREE) }

  lemma Pairs()
    ensures Majority({1, 2}) && Majority({0, 1}) && Majority({0, 2})
  {
    assert |{1, 2}| == 2 && |{0, 1}| == 2 && |{0, 2}| == 2 && |THREE| == 3;
  }

  /** 1 and 2 have let 5 be proposed. */
  lemma FirstProposal() returns (w: State)
    ensures Reached(w) && w.wiped == {} && w.memory == w.s.slots && w.s.slots.Keys == THREE
    ensures w.s.slots[0] == Slot(None, 0) && w.s.slots[1] == w.s.slots[2] == Slot(Some(Row(5, 0, None)), 0)
    ensures w.s.proposals == map[5 := C.Proposal(0, None, One())] && w.s.purged == {} && w.s.acks == {}
    ensures forall m :: m in w.s.promises ==> m.ballot == 5
  {
    hide Reached;
    var w0 := State(Empty(), {}, Empty().slots);
    assert IsRun(THREE, [w0], []);
    assert Reached(w0) by { Begins(w0); }
    Step(w0, Normal(C.PrepareAt(1, 5)));
    var w1 := Apply(THREE, w0, Normal(C.PrepareAt(1, 5)));
    Step(w1, Normal(C.PrepareAt(2, 5)));
    var w2 := Apply(THREE, w1, Normal(C.PrepareAt(2, 5)));
    var p := C.Proposal(0, None, One());
    Pairs();
    assert C.Promised(w2.s, 1, 5, C.PromiseMsg(1, 5, 0, None)) && C.Promised(w2.s, 2, 5, C.PromiseMsg(2, 5, 0, None));
    assert C.FromQuorum(THREE, w2.s, 5, {1, 2}, p);
    Step(w2, Normal(C.Propose(5, {1, 2}, p)));
    w := Apply(THREE, w2, Normal(C.Propose(5, {1, 2}, p)));
  }

  lemma Begins(w: State)
    requires IsRun(THREE, [w], [])
    ensures Reached(w)
  {
    var ss, es: seq<Event> := [w], [];
    assert IsRun(THREE, ss, es) && ss[|es|] == w;
  }

  /** 0 and 1 have promised 7 and let it be proposed from nothing. */
  lemma SecondProposal() returns (w: State)
    ensures Reached(w) && w.wiped == {} && w.s.slots.Keys == w.memory.Keys == THREE
    ensures w.s.slots[0] == w.s.slots[1] == Slot(Some(Row(7, 0, None)), 0) && w.s.slots[2] == Slot(Some(Row(5, 0, None)), 0)
    ensures w.s.proposals == map[5 := C.Proposal(0, None, One()), 7 := C.Proposal(0, None, Two())]
    ensures w.s.purged == {} && w.s.acks == {}
  {
    hide Reached;
    var w0 := FirstProposal();
    Step(w0, Normal(C.PrepareAt(0, 7)));
    var w1 := Apply(THREE, w0, Normal(C.PrepareAt(0, 7)));
    Step(w1, Normal(C.PrepareAt(1, 7)));
    var w2 := Apply(THREE, w1, Normal(C.PrepareAt(1, 7)));
    var p := C.Proposal(0, None, Two());
    Pairs();
    assert C.Promised(w2.s, 0, 7, C.PromiseMsg(0, 7, 0, None)) && C.Promised(w2.s, 1, 7, C.PromiseMsg(1, 7, 0, None));
    assert C.FromQuorum(THREE, w2.s, 7, {0, 1}, p);
    Step(w2, Normal(C.Propose(7, {0, 1}, p)));
    w := Apply(THREE, w2, Normal(C.Propose(7, {0, 1}, p)));
  }

  /** 0 loses its disk, forgets its promise and helps to choose 5. */
  lemma Forget() returns (w: State)
    ensures Reached(w) && w.s.slots.Keys == w.memory.Keys == THREE
    ensures w.s.slots[0] == Slot(Some(Row(5, 5, One())), 0) && w.s.slots[1] == Slot(Some(Row(7, 0, None)), 0)
    ensures w.s.proposals == map[5 := C.Proposal(0, None, One()), 7 := C.Proposal(0, None, Two())]
    ensures w.s.purged == {} && w.s.acks == {C.Ack(0, 5), C.Ack(2, 5)}
  {
    hide Reached;
    var w0 := SecondProposal();
    Step(w0, Wipe(0));
    var w1 := Apply(THREE, w0, Wipe(0));
    Step(w1, Normal(C.AcceptAt(0, 5)));
    var w2 := Apply(THREE, w1, Normal(C.AcceptAt(0, 5)));
    Step(w2, Normal(C.AcceptAt(2, 5)));
    w := Apply(THREE, w2, Normal(C.AcceptAt(2, 5)));
  }

  /** Without the condition agreement fails with one lost disk: 5 and 7 are both chosen, and 7
      knows nothing of 5. */
  lemma ForgottenPromiseLoses() returns (w: State)
    ensures Reached(w) && A.Chosen(THREE, w.s, 5) && A.Chosen(THREE, w.s, 7) && !A.Descends(w.s, 7, 5)
  {
    hide Reached;
    var w0 := Forget();
    Step(w0, Normal(C.AcceptAt(0, 7)));
    var w1 := Apply(THREE, w0, Normal(C.AcceptAt(0, 7)));
    Step(w1, Normal(C.AcceptAt(1, 7)));
    w := Apply(THREE, w1, Normal(C.AcceptAt(1, 7)));
    Pairs();
    assert A.AckedBy(w.s, 5, {0, 2}) && A.AckedBy(w.s, 7, {0, 1});
    assert forall p: nat :: !A.Parent(w.s, p, 7);
  }
}
