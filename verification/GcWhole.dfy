/** Garbage collection from the gate to the sweep: the mark that a sweep works with is the one the
    polls accepted, so its completeness is a theorem about the mark and not an assumption. */
module GcWhole {
  import opened GcStore
  import G = GcSafety
  import M = GcMark
  import T = GcTermination

  /** A mark that the coordinator accepted: its run, two polls, a moment between them, and the
      later moment at which the worker froze its marked set. */
  datatype Accepted = Accepted(e: M.Env, run: seq<M.State>, first: seq<nat>, second: seq<nat>, between: nat, frozen: nat)

  ghost predicate CoordinatorAccepts(a: Accepted)
  {
    && T.IsRun(a.e, a.run) && T.Poll(a.run, a.first) && T.Poll(a.run, a.second) && a.between <= a.frozen < |a.run|
    && (forall w :: 0 <= w < |a.first| ==> a.first[w] <= a.between <= a.second[w])
    && T.AllIdle(T.Readings(a.run, a.first))
    && M.SumSent(T.Readings(a.run, a.first)) == M.SumSent(T.Readings(a.run, a.second))
    && M.SumRecv(T.Readings(a.run, a.first)) == M.SumRecv(T.Readings(a.run, a.second))
    && M.SumSent(T.Readings(a.run, a.second)) == M.SumRecv(T.Readings(a.run, a.second))
    && (forall w :: 0 <= w < |a.second| - 1 ==> !T.Readings(a.run, a.second)[w].missing)
  }

  ghost predicate Connects(e: M.Env, p: seq<M.Key>, k: Key)
  {
    T.IsPath(e, p) && p[|p| - 1] == k
  }

  /** The mark started from the snapshot's roots and what node o may sweep, and a key is below a
      root exactly as the objects' children say. */
  ghost predicate MarksFor(c: G.Config, s: G.State, a: Accepted, o: M.Node)
    requires s.ep.phase.Marking?
  {
    && a.e.roots == s.snap.roots && o < |a.e.eligible| && a.e.eligible[o] == s.ep.phase.eligible.Keys
    && forall root, k :: root in s.snap.roots && k in c.reach(root) ==> exists p :: Connects(a.e, p, k)
  }

  /** What node o takes from the mark: its marked set and the keys it owns under the placement. */
  ghost predicate TakesMark(c: G.Config, s: G.State, ev: G.Event, a: Accepted, o: M.Node)
    requires ev.FinishMark?
  {
    && s.ep.phase.Marking? && CoordinatorAccepts(a) && MarksFor(c, s, a, o)
    && o < |a.run[a.frozen].ws| && ev.marked == a.run[a.frozen].ws[o].marked
    && forall k :: k in ev.owned ==> o in a.e.owners(k)
  }

  /** So the mark is complete for the sweep. */
  lemma AcceptedMarkFinishes(c: G.Config, s: G.State, ev: G.Event, a: Accepted, o: M.Node)
    requires ev.FinishMark? && TakesMark(c, s, ev, a, o)
    ensures G.Enabled(c, s, ev)
  {
    hide T.IsPath, T.IsRun, T.AllIdle;
    forall root, k | root in s.snap.roots && k in c.reach(root) && k in ev.owned && k in s.ep.phase.eligible
      ensures k in ev.marked
    {
      var p :| Connects(a.e, p, k);
      PathNotEmpty(a.e, p);
      T.AcceptedMarkIsComplete(a.e, a.run, a.first, a.second, a.between, a.frozen, p, o);
    }
  }

  lemma PathNotEmpty(e: M.Env, p: seq<M.Key>)
    requires T.IsPath(e, p)
    ensures p != []
  {
  }

  /** A step of the node; the end of a mark is one that the coordinator accepted. */
  ghost predicate Step(c: G.Config, o: M.Node, s: G.State, ev: G.Event, t: G.State, a: Accepted)
  {
    if ev.FinishMark? then
      && TakesMark(c, s, ev, a, o) && t.now > s.now
      && t == s.(now := t.now, ep := s.ep.(phase := G.Marked(
           s.ep.phase.began, SweepInput(s.store.counter, s.ep.phase.eligible, ev.marked, ev.owned, ev.overflow))))
    else G.Next(c, s, ev, t)
  }

  ghost predicate IsRun(c: G.Config, o: M.Node, states: seq<G.State>, events: seq<G.Event>, marks: seq<Accepted>)
  {
    && |states| == |events| + 1 && |marks| == |events| && G.Init(states[0])
    && forall i :: 0 <= i < |events| ==> Step(c, o, states[i], events[i], states[i + 1], marks[i])
  }

  lemma StepIsNext(c: G.Config, o: M.Node, s: G.State, ev: G.Event, t: G.State, a: Accepted)
    requires Step(c, o, s, ev, t, a)
    ensures G.Next(c, s, ev, t)
  {
    if ev.FinishMark? {
      AcceptedMarkFinishes(c, s, ev, a, o);
      hide TakesMark;
    }
  }

  /** In every run whose marks are those the coordinator accepted, no sweep removes a copy that
      the node owned under the mark, that lies below a committed reference, and that is a copy
      below a root or one found good by the reference's gate and good since. */
  lemma CollectionSparesReferenced(c: G.Config, o: M.Node, states: seq<G.State>, events: seq<G.Event>, marks: seq<Accepted>,
                                   i: nat, name: G.Name, k: Key)
    requires G.GoodConfig(c) && IsRun(c, o, states, events, marks) && i < |events| && events[i].Sweep?
    requires states[i].ep.phase.Marked?
    requires name in states[i].refs && k in c.reach(G.Root(states[i], states[i].refs[name]))
    requires k in states[i].ep.phase.si.owned && Holds(states[i].store, k)
    requires states[i].refs[name].gate in states[i].gates
    requires || G.IsRoot(states[i], states[i].refs[name])
             || G.GoodSince(states[i], states[i].gates[states[i].refs[name].gate], k)
    ensures Holds(states[i + 1].store, k)
  {
    hide Step, G.Next, G.Init, G.GoodSince, G.IsRoot, Holds;
    forall j | 0 <= j < |events| ensures G.Next(c, states[j], events[j], states[j + 1]) {
      StepIsNext(c, o, states[j], events[j], states[j + 1], marks[j]);
    }
    G.SweepSparesReferenced(c, states, events, i, name, k);
  }
}
