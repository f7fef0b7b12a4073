/** What the coordinator of a mark may conclude from its polls (node/gc.go runCycle). */
module GcTermination {
  import opened GcMark

  ghost predicate Moves(e: Env, s: State, t: State)
  {
    exists a :: Step(e, s, a, t)
  }

  ghost predicate IsRun(e: Env, run: seq<State>)
  {
    && |run| > 0 && Init(e, run[0])
    && forall i :: 0 < i < |run| ==> Moves(e, run[i - 1], run[i])
  }

  lemma RunStep(e: Env, run: seq<State>, j: nat) returns (a: Event)
    requires IsRun(e, run) && 0 < j < |run|
    ensures Step(e, run[j - 1], a, run[j])
  {
    var s, t := run[j - 1], run[j];
    assert Moves(e, s, t);
    a :| Step(e, s, a, t);
  }

  lemma InitInv(e: Env, s: State)
    requires Init(e, s)
    ensures Inv(e, s)
  {
    Zeros(s.ws);
    assert Counted(s);
    forall k | k in e.roots ensures Covered(e, s, k) {
      if k in s.ws[e.worker(k)].queue {
        assert Holding(s, e.worker(k), k);
      } else {
        assert Outgoing(s, |s.ws| - 1, e.worker(k), k);
      }
    }
  }

  lemma {:induction false} Zeros(ws: seq<Worker>)
    requires forall i :: 0 <= i < |ws| ==> BlankWorker(ws[i])
    ensures SumSent(ws) == 0 && SumRecv(ws) == 0
  {
    if ws != [] {
      Zeros(ws[..|ws| - 1]);
    }
  }

  lemma {:induction false} RunInv(e: Env, run: seq<State>, i: nat)
    requires IsRun(e, run) && i < |run|
    ensures Inv(e, run[i])
  {
    hide Inv, Step;
    if i == 0 {
      InitInv(e, run[0]);
    } else {
      RunInv(e, run, i - 1);
      var a := RunStep(e, run, i);
      StepKeeps(e, run[i - 1], a, run[i]);
    }
  }

  /** Counters, marks and the missing flag only rise. */
  lemma {:induction false} RunRises(e: Env, run: seq<State>, i: nat, j: nat, w: Node)
    requires IsRun(e, run) && i <= j < |run| && w < |run[i].ws|
    ensures |run[j].ws| == |run[i].ws|
    ensures run[i].ws[w].ctr.sent <= run[j].ws[w].ctr.sent && run[i].ws[w].ctr.recv <= run[j].ws[w].ctr.recv
    ensures run[i].ws[w].marked <= run[j].ws[w].marked
    ensures run[i].ws[w].missing ==> run[j].ws[w].missing
    decreases j
  {
    hide IsRun, Step;
    if i < j {
      RunRises(e, run, i, j - 1, w);
      var a := RunStep(e, run, j);
      StepShape(e, run[j - 1], a, run[j]);
      Monotone(e, run[j - 1], a, run[j], w);
    }
  }

  /** An idle worker that receives no new batch stays idle. */
  lemma StepIdle(e: Env, s: State, a: Event, t: State, w: Node)
    requires Step(e, s, a, t) && w < |s.ws| && s.ws[w].Idle()
    ensures w < |t.ws|
    ensures t.ws[w].ctr.recv == s.ws[w].ctr.recv ==> t.ws[w].Idle()
  {
    StepShape(e, s, a, t);
  }

  lemma {:induction false} StaysIdle(e: Env, run: seq<State>, i: nat, j: nat, w: Node)
    requires IsRun(e, run) && i <= j < |run| && w < |run[i].ws| && w < |run[j].ws|
    requires run[i].ws[w].Idle() && run[j].ws[w].ctr.recv == run[i].ws[w].ctr.recv
    ensures run[j].ws[w].Idle()
    decreases j
  {
    hide IsRun, Step;
    if i < j {
      RunRises(e, run, i, j - 1, w);
      RunRises(e, run, j - 1, j, w);
      StaysIdle(e, run, i, j - 1, w);
      var a := RunStep(e, run, j);
      StepIdle(e, run[j - 1], a, run[j], w);
    }
  }

  /** Nothing is queued, in work, outgoing or in flight anywhere. */
  ghost predicate Quiescent(s: State)
  {
    s.net == s.accepted && forall w :: 0 <= w < |s.ws| ==> s.ws[w].Idle()
  }

  // ---- polls ----

  /** A poll asks every sender once, at its own moment. */
  ghost predicate Poll(run: seq<State>, at: seq<nat>)
  {
    && |run| > 0 && |at| == |run[0].ws|
    && forall w :: 0 <= w < |at| ==> at[w] < |run| && w < |run[at[w]].ws|
  }

  ghost function Readings(run: seq<State>, at: seq<nat>): (ws: seq<Worker>)
    requires Poll(run, at)
    ensures |ws| == |at| && forall w :: 0 <= w < |at| ==> ws[w] == run[at[w]].ws[w]
  {
    seq(|at|, w requires 0 <= w < |at| => run[at[w]].ws[w])
  }

  ghost predicate AllIdle(ws: seq<Worker>)
  {
    forall w :: 0 <= w < |ws| ==> ws[w].Idle()
  }

  /** Two polls one after the other, the first all idle, with the same totals and as many
      batches received as sent, prove that at any moment between them nothing was queued or
      in flight anywhere. */
  lemma PollsDetectTermination(e: Env, run: seq<State>, first: seq<nat>, second: seq<nat>, m: nat)
    requires IsRun(e, run) && Poll(run, first) && Poll(run, second) && m < |run|
    requires forall w :: 0 <= w < |first| ==> first[w] <= m <= second[w]
    requires AllIdle(Readings(run, first))
    requires SumSent(Readings(run, first)) == SumSent(Readings(run, second))
    requires SumRecv(Readings(run, first)) == SumRecv(Readings(run, second))
    requires SumSent(Readings(run, second)) == SumRecv(Readings(run, second))
    ensures Quiescent(run[m])
  {
    hide IsRun, Inv;
    var a, b, c := Readings(run, first), run[m].ws, Readings(run, second);
    RunSize(e, run, m);
    forall w | 0 <= w < |a|
      ensures a[w].ctr.sent <= b[w].ctr.sent <= c[w].ctr.sent && a[w].ctr.recv <= b[w].ctr.recv <= c[w].ctr.recv
    {
      RunRises(e, run, first[w], m, w);
      RunRises(e, run, m, second[w], w);
    }
    EqualSums(a, c);
    EqualSums(a, b);
    EqualSums(b, c);
    forall w | 0 <= w < |b| ensures b[w].Idle() {
      StaysIdle(e, run, first[w], m, w);
    }
    RunInv(e, run, m);
    AllTaken(e, run[m]);
  }

  lemma RunSize(e: Env, run: seq<State>, m: nat)
    requires IsRun(e, run) && m < |run|
    ensures |run[m].ws| == |run[0].ws|
  {
    RunRises(e, run, 0, m, 0);
  }

  /** As many received as sent means that every batch sent was received. */
  lemma AllTaken(e: Env, s: State)
    requires Inv(e, s) && SumSent(s.ws) == SumRecv(s.ws)
    ensures s.net == s.accepted
  {
    assert s.net == s.accepted + (s.net - s.accepted);
  }

  // ---- completeness ----

  /** A path of the object graph from a root, through interior objects. */
  ghost predicate IsPath(e: Env, p: seq<Key>)
  {
    && p != [] && p[0] in e.roots
    && forall i :: 0 <= i < |p| - 1 ==> !e.leaf(p[i]) && p[i + 1] in e.children(p[i])
  }

  ghost predicate DoneSomewhere(s: State, k: Key)
  {
    exists i: Node :: DoneAt(s, i, k)
  }

  lemma NothingInPlay(s: State, k: Key)
    requires Quiescent(s)
    ensures forall i: Node :: !Holding(s, i, k)
    ensures forall i: Node, t: Node :: !Outgoing(s, i, t, k)
    ensures forall b :: !Flying(s, b, k)
  {
    forall i: Node | i < |s.ws| ensures !Holding(s, i, k) && forall t: Node :: !Outgoing(s, i, t, k) {
      assert s.ws[i].Idle();
    }
  }

  lemma QuietCovered(e: Env, s: State, k: Key)
    requires Quiescent(s) && Covered(e, s, k)
    ensures DoneSomewhere(s, k)
  {
    NothingInPlay(s, k);
  }

  /** At rest, a key that was processed anywhere was expanded by its worker. */
  lemma QuietExpanded(e: Env, s: State, k: Key)
    requires Inv(e, s) && Quiescent(s) && !e.leaf(k) && DoneSomewhere(s, k)
    requires forall i :: 0 <= i < |s.ws| - 1 ==> !s.ws[i].missing
    ensures forall c :: c in e.children(k) ==> Covered(e, s, c)
  {
    var i: Node :| DoneAt(s, i, k);
    var w := e.worker(k);
    NothingInPlay(s, k);
    if w != i {
      assert k in s.ws[i].forwarded;
      assert Routed(e, s, k);
    }
    assert DoneAt(s, w, k);
    assert k in s.ws[w].visited;
    assert Expanded(e, s, w, k);
    assert s.ws[w].Idle();
  }

  lemma {:induction false} QuietReaches(e: Env, s: State, p: seq<Key>)
    requires Inv(e, s) && Quiescent(s) && IsPath(e, p)
    requires forall i :: 0 <= i < |s.ws| - 1 ==> !s.ws[i].missing
    ensures DoneSomewhere(s, p[|p| - 1])
  {
    var k := |p| - 1;
    if k == 0 {
      assert RootsOk(e, s);
    } else {
      hide Inv;
      assert IsPath(e, p[..k]);
      QuietReaches(e, s, p[..k]);
      QuietExpanded(e, s, p[k - 1]);
    }
    QuietCovered(e, s, p[k]);
  }

  /** At rest with nothing missing, every key on a path from a root is marked at each acked
      owner that holds it in a sweepable pack. */
  lemma QuietMarksEverything(e: Env, s: State, p: seq<Key>, o: Node)
    requires Inv(e, s) && Quiescent(s) && IsPath(e, p)
    requires forall i :: 0 <= i < |s.ws| - 1 ==> !s.ws[i].missing
    requires o in e.owners(p[|p| - 1])
    ensures o < |s.ws| - 1 && o < |e.eligible|
    ensures p[|p| - 1] in e.eligible[o] ==> p[|p| - 1] in s.ws[o].marked
  {
    QuietReaches(e, s, p);
    var k := p[|p| - 1];
    var i: Node :| DoneAt(s, i, k);
    NothingInPlay(s, k);
    assert Paid(e, s, i, k, o);
    assert s.ws[i].Idle();
  }

  /** The mark the coordinator accepts is complete: after two agreeing polls without a
      missing key, every key reachable from the roots is, from then on, marked at each acked
      owner that holds it in a sweepable pack. */
  lemma AcceptedMarkIsComplete(e: Env, run: seq<State>, first: seq<nat>, second: seq<nat>, m: nat, j: nat,
                               p: seq<Key>, o: Node)
    requires IsRun(e, run) && Poll(run, first) && Poll(run, second) && m <= j < |run|
    requires forall w :: 0 <= w < |first| ==> first[w] <= m <= second[w]
    requires AllIdle(Readings(run, first))
    requires SumSent(Readings(run, first)) == SumSent(Readings(run, second))
    requires SumRecv(Readings(run, first)) == SumRecv(Readings(run, second))
    requires SumSent(Readings(run, second)) == SumRecv(Readings(run, second))
    requires forall w :: 0 <= w < |second| - 1 ==> !Readings(run, second)[w].missing
    requires IsPath(e, p) && o in e.owners(p[|p| - 1])
    ensures o < |run[j].ws| && o < |e.eligible|
    ensures p[|p| - 1] in e.eligible[o] ==> p[|p| - 1] in run[j].ws[o].marked
  {
    hide IsRun, Inv, Quiescent, IsPath, AllIdle;
    PollsDetectTermination(e, run, first, second, m);
    RunInv(e, run, m);
    RunSize(e, run, m);
    forall w | 0 <= w < |run[m].ws| - 1 ensures !run[m].ws[w].missing {
      RunRises(e, run, m, second[w], w);
      assert !Readings(run, second)[w].missing;
    }
    QuietMarksEverything(e, run[m], p, o);
    RunRises(e, run, m, j, o);
  }
}
