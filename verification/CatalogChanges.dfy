/** References across voter changes: what versions mean over a register's history under
    whatever voters, and the purge of a tombstone as a step of the register machine
    (catalog/catalog.go over VoterChange). */
module CatalogChanges {
  import opened Options
  import opened Slots
  import opened Quorums
  import opened VoterChange
  import C = Catalog

  /** The catalog's rule, see Catalog.ByCatalog. */
  ghost predicate ByCatalog(s: State)
  {
    forall c :: c in s.proposals ==>
      || s.proposals[c].value == s.proposals[c].cur
      || (s.proposals[c].value.Some? && s.proposals[c].value.value.version == c)
  }

  ghost predicate Writes(s: State, c: Ballot)
  {
    c in s.proposals && s.proposals[c].value.Some? && s.proposals[c].value.value.version == c
  }

  /** The put or delete at c replaced a present value of version e. */
  ghost predicate Replaces(s: State, c: Ballot, e: Ballot)
  {
    Writes(s, c) && C.Present(s.proposals[c].cur) && s.proposals[c].cur.value.version == e
  }

  lemma {:induction false} VersionBound(conf: Conf, clean: bool, s: State, c: Ballot)
    requires Inv(conf, clean, s) && ByCatalog(s) && c in s.proposals && s.proposals[c].value.Some?
    ensures s.proposals[c].value.value.version <= c
    decreases c
  {
    hide Inv;
    BaseIsProposal(conf, clean, s, c);
    if !Writes(s, c) {
      VersionBound(conf, clean, s, s.proposals[c].base);
    }
  }

  /** What the proposal at c says about the value v chosen below it. */
  ghost predicate NoOlder(s: State, b: Ballot, v: Value, c: Ballot)
    requires c in s.proposals
  {
    match s.proposals[c].value
    case None => PurgedBetween(s, b, c)
    case Some(w) =>
      && v.version <= w.version
      && (v.version == w.version ==> v == w)
      && (b < c && Writes(s, c) ==> v.version < w.version)
  }

  lemma {:induction false} NeverFall(conf: Conf, clean: bool, s: State, b: Ballot, c: Ballot)
    requires GoodConf(conf) && Inv(conf, clean, s) && ByCatalog(s) && Chosen(conf, s, b)
    requires c in s.proposals && b <= c && !TooLate(s, c) && s.proposals[b].value.Some?
    ensures NoOlder(s, b, s.proposals[b].value.value, c)
    decreases c
  {
    hide Inv, TooLate;
    var _ := ProposalFact(conf, clean, s, b);
    hide Chosen, ProposalOk, FromQuorum;
    VersionBound(conf, clean, s, b);
    if b < c {
      LaterProposalsStartAbove(conf, clean, s, b, c);
      BaseIsProposal(conf, clean, s, c);
      var p := s.proposals[c].base;
      if !Writes(s, c) && p >= b {
        BaseInTime(conf, clean, s, c);
        NeverFall(conf, clean, s, b, p);
        if s.proposals[p].value.None? {
          var d :| d in s.purges && b <= d.ballot < p;
          assert PurgedBetween(s, b, c);
        }
      }
    }
  }

  /** Versions never fall, under whatever voters: of two proposals chosen in a good run the later
      has no lower version, an equal version is the same value, a write is strictly newer, and
      an absent value means the earlier one was purged. */
  lemma VersionsNeverFall(conf: Conf, nodes: set<NodeId>, run: seq<State>, i: nat, j: nat, b: Ballot, c: Ballot)
    requires GoodRun(conf, nodes, run) && i < |run| && j < |run| && ByCatalog(run[|run| - 1])
    requires Chosen(conf, run[i], b) && Chosen(conf, run[j], c) && b <= c
    requires run[i].proposals[b].value.Some?
    ensures c in run[|run| - 1].proposals && NoOlder(run[|run| - 1], b, run[i].proposals[b].value.value, c)
  {
    hide Inv, Next, CleanSteps, TooLate, Chosen, NoOlder, ByCatalog;
    var z := |run| - 1;
    var clean := GoodInv(conf, nodes, run, z);
    ChosenSame(conf, nodes, run, i, z, b);
    ChosenSame(conf, nodes, run, j, z, c);
    ChosenInTime(conf, clean, run[z], c);
    NeverFall(conf, clean, run[z], b, c);
  }

  lemma ChosenSame(conf: Conf, nodes: set<NodeId>, run: seq<State>, i: nat, j: nat, b: Ballot)
    requires IsRun(conf, nodes, run) && i <= j < |run| && Chosen(conf, run[i], b)
    ensures Chosen(conf, run[j], b) && b in run[i].proposals && b in run[j].proposals && run[j].proposals[b] == run[i].proposals[b]
  {
    ChosenStays(conf, nodes, run, i, j, b);
    RunGrows(conf, nodes, run, i, j);
  }

  /** The compare-and-swap promise under whatever voters: a chosen value below a chosen write
      that replaced version e is no newer than e, and was not such a write itself. */
  lemma NoLostUpdate(conf: Conf, nodes: set<NodeId>, run: seq<State>, i: nat, j: nat, b: Ballot, c: Ballot, e: Ballot)
    requires GoodRun(conf, nodes, run) && i < |run| && j < |run| && ByCatalog(run[|run| - 1])
    requires Chosen(conf, run[i], b) && Chosen(conf, run[j], c) && b < c
    requires run[i].proposals[b].value.Some? && Replaces(run[j], c, e)
    ensures run[i].proposals[b].value.value.version <= e && !Replaces(run[i], b, e)
  {
    hide Inv, Next, CleanSteps, TooLate, Chosen, ByCatalog;
    var z := |run| - 1;
    var clean := GoodInv(conf, nodes, run, z);
    ChosenSame(conf, nodes, run, i, z, b);
    ChosenSame(conf, nodes, run, j, z, c);
    ChosenInTime(conf, clean, run[z], c);
    NotLost(conf, clean, run[z], b, c, e);
  }

  lemma NotLost(conf: Conf, clean: bool, s: State, b: Ballot, c: Ballot, e: Ballot)
    requires GoodConf(conf) && Inv(conf, clean, s) && ByCatalog(s) && Chosen(conf, s, b) && b < c
    requires s.proposals[b].value.Some? && Replaces(s, c, e) && !TooLate(s, c)
    ensures s.proposals[b].value.value.version <= e && !Replaces(s, b, e)
  {
    hide Inv, Chosen, TooLate;
    LaterProposalsStartAbove(conf, clean, s, b, c);
    BaseIsProposal(conf, clean, s, c);
    BaseInTime(conf, clean, s, c);
    NeverFall(conf, clean, s, b, s.proposals[c].base);
    if Replaces(s, b, e) {
      BaseIsProposal(conf, clean, s, b);
      VersionBound(conf, clean, s, s.proposals[b].base);
    }
  }

  /** The same for writes conditioned on a key, under whatever voters: what was chosen below a chosen
      put or delete over a present value is no newer than that value, and if as new it is that value,
      with the key the write named. */
  lemma NoLostKeyedUpdate(conf: Conf, nodes: set<NodeId>, run: seq<State>, i: nat, j: nat, keyOf: Bytes -> Bytes,
                          b: Ballot, c: Ballot, key: Bytes)
    requires GoodRun(conf, nodes, run) && i < |run| && j < |run| && ByCatalog(run[|run| - 1])
    requires Chosen(conf, run[i], b) && Chosen(conf, run[j], c) && b < c
    requires run[i].proposals[b].value.Some? && Writes(run[j], c) && C.Present(run[j].proposals[c].cur)
    requires keyOf(run[j].proposals[c].cur.value.record.value) == key
    ensures var v, found := run[i].proposals[b].value.value, run[j].proposals[c].cur.value;
      v.version <= found.version && (v.version == found.version ==> v.record.Some? && keyOf(v.record.value) == key)
  {
    hide Inv, Next, CleanSteps, TooLate, Chosen, ByCatalog;
    var z := |run| - 1;
    var clean := GoodInv(conf, nodes, run, z);
    ChosenSame(conf, nodes, run, i, z, b);
    ChosenSame(conf, nodes, run, j, z, c);
    ChosenInTime(conf, clean, run[z], c);
    FoundIsNoOlder(conf, clean, run[z], b, c);
  }

  lemma FoundIsNoOlder(conf: Conf, clean: bool, s: State, b: Ballot, c: Ballot)
    requires GoodConf(conf) && Inv(conf, clean, s) && ByCatalog(s) && Chosen(conf, s, b) && b < c && c in s.proposals
    requires s.proposals[b].value.Some? && C.Present(s.proposals[c].cur) && !TooLate(s, c)
    ensures var v, found := s.proposals[b].value.value, s.proposals[c].cur.value;
      v.version <= found.version && (v.version == found.version ==> v == found)
  {
    hide Inv, Chosen, TooLate;
    LaterProposalsStartAbove(conf, clean, s, b, c);
    BaseIsProposal(conf, clean, s, c);
    BaseInTime(conf, clean, s, c);
    NeverFall(conf, clean, s, b, s.proposals[c].base);
  }

  /** The answers TryPurge was given are reads of the register machine at generation g. */
  ghost predicate AnswersOf(s: State, g: nat, rows: seq<C.Holding>)
  {
    forall i :: 0 <= i < |rows| ==> HeldAt(s, g, rows[i].from, rows[i].accepted)
  }

  /** When TryPurge sends the purge (see its contract), the register machine may send it, and
      the step is clean exactly when as many answered as were asked. */
  lemma TryPurgeIsStep(conf: Conf, s: State, g: nat, h: nat, rows: seq<C.Holding>, b: Ballot) returns (e: Event)
    requires g <= h <= s.current && h < |conf| && C.OneAnswerEach(conf[g], rows) && AnswersOf(s, g, rows)
    requires |conf[h]| <= |rows| && forall i :: 0 <= i < |rows| ==> rows[i].accepted == b
    ensures Enabled(conf, s, e) && e.SendPurge? && e.g == g && e.d == b && e.h == h
    ensures CleanStep(conf, s, e) <==> |rows| == |conf[g]|
  {
    var ids := C.Answerers(conf[g], rows);
    e := SendPurge(g, b, ids, h);
    if |ids| == |conf[g]| {
      assert conf[g] == ids + (conf[g] - ids);
    }
  }
}
