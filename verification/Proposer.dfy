/** The proposer's rounds (paxos/proposer.go): how replies become an outcome.  The
    network is the sequence of replies in the order they arrive, one per voter. */
module Proposer {
  import opened Options
  import opened Slots
  import opened Quorums
  import opened Caspaxos

  /** The view a round runs at. */
  datatype Round = Round(voters: set<NodeId>, inc: nat, epoch: nat)

  /** What came back from one voter: nothing, an error, or a reply stamped with the
      acceptor's (incarnation, epoch).  A stale error carries the acceptor's newer view. */
  datatype Raw =
    | NoReply
    | StaleErr(view: Round)
    | ExpiredErr
    | OtherErr
    | Stamped(inc: nat, epoch: nat, reply: Reply)

  datatype Incoming = Incoming(from: NodeId, raw: Raw)

  datatype Class = Skipped | IsStale(view: Round) | IsExpired | IsConflict(b: Ballot) | Good(reply: Reply)

  function Classify(r: Round, raw: Raw): (c: Class)
    ensures c.Good? <==> raw.Stamped? && raw.inc == r.inc && raw.epoch == r.epoch && !raw.reply.Conflict?
    ensures c.Good? ==> c.reply == raw.reply
    ensures c.IsConflict? <==> raw.Stamped? && raw.inc == r.inc && raw.epoch == r.epoch && raw.reply.Conflict?
    ensures c.IsConflict? ==> c.b == raw.reply.ballot
    ensures c.IsStale? <==> raw.StaleErr?
    ensures c.IsStale? ==> c.view == raw.view
    ensures c.IsExpired? <==> raw.ExpiredErr?
  {
    match raw
    case NoReply => Skipped
    case StaleErr(view) => IsStale(view)
    case ExpiredErr => IsExpired
    case OtherErr => Skipped
    case Stamped(inc, epoch, reply) =>
      if inc != r.inc || epoch != r.epoch then Skipped
      else if reply.Conflict? then IsConflict(reply.ballot)
      else Good(reply)
  }

  predicate IsPromise(r: Round, i: Incoming)
  {
    Classify(r, i.raw).Good? && Classify(r, i.raw).reply.Promise?
  }

  predicate IsAck(r: Round, i: Incoming)
  {
    Classify(r, i.raw).Good? && Classify(r, i.raw).reply.AcceptedAck?
  }

  ghost predicate OnePerVoter(r: Round, replies: seq<Incoming>)
  {
    && (forall i :: 0 <= i < |replies| ==> replies[i].from in r.voters)
    && (forall i, j :: 0 <= i < j < |replies| ==> replies[i].from != replies[j].from)
  }

  datatype Found = Found(accepted: Ballot, value: Option<Value>)

  datatype PrepareOutcome = Prepared(best: Found) | PrepareStale(view: Round) | PrepareConflict(b: Ballot) | PrepareNoQuorum

  ghost predicate PromisedBy(r: Round, replies: seq<Incoming>, n: NodeId, i: nat)
  {
    i < |replies| && replies[i].from == n && IsPromise(r, replies[i])
  }

  ghost predicate PromisedRow(r: Round, replies: seq<Incoming>, i: nat, f: Found)
  {
    && i < |replies| && IsPromise(r, replies[i])
    && replies[i].raw.reply.accepted == f.accepted && replies[i].raw.reply.value == f.value
  }

  ghost predicate PromisedAtMost(r: Round, replies: seq<Incoming>, n: NodeId, top: Ballot)
  {
    exists i: nat :: PromisedBy(r, replies, n, i) && replies[i].raw.reply.accepted <= top
  }

  /** q is a quorum of promises and f its highest accepted row. */
  ghost predicate QuorumPrepared(r: Round, replies: seq<Incoming>, q: set<NodeId>, f: Found)
  {
    && IsQuorum(q, r.voters)
    && (forall n :: n in q ==> PromisedAtMost(r, replies, n, f.accepted))
    && (exists i: nat :: PromisedRow(r, replies, i, f) && replies[i].from in q)
  }

  ghost predicate AckedIn(r: Round, replies: seq<Incoming>, n: NodeId)
  {
    exists i :: 0 <= i < |replies| && replies[i].from == n && IsAck(r, replies[i])
  }

  ghost predicate Answered(r: Round, replies: seq<Incoming>, c: Class)
  {
    exists i :: 0 <= i < |replies| && Classify(r, replies[i].raw) == c
  }

  /** A reply that makes the proposer try again: a newer view, or a higher ballot. */
  ghost predicate Retried(r: Round, replies: seq<Incoming>)
  {
    exists i :: 0 <= i < |replies| && (Classify(r, replies[i].raw).IsStale? || Classify(r, replies[i].raw).IsConflict?)
  }

  /** Too few voters promised. */
  ghost predicate FewPromised(r: Round, replies: seq<Incoming>)
  {
    exists q: set<NodeId> ::
      |q| < QuorumSize(r.voters) && forall i :: 0 <= i < |replies| && IsPromise(r, replies[i]) ==> replies[i].from in q
  }

  /** best is the highest accepted row among the promises of q. */
  ghost predicate BestOf(r: Round, replies: seq<Incoming>, q: set<NodeId>, best: Found)
  {
    && (forall n :: n in q ==> PromisedAtMost(r, replies, n, best.accepted))
    && (q != {} ==> exists i: nat :: PromisedRow(r, replies, i, best) && replies[i].from in q)
  }

  lemma AtMostMore(r: Round, replies: seq<Incoming>, n: NodeId, top: Ballot, higher: Ballot)
    requires PromisedAtMost(r, replies, n, top) && top <= higher
    ensures PromisedAtMost(r, replies, n, higher)
  {
  }

  lemma PreparedBy(r: Round, replies: seq<Incoming>, q: set<NodeId>, best: Found)
    requires BestOf(r, replies, q, best) && q <= r.voters && |q| >= QuorumSize(r.voters)
    ensures QuorumPrepared(r, replies, q, best)
  {
  }

  /** One promise more. */
  lemma BestWith(r: Round, replies: seq<Incoming>, q: set<NodeId>, best: Found, k: nat)
    requires k < |replies| && IsPromise(r, replies[k]) && BestOf(r, replies, q, best)
    ensures var p := replies[k].raw.reply;
      BestOf(r, replies, q + {replies[k].from},
             if q == {} || p.accepted > best.accepted then Found(p.accepted, p.value) else best)
  {
    var p := replies[k].raw.reply;
    var next := if q == {} || p.accepted > best.accepted then Found(p.accepted, p.value) else best;
    assert PromisedBy(r, replies, replies[k].from, k);
    forall n | n in q + {replies[k].from} ensures PromisedAtMost(r, replies, n, next.accepted) {
      if n in q { AtMostMore(r, replies, n, best.accepted, next.accepted); }
    }
    if next == best && q != {} {
      var i: nat :| PromisedRow(r, replies, i, best) && replies[i].from in q;
      assert PromisedRow(r, replies, i, next) && replies[i].from in q + {replies[k].from};
    } else {
      assert PromisedRow(r, replies, k, next);
    }
  }

  /** The prepare phase: the highest accepted row of a quorum of promises; a stale view or a
      conflict ends it at once. */
  method Prepare(r: Round, replies: seq<Incoming>) returns (o: PrepareOutcome, ghost q: set<NodeId>)
    requires OnePerVoter(r, replies)
    ensures o.Prepared? ==> QuorumPrepared(r, replies, q, o.best)
    ensures o.PrepareNoQuorum? ==> |q| < QuorumSize(r.voters) && !Retried(r, replies)
    ensures o.PrepareNoQuorum? ==>
      forall i :: 0 <= i < |replies| && IsPromise(r, replies[i]) ==> replies[i].from in q
    ensures o.PrepareStale? ==> Answered(r, replies, IsStale(o.view))
    ensures o.PrepareConflict? ==> Answered(r, replies, IsConflict(o.b))
  {
    var best := Found(0, None);
    var promises := 0;
    q := {};
    assert BestOf(r, replies, q, best);
    hide BestOf, QuorumPrepared, IsQuorum;
    for k := 0 to |replies|
      invariant promises == |q| < QuorumSize(r.voters)
      invariant q <= r.voters && forall i :: k <= i < |replies| ==> replies[i].from !in q
      invariant BestOf(r, replies, q, best)
      invariant forall i :: 0 <= i < k && IsPromise(r, replies[i]) ==> replies[i].from in q
      invariant forall i :: 0 <= i < k ==> !Classify(r, replies[i].raw).IsStale? && !Classify(r, replies[i].raw).IsConflict?
    {
      var c := Classify(r, replies[k].raw);
      if c.IsStale? {
        return PrepareStale(c.view), q;
      }
      if c.IsConflict? {
        return PrepareConflict(c.b), q;
      }
      if !c.Good? || !c.reply.Promise? {
        continue;
      }
      BestWith(r, replies, q, best, k);
      if promises == 0 || c.reply.accepted > best.accepted {
        best := Found(c.reply.accepted, c.reply.value);
      }
      promises := promises + 1;
      q := q + {replies[k].from};
      if promises >= QuorumSize(r.voters) {
        PreparedBy(r, replies, q, best);
        return Prepared(best), q;
      }
    }
    return PrepareNoQuorum, q;
  }

  datatype AcceptOutcome = Committed | Unknown | NoQuorum | AcceptStale(view: Round) | AcceptExpired | AcceptConflict(b: Ballot)

  /** The accept phase: committed on a quorum of acks; unknown when some but too few came. */
  method Accept(r: Round, replies: seq<Incoming>) returns (o: AcceptOutcome, ghost q: set<NodeId>)
    requires OnePerVoter(r, replies)
    ensures forall n :: n in q ==> AckedIn(r, replies, n)
    ensures o.Committed? ==> IsQuorum(q, r.voters)
    ensures o.Unknown? ==> 0 < |q| < QuorumSize(r.voters)
    ensures o.NoQuorum? ==> q == {}
    ensures o.Unknown? || o.NoQuorum? ==>
      forall i :: 0 <= i < |replies| && IsAck(r, replies[i]) ==> replies[i].from in q
    ensures o.Unknown? || o.NoQuorum? ==> !Retried(r, replies) && !Answered(r, replies, IsExpired)
    ensures o.AcceptStale? ==> Answered(r, replies, IsStale(o.view))
    ensures o.AcceptConflict? ==> Answered(r, replies, IsConflict(o.b))
    ensures o.AcceptExpired? ==> Answered(r, replies, IsExpired)
  {
    var accepted := 0;
    q := {};
    for k := 0 to |replies|
      invariant accepted == |q| < QuorumSize(r.voters) && q <= r.voters
      invariant forall n :: n in q ==> AckedIn(r, replies, n)
      invariant forall i :: k <= i < |replies| ==> replies[i].from !in q
      invariant forall i :: 0 <= i < k && IsAck(r, replies[i]) ==> replies[i].from in q
      invariant forall i :: 0 <= i < k ==>
        var c := Classify(r, replies[i].raw); !c.IsStale? && !c.IsConflict? && !c.IsExpired?
    {
      var c := Classify(r, replies[k].raw);
      if c.IsStale? {
        return AcceptStale(c.view), q;
      }
      if c.IsConflict? {
        return AcceptConflict(c.b), q;
      }
      if c.IsExpired? {
        return AcceptExpired, q;
      }
      if c.Good? && c.reply.AcceptedAck? {
        accepted := accepted + 1;
        q := q + {replies[k].from};
        if accepted >= QuorumSize(r.voters) {
          return Committed, q;
        }
      }
    }
    return if accepted > 0 then Unknown else NoQuorum, q;
  }

  // ---- the loop around the rounds ----

  /** What a change function does with the row found: write a value, or refuse. */
  datatype Change = Write(value: Option<Value>) | Refuse

  /** The replies of the two phases of one attempt. */
  datatype Replies = Replies(prepares: seq<Incoming>, accepts: seq<Incoming>)

  /** One attempt: the view and the ballot it was made at, and what came back. */
  datatype Attempt = Attempt(r: Round, b: Ballot, replies: Replies)

  datatype Result =
    | Done(b: Ballot, value: Option<Value>)
    | OutcomeUnknown(b: Ballot, value: Option<Value>)
    | Refused(found: Found)
    | Failed

  predicate Older(a: Round, b: Round) { a.inc < b.inc || (a.inc == b.inc && a.epoch < b.epoch) }

  /** Adopting a view never goes back. */
  function Newest(a: Round, b: Round): (r: Round)
    ensures !Older(r, a) && !Older(r, b) && (r == a || r == b)
  {
    if Older(a, b) then b else a
  }

  /** Attempt a prepared row f with a quorum of promises. */
  ghost predicate FoundBy(a: Attempt, f: Found)
  {
    exists q :: QuorumPrepared(a.r, a.replies.prepares, q, f)
  }

  ghost predicate AckedByQuorum(a: Attempt)
  {
    exists q :: IsQuorum(q, a.r.voters)
      && forall n :: n in q ==> AckedIn(a.r, a.replies.accepts, n)
  }

  ghost predicate SomeAck(a: Attempt)
  {
    exists i :: 0 <= i < |a.replies.accepts| && IsAck(a.r, a.replies.accepts[i])
  }

  /** Some acks came, but no quorum of them. */
  ghost predicate AckedByFew(a: Attempt)
  {
    SomeAck(a) && !AckedByQuorum(a)
  }

  /** The attempt ended the proposal without an outcome. */
  ghost predicate FailedIn(a: Attempt)
  {
    FewPromised(a.r, a.replies.prepares) || Answered(a.r, a.replies.accepts, IsExpired) || !SomeAck(a)
  }

  /** A reply of the attempt asks for a view up to r, or for a ballot above one up to last. */
  ghost predicate Yields(a: Attempt, i: Incoming, r: Round, last: Ballot)
  {
    match Classify(a.r, i.raw)
    case IsStale(w) => !Older(r, w)
    case IsConflict(c) => c <= last
    case _ => false
  }

  /** The attempt was given up for such a reply. */
  ghost predicate GivenUp(a: Attempt, r: Round, last: Ballot)
  {
    || (exists i :: 0 <= i < |a.replies.prepares| && Yields(a, a.replies.prepares[i], r, last))
    || (exists i :: 0 <= i < |a.replies.accepts| && Yields(a, a.replies.accepts[i], r, last))
  }

  /** What the network answers, one reply per voter of the view asked. */
  ghost predicate GoodNet(net: (nat, Round, Ballot) -> Replies)
  {
    forall k: nat, r: Round, b: Ballot :: OnePerVoter(r, net(k, r, b).prepares) && OnePerVoter(r, net(k, r, b).accepts)
  }

  /** ballotAbove, see BallotCounter. */
  ghost predicate GoodBallots(ballots: (nat, Ballot) -> Ballot)
  {
    forall k: nat, last: Ballot :: ballots(k, last) > last
  }

  /** Attempt a follows b: at a view no older and a ballot above what b was given up for. */
  ghost predicate Follows(b: Attempt, a: Attempt) { a.b > 0 && GivenUp(b, a.r, a.b - 1) }

  ghost predicate AnsweredBy(tries: seq<Attempt>, net: (nat, Round, Ballot) -> Replies)
  {
    forall k :: 0 <= k < |tries| ==> tries[k].replies == net(k, tries[k].r, tries[k].b)
  }

  /** The attempts made, as the network answered them, each following every earlier one. */
  ghost predicate GoodAttempts(tries: seq<Attempt>, net: (nat, Round, Ballot) -> Replies)
  {
    && AnsweredBy(tries, net)
    && (forall j, k :: 0 <= j < k < |tries| ==> Follows(tries[j], tries[k]))
  }

  ghost predicate AllGivenUp(tries: seq<Attempt>, r: Round, last: Ballot)
  {
    forall k :: 0 <= k < |tries| ==> GivenUp(tries[k], r, last)
  }

  lemma GivenUpLater(a: Attempt, r: Round, last: Ballot, r': Round, last': Ballot)
    requires GivenUp(a, r, last) && !Older(r', r) && last <= last'
    ensures GivenUp(a, r', last')
  {
    if i :| 0 <= i < |a.replies.prepares| && Yields(a, a.replies.prepares[i], r, last) {
      assert Yields(a, a.replies.prepares[i], r', last');
    } else {
      var i :| 0 <= i < |a.replies.accepts| && Yields(a, a.replies.accepts[i], r, last);
      assert Yields(a, a.replies.accepts[i], r', last');
    }
  }

  lemma AllGivenUpLater(tries: seq<Attempt>, r: Round, last: Ballot, r': Round, last': Ballot)
    requires AllGivenUp(tries, r, last) && !Older(r', r) && last <= last'
    ensures AllGivenUp(tries, r', last')
  {
    forall k | 0 <= k < |tries| ensures GivenUp(tries[k], r', last') {
      GivenUpLater(tries[k], r, last, r', last');
    }
  }

  lemma GivenUpFor(a: Attempt, c: Class, r: Round, last: Ballot)
    requires Answered(a.r, a.replies.prepares, c) || Answered(a.r, a.replies.accepts, c)
    requires (c.IsStale? && !Older(r, c.view)) || (c.IsConflict? && c.b <= last)
    ensures GivenUp(a, r, last)
  {
    if Answered(a.r, a.replies.prepares, c) {
      var i :| 0 <= i < |a.replies.prepares| && Classify(a.r, a.replies.prepares[i].raw) == c;
      assert Yields(a, a.replies.prepares[i], r, last);
    } else {
      var i :| 0 <= i < |a.replies.accepts| && Classify(a.r, a.replies.accepts[i].raw) == c;
      assert Yields(a, a.replies.accepts[i], r, last);
    }
  }

  lemma NoAttempts(net: (nat, Round, Ballot) -> Replies)
    ensures GoodAttempts([], net)
  {
  }

  lemma OneMoreAnswer(tries: seq<Attempt>, a: Attempt, net: (nat, Round, Ballot) -> Replies)
    requires AnsweredBy(tries, net) && a.replies == net(|tries|, a.r, a.b)
    ensures AnsweredBy(tries + [a], net)
  {
  }

  lemma OneMoreAttempt(tries: seq<Attempt>, a: Attempt, net: (nat, Round, Ballot) -> Replies)
    requires GoodAttempts(tries, net) && a.b > 0 && AllGivenUp(tries, a.r, a.b - 1) && a.replies == net(|tries|, a.r, a.b)
    ensures GoodAttempts(tries + [a], net)
  {
    OneMoreAnswer(tries, a, net);
    assert forall k :: 0 <= k < |tries| ==> Follows(tries[k], a);
    hide GivenUp, Follows, AnsweredBy;
  }

  datatype Ended = Ended(res: Result) | Again(why: Class)

  /** The two phases of one attempt: a result, or the reply that makes the proposer try again. */
  method TryOnce(a: Attempt, fn: (Found, Ballot) -> Change) returns (e: Ended)
    requires OnePerVoter(a.r, a.replies.prepares) && OnePerVoter(a.r, a.replies.accepts)
    ensures e.Again? ==> e.why.IsStale? || e.why.IsConflict?
    ensures e.Again? ==> Answered(a.r, a.replies.prepares, e.why) || Answered(a.r, a.replies.accepts, e.why)
    ensures e.Ended? ==> Backed(a, fn, e.res)
  {
    hide QuorumPrepared, OnePerVoter, FoundBy, AckedByQuorum, AckedByFew, IsQuorum, AckedIn, IsAck;
    var po, pq := Prepare(a.r, a.replies.prepares);
    match po {
      case PrepareStale(view) => return Again(IsStale(view));
      case PrepareConflict(b) => return Again(IsConflict(b));
      case PrepareNoQuorum =>
        return Ended(Failed);
      case Prepared(cur) =>
        FoundIn(a, cur, pq);
        var change := fn(cur, a.b);
        if change.Refuse? && cur.accepted == 0 && cur.value == None {
          return Ended(Refused(cur));
        }
        var ao, aq := Accept(a.r, a.replies.accepts);
        match ao {
          case AcceptStale(view) => return Again(IsStale(view));
          case AcceptConflict(b) => return Again(IsConflict(b));
          case AcceptExpired => return Ended(Failed);
          case NoQuorum =>
            NoneAcked(a);
            return Ended(Failed);
          case Unknown =>
            FewOf(a, aq);
            return Ended(if change.Refuse? then Refused(cur) else OutcomeUnknown(a.b, change.value));
          case Committed =>
            AckedIs(a, aq);
            return Ended(if change.Refuse? then Refused(cur) else Done(a.b, change.value));
        }
    }
  }

  /** The attempt's rounds bear the result out.  A refusal names a row that a quorum
      re-accepted, an absent row, or, when the re-accept got some acks but no quorum, a row
      whose fate is open. */
  ghost predicate Backed(a: Attempt, fn: (Found, Ballot) -> Change, res: Result)
  {
    match res
    case Failed => FailedIn(a)
    case Done(b, value) =>
      b == a.b && AckedByQuorum(a) && exists f :: FoundBy(a, f) && fn(f, b) == Write(value)
    case OutcomeUnknown(b, value) =>
      b == a.b && AckedByFew(a) && exists f :: FoundBy(a, f) && fn(f, b) == Write(value)
    case Refused(f) =>
      FoundBy(a, f) && fn(f, a.b) == Refuse && (AckedByQuorum(a) || AckedByFew(a) || (f.accepted == 0 && f.value == None))
  }

  /** Propose: one attempt after the other, at the newest view heard of and at a ballot above
      every conflict, until one is answered or the caller's time is up. */
  method Propose(start: Round, views: nat -> Round, ballots: (nat, Ballot) -> Ballot, net: (nat, Round, Ballot) -> Replies,
                 fn: (Found, Ballot) -> Change, limit: nat)
    returns (res: Result, tries: seq<Attempt>)
    requires GoodNet(net) && GoodBallots(ballots)
    ensures |tries| <= limit && GoodAttempts(tries, net)
    ensures
      || (tries != [] && Backed(tries[|tries| - 1], fn, res))
      || (res.Failed? && |tries| == limit && exists r, last: Ballot :: AllGivenUp(tries, r, last))
  {
    tries := [];
    var view, last := start, 0;
    hide GivenUp, Backed, GoodAttempts;
    assert GoodAttempts([], net) by { NoAttempts(net); }
    for k := 0 to limit
      invariant |tries| == k && GoodAttempts(tries, net) && AllGivenUp(tries, view, last)
    {
      ghost var view0, last0 := view, last;
      view := Newest(view, views(k));
      var b := ballots(k, last);
      var a := Attempt(view, b, net(k, view, b));
      AllGivenUpLater(tries, view0, last0, view, b - 1);
      OneMoreAttempt(tries, a, net);
      tries := tries + [a];
      var e := TryOnce(a, fn);
      if e.Ended? {
        return e.res, tries;
      }
      if e.why.IsStale? {
        view := Newest(view, e.why.view);
      } else if e.why.b > last {
        last := e.why.b;
      }
      GivenUpFor(a, e.why, view, last);
      AllGivenUpLater(tries[..k], view0, last0, view, last);
      assert tries == tries[..k] + [a];
    }
    return Failed, tries;
  }

  lemma FoundIn(a: Attempt, f: Found, q: set<NodeId>)
    requires QuorumPrepared(a.r, a.replies.prepares, q, f)
    ensures FoundBy(a, f)
  {
  }

  lemma AckedIs(a: Attempt, q: set<NodeId>)
    requires IsQuorum(q, a.r.voters) && forall n :: n in q ==> AckedIn(a.r, a.replies.accepts, n)
    ensures AckedByQuorum(a)
  {
  }

  lemma NoneAcked(a: Attempt)
    requires forall i :: 0 <= i < |a.replies.accepts| ==> !IsAck(a.r, a.replies.accepts[i])
    ensures FailedIn(a)
  {
  }

  lemma FewOf(a: Attempt, q: set<NodeId>)
    requires 0 < |q| < QuorumSize(a.r.voters)
    requires forall n :: n in q ==> AckedIn(a.r, a.replies.accepts, n)
    requires forall i :: 0 <= i < |a.replies.accepts| && IsAck(a.r, a.replies.accepts[i]) ==> a.replies.accepts[i].from in q
    ensures AckedByFew(a)
  {
    var n :| n in q;
    assert AckedIn(a.r, a.replies.accepts, n);
    forall p | forall n :: n in p ==> AckedIn(a.r, a.replies.accepts, n) ensures !IsQuorum(p, a.r.voters) {
      SubsetSize(p, q);
    }
  }

  /** The row a prepare phase returns is one the register machine lets a proposal start
      from, when the replies are promises the acceptors did send. */
  lemma PreparedEnablesPropose(a: Attempt, s: State, f: Found, v: Option<Value>)
    requires FoundBy(a, f)
    requires forall i :: 0 <= i < |a.replies.prepares| && IsPromise(a.r, a.replies.prepares[i]) ==> Heard(s, a.b, a.replies.prepares[i])
    ensures exists q :: FromQuorum(a.r.voters, s, a.b, q, Proposal(f.accepted, f.value, v))
  {
    var p, rs := Proposal(f.accepted, f.value, v), a.replies.prepares;
    var q :| QuorumPrepared(a.r, rs, q, f);
    forall n | n in q ensures exists m :: Promised(s, n, a.b, m) && m.accepted <= p.base {
      var i: nat :| PromisedBy(a.r, rs, n, i) && rs[i].raw.reply.accepted <= f.accepted;
      assert Heard(s, a.b, rs[i]);
      assert Promised(s, n, a.b, PromiseMsg(n, a.b, rs[i].raw.reply.accepted, rs[i].raw.reply.value));
    }
    var i: nat :| PromisedRow(a.r, rs, i, f) && rs[i].from in q;
    var n := rs[i].from;
    assert Heard(s, a.b, rs[i]);
    assert Promised(s, n, a.b, PromiseMsg(n, a.b, f.accepted, f.value));
    assert FromQuorum(a.r.voters, s, a.b, q, p);
  }

  /** The promise in a reply is one its acceptor made for b. */
  ghost predicate Heard(s: State, b: Ballot, i: Incoming)
  {
    i.raw.Stamped? && i.raw.reply.Promise? && PromiseMsg(i.from, b, i.raw.reply.accepted, i.raw.reply.value) in s.promises
  }
}
