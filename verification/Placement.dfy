/** Weighted rendezvous ranking with zones (placement/placement.go), for one slot. */
module Placement {

  import opened Ballots
  import Log2

  /** A member of a placement set with its L for the slot.  Weight 0 owns nothing; an empty
      zone means the id itself. */
  datatype Entry = Entry(id: seq<Byte>, weight: nat, zone: seq<Byte>, l: nat)

  // ---- the order ----

  /** bits.Mul64: the high and low words of a product. */
  function MulHigh(a: nat, b: nat): (r: nat) { a * b / Log2.TWO64 }

  function MulLow(a: nat, b: nat): (r: nat) { a * b % Log2.TWO64 }

  /** less: the larger weight per L ranks first, ties by smaller id. */
  predicate Less(a: Entry, b: Entry)
  {
    if MulHigh(a.weight, b.l) != MulHigh(b.weight, a.l) then MulHigh(a.weight, b.l) > MulHigh(b.weight, a.l)
    else if MulLow(a.weight, b.l) != MulLow(b.weight, a.l) then MulLow(a.weight, b.l) > MulLow(b.weight, a.l)
    else LexCompare(a.id, b.id) < 0
  }

  lemma WordsCompare(p: nat, q: nat)
    ensures p > q <==>
            if p / Log2.TWO64 != q / Log2.TWO64 then p / Log2.TWO64 > q / Log2.TWO64
            else p % Log2.TWO64 > q % Log2.TWO64
  {
    assert p == p / Log2.TWO64 * Log2.TWO64 + p % Log2.TWO64;
    assert q == q / Log2.TWO64 * Log2.TWO64 + q % Log2.TWO64;
  }

  /** The two-word comparison is the comparison of the products. */
  lemma LessIsCross(a: Entry, b: Entry)
    ensures Less(a, b) <==>
            a.weight * b.l > b.weight * a.l || (a.weight * b.l == b.weight * a.l && LexCompare(a.id, b.id) < 0)
  {
    WordsCompare(a.weight * b.l, b.weight * a.l);
    WordsCompare(b.weight * a.l, a.weight * b.l);
  }

  /** The whole ranking: weighted members first, then the others by id. */
  predicate Before(a: Entry, b: Entry)
  {
    if a.weight > 0 && b.weight > 0 then Less(a, b)
    else if a.weight == 0 && b.weight == 0 then LexCompare(a.id, b.id) < 0
    else a.weight > 0
  }

  /** The ranking on the fields: weight per L for weighted members, the others behind them, ties
      and those without weight by id. */
  lemma BeforeMeans(a: Entry, b: Entry)
    ensures a.weight > 0 && b.weight > 0 ==>
      (Before(a, b) <==> a.weight * b.l > b.weight * a.l || (a.weight * b.l == b.weight * a.l && LexCompare(a.id, b.id) < 0))
    ensures a.weight == 0 && b.weight == 0 ==> (Before(a, b) <==> LexCompare(a.id, b.id) < 0)
    ensures a.weight > 0 && b.weight == 0 ==> Before(a, b)
    ensures a.weight == 0 && b.weight > 0 ==> !Before(a, b)
  {
    LessIsCross(a, b);
  }

  lemma Swap(a: nat, b: nat, c: nat)
    ensures a * b * c == a * c * b
  {
  }

  lemma Scale(x: nat, y: nat, w: nat)
    requires w > 0
    ensures x * w <= y * w <==> x <= y
    ensures x * w < y * w <==> x < y
  {
    if x < y { assert (y - x) * w > 0; }
    if y < x { assert (x - y) * w > 0; }
  }

  lemma RatioTransitive(al: nat, aw: nat, bl: nat, bw: nat, cl: nat, cw: nat)
    requires aw > 0 && bw > 0 && cw > 0
    requires al * bw <= bl * aw && bl * cw <= cl * bw
    ensures al * cw <= cl * aw
    ensures al * bw < bl * aw || bl * cw < cl * bw ==> al * cw < cl * aw
  {
    Scale(al * bw, bl * aw, cw);
    Swap(bl, aw, cw);
    Scale(bl * cw, cl * bw, aw);
    Swap(al, bw, cw);
    Swap(cl, bw, aw);
    Scale(al * cw, cl * aw, bw);
  }

  /** Not ranked after: a total preorder. */
  predicate AtMost(a: Entry, b: Entry) { !Before(b, a) }

  lemma BeforeIsAsymmetric(a: Entry, b: Entry)
    ensures Before(a, b) ==> !Before(b, a)
    ensures a.id != b.id ==> Before(a, b) || Before(b, a)
  {
    LessIsCross(a, b);
    LessIsCross(b, a);
    LexFlip(a.id, b.id);
    LexZeroIsEqual(a.id, b.id);
  }

  lemma LessTransitive(a: Entry, b: Entry, c: Entry)
    requires a.weight > 0 && b.weight > 0 && c.weight > 0 && !Less(b, a) && !Less(c, b)
    ensures !Less(c, a) && (Less(a, b) || Less(b, c) ==> Less(a, c))
  {
    LessIsCross(a, b);
    LessIsCross(b, a);
    LessIsCross(b, c);
    LessIsCross(c, b);
    LessIsCross(a, c);
    LessIsCross(c, a);
    RatioTransitive(a.l, a.weight, b.l, b.weight, c.l, c.weight);
    LexFlip(a.id, b.id);
    LexFlip(b.id, c.id);
    LexFlip(a.id, c.id);
    hide Less, LexCompare;
    if LexCompare(a.id, b.id) <= 0 && LexCompare(b.id, c.id) <= 0 {
      LexTransitive(a.id, b.id, c.id);
    }
  }

  /** Ranking is transitive, ties included: with distinct ids a strict total order. */
  lemma BeforeTransitive(a: Entry, b: Entry, c: Entry)
    requires AtMost(a, b) && AtMost(b, c)
    ensures AtMost(a, c) && (Before(a, b) || Before(b, c) ==> Before(a, c))
  {
    hide Less, LexCompare;
    if a.weight > 0 && b.weight > 0 && c.weight > 0 {
      LessTransitive(a, b, c);
    } else if a.weight == 0 && b.weight == 0 && c.weight == 0 {
      LexFlip(a.id, b.id);
      LexFlip(b.id, c.id);
      LexFlip(a.id, c.id);
      LexTransitive(a.id, b.id, c.id);
    }
  }

  // ---- ranking ----

  predicate InRange(idx: seq<nat>, n: nat)
  {
    forall k :: 0 <= k < |idx| ==> idx[k] < n
  }

  /** The entries an index list names. */
  function At(es: seq<Entry>, idx: seq<nat>): (r: seq<Entry>)
    requires InRange(idx, |es|)
    ensures |r| == |idx| && forall k :: 0 <= k < |idx| ==> r[k] == es[idx[k]]
  {
    if idx == [] then [] else [es[idx[0]]] + At(es, idx[1..])
  }

  ghost predicate Ordered(s: seq<Entry>)
  {
    forall i, j :: 0 <= i < j < |s| ==> AtMost(s[i], s[j])
  }

  ghost predicate NoDup(s: seq<nat>)
  {
    forall i, j :: 0 <= i < j < |s| ==> s[i] != s[j]
  }

  ghost predicate DistinctIds(s: seq<Entry>)
  {
    forall i, j :: 0 <= i < j < |s| ==> s[i].id != s[j].id
  }

  /** s lists the members of es, each once, in ranking order. */
  ghost predicate IsRanking(es: seq<Entry>, s: seq<Entry>)
  {
    Ordered(s) && DistinctIds(s) && forall e :: e in s <==> e in es
  }

  lemma InsertKeepsOrder(s: seq<Entry>, e: Entry, p: nat)
    requires Ordered(s) && p <= |s|
    requires p > 0 ==> AtMost(s[p - 1], e)
    requires forall k :: p <= k < |s| ==> Before(e, s[k])
    ensures Ordered(s[..p] + [e] + s[p..])
  {
    var t := s[..p] + [e] + s[p..];
    forall i, j | 0 <= i < j < |t|
      ensures AtMost(t[i], t[j])
    {
      if i < p && j == p {
        if i < p - 1 {
          assert AtMost(s[i], s[p - 1]);
          BeforeTransitive(s[i], s[p - 1], e);
        }
      } else if i == p {
        BeforeIsAsymmetric(e, t[j]);
      }
    }
  }

  /** Sorts indices by the ranking order, equal entries in the order given. */
  method SortIndices(es: seq<Entry>, idx: seq<nat>) returns (out: seq<nat>)
    requires InRange(idx, |es|) && NoDup(idx)
    ensures InRange(out, |es|) && NoDup(out) && Ordered(At(es, out))
    ensures forall i :: i in out <==> i in idx
  {
    out := [];
    var n := 0;
    while n < |idx|
      invariant n <= |idx|
      invariant InRange(out, |es|) && NoDup(out) && Ordered(At(es, out))
      invariant forall i :: i in out <==> i in idx[..n]
    {
      out := InsertIndex(es, out, idx[n]);
      ghost var more := idx[..n + 1];
      assert more == idx[..n] + [idx[n]];
      n := n + 1;
    }
    assert idx[..n] == idx;
  }

  /** Where e goes: after the last member it does not rank before. */
  method FindPlace(es: seq<Entry>, s: seq<nat>, e: nat) returns (p: nat)
    requires InRange(s, |es|) && e < |es|
    ensures p <= |s| && (p > 0 ==> AtMost(At(es, s)[p - 1], es[e]))
    ensures forall k :: p <= k < |s| ==> Before(es[e], At(es, s)[k])
  {
    hide Before;
    p := |s|;
    ghost var r := At(es, s);
    while p > 0 && Before(es[e], es[s[p - 1]])
      invariant 0 <= p <= |s|
      invariant forall k :: p <= k < |s| ==> Before(es[e], r[k])
    {
      p := p - 1;
    }
  }

  method InsertIndex(es: seq<Entry>, s: seq<nat>, e: nat) returns (t: seq<nat>)
    requires InRange(s, |es|) && e < |es| && NoDup(s) && e !in s && Ordered(At(es, s))
    ensures InRange(t, |es|) && NoDup(t) && Ordered(At(es, t))
    ensures forall i :: i in t <==> i in s || i == e
  {
    hide Before, Ordered, NoDup, InRange, At;
    var p := FindPlace(es, s, e);
    t := s[..p] + [e] + s[p..];
    InsertKeepsOrder(At(es, s), es[e], p);
    AtInsert(es, s, e, p);
    NoDupInsert(s, e, p);
  }

  lemma AtInsert(es: seq<Entry>, s: seq<nat>, e: nat, p: nat)
    requires InRange(s, |es|) && e < |es| && p <= |s|
    ensures InRange(s[..p] + [e] + s[p..], |es|)
    ensures At(es, s[..p] + [e] + s[p..]) == At(es, s)[..p] + [es[e]] + At(es, s)[p..]
  {
  }

  lemma NoDupInsert(s: seq<nat>, e: nat, p: nat)
    requires NoDup(s) && e !in s && p <= |s|
    ensures NoDup(s[..p] + [e] + s[p..])
    ensures forall i :: i in s[..p] + [e] + s[p..] <==> i in s || i == e
  {
    assert s == s[..p] + s[p..];
  }

  method SplitByWeight(es: seq<Entry>) returns (weighted: seq<nat>, zero: seq<nat>)
    ensures InRange(weighted, |es|) && InRange(zero, |es|) && NoDup(weighted) && NoDup(zero)
    ensures forall k :: k in weighted <==> 0 <= k < |es| && es[k].weight > 0
    ensures forall k :: k in zero <==> 0 <= k < |es| && es[k].weight == 0
  {
    weighted, zero := [], [];
    var i := 0;
    while i < |es|
      invariant i <= |es|
      invariant InRange(weighted, i) && InRange(zero, i) && NoDup(weighted) && NoDup(zero)
      invariant forall k :: k in weighted <==> 0 <= k < i && es[k].weight > 0
      invariant forall k :: k in zero <==> 0 <= k < i && es[k].weight == 0
    {
      if es[i].weight == 0 {
        zero := zero + [i];
      } else {
        weighted := weighted + [i];
      }
      i := i + 1;
    }
  }

  lemma WeightedThenZero(a: seq<Entry>, b: seq<Entry>)
    requires Ordered(a) && Ordered(b)
    requires forall k :: 0 <= k < |a| ==> a[k].weight > 0
    requires forall k :: 0 <= k < |b| ==> b[k].weight == 0
    ensures Ordered(a + b)
  {
    hide Less, LexCompare;
  }

  lemma IndicesThenIndices(es: seq<Entry>, w: seq<nat>, z: seq<nat>)
    requires InRange(w, |es|) && InRange(z, |es|) && NoDup(w) && NoDup(z)
    requires forall k :: k in w ==> k !in z
    ensures InRange(w + z, |es|) && NoDup(w + z) && At(es, w + z) == At(es, w) + At(es, z)
  {
    assert forall k :: 0 <= k < |w| ==> w[k] in w;
  }

  /** Rank: the weighted members by score, then the rest by id, as indices. */
  method Rank(es: seq<Entry>) returns (out: seq<nat>)
    ensures InRange(out, |es|) && NoDup(out) && Ordered(At(es, out))
    ensures forall i :: i in out <==> 0 <= i < |es|
    ensures DistinctIds(es) ==> IsRanking(es, At(es, out))
    ensures forall i, j :: 0 <= i < j < |out| ==> RanksNoLater(es[out[i]], es[out[j]])
  {
    var weighted, zero := SplitByWeight(es);
    weighted := SortIndices(es, weighted);
    zero := SortIndices(es, zero);
    assert forall k :: 0 <= k < |weighted| ==> weighted[k] in weighted;
    assert forall k :: 0 <= k < |zero| ==> zero[k] in zero;
    hide Ordered, Before, NoDup;
    IndicesThenIndices(es, weighted, zero);
    WeightedThenZero(At(es, weighted), At(es, zero));
    out := weighted + zero;
    RankingOfIndices(es, out);
    OrderedMeans(At(es, out));
  }

  /** On the fields: no less weight per L, or no weight and no smaller id, or weight before none. */
  ghost predicate RanksNoLater(a: Entry, b: Entry)
  {
    if a.weight > 0 && b.weight > 0 then
      a.weight * b.l > b.weight * a.l || (a.weight * b.l == b.weight * a.l && LexCompare(a.id, b.id) <= 0)
    else if a.weight > 0 then true
    else b.weight == 0 && LexCompare(a.id, b.id) <= 0
  }

  lemma AtMostMeans(a: Entry, b: Entry)
    ensures AtMost(a, b) ==> RanksNoLater(a, b)
  {
    BeforeMeans(b, a);
    LexFlip(a.id, b.id);
  }

  lemma OrderedMeans(s: seq<Entry>)
    requires Ordered(s)
    ensures forall i, j :: 0 <= i < j < |s| ==> RanksNoLater(s[i], s[j])
  {
    hide AtMost, RanksNoLater;
    forall i, j | 0 <= i < j < |s| ensures RanksNoLater(s[i], s[j]) {
      AtMostMeans(s[i], s[j]);
    }
  }

  lemma RankingOfIndices(es: seq<Entry>, out: seq<nat>)
    requires InRange(out, |es|) && NoDup(out) && Ordered(At(es, out))
    requires forall i :: i in out <==> 0 <= i < |es|
    ensures DistinctIds(es) ==> IsRanking(es, At(es, out))
  {
    var s := At(es, out);
    forall e | e in es
      ensures e in s
    {
      var i :| 0 <= i < |es| && es[i] == e;
      assert i in out;
      var k :| 0 <= k < |out| && out[k] == i;
      assert s[k] == e;
    }
  }

  /** With distinct ids there is one ranking, whatever order the members come in. */
  lemma {:induction false} RankingIsUnique(s: seq<Entry>, t: seq<Entry>)
    requires Ordered(s) && DistinctIds(s) && Ordered(t) && DistinctIds(t)
    requires forall e :: e in s <==> e in t
    ensures s == t
  {
    if |t| > 0 {
      assert t[0] in s;
    }
    if s != [] {
      assert s[0] in t;
      FirstIsSame(s, t);
      assert forall e :: e in s[1..] <==> e in t[1..] by {
        TailElements(s);
        TailElements(t);
      }
      RankingIsUnique(s[1..], t[1..]);
      assert s == [s[0]] + s[1..] && t == [t[0]] + t[1..];
    }
  }

  lemma FirstIsSame(s: seq<Entry>, t: seq<Entry>)
    requires s != [] && t != [] && Ordered(s) && DistinctIds(s) && Ordered(t) && DistinctIds(t)
    requires forall e :: e in s <==> e in t
    ensures s[0] == t[0]
  {
    assert s[0] in s && t[0] in t;
    var i :| 0 <= i < |t| && t[i] == s[0];
    var j :| 0 <= j < |s| && s[j] == t[0];
    if i > 0 && j > 0 {
      assert AtMost(t[0], t[i]) && AtMost(s[0], s[j]);
      BeforeIsAsymmetric(s[0], t[0]);
    }
  }

  lemma TailElements(s: seq<Entry>)
    requires s != [] && DistinctIds(s)
    ensures forall e :: e in s[1..] <==> e in s && e != s[0]
  {
    forall e | e in s && e != s[0]
      ensures e in s[1..]
    {
      var i :| 0 <= i < |s| && s[i] == e;
      assert s[1..][i - 1] == e;
    }
  }

  lemma RankIgnoresInputOrder(es: seq<Entry>, fs: seq<Entry>, s: seq<Entry>, t: seq<Entry>)
    requires forall e :: e in es <==> e in fs
    requires IsRanking(es, s) && IsRanking(fs, t)
    ensures s == t
  {
    RankingIsUnique(s, t);
  }

  // ---- owners ----

  function ZoneOf(e: Entry): (z: seq<Byte>)
  {
    if e.zone == [] then e.id else e.zone
  }

  /** The first r weighted members of a ranking whose zone is not taken. */
  function Pick(s: seq<Entry>, r: nat, taken: set<seq<Byte>>): (o: seq<Entry>)
  {
    if s == [] || r == 0 || s[0].weight == 0 then []
    else if ZoneOf(s[0]) in taken then Pick(s[1..], r, taken)
    else [s[0]] + Pick(s[1..], r - 1, taken + {ZoneOf(s[0])})
  }

  /** Two members count as one zone: an empty zone stands for the id. */
  ghost predicate SharesZone(a: Entry, b: Entry)
  {
    || (a.zone != [] && a.zone == b.zone)
    || (a.zone == [] && b.zone == [] && a.id == b.id)
    || (a.zone == [] && b.zone != [] && a.id == b.zone)
    || (a.zone != [] && b.zone == [] && a.zone == b.id)
  }

  lemma ZonesMeet(a: Entry, b: Entry)
    ensures ZoneOf(a) == ZoneOf(b) <==> SharesZone(a, b)
  {
  }

  /** e is the first of its zone among the weighted members. */
  ghost predicate LeadsZone(s: seq<Entry>, e: Entry)
  {
    e.weight > 0 && e in s && forall x :: x in s && x.weight > 0 && SharesZone(x, e) ==> x == e || Before(e, x)
  }

  /** o are the first r of those that lead their zone, in ranking order. */
  ghost predicate AreOwners(s: seq<Entry>, r: nat, o: seq<Entry>)
  {
    && |o| <= r && Ordered(o) && DistinctIds(o)
    && (forall x :: x in o ==> LeadsZone(s, x))
    && (forall y :: LeadsZone(s, y) && y !in o ==> |o| == r && forall x :: x in o ==> Before(x, y))
  }

  lemma OrderedTail(s: seq<Entry>)
    requires s != []
    ensures Ordered(s) ==> Ordered(s[1..])
    ensures DistinctIds(s) ==> DistinctIds(s[1..])
  {
  }

  lemma HeadIsLeast(s: seq<Entry>, e: Entry)
    requires s != [] && Ordered(s) && e in s
    ensures e == s[0] || AtMost(s[0], e)
  {
    var i :| 0 <= i < |s| && s[i] == e;
  }

  lemma WeightedHead(s: seq<Entry>, e: Entry)
    requires Ordered(s) && e in s && e.weight > 0
    ensures s[0].weight > 0
  {
    HeadIsLeast(s, e);
  }

  lemma {:induction false} PickedAreIn(s: seq<Entry>, r: nat, taken: set<seq<Byte>>)
    ensures |Pick(s, r, taken)| <= r
    ensures forall x :: x in Pick(s, r, taken) ==> x in s && x.weight > 0 && ZoneOf(x) !in taken
  {
    if s != [] && r > 0 && s[0].weight > 0 {
      PickedAreIn(s[1..], r, taken);
      PickedAreIn(s[1..], r - 1, taken + {ZoneOf(s[0])});
      hide ZoneOf;
    }
  }

  lemma {:induction false} PickedInOrder(s: seq<Entry>, r: nat, taken: set<seq<Byte>>)
    requires Ordered(s) && DistinctIds(s)
    ensures Ordered(Pick(s, r, taken)) && DistinctIds(Pick(s, r, taken))
  {
    if s != [] && r > 0 && s[0].weight > 0 {
      OrderedTail(s);
      if ZoneOf(s[0]) in taken {
        PickedInOrder(s[1..], r, taken);
      } else {
        var rest := Pick(s[1..], r - 1, taken + {ZoneOf(s[0])});
        PickedInOrder(s[1..], r - 1, taken + {ZoneOf(s[0])});
        PickedAreIn(s[1..], r - 1, taken + {ZoneOf(s[0])});
        hide ZoneOf, Pick, AtMost;
        ConsInOrder(s, rest);
      }
    }
  }

  lemma ConsInOrder(s: seq<Entry>, rest: seq<Entry>)
    requires s != [] && Ordered(s) && DistinctIds(s) && Ordered(rest) && DistinctIds(rest)
    requires forall x :: x in rest ==> x in s[1..]
    ensures Ordered([s[0]] + rest) && DistinctIds([s[0]] + rest)
  {
    hide AtMost;
    forall x | x in rest ensures AtMost(s[0], x) && x.id != s[0].id {
      var i :| 0 <= i < |s[1..]| && s[1..][i] == x;
      assert s[i + 1] == x;
    }
    var t := [s[0]] + rest;
    forall i, j | 0 <= i < j < |t| ensures AtMost(t[i], t[j]) && t[i].id != t[j].id {
      if i == 0 { assert t[j] in rest; }
    }
  }

  /** Who is picked comes first in its zone. */
  lemma {:induction false} PickedLead(s: seq<Entry>, r: nat, taken: set<seq<Byte>>, x: Entry, y: Entry)
    requires Ordered(s) && DistinctIds(s) && x in Pick(s, r, taken) && y in s && y.weight > 0 && ZoneOf(x) == ZoneOf(y)
    ensures y == x || Before(x, y)
  {
    if y != s[0] {
      TailElements(s);
      OrderedTail(s);
      HeadLeads(s, y);
      hide Before, ZoneOf, Ordered, DistinctIds;
      if x != s[0] {
        if ZoneOf(s[0]) in taken {
          PickedLead(s[1..], r, taken, x, y);
        } else {
          PickedLead(s[1..], r - 1, taken + {ZoneOf(s[0])}, x, y);
        }
      }
    } else {
      hide Before, Ordered, DistinctIds;
      PickedAreIn(s[1..], r, taken);
      if r > 0 { PickedAreIn(s[1..], r - 1, taken + {ZoneOf(s[0])}); }
    }
  }

  lemma HeadLeads(s: seq<Entry>, y: Entry)
    requires Ordered(s) && DistinctIds(s) && y in s && y != s[0]
    ensures Before(s[0], y)
  {
    HeadIsLeast(s, y);
    HeadIsOther(s, y);
    BeforeIsAsymmetric(s[0], y);
  }

  lemma HeadIsOther(s: seq<Entry>, y: Entry)
    requires DistinctIds(s) && y in s && y != s[0]
    ensures s[0].id != y.id
  {
    var j :| 0 <= j < |s| && s[j] == y;
  }

  /** Who comes first in its zone is picked, or r that come before it are. */
  lemma {:induction false} LeadersPicked(s: seq<Entry>, r: nat, taken: set<seq<Byte>>, y: Entry)
    requires Ordered(s) && DistinctIds(s) && LeadsZone(s, y) && ZoneOf(y) !in taken
    ensures y in Pick(s, r, taken) || (|Pick(s, r, taken)| == r && forall x :: x in Pick(s, r, taken) ==> Before(x, y))
  {
    if r > 0 && y != s[0] {
      WeightedHead(s, y);
      HeadIsLeast(s, y);
      OrderedTail(s);
      TailElements(s);
      LeadsTail(s, y);
      HeadIsOther(s, y);
      BeforeIsAsymmetric(s[0], y);
      ZonesMeet(s[0], y);
      assert s[0] in s;
      if ZoneOf(s[0]) in taken {
        LeadersPicked(s[1..], r, taken, y);
      } else {
        LeadersPicked(s[1..], r - 1, taken + {ZoneOf(s[0])}, y);
      }
    }
  }

  lemma LeadsTail(s: seq<Entry>, y: Entry)
    requires LeadsZone(s, y) && y != s[0]
    ensures LeadsZone(s[1..], y)
  {
    hide Before, SharesZone;
    var i :| 0 <= i < |s| && s[i] == y;
    assert s[1..][i - 1] == y;
  }

  lemma PickAreOwners(s: seq<Entry>, r: nat)
    requires Ordered(s) && DistinctIds(s)
    ensures AreOwners(s, r, Pick(s, r, {}))
  {
    var o := Pick(s, r, {});
    PickedAreIn(s, r, {});
    PickedInOrder(s, r, {});
    hide Before, ZoneOf, Pick, Ordered, DistinctIds;
    forall x | x in o ensures LeadsZone(s, x) {
      forall y | y in s && y.weight > 0 && SharesZone(y, x) ensures y == x || Before(x, y) {
        ZonesMeet(y, x);
        PickedLead(s, r, {}, x, y);
      }
    }
    forall y | LeadsZone(s, y) && y !in o ensures |o| == r && forall x :: x in o ==> Before(x, y) {
      LeadersPicked(s, r, {}, y);
    }
  }

  /** So the owners are determined: no other list is the first r leaders of their zones. */
  lemma OwnersAreUnique(s: seq<Entry>, r: nat, o: seq<Entry>, p: seq<Entry>)
    requires Ordered(s) && DistinctIds(s) && AreOwners(s, r, o) && AreOwners(s, r, p)
    ensures o == p
  {
    forall x ensures x in o <==> x in p {
      if x in o && x !in p { OwnerOfBoth(s, r, o, p, x); }
      if x in p && x !in o { OwnerOfBoth(s, r, p, o, x); }
    }
    hide AreOwners;
    RankingIsUnique(o, p);
  }

  lemma OwnerOfBoth(s: seq<Entry>, r: nat, o: seq<Entry>, p: seq<Entry>, x: Entry)
    requires AreOwners(s, r, o) && AreOwners(s, r, p) && x in o
    ensures x in p
  {
    if x !in p {
      assert LeadsZone(s, x) && |p| == r;
      hide LeadsZone;
      forall y | y in p ensures y in o {
        if y !in o {
          assert LeadsZone(s, y);
          BeforeIsAsymmetric(x, y);
        }
      }
      hide Before, Ordered;
      FewerIn(p, o, x);
    }
  }

  lemma {:induction false} FewerIn(p: seq<Entry>, o: seq<Entry>, x: Entry)
    requires DistinctIds(p) && x in o && x !in p && forall y :: y in p ==> y in o
    ensures |p| < |o|
  {
    if p != [] {
      var e := p[0];
      assert e in p;
      var i :| 0 <= i < |o| && o[i] == e;
      var less := o[..i] + o[i + 1..];
      assert forall y :: y in o && y != e ==> y in less by {
        forall y | y in o && y != e ensures y in less {
          var j :| 0 <= j < |o| && o[j] == y;
          if j < i { assert less[j] == y; } else { assert less[j - 1] == y; }
        }
      }
      assert p[0] !in p[1..];
      FewerIn(p[1..], less, x);
    }
  }

  /** Owners: the loop over the ranking. */
  method Owners(es: seq<Entry>, r: nat) returns (out: seq<nat>, rank: seq<nat>)
    ensures InRange(rank, |es|) && InRange(out, |es|)
    ensures Ordered(At(es, rank)) && (DistinctIds(es) ==> IsRanking(es, At(es, rank)))
    ensures At(es, out) == Pick(At(es, rank), r, {})
    ensures DistinctIds(es) ==> AreOwners(At(es, rank), r, At(es, out))
    ensures forall i, j :: 0 <= i < j < |out| && es[out[i]].zone != [] && es[out[j]].zone != [] ==>
      es[out[i]].zone != es[out[j]].zone
  {
    rank := Rank(es);
    out := TakeZones(es, rank, r);
    PickedApart(At(es, rank), r, {});
    if DistinctIds(es) {
      PickAreOwners(At(es, rank), r);
    }
  }

  ghost predicate Apart(o: seq<Entry>) { forall i, j :: 0 <= i < j < |o| ==> !SharesZone(o[i], o[j]) }

  lemma {:induction false} PickedApart(s: seq<Entry>, r: nat, taken: set<seq<Byte>>)
    ensures Apart(Pick(s, r, taken))
  {
    if s != [] && r > 0 && s[0].weight > 0 {
      if ZoneOf(s[0]) in taken {
        PickedApart(s[1..], r, taken);
      } else {
        var rest := Pick(s[1..], r - 1, taken + {ZoneOf(s[0])});
        PickedApart(s[1..], r - 1, taken + {ZoneOf(s[0])});
        PickedAreIn(s[1..], r - 1, taken + {ZoneOf(s[0])});
        forall x | x in rest ensures !SharesZone(s[0], x) {
          ZonesMeet(s[0], x);
        }
        hide SharesZone, ZoneOf;
        assert Pick(s, r, taken) == [s[0]] + rest;
      }
    }
  }

  /** The places in es that are picked from the i-th of the ranking on. */
  ghost function PickFrom(es: seq<Entry>, rank: seq<nat>, i: nat, r: nat, taken: set<seq<Byte>>): (out: seq<nat>)
    requires InRange(rank, |es|) && i <= |rank|
    decreases |rank| - i
  {
    if i == |rank| || r == 0 || es[rank[i]].weight == 0 then []
    else if ZoneOf(es[rank[i]]) in taken then PickFrom(es, rank, i + 1, r, taken)
    else [rank[i]] + PickFrom(es, rank, i + 1, r - 1, taken + {ZoneOf(es[rank[i]])})
  }

  lemma {:induction false} PlacesArePicked(es: seq<Entry>, rank: seq<nat>, i: nat, r: nat, taken: set<seq<Byte>>)
    requires InRange(rank, |es|) && i <= |rank|
    ensures InRange(PickFrom(es, rank, i, r, taken), |es|)
    ensures At(es, PickFrom(es, rank, i, r, taken)) == Pick(At(es, rank)[i..], r, taken)
    decreases |rank| - i
  {
    if i < |rank| && r > 0 && es[rank[i]].weight > 0 {
      var m, s := es[rank[i]], At(es, rank);
      assert s[i..][0] == m && s[i..][1..] == s[i + 1..];
      hide ZoneOf, At;
      if ZoneOf(m) in taken {
        PlacesArePicked(es, rank, i + 1, r, taken);
      } else {
        PlacesArePicked(es, rank, i + 1, r - 1, taken + {ZoneOf(m)});
        AtFirst(es, rank[i], PickFrom(es, rank, i + 1, r - 1, taken + {ZoneOf(m)}));
      }
    }
  }

  lemma AtFirst(es: seq<Entry>, e: nat, s: seq<nat>)
    requires InRange(s, |es|) && e < |es|
    ensures InRange([e] + s, |es|) && At(es, [e] + s) == [es[e]] + At(es, s)
  {
  }

  lemma Regrouped(p: seq<nat>, m: nat, rest: seq<nat>)
    ensures p + ([m] + rest) == (p + [m]) + rest && p + [] == p
  {
  }

  /** One round of the loop, as long as fewer than r are picked. */
  lemma TakeStep(es: seq<Entry>, rank: seq<nat>, i: nat, r: nat, zones: set<seq<Byte>>, out: seq<nat>)
    requires InRange(rank, |es|) && i < |rank| && |out| < r
    ensures rank[i] < |es|
    ensures out + PickFrom(es, rank, i, r - |out|, zones) ==
            if es[rank[i]].weight == 0 then out
            else if ZoneOf(es[rank[i]]) in zones then out + PickFrom(es, rank, i + 1, r - |out|, zones)
            else (out + [rank[i]]) + PickFrom(es, rank, i + 1, r - |out| - 1, zones + {ZoneOf(es[rank[i]])})
  {
    hide ZoneOf;
    Regrouped(out, rank[i], PickFrom(es, rank, i + 1, r - |out| - 1, zones + {ZoneOf(es[rank[i]])}));
  }

  method TakeZones(es: seq<Entry>, rank: seq<nat>, r: nat) returns (out: seq<nat>)
    requires InRange(rank, |es|)
    ensures InRange(out, |es|) && At(es, out) == Pick(At(es, rank), r, {})
  {
    ghost var all := PickFrom(es, rank, 0, r, {});
    out := TakePlaces(es, rank, r);
    PlacesArePicked(es, rank, 0, r, {});
    assert At(es, rank)[0..] == At(es, rank);
  }

  method TakePlaces(es: seq<Entry>, rank: seq<nat>, r: nat) returns (out: seq<nat>)
    requires InRange(rank, |es|)
    ensures out == PickFrom(es, rank, 0, r, {})
  {
    out := [];
    var zones: set<seq<Byte>> := {};
    var i := 0;
    ghost var all := PickFrom(es, rank, 0, r, {});
    while i < |rank|
      invariant i <= |rank| && |out| <= r
      invariant out + PickFrom(es, rank, i, r - |out|, zones) == all
    {
      hide ZoneOf, PickFrom;
      if |out| >= r {
        break;
      }
      TakeStep(es, rank, i, r, zones, out);
      var m := es[rank[i]];
      if m.weight == 0 {
        return;
      }
      if ZoneOf(m) !in zones {
        zones, out := zones + {ZoneOf(m)}, out + [rank[i]];
      }
      i := i + 1;
    }
    Regrouped(out, 0, []);
  }
}
