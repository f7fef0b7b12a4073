/** What changing the members moves (placement/placement.go, view/view.go): owners change only
    towards the node that was added or raised, and an admitted change leaves every slot an owner. */
module Movement {

  import opened Ballots
  import opened Placement

  /** A ranking with one more member. */
  function Insert(n: Entry, s: seq<Entry>): (t: seq<Entry>)
  {
    if s == [] then [n]
    else if Before(n, s[0]) then [n] + s
    else [s[0]] + Insert(n, s[1..])
  }

  lemma {:induction false} InsertElements(n: Entry, s: seq<Entry>)
    ensures forall e :: e in Insert(n, s) <==> e in s || e == n
  {
    if s != [] {
      InsertElements(n, s[1..]);
      assert s == [s[0]] + s[1..];
    }
  }

  lemma OrderedCons(e: Entry, s: seq<Entry>)
    requires Ordered(s) && forall x :: x in s ==> AtMost(e, x)
    ensures Ordered([e] + s)
  {
  }

  lemma {:induction false} InsertOrdered(n: Entry, s: seq<Entry>)
    requires Ordered(s)
    ensures Ordered(Insert(n, s))
  {
    hide Before;
    if s != [] {
      if Before(n, s[0]) {
        forall x | x in s
          ensures AtMost(n, x)
        {
          BeforeIsAsymmetric(n, s[0]);
          HeadIsLeast(s, x);
          if x != s[0] { BeforeTransitive(n, s[0], x); }
        }
        OrderedCons(n, s);
      } else {
        OrderedTail(s);
        InsertOrdered(n, s[1..]);
        InsertElements(n, s[1..]);
        forall x | x in Insert(n, s[1..])
          ensures AtMost(s[0], x)
        {
          if x in s[1..] {
            var i :| 0 <= i < |s[1..]| && s[1..][i] == x;
            assert AtMost(s[0], s[i + 1]);
          }
        }
        OrderedCons(s[0], Insert(n, s[1..]));
      }
    }
  }

  lemma {:induction false} InsertDistinct(n: Entry, s: seq<Entry>)
    requires DistinctIds(s) && forall e :: e in s ==> e.id != n.id
    ensures DistinctIds(Insert(n, s))
  {
    hide Before;
    if s != [] && !Before(n, s[0]) {
      OrderedTail(s);
      InsertDistinct(n, s[1..]);
      InsertElements(n, s[1..]);
      var t := Insert(n, s[1..]);
      forall j | 0 <= j < |t|
        ensures t[j].id != s[0].id
      {
        assert t[j] in t;
        if t[j] in s[1..] {
          var i :| 0 <= i < |s[1..]| && s[1..][i] == t[j];
          assert s[0].id != s[i + 1].id;
        }
      }
    }
  }

  // ---- adding a node ----

  lemma PickUnfold(e: Entry, s: seq<Entry>, r: nat, taken: set<seq<Byte>>)
    ensures Pick([e] + s, r, taken) ==
            if r == 0 || e.weight == 0 then []
            else if ZoneOf(e) in taken then Pick(s, r, taken)
            else [e] + Pick(s, r - 1, taken + {ZoneOf(e)})
  {
    assert ([e] + s)[1..] == s;
  }

  ghost predicate Within(a: seq<Entry>, b: seq<Entry>)
  {
    forall e :: e in a ==> e in b
  }

  /** One pick less and one zone more: nothing new is picked. */
  lemma {:induction false} FewerPicks(s: seq<Entry>, r: nat, z: seq<Byte>, taken: set<seq<Byte>>)
    requires r > 0
    ensures Within(Pick(s, r - 1, taken + {z}), Pick(s, r, taken))
  {
    if s != [] && s[0].weight > 0 && r > 1 {
      var y := ZoneOf(s[0]);
      if y in taken {
        FewerPicks(s[1..], r, z, taken);
      } else if y == z {
      } else {
        assert taken + {z} + {y} == taken + {y} + {z};
        FewerPicks(s[1..], r - 1, z, taken + {y});
      }
    }
  }

  lemma InsertUnfold(n: Entry, s: seq<Entry>)
    ensures Insert(n, s) ==
            if s == [] then [n] else if Before(n, s[0]) then [n] + s else [s[0]] + Insert(n, s[1..])
    ensures s != [] ==> s == [s[0]] + s[1..]
  {
  }

  lemma WithinSame(n: Entry, a: seq<Entry>, b: seq<Entry>)
    requires Within(a, b)
    ensures Within(a, [n] + b) && Within([n] + a, [n] + b)
  {
  }

  lemma WithinBehind(n: Entry, x: Entry, a: seq<Entry>, b: seq<Entry>)
    requires Within(a, [n] + b)
    ensures Within([x] + a, [n] + ([x] + b))
  {
  }

  lemma WithinNothing(b: seq<Entry>)
    ensures Within([], b)
  {
  }

  lemma WithinItself(a: seq<Entry>)
    ensures Within(a, a)
  {
  }

  lemma {:induction false} AddPicks(n: Entry, s: seq<Entry>, r: nat, taken: set<seq<Byte>>)
    ensures Within(Pick(Insert(n, s), r, taken), [n] + Pick(s, r, taken))
  {
    InsertUnfold(n, s);
    hide Before, Insert, Pick, Within, ZoneOf;
    WithinNothing([n] + Pick(s, r, taken));
    WithinItself(Pick(s, r, taken));
    WithinSame(n, Pick(s, r, taken), Pick(s, r, taken));
    if s == [] || Before(n, s[0]) {
      PickUnfold(n, s, r, taken);
      assert s == [] ==> [n] + s == [n];
      if r > 0 {
        FewerPicks(s, r, ZoneOf(n), taken);
        WithinSame(n, Pick(s, r - 1, taken + {ZoneOf(n)}), Pick(s, r, taken));
      }
    } else {
      PickUnfold(s[0], Insert(n, s[1..]), r, taken);
      PickUnfold(s[0], s[1..], r, taken);
      AddPicks(n, s[1..], r, taken);
      if r > 0 {
        var more := taken + {ZoneOf(s[0])};
        AddPicks(n, s[1..], r - 1, more);
        WithinBehind(n, s[0], Pick(Insert(n, s[1..]), r - 1, more), Pick(s[1..], r - 1, more));
      }
    }
  }

  /** Adding a node: the owners afterwards are the node or were owners before. */
  lemma AddingMovesOnlyToTheNode(es: seq<Entry>, n: Entry, s: seq<Entry>, t: seq<Entry>, r: nat)
    requires DistinctIds(es + [n]) && IsRanking(es, s) && IsRanking(es + [n], t)
    ensures Within(Pick(t, r, {}), [n] + Pick(s, r, {}))
  {
    forall e | e in s
      ensures e.id != n.id
    {
      var i :| 0 <= i < |es| && es[i] == e;
      assert (es + [n])[i].id != (es + [n])[|es|].id;
    }
    InsertOrdered(n, s);
    InsertDistinct(n, s);
    InsertElements(n, s);
    RankingIsUnique(t, Insert(n, s));
    AddPicks(n, s, r, {});
  }

  // ---- raising a weight ----

  lemma ZeroBefore(n: Entry, e: Entry)
    requires n.weight == 0 && Before(n, e)
    ensures e.weight == 0
  {
  }

  /** A member whose zone is taken changes nothing. */
  lemma {:induction false} SkipTaken(n: Entry, s: seq<Entry>, r: nat, taken: set<seq<Byte>>)
    requires ZoneOf(n) in taken
    ensures Pick(Insert(n, s), r, taken) == Pick(s, r, taken)
  {
    if s == [] {
      PickUnfold(n, [], r, taken);
      assert [n] + [] == [n];
    } else if Before(n, s[0]) {
      PickUnfold(n, s, r, taken);
    } else {
      PickUnfold(s[0], Insert(n, s[1..]), r, taken);
      SkipTaken(n, s[1..], r, taken);
      if r > 0 { SkipTaken(n, s[1..], r - 1, taken + {ZoneOf(s[0])}); }
    }
  }

  /** The same behind a first member x: ins is what s becomes. */
  lemma EarlierBehind(x: Entry, s: seq<Entry>, ins: seq<Entry>, z: seq<Byte>, r: nat, taken: set<seq<Byte>>)
    requires r > 0 && z !in taken
    requires ZoneOf(x) in taken ==> Within(Pick(s, r - 1, taken + {z}), Pick(ins, r, taken))
    requires ZoneOf(x) == z ==> Pick(ins, r - 1, taken + {z}) == Pick(s, r - 1, taken + {z})
    requires ZoneOf(x) !in taken && ZoneOf(x) != z && r > 1 ==>
      Within(Pick(s, r - 2, taken + {ZoneOf(x)} + {z}), Pick(ins, r - 1, taken + {ZoneOf(x)}))
    ensures Within(Pick([x] + s, r - 1, taken + {z}), Pick([x] + ins, r, taken))
  {
    var y := ZoneOf(x);
    PickUnfold(x, s, r - 1, taken + {z});
    PickUnfold(x, ins, r, taken);
    assert taken + {z} + {y} == taken + {y} + {z};
    hide Pick, ZoneOf;
  }

  /** Taking n's zone early picks nothing that n in its own place does not. */
  lemma {:induction false} EarlierZone(n: Entry, s: seq<Entry>, r: nat, taken: set<seq<Byte>>)
    requires r > 0 && ZoneOf(n) !in taken
    ensures Within(Pick(s, r - 1, taken + {ZoneOf(n)}), Pick(Insert(n, s), r, taken))
  {
    if s != [] {
      var z, y := ZoneOf(n), ZoneOf(s[0]);
      if Before(n, s[0]) {
        PickUnfold(n, s, r, taken);
      } else {
        hide Pick, Within, ZoneOf, Before;
        if y in taken {
          EarlierZone(n, s[1..], r, taken);
        } else if y == z {
          SkipTaken(n, s[1..], r - 1, taken + {z});
        } else if r > 1 {
          EarlierZone(n, s[1..], r - 1, taken + {y});
        }
        EarlierBehind(s[0], s[1..], Insert(n, s[1..]), z, r, taken);
        assert [s[0]] + s[1..] == s;
      }
    }
  }

  ghost predicate Raised(n: Entry, m: Entry)
  {
    m == n.(weight := m.weight) && m.weight >= n.weight
  }

  lemma MoreTimes(a: nat, b: nat, c: nat)
    requires a >= b
    ensures a * c >= b * c
  {
  }

  lemma RaisedLess(n: Entry, m: Entry, e: Entry)
    requires Raised(n, m) && Less(n, e)
    ensures Less(m, e)
  {
    hide Less, LexCompare;
    LessIsCross(n, e);
    LessIsCross(m, e);
    MoreTimes(m.weight, n.weight, e.l);
  }

  lemma RaisedRanksNoLater(n: Entry, m: Entry, e: Entry)
    requires Raised(n, m) && Before(n, e)
    ensures Before(m, e)
  {
    hide Less, LexCompare;
    if n.weight > 0 && e.weight > 0 {
      RaisedLess(n, m, e);
    }
  }

  /** Both before and after, the member comes first. */
  lemma RaisedFirst(n: Entry, m: Entry, s: seq<Entry>, r: nat, taken: set<seq<Byte>>)
    requires Raised(n, m) && ZoneOf(n) == ZoneOf(m) && s != [] && Before(n, s[0])
    ensures Within(Pick([m] + s, r, taken), [m] + Pick([n] + s, r, taken))
  {
    if n.weight == 0 { BeforeZero(n, s, r, taken); }
    hide Before, Pick, ZoneOf;
    PickUnfold(m, s, r, taken);
    PickUnfold(n, s, r, taken);
  }

  /** The member comes first only after. */
  lemma RaisedToFirst(n: Entry, m: Entry, s: seq<Entry>, r: nat, taken: set<seq<Byte>>)
    requires Raised(n, m) && ZoneOf(n) == ZoneOf(m)
    ensures Within(Pick([m] + s, r, taken), [m] + Pick(Insert(n, s), r, taken))
  {
    hide Before, Pick, ZoneOf, Insert, Within;
    PickUnfold(m, s, r, taken);
    WithinNothing([m] + Pick(Insert(n, s), r, taken));
    if r > 0 && ZoneOf(m) in taken {
      SkipTaken(n, s, r, taken);
      WithinItself(Pick(s, r, taken));
      WithinSame(m, Pick(s, r, taken), Pick(s, r, taken));
    } else if r > 0 {
      EarlierZone(n, s, r, taken);
      WithinSame(m, Pick(s, r - 1, taken + {ZoneOf(m)}), Pick(Insert(n, s), r, taken));
    }
  }

  lemma RaisedZone(n: Entry, m: Entry)
    requires Raised(n, m)
    ensures ZoneOf(n) == ZoneOf(m)
  {
  }

  lemma {:induction false} RaisePicks(n: Entry, m: Entry, s: seq<Entry>, r: nat, taken: set<seq<Byte>>)
    requires Raised(n, m)
    ensures Within(Pick(Insert(m, s), r, taken), [m] + Pick(Insert(n, s), r, taken))
  {
    InsertUnfold(n, s);
    InsertUnfold(m, s);
    RaisedZone(n, m);
    if s != [] && Before(n, s[0]) { RaisedRanksNoLater(n, m, s[0]); }
    hide Before, Pick, ZoneOf, Insert, Within, Raised;
    if s == [] {
      assert [m] + s == [m];
      RaisedToFirst(n, m, s, r, taken);
    } else if Before(n, s[0]) {
      RaisedFirst(n, m, s, r, taken);
    } else if Before(m, s[0]) {
      RaisedToFirst(n, m, s, r, taken);
    } else {
      var x, less := s[0], s[1..];
      PickUnfold(x, Insert(m, less), r, taken);
      PickUnfold(x, Insert(n, less), r, taken);
      WithinNothing([m] + Pick(Insert(n, s), r, taken));
      RaisePicks(n, m, less, r, taken);
      if r > 0 {
        var more := taken + {ZoneOf(x)};
        RaisePicks(n, m, less, r - 1, more);
        WithinBehind(m, x, Pick(Insert(m, less), r - 1, more), Pick(Insert(n, less), r - 1, more));
      }
    }
  }

  lemma BeforeZero(n: Entry, s: seq<Entry>, r: nat, taken: set<seq<Byte>>)
    requires n.weight == 0 && s != [] && Before(n, s[0])
    ensures forall q: nat, zs :: Pick(s, q, zs) == []
  {
    ZeroBefore(n, s[0]);
  }

  lemma WithoutOne(s: seq<Entry>, k: nat)
    requires k < |s| && Ordered(s) && DistinctIds(s)
    ensures Ordered(s[..k] + s[k + 1..]) && DistinctIds(s[..k] + s[k + 1..])
    ensures forall e :: e in s[..k] + s[k + 1..] <==> e in s && e != s[k]
  {
    var t := s[..k] + s[k + 1..];
    forall e | e in s && e != s[k]
      ensures e in t
    {
      var i :| 0 <= i < |s| && s[i] == e;
      assert e == if i < k then t[i] else t[i - 1];
    }
  }

  /** A ranking is any of its members inserted into the ranking of the others. */
  lemma RankingByInsert(s: seq<Entry>, rest: seq<Entry>, n: Entry)
    requires Ordered(s) && DistinctIds(s) && Ordered(rest) && DistinctIds(rest)
    requires forall e :: e in s <==> e in rest || e == n
    requires forall e :: e in rest ==> e.id != n.id
    ensures s == Insert(n, rest)
  {
    InsertOrdered(n, rest);
    InsertDistinct(n, rest);
    InsertElements(n, rest);
    RankingIsUnique(s, Insert(n, rest));
  }

  lemma SameId(s: seq<Entry>, a: Entry, b: Entry)
    requires DistinctIds(s) && a in s && b in s && a.id == b.id
    ensures a == b
  {
    var i :| 0 <= i < |s| && s[i] == a;
    var j :| 0 <= j < |s| && s[j] == b;
  }

  /** Raising a weight: the owners afterwards are that node or were owners before. */
  lemma RaisingMovesOnlyToTheNode(es: seq<Entry>, i: nat, m: Entry, s: seq<Entry>, t: seq<Entry>, r: nat)
    requires i < |es| && DistinctIds(es) && Raised(es[i], m)
    requires IsRanking(es, s) && IsRanking(es[i := m], t)
    ensures Within(Pick(t, r, {}), [m] + Pick(s, r, {}))
  {
    var n := es[i];
    assert n in s;
    var k :| 0 <= k < |s| && s[k] == n;
    var rest := s[..k] + s[k + 1..];
    WithoutOne(s, k);
    forall e | e in rest
      ensures e.id != n.id
    {
      if e.id == n.id { SameId(s, e, n); }
    }
    RankingByInsert(s, rest, n);
    forall e
      ensures e in t <==> e in rest || e == m
    {
      ReplacedElements(es, i, m, e);
    }
    RankingByInsert(t, rest, m);
    RaisePicks(n, m, rest, r, {});
  }

  lemma ReplacedElements(es: seq<Entry>, i: nat, m: Entry, e: Entry)
    requires i < |es| && DistinctIds(es)
    ensures e in es[i := m] <==> e == m || (e in es && e != es[i])
  {
    var fs := es[i := m];
    assert fs[i] == m;
    if e in es && e != es[i] {
      var j :| 0 <= j < |es| && es[j] == e;
      assert fs[j] == e;
    }
  }

  // ---- what owners are ----

  /** Owners are members in ranking order, at most r, with weight and with zones of their own. */
  lemma {:induction false} PickedAreOwners(s: seq<Entry>, r: nat, taken: set<seq<Byte>>)
    ensures |Pick(s, r, taken)| <= r
    ensures forall i :: 0 <= i < |Pick(s, r, taken)| ==>
              Pick(s, r, taken)[i] in s && Pick(s, r, taken)[i].weight > 0 && ZoneOf(Pick(s, r, taken)[i]) !in taken
    ensures forall i, j :: 0 <= i < j < |Pick(s, r, taken)| ==>
              ZoneOf(Pick(s, r, taken)[i]) != ZoneOf(Pick(s, r, taken)[j])
  {
    if s != [] && r > 0 && s[0].weight > 0 {
      PickedAreOwners(s[1..], r, taken);
      PickedAreOwners(s[1..], r - 1, taken + {ZoneOf(s[0])});
    }
  }

  ghost predicate ZonePicked(o: seq<Entry>, z: seq<Byte>)
  {
    exists i :: 0 <= i < |o| && ZoneOf(o[i]) == z
  }

  lemma ZonePickedCons(e: Entry, o: seq<Entry>, z: seq<Byte>)
    requires z == ZoneOf(e) || ZonePicked(o, z)
    ensures ZonePicked([e] + o, z)
  {
    var t := [e] + o;
    if z == ZoneOf(e) {
      assert ZoneOf(t[0]) == z;
    } else {
      var i :| 0 <= i < |o| && ZoneOf(o[i]) == z;
      assert ZoneOf(t[i + 1]) == z;
    }
  }

  /** A pick of fewer than r has every zone with weight, or it was taken. */
  lemma {:induction false} NoZoneLeft(s: seq<Entry>, r: nat, taken: set<seq<Byte>>, e: Entry)
    requires Ordered(s) && |Pick(s, r, taken)| < r && e in s && e.weight > 0
    ensures ZoneOf(e) in taken || ZonePicked(Pick(s, r, taken), ZoneOf(e))
  {
    assert s == [s[0]] + s[1..];
    WeightedHead(s, e);
    OrderedTail(s);
    hide Ordered, ZonePicked, ZoneOf;
    if ZoneOf(s[0]) in taken {
      if e != s[0] { NoZoneLeft(s[1..], r, taken, e); }
    } else {
      if ZoneOf(e) != ZoneOf(s[0]) {
        NoZoneLeft(s[1..], r - 1, taken + {ZoneOf(s[0])}, e);
      }
      if ZoneOf(e) !in taken {
        ZonePickedCons(s[0], Pick(s[1..], r - 1, taken + {ZoneOf(s[0])}), ZoneOf(e));
      }
    }
  }

  /** Fewer than r owners only when every weighted member shares its zone with one of them. */
  lemma ShortOnlyWithoutZones(s: seq<Entry>, r: nat, e: Entry)
    requires Ordered(s) && |Pick(s, r, {})| < r && e in s && e.weight > 0
    ensures exists x :: x in Pick(s, r, {}) && SharesZone(x, e)
  {
    NoZoneLeft(s, r, {}, e);
    var o := Pick(s, r, {});
    var i :| 0 <= i < |o| && ZoneOf(o[i]) == ZoneOf(e);
    ZonesMeet(o[i], e);
    assert o[i] in o;
  }

  // ---- dropping nodes ----

  predicate Survives(id: seq<Byte>, target: seq<Entry>)
  {
    exists i :: 0 <= i < |target| && target[i].id == id && target[i].weight > 0
  }

  predicate Dropped(n: Entry, target: seq<Entry>)
  {
    n.weight > 0 && !Survives(n.id, target)
  }

  /** The ids of the weighted members the target drops. */
  function DroppedIds(cur: seq<Entry>, target: seq<Entry>): (d: set<seq<Byte>>)
  {
    set i | 0 <= i < |cur| && Dropped(cur[i], target) :: cur[i].id
  }

  /** Whose weight goes: a weighted member that the target does not list with weight. */
  lemma DroppedMeans(cur: seq<Entry>, target: seq<Entry>, x: seq<Byte>)
    ensures x in DroppedIds(cur, target) <==>
      && (exists i :: 0 <= i < |cur| && cur[i].id == x && cur[i].weight > 0)
      && (forall j :: 0 <= j < |target| && target[j].id == x ==> target[j].weight == 0)
  {
  }

  /** ValidateChange: refuses to drop R or more weighted nodes at once, unless forced. */
  method ValidateChange(cur: seq<Entry>, target: seq<Entry>, replicas: int, force: bool) returns (ok: bool)
    ensures DistinctIds(cur) ==> (ok <==> force || replicas <= 0 || |DroppedIds(cur, target)| < replicas)
  {
    if force {
      return true;
    }
    var dropped := 0;
    var i := 0;
    while i < |cur|
      invariant i <= |cur|
      invariant DistinctIds(cur) ==> dropped == |DroppedIds(cur[..i], target)|
    {
      var found := false;
      var j := 0;
      while j < |target|
        invariant j <= |target|
        invariant !found ==> forall k :: 0 <= k < j ==> !(target[k].id == cur[i].id && target[k].weight > 0)
        invariant found ==> Survives(cur[i].id, target)
      {
        if cur[i].id == target[j].id && target[j].weight > 0 {
          found := true;
          break;
        }
        j := j + 1;
      }
      OneMore(cur, target, i);
      if !found && cur[i].weight > 0 {
        dropped := dropped + 1;
      }
      i := i + 1;
    }
    assert cur[..i] == cur;
    return !(dropped >= replicas && replicas > 0);
  }

  lemma OneMore(cur: seq<Entry>, target: seq<Entry>, i: nat)
    requires i < |cur|
    ensures DistinctIds(cur) ==>
              |DroppedIds(cur[..i + 1], target)| ==
              |DroppedIds(cur[..i], target)| + (if Dropped(cur[i], target) then 1 else 0)
  {
    var a, b := DroppedIds(cur[..i], target), DroppedIds(cur[..i + 1], target);
    forall x | x in a
      ensures x in b
    {
      var k :| 0 <= k < i && Dropped(cur[..i][k], target) && cur[..i][k].id == x;
      assert cur[..i + 1][k] == cur[k];
    }
    forall x | x in b
      ensures x in a || (Dropped(cur[i], target) && x == cur[i].id)
    {
      var k :| 0 <= k < i + 1 && Dropped(cur[..i + 1][k], target) && cur[..i + 1][k].id == x;
      if k < i { assert cur[..i][k] == cur[k]; }
    }
    if Dropped(cur[i], target) {
      assert cur[..i + 1][i] == cur[i];
      assert b == a + {cur[i].id};
    } else {
      assert a == b;
    }
  }

  function Ids(o: seq<Entry>): (d: set<seq<Byte>>)
  {
    set i | 0 <= i < |o| :: o[i].id
  }

  lemma {:induction false} IdsCount(o: seq<Entry>)
    requires DistinctIds(o)
    ensures |Ids(o)| == |o|
  {
    if o != [] {
      var k := |o| - 1;
      IdsCount(o[..k]);
      assert Ids(o) == Ids(o[..k]) + {o[k].id} by {
        assert forall i :: 0 <= i < k ==> o[..k][i] == o[i];
      }
    }
  }

  lemma SubsetSmaller(a: set<seq<Byte>>, b: set<seq<Byte>>)
    requires a <= b
    ensures |a| <= |b|
  {
    assert b == a + (b - a);
  }

  lemma PickedHaveDistinctIds(es: seq<Entry>, s: seq<Entry>, r: nat)
    requires IsRanking(es, s)
    ensures DistinctIds(Pick(s, r, {}))
  {
    PickedAreOwners(s, r, {});
    var o := Pick(s, r, {});
    forall i, j | 0 <= i < j < |o|
      ensures o[i].id != o[j].id
    {
      if o[i].id == o[j].id { SameId(s, o[i], o[j]); }
    }
  }

  /** An admitted change leaves every slot that has R owners one that survives with weight. */
  lemma AdmittedKeepsAnOwner(cur: seq<Entry>, target: seq<Entry>, replicas: nat, s: seq<Entry>)
    requires replicas > 0 && DistinctIds(cur) && IsRanking(cur, s)
    requires |DroppedIds(cur, target)| < replicas && |Pick(s, replicas, {})| == replicas
    ensures exists i, j :: 0 <= i < replicas && 0 <= j < |target| && target[j].id == Pick(s, replicas, {})[i].id && target[j].weight > 0
  {
    var o := Pick(s, replicas, {});
    PickedAreOwners(s, replicas, {});
    PickedHaveDistinctIds(cur, s, replicas);
    IdsCount(o);
    if forall i :: 0 <= i < replicas ==> !Survives(o[i].id, target) {
      forall x | x in Ids(o)
        ensures x in DroppedIds(cur, target)
      {
        var i :| 0 <= i < |o| && o[i].id == x;
        assert o[i] in cur;
        var k :| 0 <= k < |cur| && cur[k] == o[i];
        assert Dropped(cur[k], target);
      }
      SubsetSmaller(Ids(o), DroppedIds(cur, target));
    }
  }

  // ---- two placements at once ----

  predicate NoRepeat(s: seq<seq<Byte>>)
  {
    forall i, j :: 0 <= i < j < |s| ==> s[i] != s[j]
  }

  /** WriteSet and ReadOrder: the current list, then what only the pending list has, in order. */
  method MergeIds(cur: seq<seq<Byte>>, pending: seq<seq<Byte>>) returns (out: seq<seq<Byte>>)
    ensures cur <= out
    ensures forall id :: id in out <==> id in cur || id in pending
    ensures NoRepeat(cur) && NoRepeat(pending) ==> NoRepeat(out)
    ensures forall j :: |cur| <= j < |out| ==> out[j] !in cur
  {
    out := cur;
    var i := 0;
    while i < |pending|
      invariant i <= |pending| && cur <= out
      invariant forall id :: id in out <==> id in cur || id in pending[..i]
      invariant forall j :: |cur| <= j < |out| ==> out[j] !in cur
      invariant NoRepeat(cur) && NoRepeat(pending) ==> NoRepeat(out)
    {
      ghost var more := pending[..i + 1];
      assert more == pending[..i] + [pending[i]];
      if pending[i] !in cur {
        assert NoRepeat(pending) ==> pending[i] !in pending[..i];
        out := out + [pending[i]];
      }
      i := i + 1;
    }
    assert pending[..i] == pending;
  }
}
