/** Path-style globs (refglob/refglob.go): the patterns, the expression a pattern compiles to, and
    what both match.  Characters are code points. */
module Glob {

  type Rune = nat

  const SLASH: Rune := 47
  const NEWLINE: Rune := 10
  const BACKSLASH: Rune := 92
  const STAR: Rune := 42
  const QUESTION: Rune := 63
  const OPEN: Rune := 91
  const CLOSE: Rune := 93
  const DASH: Rune := 45
  const BANG: Rune := 33
  const CARET: Rune := 94

  // ---- patterns ----

  datatype Item = Item(lo: Rune, hi: Rune)

  datatype Class = Class(negate: bool, items: seq<Item>)

  /** Deep is a whole segment "**" with its slash, DeepEnd one at the end of the pattern. */
  datatype Tok = Lit(c: Rune) | Star | Any | Cls(class_: Class) | Deep | DeepEnd

  predicate InItems(items: seq<Item>, c: Rune)
  {
    exists i :: 0 <= i < |items| && items[i].lo <= c <= items[i].hi
  }

  /** A class never matches a slash. */
  predicate InClass(k: Class, c: Rune)
  {
    c != SLASH && InItems(k.items, c) != k.negate
  }

  // ---- segment-wise meaning ----

  /** One segment against the tokens of one segment. */
  predicate TokMatch(ts: seq<Tok>, s: seq<Rune>)
    decreases |ts| + |s|
  {
    if ts == [] then s == []
    else
      match ts[0]
      case Lit(c) => s != [] && s[0] == c && TokMatch(ts[1..], s[1..])
      case Any => s != [] && TokMatch(ts[1..], s[1..])
      case Cls(k) => s != [] && InClass(k, s[0]) && TokMatch(ts[1..], s[1..])
      case Star => TokMatch(ts[1..], s) || (s != [] && TokMatch(ts, s[1..]))
      case _ => false
  }

  datatype Segment = Seg(toks: seq<Tok>) | AnyDepth | Rest

  /** The segments of a name against those of a pattern: AnyDepth takes any number, Rest one or more. */
  predicate SegMatch(ps: seq<Segment>, ss: seq<seq<Rune>>)
    decreases |ps| + |ss|
  {
    if ps == [] then ss == []
    else
      match ps[0]
      case Seg(ts) => ss != [] && TokMatch(ts, ss[0]) && SegMatch(ps[1..], ss[1..])
      case AnyDepth => SegMatch(ps[1..], ss) || (ss != [] && SegMatch(ps, ss[1..]))
      case Rest => ss != []
  }

  /** A name cut at its slashes. */
  function Split(s: seq<Rune>): (r: seq<seq<Rune>>)
    ensures r != []
  {
    if s == [] then [[]]
    else if s[0] == SLASH then [[]] + Split(s[1..])
    else
      var r := Split(s[1..]);
      [[s[0]] + r[0]] + r[1..]
  }

  /** A pattern cut at its slashes. */
  function Segments(ts: seq<Tok>): (r: seq<Segment>)
    ensures r != []
  {
    if ts == [] then [Seg([])]
    else
      match ts[0]
      case Deep => [AnyDepth] + Segments(ts[1..])
      case DeepEnd => [Rest]
      case Lit(c) => if c == SLASH then [Seg([])] + Segments(ts[1..]) else Prepend(ts[0], Segments(ts[1..]))
      case _ => Prepend(ts[0], Segments(ts[1..]))
  }

  function Prepend(t: Tok, ps: seq<Segment>): (r: seq<Segment>)
    requires ps != []
    ensures r != []
  {
    [if ps[0].Seg? then Seg([t] + ps[0].toks) else Seg([t])] + ps[1..]
  }

  /** The meaning of a pattern. */
  predicate GlobMatch(ts: seq<Tok>, name: seq<Rune>)
  {
    SegMatch(Segments(ts), Split(name))
  }

  // ---- the expression ----

  // The parts of an expression: a literal, a run without slashes (RStar), one character that is no
  // slash (ROne), a set, nothing at all, a run of whole segments each with its slash (RSegs), and a
  // run without newlines (RAll).
  datatype Piece = RLit(c: Rune) | RStar | ROne | RSet(negate: bool, ranges: seq<Item>) | RNone | RSegs | RAll

  predicate NoSlash(s: seq<Rune>) { forall i :: 0 <= i < |s| ==> s[i] != SLASH }

  predicate NoNewline(s: seq<Rune>) { forall i :: 0 <= i < |s| ==> s[i] != NEWLINE }

  predicate InSet(negate: bool, ranges: seq<Item>, c: Rune) { InItems(ranges, c) != negate }

  /** The anchored expression matches the whole of s. */
  ghost predicate Matches(ps: seq<Piece>, s: seq<Rune>)
    decreases |ps|, |s|
  {
    if ps == [] then s == []
    else
      match ps[0]
      case RLit(c) => s != [] && s[0] == c && Matches(ps[1..], s[1..])
      case ROne => s != [] && s[0] != SLASH && Matches(ps[1..], s[1..])
      case RSet(n, rs) => s != [] && InSet(n, rs, s[0]) && Matches(ps[1..], s[1..])
      case RNone => false
      case RStar => exists k :: 0 <= k <= |s| && NoSlash(s[..k]) && Matches(ps[1..], s[k..])
      case RSegs => Matches(ps[1..], s) || exists k :: 0 <= k < |s| && NoSlash(s[..k]) && s[k] == SLASH && Matches(ps, s[k + 1..])
      case RAll => exists k :: 0 <= k <= |s| && NoNewline(s[..k]) && Matches(ps[1..], s[k..])
  }

  /** A range without the slash: what is left on either side. */
  function Carve(it: Item): (r: seq<Item>)
  {
    if it.lo <= SLASH <= it.hi then
      (if it.lo < SLASH then [Item(it.lo, SLASH - 1)] else []) + (if it.hi > SLASH then [Item(SLASH + 1, it.hi)] else [])
    else [it]
  }

  function CarveAll(items: seq<Item>): (r: seq<Item>)
  {
    if items == [] then [] else CarveAll(items[..|items| - 1]) + Carve(items[|items| - 1])
  }

  /** The set a class is written as. */
  function ClassPiece(k: Class): (p: Piece)
  {
    if k.negate then RSet(true, [Item(SLASH, SLASH)] + k.items)
    else if CarveAll(k.items) == [] then RNone
    else RSet(false, CarveAll(k.items))
  }

  function Emit(t: Tok): (p: Piece)
  {
    match t
    case Lit(c) => RLit(c)
    case Star => RStar
    case Any => ROne
    case Cls(k) => ClassPiece(k)
    case Deep => RSegs
    case DeepEnd => RAll
  }

  function EmitAll(ts: seq<Tok>): (ps: seq<Piece>)
    ensures |ps| == |ts|
  {
    if ts == [] then [] else [Emit(ts[0])] + EmitAll(ts[1..])
  }

  // ---- classes ----

  lemma InSplit(a: seq<Item>, b: seq<Item>, c: Rune)
    ensures InItems(a + b, c) <==> InItems(a, c) || InItems(b, c)
  {
    var z := a + b;
    if InItems(a, c) {
      var i :| 0 <= i < |a| && a[i].lo <= c <= a[i].hi;
      assert z[i] == a[i];
    }
    if InItems(b, c) {
      var i :| 0 <= i < |b| && b[i].lo <= c <= b[i].hi;
      assert z[|a| + i] == b[i];
    }
  }

  lemma InOne(it: Item, c: Rune)
    ensures InItems([it], c) <==> it.lo <= c <= it.hi
    ensures InItems(Carve(it), c) <==> it.lo <= c <= it.hi && c != SLASH
  {
    assert [it][0] == it;
    var l := if it.lo < SLASH then [Item(it.lo, SLASH - 1)] else [];
    var r := if it.hi > SLASH then [Item(SLASH + 1, it.hi)] else [];
    if it.lo <= SLASH <= it.hi {
      InSplit(l, r, c);
      if l != [] { assert l[0] == Item(it.lo, SLASH - 1); }
      if r != [] { assert r[0] == Item(SLASH + 1, it.hi); }
    }
  }

  lemma {:induction false} InCarved(items: seq<Item>, c: Rune)
    ensures InItems(CarveAll(items), c) <==> InItems(items, c) && c != SLASH
  {
    if items != [] {
      var n := |items| - 1;
      InCarved(items[..n], c);
      assert items == items[..n] + [items[n]];
      InSplit(items[..n], [items[n]], c);
      InSplit(CarveAll(items[..n]), Carve(items[n]), c);
      InOne(items[n], c);
    }
  }

  /** The set written for a class holds exactly the class's characters, and never a slash. */
  lemma ClassPieceMatches(k: Class, c: Rune, rest: seq<Piece>, s: seq<Rune>)
    ensures Matches([ClassPiece(k)] + rest, [c] + s) <==> InClass(k, c) && Matches(rest, s)
    ensures !Matches([ClassPiece(k)] + rest, [])
  {
    assert ([ClassPiece(k)] + rest)[1..] == rest && ([c] + s)[1..] == s;
    if k.negate {
      InSplit([Item(SLASH, SLASH)], k.items, c);
      InOne(Item(SLASH, SLASH), c);
    } else {
      InCarved(k.items, c);
    }
  }

  // ---- the two meanings agree ----

  /** A whole-segment "**" stands only where a segment starts, one at the end only at the end. */
  predicate WellFormed(ts: seq<Tok>, start: bool)
  {
    ts == [] ||
    match ts[0]
    case Deep => start && WellFormed(ts[1..], true)
    case DeepEnd => start && ts[1..] == []
    case Lit(c) => WellFormed(ts[1..], c == SLASH)
    case _ => WellFormed(ts[1..], false)
  }

  lemma {:induction false} NeverNoSegments(ts: seq<Tok>)
    ensures !SegMatch(Segments(ts), [])
  {
    if ts != [] {
      NeverNoSegments(ts[1..]);
      if ts[0] == Deep { assert ([AnyDepth] + Segments(ts[1..]))[1..] == Segments(ts[1..]); }
    }
  }

  lemma InsideIsSeg(ts: seq<Tok>)
    requires WellFormed(ts, false)
    ensures Segments(ts)[0].Seg?
  {
  }

  /** Where there is no slash up to k and one at k, the first segment ends there. */
  lemma {:induction false} SplitAt(s: seq<Rune>, k: nat)
    requires k < |s| && NoSlash(s[..k]) && s[k] == SLASH
    ensures Split(s) == [s[..k]] + Split(s[k + 1..])
  {
    if k > 0 {
      assert s[0] == s[..k][0];
      assert s[1..][..k - 1] == s[..k][1..] && s[1..][k..] == s[k + 1..];
      SplitAt(s[1..], k - 1);
      assert [s[0]] + s[1..][..k - 1] == s[..k];
    }
  }

  lemma {:induction false} SplitNone(s: seq<Rune>)
    requires NoSlash(s)
    ensures Split(s) == [s]
  {
    if s != [] {
      SplitNone(s[1..]);
      assert [s[0]] + s[1..] == s;
    }
  }

  /** The tokens that take one character. */
  predicate TakesOne(t: Tok) { t.Any? || t.Cls? || (t.Lit? && t.c != SLASH) }

  predicate Accepts(t: Tok, c: Rune)
  {
    match t
    case Lit(d) => c == d
    case Any => c != SLASH
    case Cls(k) => InClass(k, c)
    case _ => false
  }

  lemma MatchesOne(t: Tok, re: seq<Piece>, s: seq<Rune>)
    requires TakesOne(t)
    ensures Matches([Emit(t)] + re, s) <==> s != [] && Accepts(t, s[0]) && Matches(re, s[1..])
  {
    var ps := [Emit(t)] + re;
    assert ps[1..] == re;
    if t.Cls? {
      ClassPieceMatches(t.class_, 0, re, []);
      if s != [] {
        ClassPieceMatches(t.class_, s[0], re, s[1..]);
        assert [s[0]] + s[1..] == s;
      }
    }
  }

  lemma SegMatchOne(t: Tok, ps: seq<Segment>, s: seq<Rune>)
    requires TakesOne(t) && ps != [] && ps[0].Seg?
    ensures SegMatch(Prepend(t, ps), Split(s)) <==> s != [] && Accepts(t, s[0]) && SegMatch(ps, Split(s[1..]))
  {
    var qs := Prepend(t, ps);
    assert qs[1..] == ps[1..] && ([t] + ps[0].toks)[1..] == ps[0].toks;
    if s != [] && s[0] != SLASH {
      var r := Split(s[1..]);
      var ss := Split(s);
      assert ss[1..] == r[1..] && ss[0][1..] == r[0];
    }
  }

  /** The star takes the first k characters. */
  ghost predicate StarTakes(re: seq<Piece>, s: seq<Rune>, k: nat)
  {
    k <= |s| && NoSlash(s[..k]) && Matches(re, s[k..])
  }

  lemma StarMeans(re: seq<Piece>, s: seq<Rune>)
    ensures Matches([RStar] + re, s) <==> exists k: nat :: StarTakes(re, s, k)
  {
    var ps := [RStar] + re;
    assert ps[1..] == re;
    if k: nat :| StarTakes(re, s, k) {
      assert NoSlash(s[..k]) && Matches(re, s[k..]);
    }
    if Matches(ps, s) {
      var k :| 0 <= k <= |s| && NoSlash(s[..k]) && Matches(re, s[k..]);
      assert StarTakes(re, s, k);
    }
  }

  lemma StarTakesOne(re: seq<Piece>, s: seq<Rune>, k: nat)
    requires s != []
    ensures s[0] != SLASH && StarTakes(re, s[1..], k) <==> StarTakes(re, s, k + 1)
  {
    hide Matches;
    if k + 1 <= |s| {
      assert s[..k + 1] == [s[0]] + s[1..][..k] && s[k + 1..] == s[1..][k..];
      assert s[..k + 1][0] == s[0] && s[..k + 1][1..] == s[1..][..k];
    }
  }

  /** A run of characters that are no slash, one at a time. */
  lemma StarUnfolds(re: seq<Piece>, s: seq<Rune>)
    ensures Matches([RStar] + re, s) <==>
            Matches(re, s) || (s != [] && s[0] != SLASH && Matches([RStar] + re, s[1..]))
  {
    StarMeans(re, s);
    assert s[0..] == s;
    assert StarTakes(re, s, 0) <==> Matches(re, s);
    if s != [] {
      StarMeans(re, s[1..]);
      hide Matches, StarTakes;
      if k: nat :| StarTakes(re, s, k) && k > 0 {
        StarTakesOne(re, s, k - 1);
      }
      if k: nat :| StarTakes(re, s[1..], k) {
        StarTakesOne(re, s, k);
      }
    }
  }

  lemma SegMatchStar(ps: seq<Segment>, s: seq<Rune>)
    requires ps != [] && ps[0].Seg?
    ensures SegMatch(Prepend(Star, ps), Split(s)) <==>
            SegMatch(ps, Split(s)) || (s != [] && s[0] != SLASH && SegMatch(Prepend(Star, ps), Split(s[1..])))
  {
    var qs := Prepend(Star, ps);
    var ts := [Star] + ps[0].toks;
    assert qs[1..] == ps[1..] && ts[1..] == ps[0].toks;
    if s != [] && s[0] != SLASH {
      var r, ss := Split(s[1..]), Split(s);
      assert ss[1..] == r[1..] && ss[0][1..] == r[0];
    }
  }

  lemma SegMatchSlash(ps: seq<Segment>, s: seq<Rune>)
    requires !SegMatch(ps, [])
    ensures SegMatch([Seg([])] + ps, Split(s)) <==> s != [] && s[0] == SLASH && SegMatch(ps, Split(s[1..]))
  {
    assert ([Seg([])] + ps)[1..] == ps;
    if s != [] && s[0] == SLASH { assert Split(s)[1..] == Split(s[1..]); }
    if s == [] { assert Split(s)[1..] == []; }
  }

  lemma SlashIsFirst(s: seq<Rune>, j: nat, k: nat)
    requires j < |s| && k < |s| && NoSlash(s[..j]) && NoSlash(s[..k]) && s[j] == s[k] == SLASH
    ensures j == k
  {
  }

  /** Whole segments, the first taken up to its slash. */
  lemma DeepUnfolds(re: seq<Piece>, s: seq<Rune>, k: nat)
    requires k < |s| && NoSlash(s[..k]) && s[k] == SLASH
    ensures Matches([RSegs] + re, s) <==> Matches(re, s) || Matches([RSegs] + re, s[k + 1..])
  {
    var ps := [RSegs] + re;
    assert ps[1..] == re;
    if Matches(ps, s) && !Matches(re, s) {
      var j :| 0 <= j < |s| && NoSlash(s[..j]) && s[j] == SLASH && Matches(ps, s[j + 1..]);
      SlashIsFirst(s, j, k);
    }
  }

  lemma DeepWithoutSlash(re: seq<Piece>, s: seq<Rune>)
    requires NoSlash(s)
    ensures Matches([RSegs] + re, s) <==> Matches(re, s)
  {
    assert ([RSegs] + re)[1..] == re;
  }

  lemma {:induction false} FirstSlash(s: seq<Rune>) returns (k: nat)
    requires !NoSlash(s)
    ensures k < |s| && NoSlash(s[..k]) && s[k] == SLASH
  {
    if s[0] == SLASH {
      k := 0;
    } else {
      var j := FirstSlash(s[1..]);
      k := j + 1;
      assert s[..k] == [s[0]] + s[1..][..j];
    }
  }

  /** The compiled expression matches a name without newlines exactly when the pattern does. */
  lemma {:induction false} ExpressionAgrees(ts: seq<Tok>, start: bool, s: seq<Rune>)
    requires WellFormed(ts, start) && NoNewline(s)
    ensures Matches(EmitAll(ts), s) <==> SegMatch(Segments(ts), Split(s))
    decreases |ts|, |s|
  {
    hide Matches, SegMatch;
    if ts == [] {
      EmptyAgrees(s);
    } else {
      var rest := ts[1..];
      var re, ps := EmitAll(rest), Segments(rest);
      match ts[0]
      case Deep =>
        ExpressionAgrees(rest, true, s);
        if NoSlash(s) {
          DeepWithoutSlash(re, s);
          SplitNone(s);
          NeverNoSegments(rest);
          DepthStep(ps, [s]);
          DepthStep(ps, []);
          assert [s][1..] == [];
        } else {
          var k := FirstSlash(s);
          DeepUnfolds(re, s, k);
          SplitAt(s, k);
          DepthStep(ps, Split(s));
          assert Split(s)[1..] == Split(s[k + 1..]);
          ExpressionAgrees(ts, start, s[k + 1..]);
        }
      case DeepEnd => RestAgrees(s);
      case Star =>
        InsideIsSeg(rest);
        StarUnfolds(re, s);
        SegMatchStar(ps, s);
        ExpressionAgrees(rest, false, s);
        if s != [] { ExpressionAgrees(ts, start, s[1..]); }
      case Lit(c) =>
        if c == SLASH {
          NeverNoSegments(rest);
          SegMatchSlash(ps, s);
          LitStep(c, re, s);
          if s != [] { ExpressionAgrees(rest, true, s[1..]); }
        } else {
          InsideIsSeg(rest);
          MatchesOne(ts[0], re, s);
          SegMatchOne(ts[0], ps, s);
          if s != [] { ExpressionAgrees(rest, false, s[1..]); }
        }
      case _ =>
        InsideIsSeg(rest);
        MatchesOne(ts[0], re, s);
        SegMatchOne(ts[0], ps, s);
        if s != [] { ExpressionAgrees(rest, false, s[1..]); }
    }
  }

  lemma EmptyAgrees(s: seq<Rune>)
    ensures Matches([], s) <==> SegMatch([Seg([])], Split(s))
  {
    if s != [] && s[0] != SLASH { assert Split(s)[0] != []; }
    if s != [] && s[0] == SLASH { assert Split(s)[1..] == Split(s[1..]); }
  }

  lemma RestAgrees(s: seq<Rune>)
    requires NoNewline(s)
    ensures Matches([RAll] + EmitAll([]), s) && SegMatch([Rest], Split(s))
  {
    var ps := [RAll] + EmitAll([]);
    assert ps[1..] == [] && s[..|s|] == s && s[|s|..] == [];
    assert NoNewline(s[..|s|]) && Matches(ps[1..], s[|s|..]);
  }

  lemma LitStep(c: Rune, re: seq<Piece>, s: seq<Rune>)
    ensures Matches([RLit(c)] + re, s) <==> s != [] && s[0] == c && Matches(re, s[1..])
  {
    assert ([RLit(c)] + re)[1..] == re;
  }

  lemma DepthStep(ps: seq<Segment>, ss: seq<seq<Rune>>)
    ensures SegMatch([AnyDepth] + ps, ss) <==> SegMatch(ps, ss) || (ss != [] && SegMatch([AnyDepth] + ps, ss[1..]))
  {
    assert ([AnyDepth] + ps)[1..] == ps;
  }

  // ---- the prefix ----

  function LitPrefix(ts: seq<Tok>): (p: seq<Rune>)
  {
    if ts == [] || !ts[0].Lit? then [] else [ts[0].c] + LitPrefix(ts[1..])
  }

  /** Every name the expression matches starts with the pattern's literal prefix. */
  lemma {:induction false} MatchStartsWithPrefix(ts: seq<Tok>, s: seq<Rune>)
    requires Matches(EmitAll(ts), s)
    ensures LitPrefix(ts) <= s
  {
    if ts != [] && ts[0].Lit? {
      hide Matches;
      LitStep(ts[0].c, EmitAll(ts[1..]), s);
      MatchStartsWithPrefix(ts[1..], s[1..]);
    }
  }

  // ---- parsing ----

  datatype Error = EmptyPattern | TooLong | ControlCharacter | TrailingBackslash | UnterminatedClass | EmptyClass | BadRange

  datatype Result<+T> = Ok(value: T) | Err(error: Error)

  /** One character of a class, possibly escaped, and how many it took. */
  function ClassRune(rs: seq<Rune>, i: nat): (r: Result<(Rune, nat)>)
    requires i < |rs|
  {
    if rs[i] == BACKSLASH then if i + 1 < |rs| then Ok((rs[i + 1], i + 2)) else Err(TrailingBackslash)
    else Ok((rs[i], i + 1))
  }

  predicate IsRange(rs: seq<Rune>, j: nat) { j + 1 < |rs| && rs[j] == DASH && rs[j + 1] != CLOSE }

  /** One item at i: a character or a range. */
  function ItemAt(rs: seq<Rune>, i: nat): (r: Result<(Item, nat)>)
    requires i < |rs|
    ensures r.Ok? ==> i < r.value.1 <= |rs|
  {
    match ClassRune(rs, i)
    case Err(e) => Err(e)
    case Ok(lo) =>
      if !IsRange(rs, lo.1) then Ok((Item(lo.0, lo.0), lo.1))
      else
        match ClassRune(rs, lo.1 + 1)
        case Err(e) => Err(e)
        case Ok(hi) => if hi.0 < lo.0 then Err(BadRange) else Ok((Item(lo.0, hi.0), hi.1))
  }

  /** The items from i up to the closing bracket. */
  function ItemsAt(rs: seq<Rune>, i: nat): (r: Result<(seq<Item>, nat)>)
    requires i <= |rs|
    ensures r.Ok? ==> i <= r.value.1 < |rs|
    decreases |rs| - i
  {
    if i == |rs| then Err(UnterminatedClass)
    else if rs[i] == CLOSE then Ok(([], i))
    else
      match ItemAt(rs, i)
      case Err(e) => Err(e)
      case Ok(x) =>
        match ItemsAt(rs, x.1)
        case Err(e) => Err(e)
        case Ok(y) => Ok(([x.0] + y.0, y.1))
  }

  predicate Negates(rs: seq<Rune>, i: nat) { i < |rs| && (rs[i] == BANG || rs[i] == CARET) }

  /** The class whose bracket is at i, and the position after it. */
  function ClassAt(rs: seq<Rune>, i: nat): (r: Result<(Class, nat)>)
    requires i < |rs|
    ensures r.Ok? ==> i < r.value.1 <= |rs|
  {
    var j := if Negates(rs, i + 1) then i + 2 else i + 1;
    match ItemsAt(rs, j)
    case Err(e) => Err(e)
    case Ok(x) => if x.0 == [] then Err(EmptyClass) else Ok((Class(Negates(rs, i + 1), x.0), x.1 + 1))
  }

  predicate WholeSegment(rs: seq<Rune>, i: nat, start: bool)
  {
    i + 1 < |rs| && rs[i] == STAR && rs[i + 1] == STAR && start && (i + 2 == |rs| || rs[i + 2] == SLASH)
  }

  /** The token at i, the position after it, and whether a segment starts there. */
  function TokAt(rs: seq<Rune>, i: nat, start: bool): (r: Result<(Tok, nat, bool)>)
    requires i < |rs|
    ensures r.Ok? ==> i < r.value.1 <= |rs|
  {
    if rs[i] == BACKSLASH then
      if i + 1 < |rs| then Ok((Lit(rs[i + 1]), i + 2, rs[i + 1] == SLASH)) else Err(TrailingBackslash)
    else if rs[i] == STAR then
      if !WholeSegment(rs, i, start) then Ok((Star, i + 1, false))
      else if i + 2 == |rs| then Ok((DeepEnd, i + 2, true))
      else Ok((Deep, i + 3, true))
    else if rs[i] == QUESTION then Ok((Any, i + 1, false))
    else if rs[i] == OPEN then
      match ClassAt(rs, i)
      case Err(e) => Err(e)
      case Ok(x) => Ok((Cls(x.0), x.1, false))
    else Ok((Lit(rs[i]), i + 1, rs[i] == SLASH))
  }

  function ParseFrom(rs: seq<Rune>, i: nat, start: bool): (r: Result<seq<Tok>>)
    requires i <= |rs|
    decreases |rs| - i
  {
    if i == |rs| then Ok([])
    else
      match TokAt(rs, i, start)
      case Err(e) => Err(e)
      case Ok(x) =>
        match ParseFrom(rs, x.1, x.2)
        case Err(e) => Err(e)
        case Ok(ts) => Ok([x.0] + ts)
  }

  lemma {:induction false} ParsedIsWellFormed(rs: seq<Rune>, i: nat, start: bool)
    requires i <= |rs| && ParseFrom(rs, i, start).Ok?
    ensures WellFormed(ParseFrom(rs, i, start).value, start)
    decreases |rs| - i
  {
    if i < |rs| {
      var x := TokAt(rs, i, start).value;
      ParsedIsWellFormed(rs, x.1, x.2);
      assert ParseFrom(rs, i, start).value[1..] == ParseFrom(rs, x.1, x.2).value;
    }
  }

  // ---- the code ----

  const MAX_LEN := 4096

  function Utf8Len(rs: seq<Rune>): (n: nat)
  {
    if rs == [] then 0
    else (if rs[0] < 0x80 then 1 else if rs[0] < 0x800 then 2 else if rs[0] < 0x1_0000 then 3 else 4) + Utf8Len(rs[1..])
  }

  predicate HasControl(rs: seq<Rune>) { exists i :: 0 <= i < |rs| && (rs[i] < 0x20 || rs[i] == 0x7f) }

  /** One item of a class: a character, or a range up to another. */
  method ParseItem(rs: seq<Rune>, at: nat) returns (r: Result<(Item, nat)>)
    requires at < |rs|
    ensures r == ItemAt(rs, at)
  {
    var lo := ClassRune(rs, at);
    if lo.Err? {
      return Err(lo.error);
    }
    var i := lo.value.1;
    if i + 1 < |rs| && rs[i] == DASH && rs[i + 1] != CLOSE {
      var h := ClassRune(rs, i + 1);
      if h.Err? {
        return Err(h.error);
      }
      if h.value.0 < lo.value.0 {
        return Err(BadRange);
      }
      return Ok((Item(lo.value.0, h.value.0), h.value.1));
    }
    return Ok((Item(lo.value.0, lo.value.0), i));
  }

  /** parseClass: one loop over the items. */
  method ParseClass(rs: seq<Rune>, at: nat) returns (r: Result<(Class, nat)>)
    requires at < |rs|
    ensures r == ClassAt(rs, at)
  {
    var i := at + 1;
    var negate := false;
    if i < |rs| && (rs[i] == BANG || rs[i] == CARET) {
      negate := true;
      i := i + 1;
    }
    ghost var j := i;
    hide ItemAt;
    var items: seq<Item> := [];
    assert ItemsAt(rs, j).Ok? ==> [] + ItemsAt(rs, j).value.0 == ItemsAt(rs, j).value.0;
    while i < |rs| && rs[i] != CLOSE
      invariant j <= i <= |rs|
      invariant ItemsAt(rs, j) == More(items, ItemsAt(rs, i))
      decreases |rs| - i
    {
      var x := ParseItem(rs, i);
      if x.Err? {
        return Err(x.error);
      }
      MoreThen(items, x.value.0, ItemsAt(rs, x.value.1));
      items, i := items + [x.value.0], x.value.1;
    }
    if i >= |rs| {
      return Err(UnterminatedClass);
    }
    assert items + [] == items;
    if items == [] {
      return Err(EmptyClass);
    }
    return Ok((Class(negate, items), i + 1));
  }

  /** The items found so far before what comes after. */
  function More(items: seq<Item>, r: Result<(seq<Item>, nat)>): (q: Result<(seq<Item>, nat)>)
  {
    if r.Err? then r else Ok((items + r.value.0, r.value.1))
  }

  lemma MoreThen(items: seq<Item>, it: Item, r: Result<(seq<Item>, nat)>)
    ensures More(items, More([it], r)) == More(items + [it], r)
  {
    if r.Ok? { assert items + ([it] + r.value.0) == (items + [it]) + r.value.0; }
  }

  datatype Pattern = Pattern(re: seq<Piece>, prefix: seq<Rune>)

  /** The tokens read so far before those that come after. */
  function Before(ts: seq<Tok>, r: Result<seq<Tok>>): (q: Result<seq<Tok>>)
  {
    if r.Err? then r else Ok(ts + r.value)
  }

  lemma BeforeThen(ts: seq<Tok>, t: Tok, r: Result<seq<Tok>>)
    ensures Before(ts, Before([t], r)) == Before(ts + [t], r)
  {
    if r.Ok? { assert ts + ([t] + r.value) == (ts + [t]) + r.value; }
  }

  lemma {:induction false} EmitMore(ts: seq<Tok>, t: Tok)
    ensures EmitAll(ts + [t]) == EmitAll(ts) + [Emit(t)]
  {
    if ts == [] {
      assert [] + [t] == [t];
      assert [t][1..] == [];
    } else {
      EmitMore(ts[1..], t);
      assert (ts + [t])[1..] == ts[1..] + [t];
    }
  }

  predicate AllLit(ts: seq<Tok>) { forall i :: 0 <= i < |ts| ==> ts[i].Lit? }

  lemma {:induction false} PrefixMore(ts: seq<Tok>, t: Tok)
    ensures AllLit(ts) && t.Lit? ==> LitPrefix(ts + [t]) == LitPrefix(ts) + [t.c]
    ensures !AllLit(ts) || !t.Lit? ==> LitPrefix(ts + [t]) == LitPrefix(ts)
  {
    if ts == [] {
      assert ts + [t] == [t];
      assert [t][1..] == [];
    } else {
      PrefixMore(ts[1..], t);
      assert (ts + [t])[1..] == ts[1..] + [t];
    }
  }

  /** The loop of Compile. */
  method Scan(rs: seq<Rune>) returns (r: Result<Pattern>)
    ensures r.Err? <==> ParseFrom(rs, 0, true).Err?
    ensures r.Err? ==> r.error == ParseFrom(rs, 0, true).error
    ensures r.Ok? ==> r.value == Pattern(EmitAll(ParseFrom(rs, 0, true).value), LitPrefix(ParseFrom(rs, 0, true).value))
  {
    var re: seq<Piece>, prefix: seq<Rune> := [], [];
    var literal, segStart := true, true;
    var i := 0;
    ghost var ts: seq<Tok> := [];
    hide EmitAll, LitPrefix, TokAt;
    assert EmitAll([]) == [] && LitPrefix([]) == [] by { NothingYet(); }
    assert Before([], ParseFrom(rs, 0, true)) == ParseFrom(rs, 0, true) by { BeforeNothing(ParseFrom(rs, 0, true)); }
    while i < |rs|
      invariant i <= |rs| && ParseFrom(rs, 0, true) == Before(ts, ParseFrom(rs, i, segStart))
      invariant re == EmitAll(ts) && prefix == LitPrefix(ts) && literal == AllLit(ts)
      decreases |rs| - i
    {
      var x := Next(rs, i, segStart);
      if x.Err? {
        return Err(x.error);
      }
      var t := x.value.0;
      BeforeThen(ts, t, ParseFrom(rs, x.value.1, x.value.2));
      EmitMore(ts, t);
      PrefixMore(ts, t);
      AllLitMore(ts, t);
      re := re + [Emit(t)];
      if !t.Lit? {
        literal := false;
      } else if literal {
        prefix := prefix + [t.c];
      }
      i, segStart, ts := x.value.1, x.value.2, ts + [t];
    }
    assert ts + [] == ts;
    return Ok(Pattern(re, prefix));
  }

  lemma AllLitMore(ts: seq<Tok>, t: Tok)
    ensures AllLit(ts + [t]) <==> AllLit(ts) && t.Lit?
  {
    var all := ts + [t];
    assert all[|ts|] == t;
    assert forall i :: 0 <= i < |ts| ==> all[i] == ts[i];
  }

  lemma NothingYet()
    ensures EmitAll([]) == [] && LitPrefix([]) == []
  {
  }

  lemma BeforeNothing(r: Result<seq<Tok>>)
    ensures Before([], r) == r
  {
    if r.Ok? { assert [] + r.value == r.value; }
  }

  /** One round of the loop: the switch on the character. */
  method Next(rs: seq<Rune>, i: nat, segStart: bool) returns (r: Result<(Tok, nat, bool)>)
    requires i < |rs|
    ensures r == TokAt(rs, i, segStart)
  {
    var c := rs[i];
    if c == BACKSLASH {
      if i + 1 >= |rs| {
        return Err(TrailingBackslash);
      }
      return Ok((Lit(rs[i + 1]), i + 2, rs[i + 1] == SLASH));
    } else if c == STAR {
      var double := i + 1 < |rs| && rs[i + 1] == STAR;
      if double && segStart && (i + 2 == |rs| || rs[i + 2] == SLASH) {
        if i + 2 == |rs| {
          return Ok((DeepEnd, i + 2, true));
        }
        return Ok((Deep, i + 3, true));
      }
      return Ok((Star, i + 1, false));
    } else if c == QUESTION {
      return Ok((Any, i + 1, false));
    } else if c == OPEN {
      var k := ParseClass(rs, i);
      if k.Err? {
        return Err(k.error);
      }
      return Ok((Cls(k.value.0), k.value.1, false));
    }
    return Ok((Lit(c), i + 1, c == SLASH));
  }

  /** Compile: what is refused, and for an accepted pattern the expression and the prefix.  The
      expression matches a name without newlines exactly when the pattern does segment by segment,
      and every name it matches starts with the prefix. */
  method Compile(rs: seq<Rune>) returns (r: Result<Pattern>)
    ensures r == Err(EmptyPattern) <==> rs == []
    ensures r == Err(TooLong) <==> rs != [] && Utf8Len(rs) > MAX_LEN
    ensures r == Err(ControlCharacter)
            <==> && rs != [] && Utf8Len(rs) <= MAX_LEN
                 && exists i :: 0 <= i < |rs| && (rs[i] < 0x20 || rs[i] == 0x7f)
    ensures rs != [] && Utf8Len(rs) <= MAX_LEN && !HasControl(rs) ==> (r.Ok? <==> ParseFrom(rs, 0, true).Ok?)
    ensures r.Ok? ==> ParseFrom(rs, 0, true).Ok?
    ensures r.Ok? ==>
              forall s :: (forall i :: 0 <= i < |s| ==> s[i] != NEWLINE) ==>
                (Matches(r.value.re, s) <==> GlobMatch(ParseFrom(rs, 0, true).value, s))
    ensures r.Ok? ==> forall s :: Matches(r.value.re, s) ==> r.value.prefix <= s
  {
    if rs == [] {
      return Err(EmptyPattern);
    }
    if Utf8Len(rs) > MAX_LEN {
      return Err(TooLong);
    }
    var i := 0;
    while i < |rs|
      invariant i <= |rs| && forall j :: 0 <= j < i ==> !(rs[j] < 0x20 || rs[j] == 0x7f)
    {
      if rs[i] < 0x20 || rs[i] == 0x7f {
        return Err(ControlCharacter);
      }
      i := i + 1;
    }
    hide ParseFrom, Matches, EmitAll, LitPrefix;
    r := Scan(rs);
    ParseErrors(rs, 0, true);
    if r.Ok? {
      var ts := ParseFrom(rs, 0, true).value;
      ParsedIsWellFormed(rs, 0, true);
      forall s | NoNewline(s)
        ensures Matches(r.value.re, s) <==> GlobMatch(ts, s)
      {
        ExpressionAgrees(ts, true, s);
      }
      forall s | Matches(r.value.re, s)
        ensures r.value.prefix <= s
      {
        MatchStartsWithPrefix(ts, s);
      }
    }
  }

  lemma {:induction false} ItemErrors(rs: seq<Rune>, i: nat)
    requires i <= |rs|
    ensures ItemsAt(rs, i).Err? ==> ItemsAt(rs, i).error !in {EmptyPattern, TooLong, ControlCharacter}
    decreases |rs| - i
  {
    if i < |rs| && rs[i] != CLOSE && ItemAt(rs, i).Ok? { ItemErrors(rs, ItemAt(rs, i).value.1); }
  }

  lemma {:induction false} ParseErrors(rs: seq<Rune>, i: nat, start: bool)
    requires i <= |rs|
    ensures ParseFrom(rs, i, start).Err? ==> ParseFrom(rs, i, start).error !in {EmptyPattern, TooLong, ControlCharacter}
    decreases |rs| - i
  {
    if i < |rs| {
      if rs[i] == OPEN { ItemErrors(rs, if Negates(rs, i + 1) then i + 2 else i + 1); }
      if TokAt(rs, i, start).Ok? { ParseErrors(rs, TokAt(rs, i, start).value.1, TokAt(rs, i, start).value.2); }
    }
  }
}
