/** How a glob is written (refglob/refglob.go): the texts the parser reads, each with the tokens it
    stands for, and the bytes a text takes. */
module GlobText {
  import opened Glob

  // ---- written patterns ----

  /** A character as itself or after a backslash. */
  datatype Char = Plain(c: Rune) | Escaped(c: Rune)

  datatype Member = One(only: Char) | Range(from: Char, to: Char)

  datatype Mark = Unmarked | Bang | Caret

  datatype Written =
    | Literal(k: Char)
    | AnyRun
    | AnyOne
    | Set(mark: Mark, members: seq<Member>)
    | DeepSlash
    | DeepLast

  function CharText(k: Char): (w: seq<Rune>)
    ensures w != []
  {
    match k
    case Plain(c) => [c]
    case Escaped(c) => [BACKSLASH, c]
  }

  function MemberText(m: Member): (w: seq<Rune>)
    ensures w != []
  {
    match m
    case One(k) => CharText(k)
    case Range(a, b) => CharText(a) + [DASH] + CharText(b)
  }

  function MembersText(ms: seq<Member>): (w: seq<Rune>)
    ensures w == [] <==> ms == []
  {
    if ms == [] then [] else MemberText(ms[0]) + MembersText(ms[1..])
  }

  function MarkText(m: Mark): (w: seq<Rune>)
  {
    match m
    case Unmarked => []
    case Bang => [BANG]
    case Caret => [CARET]
  }

  function WrittenText(w: Written): (t: seq<Rune>)
    ensures t != []
  {
    match w
    case Literal(k) => CharText(k)
    case AnyRun => [STAR]
    case AnyOne => [QUESTION]
    case Set(m, ms) => [OPEN] + MarkText(m) + MembersText(ms) + [CLOSE]
    case DeepSlash => [STAR, STAR, SLASH]
    case DeepLast => [STAR, STAR]
  }

  function Text(ws: seq<Written>): (t: seq<Rune>)
    ensures t == [] <==> ws == []
  {
    if ws == [] then [] else WrittenText(ws[0]) + Text(ws[1..])
  }

  // ---- what they stand for ----

  function MemberItem(m: Member): (it: Item)
  {
    match m
    case One(k) => Item(k.c, k.c)
    case Range(a, b) => Item(a.c, b.c)
  }

  function MemberItems(ms: seq<Member>): (items: seq<Item>)
  {
    seq(|ms|, i requires 0 <= i < |ms| => MemberItem(ms[i]))
  }

  function Token(w: Written): (t: Tok)
  {
    match w
    case Literal(k) => Lit(k.c)
    case AnyRun => Star
    case AnyOne => Any
    case Set(m, ms) => Cls(Class(m != Unmarked, MemberItems(ms)))
    case DeepSlash => Deep
    case DeepLast => DeepEnd
  }

  function Tokens(ws: seq<Written>): (ts: seq<Tok>)
  {
    seq(|ws|, i requires 0 <= i < |ws| => Token(ws[i]))
  }

  // ---- which of them are read as written ----

  predicate PlainOutside(k: Char) { k.Plain? ==> k.c !in {BACKSLASH, STAR, QUESTION, OPEN} }

  predicate PlainInside(k: Char) { k.Plain? ==> k.c != BACKSLASH }

  /** A dash after a character makes a range, unless it is the last of the class. */
  predicate MayFollow(ms: seq<Member>)
  {
    ms == [] || MemberText(ms[0])[0] != DASH || ms == [One(Plain(DASH))]
  }

  predicate ProperMember(m: Member, after: seq<Member>)
  {
    && MemberText(m)[0] != CLOSE
    && match m
       case One(k) => PlainInside(k) && MayFollow(after)
       case Range(a, b) => PlainInside(a) && PlainInside(b) && b != Plain(CLOSE) && a.c <= b.c
  }

  predicate ProperMembers(ms: seq<Member>)
  {
    forall i :: 0 <= i < |ms| ==> ProperMember(ms[i], ms[i + 1..])
  }

  /** Whether a segment starts after w. */
  predicate StartsAfter(w: Written) { w == DeepSlash || (w.Literal? && w.k.c == SLASH) }

  predicate Proper(w: Written, start: bool, after: seq<Written>)
  {
    match w
    case Literal(k) => PlainOutside(k)
    case AnyRun => start && after != [] && after[0] == AnyRun ==> |after| > 1 && after[1] != Literal(Plain(SLASH))
    case AnyOne => true
    case Set(m, ms) =>
      ms != [] && ProperMembers(ms) && (m == Unmarked ==> MemberText(ms[0])[0] !in {BANG, CARET})
    case DeepSlash => start
    case DeepLast => start && after == []
  }

  /** Written properly: the stars of "**" stand alone in their segment, and so on. */
  predicate AllProper(ws: seq<Written>, start: bool)
  {
    ws == [] || (Proper(ws[0], start, ws[1..]) && AllProper(ws[1..], StartsAfter(ws[0])))
  }

  // ---- written, then read ----

  /** w stands at i. */
  ghost predicate At(rs: seq<Rune>, i: nat, w: seq<Rune>)
  {
    i + |w| <= |rs| && forall j :: 0 <= j < |w| ==> rs[i + j] == w[j]
  }

  lemma Joined(rs: seq<Rune>, i: nat, a: seq<Rune>, b: seq<Rune>)
    ensures At(rs, i, a + b) <==> At(rs, i, a) && At(rs, i + |a|, b)
  {
    var w := a + b;
    if At(rs, i, w) {
      forall j | 0 <= j < |a| ensures rs[i + j] == a[j] { assert rs[i + j] == w[j]; }
      forall j | 0 <= j < |b| ensures rs[i + |a| + j] == b[j] { assert rs[i + (|a| + j)] == w[|a| + j]; }
    }
    if At(rs, i, a) && At(rs, i + |a|, b) {
      forall j | 0 <= j < |w|
        ensures rs[i + j] == w[j]
      {
        if j >= |a| { assert rs[i + |a| + (j - |a|)] == b[j - |a|]; }
      }
    }
  }

  lemma Regroup(a: seq<Rune>, b: seq<Rune>, c: seq<Rune>)
    ensures (a + b) + c == a + (b + c)
  {
  }

  lemma First(rs: seq<Rune>, i: nat, w: seq<Rune>)
    requires At(rs, i, w) && w != []
    ensures i < |rs| && rs[i] == w[0]
  {
    assert rs[i + 0] == w[0];
  }

  lemma CharRead(rs: seq<Rune>, i: nat, k: Char)
    requires At(rs, i, CharText(k)) && PlainInside(k)
    ensures i < |rs| && ClassRune(rs, i) == Ok((k.c, i + |CharText(k)|))
  {
    First(rs, i, CharText(k));
    if k.Escaped? { assert rs[i + 1] == CharText(k)[1]; }
  }

  lemma RangeRead(rs: seq<Rune>, i: nat, a: Char, b: Char)
    requires At(rs, i, CharText(a) + [DASH] + CharText(b))
    requires PlainInside(a) && PlainInside(b) && b != Plain(CLOSE) && a.c <= b.c
    ensures i < |rs| && ItemAt(rs, i) == Ok((Item(a.c, b.c), i + |CharText(a)| + 1 + |CharText(b)|))
  {
    Joined(rs, i, CharText(a) + [DASH], CharText(b));
    Joined(rs, i, CharText(a), [DASH]);
    hide At;
    var j := i + |CharText(a)|;
    CharRead(rs, i, a);
    First(rs, j, [DASH]);
    CharRead(rs, j + 1, b);
    First(rs, j + 1, CharText(b));
  }

  /** What may follow a character does not begin a range. */
  lemma NoRange(rs: seq<Rune>, j: nat, after: seq<Member>)
    requires At(rs, j, MembersText(after) + [CLOSE]) && MayFollow(after)
    ensures !IsRange(rs, j)
  {
    var t := MembersText(after) + [CLOSE];
    First(rs, j, t);
    if after == [One(Plain(DASH))] {
      assert MembersText(after) == [DASH] + MembersText([]);
      assert rs[j + 1] == t[1];
    }
  }

  lemma OneRead(rs: seq<Rune>, i: nat, k: Char, after: seq<Member>)
    requires At(rs, i, CharText(k)) && At(rs, i + |CharText(k)|, MembersText(after) + [CLOSE])
    requires PlainInside(k) && MayFollow(after)
    ensures i < |rs| && ItemAt(rs, i) == Ok((Item(k.c, k.c), i + |CharText(k)|))
  {
    hide At, MembersText, MayFollow, CharText;
    NoRange(rs, i + |CharText(k)|, after);
    CharRead(rs, i, k);
  }

  lemma MemberRead(rs: seq<Rune>, i: nat, m: Member, after: seq<Member>)
    requires At(rs, i, MemberText(m)) && At(rs, i + |MemberText(m)|, MembersText(after) + [CLOSE])
    requires ProperMember(m, after)
    ensures i < |rs| && rs[i] != CLOSE && ItemAt(rs, i) == Ok((MemberItem(m), i + |MemberText(m)|))
  {
    First(rs, i, MemberText(m));
    hide At, MembersText, MayFollow, CharText, ItemAt;
    match m
    case One(k) => OneRead(rs, i, k, after);
    case Range(a, b) =>
      RangeRead(rs, i, a, b);
  }

  lemma MembersSplit(ms: seq<Member>)
    requires ms != []
    ensures MembersText(ms) == MemberText(ms[0]) + MembersText(ms[1..])
  {
  }

  lemma AfterMember(rs: seq<Rune>, i: nat, ms: seq<Member>)
    requires ms != []
    ensures At(rs, i, MembersText(ms) + [CLOSE]) <==>
      At(rs, i, MemberText(ms[0])) && At(rs, i + |MemberText(ms[0])|, MembersText(ms[1..]) + [CLOSE])
    ensures |MembersText(ms)| == |MemberText(ms[0])| + |MembersText(ms[1..])|
  {
    hide At, MemberText, MembersText;
    var x, y := MemberText(ms[0]), MembersText(ms[1..]);
    MembersSplit(ms);
    Regroup(x, y, [CLOSE]);
    Joined(rs, i, x, y + [CLOSE]);
  }

  lemma ItemsOf(ms: seq<Member>)
    requires ms != []
    ensures MemberItems(ms) == [MemberItem(ms[0])] + MemberItems(ms[1..])
  {
  }

  lemma {:induction false} MembersRead(rs: seq<Rune>, i: nat, ms: seq<Member>)
    requires At(rs, i, MembersText(ms) + [CLOSE]) && ProperMembers(ms)
    ensures i <= |rs| && ItemsAt(rs, i) == Ok((MemberItems(ms), i + |MembersText(ms)|))
    decreases |ms|
  {
    hide At, ItemAt, MemberText, MemberItem, ProperMember, ProperMembers;
    if ms == [] {
      First(rs, i, MembersText(ms) + [CLOSE]);
      assert MemberItems(ms) == [];
    } else {
      hide MemberItems;
      var x := MemberText(ms[0]);
      AfterMember(rs, i, ms);
      ProperRest(ms);
      MemberRead(rs, i, ms[0], ms[1..]);
      MembersRead(rs, i + |x|, ms[1..]);
      ItemsOf(ms);
    }
  }

  lemma ProperRest(ms: seq<Member>)
    requires ms != []
    ensures ProperMembers(ms) <==> ProperMember(ms[0], ms[1..]) && ProperMembers(ms[1..])
  {
    hide ProperMember;
    var tail := ms[1..];
    forall i | 0 <= i < |tail|
      ensures tail[i] == ms[i + 1] && tail[i + 1..] == ms[i + 2..]
    {
    }
    if ProperMember(ms[0], ms[1..]) && ProperMembers(tail) {
      forall i | 0 <= i < |ms|
        ensures ProperMember(ms[i], ms[i + 1..])
      {
        if i > 0 { assert ProperMember(tail[i - 1], tail[i - 1 + 1..]); }
      }
    }
    if ProperMembers(ms) {
      forall i | 0 <= i < |tail|
        ensures ProperMember(tail[i], tail[i + 1..])
      {
        assert ProperMember(ms[i + 1], ms[i + 1 + 1..]);
      }
      assert ProperMember(ms[0], ms[0 + 1..]);
    }
  }

  /** The text of a class in three parts. */
  lemma SetParts(rs: seq<Rune>, i: nat, mark: Mark, ms: seq<Member>)
    ensures At(rs, i, WrittenText(Set(mark, ms))) <==>
      && At(rs, i, [OPEN]) && At(rs, i + 1, MarkText(mark))
      && At(rs, i + 1 + |MarkText(mark)|, MembersText(ms) + [CLOSE])
  {
    hide At, MembersText, MarkText;
    var m, t := MarkText(mark), MembersText(ms);
    Regroup([OPEN] + m, t, [CLOSE]);
    Joined(rs, i, [OPEN] + m, t + [CLOSE]);
    Joined(rs, i, [OPEN], m);
  }

  lemma SetRead(rs: seq<Rune>, i: nat, mark: Mark, ms: seq<Member>)
    requires At(rs, i, WrittenText(Set(mark, ms))) && Proper(Set(mark, ms), false, [])
    ensures i < |rs| && rs[i] == OPEN
    ensures ClassAt(rs, i) == Ok((Class(mark != Unmarked, MemberItems(ms)), i + |WrittenText(Set(mark, ms))|))
  {
    hide At, ItemsAt, ProperMembers, MemberText;
    SetParts(rs, i, mark, ms);
    First(rs, i, [OPEN]);
    var j := i + 1 + |MarkText(mark)|;
    var t := MembersText(ms) + [CLOSE];
    First(rs, j, t);
    assert t[0] == MemberText(ms[0])[0];
    if mark != Unmarked { First(rs, i + 1, MarkText(mark)); }
    MembersRead(rs, j, ms);
    assert |MemberItems(ms)| == |ms|;
  }

  lemma FirstOf(w: Written, start: bool, after: seq<Written>)
    requires Proper(w, start, after)
    ensures WrittenText(w)[0] == STAR <==> w == AnyRun || w == DeepSlash || w == DeepLast
    ensures WrittenText(w)[0] == SLASH <==> w == Literal(Plain(SLASH))
  {
  }

  /** Where the text of ws ends the pattern, its first character says what is first. */
  lemma FirstWritten(rs: seq<Rune>, i: nat, ws: seq<Written>, start: bool)
    requires At(rs, i, Text(ws)) && i + |Text(ws)| == |rs| && AllProper(ws, start)
    ensures ws == [] <==> i == |rs|
    ensures ws != [] ==> (rs[i] == STAR <==> ws[0] == AnyRun || ws[0] == DeepSlash || ws[0] == DeepLast)
    ensures ws != [] ==> (rs[i] == SLASH <==> ws[0] == Literal(Plain(SLASH)))
  {
    if ws != [] {
      First(rs, i, Text(ws));
      FirstOf(ws[0], start, ws[1..]);
      hide Proper, WrittenText, AllProper;
      assert Text(ws)[0] == WrittenText(ws[0])[0];
    }
  }

  lemma AfterFirst(rs: seq<Rune>, i: nat, ws: seq<Written>)
    requires At(rs, i, Text(ws)) && i + |Text(ws)| == |rs| && ws != []
    ensures var j := i + |WrittenText(ws[0])|;
      At(rs, i, WrittenText(ws[0])) && At(rs, j, Text(ws[1..])) && j + |Text(ws[1..])| == |rs|
  {
    Joined(rs, i, WrittenText(ws[0]), Text(ws[1..]));
  }

  /** A star that is not half of a whole "**". */
  lemma StarRead(rs: seq<Rune>, i: nat, start: bool, after: seq<Written>)
    requires i < |rs| && At(rs, i + 1, Text(after)) && i + 1 + |Text(after)| == |rs|
    requires Proper(AnyRun, start, after) && AllProper(after, false)
    ensures !WholeSegment(rs, i, start)
  {
    hide At, Text;
    FirstWritten(rs, i + 1, after, false);
    if after != [] && after[0] == AnyRun && start {
      AfterFirst(rs, i + 1, after);
      FirstWritten(rs, i + 2, after[1..], false);
    }
  }

  lemma LiteralRead(rs: seq<Rune>, i: nat, k: Char, start: bool)
    requires At(rs, i, CharText(k)) && PlainOutside(k)
    ensures i < |rs| && TokAt(rs, i, start) == Ok((Lit(k.c), i + |CharText(k)|, k.c == SLASH))
  {
    hide ClassAt;
    First(rs, i, CharText(k));
    if k.Escaped? { assert rs[i + 1] == CharText(k)[1]; }
  }

  lemma DeepRead(rs: seq<Rune>, i: nat)
    ensures At(rs, i, [STAR, STAR, SLASH]) ==> i < |rs| && TokAt(rs, i, true) == Ok((Deep, i + 3, true))
    ensures At(rs, i, [STAR, STAR]) && i + 2 == |rs| ==> TokAt(rs, i, true) == Ok((DeepEnd, i + 2, true))
  {
    hide ClassAt;
    var deep, last := [STAR, STAR, SLASH], [STAR, STAR];
    if At(rs, i, deep) {
      assert rs[i + 0] == deep[0] && rs[i + 1] == deep[1] && rs[i + 2] == deep[2];
    }
    if At(rs, i, last) {
      assert rs[i + 0] == last[0] && rs[i + 1] == last[1];
    }
  }

  lemma WrittenRead(rs: seq<Rune>, i: nat, w: Written, start: bool, after: seq<Written>)
    requires At(rs, i, WrittenText(w)) && At(rs, i + |WrittenText(w)|, Text(after))
    requires i + |WrittenText(w)| + |Text(after)| == |rs|
    requires Proper(w, start, after) && AllProper(after, StartsAfter(w))
    ensures i < |rs| && TokAt(rs, i, start).Ok? && TokAt(rs, i, start).value.0 == Token(w)
    ensures TokAt(rs, i, start).value.1 == i + |WrittenText(w)|
    ensures after != [] ==> TokAt(rs, i, start).value.2 == StartsAfter(w)
  {
    First(rs, i, WrittenText(w));
    hide ClassAt, At, AllProper, CharText, Text, MembersText, ProperMembers, MemberItems;
    match w
    case Set(mark, ms) => SetRead(rs, i, mark, ms);
    case AnyRun => StarRead(rs, i, start, after);
    case Literal(k) => LiteralRead(rs, i, k, start);
    case AnyOne =>
    case DeepSlash => DeepRead(rs, i);
    case DeepLast => DeepRead(rs, i);
  }

  /** Every properly written pattern is read as the tokens it stands for. */
  lemma {:induction false} TextReads(rs: seq<Rune>, i: nat, ws: seq<Written>, start: bool)
    requires At(rs, i, Text(ws)) && i + |Text(ws)| == |rs| && AllProper(ws, start)
    ensures ParseFrom(rs, i, start) == Ok(Tokens(ws))
    decreases |ws|
  {
    hide TokAt, At, WrittenText, Proper, Token, StartsAfter;
    if ws == [] {
      assert Tokens(ws) == [];
    } else {
      AfterFirst(rs, i, ws);
      WrittenRead(rs, i, ws[0], start, ws[1..]);
      var x := TokAt(rs, i, start).value;
      if ws[1..] != [] {
        TextReads(rs, x.1, ws[1..], x.2);
      } else {
        assert x.1 == |rs| && Tokens(ws[1..]) == [];
      }
      assert Tokens(ws) == [Token(ws[0])] + Tokens(ws[1..]);
    }
  }

  // ---- read, then written again ----

  lemma ReadChar(rs: seq<Rune>, i: nat) returns (k: Char)
    requires i < |rs| && ClassRune(rs, i).Ok?
    ensures PlainInside(k) && ClassRune(rs, i) == Ok((k.c, i + |CharText(k)|))
    ensures At(rs, i, CharText(k)) && CharText(k)[0] == rs[i]
  {
    k := if rs[i] == BACKSLASH then Escaped(rs[i + 1]) else Plain(rs[i]);
  }

  /** Members that begin with a dash, if it is the last character of the class. */
  lemma DashIsLast(ms: seq<Member>)
    requires ProperMembers(ms) && ms != [] && MembersText(ms)[0] == DASH && (MembersText(ms) + [CLOSE])[1] == CLOSE
    ensures ms == [One(Plain(DASH))]
  {
    ProperRest(ms);
  }

  lemma NotARange(rs: seq<Rune>, p: nat, more: seq<Member>)
    requires ProperMembers(more) && At(rs, p, MembersText(more) + [CLOSE]) && !IsRange(rs, p)
    ensures MayFollow(more)
  {
    if more != [] && MemberText(more[0])[0] == DASH {
      var t := MembersText(more) + [CLOSE];
      First(rs, p, t);
      assert t[0] == MemberText(more[0])[0];
      assert rs[p + 1] == t[1];
      DashIsLast(more);
    }
  }

  lemma ReadRange(rs: seq<Rune>, i: nat, a: Char) returns (b: Char)
    requires i < |rs| && ItemAt(rs, i).Ok? && PlainInside(a) && At(rs, i, CharText(a))
    requires ClassRune(rs, i) == Ok((a.c, i + |CharText(a)|)) && IsRange(rs, i + |CharText(a)|)
    ensures PlainInside(b) && b != Plain(CLOSE) && a.c <= b.c
    ensures ItemAt(rs, i) == Ok((Item(a.c, b.c), i + |CharText(a)| + 1 + |CharText(b)|))
    ensures At(rs, i, CharText(a) + [DASH] + CharText(b))
  {
    var p := i + |CharText(a)|;
    b := ReadChar(rs, p + 1);
    assert At(rs, p, [DASH]);
    hide At;
    Joined(rs, i, CharText(a), [DASH]);
    Joined(rs, i, CharText(a) + [DASH], CharText(b));
  }

  lemma ReadMember(rs: seq<Rune>, i: nat, more: seq<Member>) returns (m: Member)
    requires i < |rs| && rs[i] != CLOSE && ItemAt(rs, i).Ok?
    requires ProperMembers(more) && At(rs, ItemAt(rs, i).value.1, MembersText(more) + [CLOSE])
    ensures ProperMember(m, more) && ItemAt(rs, i) == Ok((MemberItem(m), i + |MemberText(m)|))
    ensures At(rs, i, MemberText(m))
  {
    hide ProperMembers, MembersText, MayFollow, At;
    var a := ReadChar(rs, i);
    var p := i + |CharText(a)|;
    if IsRange(rs, p) {
      var b := ReadRange(rs, i, a);
      m := Range(a, b);
    } else {
      NotARange(rs, p, more);
      m := One(a);
    }
  }

  lemma NoMembers(rs: seq<Rune>, i: nat)
    requires i < |rs| && rs[i] == CLOSE
    ensures ProperMembers([]) && At(rs, i, MembersText([]) + [CLOSE]) && MemberItems([]) == []
  {
  }

  lemma {:induction false} ReadMembers(rs: seq<Rune>, i: nat) returns (ms: seq<Member>)
    requires i <= |rs| && ItemsAt(rs, i).Ok?
    ensures ProperMembers(ms) && At(rs, i, MembersText(ms) + [CLOSE])
    ensures ItemsAt(rs, i) == Ok((MemberItems(ms), i + |MembersText(ms)|))
    decreases |rs| - i
  {
    hide At, ItemAt, ProperMember, ProperMembers, MemberText, MemberItem;
    if rs[i] == CLOSE {
      ms := [];
      NoMembers(rs, i);
    } else {
      var x := ItemAt(rs, i).value;
      var more := ReadMembers(rs, x.1);
      var m := ReadMember(rs, i, more);
      ms := [m] + more;
      assert ms[1..] == more;
      ProperRest(ms);
      AfterMember(rs, i, ms);
      ItemsOf(ms);
    }
  }

  lemma ReadSet(rs: seq<Rune>, i: nat) returns (w: Written)
    requires i < |rs| && rs[i] == OPEN && ClassAt(rs, i).Ok?
    ensures w.Set? && Proper(w, false, []) && At(rs, i, WrittenText(w))
    ensures ClassAt(rs, i).value.1 == i + |WrittenText(w)| && Token(w) == Cls(ClassAt(rs, i).value.0)
  {
    hide ItemsAt, ProperMembers, MemberText;
    var mark := if !Negates(rs, i + 1) then Unmarked else if rs[i + 1] == BANG then Bang else Caret;
    var j := i + 1 + |MarkText(mark)|;
    assert At(rs, i, [OPEN]) && At(rs, i + 1, MarkText(mark));
    hide At;
    var ms := ReadMembers(rs, j);
    w := Set(mark, ms);
    assert |MemberItems(ms)| == |ms|;
    var t := MembersText(ms) + [CLOSE];
    First(rs, j, t);
    assert t[0] == MemberText(ms[0])[0];
    SetParts(rs, i, mark, ms);
  }

  lemma TextFirst(ws: seq<Written>)
    requires ws != []
    ensures Text(ws) != [] && Text(ws)[0] == WrittenText(ws[0])[0]
  {
  }

  lemma LoneStar(rs: seq<Rune>, i: nat, start: bool, more: seq<Written>)
    requires i < |rs| && rs[i] == STAR && !WholeSegment(rs, i, start)
    requires At(rs, i + 1, Text(more)) && i + 1 + |Text(more)| == |rs|
    ensures Proper(AnyRun, start, more)
  {
    hide At;
    if start && more != [] && more[0] == AnyRun {
      First(rs, i + 1, Text(more));
      AfterFirst(rs, i + 1, more);
      TextFirst(more);
      if |more| > 1 {
        First(rs, i + 2, Text(more[1..]));
        TextFirst(more[1..]);
      }
      hide Text;
    }
  }

  lemma StarsStand(rs: seq<Rune>, i: nat)
    requires i < |rs| && rs[i] == STAR
    ensures At(rs, i, [STAR])
    ensures i + 1 < |rs| && rs[i + 1] == STAR ==> At(rs, i, [STAR, STAR])
    ensures i + 2 < |rs| && rs[i + 1] == STAR && rs[i + 2] == SLASH ==> At(rs, i, [STAR, STAR, SLASH])
  {
  }

  lemma ReadStar(rs: seq<Rune>, i: nat, start: bool, more: seq<Written>) returns (w: Written)
    requires i < |rs| && rs[i] == STAR && TokAt(rs, i, start).Ok?
    requires var j := TokAt(rs, i, start).value.1; At(rs, j, Text(more)) && j + |Text(more)| == |rs|
    ensures Token(w) == TokAt(rs, i, start).value.0 && Proper(w, start, more)
    ensures At(rs, i, WrittenText(w)) && TokAt(rs, i, start).value.1 == i + |WrittenText(w)|
    ensures more != [] ==> StartsAfter(w) == TokAt(rs, i, start).value.2
  {
    hide ClassAt, At, Text;
    if WholeSegment(rs, i, start) {
      w := if i + 2 == |rs| then DeepLast else DeepSlash;
      StarsStand(rs, i);
    } else {
      w := AnyRun;
      LoneStar(rs, i, start, more);
      StarsStand(rs, i);
    }
  }

  lemma ReadPlain(rs: seq<Rune>, i: nat, start: bool) returns (w: Written)
    requires i < |rs| && rs[i] != STAR && rs[i] != OPEN && TokAt(rs, i, start).Ok?
    ensures TokAt(rs, i, start) == Ok((Token(w), i + |WrittenText(w)|, StartsAfter(w)))
    ensures At(rs, i, WrittenText(w)) && forall more :: Proper(w, start, more)
  {
    w := if rs[i] == BACKSLASH then Literal(Escaped(rs[i + 1])) else if rs[i] == QUESTION then AnyOne else Literal(Plain(rs[i]));
  }

  lemma ReadWritten(rs: seq<Rune>, i: nat, start: bool, more: seq<Written>) returns (w: Written)
    requires i < |rs| && TokAt(rs, i, start).Ok?
    requires var j := TokAt(rs, i, start).value.1; At(rs, j, Text(more)) && j + |Text(more)| == |rs|
    ensures Token(w) == TokAt(rs, i, start).value.0 && Proper(w, start, more)
    ensures At(rs, i, WrittenText(w)) && TokAt(rs, i, start).value.1 == i + |WrittenText(w)|
    ensures more != [] ==> StartsAfter(w) == TokAt(rs, i, start).value.2
  {
    hide At, ClassAt, Text;
    if rs[i] == STAR {
      w := ReadStar(rs, i, start, more);
    } else if rs[i] == OPEN {
      w := ReadSet(rs, i);
    } else {
      w := ReadPlain(rs, i, start);
    }
  }

  lemma {:induction false} ReadText(rs: seq<Rune>, i: nat, start: bool) returns (ws: seq<Written>)
    requires i <= |rs| && ParseFrom(rs, i, start).Ok?
    ensures At(rs, i, Text(ws)) && i + |Text(ws)| == |rs|
    ensures AllProper(ws, start) && Tokens(ws) == ParseFrom(rs, i, start).value
    decreases |rs| - i
  {
    hide TokAt, Proper, WrittenText, Token, StartsAfter;
    if i == |rs| {
      ws := [];
    } else {
      hide At;
      var x := TokAt(rs, i, start).value;
      var more := ReadText(rs, x.1, x.2);
      var w := ReadWritten(rs, i, start, more);
      ws := [w] + more;
      assert ws[1..] == more;
      Joined(rs, i, WrittenText(w), Text(more));
      assert Tokens(ws) == [Token(w)] + Tokens(more);
    }
  }

  /** What the parser reads: a text has a meaning exactly when it is properly written, and then the
      meaning of what was written. */
  lemma ReadsWhatIsWritten(rs: seq<Rune>, ts: seq<Tok>)
    ensures ParseFrom(rs, 0, true) == Ok(ts)
            <==> exists ws :: AllProper(ws, true) && Text(ws) == rs && Tokens(ws) == ts
  {
    if ParseFrom(rs, 0, true) == Ok(ts) {
      var ws := ReadText(rs, 0, true);
      WholeText(rs, Text(ws));
    }
    forall ws | AllProper(ws, true) && Text(ws) == rs && Tokens(ws) == ts
      ensures ParseFrom(rs, 0, true) == Ok(ts)
    {
      WholeText(rs, Text(ws));
      TextReads(rs, 0, ws, true);
    }
  }

  lemma WholeText(rs: seq<Rune>, w: seq<Rune>)
    ensures At(rs, 0, w) && |w| == |rs| <==> w == rs
  {
    if At(rs, 0, w) && |w| == |rs| {
      forall j | 0 <= j < |rs| ensures w[j] == rs[j] { assert rs[0 + j] == w[j]; }
    }
  }

  // ---- bytes ----

  /** The bytes of a code point in UTF-8 (section 3 of RFC 3629). */
  function Utf8(c: Rune): (b: seq<nat>)
    requires c < 0x11_0000
  {
    if c < 0x80 then [c]
    else if c < 0x800 then [0xc0 + c / 64, 0x80 + c % 64]
    else if c < 0x1_0000 then [0xe0 + c / 4096, 0x80 + c / 64 % 64, 0x80 + c % 64]
    else [0xf0 + c / 262144, 0x80 + c / 4096 % 64, 0x80 + c / 64 % 64, 0x80 + c % 64]
  }

  /** The byte length Compile limits is that of the shortest such form: the first byte tells how many
      there are, the bits of all of them give the code point, and no shorter form has room for it. */
  lemma Utf8IsShortest(c: Rune, rest: seq<Rune>)
    requires c < 0x11_0000
    ensures Utf8Len([]) == 0 && Utf8Len([c] + rest) == |Utf8(c)| + Utf8Len(rest)
    ensures var b := Utf8(c);
            match |b|
            case 1 => b[0] == c < 0x80
            case 2 => 0xc0 <= b[0] < 0xe0 && (b[0] - 0xc0) * 64 + (b[1] - 0x80) == c >= 0x80
            case 3 => 0xe0 <= b[0] < 0xf0 && (b[0] - 0xe0) * 4096 + (b[1] - 0x80) * 64 + (b[2] - 0x80) == c >= 0x800
            case _ =>
              && |b| == 4 && 0xf0 <= b[0] < 0xf8 && c >= 0x1_0000
              && (b[0] - 0xf0) * 262144 + (b[1] - 0x80) * 4096 + (b[2] - 0x80) * 64 + (b[3] - 0x80) == c
    ensures forall i :: 1 <= i < |Utf8(c)| ==> 0x80 <= Utf8(c)[i] < 0xc0
  {
    assert ([c] + rest)[1..] == rest;
    assert c / 4096 == c / 64 / 64 && c / 262144 == c / 4096 / 64;
  }
}
