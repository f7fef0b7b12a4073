/** Paged majority scans: one acceptor's page (paxos/acceptor.go scan), the merge of a
    round of pages (paxos/proposer.go Scan), and the loop that walks every page
    (catalog/catalog.go RefsSnapshot). */
module Scan {
  import opened Options
  import opened Slots
  import B = Ballots

  type Reg = seq<B.Byte>

  predicate Lt(a: Reg, b: Reg) { B.LexCompare(a, b) < 0 }

  predicate Above(after: Option<Reg>, reg: Reg) { after.None? || Lt(after.value, reg) }

  predicate UpTo(cut: Option<Reg>, reg: Reg) { cut.None? || !Lt(cut.value, reg) }

  lemma Order(a: Reg, b: Reg, c: Reg)
    ensures !Lt(a, a)
    ensures Lt(a, b) && Lt(b, c) ==> Lt(a, c)
    ensures !Lt(b, a) && Lt(b, c) ==> Lt(a, c)
    ensures Lt(a, b) && !Lt(c, b) ==> Lt(a, c)
    ensures Lt(a, b) || a == b || Lt(b, a)
    ensures Lt(a, b) ==> !Lt(b, a)
  {
    B.LexZeroIsEqual(a, a);
    B.LexZeroIsEqual(a, b);
    B.LexFlip(a, b);
    B.LexFlip(b, c);
    B.LexFlip(a, c);
    if B.LexCompare(a, b) <= 0 && B.LexCompare(b, c) <= 0 {
      B.LexTransitive(a, b, c);
    }
  }

  datatype ScanRow = ScanRow(reg: Reg, row: Row)

  ghost predicate Sorted(rows: seq<ScanRow>)
  {
    forall i, j :: 0 <= i < j < |rows| ==> Lt(rows[i].reg, rows[j].reg)
  }

  predicate Has(rows: seq<ScanRow>, reg: Reg)
  {
    exists i :: 0 <= i < |rows| && rows[i].reg == reg
  }

  /** The end of a scan: four bytes of all ones behind the prefix. */
  const LAST: Reg := [255, 255, 255, 255]

  function Upper(prefix: Reg): (r: Reg) { if prefix == [] then [255] else prefix + LAST }

  /** Where a scan starts: behind the cursor, or at the prefix when there is none. */
  predicate Starts(prefix: Reg, after: Option<Reg>, reg: Reg)
  {
    if after.Some? then Lt(after.value, reg) else !Lt(reg, prefix)
  }

  predicate InRange(prefix: Reg, after: Option<Reg>, reg: Reg)
  {
    Starts(prefix, after, reg) && Lt(reg, Upper(prefix))
  }

  lemma {:induction false} BetweenIsPrefix(p: Reg, reg: Reg)
    requires !Lt(reg, p) && Lt(reg, p + LAST)
    ensures p <= reg
  {
    if p != [] {
      assert (p + LAST)[1..] == p[1..] + LAST;
      BetweenIsPrefix(p[1..], reg[1..]);
      assert p == [p[0]] + p[1..] && reg == [reg[0]] + reg[1..];
    }
  }

  /** A scan that starts inside the prefix is over the names with the prefix, but for those
      that go on with four bytes of all ones. */
  lemma RangeIsPrefix(prefix: Reg, after: Option<Reg>, reg: Reg)
    requires prefix != [] && (after.Some? ==> !Lt(after.value + [0], prefix))
    ensures InRange(prefix, after, reg) <==> prefix <= reg && Lt(reg[|prefix|..], LAST) && Above(after, reg)
  {
    if after.Some? && Lt(after.value, reg) {
      NextAbove(after.value, reg);
      Order(after.value + [0], reg, prefix);
    }
    if prefix <= reg {
      var tail := reg[|prefix|..];
      assert reg == prefix + tail;
      B.LexPrefix(prefix, tail, LAST);
      B.LexPrefix(prefix, tail, []);
      assert prefix + [] == prefix;
    } else if !Lt(reg, prefix) && Lt(reg, prefix + LAST) {
      BetweenIsPrefix(prefix, reg);
    }
  }

  /** A scan without a prefix is over all names above the cursor, but for those that begin with a
      byte of all ones. */
  lemma RangeOfAll(after: Option<Reg>, reg: Reg)
    ensures InRange([], after, reg) <==> Above(after, reg) && (reg == [] || reg[0] < 255)
  {
    if reg != [] && reg[0] == 255 {
      assert [255][1..] == [];
      assert B.LexCompare(reg, [255]) == B.LexCompare(reg[1..], []);
    }
  }

  /** Nothing lies between a name and the name with a zero byte behind it. */
  lemma {:induction false} NextAbove(a: Reg, b: Reg)
    ensures Lt(a, b) <==> !Lt(b, a + [0])
  {
    if a == [] {
      var z: Reg := a + [0];
      assert |z| == 1 && z[0] == 0 && z[1..] == [];
      assert b != [] && b[0] == 0 ==> B.LexCompare(b, z) == B.LexCompare(b[1..], []);
    } else if b != [] && a[0] == b[0] {
      assert (a + [0])[1..] == a[1..] + [0];
      NextAbove(a[1..], b[1..]);
    }
  }

  /** The cursor takes the place of the prefix: a listing names only what has the prefix exactly
      when no name lies between the cursor and the prefix. */
  lemma OnlyPrefixIff(prefix: Reg, after: Option<Reg>)
    requires prefix != []
    ensures (forall reg :: InRange(prefix, after, reg) ==> prefix <= reg) <==> (after.Some? ==> !Lt(after.value + [0], prefix))
  {
    if after.Some? && Lt(after.value + [0], prefix) {
      var reg := after.value + [0];
      NextAbove(after.value, reg);
      Order(reg, reg, reg);
      BelowUpper(prefix);
      Order(reg, prefix, Upper(prefix));
      assert InRange(prefix, after, reg);
      if prefix <= reg { PrefixNotBelow(prefix, reg); }
    } else {
      forall reg | InRange(prefix, after, reg) ensures prefix <= reg {
        RangeIsPrefix(prefix, after, reg);
      }
    }
  }

  lemma BelowUpper(prefix: Reg)
    requires prefix != []
    ensures Lt(prefix, Upper(prefix))
  {
    B.LexPrefix(prefix, [], LAST);
    assert prefix + [] == prefix;
  }

  lemma PrefixNotBelow(prefix: Reg, reg: Reg)
    requires prefix <= reg
    ensures !Lt(reg, prefix)
  {
    var tail := reg[|prefix|..];
    assert reg == prefix + tail && prefix == prefix + [];
    B.LexPrefix(prefix, tail, []);
  }

  datatype Page = Page(rows: seq<ScanRow>, more: bool, next: Option<Reg>)

  /** page holds, in order, the rows of db in the range: all of them, or all up to next. */
  ghost predicate PageOf(db: seq<ScanRow>, prefix: Reg, after: Option<Reg>, page: Page)
  {
    && Sorted(page.rows)
    && (forall r :: r in page.rows ==> r in db && InRange(prefix, after, r.reg))
    && (page.more ==> page.next.Some? && InRange(prefix, after, page.next.value) && Has(db, page.next.value))
    && (forall r :: r in db && InRange(prefix, after, r.reg) && (page.more ==> !Lt(page.next.value, r.reg)) ==> r in page.rows)
  }

  const MAX_ROWS := 100000

  function RowLimit(limit: int): (n: nat) { if limit <= 0 || limit > MAX_ROWS then MAX_ROWS else limit }

  lemma StartsOn(prefix: Reg, after: Option<Reg>, a: Reg, b: Reg)
    requires Starts(prefix, after, a) && Lt(a, b)
    ensures Starts(prefix, after, b)
  {
    if after.Some? {
      Order(after.value, a, b);
    } else {
      Order(prefix, a, b);
      Order(b, prefix, a);
      Order(a, b, prefix);
    }
  }

  /** The first row at or behind the start. */
  method Seek(db: seq<ScanRow>, prefix: Reg, after: Option<Reg>) returns (first: nat)
    requires Sorted(db)
    ensures first <= |db| && forall j :: 0 <= j < |db| ==> (Starts(prefix, after, db[j].reg) <==> first <= j)
  {
    first := 0;
    while first < |db| && !Starts(prefix, after, db[first].reg)
      invariant first <= |db|
      invariant forall j :: 0 <= j < first ==> !Starts(prefix, after, db[j].reg)
    {
      first := first + 1;
    }
    forall j | first <= j < |db| ensures Starts(prefix, after, db[j].reg) {
      if j > first {
        StartsOn(prefix, after, db[first].reg, db[j].reg);
      }
    }
  }

  ghost function SizeOf(rows: seq<ScanRow>, sizeOf: ScanRow -> nat): nat
  {
    if rows == [] then 0 else SizeOf(rows[..|rows| - 1], sizeOf) + sizeOf(rows[|rows| - 1])
  }

  /** One acceptor's page: the rows of the range until the row limit or the byte limit. */
  method AcceptorPage(db: seq<ScanRow>, prefix: Reg, after: Option<Reg>, limit: int, maxBytes: nat, sizeOf: ScanRow -> nat)
    returns (page: Page)
    requires Sorted(db) && maxBytes > 0
    ensures PageOf(db, prefix, after, page)
    ensures |page.rows| <= if 0 < limit <= 100000 then limit else 100000
    ensures page.more ==> |page.rows| == (if 0 < limit <= 100000 then limit else 100000) || SizeOf(page.rows, sizeOf) >= maxBytes
  {
    hide Lt, Starts, Upper;
    var most := RowLimit(limit);
    var first := Seek(db, prefix, after);
    var i := first;
    var size := 0;
    var more := false;
    while i < |db| && Lt(db[i].reg, Upper(prefix))
      invariant first <= i <= |db| && !more && i - first <= most
      invariant forall j :: first <= j < i ==> Lt(db[j].reg, Upper(prefix))
      invariant size == SizeOf(db[first..i], sizeOf)
    {
      if i - first >= most || size >= maxBytes {
        more := true;
        break;
      }
      size := size + sizeOf(db[i]);
      i := i + 1;
      assert db[first..i][..i - 1 - first] == db[first..i - 1];
    }
    page := Page(db[first..i], more, if i > first then Some(db[i - 1].reg) else None);
    PageMade(db, prefix, after, first, i, page);
  }

  /** The rows from the start up to i are a page of the range. */
  lemma PageMade(db: seq<ScanRow>, prefix: Reg, after: Option<Reg>, first: nat, i: nat, page: Page)
    requires Sorted(db) && first <= i <= |db|
    requires forall j :: 0 <= j < |db| ==> (Starts(prefix, after, db[j].reg) <==> first <= j)
    requires forall j :: first <= j < i ==> Lt(db[j].reg, Upper(prefix))
    requires page.rows == db[first..i] && page.next == if i > first then Some(db[i - 1].reg) else None
    requires if page.more then first < i else i < |db| ==> !Lt(db[i].reg, Upper(prefix))
    ensures PageOf(db, prefix, after, page)
  {
    hide Lt, Starts, Upper;
    forall r | r in db && InRange(prefix, after, r.reg) && (page.more ==> !Lt(page.next.value, r.reg)) ensures r in page.rows {
      var j :| 0 <= j < |db| && db[j] == r;
      NotPast(db, first, i, j, prefix, page.more);
      assert page.rows[j - first] == r;
    }
  }

  /** A row of the range that the page's end does not cut off lies before the page's end. */
  lemma NotPast(db: seq<ScanRow>, first: nat, i: nat, j: nat, prefix: Reg, more: bool)
    requires Sorted(db) && first <= i <= |db| && j < |db| && Lt(db[j].reg, Upper(prefix))
    requires if more then first < i && !Lt(db[i - 1].reg, db[j].reg) else i < |db| ==> !Lt(db[i].reg, Upper(prefix))
    ensures j < i
  {
    if i < j { Order(db[i].reg, db[j].reg, Upper(prefix)); }
  }

  // ---- the merge of one round ----

  /** What the merge knows of one register after some of the pages. */
  datatype Acc = Acc(accepted: Ballot, value: Option<Value>, promised: Ballot, count: nat, disagree: bool, stub: bool)

  function Combine(a: Option<Acc>, r: Row): (x: Acc)
  {
    match a
    case None => Acc(r.accepted, r.value, r.promised, 1, false, r.accepted == 0)
    case Some(a) =>
      var newer := r.accepted > a.accepted;
      Acc(if newer then r.accepted else a.accepted,
          if newer then r.value else a.value,
          if r.promised > a.promised then r.promised else a.promised,
          a.count + 1,
          a.disagree || r.accepted != a.accepted,
          a.stub || r.accepted == 0)
  }

  function Find(rows: seq<ScanRow>, reg: Reg): (r: Option<Row>)
    ensures r.Some? <==> Has(rows, reg)
    ensures r.Some? ==> ScanRow(reg, r.value) in rows
  {
    if rows == [] then None
    else
      var k := |rows| - 1;
      if rows[k].reg == reg then Some(rows[k].row) else Find(rows[..k], reg)
  }

  function Fold(pages: seq<Page>, reg: Reg): (a: Option<Acc>)
  {
    if pages == [] then None
    else
      var k := |pages| - 1;
      var f := Find(pages[k].rows, reg);
      if f.Some? then Some(Combine(Fold(pages[..k], reg), f.value)) else Fold(pages[..k], reg)
  }

  function Undecided(a: Acc, replies: nat): bool
  {
    a.disagree || a.count < replies || a.promised > a.accepted || a.stub
  }

  /** Row i of the page of reply p. */
  ghost predicate RowAt(pages: seq<Page>, p: nat, reg: Reg, r: Row)
  {
    p < |pages| && Find(pages[p].rows, reg) == Some(r)
  }

  /** Every reply has the row, all at the accepted ballot c, none promised above it. */
  ghost predicate Unanimous(pages: seq<Page>, reg: Reg, c: Ballot)
  {
    c > 0 && forall p :: 0 <= p < |pages| ==>
      Find(pages[p].rows, reg).Some? && Find(pages[p].rows, reg).value.accepted == c
      && Find(pages[p].rows, reg).value.promised <= c
  }

  /** The rows of all pages but the last are those of the first pages. */
  lemma RowsBefore(pages: seq<Page>, k: nat, p: nat, reg: Reg, r: Row)
    requires k < |pages|
    ensures p < k ==> (RowAt(pages[..k], p, reg, r) <==> RowAt(pages, p, reg, r))
  {
  }

  /** r is the row of some page. */
  ghost predicate Reported(pages: seq<Page>, reg: Reg, r: Row) { exists p: nat :: RowAt(pages, p, reg, r) }

  lemma ReportedLast(pages: seq<Page>, reg: Reg, r: Row)
    requires pages != []
    ensures var k := |pages| - 1;
      Reported(pages, reg, r) <==> Reported(pages[..k], reg, r) || Find(pages[k].rows, reg) == Some(r)
  {
    hide Find;
    var k := |pages| - 1;
    if p: nat :| RowAt(pages, p, reg, r) {
      RowsBefore(pages, k, p, reg, r);
    }
    if p: nat :| RowAt(pages[..k], p, reg, r) {
      RowsBefore(pages, k, p, reg, r);
    }
    if Find(pages[k].rows, reg) == Some(r) {
      assert RowAt(pages, k, reg, r);
    }
  }

  lemma {:induction false} FoldIsTop(pages: seq<Page>, reg: Reg)
    ensures Fold(pages, reg).Some? ==> exists r ::
      Reported(pages, reg, r) && r.accepted == Fold(pages, reg).value.accepted && r.value == Fold(pages, reg).value.value
    ensures forall r :: Reported(pages, reg, r) ==> Fold(pages, reg).Some? && r.accepted <= Fold(pages, reg).value.accepted
  {
    if pages != [] {
      var k := |pages| - 1;
      FoldIsTop(pages[..k], reg);
      forall r ensures Reported(pages, reg, r) <==> Reported(pages[..k], reg, r) || Find(pages[k].rows, reg) == Some(r) {
        ReportedLast(pages, reg, r);
      }
      hide Find, Reported;
    }
  }

  /** The fold finds the highest accepted row among the replies. */
  lemma FoldIsHighest(pages: seq<Page>, reg: Reg)
    ensures Fold(pages, reg).Some? <==> exists p :: 0 <= p < |pages| && Has(pages[p].rows, reg)
    ensures Fold(pages, reg).Some? ==> exists p: nat, r ::
      RowAt(pages, p, reg, r) && r.accepted == Fold(pages, reg).value.accepted && r.value == Fold(pages, reg).value.value
    ensures forall p: nat, r :: RowAt(pages, p, reg, r) ==>
      Fold(pages, reg).Some? && r.accepted <= Fold(pages, reg).value.accepted
  {
    FoldIsTop(pages, reg);
    hide Fold, Has;
    forall p: nat, r | RowAt(pages, p, reg, r)
      ensures Fold(pages, reg).Some? && r.accepted <= Fold(pages, reg).value.accepted
    {
      assert Reported(pages, reg, r);
    }
    if Fold(pages, reg).Some? {
      var r :| Reported(pages, reg, r) && r.accepted == Fold(pages, reg).value.accepted && r.value == Fold(pages, reg).value.value;
      var p: nat :| RowAt(pages, p, reg, r);
      assert Has(pages[p].rows, reg);
    }
    if p :| 0 <= p < |pages| && Has(pages[p].rows, reg) {
      assert RowAt(pages, p, reg, Find(pages[p].rows, reg).value);
    }
  }

  lemma {:induction false} UnanimousFold(pages: seq<Page>, reg: Reg, c: Ballot)
    requires pages != [] && Unanimous(pages, reg, c)
    ensures Fold(pages, reg).Some? && Fold(pages, reg).value.accepted == c
    ensures !Undecided(Fold(pages, reg).value, |pages|) && Fold(pages, reg).value.count == |pages|
  {
    var k := |pages| - 1;
    if k > 0 {
      assert Unanimous(pages[..k], reg, c);
      UnanimousFold(pages[..k], reg, c);
    }
  }

  lemma {:induction false} AgreeingFold(pages: seq<Page>, reg: Reg)
    ensures Fold(pages, reg).Some? ==> Fold(pages, reg).value.count <= |pages|
    ensures (Fold(pages, reg).Some? && Fold(pages, reg).value.count == |pages|
             && !Fold(pages, reg).value.disagree && !Fold(pages, reg).value.stub) ==>
      forall p :: 0 <= p < |pages| ==>
        && Find(pages[p].rows, reg).Some?
        && Find(pages[p].rows, reg).value.accepted == Fold(pages, reg).value.accepted > 0
        && Find(pages[p].rows, reg).value.promised <= Fold(pages, reg).value.promised
  {
    if pages != [] {
      AgreeingFold(pages[..|pages| - 1], reg);
    }
  }

  /** A register is unflagged exactly when every reply has its row at one accepted ballot
      with no promise above it, which is when the register is decided. */
  lemma UnflaggedIffUnanimous(pages: seq<Page>, reg: Reg)
    requires Fold(pages, reg).Some?
    ensures !Undecided(Fold(pages, reg).value, |pages|) <==> Unanimous(pages, reg, Fold(pages, reg).value.accepted)
  {
    AgreeingFold(pages, reg);
    if Unanimous(pages, reg, Fold(pages, reg).value.accepted) {
      UnanimousFold(pages, reg, Fold(pages, reg).value.accepted);
    }
  }

  datatype Merged = Merged(reg: Reg, accepted: Ballot, value: Option<Value>, undecided: bool)

  /** The rows a merge returns: sorted, one per register of any reply up to the cut, each
      with the highest accepted row and the flag. */
  ghost predicate MergeOf(pages: seq<Page>, cut: Option<Reg>, out: seq<Merged>)
  {
    && (forall i, j :: 0 <= i < j < |out| ==> Lt(out[i].reg, out[j].reg))
    && (forall m :: m in out ==> UpTo(cut, m.reg) && m == MergedOf(pages, m.reg) && Fold(pages, m.reg).Some?)
    && (forall reg :: UpTo(cut, reg) && Fold(pages, reg).Some? ==> MergedOf(pages, reg) in out)
  }

  function MergedOf(pages: seq<Page>, reg: Reg): (m: Merged)
  {
    var f := Fold(pages, reg);
    if f.None? then Merged(reg, 0, None, true)
    else Merged(reg, f.value.accepted, f.value.value, Undecided(f.value, |pages|))
  }

  ghost predicate CutOf(pages: seq<Page>, cut: Option<Reg>)
  {
    && (cut.None? <==> forall p :: 0 <= p < |pages| ==> !pages[p].more)
    && (cut.Some? ==> exists p :: 0 <= p < |pages| && pages[p].more && pages[p].next == cut)
    && (forall p :: 0 <= p < |pages| && pages[p].more ==>
          pages[p].next.Some? && cut.Some? && !Lt(pages[p].next.value, cut.value))
  }

  method SmallestNext(pages: seq<Page>) returns (cut: Option<Reg>)
    requires forall p :: 0 <= p < |pages| && pages[p].more ==> pages[p].next.Some?
    ensures CutOf(pages, cut)
  {
    cut := None;
    for i := 0 to |pages|
      invariant CutOf(pages[..i], cut)
    {
      var m := pages[i];
      assert pages[..i + 1] == pages[..i] + [m];
      if m.more && (cut.None? || Lt(m.next.value, cut.value)) {
        forall p | 0 <= p < i + 1 && pages[p].more ensures !Lt(pages[p].next.value, m.next.value) {
          assert p < i ==> pages[..i][p] == pages[p];
          if cut.Some? {
            Order(pages[p].next.value, m.next.value, cut.value);
          }
          Order(m.next.value, m.next.value, m.next.value);
        }
        cut := m.next;
      }
    }
    assert pages[..|pages|] == pages;
  }

  /** Insert a register into a sorted list. */
  method Insert(out: seq<Merged>, m: Merged) returns (res: seq<Merged>)
    requires forall i, j :: 0 <= i < j < |out| ==> Lt(out[i].reg, out[j].reg)
    requires forall x :: x in out ==> x.reg != m.reg
    ensures forall i, j :: 0 <= i < j < |res| ==> Lt(res[i].reg, res[j].reg)
    ensures forall x :: x in res <==> x in out || x == m
  {
    var i := 0;
    while i < |out| && Lt(out[i].reg, m.reg)
      invariant 0 <= i <= |out|
      invariant forall j :: 0 <= j < i ==> Lt(out[j].reg, m.reg)
    {
      i := i + 1;
    }
    forall j | i <= j < |out| ensures Lt(m.reg, out[j].reg) {
      Order(m.reg, out[i].reg, out[j].reg);
    }
    hide Lt;
    res := out[..i] + [m] + out[i..];
    Inserted(out, m, i, res);
  }

  lemma Inserted(out: seq<Merged>, m: Merged, i: nat, res: seq<Merged>)
    requires i <= |out| && res == out[..i] + [m] + out[i..]
    requires forall i, j :: 0 <= i < j < |out| ==> Lt(out[i].reg, out[j].reg)
    requires forall j :: 0 <= j < i ==> Lt(out[j].reg, m.reg)
    requires forall j :: i <= j < |out| ==> Lt(m.reg, out[j].reg)
    ensures forall i, j :: 0 <= i < j < |res| ==> Lt(res[i].reg, res[j].reg)
    ensures forall x :: x in res <==> x in out || x == m
  {
    hide Lt;
    assert out == out[..i] + out[i..];
    forall a, b | 0 <= a < b < |res|
      ensures Lt(res[a].reg, res[b].reg)
    {
      assert res[a] == if a < i then out[a] else if a == i then m else out[a - 1];
      assert res[b] == if b < i then out[b] else if b == i then m else out[b - 1];
    }
  }

  ghost predicate Folded(pages: seq<Page>, cut: Option<Reg>, merged: map<Reg, Acc>)
  {
    && (forall reg :: reg in merged <==> UpTo(cut, reg) && Fold(pages, reg).Some?)
    && (forall reg :: reg in merged ==> Fold(pages, reg) == Some(merged[reg]))
  }

  function With(before: map<Reg, Acc>, rows: seq<ScanRow>, reg: Reg): Option<Acc>
  {
    var prev := if reg in before then Some(before[reg]) else None;
    if Find(rows, reg).Some? then Some(Combine(prev, Find(rows, reg).value)) else prev
  }

  /** One more row of a sorted page adds to its own register only. */
  lemma WithOneMore(before: map<Reg, Acc>, rows: seq<ScanRow>, j: nat, reg: Reg)
    requires Sorted(rows) && j < |rows|
    ensures With(before, rows[..j + 1], reg) ==
            if reg == rows[j].reg then Some(Combine(With(before, rows[..j], reg), rows[j].row))
            else With(before, rows[..j], reg)
  {
    hide Combine;
    var more := rows[..j + 1];
    assert more[..j] == rows[..j] && more[j] == rows[j];
    if reg == rows[j].reg {
      Order(reg, reg, reg);
      assert !Has(rows[..j], reg);
    }
  }

  /** Fold the rows of one page up to the cut into the map. */
  method AddPage(before: map<Reg, Acc>, rows: seq<ScanRow>, cut: Option<Reg>) returns (merged: map<Reg, Acc>)
    requires Sorted(rows) && forall reg :: reg in before ==> UpTo(cut, reg)
    ensures forall reg :: reg in merged ==> UpTo(cut, reg)
    ensures forall reg :: UpTo(cut, reg) ==>
      With(before, rows, reg) == if reg in merged then Some(merged[reg]) else None
  {
    merged := before;
    for j := 0 to |rows|
      invariant forall reg :: reg in merged ==> UpTo(cut, reg)
      invariant forall reg :: UpTo(cut, reg) ==>
        With(before, rows[..j], reg) == if reg in merged then Some(merged[reg]) else None
    {
      var r := rows[j];
      forall reg
        ensures With(before, rows[..j + 1], reg) ==
                if reg == r.reg then Some(Combine(With(before, rows[..j], reg), r.row)) else With(before, rows[..j], reg)
      {
        WithOneMore(before, rows, j, reg);
      }
      hide With, Combine, Find, UpTo, Sorted;
      if UpTo(cut, r.reg) {
        var a := if r.reg in merged then Some(merged[r.reg]) else None;
        merged := merged[r.reg := Combine(a, r.row)];
      }
    }
    assert rows[..|rows|] == rows;
  }

  method SortMerged(pages: seq<Page>, cut: Option<Reg>, merged: map<Reg, Acc>) returns (out: seq<Merged>)
    requires Folded(pages, cut, merged)
    ensures MergeOf(pages, cut, out)
  {
    out := [];
    var left := merged.Keys;
    while left != {}
      invariant left <= merged.Keys
      invariant forall a, b :: 0 <= a < b < |out| ==> Lt(out[a].reg, out[b].reg)
      invariant forall m :: m in out ==> m.reg in merged.Keys - left && m == MergedOf(pages, m.reg)
      invariant forall reg :: reg in merged.Keys - left ==> MergedOf(pages, reg) in out
      decreases |left|
    {
      var reg :| reg in left;
      var a := merged[reg];
      out := Insert(out, Merged(reg, a.accepted, a.value, Undecided(a, |pages|)));
      left := left - {reg};
    }
  }

  lemma FoldedMore(pages: seq<Page>, i: nat, cut: Option<Reg>, before: map<Reg, Acc>, merged: map<Reg, Acc>)
    requires i < |pages| && Folded(pages[..i], cut, before)
    requires forall reg :: reg in merged ==> UpTo(cut, reg)
    requires forall reg :: UpTo(cut, reg) ==>
      With(before, pages[i].rows, reg) == if reg in merged then Some(merged[reg]) else None
    ensures Folded(pages[..i + 1], cut, merged)
  {
    hide UpTo, Combine;
    assert pages[..i + 1][..i] == pages[..i];
  }

  /** Merge one round of pages: the cut, the accumulation per register, and the sort. */
  method MergePages(pages: seq<Page>) returns (out: seq<Merged>, next: Option<Reg>)
    requires forall p :: 0 <= p < |pages| ==> Sorted(pages[p].rows) && (pages[p].more ==> pages[p].next.Some?)
    ensures CutOf(pages, next) && MergeOf(pages, next, out)
  {
    next := SmallestNext(pages);
    var merged: map<Reg, Acc> := map[];
    assert Folded(pages[..0], next, merged);
    hide Fold, CutOf, MergeOf, UpTo, With, Sorted;
    for i := 0 to |pages|
      invariant Folded(pages[..i], next, merged)
    {
      ghost var before := merged;
      merged := AddPage(merged, pages[i].rows, next);
      hide Folded;
      FoldedMore(pages, i, next, before, merged);
    }
    assert pages[..|pages|] == pages;
    out := SortMerged(pages, next, merged);
  }

  // ---- every page ----

  /** The acceptors' tables as one round of unlimited pages. */
  function Whole(dbs: seq<seq<ScanRow>>): (pages: seq<Page>)
    ensures |pages| == |dbs| && forall p :: 0 <= p < |dbs| ==> pages[p] == Page(dbs[p], false, None)
  {
    if dbs == [] then [] else Whole(dbs[..|dbs| - 1]) + [Page(dbs[|dbs| - 1], false, None)]
  }

  lemma {:induction false} FindUnique(rows: seq<ScanRow>, r: ScanRow)
    requires Sorted(rows) && r in rows
    ensures Find(rows, r.reg) == Some(r.row)
  {
    var k := |rows| - 1;
    if rows[k] != r {
      var i :| 0 <= i < |rows| && rows[i] == r;
      Order(r.reg, r.reg, r.reg);
      assert rows[..k][i] == r;
      FindUnique(rows[..k], r);
    }
  }

  /** A page shows what the table holds between the cursor and the page's end. */
  lemma PageFind(db: seq<ScanRow>, prefix: Reg, after: Option<Reg>, page: Page, reg: Reg)
    requires Sorted(db) && PageOf(db, prefix, after, page) && InRange(prefix, after, reg)
    requires page.more ==> !Lt(page.next.value, reg)
    ensures Find(page.rows, reg) == Find(db, reg)
  {
    var f := Find(db, reg);
    if f.Some? {
      FindUnique(page.rows, ScanRow(reg, f.value));
    }
  }

  lemma {:induction false} SameFinds(a: seq<Page>, b: seq<Page>, reg: Reg)
    requires |a| == |b| && forall p :: 0 <= p < |a| ==> Find(a[p].rows, reg) == Find(b[p].rows, reg)
    ensures Fold(a, reg) == Fold(b, reg)
  {
    if a != [] {
      SameFinds(a[..|a| - 1], b[..|b| - 1], reg);
    }
  }

  ghost predicate RoundOf(dbs: seq<seq<ScanRow>>, prefix: Reg, after: Option<Reg>, pages: seq<Page>)
  {
    |pages| == |dbs| && forall p :: 0 <= p < |dbs| ==> Sorted(dbs[p]) && PageOf(dbs[p], prefix, after, pages[p])
  }

  /** Between the cursor and the cut, one round of pages folds like the whole tables. */
  lemma RoundFold(dbs: seq<seq<ScanRow>>, prefix: Reg, after: Option<Reg>, pages: seq<Page>, cut: Option<Reg>, reg: Reg)
    requires RoundOf(dbs, prefix, after, pages) && CutOf(pages, cut) && InRange(prefix, after, reg) && UpTo(cut, reg)
    ensures Fold(pages, reg) == Fold(Whole(dbs), reg)
    ensures MergedOf(pages, reg) == MergedOf(Whole(dbs), reg)
  {
    forall p | 0 <= p < |dbs| ensures Find(pages[p].rows, reg) == Find(Whole(dbs)[p].rows, reg) {
      if pages[p].more {
        Order(reg, cut.value, pages[p].next.value);
        Order(pages[p].next.value, reg, cut.value);
        Order(cut.value, pages[p].next.value, reg);
      }
      PageFind(dbs[p], prefix, after, pages[p], reg);
    }
    SameFinds(pages, Whole(dbs), reg);
  }

  /** Nothing out of the range appears in a round. */
  lemma RoundAbove(dbs: seq<seq<ScanRow>>, prefix: Reg, after: Option<Reg>, pages: seq<Page>, reg: Reg)
    requires RoundOf(dbs, prefix, after, pages) && Fold(pages, reg).Some?
    ensures InRange(prefix, after, reg)
  {
    FoldIsHighest(pages, reg);
    var p :| 0 <= p < |pages| && Has(pages[p].rows, reg);
    var r := Find(pages[p].rows, reg);
    assert ScanRow(reg, r.value) in pages[p].rows;
  }

  ghost predicate InOrder(out: seq<Merged>) { forall i, j :: 0 <= i < j < |out| ==> Lt(out[i].reg, out[j].reg) }

  ghost predicate Listed(dbs: seq<seq<ScanRow>>, prefix: Reg, upTo: Option<Reg>, out: seq<Merged>)
  {
    && InOrder(out)
    && (forall m :: m in out ==> InRange(prefix, None, m.reg) && UpTo(upTo, m.reg) && m == MergedOf(Whole(dbs), m.reg) && Fold(Whole(dbs), m.reg).Some?)
    && (forall reg :: InRange(prefix, None, reg) && UpTo(upTo, reg) && Fold(Whole(dbs), reg).Some? ==> MergedOf(Whole(dbs), reg) in out)
  }

  /** Behind a cursor of the range lies what the range has above it. */
  lemma RangeAbove(prefix: Reg, after: Option<Reg>, reg: Reg)
    requires after.Some? ==> InRange(prefix, None, after.value)
    ensures InRange(prefix, after, reg) <==> InRange(prefix, None, reg) && Above(after, reg)
  {
    if after.Some? && Lt(after.value, reg) {
      StartsOn(prefix, None, after.value, reg);
    }
  }

  /** What one round adds. */
  lemma RoundAdds(dbs: seq<seq<ScanRow>>, prefix: Reg, after: Option<Reg>, pages: seq<Page>, cut: Option<Reg>, rows: seq<Merged>)
    requires RoundOf(dbs, prefix, after, pages) && CutOf(pages, cut) && MergeOf(pages, cut, rows)
    ensures forall m :: m in rows ==>
      InRange(prefix, after, m.reg) && UpTo(cut, m.reg) && m == MergedOf(Whole(dbs), m.reg) && Fold(Whole(dbs), m.reg).Some?
    ensures forall reg :: InRange(prefix, after, reg) && UpTo(cut, reg) && Fold(Whole(dbs), reg).Some? ==>
      MergedOf(Whole(dbs), reg) in rows
  {
    hide Lt, InRange, RoundOf, CutOf;
    forall m | m in rows
      ensures InRange(prefix, after, m.reg) && m == MergedOf(Whole(dbs), m.reg) && Fold(Whole(dbs), m.reg).Some?
    {
      RoundAbove(dbs, prefix, after, pages, m.reg);
      RoundFold(dbs, prefix, after, pages, cut, m.reg);
    }
    forall reg | InRange(prefix, after, reg) && UpTo(cut, reg) && Fold(Whole(dbs), reg).Some?
      ensures MergedOf(Whole(dbs), reg) in rows
    {
      RoundFold(dbs, prefix, after, pages, cut, reg);
    }
  }

  lemma SortedAfter(out: seq<Merged>, rows: seq<Merged>, after: Option<Reg>)
    requires InOrder(out) && InOrder(rows) && (out != [] ==> after.Some?)
    requires (forall m :: m in out ==> UpTo(after, m.reg)) && (forall m :: m in rows ==> Above(after, m.reg))
    ensures InOrder(out + rows)
  {
    var all := out + rows;
    hide Lt;
    forall i, j | 0 <= i < j < |all| ensures Lt(all[i].reg, all[j].reg) {
      if i < |out| <= j {
        assert all[i] in out && all[j] in rows;
        Order(all[i].reg, after.value, all[j].reg);
      }
    }
  }

  lemma UpToLater(after: Option<Reg>, cut: Option<Reg>, reg: Reg)
    requires UpTo(after, reg) && after.Some? && (cut.Some? ==> Lt(after.value, cut.value))
    ensures UpTo(cut, reg)
  {
    if cut.Some? {
      Order(reg, after.value, cut.value);
      Order(reg, cut.value, reg);
    }
  }

  /** One more round extends the listing from the cursor to the cut. */
  lemma RoundExtends(dbs: seq<seq<ScanRow>>, prefix: Reg, after: Option<Reg>, pages: seq<Page>, cut: Option<Reg>,
                     out: seq<Merged>, rows: seq<Merged>)
    requires RoundOf(dbs, prefix, after, pages) && CutOf(pages, cut) && MergeOf(pages, cut, rows)
    requires if after.None? then out == [] else Listed(dbs, prefix, after, out)
    requires after.Some? ==> InRange(prefix, None, after.value) && (cut.Some? ==> Lt(after.value, cut.value))
    ensures Listed(dbs, prefix, cut, out + rows)
  {
    RoundAdds(dbs, prefix, after, pages, cut, rows);
    forall reg ensures InRange(prefix, after, reg) <==> InRange(prefix, None, reg) && Above(after, reg) {
      RangeAbove(prefix, after, reg);
    }
    hide Lt, InRange, RoundOf, CutOf;
    SortedAfter(out, rows, after);
    forall m | m in out + rows ensures UpTo(cut, m.reg) {
      if m in out { UpToLater(after, cut, m.reg); }
    }
  }

  ghost function RegsOf(dbs: seq<seq<ScanRow>>): set<Reg>
  {
    set p, i | 0 <= p < |dbs| && 0 <= i < |dbs[p]| :: dbs[p][i].reg
  }

  ghost function Remaining(dbs: seq<seq<ScanRow>>, after: Option<Reg>): set<Reg>
  {
    set reg | reg in RegsOf(dbs) && Above(after, reg)
  }

  lemma CursorRises(dbs: seq<seq<ScanRow>>, prefix: Reg, after: Option<Reg>, pages: seq<Page>, cut: Option<Reg>)
    requires RoundOf(dbs, prefix, after, pages) && CutOf(pages, cut) && cut.Some?
    ensures Above(after, cut.value) && InRange(prefix, after, cut.value)
    ensures Remaining(dbs, cut) < Remaining(dbs, after)
  {
    var p :| 0 <= p < |pages| && pages[p].more && pages[p].next == cut;
    var i :| 0 <= i < |dbs[p]| && dbs[p][i].reg == cut.value;
    assert cut.value in RegsOf(dbs);
    Order(cut.value, cut.value, cut.value);
    assert cut.value in Remaining(dbs, after) && cut.value !in Remaining(dbs, cut);
    forall reg | reg in Remaining(dbs, cut) ensures reg in Remaining(dbs, after) {
      if after.Some? {
        Order(after.value, cut.value, reg);
      }
    }
  }

  method PagesOf(dbs: seq<seq<ScanRow>>, prefix: Reg, after: Option<Reg>, limit: int, maxBytes: nat, sizeOf: ScanRow -> nat)
    returns (pages: seq<Page>)
    requires maxBytes > 0 && forall p :: 0 <= p < |dbs| ==> Sorted(dbs[p])
    ensures RoundOf(dbs, prefix, after, pages)
  {
    pages := [];
    for p := 0 to |dbs|
      invariant |pages| == p && forall k :: 0 <= k < p ==> PageOf(dbs[k], prefix, after, pages[k])
    {
      var page := AcceptorPage(dbs[p], prefix, after, limit, maxBytes, sizeOf);
      pages := pages + [page];
    }
  }

  /** Paging to the end over fixed tables lists every register of any reply in the range exactly once,
      in order, with the highest accepted row; the cursor rises with every page. */
  method ScanToEnd(dbs: seq<seq<ScanRow>>, prefix: Reg, limit: int, maxBytes: nat, sizeOf: ScanRow -> nat)
    returns (out: seq<Merged>)
    requires maxBytes > 0 && forall p :: 0 <= p < |dbs| ==> Sorted(dbs[p])
    ensures Listed(dbs, prefix, None, out)
  {
    out := [];
    var after: Option<Reg> := None;
    while true
      invariant if after.None? then out == [] else Listed(dbs, prefix, after, out)
      invariant after.Some? ==> InRange(prefix, None, after.value)
      decreases Remaining(dbs, after)
    {
      var pages := PagesOf(dbs, prefix, after, limit, maxBytes, sizeOf);
      var rows, next := MergePages(pages);
      if next.Some? {
        CursorRises(dbs, prefix, after, pages, next);
        RangeAbove(prefix, after, next.value);
      }
      RoundExtends(dbs, prefix, after, pages, next, out, rows);
      out := out + rows;
      if next.None? {
        return;
      }
      after := next;
    }
  }
}
