/** Ballots (paxos/ballot.go): the pair (counter, proposer), its order, its 40-byte
    encoding, and the numeric code under which the protocol modules speak of ballots. */
module Ballots {

  type Byte = n: int | 0 <= n < 256

  const COUNTER_BYTES := 8
  const ID_BYTES := 32
  const BALLOT_BYTES := 40

  function Pow256(n: nat): (r: nat)
    ensures r > 0
  {
    if n == 0 then 1 else 256 * Pow256(n - 1)
  }

  /** The value of a big-endian byte string. */
  function FromBE(s: seq<Byte>): (r: nat)
  {
    if s == [] then 0 else s[0] * Pow256(|s| - 1) + FromBE(s[1..])
  }

  /** The big-endian encoding of n in exactly len bytes. */
  function ToBE(n: nat, len: nat): (s: seq<Byte>)
    requires n < Pow256(len)
    ensures |s| == len
  {
    if len == 0 then []
    else
      DigitBounds(n, Pow256(len - 1));
      [n / Pow256(len - 1)] + ToBE(n % Pow256(len - 1), len - 1)
  }

  lemma MulLe(x: int, y: int, p: nat)
    ensures x <= y ==> x * p <= y * p
  {
  }

  lemma DigitBounds(n: nat, p: nat)
    requires p > 0 && n < 256 * p
    ensures 0 <= n / p < 256
    ensures n == (n / p) * p + n % p
    ensures 0 <= n % p < p
  {
    MulLe(256, n / p, p);
  }

  lemma {:induction false} FromBEBound(s: seq<Byte>)
    ensures FromBE(s) < Pow256(|s|)
  {
    if s != [] {
      FromBEBound(s[1..]);
      MulLe(s[0], 255, Pow256(|s| - 1));
    }
  }

  lemma MulBounds(d: int, p: int)
    requires p > 0
    ensures d >= 1 ==> d * p >= p
    ensures d <= -1 ==> d * p <= -p
  {
  }

  lemma DigitUnique(q: nat, r: nat, p: nat)
    requires p > 0 && r < p
    ensures (q * p + r) / p == q
    ensures (q * p + r) % p == r
  {
    var n := q * p + r;
    var d := n / p - q;
    assert d * p == r - n % p;
    MulBounds(d, p);
  }

  /** Two-digit numbers in base p compare digit by digit. */
  lemma DigitOrder(q: nat, r: nat, q': nat, r': nat, p: nat)
    requires p > 0 && r < p && r' < p
    ensures Sign(q * p + r, q' * p + r') == if q == q' then Sign(r, r') else Sign(q, q')
    ensures q * p + r == 0 <==> q == 0 && r == 0
  {
    MulBounds(q - q', p);
    MulBounds(q, p);
    assert (q - q') * p == q * p - q' * p;
  }

  lemma {:induction false} ToBEFromBE(s: seq<Byte>)
    ensures FromBE(s) < Pow256(|s|)
    ensures ToBE(FromBE(s), |s|) == s
  {
    FromBEBound(s);
    if s != [] {
      FromBEBound(s[1..]);
      ToBEFromBE(s[1..]);
      DigitUnique(s[0], FromBE(s[1..]), Pow256(|s| - 1));
    }
  }

  lemma {:induction false} FromBEToBE(n: nat, len: nat)
    requires n < Pow256(len)
    ensures FromBE(ToBE(n, len)) == n
  {
    if len > 0 {
      var p := Pow256(len - 1);
      DigitBounds(n, p);
      FromBEToBE(n % p, len - 1);
      assert ToBE(n, len)[1..] == ToBE(n % p, len - 1);
    }
  }

  /** Lexicographic comparison of byte strings: -1, 0 or 1. */
  function LexCompare(a: seq<Byte>, b: seq<Byte>): (c: int)
    ensures -1 <= c <= 1
  {
    if a == [] && b == [] then 0
    else if a == [] then -1
    else if b == [] then 1
    else if a[0] < b[0] then -1
    else if a[0] > b[0] then 1
    else LexCompare(a[1..], b[1..])
  }

  function Sign(a: int, b: int): (c: int)
  {
    if a < b then -1 else if a == b then 0 else 1
  }

  lemma {:induction false} LexIsNumeric(a: seq<Byte>, b: seq<Byte>)
    requires |a| == |b|
    ensures LexCompare(a, b) == Sign(FromBE(a), FromBE(b))
  {
    if a != [] {
      FromBEBound(a[1..]);
      FromBEBound(b[1..]);
      LexIsNumeric(a[1..], b[1..]);
      DigitOrder(a[0], FromBE(a[1..]), b[0], FromBE(b[1..]), Pow256(|a| - 1));
    }
  }

  lemma {:induction false} LexPrefix(p: seq<Byte>, a: seq<Byte>, b: seq<Byte>)
    ensures LexCompare(p + a, p + b) == LexCompare(a, b)
  {
    if p == [] {
      assert p + a == a && p + b == b;
    } else {
      assert (p + a)[1..] == p[1..] + a && (p + b)[1..] == p[1..] + b;
      LexPrefix(p[1..], a, b);
    }
  }

  lemma {:induction false} LexDecidedByPrefix(p: seq<Byte>, q: seq<Byte>, a: seq<Byte>, b: seq<Byte>)
    requires |p| == |q| && LexCompare(p, q) != 0
    ensures LexCompare(p + a, q + b) == LexCompare(p, q)
  {
    assert (p + a)[1..] == p[1..] + a && (q + b)[1..] == q[1..] + b;
    if p[0] == q[0] {
      LexDecidedByPrefix(p[1..], q[1..], a, b);
    }
  }

  lemma {:induction false} LexZeroIsEqual(a: seq<Byte>, b: seq<Byte>)
    ensures LexCompare(a, b) == 0 <==> a == b
  {
    if a != [] && b != [] {
      LexZeroIsEqual(a[1..], b[1..]);
      assert a == [a[0]] + a[1..] && b == [b[0]] + b[1..];
    }
  }

  lemma {:induction false} LexFlip(a: seq<Byte>, b: seq<Byte>)
    ensures LexCompare(a, b) == -LexCompare(b, a)
  {
    if a != [] && b != [] && a[0] == b[0] {
      LexFlip(a[1..], b[1..]);
    }
  }

  lemma {:induction false} LexTransitive(a: seq<Byte>, b: seq<Byte>, c: seq<Byte>)
    requires LexCompare(a, b) <= 0 && LexCompare(b, c) <= 0
    ensures LexCompare(a, c) <= 0
    ensures LexCompare(a, b) < 0 || LexCompare(b, c) < 0 ==> LexCompare(a, c) < 0
  {
    if a != [] && b != [] && c != [] && a[0] == b[0] == c[0] {
      LexTransitive(a[1..], b[1..], c[1..]);
    }
  }

  // ---- ballots ----

  datatype Ballot = Ballot(counter: nat, proposer: seq<Byte>)
  {
    ghost predicate Valid() {
      counter < Pow256(COUNTER_BYTES) && |proposer| == ID_BYTES
    }

    predicate IsZero() {
      counter == 0 && AllZero(proposer)
    }

    function Compare(o: Ballot): (c: int) {
      if counter != o.counter then
        if counter < o.counter then -1 else 1
      else LexCompare(proposer, o.proposer)
    }

    /** nil for the zero ballot, otherwise counter then proposer, big-endian. */
    function Bytes(): (s: seq<Byte>)
      requires Valid()
    {
      if IsZero() then [] else ToBE(counter, COUNTER_BYTES) + proposer
    }

    /** The number a ballot is called by in the protocol modules; 0 is "none". */
    function Code(): (n: nat)
      requires Valid()
    {
      MulLe(0, counter, Pow256(ID_BYTES));
      counter * Pow256(ID_BYTES) + FromBE(proposer)
    }
  }

  datatype Parsed = Parsed(b: Ballot) | BadLength

  function Zeros(n: nat): (s: seq<Byte>)
    ensures |s| == n && forall i :: 0 <= i < n ==> s[i] == 0
  {
    if n == 0 then [] else [0] + Zeros(n - 1)
  }

  function Parse(s: seq<Byte>): (r: Parsed)
  {
    if s == [] then Parsed(Ballot(0, Zeros(ID_BYTES)))
    else if |s| != BALLOT_BYTES then BadLength
    else Parsed(Ballot(FromBE(s[..COUNTER_BYTES]), s[COUNTER_BYTES..]))
  }

  predicate AllZero(s: seq<Byte>)
  {
    forall i :: 0 <= i < |s| ==> s[i] == 0
  }

  lemma {:induction false} ZeroBytes(s: seq<Byte>)
    ensures FromBE(s) == 0 <==> AllZero(s)
  {
    if s != [] {
      ZeroBytes(s[1..]);
      FromBEBound(s[1..]);
      DigitOrder(s[0], FromBE(s[1..]), 0, 0, Pow256(|s| - 1));
      assert s == [s[0]] + s[1..];
    }
  }

  /** Parsing undoes encoding on every ballot, the zero ballot included. */
  lemma ParseOfBytes(b: Ballot)
    requires b.Valid()
    ensures Parse(b.Bytes()) == Parsed(b)
  {
    if b.IsZero() {
      assert b.proposer == Zeros(ID_BYTES);
    } else {
      FromBEToBE(b.counter, COUNTER_BYTES);
      var s := b.Bytes();
      assert s[..COUNTER_BYTES] == ToBE(b.counter, COUNTER_BYTES);
      assert s[COUNTER_BYTES..] == b.proposer;
    }
  }

  /** Encoding undoes parsing, except that forty zero bytes name the zero ballot too. */
  lemma BytesOfParse(s: seq<Byte>)
    ensures Parse(s).BadLength? <==> |s| != 0 && |s| != BALLOT_BYTES
    ensures Parse(s).Parsed? ==> Parse(s).b.Valid()
    ensures Parse(s).Parsed? ==> Parse(s).b.Bytes() == if FromBE(s) == 0 then [] else s
  {
    if |s| == BALLOT_BYTES {
      var hi, lo := s[..COUNTER_BYTES], s[COUNTER_BYTES..];
      FromBEBound(hi);
      ToBEFromBE(hi);
      assert s == hi + lo;
      ZeroBytes(s);
      ZeroBytes(hi);
      assert AllZero(s) <==> AllZero(hi) && AllZero(lo);
    }
  }

  /** The encoding orders like the ballot, with nil below everything else. */
  lemma BytesOrder(a: Ballot, b: Ballot)
    requires a.Valid() && b.Valid()
    ensures LexCompare(a.Bytes(), b.Bytes()) == a.Compare(b)
  {
    var ca, cb := ToBE(a.counter, COUNTER_BYTES), ToBE(b.counter, COUNTER_BYTES);
    FromBEToBE(a.counter, COUNTER_BYTES);
    FromBEToBE(b.counter, COUNTER_BYTES);
    LexIsNumeric(ca, cb);
    if a.IsZero() || b.IsZero() {
      ZeroBytes(a.proposer);
      ZeroBytes(b.proposer);
      LexIsNumeric(a.proposer, b.proposer);
    } else if a.counter == b.counter {
      LexPrefix(ca, a.proposer, b.proposer);
    } else {
      LexDecidedByPrefix(ca, cb, a.proposer, b.proposer);
    }
  }

  /** Comparing codes is comparing ballots: the order is total, two ballots share a code
      only when they are equal, and the zero ballot is the one with code 0. */
  lemma CodeOrder(a: Ballot, b: Ballot)
    requires a.Valid() && b.Valid()
    ensures a.Compare(b) == Sign(a.Code(), b.Code())
    ensures a.Code() == b.Code() <==> a == b
    ensures a.Code() == 0 <==> a.IsZero()
  {
    LexIsNumeric(a.proposer, b.proposer);
    LexZeroIsEqual(a.proposer, b.proposer);
    FromBEBound(a.proposer);
    FromBEBound(b.proposer);
    ZeroBytes(a.proposer);
    DigitOrder(a.counter, FromBE(a.proposer), b.counter, FromBE(b.proposer), Pow256(ID_BYTES));
  }
}
