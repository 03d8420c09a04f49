/** Bytes and big-endian numbers, shared by codecs and framers. */
module Bytes {
  type Byte = x: int | 0 <= x < 256

  type Binary = seq<Byte>

  const TWO_TO_THE_64: nat := 0x1_0000_0000_0000_0000

  lemma Assoc<T>(a: seq<T>, b: seq<T>, c: seq<T>)
    ensures (a + b) + c == a + (b + c)
  {
  }

  function Flatten(pieces: seq<Binary>): Binary {
    if pieces == [] then [] else pieces[0] + Flatten(pieces[1..])
  }

  /** The `width` low bytes of `n`, the most significant first. */
  function BigEndian(n: nat, width: nat): Binary {
    if width == 0 then [] else BigEndian(n / 256, width - 1) + [n % 256]
  }

  function Number(bs: Binary): nat {
    if bs == [] then 0 else Number(bs[..|bs| - 1]) * 256 + bs[|bs| - 1]
  }

  function Pow256(width: nat): (p: nat)
    ensures p > 0
  {
    if width == 0 then 1 else 256 * Pow256(width - 1)
  }

  lemma {:induction false} BigEndianLength(n: nat, width: nat)
    ensures |BigEndian(n, width)| == width
  {
    if width > 0 {
      BigEndianLength(n / 256, width - 1);
    }
  }

  lemma DivideTwice(n: nat, d: nat)
    requires d > 0
    ensures n / 256 / d == n / (256 * d)
  {
    var q, r := n / 256 / d, n / 256 % d;
    assert n == 256 * (d * q + r) + n % 256;
    assert n == (256 * d) * q + (256 * r + n % 256) by {
      assert 256 * (d * q + r) == (256 * d) * q + 256 * r;
    }
    assert 0 <= 256 * r + n % 256 < 256 * d;
    QuotientIs(n, 256 * d, q, 256 * r + n % 256);
  }

  lemma Distribute(a: int, b: int, c: int)
    ensures a * (b + c) == a * b + a * c
  {
  }

  lemma {:induction false} OneMore(d: nat, p: nat, q: nat)
    requires p < q
    ensures d * p + d <= d * q
    decreases q
  {
    Distribute(d, q - 1, 1);
    if p < q - 1 {
      OneMore(d, p, q - 1);
    }
  }

  lemma QuotientIs(n: nat, d: nat, q: nat, r: nat)
    requires n == d * q + r && r < d
    ensures n / d == q
  {
    var p := n / d;
    assert n == d * p + n % d;
    if p < q {
      OneMore(d, p, q);
    } else if p > q {
      OneMore(d, q, p);
    }
  }

  /** Byte `i` stands for its power of 256: network order. */
  lemma {:induction false} BigEndianAt(n: nat, width: nat, i: nat)
    requires i < width
    ensures |BigEndian(n, width)| == width && BigEndian(n, width)[i] == n / Pow256(width - 1 - i) % 256
  {
    BigEndianLength(n, width);
    if i < width - 1 {
      BigEndianAt(n / 256, width - 1, i);
      DivideTwice(n, Pow256(width - 2 - i));
    }
  }

  lemma {:induction false} ReadsBack(n: nat, width: nat)
    requires n < Pow256(width)
    ensures Number(BigEndian(n, width)) == n
  {
    if width > 0 {
      var front := BigEndian(n / 256, width - 1);
      assert n / 256 < Pow256(width - 1);
      ReadsBack(n / 256, width - 1);
      assert BigEndian(n, width)[..|front|] == front;
    }
  }

  lemma {:induction false} WritesBack(bs: Binary)
    ensures Number(bs) < Pow256(|bs|) && BigEndian(Number(bs), |bs|) == bs
  {
    if bs != [] {
      var front, last := bs[..|bs| - 1], bs[|bs| - 1];
      WritesBack(front);
      QuotientIs(Number(bs), 256, Number(front), last);
      assert Number(bs) % 256 == last;
      assert front + [last] == bs;
    }
  }

  lemma EightBytes()
    ensures Pow256(8) == TWO_TO_THE_64
  {
    assert Pow256(4) == 0x1_0000_0000;
  }

  /** A number as eight bytes in network order. */
  function Word(n: nat): (bs: Binary)
    ensures |bs| == 8
  {
    BigEndianLength(n, 8);
    BigEndian(n, 8)
  }

  lemma WordAt(n: nat, i: nat)
    requires i < 8
    ensures Word(n)[i] == n / Pow256(7 - i) % 256
  {
    BigEndianAt(n, 8, i);
  }

  /** Small numbers have seven zeros in front. */
  lemma SmallWord(n: nat)
    requires n < 256
    ensures Word(n) == [0, 0, 0, 0, 0, 0, 0, n]
  {
    var bs: Binary := [0, 0, 0, 0, 0, 0, 0, n];
    assert Number(bs) == n by {
      SmallNumber(n);
    }
    WordWritesBack(bs);
  }

  lemma SmallNumber(n: Byte)
    ensures Number([0, 0, 0, 0, 0, 0, 0, n]) == n
  {
    ZeroNumber(7);
    assert [0, 0, 0, 0, 0, 0, 0, n][..7] == seq(7, _ => 0);
  }

  lemma {:induction false} ZeroNumber(k: nat)
    ensures Number(seq(k, _ => 0)) == 0
  {
    if k > 0 {
      var zeros: Binary := seq(k, _ => 0);
      ZeroNumber(k - 1);
      assert zeros[..k - 1] == seq(k - 1, _ => 0);
    }
  }

  /** An eight byte length or id survives the way to the wire and back. */
  lemma WordReadsBack(n: nat)
    requires n < TWO_TO_THE_64
    ensures Number(Word(n)) == n
  {
    EightBytes();
    ReadsBack(n, 8);
  }

  /** And so do eight bytes that are read as a number. */
  lemma WordWritesBack(bs: Binary)
    requires |bs| == 8
    ensures Number(bs) < TWO_TO_THE_64 && Word(Number(bs)) == bs
  {
    EightBytes();
    WritesBack(bs);
  }

  // ----- decimal numbers

  function Decimal(n: nat): Binary {
    if n < 10 then [48 + n] else Decimal(n / 10) + [48 + n % 10]
  }

  predicate AllDigits(bs: Binary) {
    forall i :: 0 <= i < |bs| ==> 48 <= bs[i] <= 57
  }

  function DecimalValue(bs: Binary): nat
    requires AllDigits(bs)
  {
    if bs == [] then 0 else DecimalValue(bs[..|bs| - 1]) * 10 + (bs[|bs| - 1] - 48)
  }

  /** No zeros in front. */
  lemma {:induction false} DecimalIsShort(n: nat)
    ensures Decimal(n) != [] && (Decimal(n)[0] == 48 ==> n == 0)
  {
    if n >= 10 {
      DecimalIsShort(n / 10);
    }
  }

  lemma {:induction false} DecimalReadsBack(n: nat)
    ensures Decimal(n) != [] && AllDigits(Decimal(n)) && DecimalValue(Decimal(n)) == n
  {
    if n >= 10 {
      DecimalReadsBack(n / 10);
      assert Decimal(n)[..|Decimal(n)| - 1] == Decimal(n / 10);
    } else {
      assert DecimalValue([48 + n][..0]) == 0;
    }
  }

  // ----- text

  /** The bytes of a text; characters that are no byte become zero. */
  function Ascii(text: string): (bs: Binary)
    ensures |bs| == |text|
  {
    seq(|text|, i requires 0 <= i < |text| => if text[i] as int < 256 then text[i] as int else 0)
  }
}
