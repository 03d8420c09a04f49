/**
 Framing by a length in front of each message. The two framers differ only in how they write the
 length: as eight bytes in network order, or as decimal digits and a blank. Both take a byte stream
 in pieces that need not fall together with messages.
 */
module LengthFraming {
  import opened Bytes
  import opened Wrappers

  datatype Kind = Words | Digits

  /** An unsigned 32 bit number: digits after an optional plus sign, and no overflow. */
  function ParseU32(bs: Binary): Option<nat> {
    var digits := if bs != [] && bs[0] == 43 then bs[1..] else bs;
    if digits == [] || !AllDigits(digits) || DecimalValue(digits) >= 0x1_0000_0000 then None
    else Some(DecimalValue(digits))
  }

  predicate IsSpace(b: Byte) {
    b == 32 || b == 9 || b == 10 || b == 12 || b == 13
  }

  /** The position of the first whitespace, or the length. */
  function FirstSpace(bs: Binary): (i: nat)
    ensures i <= |bs| && (i < |bs| ==> IsSpace(bs[i]))
    ensures forall j :: 0 <= j < i ==> !IsSpace(bs[j])
  {
    if bs == [] || IsSpace(bs[0]) then 0 else 1 + FirstSpace(bs[1..])
  }

  lemma FirstSpaceAt(bs: Binary, i: nat)
    requires i < |bs| && IsSpace(bs[i]) && forall j :: 0 <= j < i ==> !IsSpace(bs[j])
    ensures FirstSpace(bs) == i
  {
  }

  // ----- reading frames

  /** The length at the front of a buffer: not there yet, there and so many bytes long, or malformed. */
  datatype Header = Incomplete | Length(value: nat, size: nat) | Malformed(size: nat)

  /** A length word is read only when a byte follows it. */
  function ReadHeader(kind: Kind, buf: Binary): (h: Header)
    ensures h.Length? ==> 0 < h.size <= |buf|
    ensures h.Malformed? ==> h.size < |buf|
  {
    match kind
    case Words => if |buf| > 8 then Length(Number(buf[..8]), 8) else Incomplete
    case Digits =>
      var i := FirstSpace(buf);
      if i == |buf| then Incomplete
      else
        match ParseU32(buf[..i])
        case None => Malformed(i)
        case Some(n) => Length(n, i + 1)
  }

  /** The length of the message that is awaited, if it is known already, and the bytes not used yet. */
  datatype Framer = Framer(len: Option<nat>, buffer: Binary)

  datatype Outcome = Outcome(messages: seq<Binary>, state: Framer, failed: bool)

  function Cons(m: Binary, o: Outcome): Outcome {
    o.(messages := [m] + o.messages)
  }

  function Drain(kind: Kind, s: Framer): Outcome
    decreases |s.buffer|, s.len.Some?
  {
    match s.len
    case Some(l) =>
      if |s.buffer| >= l then Cons(s.buffer[..l], Drain(kind, Framer(None, s.buffer[l..])))
      else Outcome([], s, false)
    case None =>
      match ReadHeader(kind, s.buffer)
      case Incomplete => Outcome([], s, false)
      case Length(n, size) => Drain(kind, Framer(Some(n), s.buffer[size..]))
      case Malformed(size) => Outcome([], Framer(None, s.buffer[size..]), true)
  }

  function Add(s: Framer, data: Binary): Framer {
    s.(buffer := s.buffer + data)
  }

  /** On an error the messages that were complete already are lost. */
  function Process(kind: Kind, s: Framer, data: Binary): (Framer, Option<seq<Binary>>) {
    var r := Drain(kind, Add(s, data));
    (r.state, if r.failed then None else Some(r.messages))
  }

  class Preprocessor {
    const kind: Kind
    var len: Option<nat>
    var buffer: Binary

    function Now(): Framer
      reads this
    {
      Framer(len, buffer)
    }

    constructor (kind: Kind)
      ensures Now() == Framer(None, []) && this.kind == kind
    {
      this.kind, len, buffer := kind, None, [];
    }

    method ProcessData(data: Binary) returns (r: Option<seq<Binary>>)
      modifies this
      ensures (Now(), r) == Process(kind, old(Now()), data)
    {
      buffer := buffer + data;
      var res := [];
      ghost var whole := Drain(kind, Now());
      AppendNothing(whole);
      while true
        invariant whole == Append(res, Drain(kind, Now()))
        decreases |buffer|, len.Some?
      {
        if len.Some? {
          if |buffer| < len.value {
            break;
          }
          AppendCons(res, buffer[..len.value], Drain(kind, Framer(None, buffer[len.value..])));
          res := res + [buffer[..len.value]];
          buffer, len := buffer[len.value..], None;
        }
        match ReadHeader(kind, buffer)
        case Incomplete => break;
        case Length(n, size) => buffer, len := buffer[size..], Some(n);
        case Malformed(size) =>
          buffer := buffer[size..];
          return None;
      }
      assert res + [] == res;
      r := Some(res);
    }
  }

  function Append(before: seq<Binary>, o: Outcome): Outcome {
    o.(messages := before + o.messages)
  }

  lemma AppendNothing(o: Outcome)
    ensures Append([], o) == o
  {
    assert [] + o.messages == o.messages;
  }

  lemma AppendCons(before: seq<Binary>, m: Binary, o: Outcome)
    ensures Append(before, Cons(m, o)) == Append(before + [m], o)
  {
    assert before + ([m] + o.messages) == (before + [m]) + o.messages;
  }

  // ----- which lengths are read

  /** A plus sign or nothing, then digits, and no more than 32 bits. */
  ghost predicate IsLength(bs: Binary, n: nat) {
    exists digits :: && (bs == digits || bs == Ascii("+") + digits) && digits != [] && AllDigits(digits)
                     && DecimalValue(digits) == n < 0x1_0000_0000
  }

  /** Blank, tab, line feed, form feed or carriage return. */
  predicate IsBlank(b: Byte) {
    b in [' ' as int, 9, 10, 12, 13]
  }

  lemma ParsesIff(bs: Binary, n: nat)
    ensures ParseU32(bs) == Some(n) <==> IsLength(bs, n)
  {
    assert Ascii("+") == [43];
    if ParseU32(bs) == Some(n) {
      var digits := if bs != [] && bs[0] == 43 then bs[1..] else bs;
      assert bs == digits || bs == [43] + digits;
    }
    if IsLength(bs, n) {
      var digits :| && (bs == digits || bs == Ascii("+") + digits) && digits != [] && AllDigits(digits)
                    && DecimalValue(digits) == n < 0x1_0000_0000;
      assert digits[0] != 43;
      if bs != digits {
        assert bs[1..] == digits;
      }
    }
  }

  /** The reader of decimal lengths waits for a blank; what is before the first one is a length, or an error. */
  lemma LengthIsReadIff(before: Binary, blank: Byte, after: Binary)
    requires IsBlank(blank) && forall i :: 0 <= i < |before| ==> !IsBlank(before[i])
    ensures ReadHeader(Digits, before) == Incomplete
    ensures var h := ReadHeader(Digits, before + [blank] + after);
            && (forall n :: IsLength(before, n) ==> h == Length(n, |before| + 1))
            && ((forall n :: !IsLength(before, n)) ==> h == Malformed(|before|))
  {
    var buf := before + [blank] + after;
    assert forall j :: 0 <= j < |before| ==> buf[j] == before[j];
    FirstSpaceAt(buf, |before|);
    assert buf[..|before|] == before;
    forall n: nat ensures ParseU32(before) == Some(n) <==> IsLength(before, n) {
      ParsesIff(before, n);
    }
    if ParseU32(before).Some? {
      assert IsLength(before, ParseU32(before).value);
    }
  }

  // ----- the pieces do not matter

  lemma HeaderKept(kind: Kind, buf: Binary, more: Binary)
    requires !ReadHeader(kind, buf).Incomplete?
    ensures ReadHeader(kind, buf + more) == ReadHeader(kind, buf)
  {
    if kind == Words {
      assert (buf + more)[..8] == buf[..8];
    } else {
      var i := FirstSpace(buf);
      FirstSpaceAt(buf + more, i);
      assert (buf + more)[..i] == buf[..i];
    }
  }

  /** More data continues where the data so far left off; an error stays an error at the same place. */
  ghost predicate Continues(kind: Kind, s: Framer, more: Binary) {
    var r := Drain(kind, s);
    Drain(kind, Add(s, more))
    == if r.failed then r.(state := Add(r.state, more))
       else Append(r.messages, Drain(kind, Add(r.state, more)))
  }

  lemma DrainTakes(kind: Kind, m: Binary, rest: Binary)
    ensures Drain(kind, Framer(Some(|m|), m + rest)) == Cons(m, Drain(kind, Framer(None, rest)))
  {
    assert (m + rest)[..|m|] == m && (m + rest)[|m|..] == rest;
  }

  lemma ContinuesMessage(kind: Kind, m: Binary, rest: Binary, more: Binary)
    requires Continues(kind, Framer(None, rest), more)
    ensures Continues(kind, Framer(Some(|m|), m + rest), more)
  {
    var r := Drain(kind, Framer(None, rest));
    DrainTakes(kind, m, rest);
    DrainTakes(kind, m, rest + more);
    Assoc(m, rest, more);
    ConsContinues(m, r, Drain(kind, Framer(None, rest + more)), Drain(kind, Add(r.state, more)), more);
  }

  lemma ConsContinues(m: Binary, r: Outcome, all: Outcome, rest: Outcome, more: Binary)
    requires all == if r.failed then r.(state := Add(r.state, more)) else Append(r.messages, rest)
    ensures Cons(m, all) == if r.failed then Cons(m, r).(state := Add(r.state, more)) else Append(Cons(m, r).messages, rest)
  {
    ConsAppend(m, r.messages, rest);
  }

  lemma ContinuesHeader(kind: Kind, buf: Binary, more: Binary)
    requires !ReadHeader(kind, buf).Incomplete?
    requires var h := ReadHeader(kind, buf);
             h.Length? ==> Continues(kind, Framer(Some(h.value), buf[h.size..]), more)
    ensures Continues(kind, Framer(None, buf), more)
  {
    var h := ReadHeader(kind, buf);
    HeaderKept(kind, buf, more);
    assert (buf + more)[h.size..] == buf[h.size..] + more;
  }

  lemma {:induction false} DrainMore(kind: Kind, s: Framer, more: Binary)
    ensures Continues(kind, s, more)
    decreases |s.buffer|, s.len.Some?
  {
    var h := ReadHeader(kind, s.buffer);
    if s.len.Some? && s.len.value <= |s.buffer| {
      var m, rest := s.buffer[..s.len.value], s.buffer[s.len.value..];
      DrainMore(kind, Framer(None, rest), more);
      ContinuesMessage(kind, m, rest, more);
      assert s == Framer(Some(|m|), m + rest);
    } else if s.len.None? && !h.Incomplete? {
      if h.Length? {
        DrainMore(kind, Framer(Some(h.value), s.buffer[h.size..]), more);
      }
      ContinuesHeader(kind, s.buffer, more);
    } else {
      AppendNothing(Drain(kind, Add(s, more)));
    }
  }

  lemma ConsAppend(m: Binary, ms: seq<Binary>, o: Outcome)
    ensures Cons(m, Append(ms, o)) == Append([m] + ms, o)
  {
    assert [m] + (ms + o.messages) == ([m] + ms) + o.messages;
  }

  /** One call for each piece; stops at the first error. */
  function Feed(kind: Kind, s: Framer, pieces: seq<Binary>): Outcome
    decreases |pieces|
  {
    if pieces == [] then Outcome([], s, false)
    else
      var r := Process(kind, s, pieces[0]);
      if r.1.None? then Outcome([], r.0, true)
      else Append(r.1.value, Feed(kind, r.0, pieces[1..]))
  }

  /** Nothing is left in the buffer that could be taken out. */
  ghost predicate Settled(kind: Kind, s: Framer) {
    Drain(kind, s) == Outcome([], s, false)
  }

  lemma {:induction false} DrainSettles(kind: Kind, s: Framer)
    ensures !Drain(kind, s).failed ==> Settled(kind, Drain(kind, s).state)
    decreases |s.buffer|, s.len.Some?
  {
    match s.len
    case Some(l) =>
      if |s.buffer| >= l {
        DrainSettles(kind, Framer(None, s.buffer[l..]));
      }
    case None =>
      var h := ReadHeader(kind, s.buffer);
      if h.Length? {
        DrainSettles(kind, Framer(Some(h.value), s.buffer[h.size..]));
      }
  }

  ghost predicate Agree(a: Outcome, b: Outcome) {
    a.failed == b.failed && (!b.failed ==> a == b)
  }

  lemma FeedOne(kind: Kind, s: Framer, pieces: seq<Binary>, rest: Outcome)
    requires pieces != [] && !Drain(kind, Add(s, pieces[0])).failed
    requires Agree(Feed(kind, Drain(kind, Add(s, pieces[0])).state, pieces[1..]), rest)
    ensures Agree(Feed(kind, s, pieces), Append(Drain(kind, Add(s, pieces[0])).messages, rest))
  {
  }

  /**
   However a stream is cut into pieces, some call fails if and only if one call with the whole stream
   would, and otherwise the messages and the state in the end are those of one call.
   */
  lemma {:induction false} PiecesDoNotMatter(kind: Kind, s: Framer, pieces: seq<Binary>)
    requires Settled(kind, s)
    ensures Agree(Feed(kind, s, pieces), Drain(kind, Add(s, Flatten(pieces))))
    decreases |pieces|
  {
    if pieces == [] {
      assert Add(s, []) == s;
    } else {
      var first, rest := Add(s, pieces[0]), Flatten(pieces[1..]);
      var r := Drain(kind, first);
      Assoc(s.buffer, pieces[0], rest);
      DrainMore(kind, first, rest);
      if !r.failed {
        DrainSettles(kind, first);
        PiecesDoNotMatter(kind, r.state, pieces[1..]);
        FeedOne(kind, s, pieces, Drain(kind, Add(r.state, rest)));
      }
    }
  }

  // ----- what is written is read

  /** The postprocessors. */
  function Frame(kind: Kind, m: Binary): Binary {
    match kind
    case Words => Word(|m|) + m
    case Digits => Decimal(|m|) + [32] + m
  }

  function Frames(kind: Kind, ms: seq<Binary>): Binary {
    if ms == [] then [] else Frame(kind, ms[0]) + Frames(kind, ms[1..])
  }

  /** A frame byte by byte: eight bytes in network order; or digits without zeros in front, and a blank. */
  lemma FrameBytes(m: Binary)
    ensures var f := Frame(Words, m);
            |f| == 8 + |m| && f[8..] == m && forall i :: 0 <= i < 8 ==> f[i] == |m| / Pow256(7 - i) % 256
    ensures var f := Frame(Digits, m);
            var n := |f| - |m| - 1;
            && n > 0 && f[n] == ' ' as int && f[n + 1..] == m
            && AllDigits(f[..n]) && DecimalValue(f[..n]) == |m| && (f[0] == '0' as int ==> |m| == 0)
  {
    forall i | 0 <= i < 8
      ensures Frame(Words, m)[i] == |m| / Pow256(7 - i) % 256
    {
      WordAt(|m|, i);
    }
    var f, digits := Frame(Digits, m), Decimal(|m|);
    DecimalReadsBack(|m|);
    DecimalIsShort(|m|);
    assert f[..|digits|] == digits && f[|digits| + 1..] == m;
  }

  /** Lengths are read as 64 bit numbers, and as 32 bit numbers. */
  predicate Fits(kind: Kind, m: Binary) {
    |m| < if kind == Words then TWO_TO_THE_64 else 0x1_0000_0000
  }

  ghost predicate AllFit(kind: Kind, ms: seq<Binary>) {
    forall i :: 0 <= i < |ms| ==> Fits(kind, ms[i])
  }

  lemma AllFitFront(kind: Kind, ms: seq<Binary>)
    requires ms != []
    ensures AllFit(kind, ms) <==> Fits(kind, ms[0]) && AllFit(kind, ms[1..])
  {
    assert forall i :: 0 < i < |ms| ==> ms[i] == ms[1..][i - 1];
  }

  lemma HeaderOfDigits(m: Binary, rest: Binary)
    ensures ReadHeader(Digits, Frame(Digits, m) + rest)
            == if Fits(Digits, m) then Length(|m|, |Decimal(|m|)| + 1) else Malformed(|Decimal(|m|)|)
  {
    var digits := Decimal(|m|);
    var buf := Frame(Digits, m) + rest;
    DecimalReadsBack(|m|);
    assert forall j :: 0 <= j < |digits| ==> buf[j] == digits[j];
    FirstSpaceAt(buf, |digits|);
    assert buf[..|digits|] == digits;
  }

  lemma HeaderOfWords(m: Binary, rest: Binary)
    requires Fits(Words, m)
    ensures ReadHeader(Words, Frame(Words, m) + rest) == if m + rest == [] then Incomplete else Length(|m|, 8)
  {
    WordReadsBack(|m|);
    assert (Frame(Words, m) + rest)[..8] == Word(|m|);
  }

  lemma DrainFrame(kind: Kind, header: Binary, m: Binary, rest: Binary)
    requires ReadHeader(kind, header + m + rest) == Length(|m|, |header|)
    ensures Drain(kind, Framer(None, header + m + rest)) == Cons(m, Drain(kind, Framer(None, rest)))
  {
    var buf := header + m + rest;
    assert buf[|header|..] == m + rest;
    DrainTakes(kind, m, rest);
  }

  lemma {:induction false} DrainDigits(ms: seq<Binary>)
    ensures var r := Drain(Digits, Framer(None, Frames(Digits, ms)));
            if AllFit(Digits, ms) then r == Outcome(ms, Framer(None, []), false) else r.failed
    decreases |ms|
  {
    if ms != [] {
      var m, rest := ms[0], Frames(Digits, ms[1..]);
      var header := Decimal(|m|) + [32];
      DrainDigits(ms[1..]);
      AllFitFront(Digits, ms);
      HeaderOfDigits(m, rest);
      assert Frames(Digits, ms) == header + m + rest;
      assert ms == [m] + ms[1..];
      if Fits(Digits, m) {
        DrainFrame(Digits, header, m, rest);
      }
    }
  }

  /** All messages, but not an empty one at the end. */
  function Delivered(ms: seq<Binary>): seq<Binary> {
    if ms != [] && ms[|ms| - 1] == [] then ms[..|ms| - 1] else ms
  }

  lemma DeliveredFront(ms: seq<Binary>)
    requires |ms| > 1 || (|ms| == 1 && ms[0] != [])
    ensures Delivered(ms) == [ms[0]] + Delivered(ms[1..])
  {
    assert ms == [ms[0]] + ms[1..];
    if |ms| > 1 {
      assert ms[1..][|ms| - 2] == ms[|ms| - 1];
      assert ms[..|ms| - 1] == [ms[0]] + ms[1..][..|ms| - 2];
    }
  }

  lemma {:induction false} DrainWords(ms: seq<Binary>)
    requires AllFit(Words, ms)
    ensures Drain(Words, Framer(None, Frames(Words, ms)))
            == Outcome(Delivered(ms), Framer(None, if Delivered(ms) == ms then [] else Word(0)), false)
    decreases |ms|
  {
    if ms != [] {
      var m, rest := ms[0], Frames(Words, ms[1..]);
      AllFitFront(Words, ms);
      if m + rest == [] {
        NoFrames(ms[1..]);
        assert Frame(Words, m) + rest == Word(0);
        assert ms[..|ms| - 1] == [];
      } else {
        DrainWords(ms[1..]);
        DrainWord(m, rest);
        DeliveredFront(ms);
        assert ms == [m] + ms[1..];
      }
    }
  }

  lemma DrainWord(m: Binary, rest: Binary)
    requires Fits(Words, m) && m + rest != []
    ensures Drain(Words, Framer(None, Frame(Words, m) + rest)) == Cons(m, Drain(Words, Framer(None, rest)))
  {
    HeaderOfWords(m, rest);
    DrainFrame(Words, Word(|m|), m, rest);
  }

  lemma NoFrames(ms: seq<Binary>)
    requires Frames(Words, ms) == []
    ensures ms == []
  {
  }

  lemma FedWhole(kind: Kind, pieces: seq<Binary>)
    ensures Agree(Feed(kind, Framer(None, []), pieces), Drain(kind, Framer(None, Flatten(pieces))))
  {
    PiecesDoNotMatter(kind, Framer(None, []), pieces);
    assert [] + Flatten(pieces) == Flatten(pieces);
  }

  /**
   Decimal lengths: however the stream is cut into pieces, the messages come back, all of them and nothing
   else, if and only if each is shorter than four gigabytes; otherwise the reader fails.
   */
  lemma DigitsReadBackIff(ms: seq<Binary>, pieces: seq<Binary>)
    requires Flatten(pieces) == Frames(Digits, ms)
    ensures var r := Feed(Digits, Framer(None, []), pieces);
            if AllFit(Digits, ms) then r == Outcome(ms, Framer(None, []), false) else r.failed
  {
    DrainDigits(ms);
    FedWhole(Digits, pieces);
  }

  /**
   Length words: however the stream is cut into pieces, the messages come back, except that an empty
   message at the end of the stream is held back with its eight bytes, until something follows.
   */
  lemma WordsReadBack(ms: seq<Binary>, pieces: seq<Binary>)
    requires AllFit(Words, ms) && Flatten(pieces) == Frames(Words, ms)
    ensures Feed(Words, Framer(None, []), pieces)
            == Outcome(Delivered(ms), Framer(None, if Delivered(ms) == ms then [] else Word(0)), false)
  {
    DrainWords(ms);
    FedWhole(Words, pieces);
  }

  // ----- errors last

  /** The reader of decimal lengths stands before a blank where digits should be. */
  predicate Poisoned(s: Framer) {
    s.len.None? && s.buffer != [] && IsSpace(s.buffer[0])
  }

  ghost predicate AllFail(s: Framer, pieces: seq<Binary>)
    decreases |pieces|
  {
    pieces == [] || (Process(Digits, s, pieces[0]).1.None? && AllFail(Process(Digits, s, pieces[0]).0, pieces[1..]))
  }

  /** After one error of the reader of decimal lengths every later call fails, whatever it gets. */
  lemma ErrorsLast(s: Framer, data: Binary, later: seq<Binary>)
    requires Process(Digits, s, data).1.None?
    ensures AllFail(Process(Digits, s, data).0, later)
  {
    FailureIsPoison(Add(s, data));
    PoisonLasts(Process(Digits, s, data).0, later);
  }

  lemma {:induction false} PoisonLasts(s: Framer, pieces: seq<Binary>)
    requires Poisoned(s)
    ensures AllFail(s, pieces)
    decreases |pieces|
  {
    if pieces != [] {
      var buf := s.buffer + pieces[0];
      FirstSpaceAt(buf, 0);
      assert buf[..0] == [];
      PoisonLasts(Framer(None, buf[0..]), pieces[1..]);
    }
  }

  lemma {:induction false} FailureIsPoison(s: Framer)
    ensures Drain(Digits, s).failed ==> Poisoned(Drain(Digits, s).state)
    decreases |s.buffer|, s.len.Some?
  {
    match s.len
    case Some(l) =>
      if |s.buffer| >= l {
        FailureIsPoison(Framer(None, s.buffer[l..]));
      }
    case None =>
      var h := ReadHeader(Digits, s.buffer);
      if h.Length? {
        FailureIsPoison(Framer(Some(h.value), s.buffer[h.size..]));
      }
  }
}
