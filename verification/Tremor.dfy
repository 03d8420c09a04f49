/**
 The binary `tremor` codec: a tag byte, and for everything of variable size a length as eight bytes
 in network order. Strings are the bytes of their UTF-8 form and floating point numbers are their eight
 bytes.

 In memory an object is a map, without an order. What is written has one: a `Form` is a value as it stands
 on the wire, with the entries of each object in the order in which they were written. A value can be
 written in several forms; which one, the map decides.
 */
module TremorCodec {
  import opened Bytes
  import opened Wrappers

  datatype Scalar =
    | Null
    | Bool(b: bool)
    | I64(i: int)
    | U64(u: nat)
    | F64(bits: Binary)
    | String(text: Binary)
    | Blob(bytes: Binary)

  datatype Value = Simple(scalar: Scalar) | Array(values: seq<Value>) | Object(fields: map<Binary, Value>)

  datatype Form = Leaf(scalar: Scalar) | List(items: seq<Form>) | Table(entries: seq<Entry>)

  datatype Entry = Entry(key: Binary, value: Form)

  datatype Error = InvalidData | InvalidVersion | UnexpectedEof

  const TWO_TO_THE_63: int := 0x8000_0000_0000_0000

  /** Two's complement. */
  function Unsigned(i: int): nat
    requires -TWO_TO_THE_63 <= i < TWO_TO_THE_63
  {
    if i >= 0 then i else i + TWO_TO_THE_64
  }

  function Signed(n: nat): int {
    if n < TWO_TO_THE_63 then n else n - TWO_TO_THE_64
  }

  // ----- numbers are in range, and no length needs more than 64 bits

  predicate ScalarFits(s: Scalar) {
    match s
    case Null => true
    case Bool(_) => true
    case I64(i) => -TWO_TO_THE_63 <= i < TWO_TO_THE_63
    case U64(u) => u < TWO_TO_THE_64
    case F64(bits) => |bits| == 8
    case String(text) => |text| < TWO_TO_THE_64
    case Blob(bytes) => |bytes| < TWO_TO_THE_64
  }

  predicate Fits(f: Form)
    decreases f
  {
    match f
    case Leaf(s) => ScalarFits(s)
    case List(items) => |items| < TWO_TO_THE_64 && ItemsFit(items)
    case Table(entries) => |entries| < TWO_TO_THE_64 && EntriesFit(entries)
  }

  predicate ItemsFit(items: seq<Form>)
    decreases items
  {
    items == [] || (Fits(items[0]) && ItemsFit(items[1..]))
  }

  predicate EntriesFit(entries: seq<Entry>)
    decreases entries
  {
    entries == [] || (EntryFits(entries[0]) && EntriesFit(entries[1..]))
  }

  predicate EntryFits(e: Entry)
    decreases e
  {
    |e.key| < TWO_TO_THE_64 && Fits(e.value)
  }

  ghost predicate ValueFits(v: Value)
    decreases v
  {
    match v
    case Simple(s) => ScalarFits(s)
    case Array(values) => |values| < TWO_TO_THE_64 && forall i :: 0 <= i < |values| ==> ValueFits(values[i])
    case Object(fields) => |fields| < TWO_TO_THE_64 && forall k :: k in fields ==> |k| < TWO_TO_THE_64 && ValueFits(fields[k])
  }

  // ----- what a form means

  /** The value that is read from a form. Of entries with the same key the last one counts. */
  function Meaning(f: Form): Value
    decreases f
  {
    match f
    case Leaf(s) => Simple(s)
    case List(items) => Array(Meanings(items))
    case Table(entries) => Object(Fields(entries))
  }

  function Meanings(items: seq<Form>): seq<Value>
    decreases items
  {
    if items == [] then [] else [Meaning(items[0])] + Meanings(items[1..])
  }

  function Fields(entries: seq<Entry>): map<Binary, Value>
    decreases entries
  {
    if entries == [] then map[] else Field(entries[0]) + Fields(entries[1..])
  }

  function Field(e: Entry): map<Binary, Value>
    decreases e
  {
    map[e.key := Meaning(e.value)]
  }

  function Keys(entries: seq<Entry>): set<Binary> {
    set e | e in entries :: e.key
  }

  /** No object has two entries with the same key. */
  predicate Distinct(f: Form)
    decreases f
  {
    match f
    case Leaf(_) => true
    case List(items) => ItemsDistinct(items)
    case Table(entries) => EntriesDistinct(entries)
  }

  predicate ItemsDistinct(items: seq<Form>)
    decreases items
  {
    items == [] || (Distinct(items[0]) && ItemsDistinct(items[1..]))
  }

  predicate EntriesDistinct(entries: seq<Entry>)
    decreases entries
  {
    entries == [] || (entries[0].key !in Keys(entries[1..]) && EntryDistinct(entries[0]) && EntriesDistinct(entries[1..]))
  }

  predicate EntryDistinct(e: Entry)
    decreases e
  {
    Distinct(e.value)
  }

  /** `f` is one of the forms in which `v` can be written. */
  ghost predicate Writes(f: Form, v: Value) {
    Fits(f) && Distinct(f) && Meaning(f) == v
  }

  // ----- encoding

  function Sized(bytes: Binary): Binary {
    Word(|bytes|) + bytes
  }

  function EncodeScalar(s: Scalar): Binary
    requires ScalarFits(s)
  {
    match s
    case Null => [0]
    case Bool(b) => if b then [1] else [2]
    case I64(i) => [3] + Word(Unsigned(i))
    case U64(u) => [4] + Word(u)
    case F64(bits) => [5] + bits
    case String(text) => [6] + Sized(text)
    case Blob(bytes) => [7] + Sized(bytes)
  }

  function EncodeForm(f: Form): Binary
    requires Fits(f)
    decreases f
  {
    match f
    case Leaf(s) => EncodeScalar(s)
    case List(items) => [8] + Word(|items|) + EncodeItems(items)
    case Table(entries) => [9] + Word(|entries|) + EncodeEntries(entries)
  }

  function EncodeItems(items: seq<Form>): Binary
    requires ItemsFit(items)
    decreases items
  {
    if items == [] then [] else EncodeForm(items[0]) + EncodeItems(items[1..])
  }

  function EncodeEntries(entries: seq<Entry>): Binary
    requires EntriesFit(entries)
    decreases entries
  {
    if entries == [] then [] else EncodeEntry(entries[0]) + EncodeEntries(entries[1..])
  }

  function EncodeEntry(e: Entry): Binary
    requires EntryFits(e)
    decreases e
  {
    Sized(e.key) + EncodeForm(e.value)
  }

  function Encode(f: Form): Binary
    requires Fits(f)
  {
    [0, 0] + EncodeForm(f)
  }

  // ----- decoding: each function gives what it read and how many bytes that took

  function TakeSized(data: Binary): (r: Result<(Binary, nat), Error>)
    ensures r.Ok? ==> 8 <= r.value.1 <= |data|
  {
    if |data| < 8 then Err(UnexpectedEof)
    else if 8 + Number(data[..8]) <= |data| then
      Ok((data[8..8 + Number(data[..8])], 8 + Number(data[..8])))
    else Err(InvalidData)
  }

  /** The values that take eight bytes. */
  function Fixed(tag: Byte, word: Binary): Scalar
    requires |word| == 8 && 3 <= tag <= 5
  {
    if tag == 3 then I64(Signed(Number(word))) else if tag == 4 then U64(Number(word)) else F64(word)
  }

  function DecodeForm(data: Binary): (r: Result<(Form, nat), Error>)
    ensures r.Ok? ==> 0 < r.value.1 <= |data|
    decreases |data|, 0
  {
    if data == [] then Err(InvalidData)
    else
      var tag, rest := data[0], data[1..];
      if tag == 0 then Ok((Leaf(Null), 1))
      else if tag == 1 then Ok((Leaf(Bool(true)), 1))
      else if tag == 2 then Ok((Leaf(Bool(false)), 1))
      else if tag == 6 || tag == 7 then
        match TakeSized(rest)
        case Err(e) => Err(e)
        case Ok((bytes, n)) => Ok((Leaf(if tag == 6 then String(bytes) else Blob(bytes)), 1 + n))
      else if tag > 9 then Err(InvalidData)
      else if |rest| < 8 then Err(UnexpectedEof)
      else if tag <= 5 then Ok((Leaf(Fixed(tag, rest[..8])), 9))
      else if tag == 8 then
        match DecodeItems(rest[8..], Number(rest[..8]))
        case Err(e) => Err(e)
        case Ok((items, n)) => Ok((List(items), 9 + n))
      else
        match DecodeEntries(rest[8..], Number(rest[..8]))
        case Err(e) => Err(e)
        case Ok((entries, n)) => Ok((Table(entries), 9 + n))
  }

  function DecodeItems(data: Binary, count: nat): (r: Result<(seq<Form>, nat), Error>)
    ensures r.Ok? ==> r.value.1 <= |data|
    decreases |data|, 1
  {
    if count == 0 then Ok(([], 0))
    else
      match DecodeForm(data)
      case Err(e) => Err(e)
      case Ok((v, n)) =>
        match DecodeItems(data[n..], count - 1)
        case Err(e) => Err(e)
        case Ok((vs, m)) => Ok(([v] + vs, n + m))
  }

  function DecodeEntries(data: Binary, count: nat): (r: Result<(seq<Entry>, nat), Error>)
    ensures r.Ok? ==> r.value.1 <= |data|
    decreases |data|, 2
  {
    if count == 0 then Ok(([], 0))
    else
      match DecodeEntry(data)
      case Err(e) => Err(e)
      case Ok((e, n)) =>
        match DecodeEntries(data[n..], count - 1)
        case Err(e) => Err(e)
        case Ok((es, m)) => Ok(([e] + es, n + m))
  }

  function DecodeEntry(data: Binary): (r: Result<(Entry, nat), Error>)
    ensures r.Ok? ==> 0 < r.value.1 <= |data|
    decreases |data|, 1
  {
    match TakeSized(data)
    case Err(e) => Err(e)
    case Ok((key, k)) =>
      match DecodeForm(data[k..])
      case Err(e) => Err(e)
      case Ok((v, n)) => Ok((Entry(key, v), k + n))
  }

  /** Bytes after the value are ignored. */
  function Decode(data: Binary): Result<Form, Error> {
    if |data| < 2 then Err(UnexpectedEof)
    else if data[0] != 0 || data[1] != 0 then Err(InvalidVersion)
    else
      match DecodeForm(data[2..])
      case Err(e) => Err(e)
      case Ok((v, _)) => Ok(v)
  }

  // ----- the bytes on the wire

  /** A tag and a length below 256. */
  function Head(tag: Byte, n: Byte): Binary {
    [0, 0, tag, 0, 0, 0, 0, 0, 0, 0, n]
  }

  lemma HeadIs(tag: Byte, n: nat, rest: Binary)
    requires n < 256
    ensures [0, 0] + ([tag] + Word(n) + rest) == Head(tag, n) + rest
  {
    SmallWord(n);
  }

  /** The tags of all kinds of values, and where the lengths stand. */
  lemma Tags(text: Binary, u: nat, bits: Binary)
    requires |text| < 256 && u < 256 && |bits| == 8
    ensures Encode(Leaf(Null)) == [0, 0, 0] && Encode(Leaf(Bool(true))) == [0, 0, 1] && Encode(Leaf(Bool(false))) == [0, 0, 2]
    ensures Encode(Leaf(I64(u))) == Head(3, u) && Encode(Leaf(U64(u))) == Head(4, u)
    ensures Encode(Leaf(F64(bits))) == [0, 0, 5] + bits
    ensures Encode(Leaf(String(text))) == Head(6, |text|) + text && Encode(Leaf(Blob(text))) == Head(7, |text|) + text
    ensures Encode(List([Leaf(Null), Leaf(Bool(true))])) == Head(8, 2) + [0, 1]
    ensures Fits(Table([Entry(text, Leaf(Null))]))
    ensures Encode(Table([Entry(text, Leaf(Null))])) == Head(9, 1) + [0, 0, 0, 0, 0, 0, 0, |text|] + text + [0]
  {
    HeadIs(3, u, []);
    HeadIs(4, u, []);
    HeadIs(6, |text|, text);
    HeadIs(7, |text|, text);
    assert Head(3, u) + [] == Head(3, u) && Head(4, u) + [] == Head(4, u);
    assert [3] + Word(u) + [] == [3] + Word(u) && [4] + Word(u) + [] == [4] + Word(u);
    assert [6] + Word(|text|) + text == [6] + Sized(text) && [7] + Word(|text|) + text == [7] + Sized(text);
    assert [0, 0] + ([5] + bits) == [0, 0, 5] + bits;
    TagOfList();
    TagOfTable(text);
  }

  lemma TagOfList()
    ensures Encode(List([Leaf(Null), Leaf(Bool(true))])) == Head(8, 2) + [0, 1]
  {
    var items := [Leaf(Null), Leaf(Bool(true))];
    assert items[1..] == [Leaf(Bool(true))] && items[1..][1..] == [];
    assert EncodeItems(items) == [0, 1];
    HeadIs(8, 2, [0, 1]);
  }

  lemma TagOfTable(text: Binary)
    requires |text| < 256
    ensures Fits(Table([Entry(text, Leaf(Null))]))
    ensures Encode(Table([Entry(text, Leaf(Null))])) == Head(9, 1) + [0, 0, 0, 0, 0, 0, 0, |text|] + text + [0]
  {
    var e := Entry(text, Leaf(Null));
    assert [e][1..] == [] && EntryFits(e) && EntriesFit([e]);
    SmallWord(|text|);
    var rest := [0, 0, 0, 0, 0, 0, 0, |text|] + text + [0];
    assert EncodeEntry(e) == rest;
    assert EncodeEntries([e]) == rest + [] == rest;
    HeadIs(9, 1, rest);
    assert Head(9, 1) + rest == Head(9, 1) + [0, 0, 0, 0, 0, 0, 0, |text|] + text + [0];
  }

  /** Negative numbers are written in two's complement. */
  lemma TwosComplement(i: int)
    requires -TWO_TO_THE_63 <= i < TWO_TO_THE_63
    ensures Unsigned(i) < TWO_TO_THE_64 && (Unsigned(i) - i) % TWO_TO_THE_64 == 0
  {
  }

  // ----- what is decoded is what was encoded

  lemma TakesSized(bytes: Binary, suffix: Binary)
    requires |bytes| < TWO_TO_THE_64
    ensures TakeSized(Sized(bytes) + suffix) == Ok((bytes, 8 + |bytes|))
  {
    WordReadsBack(|bytes|);
    var data := Sized(bytes) + suffix;
    assert data[..8] == Word(|bytes|);
    assert data[8..8 + |bytes|] == bytes;
  }

  lemma ReadsSized(tag: Byte, bytes: Binary, suffix: Binary)
    requires |bytes| < TWO_TO_THE_64 && (tag == 6 || tag == 7)
    ensures DecodeForm([tag] + Sized(bytes) + suffix)
            == Ok((Leaf(if tag == 6 then String(bytes) else Blob(bytes)), 9 + |bytes|))
  {
    TakesSized(bytes, suffix);
    assert ([tag] + Sized(bytes) + suffix)[1..] == Sized(bytes) + suffix;
  }

  lemma ReadsWord(tag: Byte, word: Binary, suffix: Binary)
    requires |word| == 8 && 3 <= tag <= 5
    ensures DecodeForm([tag] + word + suffix) == Ok((Leaf(Fixed(tag, word)), 9))
  {
    var data := [tag] + word + suffix;
    assert data[1..][..8] == word;
  }

  lemma ReadsArray(word: Binary, tail: Binary)
    requires |word| == 8 && DecodeItems(tail, Number(word)).Ok?
    ensures var (items, n) := DecodeItems(tail, Number(word)).value;
            DecodeForm([8] + word + tail) == Ok((List(items), 9 + n))
  {
    var data := [8] + word + tail;
    assert data[1..][..8] == word && data[1..][8..] == tail;
  }

  lemma ReadsObject(word: Binary, tail: Binary)
    requires |word| == 8 && DecodeEntries(tail, Number(word)).Ok?
    ensures var (entries, n) := DecodeEntries(tail, Number(word)).value;
            DecodeForm([9] + word + tail) == Ok((Table(entries), 9 + n))
  {
    var data := [9] + word + tail;
    assert data[1..][..8] == word && data[1..][8..] == tail;
  }

  lemma ReadsItem(first: Binary, v: Form, tail: Binary, count: nat)
    requires DecodeForm(first + tail) == Ok((v, |first|)) && DecodeItems(tail, count).Ok?
    ensures var (vs, m) := DecodeItems(tail, count).value;
            DecodeItems(first + tail, count + 1) == Ok(([v] + vs, |first| + m))
  {
    assert (first + tail)[|first|..] == tail;
  }

  lemma ReadsOneEntry(first: Binary, e: Entry, tail: Binary, count: nat)
    requires DecodeEntry(first + tail) == Ok((e, |first|)) && DecodeEntries(tail, count).Ok?
    ensures var (es, m) := DecodeEntries(tail, count).value;
            DecodeEntries(first + tail, count + 1) == Ok(([e] + es, |first| + m))
  {
    assert (first + tail)[|first|..] == tail;
  }

  lemma ReadsKey(key: Binary, tail: Binary)
    requires |key| < TWO_TO_THE_64 && DecodeForm(tail).Ok?
    ensures var (v, n) := DecodeForm(tail).value;
            DecodeEntry(Sized(key) + tail) == Ok((Entry(key, v), 8 + |key| + n))
  {
    TakesSized(key, tail);
    assert (Sized(key) + tail)[8 + |key|..] == tail;
  }

  lemma ReadsScalar(s: Scalar, suffix: Binary)
    requires ScalarFits(s)
    ensures DecodeForm(EncodeScalar(s) + suffix) == Ok((Leaf(s), |EncodeScalar(s)|))
  {
    match s
    case Null =>
    case Bool(_) =>
    case I64(i) =>
      WordReadsBack(Unsigned(i));
      ReadsWord(3, Word(Unsigned(i)), suffix);
    case U64(u) =>
      WordReadsBack(u);
      ReadsWord(4, Word(u), suffix);
    case F64(bits) => ReadsWord(5, bits, suffix);
    case String(text) => ReadsSized(6, text, suffix);
    case Blob(bytes) => ReadsSized(7, bytes, suffix);
  }

  /** A form that was written is read back, whatever follows it, and exactly its bytes are used. */
  lemma {:induction false} ReadsEncoded(f: Form, suffix: Binary)
    requires Fits(f)
    ensures DecodeForm(EncodeForm(f) + suffix) == Ok((f, |EncodeForm(f)|))
    decreases f
  {
    match f
    case List(items) =>
      WordReadsBack(|items|);
      ReadsItems(items, suffix);
      ReadsArray(Word(|items|), EncodeItems(items) + suffix);
      Assoc([8] + Word(|items|), EncodeItems(items), suffix);
    case Table(entries) =>
      WordReadsBack(|entries|);
      ReadsEntries(entries, suffix);
      ReadsObject(Word(|entries|), EncodeEntries(entries) + suffix);
      Assoc([9] + Word(|entries|), EncodeEntries(entries), suffix);
    case Leaf(s) => ReadsScalar(s, suffix);
  }

  lemma {:induction false} ReadsItems(items: seq<Form>, suffix: Binary)
    requires ItemsFit(items)
    ensures DecodeItems(EncodeItems(items) + suffix, |items|) == Ok((items, |EncodeItems(items)|))
    decreases items
  {
    if items != [] {
      var first, rest := EncodeForm(items[0]), EncodeItems(items[1..]);
      ReadsEncoded(items[0], rest + suffix);
      ReadsItems(items[1..], suffix);
      ReadsItem(first, items[0], rest + suffix, |items| - 1);
      Assoc(first, rest, suffix);
      assert items == [items[0]] + items[1..];
    }
  }

  lemma {:induction false} ReadsEntries(entries: seq<Entry>, suffix: Binary)
    requires EntriesFit(entries)
    ensures DecodeEntries(EncodeEntries(entries) + suffix, |entries|) == Ok((entries, |EncodeEntries(entries)|))
    decreases entries
  {
    if entries != [] {
      var first, rest := EncodeEntry(entries[0]), EncodeEntries(entries[1..]);
      ReadsEntry(entries[0], rest + suffix);
      ReadsEntries(entries[1..], suffix);
      ReadsOneEntry(first, entries[0], rest + suffix, |entries| - 1);
      Assoc(first, rest, suffix);
      assert entries == [entries[0]] + entries[1..];
    }
  }

  lemma {:induction false} ReadsEntry(e: Entry, suffix: Binary)
    requires EntryFits(e)
    ensures DecodeEntry(EncodeEntry(e) + suffix) == Ok((e, |EncodeEntry(e)|))
    decreases e
  {
    ReadsEncoded(e.value, suffix);
    ReadsKey(e.key, EncodeForm(e.value) + suffix);
    Assoc(Sized(e.key), EncodeForm(e.value), suffix);
  }

  // ----- and nothing else is decoded

  lemma TakeTwo(data: Binary, n: nat, m: nat)
    requires n + m <= |data|
    ensures data[..n + m] == data[..n] + data[n..][..m]
  {
  }

  lemma ItemsFront(v: Form, vs: seq<Form>)
    requires Fits(v) && ItemsFit(vs)
    ensures ItemsFit([v] + vs) && EncodeItems([v] + vs) == EncodeForm(v) + EncodeItems(vs)
  {
    assert ([v] + vs)[1..] == vs;
  }

  lemma EntriesFront(e: Entry, es: seq<Entry>)
    requires EntryFits(e) && EntriesFit(es)
    ensures EntriesFit([e] + es) && EncodeEntries([e] + es) == EncodeEntry(e) + EncodeEntries(es)
  {
    assert ([e] + es)[1..] == es;
  }

  lemma TookSized(data: Binary)
    requires TakeSized(data).Ok?
    ensures var (bytes, n) := TakeSized(data).value;
            |bytes| < TWO_TO_THE_64 && Sized(bytes) == data[..n]
  {
    WordWritesBack(data[..8]);
    var n := Number(data[..8]);
    assert data[..8 + n] == data[..8] + data[8..8 + n];
  }

  /** A tag, eight bytes that make a number, and what follows. */
  lemma Layout(data: Binary, n: nat)
    requires |data| >= 9 + n
    ensures var word := data[1..][..8];
            && Number(word) < TWO_TO_THE_64 && Word(Number(word)) == word
            && data[..9 + n] == [data[0]] + word + data[1..][8..][..n]
            && data[..9] == [data[0]] + word
  {
    WordWritesBack(data[1..][..8]);
  }

  lemma EncodesSized(data: Binary)
    requires data != [] && (data[0] == 6 || data[0] == 7) && TakeSized(data[1..]).Ok?
    ensures var (bytes, n) := TakeSized(data[1..]).value;
            |bytes| < TWO_TO_THE_64 && [data[0]] + Sized(bytes) == data[..1 + n]
  {
    TookSized(data[1..]);
    TakeTwo(data, 1, TakeSized(data[1..]).value.1);
    assert data[..1] == [data[0]];
  }

  lemma EncodesFixed(tag: Byte, word: Binary)
    requires |word| == 8 && 3 <= tag <= 5
    ensures ScalarFits(Fixed(tag, word)) && EncodeScalar(Fixed(tag, word)) == [tag] + word
  {
    WordWritesBack(word);
  }

  lemma DecodesFixed(data: Binary)
    requires |data| >= 9 && 3 <= data[0] <= 5
    ensures DecodeForm(data) == Ok((Leaf(Fixed(data[0], data[1..][..8])), 9))
  {
  }

  /** Whatever bytes are accepted, the form that was read encodes to exactly those bytes. */
  lemma {:induction false} EncodesRead(data: Binary)
    requires DecodeForm(data).Ok?
    ensures var (v, n) := DecodeForm(data).value;
            Fits(v) && EncodeForm(v) == data[..n]
    decreases |data|, 0
  {
    var tag, rest := data[0], data[1..];
    if tag <= 2 {
      assert data[..1] == [tag];
    } else if tag == 6 || tag == 7 {
      EncodesSized(data);
    } else if tag <= 5 {
      Layout(data, 0);
      DecodesFixed(data);
      EncodesFixed(tag, rest[..8]);
    } else {
      Layout(data, DecodeForm(data).value.1 - 9);
      if tag == 8 {
        EncodesItems(rest[8..], Number(rest[..8]));
      } else {
        EncodesEntries(rest[8..], Number(rest[..8]));
      }
    }
  }

  lemma {:induction false} EncodesItems(data: Binary, count: nat)
    requires DecodeItems(data, count).Ok?
    ensures var (items, n) := DecodeItems(data, count).value;
            |items| == count && ItemsFit(items) && EncodeItems(items) == data[..n]
    decreases |data|, 1
  {
    if count > 0 {
      var (v, n) := DecodeForm(data).value;
      var (vs, m) := DecodeItems(data[n..], count - 1).value;
      EncodesRead(data);
      EncodesItems(data[n..], count - 1);
      ItemsFront(v, vs);
      TakeTwo(data, n, m);
    }
  }

  lemma {:induction false} EncodesEntries(data: Binary, count: nat)
    requires DecodeEntries(data, count).Ok?
    ensures var (entries, n) := DecodeEntries(data, count).value;
            |entries| == count && EntriesFit(entries) && EncodeEntries(entries) == data[..n]
    decreases |data|, 2
  {
    if count > 0 {
      var (e, n) := DecodeEntry(data).value;
      var (es, m) := DecodeEntries(data[n..], count - 1).value;
      EncodesEntry(data);
      EncodesEntries(data[n..], count - 1);
      EntriesFront(e, es);
      TakeTwo(data, n, m);
    }
  }

  lemma {:induction false} EncodesEntry(data: Binary)
    requires DecodeEntry(data).Ok?
    ensures var (e, n) := DecodeEntry(data).value;
            EntryFits(e) && EncodeEntry(e) == data[..n]
    decreases |data|, 1
  {
    var k := TakeSized(data).value.1;
    var n := DecodeForm(data[k..]).value.1;
    TookSized(data);
    EncodesRead(data[k..]);
    TakeTwo(data, k, n);
  }

  // ----- values

  lemma {:induction false} MeaningsAre(items: seq<Form>)
    ensures |Meanings(items)| == |items| && forall i :: 0 <= i < |items| ==> Meanings(items)[i] == Meaning(items[i])
  {
    if items != [] {
      MeaningsAre(items[1..]);
    }
  }

  lemma KeysFront(e: Entry, es: seq<Entry>)
    ensures Keys([e] + es) == {e.key} + Keys(es)
  {
    assert forall x :: x in [e] + es <==> x == e || x in es;
  }

  lemma {:induction false} FieldsKeys(entries: seq<Entry>)
    ensures Fields(entries).Keys == Keys(entries)
  {
    if entries != [] {
      FieldsKeys(entries[1..]);
      KeysFront(entries[0], entries[1..]);
      assert entries == [entries[0]] + entries[1..];
    }
  }

  /** Without repeated keys an object has as many fields as there are entries. */
  lemma {:induction false} FieldsCount(entries: seq<Entry>)
    requires EntriesDistinct(entries)
    ensures |Fields(entries)| == |entries|
  {
    if entries != [] {
      var e, rest := entries[0], entries[1..];
      FieldsCount(rest);
      FieldsKeys(rest);
      assert Fields(entries).Keys == {e.key} + Fields(rest).Keys;
      assert |Fields(entries)| == |Fields(entries).Keys| && |Fields(rest)| == |Fields(rest).Keys|;
    }
  }

  // ----- main results

  /**
   The format is exactly the image of the encoder: decoding gives a form if and only if its encoding is
   a prefix of the data. So the round trip holds, malformed data is never accepted, and no two forms share
   an encoding, not even as prefixes.
   */
  lemma DecodesIff(data: Binary, f: Form)
    ensures Decode(data) == Ok(f) <==> Fits(f) && Encode(f) <= data
  {
    if Decode(data) == Ok(f) {
      DecodedIsPrefix(data, f);
    }
    if Fits(f) && Encode(f) <= data {
      DecodesAppended(f, data[|Encode(f)|..]);
      assert data == Encode(f) + data[|Encode(f)|..];
    }
  }

  lemma DecodesAppended(f: Form, suffix: Binary)
    requires Fits(f)
    ensures Decode(Encode(f) + suffix) == Ok(f)
  {
    var body := EncodeForm(f) + suffix;
    Assoc([0, 0], EncodeForm(f), suffix);
    ReadsEncoded(f, suffix);
    assert ([0, 0] + body)[2..] == body;
  }

  lemma DecodedIsPrefix(data: Binary, f: Form)
    requires Decode(data) == Ok(f)
    ensures Fits(f) && Encode(f) <= data
  {
    var n := DecodeForm(data[2..]).value.1;
    EncodesRead(data[2..]);
    assert EncodeForm(f) == data[2..][..n];
    assert Encode(f) == data[..2 + n];
  }

  /** What the codec reads from `data`. */
  function Read(data: Binary): Result<Value, Error> {
    match Decode(data)
    case Err(e) => Err(e)
    case Ok(f) => Ok(Meaning(f))
  }

  /** The data begins with an encoding of the value, in one of its forms. */
  ghost predicate Begins(data: Binary, v: Value) {
    exists f :: Writes(f, v) && Encode(f) <= data
  }

  /**
   Data begins with an encoding of a value, in whatever order the entries of its objects were written, if
   and only if it is accepted, no object in it repeats a key, and this value is what is read.
   */
  lemma BeginsIff(data: Binary, v: Value)
    ensures Begins(data, v) <==> Decode(data).Ok? && Distinct(Decode(data).value) && Read(data) == Ok(v)
  {
    if f :| Writes(f, v) && Encode(f) <= data {
      DecodesIff(data, f);
    }
    if Decode(data).Ok? && Distinct(Decode(data).value) && Read(data) == Ok(v) {
      DecodesIff(data, Decode(data).value);
      assert Writes(Decode(data).value, v);
    }
  }

  /** Round trip: whatever order the map yields its entries in and whatever follows, the value is read back. */
  lemma RoundTrip(v: Value, f: Form, suffix: Binary)
    requires Writes(f, v)
    ensures Read(Encode(f) + suffix) == Ok(v)
  {
    assert Encode(f) <= Encode(f) + suffix;
    DecodesIff(Encode(f) + suffix, f);
  }

  /** Different values never share an encoding, not even as prefixes. */
  lemma PrefixFree(a: Value, f: Form, b: Value, g: Form)
    requires Writes(f, a) && Writes(g, b) && Encode(f) <= Encode(g)
    ensures a == b && f == g
  {
    DecodesIff(Encode(g), f);
    DecodesIff(Encode(g), g);
  }

  /** Data that ends too early is never accepted. */
  lemma Truncated(f: Form, n: nat)
    requires Fits(f) && n < |Encode(f)|
    ensures Decode(Encode(f)[..n]).Err?
  {
    var data := Encode(f)[..n];
    if Decode(data).Ok? {
      var g := Decode(data).value;
      DecodesIff(data, g);
      DecodesIff(Encode(f), f);
      DecodesIff(Encode(f), g);
    }
  }

  /** A scalar that is cut off: missing bytes of a word are an early end, a missing tag or text is invalid data. */
  lemma TruncatedScalar(s: Scalar, n: nat)
    requires ScalarFits(s) && n < |EncodeScalar(s)|
    ensures DecodeForm(EncodeScalar(s)[..n]) == Err(if 0 < n < 9 then UnexpectedEof else InvalidData)
  {
    var data := EncodeScalar(s)[..n];
    if s.String? || s.Blob? {
      var bytes := if s.String? then s.text else s.bytes;
      if n >= 9 {
        assert EncodeScalar(s)[1..] == Word(|bytes|) + bytes;
        assert data[1..][..8] == (Word(|bytes|) + bytes)[..8] == Word(|bytes|);
        WordReadsBack(|bytes|);
      }
    }
  }

  lemma UnknownTag(data: Binary)
    requires data != [] && data[0] > 9
    ensures DecodeForm(data) == Err(InvalidData)
  {
  }

  lemma {:induction false} NoVersionInForm(data: Binary)
    ensures DecodeForm(data) != Err(InvalidVersion)
    decreases |data|, 0
  {
    if |data| >= 9 && data[0] == 8 {
      NoVersionInItems(data[1..][8..], Number(data[1..][..8]));
    } else if |data| >= 9 && data[0] == 9 {
      NoVersionInEntries(data[1..][8..], Number(data[1..][..8]));
    }
  }

  lemma {:induction false} NoVersionInItems(data: Binary, count: nat)
    ensures DecodeItems(data, count) != Err(InvalidVersion)
    decreases |data|, 1
  {
    if count > 0 {
      NoVersionInForm(data);
      if DecodeForm(data).Ok? {
        NoVersionInItems(data[DecodeForm(data).value.1..], count - 1);
      }
    }
  }

  lemma {:induction false} NoVersionInEntries(data: Binary, count: nat)
    ensures DecodeEntries(data, count) != Err(InvalidVersion)
    decreases |data|, 1
  {
    if count > 0 {
      if TakeSized(data).Ok? {
        NoVersionInForm(data[TakeSized(data).value.1..]);
      }
      if DecodeEntry(data).Ok? {
        NoVersionInEntries(data[DecodeEntry(data).value.1..], count - 1);
      }
    }
  }

  /** The version comes first: without its two bytes the data has ended, and any but 0 is refused whatever follows. */
  lemma VersionFirst(data: Binary)
    ensures |data| < 2 ==> Decode(data) == Err(UnexpectedEof)
    ensures Decode(data) == Err(InvalidVersion) <==> |data| >= 2 && data[..2] != [0, 0]
  {
    if |data| >= 2 {
      NoVersionInForm(data[2..]);
    }
  }

  /** Data that repeats a key is accepted, although no value with unique keys is ever written like that. */
  lemma RepeatedKeys(key: Binary, a: Form, b: Form, suffix: Binary) returns (data: Binary)
    requires |key| < TWO_TO_THE_64 && Fits(a) && Fits(b)
    ensures Read(data).Ok? && forall v :: !Begins(data, v)
  {
    var e, es := Entry(key, a), [Entry(key, b)];
    var f := Table([e] + es);
    OneEntry(Entry(key, b));
    EntriesFront(e, es);
    assert ([e] + es)[1..] == es;
    data := Encode(f) + suffix;
    assert Encode(f) <= data;
    DecodesIff(data, f);
    forall v ensures !Begins(data, v) {
      BeginsIff(data, v);
    }
  }

  lemma OneEntry(e: Entry)
    requires EntryFits(e)
    ensures EntriesFit([e]) && e.key in Keys([e]) && Fields([e]) == Field(e)
  {
    assert [e][1..] == [] && e in [e];
  }

  // ----- the codec as it stands, with loops over a shrinking slice and a growing buffer

  /** What is read, for what is written. */
  function Meant(r: Result<(Form, nat), Error>): Result<(Value, nat), Error> {
    match r
    case Err(e) => Err(e)
    case Ok((f, n)) => Ok((Meaning(f), n))
  }

  function MeantItems(done: seq<Value>, total: nat, rest: Result<(seq<Form>, nat), Error>): Result<(seq<Value>, nat), Error> {
    match rest
    case Err(e) => Err(e)
    case Ok((items, n)) => Ok((done + Meanings(items), total + n))
  }

  function MeantFields(done: map<Binary, Value>, total: nat, rest: Result<(seq<Entry>, nat), Error>)
    : Result<(map<Binary, Value>, nat), Error>
  {
    match rest
    case Err(e) => Err(e)
    case Ok((entries, n)) => Ok((done + Fields(entries), total + n))
  }

  lemma NothingBefore(rest: Result<(seq<Form>, nat), Error>)
    ensures rest.Ok? ==> MeantItems([], 0, rest) == Ok((Meanings(rest.value.0), rest.value.1))
  {
    if rest.Ok? {
      assert [] + Meanings(rest.value.0) == Meanings(rest.value.0);
    }
  }

  lemma NothingBeforeFields(rest: Result<(seq<Entry>, nat), Error>)
    ensures rest.Ok? ==> MeantFields(map[], 0, rest) == Ok((Fields(rest.value.0), rest.value.1))
  {
    if rest.Ok? {
      assert map[] + Fields(rest.value.0) == Fields(rest.value.0);
    }
  }

  lemma OneMoreItem(done: seq<Value>, total: nat, f: Form, n: nat, more: seq<Form>, m: nat)
    ensures MeantItems(done, total, Ok(([f] + more, n + m))) == MeantItems(done + [Meaning(f)], total + n, Ok((more, m)))
  {
    assert ([f] + more)[1..] == more;
    assert done + ([Meaning(f)] + Meanings(more)) == (done + [Meaning(f)]) + Meanings(more);
  }

  lemma OneMoreField(done: map<Binary, Value>, total: nat, e: Entry, n: nat, more: seq<Entry>, m: nat)
    ensures MeantFields(done, total, Ok(([e] + more, n + m)))
            == MeantFields(done[e.key := Meaning(e.value)], total + n, Ok((more, m)))
  {
    assert ([e] + more)[1..] == more;
    assert done + (Field(e) + Fields(more)) == done[e.key := Meaning(e.value)] + Fields(more);
  }

  method ReadLength(data: Binary) returns (r: Result<(nat, Binary), Error>)
    ensures r == if |data| < 8 then Err(UnexpectedEof) else Ok((Number(data[..8]), data[8..]))
  {
    if |data| < 8 {
      return Err(UnexpectedEof);
    }
    r := Ok((Number(data[..8]), data[8..]));
  }

  /** Strings and binaries, also the keys of objects: the bytes and how many were used for them. */
  method ReadSized(data: Binary) returns (r: Result<(Binary, nat), Error>)
    ensures r == TakeSized(data)
  {
    var length := ReadLength(data);
    if length.Err? {
      return Err(length.error);
    }
    var (len, rest) := length.value;
    if len > |rest| {
      return Err(InvalidData);
    }
    assert data[8..8 + len] == rest[..len];
    r := Ok((rest[..len], 8 + len));
  }

  method ReadValue(data: Binary) returns (r: Result<(Value, nat), Error>)
    ensures r == Meant(DecodeForm(data))
    decreases |data|, 0
  {
    if data == [] {
      return Err(InvalidData);
    }
    var tag, rest := data[0], data[1..];
    if tag <= 2 {
      return Ok((Simple(if tag == 0 then Null else Bool(tag == 1)), 1));
    } else if tag == 6 || tag == 7 {
      var sized := ReadSized(rest);
      if sized.Err? {
        return Err(sized.error);
      }
      var (bytes, n) := sized.value;
      return Ok((Simple(if tag == 6 then String(bytes) else Blob(bytes)), 1 + n));
    } else if tag > 9 {
      return Err(InvalidData);
    }
    var length := ReadLength(rest);
    if length.Err? {
      return Err(length.error);
    }
    var (len, tail) := length.value;
    if tag == 3 {
      r := Ok((Simple(I64(if len < TWO_TO_THE_63 then len else len - TWO_TO_THE_64)), 9));
    } else if tag == 4 {
      r := Ok((Simple(U64(len)), 9));
    } else if tag == 5 {
      r := Ok((Simple(F64(rest[..8])), 9));
    } else if tag == 8 {
      var items := ReadItems(tail, len);
      NothingBefore(DecodeItems(tail, len));
      r := match items case Err(e) => Err(e) case Ok((vs, n)) => Ok((Array(vs), 9 + n));
    } else {
      var fields := ReadEntries(tail, len);
      NothingBeforeFields(DecodeEntries(tail, len));
      r := match fields case Err(e) => Err(e) case Ok((o, n)) => Ok((Object(o), 9 + n));
    }
  }

  /** The loop over the values of an array. */
  method ReadItems(rest: Binary, len: nat) returns (r: Result<(seq<Value>, nat), Error>)
    ensures r == MeantItems([], 0, DecodeItems(rest, len))
    decreases |rest|, 1
  {
    var data, total, items := rest, 0, [];
    for i := 0 to len
      invariant |data| + total == |rest|
      invariant MeantItems([], 0, DecodeItems(rest, len)) == MeantItems(items, total, DecodeItems(data, len - i))
    {
      var one := ReadValue(data);
      if one.Err? {
        return Err(one.error);
      }
      var (v, read) := one.value;
      ghost var more := DecodeItems(data[read..], len - i - 1);
      if more.Ok? {
        OneMoreItem(items, total, DecodeForm(data).value.0, read, more.value.0, more.value.1);
      }
      total, data, items := total + read, data[read..], items + [v];
    }
    assert items + [] == items;
    r := Ok((items, total));
  }

  /** The loop over the entries of an object. */
  method ReadEntries(rest: Binary, len: nat) returns (r: Result<(map<Binary, Value>, nat), Error>)
    ensures r == MeantFields(map[], 0, DecodeEntries(rest, len))
    decreases |rest|, 2
  {
    var data, total, fields: map<Binary, Value> := rest, 0, map[];
    for i := 0 to len
      invariant |data| + total == |rest|
      invariant MeantFields(map[], 0, DecodeEntries(rest, len)) == MeantFields(fields, total, DecodeEntries(data, len - i))
    {
      var one := ReadEntry(data);
      if one.Err? {
        return Err(one.error);
      }
      var (k, v, read) := one.value;
      ghost var more := DecodeEntries(data[read..], len - i - 1);
      if more.Ok? {
        OneMoreField(fields, total, DecodeEntry(data).value.0, read, more.value.0, more.value.1);
      }
      total, data, fields := total + read, data[read..], fields[k := v];
    }
    assert fields + map[] == fields;
    r := Ok((fields, total));
  }

  method ReadEntry(data: Binary) returns (r: Result<(Binary, Value, nat), Error>)
    ensures match DecodeEntry(data)
            case Err(e) => r == Err(e)
            case Ok((e, n)) => r == Ok((e.key, Meaning(e.value), n))
    decreases |data|, 1
  {
    var key := ReadSized(data);
    if key.Err? {
      return Err(key.error);
    }
    var (k, n) := key.value;
    var value := ReadValue(data[n..]);
    r := match value case Err(e) => Err(e) case Ok((v, m)) => Ok((k, v, n + m));
  }

  ghost predicate WritesItems(items: seq<Form>, values: seq<Value>) {
    ItemsFit(items) && ItemsDistinct(items) && Meanings(items) == values
  }

  ghost predicate WritesEntries(entries: seq<Entry>, fields: map<Binary, Value>) {
    EntriesFit(entries) && EntriesDistinct(entries) && Fields(entries) == fields
  }

  lemma WritesArray(items: seq<Form>, values: seq<Value>, before: Binary)
    requires WritesItems(items, values) && |values| < TWO_TO_THE_64
    ensures Writes(List(items), Array(values))
    ensures (before + ([8] + Word(|values|))) + EncodeItems(items) == before + EncodeForm(List(items))
  {
    MeaningsAre(items);
    Assoc(before, [8] + Word(|values|), EncodeItems(items));
  }

  lemma WritesObject(entries: seq<Entry>, fields: map<Binary, Value>, before: Binary)
    requires WritesEntries(entries, fields) && |fields| < TWO_TO_THE_64
    ensures Writes(Table(entries), Object(fields))
    ensures (before + ([9] + Word(|fields|))) + EncodeEntries(entries) == before + EncodeForm(Table(entries))
  {
    FieldsCount(entries);
    Assoc(before, [9] + Word(|fields|), EncodeEntries(entries));
  }

  /** A list of forms that gets one more at its end. */
  lemma {:induction false} ItemsBack(items: seq<Form>, values: seq<Value>, f: Form, v: Value)
    requires WritesItems(items, values) && Writes(f, v)
    ensures WritesItems(items + [f], values + [v])
    ensures EncodeItems(items + [f]) == EncodeItems(items) + EncodeForm(f)
    decreases |items|
  {
    if items == [] {
      assert items + [f] == [f] && [f][1..] == [];
      assert [] + EncodeForm(f) == EncodeForm(f) + [];
    } else {
      ItemsBack(items[1..], values[1..], f, v);
      assert (values + [v]) == [values[0]] + (values[1..] + [v]);
      assert (items + [f])[1..] == items[1..] + [f];
      Assoc(EncodeForm(items[0]), EncodeItems(items[1..]), EncodeForm(f));
    }
  }

  /** Entries that get one more at their end, with a new key. */
  lemma {:induction false} EntriesBack(entries: seq<Entry>, e: Entry)
    requires EntriesFit(entries) && EntriesDistinct(entries) && EntryFits(e) && EntryDistinct(e) && e.key !in Keys(entries)
    ensures EntriesFit(entries + [e]) && EntriesDistinct(entries + [e]) && Keys(entries + [e]) == Keys(entries) + {e.key}
    ensures Fields(entries + [e]) == Fields(entries)[e.key := Meaning(e.value)]
    ensures EncodeEntries(entries + [e]) == EncodeEntries(entries) + EncodeEntry(e)
    decreases |entries|
  {
    assert forall x :: x in entries + [e] <==> x in entries || x == e;
    if entries == [] {
      assert entries + [e] == [e] && [e][1..] == [];
      assert [] + EncodeEntry(e) == EncodeEntry(e) + [];
    } else {
      var first, rest := entries[0], entries[1..];
      assert entries == [first] + rest;
      KeysFront(first, rest);
      EntriesBack(rest, e);
      assert (entries + [e])[1..] == rest + [e];
      FieldsBack(Field(first), Fields(rest), e);
      Assoc(EncodeEntry(first), EncodeEntries(rest), EncodeEntry(e));
    }
  }

  lemma EntryBack(entries: seq<Entry>, fields: map<Binary, Value>, k: Binary, f: Form, v: Value)
    requires WritesEntries(entries, fields) && k !in fields && |k| < TWO_TO_THE_64 && Writes(f, v)
    ensures WritesEntries(entries + [Entry(k, f)], fields[k := v])
    ensures EncodeEntries(entries + [Entry(k, f)]) == EncodeEntries(entries) + EncodeEntry(Entry(k, f))
  {
    FieldsKeys(entries);
    EntriesBack(entries, Entry(k, f));
  }

  lemma FieldsBack(a: map<Binary, Value>, b: map<Binary, Value>, e: Entry)
    ensures a + b[e.key := Meaning(e.value)] == (a + b)[e.key := Meaning(e.value)]
  {
  }

  class Codec {
    var buf: Binary

    constructor ()
      ensures buf == []
    {
      buf := [];
    }

    /** The buffer is emptied by each call, so every call gives an encoding of its own value. */
    method EncodeToVec(v: Value) returns (r: Binary, ghost f: Form)
      requires ValueFits(v)
      modifies this
      ensures Writes(f, v) && r == old(buf) + Encode(f) && buf == []
    {
      buf := buf + [0, 0];
      f := Write(v);
      assert buf == old(buf) + Encode(f);
      r := buf;
      buf := [];
    }

    method WriteLength(tag: Byte, len: nat)
      modifies this
      ensures buf == old(buf) + ([tag] + Word(len))
    {
      buf := buf + [tag];
      buf := buf + Word(len);
    }

    method WriteScalar(s: Scalar)
      requires ScalarFits(s)
      modifies this
      ensures buf == old(buf) + EncodeScalar(s)
    {
      match s
      case Null => buf := buf + [0];
      case Bool(b) => buf := buf + [if b then 1 else 2];
      case I64(i) => WriteLength(3, if i >= 0 then i else i + TWO_TO_THE_64);
      case U64(u) => WriteLength(4, u);
      case F64(bits) =>
        buf := buf + [5];
        buf := buf + bits;
      case String(text) =>
        WriteLength(6, |text|);
        buf := buf + text;
      case Blob(bytes) =>
        WriteLength(7, |bytes|);
        buf := buf + bytes;
    }

    /** Appends the value in one of its forms. */
    method Write(v: Value) returns (ghost f: Form)
      requires ValueFits(v)
      modifies this
      ensures Writes(f, v) && buf == old(buf) + EncodeForm(f)
      decreases v, 1
    {
      match v
      case Simple(s) =>
        WriteScalar(s);
        f := Leaf(s);
      case Array(values) =>
        WriteLength(8, |values|);
        ghost var items := WriteItems(v);
        WritesArray(items, values, old(buf));
        f := List(items);
      case Object(fields) =>
        WriteLength(9, |fields|);
        ghost var entries := WriteFields(v);
        WritesObject(entries, fields, old(buf));
        f := Table(entries);
    }

    method WriteItems(v: Value) returns (ghost items: seq<Form>)
      requires ValueFits(v) && v.Array?
      modifies this
      ensures WritesItems(items, v.values) && buf == old(buf) + EncodeItems(items)
      decreases v, 0
    {
      items := [];
      for i := 0 to |v.values|
        invariant WritesItems(items, v.values[..i]) && buf == old(buf) + EncodeItems(items)
      {
        ghost var f := Write(v.values[i]);
        ItemsBack(items, v.values[..i], f, v.values[i]);
        Assoc(old(buf), EncodeItems(items), EncodeForm(f));
        assert v.values[..i] + [v.values[i]] == v.values[..i + 1];
        items := items + [f];
      }
      assert v.values[..|v.values|] == v.values;
    }

    /** The fields come in whatever order the map has them. */
    method WriteFields(v: Value) returns (ghost entries: seq<Entry>)
      requires ValueFits(v) && v.Object?
      modifies this
      ensures WritesEntries(entries, v.fields) && buf == old(buf) + EncodeEntries(entries)
      decreases v, 0
    {
      entries := [];
      var left := v.fields.Keys;
      while left != {}
        invariant left <= v.fields.Keys
        invariant WritesEntries(entries, v.fields - left) && buf == old(buf) + EncodeEntries(entries)
        decreases left
      {
        var k :| k in left;
        ghost var f := WriteField(k, v.fields[k]);
        EntryBack(entries, v.fields - left, k, f, v.fields[k]);
        Assoc(old(buf), EncodeEntries(entries), EncodeEntry(Entry(k, f)));
        OneFieldLess(v.fields, left, k);
        entries, left := entries + [Entry(k, f)], left - {k};
      }
      assert v.fields - {} == v.fields;
    }

    method WriteField(k: Binary, v: Value) returns (ghost f: Form)
      requires |k| < TWO_TO_THE_64 && ValueFits(v)
      modifies this
      ensures Writes(f, v) && buf == old(buf) + EncodeEntry(Entry(k, f))
      decreases v, 2
    {
      buf := buf + Word(|k|);
      buf := buf + k;
      f := Write(v);
      Assoc(old(buf), Word(|k|), k);
      Assoc(old(buf), Sized(k), EncodeForm(f));
    }
  }

  lemma OneFieldLess(fields: map<Binary, Value>, left: set<Binary>, k: Binary)
    requires k in left && k in fields
    ensures fields - (left - {k}) == (fields - left)[k := fields[k]]
  {
  }
}
