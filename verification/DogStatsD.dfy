/**
 Events and service checks of the `dogstatsd` codec. Strings are the bytes of their UTF-8 form. What is
 decoded is the list of fields in the order in which they are inserted into the resulting object.
 */
module DogStatsD {
  import opened Bytes
  import opened Wrappers
  import opened Separation

  const BAR: Byte := 124
  const COMMA: Byte := 44

  datatype Error = Invalid | NotANumber

  datatype Field =
    | Title(text: Binary)
    | Text(text: Binary)
    | Name(text: Binary)
    | Status(value: int)
    | Timestamp(time: nat)
    | Labelled(key: Label, text: Binary)
    | Tags(tags: seq<Binary>)

  /** Optional fields with one letter and a colon in front. */
  datatype Label = Hostname | AggregationKey | Priority | SourceType | AlertType | ContainerId | Message

  function Letter(l: Label): Byte {
    match l
    case Hostname => 104
    case AggregationKey => 107
    case Priority => 112
    case SourceType => 115
    case AlertType => 116
    case ContainerId => 99
    case Message => 109
  }

  datatype Event = Event(
    title: Binary, text: Binary, timestamp: Option<nat>, hostname: Option<Binary>, aggregationKey: Option<Binary>,
    priority: Option<Binary>, source: Option<Binary>, alert: Option<Binary>, tags: Option<seq<Binary>>,
    container: Option<Binary>)

  datatype ServiceCheck = ServiceCheck(
    name: Binary, status: int, timestamp: Option<nat>, hostname: Option<Binary>, tags: Option<seq<Binary>>,
    message: Option<Binary>, container: Option<Binary>)

  function Stamp(t: Option<nat>): seq<Field> {
    if t.None? then [] else [Timestamp(t.value)]
  }

  function Tagged(ts: Option<seq<Binary>>): seq<Field> {
    if ts.None? then [] else [Tags(ts.value)]
  }

  function Opt(l: Label, t: Option<Binary>): seq<Field> {
    if t.None? then [] else [Labelled(l, t.value)]
  }

  /** The optional fields in the order in which they are written. */
  function EventOptions(e: Event): seq<Field> {
    Stamp(e.timestamp) + Opt(Hostname, e.hostname) + Opt(AggregationKey, e.aggregationKey) + Opt(Priority, e.priority)
    + Opt(SourceType, e.source) + Opt(AlertType, e.alert) + Tagged(e.tags) + Opt(ContainerId, e.container)
  }

  function CheckOptions(c: ServiceCheck): seq<Field> {
    Stamp(c.timestamp) + Opt(Hostname, c.hostname) + Tagged(c.tags) + Opt(Message, c.message)
    + Opt(ContainerId, c.container)
  }

  /** Labels that occur in events; service checks have their own set. */
  predicate Known(event: bool, l: Label) {
    if event then !l.Message? else l.Hostname? || l.ContainerId? || l.Message?
  }

  // ----- printing

  function TagList(ts: seq<Binary>): Binary {
    if ts == [] then [] else if |ts| == 1 then ts[0] else ts[0] + [COMMA] + TagList(ts[1..])
  }

  function Section(f: Field): Binary
    requires f.Timestamp? || f.Labelled? || f.Tags?
  {
    match f
    case Timestamp(t) => [100, 58] + Decimal(t)
    case Labelled(l, text) => [Letter(l), 58] + text
    case Tags(ts) => [35] + TagList(ts)
  }

  /** Optional fields, all of them known where they stand, with times of 32 bits. */
  predicate Options(event: bool, fs: seq<Field>) {
    fs == [] || (Optional(event, fs[0]) && Options(event, fs[1..]))
  }

  predicate Optional(event: bool, f: Field) {
    f.Tags? || (f.Timestamp? && f.time < 0x1_0000_0000) || (f.Labelled? && Known(event, f.key))
  }

  function Sections(event: bool, fs: seq<Field>): Binary
    requires Options(event, fs)
  {
    if fs == [] then [] else [BAR] + Section(fs[0]) + Sections(event, fs[1..])
  }

  /** Signed decimal numbers. */
  function Int(n: int): Binary {
    if n < 0 then [45] + Decimal(-n) else Decimal(n)
  }

  /** Times are unsigned 32 bit numbers. */
  predicate In32(t: Option<nat>) {
    t.Some? ==> t.value < 0x1_0000_0000
  }

  lemma {:induction false} OptionsAppend(event: bool, a: seq<Field>, b: seq<Field>)
    requires Options(event, a) && Options(event, b)
    ensures Options(event, a + b)
    decreases |a|
  {
    if a == [] {
      assert a + b == b;
    } else {
      OptionsAppend(event, a[1..], b);
      assert (a + b)[1..] == a[1..] + b;
    }
  }

  lemma EventOptionsFit(e: Event)
    requires In32(e.timestamp)
    ensures Options(true, EventOptions(e))
  {
    var a := Stamp(e.timestamp);
    OptionsAppend(true, a, Opt(Hostname, e.hostname));
    a := a + Opt(Hostname, e.hostname);
    OptionsAppend(true, a, Opt(AggregationKey, e.aggregationKey));
    a := a + Opt(AggregationKey, e.aggregationKey);
    OptionsAppend(true, a, Opt(Priority, e.priority));
    a := a + Opt(Priority, e.priority);
    OptionsAppend(true, a, Opt(SourceType, e.source));
    a := a + Opt(SourceType, e.source);
    OptionsAppend(true, a, Opt(AlertType, e.alert));
    a := a + Opt(AlertType, e.alert);
    OptionsAppend(true, a, Tagged(e.tags));
    a := a + Tagged(e.tags);
    OptionsAppend(true, a, Opt(ContainerId, e.container));
  }

  lemma CheckOptionsFit(c: ServiceCheck)
    requires In32(c.timestamp)
    ensures Options(false, CheckOptions(c))
  {
    var a := Stamp(c.timestamp);
    OptionsAppend(false, a, Opt(Hostname, c.hostname));
    a := a + Opt(Hostname, c.hostname);
    OptionsAppend(false, a, Tagged(c.tags));
    a := a + Tagged(c.tags);
    OptionsAppend(false, a, Opt(Message, c.message));
    a := a + Opt(Message, c.message);
    OptionsAppend(false, a, Opt(ContainerId, c.container));
  }

  function EncodeEvent(e: Event): Binary
    requires In32(e.timestamp)
  {
    EventOptionsFit(e);
    EventText(e.title, e.text, Sections(true, EventOptions(e)))
  }

  function EventText(title: Binary, text: Binary, tail: Binary): Binary {
    [95, 101, 123]
    + (Decimal(|title|) + [COMMA] + (Decimal(|text|) + [125, 58] + (title + [BAR] + text + tail)))
  }

  function EncodeCheck(c: ServiceCheck): Binary
    requires In32(c.timestamp)
  {
    CheckOptionsFit(c);
    CheckText(c.name, Int(c.status) + Sections(false, CheckOptions(c)))
  }

  function CheckText(name: Binary, rest: Binary): Binary {
    [95, 115, 99, BAR] + (name + [BAR] + rest)
  }

  // ----- parsing

  function ParseBelow(bs: Binary, bound: nat): Option<nat> {
    if bs == [] || !AllDigits(bs) || DecimalValue(bs) >= bound then None else Some(DecimalValue(bs))
  }

  function LabelOf(event: bool, letter: Byte): Option<Label> {
    if letter == 104 then Some(Hostname)
    else if letter == 99 then Some(ContainerId)
    else if letter == 109 && !event then Some(Message)
    else if letter == 107 && event then Some(AggregationKey)
    else if letter == 112 && event then Some(Priority)
    else if letter == 115 && event then Some(SourceType)
    else if letter == 116 && event then Some(AlertType)
    else None
  }

  /** Sections that are not known are skipped. */
  function ParseSection(event: bool, s: Binary): Result<Option<Field>, Error> {
    if |s| >= 1 && s[0] == 35 then Ok(Some(Tags(Split(COMMA, s[1..]))))
    else if |s| < 2 || s[1] != 58 then Ok(None)
    else if s[0] == 100 then
      (match ParseBelow(s[2..], 0x1_0000_0000)
       case None => Err(NotANumber)
       case Some(t) => Ok(Some(Timestamp(t))))
    else if LabelOf(event, s[0]).Some? then Ok(Some(Labelled(LabelOf(event, s[0]).value, s[2..])))
    else Ok(None)
  }

  function ParseSections(event: bool, ss: seq<Binary>): Result<seq<Field>, Error> {
    if ss == [] then Ok([])
    else
      match ParseSection(event, ss[0])
      case Err(e) => Err(e)
      case Ok(f) =>
        match ParseSections(event, ss[1..])
        case Err(e) => Err(e)
        case Ok(fs) => Ok(if f.None? then fs else [f.value] + fs)
  }

  /** The position of the first `}:`, or the length. */
  function FindClose(data: Binary): (i: nat)
    ensures i <= |data|
  {
    if data == [] then 0
    else if |data| >= 2 && data[0] == 125 && data[1] == 58 then 0
    else 1 + FindClose(data[1..])
  }

  function After(head: seq<Field>, rest: Result<seq<Field>, Error>): Result<seq<Field>, Error> {
    match rest
    case Err(e) => Err(e)
    case Ok(fs) => Ok(head + fs)
  }

  /** What follows `_e{`. */
  function DecodeEvent(data: Binary): Result<seq<Field>, Error> {
    var comma := Find(COMMA, data);
    if comma == |data| then Err(Invalid)
    else
      var rest := data[comma + 1..];
      var close := FindClose(rest);
      if close >= |rest| - 1 then Err(Invalid)
      else
        match (ParseBelow(data[..comma], TWO_TO_THE_64), ParseBelow(rest[..close], TWO_TO_THE_64))
        case (Some(title), Some(text)) => DecodeBody(rest[close + 2..], title, text)
        case _ => Err(NotANumber)
  }

  function DecodeBody(body: Binary, title: nat, text: nat): Result<seq<Field>, Error> {
    if |body| < title + text + 1 || body[title] != BAR then Err(Invalid)
    else
      After([Title(body[..title]), Text(body[title + 1..title + 1 + text])],
            ParseSections(true, Split(BAR, body[title + 1 + text..])))
  }

  /** What follows `_sc|`. */
  function DecodeCheck(data: Binary): Result<seq<Field>, Error> {
    var i := Find(BAR, data);
    if i == |data| then Err(Invalid) else DecodeStatus(data[..i], data[i + 1..])
  }

  function DecodeStatus(name: Binary, rest: Binary): Result<seq<Field>, Error> {
    var j := Find(BAR, rest);
    match ParseBelow(rest[..j], 256)
    case None => Err(NotANumber)
    case Some(status) =>
      if status > 3 then Err(Invalid)
      else
        After([Name(name), Status(status)],
              ParseSections(false, Split(BAR, if j == |rest| then [] else rest[j + 1..])))
  }

  /** Anything else is a metric, which is not part of this model. */
  function Decode(data: Binary): Option<Result<seq<Field>, Error>> {
    if [95, 101, 123] <= data then Some(DecodeEvent(data[3..]))
    else if [95, 115, 99, BAR] <= data then Some(DecodeCheck(data[4..]))
    else None
  }

  // ----- splitting

  lemma SplitFront(sep: Byte, r: Binary, data: Binary)
    requires sep !in r
    ensures Split(sep, r + [sep] + data) == [r] + Split(sep, data)
  {
    OneRecord(sep, r, data);
    Assoc([r], Records(sep, data), [Rest(sep, data)]);
  }

  lemma SplitWhole(sep: Byte, r: Binary)
    requires sep !in r
    ensures Split(sep, r) == [r]
  {
    NoRecord(sep, r);
  }

  lemma SplitIsFree(sep: Byte, data: Binary)
    ensures AllFree(sep, Split(sep, data))
  {
    SplitsFree(sep, data);
  }

  /** A byte that is nowhere in the data is nowhere in its parts. */
  lemma {:induction false} SplitWithin(sep: Byte, data: Binary, b: Byte)
    requires b !in data
    ensures AllFree(b, Split(sep, data))
    decreases |data|
  {
    var i := Find(sep, data);
    if i == |data| {
      assert Split(sep, data) == [data];
    } else {
      var head, tail := data[..i], data[i + 1..];
      SplitWithin(sep, tail, b);
      Assoc([head], Records(sep, tail), [Rest(sep, tail)]);
      assert Split(sep, data) == [head] + Split(sep, tail);
      AllFreeAppend(b, [head], Split(sep, tail));
    }
  }

  lemma {:induction false} TagsReadBack(ts: seq<Binary>)
    requires ts != [] && AllFree(COMMA, ts)
    ensures Split(COMMA, TagList(ts)) == ts
    decreases |ts|
  {
    if |ts| == 1 {
      SplitWhole(COMMA, ts[0]);
    } else {
      AllFreeFront(COMMA, ts);
      TagsReadBack(ts[1..]);
      SplitFront(COMMA, ts[0], TagList(ts[1..]));
      assert ts == [ts[0]] + ts[1..];
    }
  }

  lemma {:induction false} TagListFree(ts: seq<Binary>)
    requires AllFree(BAR, ts)
    ensures BAR !in TagList(ts)
    decreases |ts|
  {
    if |ts| > 1 {
      AllFreeFront(BAR, ts);
      TagListFree(ts[1..]);
    }
  }

  // ----- one section

  /** Fields that survive: no bar in them, and tags are a list that is not empty, without commas. */
  ghost predicate Canonical(f: Field) {
    match f
    case Labelled(_, text) => BAR !in text
    case Tags(ts) => ts != [] && AllFree(COMMA, ts) && AllFree(BAR, ts)
    case _ => true
  }

  ghost predicate AllCanonical(fs: seq<Field>) {
    forall i :: 0 <= i < |fs| ==> Canonical(fs[i])
  }

  lemma DecimalFree(n: nat, b: Byte)
    requires b < 48 || b > 57
    ensures b !in Decimal(n)
  {
    DecimalReadsBack(n);
  }

  lemma DecimalParses(n: nat, bound: nat)
    ensures ParseBelow(Decimal(n), bound) == if n < bound then Some(n) else None
  {
    DecimalReadsBack(n);
  }

  lemma StampReadsBack(event: bool, t: nat)
    requires t < 0x1_0000_0000
    ensures ParseSection(event, [100, 58] + Decimal(t)) == Ok(Some(Timestamp(t)))
  {
    DecimalParses(t, 0x1_0000_0000);
    assert ([100, 58] + Decimal(t))[2..] == Decimal(t);
  }

  lemma TextReadsBack(event: bool, l: Label, text: Binary)
    requires Known(event, l)
    ensures ParseSection(event, [Letter(l), 58] + text) == Ok(Some(Labelled(l, text)))
  {
    assert ([Letter(l), 58] + text)[2..] == text;
  }

  lemma TagSectionReadsBack(event: bool, ts: seq<Binary>)
    requires ts != [] && AllFree(COMMA, ts)
    ensures ParseSection(event, [35] + TagList(ts)) == Ok(Some(Tags(ts)))
  {
    TagsReadBack(ts);
    assert ([35] + TagList(ts))[1..] == TagList(ts);
  }

  lemma FreeAppend(a: Binary, b: Binary)
    requires BAR !in a && BAR !in b
    ensures BAR !in a + b
  {
  }

  lemma SectionReadsBack(event: bool, f: Field)
    requires Optional(event, f) && Canonical(f)
    ensures BAR !in Section(f) && ParseSection(event, Section(f)) == Ok(Some(f))
  {
    match f
    case Timestamp(t) =>
      DecimalFree(t, BAR);
      FreeAppend([100, 58], Decimal(t));
      StampReadsBack(event, t);
    case Labelled(l, text) =>
      FreeAppend([Letter(l), 58], text);
      TextReadsBack(event, l, text);
    case Tags(ts) =>
      TagListFree(ts);
      FreeAppend([35], TagList(ts));
      TagSectionReadsBack(event, ts);
  }

  /** A section that begins with a mark, and the mark is known where it stands. */
  ghost predicate Marked(event: bool, s: Binary, l: Label) {
    Known(event, l) && Ascii(Mark(l)[1..]) <= s
  }

  /**
   How every section is read: tags after a hash, a time of 32 bits after `d:`, texts after the marks of their labels.
   Everything else is skipped, and only a time that is no such number is an error.
   */
  lemma SectionIsRead(event: bool, s: Binary)
    ensures Ascii("#") <= s ==> ParseSection(event, s) == Ok(Some(Tags(Split(',' as int, s[1..]))))
    ensures Ascii("d:") <= s ==>
              if s[2..] != [] && AllDigits(s[2..]) && DecimalValue(s[2..]) < 0x1_0000_0000
              then ParseSection(event, s) == Ok(Some(Timestamp(DecimalValue(s[2..]))))
              else ParseSection(event, s) == Err(NotANumber)
    ensures forall l :: Marked(event, s, l) ==> ParseSection(event, s) == Ok(Some(Labelled(l, s[2..])))
    ensures !(Ascii("#") <= s) && !(Ascii("d:") <= s) && (forall l :: !Marked(event, s, l)) ==> ParseSection(event, s) == Ok(None)
  {
    assert Ascii("#") == [35] && Ascii("d:") == [100, 58];
    forall l ensures Ascii(Mark(l)[1..]) == [Letter(l), 58] {
    }
    if |s| >= 2 && s[1] == 58 && LabelOf(event, s[0]).Some? {
      var l := LabelOf(event, s[0]).value;
      assert Letter(l) == s[0] && Known(event, l);
      assert [Letter(l), 58] <= s;
      assert Marked(event, s, l);
    }
  }

  lemma ParsedIsCanonical(event: bool, s: Binary)
    requires BAR !in s
    ensures var r := ParseSection(event, s);
            r.Ok? && r.value.Some? ==> Canonical(r.value.value)
  {
    if |s| >= 1 && s[0] == 35 {
      SplitIsFree(COMMA, s[1..]);
      SplitWithin(COMMA, s[1..], BAR);
    }
  }

  // ----- all sections

  lemma {:induction false} ParsedAreCanonical(event: bool, ss: seq<Binary>)
    requires AllFree(BAR, ss)
    ensures var r := ParseSections(event, ss);
            r.Ok? ==> AllCanonical(r.value)
    decreases |ss|
  {
    if ss != [] {
      AllFreeFront(BAR, ss);
      ParsedIsCanonical(event, ss[0]);
      ParsedAreCanonical(event, ss[1..]);
    }
  }

  lemma ParseFront(event: bool, s: Binary, ss: seq<Binary>)
    ensures ParseSections(event, [s] + ss)
            == match ParseSection(event, s)
               case Err(e) => Err(e)
               case Ok(f) => After(if f.None? then [] else [f.value], ParseSections(event, ss))
  {
    assert ([s] + ss)[1..] == ss;
    var r := ParseSections(event, ss);
    if r.Ok? {
      assert [] + r.value == r.value;
    }
  }

  lemma OptionsFront(event: bool, fs: seq<Field>)
    requires fs != []
    ensures Options(event, fs) <==> Optional(event, fs[0]) && Options(event, fs[1..])
    ensures AllCanonical(fs) <==> Canonical(fs[0]) && AllCanonical(fs[1..])
  {
    assert forall i :: 0 < i < |fs| ==> fs[i] == fs[1..][i - 1];
  }

  lemma SectionParses(event: bool, s: Binary, f: Field, more: Binary, fs: seq<Field>)
    requires BAR !in s && ParseSection(event, s) == Ok(Some(f))
    requires ParseSections(event, Split(BAR, more)) == Ok(fs)
    ensures ParseSections(event, Split(BAR, s + [BAR] + more)) == Ok([f] + fs)
  {
    SplitFront(BAR, s, more);
    ParseFront(event, s, Split(BAR, more));
  }

  lemma LastParses(event: bool, s: Binary, f: Field)
    requires BAR !in s && ParseSection(event, s) == Ok(Some(f))
    ensures ParseSections(event, Split(BAR, s)) == Ok([f])
  {
    SplitWhole(BAR, s);
    ParseFront(event, s, []);
    assert [s] + [] == [s] && [f] + [] == [f];
  }

  /** The optional fields without the bar in front of the first one. */
  function Body(event: bool, fs: seq<Field>): Binary
    requires fs != [] && Options(event, fs)
  {
    OptionsFront(event, fs);
    Section(fs[0]) + Sections(event, fs[1..])
  }

  lemma SectionsBody(event: bool, fs: seq<Field>)
    requires fs != [] && Options(event, fs)
    ensures Sections(event, fs) == [BAR] + Body(event, fs)
  {
    Assoc([BAR], Section(fs[0]), Sections(event, fs[1..]));
  }

  /** Service checks are read from here. */
  lemma {:induction false} BodyReadsBack(event: bool, fs: seq<Field>)
    requires fs != [] && Options(event, fs) && AllCanonical(fs)
    ensures ParseSections(event, Split(BAR, Body(event, fs))) == Ok(fs)
    decreases |fs|
  {
    var f, rest, s := fs[0], fs[1..], Section(fs[0]);
    OptionsFront(event, fs);
    SectionReadsBack(event, f);
    assert fs == [f] + rest;
    if rest == [] {
      LastParses(event, s, f);
      assert s + [] == s;
    } else {
      BodyReadsBack(event, rest);
      SectionsBody(event, rest);
      Assoc(s, [BAR], Body(event, rest));
      SectionParses(event, s, f, Body(event, rest), rest);
    }
  }

  /** Events are read from here, with the bar. */
  lemma SectionsReadBack(event: bool, fs: seq<Field>)
    requires Options(event, fs) && AllCanonical(fs)
    ensures ParseSections(event, Split(BAR, Sections(event, fs))) == Ok(fs)
  {
    var none: Binary := [];
    if fs == [] {
      SplitWhole(BAR, none);
      ParseFront(event, none, []);
      assert [none] + [] == [none];
    } else {
      var body := Body(event, fs);
      BodyReadsBack(event, fs);
      SectionsBody(event, fs);
      SplitFront(BAR, none, body);
      ParseFront(event, none, Split(BAR, body));
      assert none + [BAR] + body == [BAR] + body;
      assert [] + fs == fs;
    }
  }

  // ----- events

  lemma FindCloseAt(digits: Binary, body: Binary)
    requires 125 !in digits
    ensures FindClose(digits + [125, 58] + body) == |digits|
    decreases |digits|
  {
    var data := digits + [125, 58] + body;
    if digits != [] {
      FindCloseAt(digits[1..], body);
      assert data[1..] == digits[1..] + [125, 58] + body;
    }
  }

  lemma HeadReadsBack(title: nat, text: nat, body: Binary)
    requires title < TWO_TO_THE_64 && text < TWO_TO_THE_64
    ensures DecodeEvent(Decimal(title) + [COMMA] + (Decimal(text) + [125, 58] + body)) == DecodeBody(body, title, text)
  {
    DecimalFree(title, COMMA);
    DecimalFree(text, 125);
    DecimalParses(title, TWO_TO_THE_64);
    DecimalParses(text, TWO_TO_THE_64);
    HeadIsRead(Decimal(title), Decimal(text), body);
  }

  lemma BodyOfEvent(title: Binary, text: Binary, tail: Binary)
    ensures DecodeBody(title + [BAR] + text + tail, |title|, |text|)
            == After([Title(title), Text(text)], ParseSections(true, Split(BAR, tail)))
  {
    var body := title + [BAR] + text + tail;
    assert body[..|title|] == title;
    assert body[|title| + 1..|title| + 1 + |text|] == text;
    assert body[|title| + 1 + |text|..] == tail;
  }

  lemma EventParts(title: Binary, text: Binary, tail: Binary)
    requires |title| < TWO_TO_THE_64 && |text| < TWO_TO_THE_64
    ensures Decode(EventText(title, text, tail))
            == Some(After([Title(title), Text(text)], ParseSections(true, Split(BAR, tail))))
  {
    HeadReadsBack(|title|, |text|, title + [BAR] + text + tail);
    BodyOfEvent(title, text, tail);
    assert EventText(title, text, tail)[3..] == EventText(title, text, tail)[|[95, 101, 123]|..];
  }

  /** The fields come back in the order in which they are written, exactly if they are canonical. */
  lemma EventInOrderIff(e: Event)
    requires In32(e.timestamp) && |e.title| < TWO_TO_THE_64 && |e.text| < TWO_TO_THE_64
    ensures Decode(EncodeEvent(e)) == Some(Ok([Title(e.title), Text(e.text)] + EventOptions(e)))
            <==> AllCanonical(EventOptions(e))
  {
    var fs := EventOptions(e);
    EventOptionsFit(e);
    var pieces := Split(BAR, Sections(true, fs));
    EventParts(e.title, e.text, Sections(true, fs));
    SplitIsFree(BAR, Sections(true, fs));
    ParsedAreCanonical(true, pieces);
    if AllCanonical(fs) {
      SectionsReadBack(true, fs);
    }
    if Decode(EncodeEvent(e)) == Some(Ok([Title(e.title), Text(e.text)] + fs)) {
      SameTail([Title(e.title), Text(e.text)], ParseSections(true, pieces).value, fs);
    }
  }

  lemma SameTail(head: seq<Field>, a: seq<Field>, b: seq<Field>)
    requires head + a == head + b
    ensures a == b
  {
    assert a == (head + a)[|head|..] && b == (head + b)[|head|..];
  }

  // ----- which texts are read as events

  predicate IsNumber(bs: Binary, bound: nat) {
    bs != [] && AllDigits(bs) && DecimalValue(bs) < bound
  }

  /** `data` is the length of a title, the length of a text, and then both with a bar between, and a tail. */
  ghost predicate Dissects(data: Binary, a: Binary, b: Binary, title: Binary, text: Binary, tail: Binary) {
    && IsNumber(a, TWO_TO_THE_64) && DecimalValue(a) == |title| && IsNumber(b, TWO_TO_THE_64) && DecimalValue(b) == |text|
    && data == a + [COMMA] + (b + [125, 58] + (title + [BAR] + text + tail))
  }

  lemma {:induction false} FindCloseIs(data: Binary)
    ensures var i := FindClose(data);
            i < |data| ==> i < |data| - 1 && data[i] == 125 && data[i + 1] == 58
    decreases |data|
  {
    if data != [] {
      FindCloseIs(data[1..]);
    }
  }

  lemma HeadIsRead(a: Binary, b: Binary, body: Binary)
    requires COMMA !in a && 125 !in b
    ensures DecodeEvent(a + [COMMA] + (b + [125, 58] + body))
            == if IsNumber(a, TWO_TO_THE_64) && IsNumber(b, TWO_TO_THE_64) then DecodeBody(body, DecimalValue(a), DecimalValue(b))
               else Err(NotANumber)
  {
    var rest := b + [125, 58] + body;
    var data := a + [COMMA] + rest;
    assert data[..|a|] == a && data[|a| + 1..] == rest;
    FindAt(COMMA, data, |a|);
    FindCloseAt(b, body);
    assert rest[..|b|] == b && rest[|b| + 2..] == body;
  }

  /** Without a comma, and without the closing brace and colon, a text is no event. */
  lemma NoEvent(a: Binary, b: Binary)
    requires COMMA !in a && 125 !in b
    ensures DecodeEvent(a) == Err(Invalid) && DecodeEvent(a + [COMMA] + b) == Err(Invalid)
  {
    var data := a + [COMMA] + b;
    assert data[..|a|] == a && data[|a| + 1..] == b;
    FindAt(COMMA, data, |a|);
    FindCloseIs(b);
  }

  /** The lengths have to be right: what follows them is long enough, with a bar where the title ends. */
  lemma WrongLengths(a: Binary, b: Binary, body: Binary)
    requires IsNumber(a, TWO_TO_THE_64) && IsNumber(b, TWO_TO_THE_64)
    requires var n := DecimalValue(a); |body| < n + 1 + DecimalValue(b) || body[n] != BAR
    ensures DecodeEvent(a + [COMMA] + (b + [125, 58] + body)) == Err(Invalid)
  {
    HeadIsRead(a, b, body);
  }

  /**
   A text is read as an event if and only if it has two lengths and a title and a text of these lengths, with commas,
   braces and bars where they belong, and all sections behind can be read.
   */
  lemma EventIsReadIff(data: Binary, fs: seq<Field>)
    ensures DecodeEvent(data) == Ok(fs)
            <==> exists a, b, title, text, tail ::
                   && Dissects(data, a, b, title, text, tail)
                   && After([Title(title), Text(text)], ParseSections(true, Split(BAR, tail))) == Ok(fs)
  {
    if DecodeEvent(data) == Ok(fs) {
      var a, b, body := HeadDissected(data);
      var title, text, tail := BodyDissected(body, DecimalValue(a), DecimalValue(b));
      assert Dissects(data, a, b, title, text, tail);
    }
    if a, b, title, text, tail :| Dissects(data, a, b, title, text, tail)
                                  && After([Title(title), Text(text)], ParseSections(true, Split(BAR, tail))) == Ok(fs) {
      HeadIsRead(a, b, title + [BAR] + text + tail);
      BodyOfEvent(title, text, tail);
    }
  }

  lemma HeadDissected(data: Binary) returns (a: Binary, b: Binary, body: Binary)
    requires DecodeEvent(data).Ok?
    ensures IsNumber(a, TWO_TO_THE_64) && IsNumber(b, TWO_TO_THE_64) && data == a + [COMMA] + (b + [125, 58] + body)
    ensures DecodeEvent(data) == DecodeBody(body, DecimalValue(a), DecimalValue(b))
  {
    var comma := Find(COMMA, data);
    var rest := data[comma + 1..];
    var close := FindClose(rest);
    FindCloseIs(rest);
    a, b, body := data[..comma], rest[..close], rest[close + 2..];
    CutAt(COMMA, data, comma);
    CutAtClose(rest, close);
  }

  lemma CutAt(b: Byte, data: Binary, i: nat)
    requires i < |data| && data[i] == b
    ensures data == data[..i] + [b] + data[i + 1..]
  {
  }

  lemma CutAtClose(data: Binary, i: nat)
    requires i < |data| - 1 && data[i] == 125 && data[i + 1] == 58
    ensures data == data[..i] + [125, 58] + data[i + 2..]
  {
  }

  lemma BodyDissected(body: Binary, n: nat, m: nat) returns (title: Binary, text: Binary, tail: Binary)
    requires DecodeBody(body, n, m).Ok?
    ensures |title| == n && |text| == m && body == title + [BAR] + text + tail
    ensures DecodeBody(body, n, m) == After([Title(title), Text(text)], ParseSections(true, Split(BAR, tail)))
  {
    title, text, tail := body[..n], body[n + 1..n + 1 + m], body[n + 1 + m..];
    assert body == title + [BAR] + text + tail;
  }

  // ----- each field under its own name

  /** Kinds of fields; a message has at most one of each. */
  function Kind(f: Field): nat {
    match f
    case Title(_) => 0
    case Text(_) => 1
    case Name(_) => 2
    case Status(_) => 3
    case Timestamp(_) => 4
    case Tags(_) => 10
    case Labelled(l, _) =>
      match l
      case Hostname => 5
      case AggregationKey => 6
      case Priority => 7
      case SourceType => 8
      case AlertType => 9
      case Message => 11
      case ContainerId => 12
  }

  ghost predicate EachOnce(fs: seq<Field>) {
    forall i, j :: 0 <= i < j < |fs| ==> Kind(fs[i]) != Kind(fs[j])
  }

  /** What an event has under a label. */
  function EventValue(e: Event, l: Label): Option<Binary> {
    match l
    case Hostname => e.hostname
    case AggregationKey => e.aggregationKey
    case Priority => e.priority
    case SourceType => e.source
    case AlertType => e.alert
    case ContainerId => e.container
    case Message => None
  }

  /** `f` is a field of event `e`. */
  ghost predicate EventHas(e: Event, f: Field) {
    match f
    case Title(x) => x == e.title
    case Text(x) => x == e.text
    case Timestamp(t) => e.timestamp == Some(t)
    case Tags(ts) => e.tags == Some(ts)
    case Labelled(l, x) => EventValue(e, l) == Some(x)
    case _ => false
  }

  /** `fs` are the fields of `e`, each once, under its own name. */
  ghost predicate HoldsEvent(fs: seq<Field>, e: Event) {
    EachOnce(fs) && forall f :: f in fs <==> EventHas(e, f)
  }

  /** No optional field holds a bar, and tags, if there are any, are a list that is not empty and holds no comma. */
  ghost predicate CanonicalEvent(e: Event) {
    forall f :: EventHas(e, f) ==> Canonical(f)
  }

  /** Fields in the order of their kinds, from `lo` to below `hi`. */
  ghost predicate Sorted(fs: seq<Field>, lo: nat, hi: nat) {
    && (forall i, j :: 0 <= i < j < |fs| ==> Kind(fs[i]) < Kind(fs[j]))
    && (forall i :: 0 <= i < |fs| ==> lo <= Kind(fs[i]) < hi)
  }

  lemma SortedMore(a: seq<Field>, b: seq<Field>, lo: nat, mid: nat, hi: nat)
    requires lo <= mid <= hi && Sorted(a, lo, mid) && Sorted(b, mid, hi)
    ensures Sorted(a + b, lo, hi)
  {
  }

  lemma SortedOne(l: Label, t: Option<Binary>, lo: nat, hi: nat)
    requires lo <= Kind(Labelled(l, [])) < hi
    ensures Sorted(Opt(l, t), lo, hi)
  {
  }

  lemma EventSorted(e: Event)
    ensures Sorted(EventOptions(e), 4, 13)
  {
    var a := Stamp(e.timestamp);
    SortedOne(Hostname, e.hostname, 5, 6);
    SortedMore(a, Opt(Hostname, e.hostname), 4, 5, 6);
    a := a + Opt(Hostname, e.hostname);
    SortedOne(AggregationKey, e.aggregationKey, 6, 7);
    SortedMore(a, Opt(AggregationKey, e.aggregationKey), 4, 6, 7);
    a := a + Opt(AggregationKey, e.aggregationKey);
    SortedOne(Priority, e.priority, 7, 8);
    SortedMore(a, Opt(Priority, e.priority), 4, 7, 8);
    a := a + Opt(Priority, e.priority);
    SortedOne(SourceType, e.source, 8, 9);
    SortedMore(a, Opt(SourceType, e.source), 4, 8, 9);
    a := a + Opt(SourceType, e.source);
    SortedOne(AlertType, e.alert, 9, 10);
    SortedMore(a, Opt(AlertType, e.alert), 4, 9, 10);
    a := a + Opt(AlertType, e.alert);
    SortedMore(a, Tagged(e.tags), 4, 10, 11);
    a := a + Tagged(e.tags);
    SortedOne(ContainerId, e.container, 11, 13);
    SortedMore(a, Opt(ContainerId, e.container), 4, 11, 13);
  }

  lemma EventMembers(e: Event, f: Field)
    ensures f in EventOptions(e) <==> EventHas(e, f) && !f.Title? && !f.Text?
  {
  }

  lemma EventHolds(e: Event)
    ensures HoldsEvent([Title(e.title), Text(e.text)] + EventOptions(e), e)
  {
    EventSorted(e);
    SortedMore([Title(e.title), Text(e.text)], EventOptions(e), 0, 4, 13);
    forall f ensures f in [Title(e.title), Text(e.text)] + EventOptions(e) <==> EventHas(e, f) {
      EventMembers(e, f);
    }
  }

  lemma EventCanonicalIff(e: Event)
    ensures AllCanonical(EventOptions(e)) <==> CanonicalEvent(e)
  {
    var fs := EventOptions(e);
    if AllCanonical(fs) {
      forall f | EventHas(e, f)
        ensures Canonical(f)
      {
        EventMembers(e, f);
      }
    }
    if CanonicalEvent(e) {
      forall i | 0 <= i < |fs|
        ensures Canonical(fs[i])
      {
        EventMembers(e, fs[i]);
      }
    }
  }

  /**
   An event is read back with all its fields, each under its own name and once, if and only if no optional field holds a
   bar and tags, if there are any, are a list that is not empty and holds no comma. Title and text may hold anything.
   */
  lemma EventReadsBackIff(e: Event)
    requires In32(e.timestamp) && |e.title| < TWO_TO_THE_64 && |e.text| < TWO_TO_THE_64
    ensures (exists fs :: Decode(EncodeEvent(e)) == Some(Ok(fs)) && HoldsEvent(fs, e)) <==> CanonicalEvent(e)
  {
    var head, all := [Title(e.title), Text(e.text)], [Title(e.title), Text(e.text)] + EventOptions(e);
    EventInOrderIff(e);
    EventCanonicalIff(e);
    EventHolds(e);
    if fs :| Decode(EncodeEvent(e)) == Some(Ok(fs)) && HoldsEvent(fs, e) {
      DecodedEventIsCanonical(e, fs);
      forall f | EventHas(e, f)
        ensures Canonical(f)
      {
        assert f in fs;
      }
    }
  }

  /** Whatever is read for an event has canonical optional fields. */
  lemma DecodedEventIsCanonical(e: Event, fs: seq<Field>)
    requires In32(e.timestamp) && |e.title| < TWO_TO_THE_64 && |e.text| < TWO_TO_THE_64
    requires Decode(EncodeEvent(e)) == Some(Ok(fs))
    ensures forall f :: f in fs ==> Canonical(f)
  {
    EventOptionsFit(e);
    var tail := Sections(true, EventOptions(e));
    EventParts(e.title, e.text, tail);
    SplitIsFree(BAR, tail);
    ParsedAreCanonical(true, Split(BAR, tail));
  }

  // ----- the text of an event

  /** An optional field with what stands in front of it. */
  function Part(mark: string, text: Option<Binary>): Binary {
    if text.None? then [] else Ascii(mark) + text.value
  }

  function StampText(t: Option<nat>): Option<Binary> {
    if t.None? then None else Some(Decimal(t.value))
  }

  function TagText(ts: Option<seq<Binary>>): Option<Binary> {
    if ts.None? then None else Some(TagList(ts.value))
  }

  lemma StampPart(event: bool, t: Option<nat>)
    requires In32(t)
    ensures Options(event, Stamp(t)) && Sections(event, Stamp(t)) == Part("|d:", StampText(t))
  {
    if t.Some? {
      OneSection(event, Timestamp(t.value));
      assert Ascii("|d:") == [BAR, 100, 58];
      assert [BAR] + ([100, 58] + Decimal(t.value)) == Ascii("|d:") + Decimal(t.value);
    }
  }

  lemma TagPart(event: bool, ts: Option<seq<Binary>>)
    ensures Options(event, Tagged(ts)) && Sections(event, Tagged(ts)) == Part("|#", TagText(ts))
  {
    if ts.Some? {
      OneSection(event, Tags(ts.value));
      assert Ascii("|#") == [BAR, 35];
      assert [BAR] + ([35] + TagList(ts.value)) == Ascii("|#") + TagList(ts.value);
    }
  }

  /** The letters of the labels. */
  function Mark(l: Label): string {
    match l
    case Hostname => "|h:"
    case AggregationKey => "|k:"
    case Priority => "|p:"
    case SourceType => "|s:"
    case AlertType => "|t:"
    case ContainerId => "|c:"
    case Message => "|m:"
  }

  lemma LabelPart(event: bool, l: Label, t: Option<Binary>)
    requires Known(event, l)
    ensures Options(event, Opt(l, t)) && Sections(event, Opt(l, t)) == Part(Mark(l), t)
  {
    if t.Some? {
      OneSection(event, Labelled(l, t.value));
      assert Ascii(Mark(l)) == [BAR, Letter(l), 58];
      assert [BAR] + ([Letter(l), 58] + t.value) == Ascii(Mark(l)) + t.value;
    }
  }

  lemma EventTail(e: Event)
    requires In32(e.timestamp)
    ensures Options(true, EventOptions(e))
    ensures Sections(true, EventOptions(e))
            == Part("|d:", StampText(e.timestamp)) + Part("|h:", e.hostname) + Part("|k:", e.aggregationKey)
               + Part("|p:", e.priority) + Part("|s:", e.source) + Part("|t:", e.alert) + Part("|#", TagText(e.tags))
               + Part("|c:", e.container)
  {
    var a := Stamp(e.timestamp);
    StampPart(true, e.timestamp);
    LabelPart(true, Hostname, e.hostname);
    SectionsAppend(true, a, Opt(Hostname, e.hostname));
    a := a + Opt(Hostname, e.hostname);
    LabelPart(true, AggregationKey, e.aggregationKey);
    SectionsAppend(true, a, Opt(AggregationKey, e.aggregationKey));
    a := a + Opt(AggregationKey, e.aggregationKey);
    LabelPart(true, Priority, e.priority);
    SectionsAppend(true, a, Opt(Priority, e.priority));
    a := a + Opt(Priority, e.priority);
    LabelPart(true, SourceType, e.source);
    SectionsAppend(true, a, Opt(SourceType, e.source));
    a := a + Opt(SourceType, e.source);
    LabelPart(true, AlertType, e.alert);
    SectionsAppend(true, a, Opt(AlertType, e.alert));
    a := a + Opt(AlertType, e.alert);
    TagPart(true, e.tags);
    SectionsAppend(true, a, Tagged(e.tags));
    a := a + Tagged(e.tags);
    LabelPart(true, ContainerId, e.container);
    SectionsAppend(true, a, Opt(ContainerId, e.container));
  }

  /** The text of every event, as it is documented. */
  lemma EventIsWritten(e: Event)
    requires In32(e.timestamp)
    ensures EncodeEvent(e)
            == Ascii("_e{") + (Decimal(|e.title|) + Ascii(",") + (Decimal(|e.text|) + Ascii("}:") + (e.title + Ascii("|") + e.text
               + (Part("|d:", StampText(e.timestamp)) + Part("|h:", e.hostname) + Part("|k:", e.aggregationKey)
                  + Part("|p:", e.priority) + Part("|s:", e.source) + Part("|t:", e.alert) + Part("|#", TagText(e.tags))
                  + Part("|c:", e.container)))))
  {
    EventTail(e);
    assert Ascii("_e{") == [95, 101, 123] && Ascii(",") == [COMMA] && Ascii("}:") == [125, 58] && Ascii("|") == [BAR];
  }

  // ----- service checks

  /** What follows the status: nothing, or a bar and the optional fields. */
  ghost predicate Ends(tail: Binary, body: Binary) {
    if tail == [] then body == [] else tail == [BAR] + body
  }

  lemma StatusParts(name: Binary, status: Binary, tail: Binary, body: Binary)
    requires BAR !in status && Ends(tail, body)
    ensures DecodeStatus(name, status + tail)
            == match ParseBelow(status, 256)
               case None => Err(NotANumber)
               case Some(n) =>
                 if n > 3 then Err(Invalid)
                 else After([Name(name), Status(n)], ParseSections(false, Split(BAR, body)))
  {
    var rest := status + tail;
    if tail == [] {
      assert rest == status && rest[..|rest|] == rest;
    } else {
      assert rest[..|status|] == status && rest[|status| + 1..] == body;
      FindAt(BAR, rest, |status|);
    }
  }

  lemma IntParses(n: int)
    ensures BAR !in Int(n) && ParseBelow(Int(n), 256) == if 0 <= n < 256 then Some(n) else None
  {
    if n < 0 {
      DecimalFree(-n, BAR);
      assert Int(n)[0] == 45;
    } else {
      DecimalFree(n, BAR);
      DecimalParses(n, 256);
    }
  }

  lemma CheckParts(name: Binary, rest: Binary)
    ensures Decode(CheckText(name, rest)) == Some(DecodeCheck(name + [BAR] + rest))
    ensures BAR !in name ==> DecodeCheck(name + [BAR] + rest) == DecodeStatus(name, rest)
  {
    var data := name + [BAR] + rest;
    assert CheckText(name, rest)[4..] == data && CheckText(name, rest)[1] == 115;
    if BAR !in name {
      assert data[..|name|] == name && data[|name| + 1..] == rest;
      FindAt(BAR, data, |name|);
    }
  }

  /** Without a bar behind its name, and with a status above 3, a text is no service check. */
  lemma NoCheck(name: Binary, status: Binary, tail: Binary, body: Binary)
    requires BAR !in name && Ends(tail, body) && IsNumber(status, 256) && DecimalValue(status) > 3
    ensures DecodeCheck(name) == Err(Invalid) && DecodeCheck(name + [BAR] + (status + tail)) == Err(Invalid)
  {
    CheckParts(name, status + tail);
    StatusParts(name, status, tail, body);
  }

  /** `data` is a name, a status from 0 to 3 and, if anything follows, a bar and `body`. */
  ghost predicate DissectsCheck(data: Binary, name: Binary, status: Binary, tail: Binary, body: Binary) {
    && BAR !in name && IsNumber(status, 4) && Ends(tail, body)
    && data == name + [BAR] + (status + tail)
  }

  lemma CheckDissected(data: Binary) returns (name: Binary, status: Binary, tail: Binary, body: Binary)
    requires DecodeCheck(data).Ok?
    ensures DissectsCheck(data, name, status, tail, body)
  {
    var i := Find(BAR, data);
    CutAt(BAR, data, i);
    name := data[..i];
    status, tail, body := StatusDissected(name, data[i + 1..]);
  }

  lemma StatusDissected(name: Binary, rest: Binary) returns (status: Binary, tail: Binary, body: Binary)
    requires DecodeStatus(name, rest).Ok?
    ensures IsNumber(status, 4) && Ends(tail, body) && rest == status + tail
  {
    var j := Find(BAR, rest);
    status, tail, body := rest[..j], rest[j..], if j == |rest| then [] else rest[j + 1..];
    assert rest == status + tail;
  }

  lemma CheckIsReadAs(data: Binary, name: Binary, status: Binary, tail: Binary, body: Binary)
    requires DissectsCheck(data, name, status, tail, body)
    ensures DecodeCheck(data)
            == After([Name(name), Status(DecimalValue(status))], ParseSections(false, Split(BAR, body)))
  {
    CheckParts(name, status + tail);
    StatusParts(name, status, tail, body);
  }

  /** A text is read as a service check if and only if it has these parts and all sections behind can be read. */
  lemma CheckIsReadIff(data: Binary, fs: seq<Field>)
    ensures DecodeCheck(data) == Ok(fs)
            <==> exists name, status, tail, body ::
                   && DissectsCheck(data, name, status, tail, body)
                   && After([Name(name), Status(DecimalValue(status))], ParseSections(false, Split(BAR, body))) == Ok(fs)
  {
    if DecodeCheck(data) == Ok(fs) {
      var name, status, tail, body := CheckDissected(data);
      CheckIsReadAs(data, name, status, tail, body);
    }
    if name, status, tail, body :|
      && DissectsCheck(data, name, status, tail, body)
      && After([Name(name), Status(DecimalValue(status))], ParseSections(false, Split(BAR, body))) == Ok(fs)
    {
      CheckIsReadAs(data, name, status, tail, body);
    }
  }

  /** What is decoded as a service check has a name without a bar. */
  lemma NamesAreFree(data: Binary)
    ensures var r := DecodeCheck(data);
            r.Ok? ==> |r.value| >= 2 && r.value[0].Name? && BAR !in r.value[0].text
  {
    FindCuts(BAR, data);
  }

  lemma BodiesReadBackIff(fs: seq<Field>)
    requires Options(false, fs)
    ensures ParseSections(false, Split(BAR, if fs == [] then [] else Body(false, fs))) == Ok(fs) <==> AllCanonical(fs)
  {
    var none: Binary := [];
    var body := if fs == [] then none else Body(false, fs);
    SplitIsFree(BAR, body);
    ParsedAreCanonical(false, Split(BAR, body));
    if fs == [] {
      SplitWhole(BAR, none);
      ParseFront(false, none, []);
      assert [none] + [] == [none];
    } else if AllCanonical(fs) {
      BodyReadsBack(false, fs);
    }
  }

  /** The fields come back in the order in which they are written, exactly under these conditions. */
  lemma CheckInOrderIff(c: ServiceCheck)
    requires In32(c.timestamp)
    ensures Decode(EncodeCheck(c)) == Some(Ok([Name(c.name), Status(c.status)] + CheckOptions(c)))
            <==> BAR !in c.name && 0 <= c.status <= 3 && AllCanonical(CheckOptions(c))
  {
    var fs := CheckOptions(c);
    CheckOptionsFit(c);
    var head, tail := [Name(c.name), Status(c.status)], Sections(false, fs);
    var body := if fs == [] then [] else Body(false, fs);
    CheckParts(c.name, Int(c.status) + tail);
    NamesAreFree(c.name + [BAR] + (Int(c.status) + tail));
    assert (head + fs)[0] == Name(c.name) && (head + fs)[1] == Status(c.status);
    if BAR !in c.name {
      IntParses(c.status);
      assert Ends(tail, body) by {
        if fs != [] {
          SectionsBody(false, fs);
        }
      }
      StatusParts(c.name, Int(c.status), tail, body);
      BodiesReadBackIff(fs);
      var r := ParseSections(false, Split(BAR, body));
      if 0 <= c.status <= 3 && r.Ok? && head + r.value == head + fs {
        SameTail(head, r.value, fs);
      }
    }
  }

  /** What a service check has under a label. */
  function CheckValue(c: ServiceCheck, l: Label): Option<Binary> {
    match l
    case Hostname => c.hostname
    case ContainerId => c.container
    case Message => c.message
    case _ => None
  }

  ghost predicate CheckHas(c: ServiceCheck, f: Field) {
    match f
    case Name(x) => x == c.name
    case Status(n) => n == c.status
    case Timestamp(t) => c.timestamp == Some(t)
    case Tags(ts) => c.tags == Some(ts)
    case Labelled(l, x) => CheckValue(c, l) == Some(x)
    case _ => false
  }

  ghost predicate HoldsCheck(fs: seq<Field>, c: ServiceCheck) {
    EachOnce(fs) && forall f :: f in fs <==> CheckHas(c, f)
  }

  ghost predicate CanonicalCheck(c: ServiceCheck) {
    BAR !in c.name && 0 <= c.status <= 3 && forall f :: CheckHas(c, f) ==> Canonical(f)
  }

  lemma CheckSorted(c: ServiceCheck)
    ensures Sorted(CheckOptions(c), 4, 13)
  {
    var a := Stamp(c.timestamp);
    SortedOne(Hostname, c.hostname, 5, 6);
    SortedMore(a, Opt(Hostname, c.hostname), 4, 5, 6);
    a := a + Opt(Hostname, c.hostname);
    SortedMore(a, Tagged(c.tags), 4, 6, 11);
    a := a + Tagged(c.tags);
    SortedOne(Message, c.message, 11, 12);
    SortedMore(a, Opt(Message, c.message), 4, 11, 12);
    a := a + Opt(Message, c.message);
    SortedOne(ContainerId, c.container, 12, 13);
    SortedMore(a, Opt(ContainerId, c.container), 4, 12, 13);
  }

  lemma CheckMembers(c: ServiceCheck, f: Field)
    ensures f in CheckOptions(c) <==> CheckHas(c, f) && !f.Name? && !f.Status?
  {
  }

  lemma CheckHolds(c: ServiceCheck)
    ensures HoldsCheck([Name(c.name), Status(c.status)] + CheckOptions(c), c)
  {
    CheckSorted(c);
    SortedMore([Name(c.name), Status(c.status)], CheckOptions(c), 0, 4, 13);
    forall f ensures f in [Name(c.name), Status(c.status)] + CheckOptions(c) <==> CheckHas(c, f) {
      CheckMembers(c, f);
    }
  }

  lemma CheckCanonicalIff(c: ServiceCheck)
    ensures AllCanonical(CheckOptions(c)) <==> forall f :: CheckHas(c, f) ==> Canonical(f)
  {
    var fs := CheckOptions(c);
    if AllCanonical(fs) {
      forall f | CheckHas(c, f)
        ensures Canonical(f)
      {
        CheckMembers(c, f);
      }
    }
    if forall f :: CheckHas(c, f) ==> Canonical(f) {
      forall i | 0 <= i < |fs|
        ensures Canonical(fs[i])
      {
        CheckMembers(c, fs[i]);
      }
    }
  }

  ghost predicate Plain(f: Field) {
    Canonical(f) && (f.Name? ==> BAR !in f.text) && (f.Status? ==> 0 <= f.value <= 3)
  }

  lemma BodyIsPlain(body: Binary)
    ensures var r := ParseSections(false, Split(BAR, body));
            r.Ok? ==> forall f :: f in r.value ==> Plain(f)
  {
    SplitIsFree(BAR, body);
    ParsedAreCanonical(false, Split(BAR, body));
    ParsedAreOptional(false, Split(BAR, body));
  }

  lemma StatusIsPlain(name: Binary, rest: Binary)
    requires BAR !in name
    ensures var r := DecodeStatus(name, rest);
            r.Ok? ==> forall f :: f in r.value ==> Plain(f)
  {
    var j := Find(BAR, rest);
    BodyIsPlain(if j == |rest| then [] else rest[j + 1..]);
  }

  /** Whatever is read as a service check has canonical fields, a name without a bar and a status of 0 to 3. */
  lemma DecodedCheckIsPlain(data: Binary, fs: seq<Field>)
    requires DecodeCheck(data) == Ok(fs)
    ensures forall f :: f in fs ==> Plain(f)
  {
    var i := Find(BAR, data);
    FindCuts(BAR, data);
    StatusIsPlain(data[..i], data[i + 1..]);
  }

  lemma {:induction false} ParsedAreOptional(event: bool, ss: seq<Binary>)
    ensures var r := ParseSections(event, ss);
            r.Ok? ==> forall f :: f in r.value ==> f.Tags? || f.Timestamp? || f.Labelled?
    decreases |ss|
  {
    if ss != [] {
      ParsedAreOptional(event, ss[1..]);
    }
  }

  /**
   A service check is read back with all its fields, each under its own name and once, if and only if its name and its
   optional fields hold no bar, its tags are as for events, and its status is one of 0 to 3.
   */
  lemma CheckReadsBackIff(c: ServiceCheck)
    requires In32(c.timestamp)
    ensures (exists fs :: Decode(EncodeCheck(c)) == Some(Ok(fs)) && HoldsCheck(fs, c)) <==> CanonicalCheck(c)
  {
    CheckInOrderIff(c);
    CheckCanonicalIff(c);
    CheckHolds(c);
    if fs :| Decode(EncodeCheck(c)) == Some(Ok(fs)) && HoldsCheck(fs, c) {
      EncodedCheckIsPlain(c, fs);
      HeldIsCanonical(c, fs);
    }
  }

  lemma EncodedCheckIsPlain(c: ServiceCheck, fs: seq<Field>)
    requires In32(c.timestamp) && Decode(EncodeCheck(c)) == Some(Ok(fs))
    ensures forall f :: f in fs ==> Plain(f)
  {
    CheckOptionsFit(c);
    var rest := Int(c.status) + Sections(false, CheckOptions(c));
    CheckParts(c.name, rest);
    DecodedCheckIsPlain(c.name + [BAR] + rest, fs);
  }

  lemma HeldIsCanonical(c: ServiceCheck, fs: seq<Field>)
    requires HoldsCheck(fs, c) && forall f :: f in fs ==> Plain(f)
    ensures CanonicalCheck(c)
  {
    assert CheckHas(c, Name(c.name)) && CheckHas(c, Status(c.status));
    assert Plain(Name(c.name)) && Plain(Status(c.status));
  }

  lemma CheckTail(c: ServiceCheck)
    requires In32(c.timestamp)
    ensures Options(false, CheckOptions(c))
    ensures Sections(false, CheckOptions(c))
            == Part("|d:", StampText(c.timestamp)) + Part("|h:", c.hostname) + Part("|#", TagText(c.tags))
               + Part("|m:", c.message) + Part("|c:", c.container)
  {
    var a := Stamp(c.timestamp);
    StampPart(false, c.timestamp);
    LabelPart(false, Hostname, c.hostname);
    SectionsAppend(false, a, Opt(Hostname, c.hostname));
    a := a + Opt(Hostname, c.hostname);
    TagPart(false, c.tags);
    SectionsAppend(false, a, Tagged(c.tags));
    a := a + Tagged(c.tags);
    LabelPart(false, Message, c.message);
    SectionsAppend(false, a, Opt(Message, c.message));
    a := a + Opt(Message, c.message);
    LabelPart(false, ContainerId, c.container);
    SectionsAppend(false, a, Opt(ContainerId, c.container));
  }

  /** The text of every service check, as it is documented. */
  lemma CheckIsWritten(c: ServiceCheck)
    requires In32(c.timestamp)
    ensures EncodeCheck(c)
            == Ascii("_sc|") + (c.name + Ascii("|") + (Int(c.status)
               + (Part("|d:", StampText(c.timestamp)) + Part("|h:", c.hostname) + Part("|#", TagText(c.tags))
                  + Part("|m:", c.message) + Part("|c:", c.container))))
  {
    CheckTail(c);
    assert Ascii("_sc|") == [95, 115, 99, BAR] && Ascii("|") == [BAR];
  }

  // ----- the codec as it stands: a loop that inserts fields, and a writer that appends them

  method ReadSections(event: bool, ss: seq<Binary>) returns (r: Result<seq<Field>, Error>)
    ensures r == ParseSections(event, ss)
  {
    var fields := [];
    ghost var whole := ParseSections(event, ss);
    assert ss[0..] == ss;
    if whole.Ok? {
      assert [] + whole.value == whole.value;
    }
    for i := 0 to |ss|
      invariant whole == After(fields, ParseSections(event, ss[i..]))
    {
      var one := ParseSection(event, ss[i]);
      ghost var more := ParseSections(event, ss[i + 1..]);
      assert ss[i..] == [ss[i]] + ss[i + 1..];
      ParseFront(event, ss[i], ss[i + 1..]);
      if one.Err? {
        return Err(one.error);
      }
      if one.value.Some? {
        if more.Ok? {
          Assoc(fields, [one.value.value], more.value);
        }
        fields := fields + [one.value.value];
      } else if more.Ok? {
        assert [] + more.value == more.value;
      }
    }
    assert fields + [] == fields;
    r := Ok(fields);
  }

  lemma SectionsFront(event: bool, f: Field, fs: seq<Field>)
    requires Optional(event, f) && Options(event, fs)
    ensures Options(event, [f] + fs) && Sections(event, [f] + fs) == [BAR] + Section(f) + Sections(event, fs)
  {
    assert ([f] + fs)[1..] == fs;
  }

  lemma {:induction false} SectionsAppend(event: bool, a: seq<Field>, b: seq<Field>)
    requires Options(event, a) && Options(event, b)
    ensures Options(event, a + b) && Sections(event, a + b) == Sections(event, a) + Sections(event, b)
    decreases |a|
  {
    if a == [] {
      assert a + b == b;
    } else {
      var f, rest := a[0], a[1..];
      SectionsAppend(event, rest, b);
      SectionsFront(event, f, rest + b);
      Assoc([f], rest, b);
      assert [f] + rest == a;
      Assoc([BAR] + Section(f), Sections(event, rest), Sections(event, b));
    }
  }

  lemma OneSection(event: bool, f: Field)
    requires Optional(event, f)
    ensures Sections(event, [f]) == [BAR] + Section(f)
  {
    assert [f][1..] == [] && [BAR] + Section(f) + [] == [BAR] + Section(f);
  }

  class Writer {
    const event: bool
    var out: Binary
    /** What was there before the optional fields, and the optional fields so far. */
    ghost var base: Binary
    ghost var done: seq<Field>

    ghost predicate Valid()
      reads this
    {
      Options(event, done) && out == base + Sections(event, done)
    }

    constructor (event: bool, out: Binary)
      ensures Valid() && this.event == event && base == out && done == []
    {
      this.event, this.out, base, done := event, out, out, [];
      assert out + [] == out;
    }

    ghost method Note(f: seq<Field>)
      requires Options(event, done) && Options(event, f)
      requires out == base + Sections(event, done) + Sections(event, f)
      modifies `done
      ensures Valid() && done == old(done) + f
    {
      SectionsAppend(event, done, f);
      Assoc(base, Sections(event, done), Sections(event, f));
      done := done + f;
    }

    method WriteText(key: Label, t: Option<Binary>)
      requires Valid() && Known(event, key)
      modifies this
      ensures Valid() && base == old(base) && done == old(done) + Opt(key, t)
    {
      if t.Some? {
        OneSection(event, Labelled(key, t.value));
        ghost var before := out;
        out := out + [BAR, Letter(key), 58];
        out := out + t.value;
        assert out == before + ([BAR] + Section(Labelled(key, t.value)));
      } else {
        assert out == out + [];
      }
      Note(Opt(key, t));
    }

    method WriteTime(t: Option<nat>)
      requires Valid() && In32(t)
      modifies this
      ensures Valid() && base == old(base) && done == old(done) + Stamp(t)
    {
      if t.Some? {
        OneSection(event, Timestamp(t.value));
        ghost var before := out;
        out := out + [BAR, 100, 58];
        out := out + Decimal(t.value);
        assert out == before + ([BAR] + Section(Timestamp(t.value)));
      } else {
        assert out == out + [];
      }
      Note(Stamp(t));
    }

    /** The first tag as it is, each other one after a comma. */
    method WriteTags(ts: Option<seq<Binary>>)
      requires Valid()
      modifies this
      ensures Valid() && base == old(base) && done == old(done) + Tagged(ts)
    {
      if ts.Some? {
        OneSection(event, Tags(ts.value));
        ghost var before := out;
        out := out + [BAR, 35];
        WriteTagList(ts.value);
        assert out == before + ([BAR] + Section(Tags(ts.value)));
      } else {
        assert out == out + [];
      }
      Note(Tagged(ts));
    }

    method WriteTagList(tags: seq<Binary>)
      modifies `out
      ensures out == old(out) + TagList(tags)
    {
      if tags == [] {
        assert out == out + [];
        return;
      }
      out := out + tags[0];
      assert tags[0..] == tags;
      for i := 1 to |tags|
        invariant out + (if i < |tags| then [COMMA] + TagList(tags[i..]) else []) == old(out) + TagList(tags)
      {
        assert tags[i..][1..] == tags[i + 1..];
        out := out + [COMMA];
        out := out + tags[i];
      }
      assert out == out + [];
    }

    method WriteEventOptions(e: Event)
      requires Valid() && event && done == [] && In32(e.timestamp)
      modifies this
      ensures Valid() && base == old(base) && done == EventOptions(e)
    {
      assert [] + Stamp(e.timestamp) == Stamp(e.timestamp);
      WriteTime(e.timestamp);
      WriteText(Hostname, e.hostname);
      WriteText(AggregationKey, e.aggregationKey);
      WriteText(Priority, e.priority);
      WriteText(SourceType, e.source);
      WriteText(AlertType, e.alert);
      WriteTags(e.tags);
      WriteText(ContainerId, e.container);
    }

    method WriteCheckOptions(c: ServiceCheck)
      requires Valid() && !event && done == [] && In32(c.timestamp)
      modifies this
      ensures Valid() && base == old(base) && done == CheckOptions(c)
    {
      assert [] + Stamp(c.timestamp) == Stamp(c.timestamp);
      WriteTime(c.timestamp);
      WriteText(Hostname, c.hostname);
      WriteTags(c.tags);
      WriteText(Message, c.message);
      WriteText(ContainerId, c.container);
    }
  }

  function EventHead(title: Binary, text: Binary): Binary {
    [95, 101, 123] + (Decimal(|title|) + [COMMA] + (Decimal(|text|) + [125, 58] + (title + [BAR] + text)))
  }

  lemma EventHeadTail(title: Binary, text: Binary, tail: Binary)
    ensures EventHead(title, text) + tail == EventText(title, text, tail)
  {
    var a, b := Decimal(|title|) + [COMMA], Decimal(|text|) + [125, 58];
    Assoc([95, 101, 123], a + (b + (title + [BAR] + text)), tail);
    Assoc(a, b + (title + [BAR] + text), tail);
    Assoc(b, title + [BAR] + text, tail);
  }

  function CheckHead(name: Binary, status: int): Binary {
    [95, 115, 99, BAR] + (name + [BAR] + Int(status))
  }

  lemma CheckHeadTail(name: Binary, status: int, tail: Binary)
    ensures CheckHead(name, status) + tail == CheckText(name, Int(status) + tail)
  {
    Assoc([95, 115, 99, BAR], name + [BAR] + Int(status), tail);
    Assoc(name + [BAR], Int(status), tail);
  }

  method WriteEvent(e: Event) returns (out: Binary)
    requires In32(e.timestamp)
    ensures out == EncodeEvent(e)
  {
    var w := new Writer(true, EventHead(e.title, e.text));
    w.WriteEventOptions(e);
    out := w.out;
    EventHeadTail(e.title, e.text, Sections(true, w.done));
  }

  method WriteCheck(c: ServiceCheck) returns (out: Binary)
    requires In32(c.timestamp)
    ensures out == EncodeCheck(c)
  {
    var w := new Writer(false, CheckHead(c.name, c.status));
    w.WriteCheckOptions(c);
    out := w.out;
    CheckHeadTail(c.name, c.status, Sections(false, w.done));
  }
}
