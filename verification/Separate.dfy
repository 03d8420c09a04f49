/**
 Framing by a separator byte. The reader keeps the part after the last separator until the rest of it
 arrives, and drops records that are longer than a configured maximum.
 */
module Separation {
  import opened Bytes
  import opened Wrappers

  /** No maximum means that records may have any length. */
  datatype Config = Config(separator: Byte, max: Option<nat>)

  predicate Short(c: Config, r: Binary) {
    c.max.None? || |r| <= c.max.value
  }

  // ----- records of a byte stream

  /** The position of the first separator, or the length. */
  function Find(sep: Byte, data: Binary): (i: nat)
    ensures i <= |data| && (i < |data| ==> data[i] == sep)
    ensures forall j :: 0 <= j < i ==> data[j] != sep
  {
    if data == [] || data[0] == sep then 0 else 1 + Find(sep, data[1..])
  }

  /** What is before separators. */
  function Records(sep: Byte, data: Binary): seq<Binary> {
    var i := Find(sep, data);
    if i == |data| then [] else [data[..i]] + Records(sep, data[i + 1..])
  }

  /** What is after the last separator. */
  function Rest(sep: Byte, data: Binary): Binary {
    var i := Find(sep, data);
    if i == |data| then data else Rest(sep, data[i + 1..])
  }

  /** All parts between separators, the last one included. */
  function Split(sep: Byte, data: Binary): seq<Binary> {
    Records(sep, data) + [Rest(sep, data)]
  }

  /** The postprocessor: each message is followed by a separator. */
  function Frames(sep: Byte, ms: seq<Binary>): Binary {
    if ms == [] then [] else ms[0] + [sep] + Frames(sep, ms[1..])
  }

  ghost predicate AllFree(sep: Byte, ms: seq<Binary>) {
    forall i :: 0 <= i < |ms| ==> sep !in ms[i]
  }

  lemma FindAt(sep: Byte, data: Binary, i: nat)
    requires i < |data| && data[i] == sep && sep !in data[..i]
    ensures Find(sep, data) == i
  {
    forall j | 0 <= j < i
      ensures data[j] != sep
    {
      assert data[..i][j] == data[j];
    }
  }

  lemma OneRecord(sep: Byte, r: Binary, data: Binary)
    requires sep !in r
    ensures Records(sep, r + [sep] + data) == [r] + Records(sep, data)
    ensures Rest(sep, r + [sep] + data) == Rest(sep, data)
  {
    var all := r + [sep] + data;
    assert all[..|r|] == r && all[|r| + 1..] == data;
    FindAt(sep, all, |r|);
  }

  lemma NoRecord(sep: Byte, r: Binary)
    requires sep !in r
    ensures Records(sep, r) == [] && Rest(sep, r) == r
  {
  }

  lemma AllFreeFront(sep: Byte, ms: seq<Binary>)
    requires ms != []
    ensures AllFree(sep, ms) <==> sep !in ms[0] && AllFree(sep, ms[1..])
  {
    assert forall i :: 0 < i < |ms| ==> ms[i] == ms[1..][i - 1];
  }

  lemma FramesFront(sep: Byte, r: Binary, rs: seq<Binary>)
    ensures Frames(sep, [r] + rs) == r + [sep] + Frames(sep, rs)
    ensures AllFree(sep, [r] + rs) <==> sep !in r && AllFree(sep, rs)
  {
    assert ([r] + rs)[1..] == rs;
    AllFreeFront(sep, [r] + rs);
  }

  lemma FindCuts(sep: Byte, data: Binary)
    ensures var i := Find(sep, data);
            && sep !in data[..i]
            && (i < |data| ==> data == data[..i] + [sep] + data[i + 1..])
            && (i == |data| ==> data[..i] == data)
  {
  }

  lemma {:induction false} SplitsJoin(sep: Byte, data: Binary)
    ensures Frames(sep, Records(sep, data)) + Rest(sep, data) == data
    decreases |data|
  {
    var i := Find(sep, data);
    FindCuts(sep, data);
    if i < |data| {
      var head, tail := data[..i], data[i + 1..];
      SplitsJoin(sep, tail);
      FramesFront(sep, head, Records(sep, tail));
      Assoc(head + [sep], Frames(sep, Records(sep, tail)), Rest(sep, tail));
    }
  }

  lemma {:induction false} SplitsFree(sep: Byte, data: Binary)
    ensures AllFree(sep, Records(sep, data)) && sep !in Rest(sep, data)
    decreases |data|
  {
    var i := Find(sep, data);
    FindCuts(sep, data);
    if i < |data| {
      SplitsFree(sep, data[i + 1..]);
      FramesFront(sep, data[..i], Records(sep, data[i + 1..]));
    }
  }

  lemma Splits(sep: Byte, data: Binary)
    ensures Frames(sep, Records(sep, data)) + Rest(sep, data) == data
    ensures AllFree(sep, Records(sep, data)) && sep !in Rest(sep, data)
  {
    SplitsJoin(sep, data);
    SplitsFree(sep, data);
  }

  /** There is only one way to see a stream as terminated records and a rest, all without separators. */
  lemma {:induction false} SplitsOnly(sep: Byte, ms: seq<Binary>, rest: Binary)
    requires AllFree(sep, ms) && sep !in rest
    ensures Records(sep, Frames(sep, ms) + rest) == ms && Rest(sep, Frames(sep, ms) + rest) == rest
    decreases |ms|
  {
    if ms == [] {
      NoRecord(sep, rest);
      assert Frames(sep, ms) + rest == rest;
    } else {
      var more := Frames(sep, ms[1..]);
      AllFreeFront(sep, ms);
      SplitsOnly(sep, ms[1..], rest);
      OneRecord(sep, ms[0], more + rest);
      Assoc(ms[0] + [sep], more, rest);
      assert ms == [ms[0]] + ms[1..];
    }
  }

  lemma {:induction false} FramesAppend(sep: Byte, a: seq<Binary>, b: seq<Binary>)
    ensures Frames(sep, a + b) == Frames(sep, a) + Frames(sep, b)
    decreases |a|
  {
    if a == [] {
      assert a + b == b;
    } else {
      FramesAppend(sep, a[1..], b);
      Assoc(a[0] + [sep], Frames(sep, a[1..]), Frames(sep, b));
      assert (a + b)[1..] == a[1..] + b;
    }
  }

  /** More data only continues the rest. */
  lemma SplitsMore(sep: Byte, data: Binary, more: Binary)
    ensures Records(sep, data + more) == Records(sep, data) + Records(sep, Rest(sep, data) + more)
    ensures Rest(sep, data + more) == Rest(sep, Rest(sep, data) + more)
  {
    var next := Rest(sep, data) + more;
    var a, b := Records(sep, data), Records(sep, next);
    Splits(sep, data);
    Splits(sep, next);
    FramesAppend(sep, a, b);
    Assoc(Frames(sep, a), Frames(sep, b), Rest(sep, next));
    Assoc(Frames(sep, a), Rest(sep, data), more);
    AllFreeAppend(sep, a, b);
    SplitsOnly(sep, a + b, Rest(sep, next));
  }

  lemma AllFreeAppend(sep: Byte, a: seq<Binary>, b: seq<Binary>)
    ensures AllFree(sep, a + b) <==> AllFree(sep, a) && AllFree(sep, b)
  {
    if AllFree(sep, a + b) {
      assert forall i :: 0 <= i < |a| ==> (a + b)[i] == a[i];
      assert forall i :: 0 <= i < |b| ==> (a + b)[|a| + i] == b[i];
    }
  }

  // ----- one call

  function Keep(c: Config, rs: seq<Binary>): seq<Binary> {
    if rs == [] then []
    else if Short(c, rs[0]) then [rs[0]] + Keep(c, rs[1..])
    else Keep(c, rs[1..])
  }

  /**
   A record that is too long is skipped when it starts in this call; when its start was kept from an
   earlier call, or when its end is not here yet, all of the call fails and the buffer is dropped.
   */
  function Process(c: Config, buffer: Binary, data: Binary): (Binary, Option<seq<Binary>>) {
    Judge(c, buffer != [], Records(c.separator, buffer + data), Rest(c.separator, buffer + data))
  }

  function Judge(c: Config, carried: bool, records: seq<Binary>, rest: Binary): (Binary, Option<seq<Binary>>) {
    if carried && records != [] && !Short(c, records[0]) then ([], None)
    else if !Short(c, rest) then ([], None)
    else (rest, Some(Keep(c, records)))
  }

  lemma KeepFront(c: Config, r: Binary, rs: seq<Binary>)
    ensures Keep(c, [r] + rs) == if Short(c, r) then [r] + Keep(c, rs) else Keep(c, rs)
  {
    assert ([r] + rs)[1..] == rs;
  }

  lemma ProcessSplit(c: Config, buffer: Binary, head: Binary, tail: Binary)
    requires c.separator !in buffer && c.separator !in head
    ensures Process(c, buffer, head + [c.separator] + tail)
            == Judge(c, buffer != [], [buffer + head] + Records(c.separator, tail), Rest(c.separator, tail))
  {
    var sep := c.separator;
    OneRecord(sep, buffer + head, tail);
    Assoc(buffer, head, [sep]);
    Assoc(buffer, head + [sep], tail);
  }

  /** Without buffering every call stands for itself, and what is behind the last separator is a record, too. */
  function Take(c: Config, buffered: bool, buffer: Binary, data: Binary): (Binary, Option<seq<Binary>>) {
    if buffered then Process(c, buffer, data)
    else (buffer, Some(Keep(c, Records(c.separator, data)) + [Rest(c.separator, data)]))
  }

  /** What the demand to finish gives, with or without more data. */
  function End(c: Config, buffered: bool, buffer: Binary, data: Option<Binary>): (Binary, Option<seq<Binary>>) {
    match data
    case None => ([], Some(Flushed(Outcome([], buffer, false))))
    case Some(d) =>
      var (rest, r) := Take(c, buffered, buffer, d);
      ([], if r.None? then None else Some(Flushed(Outcome(r.value, rest, false))))
  }

  /** Without buffering the last part always comes out, however long; all others do if and only if none is too long. */
  lemma UnbufferedIff(c: Config, buffer: Binary, data: Binary)
    ensures var (b, r) := Take(c, false, buffer, data);
            && b == buffer && r.Some? && r.value != [] && r.value[|r.value| - 1] == Rest(c.separator, data)
            && (r.value == Split(c.separator, data) <==> AllShort(c, Records(c.separator, data)))
  {
    var rs, rest := Records(c.separator, data), Rest(c.separator, data);
    KeepAll(c, rs);
    if Keep(c, rs) + [rest] == rs + [rest] {
      assert Keep(c, rs) == (Keep(c, rs) + [rest])[..|Keep(c, rs)|];
      assert |Keep(c, rs)| == |rs|;
      assert rs == (rs + [rest])[..|rs|];
    }
  }

  /** After a finish nothing is left: another one gives nothing. */
  lemma EndsEmpty(c: Config, buffered: bool, buffer: Binary, data: Option<Binary>)
    ensures var (b, _) := End(c, buffered, buffer, data); b == [] && End(c, buffered, b, None) == ([], Some([]))
  {
  }

  class Preprocessor {
    const config: Config
    const buffered: bool
    var buffer: Binary

    /** The buffer never holds a separator, never more than a record may have, and nothing in unbuffered mode. */
    ghost predicate Valid()
      reads this
    {
      config.separator !in buffer && Short(config, buffer) && (!buffered ==> buffer == [])
    }

    constructor (separator: Byte, maxLength: nat, buffered: bool)
      ensures Valid() && buffer == [] && this.buffered == buffered
      ensures config == Config(separator, if maxLength == 0 then None else Some(maxLength))
    {
      config := Config(separator, if maxLength == 0 then None else Some(maxLength));
      this.buffered := buffered;
      buffer := [];
    }

    method SaveFragment(v: Binary) returns (ok: bool)
      modifies this
      ensures ok == Short(config, old(buffer) + v)
      ensures buffer == if ok then old(buffer) + v else []
    {
      ok := Short(config, buffer + v);
      buffer := if ok then buffer + v else [];
    }

    /** Takes all terminated records from `data`. */
    method TakeRecords(data: Binary) returns (events: seq<Binary>, rest: Binary)
      ensures events == Keep(config, Records(config.separator, data))
      ensures rest == Rest(config.separator, data)
    {
      var sep := config.separator;
      events, rest := [], data;
      ghost var all := Keep(config, Records(sep, data));
      assert [] + all == all;
      var next := Find(sep, rest);
      while next < |rest|
        invariant next == Find(sep, rest)
        invariant all == events + Keep(config, Records(sep, rest))
        invariant Rest(sep, data) == Rest(sep, rest)
        decreases |rest|
      {
        var fragment := rest[..next];
        rest := rest[next + 1..];
        KeepFront(config, fragment, Records(sep, rest));
        if Short(config, fragment) {
          Assoc(events, [fragment], Keep(config, Records(sep, rest)));
          events := events + [fragment];
        }
        next := Find(sep, rest);
      }
    }

    method ProcessData(data: Binary) returns (r: Option<seq<Binary>>)
      requires Valid()
      modifies this
      ensures Valid()
      ensures (buffer, r) == Take(config, buffered, old(buffer), data)
    {
      var sep := config.separator;
      if !buffered {
        var events, rest := TakeRecords(data);
        return Some(events + [rest]);
      }
      var first := Find(sep, data);
      if first == |data| {
        NoRecord(sep, buffer + data);
        var ok := SaveFragment(data);
        return if ok then Some([]) else None;
      }
      var head, tail := data[..first], data[first + 1..];
      assert data == head + [sep] + tail;
      ProcessSplit(config, buffer, head, tail);
      KeepFront(config, buffer + head, Records(sep, tail));
      if buffer != [] && !Short(config, buffer + head) {
        buffer := [];
        return None;
      }
      var firsts := if Short(config, buffer + head) then [buffer + head] else [];
      buffer := [];
      var events, rest := TakeRecords(tail);
      Splits(sep, tail);
      var ok := SaveFragment(rest);
      assert [] + rest == rest;
      assert [] + events == events;
      r := if ok then Some(firsts + events) else None;
    }

    method Finish(data: Option<Binary>) returns (r: Option<seq<Binary>>)
      requires Valid()
      modifies this
      ensures Valid()
      ensures (buffer, r) == End(config, buffered, old(buffer), data)
    {
      if data.Some? {
        r := ProcessData(data.value);
        if r.None? {
          return;
        }
      } else {
        r := Some([]);
      }
      if buffer != [] {
        assert [] + [buffer] == [buffer];
        r := Some(r.value + [buffer]);
        buffer := [];
      }
    }
  }

  // ----- whole streams

  datatype Outcome = Outcome(messages: seq<Binary>, buffer: Binary, failed: bool)

  /** One call for each piece; stops at the first error. */
  function Feed(c: Config, buffer: Binary, pieces: seq<Binary>): Outcome
    decreases |pieces|
  {
    if pieces == [] then Outcome([], buffer, false)
    else
      var (next, r) := Process(c, buffer, pieces[0]);
      if r.None? then Outcome([], next, true)
      else
        var o := Feed(c, next, pieces[1..]);
        o.(messages := r.value + o.messages)
  }

  ghost predicate AllShort(c: Config, rs: seq<Binary>) {
    forall i :: 0 <= i < |rs| ==> Short(c, rs[i])
  }

  lemma {:induction false} KeepAll(c: Config, rs: seq<Binary>)
    ensures AllShort(c, Keep(c, rs))
    ensures AllShort(c, rs) ==> Keep(c, rs) == rs
    decreases |rs|
  {
    if rs != [] {
      KeepAll(c, rs[1..]);
      assert forall i :: 0 < i < |rs| ==> rs[i] == rs[1..][i - 1];
    }
  }

  lemma AllShortAppend(c: Config, a: seq<Binary>, b: seq<Binary>)
    ensures AllShort(c, a + b) <==> AllShort(c, a) && AllShort(c, b)
  {
    if AllShort(c, a + b) {
      assert forall i :: 0 <= i < |a| ==> (a + b)[i] == a[i];
      assert forall i :: 0 <= i < |b| ==> (a + b)[|a| + i] == b[i];
    }
  }

  lemma {:induction false} FeedShort(c: Config, buffer: Binary, pieces: seq<Binary>)
    requires Short(c, buffer)
    ensures var o := Feed(c, buffer, pieces);
            Short(c, o.buffer) && AllShort(c, o.messages)
    decreases |pieces|
  {
    if pieces != [] {
      var (next, r) := Process(c, buffer, pieces[0]);
      KeepAll(c, Records(c.separator, buffer + pieces[0]));
      if r.Some? {
        FeedShort(c, next, pieces[1..]);
        AllShortAppend(c, r.value, Feed(c, next, pieces[1..]).messages);
      }
    }
  }

  lemma {:induction false} FeedAll(c: Config, buffer: Binary, pieces: seq<Binary>)
    requires c.separator !in buffer
    requires var all := buffer + Flatten(pieces);
             AllShort(c, Records(c.separator, all)) && Short(c, Rest(c.separator, all))
    ensures var all := buffer + Flatten(pieces);
            Feed(c, buffer, pieces) == Outcome(Records(c.separator, all), Rest(c.separator, all), false)
    decreases |pieces|
  {
    var sep := c.separator;
    if pieces == [] {
      NoRecord(sep, buffer);
      assert buffer + [] == buffer;
    } else {
      var one, later := buffer + pieces[0], Flatten(pieces[1..]);
      var rest := Rest(sep, one);
      assert buffer + Flatten(pieces) == one + later;
      SplitsMore(sep, one, later);
      AllShortAppend(c, Records(sep, one), Records(sep, rest + later));
      KeepAll(c, Records(sep, one));
      Splits(sep, one);
      RestShort(c, rest, later);
      FeedAll(c, rest, pieces[1..]);
    }
  }

  /** A rest that is too long makes a record or a rest that is too long. */
  lemma RestShort(c: Config, rest: Binary, later: Binary)
    requires c.separator !in rest
    requires AllShort(c, Records(c.separator, rest + later)) && Short(c, Rest(c.separator, rest + later))
    ensures Short(c, rest)
  {
    var i := Find(c.separator, rest + later);
    assert i >= |rest|;
    if i < |rest + later| {
      assert |Records(c.separator, rest + later)[0]| == i;
    }
  }

  /**
   However a stream is cut into pieces: every call succeeds, all terminated records come out and the
   rest is kept, if and only if no record of the stream is longer than the maximum.
   */
  lemma AllRecordsIff(c: Config, pieces: seq<Binary>)
    ensures var all := Flatten(pieces);
            Feed(c, [], pieces) == Outcome(Records(c.separator, all), Rest(c.separator, all), false)
            <==> AllShort(c, Records(c.separator, all)) && Short(c, Rest(c.separator, all))
  {
    var all := Flatten(pieces);
    assert [] + all == all;
    FeedShort(c, [], pieces);
    if AllShort(c, Records(c.separator, all)) && Short(c, Rest(c.separator, all)) {
      FeedAll(c, [], pieces);
    }
  }

  /** What is left in the buffer goes out in the end, unless it is empty. */
  function Flushed(o: Outcome): seq<Binary> {
    if o.buffer == [] then o.messages else o.messages + [o.buffer]
  }

  /** With a finish in the end, and records that are not too long, all parts come out but an empty last one. */
  lemma SplitsWithFinish(c: Config, pieces: seq<Binary>)
    requires AllShort(c, Split(c.separator, Flatten(pieces)))
    ensures var o, parts := Feed(c, [], pieces), Split(c.separator, Flatten(pieces));
            && !o.failed
            && Flushed(o) == if parts[|parts| - 1] == [] then parts[..|parts| - 1] else parts
  {
    var all := Flatten(pieces);
    AllShortAppend(c, Records(c.separator, all), [Rest(c.separator, all)]);
    assert AllShort(c, [Rest(c.separator, all)]) ==> Short(c, [Rest(c.separator, all)][0]);
    AllRecordsIff(c, pieces);
  }

  /**
   What the postprocessor writes is read back, in whatever pieces it arrives, if and only if no message
   holds the separator or is longer than the maximum.
   */
  lemma ReadsBackIff(c: Config, ms: seq<Binary>, pieces: seq<Binary>)
    requires Flatten(pieces) == Frames(c.separator, ms)
    ensures Feed(c, [], pieces) == Outcome(ms, [], false) <==> AllFree(c.separator, ms) && AllShort(c, ms)
  {
    var sep, all := c.separator, Flatten(pieces);
    assert all + [] == all;
    AllRecordsIff(c, pieces);
    if AllFree(sep, ms) {
      SplitsOnly(sep, ms, []);
    }
    if Feed(c, [], pieces) == Outcome(ms, [], false) {
      FeedShort(c, [], pieces);
      FeedFree(c, [], pieces);
    }
  }

  lemma {:induction false} FeedFree(c: Config, buffer: Binary, pieces: seq<Binary>)
    ensures AllFree(c.separator, Feed(c, buffer, pieces).messages)
    decreases |pieces|
  {
    if pieces != [] {
      var (next, r) := Process(c, buffer, pieces[0]);
      if r.Some? {
        Splits(c.separator, buffer + pieces[0]);
        KeepFree(c, Records(c.separator, buffer + pieces[0]));
        FeedFree(c, next, pieces[1..]);
      }
    }
  }

  lemma {:induction false} KeepFree(c: Config, rs: seq<Binary>)
    requires AllFree(c.separator, rs)
    ensures AllFree(c.separator, Keep(c, rs))
    decreases |rs|
  {
    if rs != [] {
      AllFreeFront(c.separator, rs);
      KeepFree(c, rs[1..]);
    }
  }

  // ----- when the pieces matter

  ghost predicate AllLong(c: Config, rs: seq<Binary>) {
    forall i :: 0 <= i < |rs| ==> !Short(c, rs[i])
  }

  lemma {:induction false} KeepNone(c: Config, rs: seq<Binary>)
    ensures Keep(c, rs) == [] <==> AllLong(c, rs)
    decreases |rs|
  {
    if rs != [] {
      KeepNone(c, rs[1..]);
      assert forall i :: 0 < i < |rs| ==> rs[i] == rs[1..][i - 1];
    }
  }

  lemma AllLongAppend(c: Config, a: seq<Binary>, b: seq<Binary>)
    ensures AllLong(c, a + b) <==> AllLong(c, a) && AllLong(c, b)
  {
    if AllLong(c, a + b) {
      assert forall i :: 0 <= i < |a| ==> (a + b)[i] == a[i];
      assert forall i :: 0 <= i < |b| ==> (a + b)[|a| + i] == b[i];
    }
  }

  /** The outcome for a stream does not depend on how it is cut. */
  ghost predicate Indifferent(c: Config, all: Binary) {
    forall ps, qs :: Flatten(ps) == all && Flatten(qs) == all ==> Feed(c, [], ps) == Feed(c, [], qs)
  }

  /** Where all parts are too long, the last one included, nothing comes out and some call fails. */
  lemma {:induction false} FeedNone(c: Config, buffer: Binary, pieces: seq<Binary>)
    requires c.separator !in buffer && Short(c, buffer)
    requires var all := buffer + Flatten(pieces);
             AllLong(c, Records(c.separator, all)) && !Short(c, Rest(c.separator, all))
    ensures Feed(c, buffer, pieces) == Outcome([], [], true)
    decreases |pieces|
  {
    var sep := c.separator;
    NoRecord(sep, buffer);
    assert buffer + [] == buffer;
    if pieces != [] {
      var one, later := buffer + pieces[0], Flatten(pieces[1..]);
      assert buffer + Flatten(pieces) == one + later;
      SplitsMore(sep, one, later);
      AllLongAppend(c, Records(sep, one), Records(sep, Rest(sep, one) + later));
      KeepNone(c, Records(sep, one));
      Splits(sep, one);
      if Process(c, buffer, pieces[0]).1.Some? {
        FeedNone(c, Rest(sep, one), pieces[1..]);
      }
    }
  }

  /** Cut inside of a record that is too long, a stream fails. */
  lemma FailsWhenCut(c: Config, all: Binary, i: nat) returns (pieces: seq<Binary>)
    requires i < |Records(c.separator, all)| && !Short(c, Records(c.separator, all)[i])
    ensures Flatten(pieces) == all && Feed(c, [], pieces).failed
  {
    var sep, rs := c.separator, Records(c.separator, all);
    var r, before, after := rs[i], Frames(sep, rs[..i]), Frames(sep, rs[i + 1..]) + Rest(sep, all);
    CutRecord(sep, all, i);
    AllFreeAppend(sep, rs[..i], rs[i..]);
    assert rs == rs[..i] + rs[i..] && rs[i..][0] == r;
    var a, b := before + r[..1], r[1..] + ([sep] + after);
    pieces := [a, b];
    FlattenTwo(a, b);
    CutAgain(before, r, [sep] + after);
    FirstPart(c, rs[..i], r);
    SecondPart(c, r, after);
    FeedFails(c, a, b);
  }

  lemma FirstPart(c: Config, rs: seq<Binary>, r: Binary)
    requires AllFree(c.separator, rs) && c.separator !in r && r != []
    ensures var (next, first) := Process(c, [], Frames(c.separator, rs) + r[..1]);
            first.Some? ==> next == r[..1]
  {
    SplitsOnly(c.separator, rs, r[..1]);
    assert [] + (Frames(c.separator, rs) + r[..1]) == Frames(c.separator, rs) + r[..1];
  }

  lemma SecondPart(c: Config, r: Binary, after: Binary)
    requires c.separator !in r && r != [] && !Short(c, r)
    ensures Process(c, r[..1], r[1..] + ([c.separator] + after)).1.None?
  {
    OneRecord(c.separator, r, after);
    assert r[..1] + (r[1..] + ([c.separator] + after)) == r + [c.separator] + after;
  }

  lemma FeedFails(c: Config, a: Binary, b: Binary)
    requires var (next, first) := Process(c, [], a); first.Some? ==> Process(c, next, b).1.None?
    ensures Feed(c, [], [a, b]).failed
  {
    var (next, first) := Process(c, [], a);
    assert [a, b][1..] == [b];
    if first.Some? {
      assert Feed(c, next, [b]).failed;
    }
  }

  lemma FlattenTwo(a: Binary, b: Binary)
    ensures Flatten([a, b]) == a + b
  {
    assert [a, b][1..] == [b];
    FlattenOne(b);
  }

  lemma CutAgain(before: Binary, r: Binary, after: Binary)
    requires r != []
    ensures (before + r[..1]) + (r[1..] + after) == before + (r + after)
  {
  }

  /** The stream around record `i`. */
  lemma CutRecord(sep: Byte, all: Binary, i: nat)
    requires i < |Records(sep, all)|
    ensures var rs := Records(sep, all);
            && all == Frames(sep, rs[..i]) + (rs[i] + ([sep] + (Frames(sep, rs[i + 1..]) + Rest(sep, all))))
            && AllFree(sep, rs)
  {
    var rs := Records(sep, all);
    Splits(sep, all);
    assert rs == rs[..i] + rs[i..] && rs[i..] == [rs[i]] + rs[i + 1..];
    FramesAppend(sep, rs[..i], rs[i..]);
    FramesFront(sep, rs[i], rs[i + 1..]);
    var f, g := Frames(sep, rs[..i]), Frames(sep, rs[i + 1..]);
    Assoc(f, rs[i] + [sep] + g, Rest(sep, all));
    Assoc(rs[i] + [sep], g, Rest(sep, all));
    Assoc(rs[i], [sep], g + Rest(sep, all));
  }

  /** Cut behind its last separator, a stream gives its short records before its rest is looked at. */
  lemma RecordsWhenCut(c: Config, all: Binary) returns (pieces: seq<Binary>)
    requires !Short(c, Rest(c.separator, all))
    ensures Flatten(pieces) == all && Feed(c, [], pieces).messages == Keep(c, Records(c.separator, all))
  {
    var sep := c.separator;
    var rs, rest := Records(sep, all), Rest(sep, all);
    var a := Frames(sep, rs);
    pieces := [a, rest];
    Splits(sep, all);
    FlattenTwo(a, rest);
    SplitsOnly(sep, rs, []);
    assert a + [] == a && [] + a == a && [] + rest == rest && pieces[1..] == [rest];
    NoRecord(sep, rest);
    assert Process(c, [], a) == ([], Some(Keep(c, rs)));
    assert Feed(c, [], [rest]) == Outcome([], [], true);
  }

  /**
   It does not matter how a stream is cut if and only if no part between separators is too long, or the
   last part and all others are.
   */
  lemma CutsMatterIff(c: Config, all: Binary)
    ensures var rs, rest := Records(c.separator, all), Rest(c.separator, all);
            Indifferent(c, all) <==> if Short(c, rest) then AllShort(c, rs) else AllLong(c, rs)
  {
    var rs, rest := Records(c.separator, all), Rest(c.separator, all);
    FlattenOne(all);
    FeedOne(c, all);
    assert [] + all == all;
    if Short(c, rest) {
      if AllShort(c, rs) {
        SameWhenShort(c, all);
      } else {
        var i :| 0 <= i < |rs| && !Short(c, rs[i]);
        var pieces := FailsWhenCut(c, all, i);
        assert Flatten([all]) == Flatten(pieces) && !Feed(c, [], [all]).failed;
      }
    } else {
      KeepNone(c, rs);
      if AllLong(c, rs) {
        SameWhenLong(c, all);
      } else {
        var pieces := RecordsWhenCut(c, all);
        assert Flatten([all]) == Flatten(pieces) && Feed(c, [], [all]).messages == [];
      }
    }
  }

  lemma SameWhenShort(c: Config, all: Binary)
    requires AllShort(c, Records(c.separator, all)) && Short(c, Rest(c.separator, all))
    ensures Indifferent(c, all)
  {
    forall ps | Flatten(ps) == all
      ensures Feed(c, [], ps) == Outcome(Records(c.separator, all), Rest(c.separator, all), false)
    {
      AllRecordsIff(c, ps);
    }
  }

  lemma SameWhenLong(c: Config, all: Binary)
    requires AllLong(c, Records(c.separator, all)) && !Short(c, Rest(c.separator, all))
    ensures Indifferent(c, all)
  {
    forall ps | Flatten(ps) == all
      ensures Feed(c, [], ps) == Outcome([], [], true)
    {
      NoneWhenLong(c, all, ps);
    }
  }

  lemma NoneWhenLong(c: Config, all: Binary, ps: seq<Binary>)
    requires AllLong(c, Records(c.separator, all)) && !Short(c, Rest(c.separator, all)) && Flatten(ps) == all
    ensures Feed(c, [], ps) == Outcome([], [], true)
  {
    assert [] + all == all;
    FeedNone(c, [], ps);
  }

  lemma FlattenOne(p: Binary)
    ensures Flatten([p]) == p
  {
    assert [p][1..] == [] && p + [] == p;
  }

  lemma FeedOne(c: Config, p: Binary)
    ensures var (b, r) := Process(c, [], p);
            Feed(c, [], [p]) == if r.None? then Outcome([], b, true) else Outcome(r.value, b, false)
  {
    var (b, r) := Process(c, [], p);
    assert [p][1..] == [] && Feed(c, b, []) == Outcome([], b, false);
    if r.Some? {
      assert r.value + [] == r.value;
    }
  }

  lemma FeedTwo(c: Config, p: Binary, q: Binary)
    requires Process(c, [], p) == (p, Some([])) && Process(c, p, q).1.None?
    ensures Feed(c, [], [p, q]) == Outcome([], Process(c, p, q).0, true)
  {
    assert [p, q][1..] == [q];
    assert Feed(c, p, [q]) == Outcome([], Process(c, p, q).0, true);
  }

  /** With longer records the pieces matter: the same stream loses one record, or fails and loses all. */
  lemma CutsMatter() returns (whole: Binary, a: Binary, rest: Binary)
    ensures var c := Config(10, Some(1));
            && Flatten([whole]) == Flatten([a, rest])
            && Feed(c, [], [whole]) == Outcome([[98]], [], false)
            && Feed(c, [], [a, rest]) == Outcome([], [], true)
  {
    var c, end := Config(10, Some(1)), [98, 10];
    whole, a, rest := [97, 97, 10, 98, 10], [97], [97, 10, 98, 10];
    FlattenOne(whole);
    FlattenOne(rest);
    assert [a, rest][1..] == [rest] && a + rest == whole;
    EndRecord();
    SkipsLong(c, end);
    FailsLong(c, end);
    assert [97, 97, 10] + end == whole && [97, 10] + end == rest;
    NoRecord(10, a);
    assert [] + a == a;
    FeedOne(c, whole);
    FeedTwo(c, a, rest);
  }

  lemma EndRecord()
    ensures Records(10, [98, 10]) == [[98]] && Rest(10, [98, 10]) == []
  {
    var b: Binary := [98];
    OneRecord(10, b, []);
    NoRecord(10, []);
    assert b + [10] + [] == [98, 10] && [b] + [] == [b];
  }

  lemma SkipsLong(c: Config, end: Binary)
    requires c == Config(10, Some(1)) && Records(10, end) == [[98]] && Rest(10, end) == []
    ensures Process(c, [], [97, 97, 10] + end) == ([], Some([[98]]))
  {
    var long: Binary, b: Binary := [97, 97], [98];
    ProcessSplit(c, [], long, end);
    assert long + [10] + end == [97, 97, 10] + end && [] + long == long;
    KeepFront(c, long, [b]);
    KeepFront(c, b, []);
    assert [b] + [] == [b];
  }

  lemma FailsLong(c: Config, end: Binary)
    requires c == Config(10, Some(1))
    ensures Process(c, [97], [97, 10] + end) == ([], None)
  {
    var a: Binary := [97];
    ProcessSplit(c, a, a, end);
    assert a + [10] + end == [97, 10] + end;
  }
}
