/**
 GELF chunking. The encoder cuts a message into packets, each with the message id, the number of the
 chunk and the number of all chunks. The decoder puts messages together from packets that may arrive
 interleaved and in any order; it keeps two generations of incomplete messages and gives up the older
 one when more than five seconds have passed since it last did so.
 */
module Gelf {
  import opened Bytes
  import opened Wrappers

  const FIVE_SEC: nat := 5_000_000_000

  // ----- packets

  datatype Segment = Segment(id: nat, number: nat, count: nat, data: Binary)

  datatype HeaderError = InvalidGelfHeader(length: nat, magic: Option<(Byte, Byte)>)

  /**
   Reads a packet. The uncompressed form with magic 1f 3c gets a random id in the source; it has one
   chunk, and the id of such a message is never looked at, so the model uses 0.
   */
  function Decode(bin: Binary): Result<Segment, HeaderError> {
    if |bin| >= 2 && bin[0] == 0x1f && bin[1] == 0x3c then
      Ok(Segment(0, 0, 1, bin[2..]))
    else if |bin| >= 12 && bin[0] == 0x1e && bin[1] == 0x0f then
      Ok(Segment(Number(bin[2..10]), bin[10], bin[11], bin[12..]))
    else if |bin| >= 2 && bin[0] == '{' as int then
      Ok(Segment(0, 0, 1, bin))
    else if |bin| >= 2 then
      Err(InvalidGelfHeader(|bin|, Some((bin[0], bin[1]))))
    else if |bin| == 1 then
      Err(InvalidGelfHeader(1, Some((bin[0], 0))))
    else
      Err(InvalidGelfHeader(0, None))
  }

  /** What an error says: how long the packet is, and its first two bytes as far as it has them. */
  lemma HeaderErrors(bin: Binary)
    ensures Decode(bin).Err? ==>
              && Decode(bin).error.length == |bin|
              && (|bin| == 0 <==> Decode(bin).error.magic.None?)
              && (|bin| > 0 ==> Decode(bin).error.magic.value.0 == bin[0])
              && (|bin| == 1 ==> Decode(bin).error.magic.value.1 == 0)
              && (|bin| > 1 ==> Decode(bin).error.magic.value.1 == bin[1])
  {
  }

  function Chunks(data: Binary, size: nat): seq<Binary>
    requires size > 0
  {
    if data == [] then []
    else if |data| <= size then [data]
    else [data[..size]] + Chunks(data[size..], size)
  }

  /** Where chunk `i` ends. */
  function EndOf(data: Binary, size: nat, i: nat): nat {
    if (i + 1) * size < |data| then (i + 1) * size else |data|
  }

  /** Chunk `i` holds the bytes from `i * size` on, `size` of them unless the data ends before. */
  lemma {:induction false} ChunkAt(data: Binary, size: nat, i: nat)
    requires size > 0 && i < |Chunks(data, size)|
    ensures i * size < EndOf(data, size, i) <= |data| && Chunks(data, size)[i] == data[i * size..EndOf(data, size, i)]
    decreases i
  {
    if i > 0 {
      var rest := data[size..];
      ChunkAt(rest, size, i - 1);
      assert (i - 1) * size + size == i * size && i * size + size == (i + 1) * size;
      assert rest[(i - 1) * size..EndOf(rest, size, i - 1)] == data[i * size..EndOf(data, size, i)];
    }
  }

  /** There are as few chunks as can hold the data. */
  lemma {:induction false} ChunkCount(data: Binary, size: nat)
    requires size > 0
    ensures var n := |Chunks(data, size)|; |data| <= n * size && (n > 0 ==> (n - 1) * size < |data|)
    decreases |data|
  {
    if |data| > size {
      ChunkCount(data[size..], size);
      var n := |Chunks(data[size..], size)|;
      assert n * size + size == (n + 1) * size && (n - 1) * size + size == n * size;
    }
  }

  /** More than 128 chunks are needed exactly for more than 128 times the size of a chunk. */
  lemma TooManyIff(data: Binary, size: nat)
    requires size > 0
    ensures |Chunks(data, size)| > 128 <==> |data| > 128 * size
  {
    var n := |Chunks(data, size)|;
    ChunkCount(data, size);
    if n > 129 {
      Bytes.OneMore(size, 128, n - 1);
    } else if n < 128 {
      Bytes.OneMore(size, n, 128);
    }
  }

  lemma PacketSizes(id: nat, data: Binary, size: nat)
    requires size > 0 && |Chunks(data, size)| <= 128
    ensures var ps := Packets(id, Chunks(data, size));
            && (data != [] ==> ps != [])
            && forall i :: 0 <= i < |ps| ==> 12 < |ps[i]| <= size + 12 && (i < |ps| - 1 ==> |ps[i]| == size + 12)
  {
    var chunks := Chunks(data, size);
    forall i | 0 <= i < |chunks|
      ensures 0 < |chunks[i]| <= size && (i < |chunks| - 1 ==> |chunks[i]| == size)
    {
      ChunkAt(data, size, i);
      assert i * size + size == (i + 1) * size;
      if i < |chunks| - 1 {
        ChunkAt(data, size, i + 1);
      }
    }
  }

  function Packet(id: nat, number: nat, count: nat, chunk: Binary): Binary
    requires number < 256 && count < 256
  {
    [0x1e, 0x0f] + Word(id) + [number, count] + chunk
  }

  function Packets(id: nat, chunks: seq<Binary>): seq<Binary>
    requires |chunks| <= 128
  {
    seq(|chunks|, i requires 0 <= i < |chunks| => Packet(id, i, |chunks|, chunks[i]))
  }

  lemma DecodeParts(id: Binary, number: Byte, count: Byte, chunk: Binary)
    requires |id| == 8
    ensures Decode([0x1e, 0x0f] + id + [number, count] + chunk) == Ok(Segment(Number(id), number, count, chunk))
  {
    var bin := [0x1e, 0x0f] + id + [number, count] + chunk;
    assert bin[2..10] == id;
    assert bin[12..] == chunk;
  }

  lemma DecodePacket(id: nat, number: nat, count: nat, chunk: Binary)
    requires id < TWO_TO_THE_64 && number < 256 && count < 256
    ensures Decode(Packet(id, number, count, chunk)) == Ok(Segment(id, number, count, chunk))
  {
    WordReadsBack(id);
    DecodeParts(Word(id), number, count, chunk);
  }

  /** A packet byte by byte: the magic, the id in network order, the number of the chunk, the number of all chunks, the chunk. */
  lemma PacketBytes(id: nat, number: nat, count: nat, chunk: Binary)
    requires number < 256 && count < 256
    ensures var p := Packet(id, number, count, chunk);
            && |p| == 12 + |chunk| && p[0] == 0x1e && p[1] == 0x0f && p[10] == number && p[11] == count && p[12..] == chunk
            && forall i :: 2 <= i < 10 ==> p[i] == id / Pow256(9 - i) % 256
  {
    var p := Packet(id, number, count, chunk);
    forall i | 2 <= i < 10
      ensures p[i] == id / Pow256(9 - i) % 256
    {
      WordAt(id, i - 2);
      assert p[i] == Word(id)[i - 2];
    }
  }

  class Encoder {
    var id: nat
    const chunkSize: nat

    constructor (chunkSize: nat)
      ensures id == 0 && this.chunkSize == chunkSize
    {
      id := 0;
      this.chunkSize := chunkSize;
    }

    /** More than 128 chunks are an error, and then the id is not used up. The id wraps around. */
    method Encode(data: Binary) returns (r: Result<seq<Binary>, nat>)
      requires chunkSize > 12
      modifies `id
      ensures var chunks := Chunks(data, chunkSize - 12);
              if |chunks| > 128 then r == Err(|chunks|) && id == old(id)
              else r == Ok(Packets(old(id), chunks)) && id == (old(id) + 1) % TWO_TO_THE_64
      ensures r.Err? <==> |data| > 128 * (chunkSize - 12)
      ensures r.Ok? ==> forall i :: 0 <= i < |r.value| ==>
                          12 < |r.value[i]| <= chunkSize && (i < |r.value| - 1 ==> |r.value[i]| == chunkSize)
    {
      TooManyIff(data, chunkSize - 12);
      var chunks := Chunks(data, chunkSize - 12);
      var n := |chunks|;
      if n > 128 {
        return Err(n);
      }
      var out: seq<Binary> := [];
      for i := 0 to n
        invariant out == Packets(id, chunks)[..i]
        invariant id == old(id)
      {
        out := out + [Packet(id, i, n, chunks[i])];
      }
      assert out == Packets(id, chunks);
      PacketSizes(id, data, chunkSize - 12);
      id := (id + 1) % TWO_TO_THE_64;
      r := Ok(out);
    }
  }

  // ----- incomplete messages

  type Slots = seq<Option<Binary>>

  datatype Partial = Partial(count: nat, stored: nat, bytes: nat, segments: Slots)

  function Filled(s: Slots): nat {
    if s == [] then 0 else Filled(s[..|s| - 1]) + if s[|s| - 1].Some? then 1 else 0
  }

  function Flat(s: Slots): Binary {
    if s == [] then [] else Flat(s[..|s| - 1]) + if s[|s| - 1].Some? then s[|s| - 1].value else []
  }

  /** Its counters say what is in it, and it is not complete. */
  ghost predicate Sound(p: Partial) {
    && |p.segments| == p.count < 256
    && 0 < p.stored == Filled(p.segments) < p.count
    && p.bytes == |Flat(p.segments)|
  }

  lemma {:induction false} Fill(s: Slots, k: nat, data: Binary)
    requires k < |s| && s[k] == None
    ensures Filled(s[k := Some(data)]) == Filled(s) + 1
    ensures |Flat(s[k := Some(data)])| == |Flat(s)| + |data|
  {
    var front, t := s[..|s| - 1], s[k := Some(data)];
    if k < |s| - 1 {
      Fill(front, k, data);
      assert t[..|t| - 1] == front[k := Some(data)];
    } else {
      assert t[..|t| - 1] == front;
    }
  }

  lemma {:induction false} FullIff(s: Slots)
    ensures Filled(s) <= |s|
    ensures Filled(s) == |s| <==> forall i :: 0 <= i < |s| ==> s[i].Some?
  {
    if s != [] {
      var front := s[..|s| - 1];
      FullIff(front);
      assert forall i :: 0 <= i < |front| ==> front[i] == s[i];
    }
  }

  function Nothing(n: nat): Slots {
    seq(n, _ => None)
  }

  lemma {:induction false} NothingFilled(n: nat)
    ensures Filled(Nothing(n)) == 0 && Flat(Nothing(n)) == []
  {
    if n > 0 {
      NothingFilled(n - 1);
      assert Nothing(n)[..n - 1] == Nothing(n - 1);
    }
  }

  /** Joins the segments; a missing one is an error that is only logged. */
  method Assemble(segments: Slots) returns (r: Option<Binary>)
    ensures r == if Filled(segments) == |segments| then Some(Flat(segments)) else None
  {
    var result: Binary := [];
    FullIff(segments);
    for i := 0 to |segments|
      invariant result == Flat(segments[..i])
      invariant forall j :: 0 <= j < i ==> segments[j].Some?
    {
      if segments[i].None? {
        return None;
      }
      assert segments[..i + 1][..i] == segments[..i];
      result := result + segments[i].value;
    }
    assert segments[..|segments|] == segments;
    r := Some(result);
  }

  // ----- what one packet does

  datatype State = State(buffer: map<nat, Partial>, last: map<nat, Partial>, lastSwap: nat)

  ghost predicate Valid(s: State) {
    && s.buffer.Keys !! s.last.Keys
    && (forall id :: id in s.buffer ==> Sound(s.buffer[id]))
    && (forall id :: id in s.last ==> Sound(s.last[id]))
  }

  function Lookup(s: State, id: nat): Option<Partial> {
    if id in s.buffer then Some(s.buffer[id])
    else if id in s.last then Some(s.last[id])
    else None
  }

  /** A message is kept in the generation it was first seen in. */
  function Keep(s: State, id: nat, slot: Option<Partial>): State {
    if slot.None? then State(s.buffer - {id}, s.last - {id}, s.lastSwap)
    else if id in s.last then s.(last := s.last[id := slot.value])
    else s.(buffer := s.buffer[id := slot.value])
  }

  /** Times are unsigned 64 bit numbers, and their difference wraps around. */
  function Tick(s: State, ns: nat): State {
    if (ns - s.lastSwap) % TWO_TO_THE_64 > FIVE_SEC then State(map[], s.buffer, ns) else s
  }

  /**
   What a chunk does to the incomplete message it belongs to, and what comes out. A second chunk with
   the same number, or a number out of range, discards the whole message.
   */
  function Collect(slot: Option<Partial>, msg: Segment): (Option<Partial>, Option<Binary>)
    requires msg.count != 1
  {
    match slot
    case None =>
      if msg.number < msg.count then
        (Some(Partial(msg.count, 1, |msg.data|, Nothing(msg.count)[msg.number := Some(msg.data)])), None)
      else (None, None)
    case Some(p) =>
      if msg.number < |p.segments| && p.segments[msg.number].None? then
        var q := p.(stored := (p.stored + 1) % 256, bytes := p.bytes + |msg.data|,
                    segments := p.segments[msg.number := Some(msg.data)]);
        if q.stored != q.count then (Some(q), None)
        else (None, if Filled(q.segments) == |q.segments| then Some(Flat(q.segments)) else None)
      else (None, None)
  }

  function Enqueue(s: State, ns: nat, msg: Segment): (State, Option<Binary>) {
    var t := Tick(s, ns);
    if msg.count == 1 then (t, Some(msg.data))
    else
      var (slot, out) := Collect(Lookup(t, msg.id), msg);
      (Keep(t, msg.id, slot), out)
  }

  function Process(s: State, ns: nat, bin: Binary): (State, Result<seq<Binary>, HeaderError>) {
    match Decode(bin)
    case Err(e) => (s, Err(e))
    case Ok(msg) =>
      var (t, out) := Enqueue(s, ns, msg);
      (t, Ok(if out.Some? then [out.value] else []))
  }

  /** Counters never overflow, and a message that counts as complete has all its segments. */
  lemma CollectSound(slot: Option<Partial>, msg: Segment)
    requires msg.count != 1 && msg.count < 256 && (slot.Some? ==> Sound(slot.value))
    ensures var (next, out) := Collect(slot, msg);
            && (next.Some? ==> Sound(next.value))
            && (out.Some? <==> slot.Some? && next.None? && msg.number < |slot.value.segments|
                               && slot.value.segments[msg.number].None?)
  {
    if slot.None? {
      if msg.number < msg.count {
        NothingFilled(msg.count);
        Fill(Nothing(msg.count), msg.number, msg.data);
      }
    } else if msg.number < |slot.value.segments| && slot.value.segments[msg.number].None? {
      Fill(slot.value.segments, msg.number, msg.data);
    }
  }

  lemma EnqueueValid(s: State, ns: nat, msg: Segment)
    requires Valid(s) && msg.count < 256
    ensures Valid(Enqueue(s, ns, msg).0)
  {
    if msg.count != 1 {
      CollectSound(Lookup(Tick(s, ns), msg.id), msg);
    }
  }

  /** The decoder as it stands: both generations are searched, and the message is updated where it is. */
  class Decoder {
    var buffer: map<nat, Partial>
    var lastBuffer: map<nat, Partial>
    var lastSwap: nat

    function Now(): State
      reads this
    {
      State(buffer, lastBuffer, lastSwap)
    }

    constructor ()
      ensures Valid(Now()) && Now() == State(map[], map[], 0)
    {
      buffer, lastBuffer, lastSwap := map[], map[], 0;
    }

    method EnqueueSegment(ns: nat, msg: Segment) returns (out: Option<Binary>)
      requires Valid(Now()) && msg.count < 256
      modifies this
      ensures Valid(Now())
      ensures (Now(), out) == Enqueue(old(Now()), ns, msg)
    {
      EnqueueValid(Now(), ns, msg);
      Swap(ns);
      if msg.count == 1 {
        return Some(msg.data);
      }
      if msg.id in buffer {
        var next;
        next, out := Put(buffer[msg.id], msg);
        assert lastBuffer - {msg.id} == lastBuffer;
        buffer := if next.Some? then buffer[msg.id := next.value] else buffer - {msg.id};
      } else if msg.id in lastBuffer {
        var next;
        next, out := Put(lastBuffer[msg.id], msg);
        assert buffer - {msg.id} == buffer;
        lastBuffer := if next.Some? then lastBuffer[msg.id := next.value] else lastBuffer - {msg.id};
      } else {
        out := None;
        assert buffer - {msg.id} == buffer && lastBuffer - {msg.id} == lastBuffer;
        if msg.number < msg.count {
          var segments := Nothing(msg.count)[msg.number := Some(msg.data)];
          buffer := buffer[msg.id := Partial(msg.count, 1, |msg.data|, segments)];
        }
      }
    }

    /** A packet without a valid header is an error and leaves the decoder alone, clock included. */
    method ProcessPacket(ns: nat, bin: Binary) returns (r: Result<seq<Binary>, HeaderError>)
      requires Valid(Now())
      modifies this
      ensures Valid(Now())
      ensures (Now(), r) == Process(old(Now()), ns, bin)
    {
      DecodeBounds(bin);
      match Decode(bin)
      case Err(e) => return Err(e);
      case Ok(msg) =>
        var out := EnqueueSegment(ns, msg);
        r := Ok(if out.Some? then [out.value] else []);
    }

    method Swap(ns: nat)
      modifies this
      ensures Now() == Tick(old(Now()), ns)
    {
      if (ns - lastSwap) % TWO_TO_THE_64 > FIVE_SEC {
        lastSwap := ns;
        lastBuffer := buffer;
        buffer := map[];
      }
    }

    static method Put(p: Partial, msg: Segment) returns (next: Option<Partial>, out: Option<Binary>)
      requires msg.count != 1
      ensures (next, out) == Collect(Some(p), msg)
    {
      if msg.number < |p.segments| && p.segments[msg.number].None? {
        var segments := p.segments[msg.number := Some(msg.data)];
        var q := Partial(p.count, (p.stored + 1) % 256, p.bytes + |msg.data|, segments);
        if q.stored == q.count {
          out := Assemble(q.segments);
          next := None;
        } else {
          next, out := Some(q), None;
        }
      } else {
        next, out := None, None;
      }
    }
  }

  // ----- runs

  datatype Arrival = Arrival(ns: nat, bin: Binary)

  datatype Run = Run(states: seq<State>, arrivals: seq<Arrival>)

  ghost predicate Moves(run: Run, i: nat)
    requires i < |run.arrivals| < |run.states|
  {
    run.states[i + 1] == Process(run.states[i], run.arrivals[i].ns, run.arrivals[i].bin).0
  }

  ghost predicate IsRun(run: Run) {
    && |run.states| == |run.arrivals| + 1
    && Valid(run.states[0])
    && forall i :: 0 <= i < |run.arrivals| ==> Moves(run, i)
  }

  function Output(run: Run, i: nat): Result<seq<Binary>, HeaderError>
    requires i < |run.arrivals| < |run.states|
  {
    Process(run.states[i], run.arrivals[i].ns, run.arrivals[i].bin).1
  }

  lemma DecodeBounds(bin: Binary)
    ensures Decode(bin).Ok? ==> Decode(bin).value.count < 256
  {
  }

  /** From the empty decoder on, whatever packets arrive at whatever times, the counters tell the truth. */
  lemma {:induction false} AlwaysValid(run: Run, k: nat)
    requires IsRun(run) && k <= |run.arrivals|
    ensures Valid(run.states[k])
  {
    if k > 0 {
      AlwaysValid(run, k - 1);
      assert Moves(run, k - 1);
      var a := run.arrivals[k - 1];
      DecodeBounds(a.bin);
      if Decode(a.bin).Ok? {
        EnqueueValid(run.states[k - 1], a.ns, Decode(a.bin).value);
      }
    }
  }

  // ----- messages do not disturb each other

  predicate Concerns(bin: Binary, id: nat) {
    Decode(bin).Ok? && Decode(bin).value.id == id && Decode(bin).value.count != 1
  }

  /** The chunks for a message, in order of their arrival. */
  function Mine(arrivals: seq<Arrival>, id: nat): seq<Segment>
    ensures forall i :: 0 <= i < |Mine(arrivals, id)| ==> Mine(arrivals, id)[i].count != 1
  {
    if arrivals == [] then []
    else
      var rest, bin := Mine(arrivals[..|arrivals| - 1], id), arrivals[|arrivals| - 1].bin;
      if Concerns(bin, id) then rest + [Decode(bin).value] else rest
  }

  /** The incomplete message after chunks that met no other packets and no passing of time. */
  function Collected(msgs: seq<Segment>): Option<Partial>
    requires forall i :: 0 <= i < |msgs| ==> msgs[i].count != 1
  {
    if msgs == [] then None else Collect(Collected(msgs[..|msgs| - 1]), msgs[|msgs| - 1]).0
  }

  // ----- when generations are given up

  /** Packet `a` makes a decoder that last swapped at `lastSwap` give up a generation. */
  predicate Swapping(lastSwap: nat, a: Arrival) {
    Decode(a.bin).Ok? && (a.ns - lastSwap) % TWO_TO_THE_64 > 5_000_000_000
  }

  /** When a decoder swapped last, after these packets. */
  function Clock(lastSwap: nat, arrivals: seq<Arrival>): nat {
    if arrivals == [] then lastSwap
    else
      var before, a := Clock(lastSwap, arrivals[..|arrivals| - 1]), arrivals[|arrivals| - 1];
      if Swapping(before, a) then a.ns else before
  }

  /** How often it swapped while these packets came. */
  function Swaps(lastSwap: nat, arrivals: seq<Arrival>): nat {
    if arrivals == [] then 0
    else
      var front := arrivals[..|arrivals| - 1];
      Swaps(lastSwap, front) + if Swapping(Clock(lastSwap, front), arrivals[|arrivals| - 1]) then 1 else 0
  }

  /** How often it swapped with packets after the first chunk with this id. */
  function SwapsSince(lastSwap: nat, arrivals: seq<Arrival>, id: nat): nat {
    if arrivals == [] then 0
    else
      var front := arrivals[..|arrivals| - 1];
      if Mine(front, id) == [] then 0
      else
        SwapsSince(lastSwap, front, id) + if Swapping(Clock(lastSwap, front), arrivals[|arrivals| - 1]) then 1 else 0
  }

  lemma {:induction false} ClockIs(run: Run, k: nat)
    requires IsRun(run) && k <= |run.arrivals|
    ensures run.states[k].lastSwap == Clock(run.states[0].lastSwap, run.arrivals[..k])
  {
    if k > 0 {
      ClockIs(run, k - 1);
      assert Moves(run, k - 1);
      assert run.arrivals[..k][..k - 1] == run.arrivals[..k - 1];
    }
  }

  /** The last packet of a run, seen from the state before it. */
  lemma LastArrival(run: Run, id: nat, k: nat)
    requires IsRun(run) && 0 < k <= |run.arrivals|
    ensures var a, t0 := run.arrivals[k - 1], run.states[0].lastSwap;
            var before, now, swap := run.arrivals[..k - 1], run.arrivals[..k], Swapping(run.states[k - 1].lastSwap, a);
            && Swaps(t0, now) == Swaps(t0, before) + (if swap then 1 else 0)
            && SwapsSince(t0, now, id)
               == (if Mine(before, id) == [] then 0 else SwapsSince(t0, before, id) + if swap then 1 else 0)
            && Mine(now, id) == Mine(before, id) + (if Concerns(a.bin, id) then [Decode(a.bin).value] else [])
            && Valid(run.states[k - 1])
  {
    ClockIs(run, k - 1);
    AlwaysValid(run, k - 1);
    assert run.arrivals[..k][..k - 1] == run.arrivals[..k - 1];
  }

  /** What the time of a packet does to a decoder, before its chunk is looked at. */
  function Ticked(s: State, a: Arrival): State {
    if Swapping(s.lastSwap, a) then State(map[], s.buffer, a.ns) else s
  }

  /** A message is found in the same generation of both states, or in none. */
  ghost predicate SameSlot(s: State, t: State, id: nat) {
    Lookup(s, id) == Lookup(t, id) && (id in s.buffer <==> id in t.buffer) && (id in s.last <==> id in t.last)
  }

  lemma ForeignStep(s: State, a: Arrival, id: nat)
    requires !Concerns(a.bin, id)
    ensures SameSlot(Process(s, a.ns, a.bin).0, Ticked(s, a), id)
  {
  }

  lemma MineStep(s: State, a: Arrival, id: nat)
    requires Concerns(a.bin, id)
    ensures var t, msg := Ticked(s, a), Decode(a.bin).value;
            var (slot, out) := Collect(Lookup(t, id), msg);
            Process(s, a.ns, a.bin) == (Keep(t, id, slot), Ok(if out.Some? then [out.value] else []))
  {
  }

  lemma KeepSlot(s: State, id: nat, slot: Option<Partial>)
    requires Valid(s)
    ensures Lookup(Keep(s, id, slot), id) == slot
    ensures id in Keep(s, id, slot).last <==> id in s.last && slot.Some?
  {
  }

  lemma NoSwapBefore(lastSwap: nat, arrivals: seq<Arrival>, id: nat)
    requires Mine(arrivals, id) == []
    ensures SwapsSince(lastSwap, arrivals, id) == 0
  {
    if arrivals != [] {
      assert Mine(arrivals[..|arrivals| - 1], id) == [];
    }
  }

  /**
   For any one message id, a run in which other packets are interleaved in any way leaves the same
   incomplete message behind as the chunks with that id alone, until the second swap after the first of them.
   */
  lemma {:induction false} Isolated(run: Run, id: nat, k: nat)
    requires IsRun(run) && Lookup(run.states[0], id) == None && k <= |run.arrivals|
    requires SwapsSince(run.states[0].lastSwap, run.arrivals[..k], id) < 2
    ensures Lookup(run.states[k], id) == Collected(Mine(run.arrivals[..k], id))
    ensures id in run.states[k].last ==> SwapsSince(run.states[0].lastSwap, run.arrivals[..k], id) == 1
  {
    if k > 0 {
      var s, a := run.states[k - 1], run.arrivals[k - 1];
      var before := Mine(run.arrivals[..k - 1], id);
      LastArrival(run, id, k);
      if before == [] {
        NoSwapBefore(run.states[0].lastSwap, run.arrivals[..k - 1], id);
      }
      Isolated(run, id, k - 1);
      assert before + [] == before;
      IsolatedStep(s, a, id, before, SwapsSince(run.states[0].lastSwap, run.arrivals[..k - 1], id));
      assert Moves(run, k - 1);
    }
  }

  lemma IsolatedStep(s: State, a: Arrival, id: nat, before: seq<Segment>, since: nat)
    requires Valid(s) && forall i :: 0 <= i < |before| ==> before[i].count != 1
    requires Lookup(s, id) == Collected(before) && (id in s.last ==> since == 1)
    requires before != [] && Swapping(s.lastSwap, a) ==> since == 0
    ensures var t := Process(s, a.ns, a.bin).0;
            && Lookup(t, id) == Collected(if Concerns(a.bin, id) then before + [Decode(a.bin).value] else before)
            && (id in t.last ==> before != [] && (Swapping(s.lastSwap, a) || since == 1))
  {
    if Concerns(a.bin, id) {
      MineStep(s, a, id);
      KeepSlot(Ticked(s, a), id, Collect(Lookup(Ticked(s, a), id), Decode(a.bin).value).0);
      assert (before + [Decode(a.bin).value])[..|before|] == before;
    } else {
      ForeignStep(s, a, id);
    }
  }

  // ----- reassembly

  predicate Distinct(xs: seq<nat>) {
    forall i, j :: 0 <= i < j < |xs| ==> xs[i] != xs[j]
  }

  predicate Below(xs: seq<nat>, n: nat) {
    forall i :: 0 <= i < |xs| ==> xs[i] < n
  }

  /** Chunks of one message in the order, and with the repetitions, given by `pick`. */
  function Picked(id: nat, chunks: seq<Binary>, pick: seq<nat>): seq<Segment>
    requires Below(pick, |chunks|)
  {
    seq(|pick|, i requires 0 <= i < |pick| => Segment(id, pick[i], |chunks|, chunks[pick[i]]))
  }

  lemma PickedFront(id: nat, chunks: seq<Binary>, pick: seq<nat>)
    requires Below(pick, |chunks|) && pick != []
    ensures Below(pick[..|pick| - 1], |chunks|)
    ensures Picked(id, chunks, pick)[..|pick| - 1] == Picked(id, chunks, pick[..|pick| - 1])
  {
  }

  ghost predicate Holds(p: Partial, chunks: seq<Binary>, pick: seq<nat>) {
    && Sound(p) && p.count == |chunks| && p.stored == |pick|
    && forall i :: 0 <= i < |chunks| ==> p.segments[i] == if i in pick then Some(chunks[i]) else None
  }

  lemma DistinctFront(pick: seq<nat>)
    requires pick != []
    ensures Distinct(pick) <==> Distinct(pick[..|pick| - 1]) && pick[|pick| - 1] !in pick[..|pick| - 1]
  {
    var front, x := pick[..|pick| - 1], pick[|pick| - 1];
    if Distinct(front) && x !in front {
      forall i, j | 0 <= i < j < |pick|
        ensures pick[i] != pick[j]
      {
        assert front[i] == pick[i];
      }
    }
  }

  lemma CollectNext(p: Option<Partial>, id: nat, chunks: seq<Binary>, pick: seq<nat>, x: nat)
    requires 2 <= |chunks| < 256 && x < |chunks| && x !in pick
    requires if pick == [] then p.None? else p.Some? && Holds(p.value, chunks, pick)
    ensures var (next, out) := Collect(p, Segment(id, x, |chunks|, chunks[x]));
            if |pick| + 1 < |chunks| then next.Some? && Holds(next.value, chunks, pick + [x]) && out.None?
            else next.None? && out == Some(Flat(Somes(chunks)))
  {
    var msg := Segment(id, x, |chunks|, chunks[x]);
    CollectSound(p, msg);
    if pick != [] {
      var q := p.value.segments[x := Some(chunks[x])];
      Fill(p.value.segments, x, chunks[x]);
      FullIff(q);
      if |pick| + 1 >= |chunks| {
        assert q == Somes(chunks);
      }
    }
  }

  function Somes(chunks: seq<Binary>): Slots {
    seq(|chunks|, i requires 0 <= i < |chunks| => Some(chunks[i]))
  }

  lemma CollectTwice(p: Partial, id: nat, chunks: seq<Binary>, pick: seq<nat>, x: nat)
    requires 2 <= |chunks| && x < |chunks| && x in pick && Holds(p, chunks, pick)
    ensures Collect(Some(p), Segment(id, x, |chunks|, chunks[x])) == (None, None)
  {
  }

  /** An incomplete message that has fewer than `n` of its chunks, or none. */
  ghost predicate Lags(p: Option<Partial>, count: nat, n: nat) {
    p.Some? ==> Sound(p.value) && p.value.count == count && p.value.stored < n
  }

  lemma CollectLagging(p: Option<Partial>, id: nat, count: nat, x: nat, chunk: Binary, n: nat)
    requires 2 <= count < 256 && 0 < n < count && Lags(p, count, n)
    ensures var (next, out) := Collect(p, Segment(id, x, count, chunk));
            Lags(next, count, n + 1) && out.None?
  {
    CollectSound(p, Segment(id, x, count, chunk));
  }

  lemma {:induction false} FlatFront(a: Binary, s: Slots)
    ensures Flat([Some(a)] + s) == a + Flat(s)
  {
    var t := [Some(a)] + s;
    if s == [] {
      assert t[..0] == [];
      assert Flat(t[..0]) == [];
    } else {
      FlatFront(a, s[..|s| - 1]);
      assert t[..|t| - 1] == [Some(a)] + s[..|s| - 1];
    }
  }

  lemma FlatSomesFront(a: Binary, chunks: seq<Binary>)
    ensures Flat(Somes([a] + chunks)) == a + Flat(Somes(chunks))
  {
    FlatFront(a, Somes(chunks));
    assert Somes([a] + chunks) == [Some(a)] + Somes(chunks);
  }

  lemma {:induction false} ChunksJoin(data: Binary, size: nat)
    requires size > 0
    ensures Flat(Somes(Chunks(data, size))) == data
    decreases |data|
  {
    if data == [] {
    } else if |data| <= size {
      FlatSomesFront(data, []);
      assert [data] + [] == [data];
    } else {
      ChunksJoin(data[size..], size);
      FlatSomesFront(data[..size], Chunks(data[size..], size));
    }
  }

  /** The packets for a message as they came in, in order of their arrival. */
  function Received(arrivals: seq<Arrival>, id: nat): seq<Binary> {
    if arrivals == [] then []
    else
      var rest, bin := Received(arrivals[..|arrivals| - 1], id), arrivals[|arrivals| - 1].bin;
      if Concerns(bin, id) then rest + [bin] else rest
  }

  lemma {:induction false} MineIsReceived(arrivals: seq<Arrival>, id: nat)
    ensures var mine, received := Mine(arrivals, id), Received(arrivals, id);
            |mine| == |received| && forall i :: 0 <= i < |mine| ==> Decode(received[i]) == Ok(mine[i])
  {
    if arrivals != [] {
      MineIsReceived(arrivals[..|arrivals| - 1], id);
    }
  }

  lemma MineIsPicked(id: nat, chunks: seq<Binary>, arrivals: seq<Arrival>, pick: seq<nat>)
    requires id < TWO_TO_THE_64 && |chunks| <= 128 && Below(pick, |chunks|)
    requires |Received(arrivals, id)| == |pick|
    requires forall i :: 0 <= i < |pick| ==> Received(arrivals, id)[i] == Packets(id, chunks)[pick[i]]
    ensures Mine(arrivals, id) == Picked(id, chunks, pick)
  {
    MineIsReceived(arrivals, id);
    forall i | 0 <= i < |pick|
      ensures Mine(arrivals, id)[i] == Picked(id, chunks, pick)[i]
    {
      DecodePacket(id, pick[i], |chunks|, chunks[pick[i]]);
      assert Decode(Received(arrivals, id)[i]) == Ok(Mine(arrivals, id)[i]);
    }
  }

  // ----- the whole way

  /**
   What a decoder holds of a message after the chunks `pick` and `since` swaps: all of them, in the
   older generation after a swap, as long as none came twice and fewer than two swaps happened; otherwise
   less than arrived.
   */
  ghost predicate Tracks(s: State, id: nat, chunks: seq<Binary>, pick: seq<nat>, since: nat) {
    var p := Lookup(s, id);
    if pick == [] then p.None? && since == 0
    else if Distinct(pick) && since < 2 then p.Some? && Holds(p.value, chunks, pick) && (id in s.last <==> since == 1)
    else Lags(p, |chunks|, |pick|)
  }

  function OneMore(since: nat, pick: seq<nat>, swap: bool): nat {
    if pick == [] || !swap then since else since + 1
  }

  lemma TracksTick(s: State, a: Arrival, id: nat, chunks: seq<Binary>, pick: seq<nat>, since: nat)
    requires Valid(s) && Tracks(s, id, chunks, pick, since)
    ensures Tracks(Ticked(s, a), id, chunks, pick, OneMore(since, pick, Swapping(s.lastSwap, a)))
    ensures Valid(Ticked(s, a))
  {
  }

  lemma TracksChunk(s: State, id: nat, chunks: seq<Binary>, pick: seq<nat>, x: nat, since: nat)
    requires Valid(s) && Tracks(s, id, chunks, pick, since) && x < |chunks| && 2 <= |chunks| < 256 && |pick| + 1 < |chunks|
    ensures var slot := Collect(Lookup(s, id), Segment(id, x, |chunks|, chunks[x])).0;
            Tracks(Keep(s, id, slot), id, chunks, pick + [x], since)
  {
    var p := Lookup(s, id);
    var slot := Collect(p, Segment(id, x, |chunks|, chunks[x])).0;
    var longer := pick + [x];
    assert longer[..|longer| - 1] == pick;
    DistinctFront(longer);
    if pick == [] || (Distinct(pick) && since < 2) {
      if x in pick {
        CollectTwice(p.value, id, chunks, pick, x);
      } else {
        CollectNext(p, id, chunks, pick, x);
      }
    } else {
      CollectLagging(p, id, |chunks|, x, chunks[x], |pick|);
    }
  }

  lemma TracksMine(s: State, a: Arrival, id: nat, chunks: seq<Binary>, pick: seq<nat>, x: nat, since: nat)
    requires Valid(s) && Tracks(s, id, chunks, pick, since) && x < |chunks| && 2 <= |chunks| < 256 && |pick| + 1 < |chunks|
    requires Concerns(a.bin, id) && Decode(a.bin).value == Segment(id, x, |chunks|, chunks[x])
    ensures Tracks(Process(s, a.ns, a.bin).0, id, chunks, pick + [x], OneMore(since, pick, Swapping(s.lastSwap, a)))
  {
    MineStep(s, a, id);
    TracksTick(s, a, id, chunks, pick, since);
    TracksChunk(Ticked(s, a), id, chunks, pick, x, OneMore(since, pick, Swapping(s.lastSwap, a)));
  }

  lemma TracksForeign(s: State, a: Arrival, id: nat, chunks: seq<Binary>, pick: seq<nat>, since: nat)
    requires Valid(s) && Tracks(s, id, chunks, pick, since) && !Concerns(a.bin, id)
    ensures Tracks(Process(s, a.ns, a.bin).0, id, chunks, pick, OneMore(since, pick, Swapping(s.lastSwap, a)))
  {
    ForeignStep(s, a, id);
    TracksTick(s, a, id, chunks, pick, since);
  }

  /** Among any other packets, chunk by chunk. */
  lemma {:induction false} Track(run: Run, id: nat, chunks: seq<Binary>, pick: seq<nat>, k: nat)
    requires IsRun(run) && Lookup(run.states[0], id) == None && k <= |run.arrivals|
    requires 2 <= |chunks| < 256 && Below(pick, |chunks|) && |pick| < |chunks|
    requires Mine(run.arrivals[..k], id) == Picked(id, chunks, pick)
    ensures Tracks(run.states[k], id, chunks, pick, SwapsSince(run.states[0].lastSwap, run.arrivals[..k], id))
    decreases k
  {
    if k > 0 {
      LastArrival(run, id, k);
      var mine, msg := Mine(run.arrivals[..k - 1], id), Decode(run.arrivals[k - 1].bin);
      if Concerns(run.arrivals[k - 1].bin, id) {
        LastPicked(mine, msg.value, id, chunks, pick);
        Track(run, id, chunks, pick[..|pick| - 1], k - 1);
      } else {
        assert mine + [] == mine;
        Track(run, id, chunks, pick, k - 1);
      }
      TrackStep(run.states[k - 1], run.arrivals[k - 1], id, chunks, mine, pick,
                SwapsSince(run.states[0].lastSwap, run.arrivals[..k - 1], id));
      assert Moves(run, k - 1);
    }
  }

  lemma TrackStep(s: State, a: Arrival, id: nat, chunks: seq<Binary>, mine: seq<Segment>, pick: seq<nat>, since: nat)
    requires Valid(s) && 2 <= |chunks| < 256 && Below(pick, |chunks|) && |pick| < |chunks|
    requires if Concerns(a.bin, id) then mine + [Decode(a.bin).value] == Picked(id, chunks, pick) && pick != []
                                         && Tracks(s, id, chunks, pick[..|pick| - 1], since)
             else mine == Picked(id, chunks, pick) && Tracks(s, id, chunks, pick, since)
    ensures Tracks(Process(s, a.ns, a.bin).0, id, chunks, pick,
                   if mine == [] || !Swapping(s.lastSwap, a) then since else since + 1)
  {
    if Concerns(a.bin, id) {
      TrackMine(s, a, id, chunks, mine, pick, since);
    } else {
      TracksForeign(s, a, id, chunks, pick, since);
    }
  }

  lemma TrackMine(s: State, a: Arrival, id: nat, chunks: seq<Binary>, mine: seq<Segment>, pick: seq<nat>, since: nat)
    requires Valid(s) && 2 <= |chunks| < 256 && Below(pick, |chunks|) && |pick| < |chunks| && pick != []
    requires Concerns(a.bin, id) && mine + [Decode(a.bin).value] == Picked(id, chunks, pick)
    requires Tracks(s, id, chunks, pick[..|pick| - 1], since)
    ensures Tracks(Process(s, a.ns, a.bin).0, id, chunks, pick,
                   if mine == [] || !Swapping(s.lastSwap, a) then since else since + 1)
  {
    var before, x := pick[..|pick| - 1], pick[|pick| - 1];
    LastPicked(mine, Decode(a.bin).value, id, chunks, pick);
    TracksMine(s, a, id, chunks, before, x, since);
    assert before + [x] == pick;
  }

  lemma LastPicked(before: seq<Segment>, msg: Segment, id: nat, chunks: seq<Binary>, pick: seq<nat>)
    requires Below(pick, |chunks|) && before + [msg] == Picked(id, chunks, pick)
    ensures pick != [] && Below(pick[..|pick| - 1], |chunks|)
    ensures before == Picked(id, chunks, pick[..|pick| - 1])
    ensures msg == Segment(id, pick[|pick| - 1], |chunks|, chunks[pick[|pick| - 1]])
  {
    var all := Picked(id, chunks, pick);
    assert |all| == |pick| == |before| + 1;
    PickedFront(id, chunks, pick);
    assert all[..|pick| - 1] == before;
    assert all[|pick| - 1] == msg;
  }

  lemma LastOutput(s: State, id: nat, data: Binary, size: nat, pick: seq<nat>, x: nat, since: nat)
    requires size > 0 && 2 <= |Chunks(data, size)| < 256 && |pick| < |Chunks(data, size)| && x < |Chunks(data, size)|
    requires Below(pick, |Chunks(data, size)|)
    requires Valid(s) && Tracks(s, id, Chunks(data, size), pick, since)
    ensures var chunks := Chunks(data, size);
            Collect(Lookup(s, id), Segment(id, x, |chunks|, chunks[x])).1
            == if |pick| + 1 == |chunks| && Distinct(pick + [x]) && since < 2 then Some(data) else None
  {
    var chunks, p, longer := Chunks(data, size), Lookup(s, id), pick + [x];
    assert longer[..|longer| - 1] == pick;
    DistinctFront(longer);
    if pick == [] || (Distinct(pick) && since < 2) {
      if x in pick {
        CollectTwice(p.value, id, chunks, pick, x);
      } else {
        CollectNext(p, id, chunks, pick, x);
        ChunksJoin(data, size);
      }
    } else {
      CollectLagging(p, id, |chunks|, x, chunks[x], |pick|);
    }
  }

  /**
   Packets of an encoded message with two or more chunks arrive in any order and at any times, with
   packets of other messages and garbage in between, at a decoder that does not hold a message with the
   same id. Up to the moment when as many of them arrived as there are chunks, the output is empty for
   each but the last, which gives exactly the message, if and only if no chunk arrived twice and the
   decoder swapped less than twice after the first of them.
   */
  lemma DeliversIff(run: Run, id: nat, data: Binary, size: nat, pick: seq<nat>)
    requires IsRun(run) && Lookup(run.states[0], id) == None
    requires id < TWO_TO_THE_64 && size > 0 && 2 <= |Chunks(data, size)| <= 128
    requires 0 < |pick| <= |Chunks(data, size)| && Below(pick, |Chunks(data, size)|)
    requires |Received(run.arrivals, id)| == |pick|
    requires forall i :: 0 <= i < |pick| ==> Received(run.arrivals, id)[i] == Packets(id, Chunks(data, size))[pick[i]]
    requires run.arrivals != [] && Concerns(run.arrivals[|run.arrivals| - 1].bin, id)
    ensures Output(run, |run.arrivals| - 1)
            == Ok(if |pick| == |Chunks(data, size)| && Distinct(pick)
                     && SwapsSince(run.states[0].lastSwap, run.arrivals, id) < 2 then [data] else [])
  {
    var k, chunks := |run.arrivals| - 1, Chunks(data, size);
    var mine := Mine(run.arrivals[..k], id);
    assert run.arrivals[..k + 1] == run.arrivals;
    MineIsPicked(id, chunks, run.arrivals, pick);
    LastArrival(run, id, k + 1);
    LastPicked(mine, Decode(run.arrivals[k].bin).value, id, chunks, pick);
    Track(run, id, chunks, pick[..|pick| - 1], k);
    LastStep(run.states[k], run.arrivals[k], id, data, size, mine, pick,
             SwapsSince(run.states[0].lastSwap, run.arrivals[..k], id));
  }

  lemma LastStep(s: State, a: Arrival, id: nat, data: Binary, size: nat, mine: seq<Segment>, pick: seq<nat>, since: nat)
    requires size > 0 && 2 <= |Chunks(data, size)| <= 128 && Valid(s) && Concerns(a.bin, id)
    requires 0 < |pick| <= |Chunks(data, size)| && Below(pick, |Chunks(data, size)|)
    requires mine + [Decode(a.bin).value] == Picked(id, Chunks(data, size), pick)
    requires Tracks(s, id, Chunks(data, size), pick[..|pick| - 1], since)
    ensures var swaps := if mine == [] then 0 else if Swapping(s.lastSwap, a) then since + 1 else since;
            Process(s, a.ns, a.bin).1 == Ok(if |pick| == |Chunks(data, size)| && Distinct(pick) && swaps < 2 then [data] else [])
  {
    var chunks, front, x := Chunks(data, size), pick[..|pick| - 1], pick[|pick| - 1];
    LastPicked(mine, Decode(a.bin).value, id, chunks, pick);
    TracksTick(s, a, id, chunks, front, since);
    MineStep(s, a, id);
    LastOutput(Ticked(s, a), id, data, size, front, x, OneMore(since, front, Swapping(s.lastSwap, a)));
    assert front + [x] == pick;
  }

  // ----- within five seconds

  /** Times are unsigned 64 bit numbers and never go back. */
  ghost predicate InOrder(arrivals: seq<Arrival>) {
    && (forall i :: 0 <= i < |arrivals| ==> arrivals[i].ns < TWO_TO_THE_64)
    && (forall i, j :: 0 <= i < j < |arrivals| ==> arrivals[i].ns <= arrivals[j].ns)
  }

  /** At most one swap happens within five seconds. */
  lemma {:induction false} OneSwap(lastSwap: nat, arrivals: seq<Arrival>, id: nat, t0: nat)
    requires InOrder(arrivals) && forall i :: 0 <= i < |arrivals| ==> t0 <= arrivals[i].ns <= t0 + 5_000_000_000
    ensures SwapsSince(lastSwap, arrivals, id) < 2
    ensures SwapsSince(lastSwap, arrivals, id) == 1 ==>
              arrivals != [] && t0 <= Clock(lastSwap, arrivals) <= arrivals[|arrivals| - 1].ns
  {
    if arrivals != [] {
      OneSwap(lastSwap, arrivals[..|arrivals| - 1], id, t0);
    }
  }

  lemma {:induction false} Untouched(run: Run, id: nat, k: nat)
    requires IsRun(run) && Lookup(run.states[0], id) == None && k <= |run.arrivals|
    requires forall i :: 0 <= i < k ==> !Concerns(run.arrivals[i].bin, id)
    ensures Lookup(run.states[k], id) == None
  {
    if k > 0 {
      Untouched(run, id, k - 1);
      assert Moves(run, k - 1);
      assert !Concerns(run.arrivals[k - 1].bin, id);
    }
  }

  function Part(run: Run, first: nat, last: nat): Run
    requires first <= last < |run.arrivals| < |run.states|
  {
    Run(run.states[first..last + 2], run.arrivals[first..last + 1])
  }

  lemma PartIsRun(run: Run, first: nat, last: nat)
    requires IsRun(run) && first <= last < |run.arrivals|
    ensures IsRun(Part(run, first, last))
  {
    var part := Part(run, first, last);
    AlwaysValid(run, first);
    forall i | 0 <= i < |part.arrivals|
      ensures Moves(part, i)
    {
      assert Moves(run, first + i);
    }
  }

  lemma PartIsInOrder(run: Run, first: nat, last: nat)
    requires IsRun(run) && InOrder(run.arrivals) && first <= last < |run.arrivals|
    ensures InOrder(Part(run, first, last).arrivals)
    ensures forall i :: 0 <= i <= last - first ==>
                          run.arrivals[first].ns <= Part(run, first, last).arrivals[i].ns <= run.arrivals[last].ns
  {
    var part := Part(run, first, last);
    assert forall i :: 0 <= i < |part.arrivals| ==> part.arrivals[i] == run.arrivals[first + i];
  }

  /**
   From the start of a decoder whose clock does not go back: packets `first` to `last` of a run arrive
   within five seconds, and no packet before carries the id. Then the message is delivered if and only if
   no chunk arrived twice.
   */
  lemma DeliversFromStart(run: Run, first: nat, last: nat, id: nat, data: Binary, size: nat, pick: seq<nat>)
    requires IsRun(run) && InOrder(run.arrivals) && run.states[0] == State(map[], map[], 0)
    requires first <= last < |run.arrivals| && run.arrivals[last].ns <= run.arrivals[first].ns + 5_000_000_000
    requires forall i :: 0 <= i < first ==> !Concerns(run.arrivals[i].bin, id)
    requires id < TWO_TO_THE_64 && size > 0 && 2 <= |Chunks(data, size)| <= 128
    requires 0 < |pick| <= |Chunks(data, size)| && Below(pick, |Chunks(data, size)|)
    requires |Received(run.arrivals[first..last + 1], id)| == |pick|
    requires forall i :: 0 <= i < |pick| ==>
                           Received(run.arrivals[first..last + 1], id)[i] == Packets(id, Chunks(data, size))[pick[i]]
    requires Concerns(run.arrivals[last].bin, id)
    ensures Output(run, last) == Ok(if |pick| == |Chunks(data, size)| && Distinct(pick) then [data] else [])
  {
    var part := Part(run, first, last);
    PartIsRun(run, first, last);
    PartIsInOrder(run, first, last);
    OneSwap(part.states[0].lastSwap, part.arrivals, id, run.arrivals[first].ns);
    Untouched(run, id, first);
    assert part.arrivals[|part.arrivals| - 1] == run.arrivals[last];
    assert part.states[|part.arrivals| - 1] == run.states[last];
    DeliversIff(part, id, data, size, pick);
  }

  /** A message of one chunk needs no memory: it comes out at once, in any state and at any time. */
  lemma SingleChunk(s: State, ns: nat, id: nat, data: Binary, size: nat)
    requires id < TWO_TO_THE_64 && 0 < |data| <= size
    ensures |Chunks(data, size)| == 1
    ensures Process(s, ns, Packets(id, Chunks(data, size))[0]) == (Tick(s, ns), Ok([data]))
  {
    DecodePacket(id, 0, 1, data);
  }

  predicate IsPlain(bin: Binary) {
    |bin| >= 2 && (bin[0] == '{' as int || (bin[0] == 0x1f && bin[1] == 0x3c))
  }

  predicate IsChunk(bin: Binary) {
    |bin| >= 12 && bin[0] == 0x1e && bin[1] == 0x0f
  }

  /**
   So do the two forms without chunks: after the magic 1f 3c, and JSON as it is. A packet is an error, which
   leaves the decoder alone, if and only if it is neither of these nor a chunk.
   */
  lemma PlainForms(s: State, ns: nat, bin: Binary)
    ensures IsPlain(bin) ==> Process(s, ns, bin) == (Tick(s, ns), Ok([if bin[0] == '{' as int then bin else bin[2..]]))
    ensures Process(s, ns, bin).1.Err? <==> !IsPlain(bin) && !IsChunk(bin)
    ensures Process(s, ns, bin).1.Err? ==> Process(s, ns, bin).0 == s
  {
  }

  // ----- how long incomplete messages are kept

  /**
   An incomplete message is given up with the second swap after its first chunk, and not before, whatever
   other packets arrive. A decoder swaps only when a well formed packet arrives.
   */
  lemma {:induction false} KeptIff(run: Run, id: nat, k: nat)
    requires IsRun(run) && k <= |run.arrivals| && Lookup(run.states[0], id).Some?
    requires forall i :: 0 <= i < k ==> !Concerns(run.arrivals[i].bin, id)
    ensures var swaps := Swaps(run.states[0].lastSwap, run.arrivals[..k]);
            && Lookup(run.states[k], id)
               == (if swaps < (if id in run.states[0].buffer then 2 else 1) then Lookup(run.states[0], id) else None)
            && (id in run.states[k].buffer <==> id in run.states[0].buffer && swaps == 0)
  {
    if k > 0 {
      LastArrival(run, id, k);
      KeptIff(run, id, k - 1);
      assert Moves(run, k - 1);
      ForeignStep(run.states[k - 1], run.arrivals[k - 1], id);
    }
  }

  /**
   Incomplete messages are meant to be destroyed after five seconds. They are not: a message of two
   chunks is delivered even when its second chunk comes any time later, if nothing came in between.
   */
  lemma LateChunkDelivers(id: nat, a: Binary, b: Binary, later: nat)
    requires id < TWO_TO_THE_64 && later < TWO_TO_THE_64
    ensures var one := Process(State(map[], map[], 0), 0, Packet(id, 0, 2, a)).0;
            Process(one, later, Packet(id, 1, 2, b)).1 == Ok([a + b])
  {
    DecodePacket(id, 0, 2, a);
    DecodePacket(id, 1, 2, b);
    var one := Process(State(map[], map[], 0), 0, Packet(id, 0, 2, a)).0;
    var p := Partial(2, 1, |a|, Nothing(2)[0 := Some(a)]);
    assert one == State(map[id := p], map[], 0);
    assert Lookup(Tick(one, later), id) == Some(p);
    CollectNext(Some(p), id, [a, b], [0], 1) by {
      CollectSound(None, Segment(id, 0, 2, a));
    }
    assert Flat(Somes([a, b])) == a + b by {
      FlatSomesFront(a, [b]);
      FlatSomesFront(b, []);
      assert [b] + [] == [b] && [a] + [b] == [a, b];
    }
  }
}
