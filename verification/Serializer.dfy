/**
 The serializer of a sink keeps a codec and a chain of postprocessors for each stream, and creates
 them when a stream is first used. Stream 0 is the default: its codec and chain exist from the start.
 */
module Serialization {
  import opened Bytes
  import opened Wrappers
  import opened Chains

  /**
   Codecs `C`, postprocessors `S`, values `V`, codec configurations `K`. `stages` are the
   postprocessors as they are created from their configuration, or `None` if that fails.
   */
  datatype Kit<!C, !S, !V, !K> = Kit(
    machine: Machine<S>,
    encode: (C, V) -> (C, Option<Binary>),
    resolve: K -> Option<C>,
    stages: Option<seq<S>>,
    codec: K)

  datatype Channel<C, S> = Channel(codec: C, stages: seq<S>)

  datatype Serializer<C, S> = Serializer(main: Channel<C, S>, streams: map<nat, Channel<C, S>>)

  datatype Op<V, K> =
    | Serialize(stream: nat, value: V, overwrite: Option<K>)
    | DropStream(stream: nat)
    | FinishStream(stream: nat)
    | Clear

  function Send<C, S, V, K>(kit: Kit<C, S, V, K>, c: Channel<C, S>, v: V): (Channel<C, S>, Pieces) {
    var (codec, bytes) := kit.encode(c.codec, v);
    if bytes.None? then (Channel(codec, c.stages), None)
    else
      var (stages, r) := Chain(kit.machine, c.stages, [bytes.value]);
      (Channel(codec, stages), r)
  }

  /** A codec that overwrites the configured one counts only here, when a stream is new. */
  function Fresh<C, S, V, K>(kit: Kit<C, S, V, K>, overwrite: Option<K>): Option<Channel<C, S>> {
    var codec := kit.resolve(if overwrite.Some? then overwrite.value else kit.codec);
    if codec.None? || kit.stages.None? then None else Some(Channel(codec.value, kit.stages.value))
  }

  class EventSerializer<C, S, V, K> {
    const kit: Kit<C, S, V, K>
    var main: Channel<C, S>
    var streams: map<nat, Channel<C, S>>

    function Now(): Serializer<C, S>
      reads this
    {
      Serializer(main, streams)
    }

    constructor (kit: Kit<C, S, V, K>, main: Channel<C, S>)
      ensures this.kit == kit && Now() == Serializer(main, map[])
    {
      this.kit, this.main, streams := kit, main, map[];
    }

    method SerializeForStream(stream: nat, value: V, overwrite: Option<K>) returns (r: Pieces)
      modifies this
      ensures (Now(), r) == Step(kit, old(Now()), Serialize(stream, value, overwrite))
    {
      if stream == 0 {
        var (next, out) := Send(kit, main, value);
        main := next;
        return out;
      }
      if stream !in streams {
        var made := Fresh(kit, overwrite);
        if made.None? {
          return None;
        }
        streams := streams[stream := made.value];
      }
      var (next, out) := Send(kit, streams[stream], value);
      streams := streams[stream := next];
      assert streams == old(streams)[stream := next];
      r := out;
    }

    method RemoveStream(stream: nat)
      modifies this
      ensures Now() == Step(kit, old(Now()), DropStream(stream)).0
    {
      streams := streams - {stream};
    }

    method ClearStreams()
      modifies this
      ensures Now() == Step(kit, old(Now()), Clear).0
    {
      streams := map[];
    }

    method Flush(stream: nat) returns (r: Pieces)
      modifies this
      ensures (Now(), r) == Step(kit, old(Now()), FinishStream(stream))
    {
      if stream !in streams {
        assert streams - {stream} == streams;
        return Some([]);
      }
      var stages := streams[stream].stages;
      streams := streams - {stream};
      var _, out := RunFinish(kit.machine, stages);
      r := out;
    }
  }

  function Step<C, S, V, K>(kit: Kit<C, S, V, K>, s: Serializer<C, S>, op: Op<V, K>): (Serializer<C, S>, Pieces) {
    match op
    case Serialize(stream, value, overwrite) =>
      var channel :=
        if stream == 0 then Some(s.main)
        else if stream in s.streams then Some(s.streams[stream])
        else Fresh(kit, overwrite);
      if channel.None? then (s, None)
      else
        var (next, r) := Send(kit, channel.value, value);
        (if stream == 0 then s.(main := next) else s.(streams := s.streams[stream := next]), r)
    case DropStream(stream) => (s.(streams := s.streams - {stream}), Some([]))
    case FinishStream(stream) =>
      (s.(streams := s.streams - {stream}),
       if stream in s.streams then Finish(kit.machine, s.streams[stream].stages).1 else Some([]))
    case Clear => (s.(streams := map[]), Some([]))
  }

  // ----- which codec, which chain

  /**
   A stream that is new starts with the codec of the overwrite, or with the configured one if there is none, and with
   postprocessors as they are created. If one of these cannot be created, the call fails and there is no stream.
   */
  lemma NewStream<C, S, V, K>(kit: Kit<C, S, V, K>, s: Serializer<C, S>, stream: nat, v: V, overwrite: Option<K>)
    requires stream != 0 && stream !in s.streams
    ensures var (t, r) := Step(kit, s, Serialize(stream, v, overwrite));
            var made := match overwrite case None => kit.resolve(kit.codec) case Some(k) => kit.resolve(k);
            && t.main == s.main && t.streams - {stream} == s.streams
            && (stream in t.streams <==> made.Some? && kit.stages.Some?)
            && (stream !in t.streams ==> r.None?)
            && (stream in t.streams ==>
                  var (codec, bytes) := kit.encode(made.value, v);
                  && t.streams[stream].codec == codec
                  && if bytes.None? then r.None? && t.streams[stream].stages == kit.stages.value
                     else (t.streams[stream].stages, r) == Chain(kit.machine, kit.stages.value, [bytes.value]))
  {
    var t := Step(kit, s, Serialize(stream, v, overwrite)).0;
    assert t.streams - {stream} == s.streams;
  }

  /** For the default stream and for streams that exist an overwrite does not matter: they go on with what they have. */
  lemma KnownStream<C, S, V, K>(kit: Kit<C, S, V, K>, s: Serializer<C, S>, stream: nat, v: V, overwrite: Option<K>)
    requires stream == 0 || stream in s.streams
    ensures var (t, r) := Step(kit, s, Serialize(stream, v, overwrite));
            var (was, now) := if stream == 0 then (s.main, t.main) else (s.streams[stream], t.streams[stream]);
            var (codec, bytes) := kit.encode(was.codec, v);
            && t.streams.Keys == s.streams.Keys && (stream == 0 ==> t.streams == s.streams) && (stream != 0 ==> t.main == s.main)
            && (forall i :: i in s.streams && i != stream ==> t.streams[i] == s.streams[i])
            && now.codec == codec
            && if bytes.None? then r.None? && now.stages == was.stages
               else (now.stages, r) == Chain(kit.machine, was.stages, [bytes.value])
  {
  }

  /** What ends a stream: it is new afterwards; its chain is finished only on demand. Other streams stay, but for `Clear`. */
  lemma EndsStream<C, S, V, K>(kit: Kit<C, S, V, K>, s: Serializer<C, S>, op: Op<V, K>)
    requires !op.Serialize?
    ensures var (t, r) := Step(kit, s, op);
            && t.main == s.main
            && (forall i :: i in t.streams <==> i in s.streams && !op.Clear? && i != op.stream)
            && (forall i :: i in t.streams ==> t.streams[i] == s.streams[i])
            && r == if op.FinishStream? && op.stream in s.streams then Finish(kit.machine,
               s.streams[op.stream].stages).1 else Some([])
  {
  }

  // ----- streams do not see each other

  predicate Concerns<V, K>(op: Op<V, K>, stream: nat) {
    op.Clear? || op.stream == stream
  }

  function View<C, S>(s: Serializer<C, S>, stream: nat): Option<Channel<C, S>> {
    if stream == 0 then Some(s.main)
    else if stream in s.streams then Some(s.streams[stream])
    else None
  }

  /** What one stream would do if it were alone: the default stream is never dropped and never finished. */
  function Alone<C, S, V, K>(kit: Kit<C, S, V, K>, default: bool, c: Option<Channel<C, S>>, op: Op<V, K>)
    : (Option<Channel<C, S>>, Pieces)
  {
    match op
    case Serialize(_, value, overwrite) =>
      var channel := if c.Some? then c else Fresh(kit, overwrite);
      if channel.None? then (None, None)
      else
        var (next, r) := Send(kit, channel.value, value);
        (Some(next), r)
    case FinishStream(_) =>
      if default || c.None? then (c, Some([])) else (None, Finish(kit.machine, c.value.stages).1)
    case _ => (if default then c else None, Some([]))
  }

  lemma StepMine<C, S, V, K>(kit: Kit<C, S, V, K>, s: Serializer<C, S>, op: Op<V, K>, stream: nat)
    requires Concerns(op, stream) && 0 !in s.streams
    ensures var (t, r) := Step(kit, s, op);
            (View(t, stream), r) == Alone(kit, stream == 0, View(s, stream), op) && 0 !in t.streams
  {
  }

  lemma StepOther<C, S, V, K>(kit: Kit<C, S, V, K>, s: Serializer<C, S>, op: Op<V, K>, stream: nat)
    requires !Concerns(op, stream) && 0 !in s.streams
    ensures var t := Step(kit, s, op).0;
            View(t, stream) == View(s, stream) && 0 !in t.streams
  {
  }

  function Mine<V, K>(ops: seq<Op<V, K>>, stream: nat): seq<Op<V, K>> {
    if ops == [] then []
    else if Concerns(ops[0], stream) then [ops[0]] + Mine(ops[1..], stream)
    else Mine(ops[1..], stream)
  }

  /** What the operations on one stream gave, in a run with operations on all streams. */
  function Outputs<C, S, V, K>(kit: Kit<C, S, V, K>, s: Serializer<C, S>, ops: seq<Op<V, K>>, stream: nat): seq<Pieces>
    decreases |ops|
  {
    if ops == [] then []
    else
      var (t, r) := Step(kit, s, ops[0]);
      if Concerns(ops[0], stream) then [r] + Outputs(kit, t, ops[1..], stream)
      else Outputs(kit, t, ops[1..], stream)
  }

  function OutputsAlone<C, S, V, K>(kit: Kit<C, S, V, K>, default: bool, c: Option<Channel<C, S>>, ops: seq<Op<V, K>>)
    : seq<Pieces>
    decreases |ops|
  {
    if ops == [] then []
    else
      var (d, r) := Alone(kit, default, c, ops[0]);
      [r] + OutputsAlone(kit, default, d, ops[1..])
  }

  /**
   In every run, whatever other streams do in between, a stream gives what it would give alone. The
   only operation that reaches more than its own stream is the one that clears all of them.
   */
  lemma {:induction false} StreamsAreIsolated<C, S, V, K>(
    kit: Kit<C, S, V, K>, s: Serializer<C, S>, ops: seq<Op<V, K>>, stream: nat)
    requires 0 !in s.streams
    ensures Outputs(kit, s, ops, stream) == OutputsAlone(kit, stream == 0, View(s, stream), Mine(ops, stream))
    decreases |ops|
  {
    if ops != [] {
      var t := Step(kit, s, ops[0]).0;
      if Concerns(ops[0], stream) {
        StepMine(kit, s, ops[0], stream);
        assert Mine(ops, stream)[1..] == Mine(ops[1..], stream);
      } else {
        StepOther(kit, s, ops[0], stream);
      }
      StreamsAreIsolated(kit, t, ops[1..], stream);
    }
  }

  // ----- a stream is one long run of its chain

  /** The values of a stream, encoded one after the other by its codec. */
  function EncodeAll<C, S, V, K>(kit: Kit<C, S, V, K>, codec: C, vs: seq<V>): (C, Option<seq<Binary>>)
    decreases |vs|
  {
    if vs == [] then (codec, Some([]))
    else
      var (next, bytes) := kit.encode(codec, vs[0]);
      if bytes.None? then (next, None)
      else
        var (last, more) := EncodeAll(kit, next, vs[1..]);
        (last, if more.None? then None else Some([bytes.value] + more.value))
  }

  /** The values of a stream, sent one call at a time; stops at the first error. */
  function SendAll<C, S, V, K>(kit: Kit<C, S, V, K>, c: Channel<C, S>, vs: seq<V>): (Channel<C, S>, Pieces)
    decreases |vs|
  {
    if vs == [] then (c, Some([]))
    else
      var (next, r) := Send(kit, c, vs[0]);
      if r.None? then (next, None)
      else
        var (last, more) := SendAll(kit, next, vs[1..]);
        (last, Join(r.value, more))
  }

  /**
   What a stream gives for its values, call by call, is what its chain of postprocessors gives for all
   the encoded values at once, and it succeeds if and only if all values can be encoded and the chain takes them.
   */
  lemma {:induction false} StreamIsOneChain<C, S, V, K>(kit: Kit<C, S, V, K>, c: Channel<C, S>, vs: seq<V>)
    ensures var (codec, encoded) := EncodeAll(kit, c.codec, vs);
            var (last, r) := SendAll(kit, c, vs);
            && (r.Some? <==> encoded.Some? && Chain(kit.machine, c.stages, encoded.value).1.Some?)
            && (r.Some? ==> r == Chain(kit.machine, c.stages, encoded.value).1
                            && last == Channel(codec, Chain(kit.machine, c.stages, encoded.value).0))
    decreases |vs|
  {
    if vs == [] {
      SilenceStays(kit.machine, c.stages);
    } else {
      var (next, bytes) := kit.encode(c.codec, vs[0]);
      var (codec, more) := EncodeAll(kit, next, vs[1..]);
      if bytes.Some? {
        var sent := Send(kit, c, vs[0]).0;
        StreamIsOneChain(kit, sent, vs[1..]);
        if more.Some? {
          ChainAppend(kit.machine, c.stages, [bytes.value], more.value);
        }
      }
    }
  }
}
