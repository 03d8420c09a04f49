/**
 The merge of streams by priority. A pipeline reads its three inboxes through
 `Prioritized(Leaf(management), Prioritized(Leaf(contraflow), Leaf(forward)))`.
 */
module PriorityMerge {
  datatype Poll<T> = Ready(item: T) | End | Pending

  /** What has arrived and was not taken yet, and whether more can arrive. */
  datatype Stream<T> = Stream(items: seq<T>, closed: bool)

  datatype Merge<T> = Leaf(stream: Stream<T>) | Prioritized(high: Merge<T>, low: Merge<T>)

  /** One poll, and the merge it leaves behind. The low side is asked whenever the high side has nothing. */
  function PollNext<T>(m: Merge<T>): (Poll<T>, Merge<T>) {
    match m
    case Leaf(s) =>
      if s.items != [] then (Ready(s.items[0]), Leaf(s.(items := s.items[1..])))
      else (if s.closed then End else Pending, m)
    case Prioritized(high, low) =>
      var (h, high') := PollNext(high);
      if h.Ready? then (h, Prioritized(high', low))
      else
        var (l, low') := PollNext(low);
        (if h.Pending? && l.End? then Pending else l, Prioritized(high', low'))
  }

  /** The merged streams, highest priority first. */
  function Streams<T>(m: Merge<T>): seq<Stream<T>> {
    match m
    case Leaf(s) => [s]
    case Prioritized(high, low) => Streams(high) + Streams(low)
  }

  /** The stream of the highest priority that has something, or the number of streams. */
  function FirstBusy<T>(streams: seq<Stream<T>>): nat {
    if streams == [] || streams[0].items != [] then 0 else 1 + FirstBusy(streams[1..])
  }

  ghost predicate AllClosed<T>(streams: seq<Stream<T>>) {
    forall i :: 0 <= i < |streams| ==> streams[i].closed
  }

  lemma {:induction false} FirstBusyOf<T>(streams: seq<Stream<T>>, k: nat)
    requires k <= |streams| && forall i :: 0 <= i < k ==> streams[i].items == []
    requires k < |streams| ==> streams[k].items != []
    ensures FirstBusy(streams) == k
    decreases k
  {
    if k > 0 {
      FirstBusyOf(streams[1..], k - 1);
    }
  }

  lemma {:induction false} FirstBusyIs<T>(streams: seq<Stream<T>>)
    ensures var k := FirstBusy(streams);
            && k <= |streams|
            && (forall i :: 0 <= i < k ==> streams[i].items == [])
            && (k < |streams| ==> streams[k].items != [])
    decreases |streams|
  {
    if streams != [] && streams[0].items == [] {
      FirstBusyIs(streams[1..]);
    }
  }

  lemma FirstBusyAppend<T>(a: seq<Stream<T>>, b: seq<Stream<T>>)
    ensures FirstBusy(a + b) == if FirstBusy(a) < |a| then FirstBusy(a) else |a| + FirstBusy(b)
  {
    FirstBusyIs(a);
    FirstBusyIs(b);
    FirstBusyOf(a + b, if FirstBusy(a) < |a| then FirstBusy(a) else |a| + FirstBusy(b));
  }

  /** The poll `p` turned `before` into `after` by taking the oldest item of the first stream that has one. */
  ghost predicate Takes<T>(before: seq<Stream<T>>, p: Poll<T>, after: seq<Stream<T>>) {
    var k := FirstBusy(before);
    if k < |before| then
      before[k].items != [] && p == Ready(before[k].items[0])
      && after == before[k := before[k].(items := before[k].items[1..])]
    else
      after == before && p == if AllClosed(before) then End else Pending
  }

  lemma ClosedAppend<T>(a: seq<Stream<T>>, b: seq<Stream<T>>)
    ensures AllClosed(a + b) <==> AllClosed(a) && AllClosed(b)
  {
    if AllClosed(a + b) {
      forall i | 0 <= i < |a|
        ensures a[i].closed
      {
        assert (a + b)[i] == a[i];
      }
      forall i | 0 <= i < |b|
        ensures b[i].closed
      {
        assert (a + b)[|a| + i] == b[i];
      }
    }
  }

  lemma TakesHigh<T>(a: seq<Stream<T>>, p: Poll<T>, a': seq<Stream<T>>, b: seq<Stream<T>>)
    requires Takes(a, p, a') && p.Ready?
    ensures Takes(a + b, p, a' + b)
  {
    FirstBusyAppend(a, b);
    var k := FirstBusy(a);
    assert (a + b)[k := a'[k]] == a' + b;
  }

  lemma TakesLow<T>(a: seq<Stream<T>>, p: Poll<T>, b: seq<Stream<T>>, q: Poll<T>, b': seq<Stream<T>>)
    requires Takes(a, p, a) && !p.Ready? && Takes(b, q, b')
    ensures Takes(a + b, if p.Pending? && q.End? then Pending else q, a + b')
  {
    FirstBusyAppend(a, b);
    FirstBusyIs(a);
    FirstBusyIs(b);
    ClosedAppend(a, b);
    var k := FirstBusy(b);
    if k < |b| {
      assert (a + b)[|a| + k := b'[k]] == a + b';
    }
  }

  /**
   However merges are nested, a poll takes the oldest item of the first stream in priority order that
   has one, and touches no other stream. Without such a stream nothing changes, and the merge has
   ended if and only if every stream has.
   */
  lemma {:induction false} PollTakesFirst<T>(m: Merge<T>)
    ensures Takes(Streams(m), PollNext(m).0, Streams(PollNext(m).1))
  {
    match m
    case Leaf(s) =>
    case Prioritized(high, low) =>
      PollTakesFirst(high);
      if PollNext(high).0.Ready? {
        TakesHigh(Streams(high), PollNext(high).0, Streams(PollNext(high).1), Streams(low));
      } else {
        PollTakesFirst(low);
        TakesLow(Streams(high), PollNext(high).0, Streams(low), PollNext(low).0, Streams(PollNext(low).1));
      }
  }

  /** A pipeline takes a forward message if and only if one waits, and no management and no contraflow message does. */
  lemma ForwardComesLast<T>(mgmt: Stream<T>, contraflow: Stream<T>, forward: Stream<T>)
    ensures var m := Prioritized(Leaf(mgmt), Prioritized(Leaf(contraflow), Leaf(forward)));
            var after := Streams(PollNext(m).1);
            |after| == 3 && (after[2] != forward <==>
                             mgmt.items == [] && contraflow.items == [] && forward.items != [])
  {
    var m := Prioritized(Leaf(mgmt), Prioritized(Leaf(contraflow), Leaf(forward)));
    var before := [mgmt, contraflow, forward];
    assert Streams(m) == before by {
      assert Streams(m.low) == [contraflow, forward];
    }
    PollTakesFirst(m);
    FirstBusyIs(before);
    if forward.items != [] {
      assert |forward.items[1..]| < |forward.items|;
    }
  }
}
