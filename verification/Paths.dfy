/**
 When draining is safe. A source knows that a sink has got everything if and only if there is only one
 way through the tasks from the source to the sink: with a second way, the drain signal can overtake an
 event. Several links between the same two tasks do no harm.
 */
module OneWay {
  import opened Protocol
  import opened Wrappers
  import opened Network
  import opened Quiescence
  import opened Playing
  import opened DrainScenario

  /** Sources feed pipelines, pipelines feed pipelines and sinks, sinks feed nobody. */
  predicate MayFeed(n: Node, d: Node) {
    !n.SinkNode? && (d.PipeNode? || (d.SinkNode? && n.PipeNode?))
  }

  ghost predicate WellFormed(topo: Topology) {
    forall n, d :: d in Outs(topo, n) ==> MayFeed(n, d)
  }

  /** A way from source `s` to sink `k` over links; it may come to a pipeline more than once. */
  ghost predicate Walk(topo: Topology, s: Uid, k: Uid, nodes: seq<Node>) {
    Shape(s, k, nodes) && forall i :: 0 < i < |nodes| ==> nodes[i] in Outs(topo, nodes[i - 1])
  }

  ghost predicate OnlyWalk(topo: Topology, s: Uid, k: Uid) {
    forall a, b :: Walk(topo, s, k, a) && Walk(topo, s, k, b) ==> a == b
  }

  /** `x` waits before task `j` of a way to the sink that it takes. */
  ghost predicate Underway(topo: Topology, s: Uid, k: Uid, net: Net, nodes: seq<Node>, j: nat, x: Item) {
    && Walk(topo, s, k, nodes) && 0 < j < |nodes|
    && x.Packet? && x.origin == s && Ways(topo, nodes, 0, x) > 0
    && (x in Inbox(net, nodes[j]) || (nodes[j], x) in Outbox(net, nodes[j - 1]))
  }

  /** `x` was sent before the first drain signal, and not again later. */
  ghost predicate Early(s: Uid, net: Net, d: nat, x: Item) {
    FirstDrain(s, Sent(net, s), d) && x in Sent(net, s)[..d] && x !in Sent(net, s)[d..]
  }

  /** The source no longer waits for the sink, and something it sent before is still on its way there. */
  ghost predicate Overtaken(topo: Topology, s: Uid, k: Uid, w: World) {
    && s in w.sources && k in Heard(w, s) && k !in w.sources[s].started
    && exists nodes, j: nat, x, d: nat :: Underway(topo, s, k, w.net, nodes, j, x) && Early(s, w.net, d, x)
  }

  /** With these links, whatever the pipelines do with events, nothing is ever overtaken. */
  ghost predicate Safe(topo: Topology, s: Uid, k: Uid) {
    forall plant: Plant, run, n: nat ::
      plant.topo.outs == topo.outs && Mirrored(plant) && IsRun(plant, run) && n < |run.states|
      ==> !Overtaken(plant.topo, s, k, run.states[n])
  }

  // ----- one way is safe

  /** A way from source `s` to task `n`. */
  ghost predicate Leading(topo: Topology, s: Uid, nodes: seq<Node>, n: Node) {
    && nodes != [] && nodes[0] == SourceNode(s) && nodes[|nodes| - 1] == n
    && forall i :: 0 < i < |nodes| ==> nodes[i] in Outs(topo, nodes[i - 1])
  }

  ghost predicate Reachable(topo: Topology, s: Uid, n: Node) {
    exists nodes :: Leading(topo, s, nodes, n)
  }

  function Mentioned(topo: Topology): set<Node> {
    topo.outs.Keys + set n, i | n in topo.outs && 0 <= i < |topo.outs[n]| :: topo.outs[n][i]
  }

  ghost function ReachOf(topo: Topology, s: Uid): set<Node> {
    set n | n in Mentioned(topo) + {SourceNode(s)} && Reachable(topo, s, n)
  }

  lemma ReachIsClosed(topo: Topology, s: Uid, n: Node, d: Node)
    requires n in ReachOf(topo, s) && d in Outs(topo, n)
    ensures d in ReachOf(topo, s)
  {
    var nodes :| Leading(topo, s, nodes, n);
    var longer := nodes + [d];
    forall i | 0 < i < |longer|
      ensures longer[i] in Outs(topo, longer[i - 1])
    {
      assert longer[i - 1] == nodes[i - 1];
    }
    assert Leading(topo, s, longer, d);
    var i :| 0 <= i < |topo.outs[n]| && topo.outs[n][i] == d;
    assert d in Mentioned(topo);
  }

  lemma SourceIsReached(topo: Topology, s: Uid)
    ensures SourceNode(s) in ReachOf(topo, s)
  {
    assert Leading(topo, s, [SourceNode(s)], SourceNode(s));
  }

  lemma LeadsToPipe(topo: Topology, s: Uid, nodes: seq<Node>, n: Node, i: nat)
    requires WellFormed(topo) && Leading(topo, s, nodes, n) && Outs(topo, n) != [] && 0 < i < |nodes|
    ensures nodes[i].PipeNode?
  {
    assert MayFeed(nodes[i - 1], nodes[i]);
    if i < |nodes| - 1 {
      assert nodes[i + 1] in Outs(topo, nodes[(i + 1) - 1]);
      assert MayFeed(nodes[i], nodes[i + 1]);
    } else {
      assert MayFeed(n, Outs(topo, n)[0]);
    }
  }

  /** A way to a task that feeds task `i` of a way is completed by the rest of it. */
  lemma Completed(topo: Topology, s: Uid, k: Uid, a: seq<Node>, n: Node, nodes: seq<Node>, i: nat)
    requires WellFormed(topo) && Leading(topo, s, a, n) && Walk(topo, s, k, nodes)
    requires 0 < i < |nodes| && nodes[i] in Outs(topo, n)
    ensures Walk(topo, s, k, a + nodes[i..])
  {
    var b := a + nodes[i..];
    forall j | 0 < j < |b|
      ensures b[j] in Outs(topo, b[j - 1])
    {
      if j > |a| {
        assert b[j] == nodes[i + (j - |a|)] && b[j - 1] == nodes[i + (j - |a|) - 1];
      }
    }
    forall j | 0 < j < |b| - 1
      ensures b[j].PipeNode?
    {
      if j < |a| {
        LeadsToPipe(topo, s, a, n, j);
      } else {
        assert b[j] == nodes[i + (j - |a|)];
      }
    }
  }

  lemma FeedsOnly(topo: Topology, s: Uid, k: Uid, nodes: seq<Node>, i: nat, n: Node)
    requires WellFormed(topo) && OnlyWalk(topo, s, k) && Walk(topo, s, k, nodes)
    requires 0 < i < |nodes| && n in ReachOf(topo, s) && nodes[i] in Outs(topo, n)
    ensures n == nodes[i - 1]
  {
    var a :| Leading(topo, s, a, n);
    Completed(topo, s, k, a, n, nodes, i);
    assert a + nodes[i..] == nodes;
    assert nodes[|a| - 1] == (a + nodes[i..])[|a| - 1] == n;
  }

  /** A way that comes to a task twice can leave out what is in between. */
  lemma Shortened(topo: Topology, s: Uid, k: Uid, nodes: seq<Node>, i: nat, j: nat)
    requires Walk(topo, s, k, nodes) && i < j < |nodes| && nodes[i] == nodes[j]
    ensures Walk(topo, s, k, nodes[..i] + nodes[j..])
  {
    var b := nodes[..i] + nodes[j..];
    assert 0 < i && j < |nodes| - 1;
    forall t | 0 < t < |b|
      ensures b[t] in Outs(topo, b[t - 1])
    {
      if t < i {
        assert b[t] == nodes[t] && b[t - 1] == nodes[t - 1];
      } else if t == i {
        assert b[t] == nodes[i] && b[t - 1] == nodes[i - 1];
      } else {
        assert b[t] == nodes[j + t - i] && b[t - 1] == nodes[j + t - i - 1];
      }
    }
    forall t | 0 < t < |b| - 1
      ensures b[t].PipeNode?
    {
      assert b[t] == if t < i then nodes[t] else nodes[j + t - i];
    }
  }

  lemma OnlyWalkIsSole(topo: Topology, s: Uid, k: Uid, nodes: seq<Node>)
    requires WellFormed(topo) && OnlyWalk(topo, s, k) && Walk(topo, s, k, nodes)
    ensures SolePath(topo, Route(s, k, nodes, ReachOf(topo, s)))
  {
    var r := Route(s, k, nodes, ReachOf(topo, s));
    forall i, j | 0 <= i < j < |nodes|
      ensures nodes[i] != nodes[j]
    {
      if nodes[i] == nodes[j] {
        Shortened(topo, s, k, nodes, i, j);
      }
    }
    SourceIsReached(topo, s);
    forall n, d | n in r.reach && d in Outs(topo, n)
      ensures d in r.reach
    {
      ReachIsClosed(topo, s, n, d);
    }
    forall i | 0 < i < |nodes|
      ensures Hop(topo, r, i)
    {
      forall n | n in r.reach && nodes[i] in Outs(topo, n)
        ensures n == nodes[i - 1]
      {
        FeedsOnly(topo, s, k, nodes, i, n);
      }
    }
  }

  lemma {:induction false} LinkWaysOn(topo: Topology, nodes: seq<Node>, i: nat, link: nat, x: Item)
    requires i + 1 < |nodes| && LinkWays(topo, nodes, i, link, x) > 0
    ensures Ways(topo, nodes, i + 1, x) > 0
    decreases |Outs(topo, nodes[i])| - link
  {
    if Ways(topo, nodes, i + 1, x) == 0 {
      LinkWaysOn(topo, nodes, i, link + 1, x);
    }
  }

  lemma {:induction false} WaysOn(topo: Topology, nodes: seq<Node>, i: nat, x: Item)
    requires i < |nodes| && Ways(topo, nodes, 0, x) > 0
    ensures Ways(topo, nodes, i, x) > 0
  {
    if i > 0 {
      WaysOn(topo, nodes, i - 1, x);
      LinkWaysOn(topo, nodes, i - 1, 0, x);
    }
  }

  lemma {:induction false} ScaleToMember(w: Weight, d: Node, es: seq<(Node, Item)>, x: Item)
    requires (d, x) in es && w(x) > 0
    ensures x in ScaleTo(w, d, es)
  {
    if es[0] == (d, x) {
      assert Rep(w(x), x)[0] == x;
    } else {
      assert es == [es[0]] + es[1..];
      ScaleToMember(w, d, es[1..], x);
    }
  }

  lemma UnderwayInFlight(topo: Topology, r: Route, net: Net, j: nat, x: Item)
    requires |r.nodes| >= 2 && Underway(topo, r.s, r.k, net, r.nodes, j, x)
    ensures x in InFlight(topo, r, net)
  {
    var ws := Weights(topo, r);
    WaysOn(topo, r.nodes, j, x);
    ScaleMember(ws[j], Inbox(net, r.nodes[j]), x);
    if (r.nodes[j], x) in Outbox(net, r.nodes[j - 1]) {
      ScaleToMember(ws[j], r.nodes[j], Outbox(net, r.nodes[j - 1]), x);
    }
    assert x in Segment(ws, r.nodes, net, j);
    assert Segments(ws, r.nodes, net)[j - 1] == Segment(ws, r.nodes, net, j);
    BackMember(Segments(ws, r.nodes, net), j - 1, x);
  }

  lemma FirstDrainComesFirst(s: Uid, xs: seq<Item>, d: nat, e: nat)
    requires FirstDrain(s, xs, d) && d < e <= |xs|
    ensures Packet(s, DrainSignal) in xs[..e]
  {
    assert xs[..e][d] == xs[d];
  }

  lemma FirstDrainIsOne(s: Uid, xs: seq<Item>, d: nat, e: nat)
    requires FirstDrain(s, xs, d) && FirstDrain(s, xs, e)
    ensures d == e
  {
    if d < e {
      FirstDrainComesFirst(s, xs, d, e);
    } else if e < d {
      FirstDrainComesFirst(s, xs, e, d);
    }
  }

  lemma OnlyWalkIsSafe(plant: Plant, s: Uid, k: Uid, run: Run, n: nat)
    requires WellFormed(plant.topo) && OnlyWalk(plant.topo, s, k) && IsRun(plant, run) && n < |run.states|
    ensures !Overtaken(plant.topo, s, k, run.states[n])
  {
    var topo, w := plant.topo, run.states[n];
    if Overtaken(topo, s, k, w) {
      var nodes, j: nat, x, d: nat :| Underway(topo, s, k, w.net, nodes, j, x) && Early(s, w.net, d, x);
      var r := Route(s, k, nodes, ReachOf(topo, s));
      OnlyWalkIsSole(topo, s, k, nodes);
      DrainLosesNothing(plant, r, run, n);
      var e: nat :| FirstDrain(s, Sent(w.net, s), e) && Past(topo, r, w.net, e);
      FirstDrainIsOne(s, Sent(w.net, s), d, e);
      UnderwayInFlight(topo, r, w.net, j, x);
      assert false;
    }
  }

  // ----- two ways are not

  /** All events go over all links. */
  ghost predicate Broadcasts(topo: Topology) {
    forall n, link, event :: topo.routes(n, link, event)
  }

  ghost function Listed(ns: set<Node>): (xs: seq<Node>)
    ensures forall n :: n in xs <==> n in ns
  {
    if ns == {} then [] else var n :| n in ns; [n] + Listed(ns - {n})
  }

  ghost function Feeders(topo: Topology, d: Node): seq<Node> {
    Listed(set n | n in topo.outs && d in topo.outs[n])
  }

  /** A plant with given links in which contraflow travels them backwards and all events go everywhere. */
  ghost function Broadcasting(topo: Topology): Plant {
    Plant(Topology(topo.outs, (n, link, event) => true),
          map p | p in set d | d in Mentioned(topo) && d.PipeNode? :: d.pid :: Feeders(topo, PipeNode(p)),
          map k | k in set d | d in Mentioned(topo) && d.SinkNode? :: d.uid :: Feeders(topo, SinkNode(k)))
  }

  lemma BroadcastingMirrors(topo: Topology)
    ensures Broadcasts(Broadcasting(topo).topo) && Mirrored(Broadcasting(topo))
  {
    var plant := Broadcasting(topo);
    forall n, d | d in Outs(plant.topo, n)
      ensures d in Mentioned(topo)
    {
      var i :| 0 <= i < |topo.outs[n]| && topo.outs[n][i] == d;
    }
    forall n, d
      ensures d in Outs(plant.topo, n) <==> n in Feeders(topo, d)
    {
    }
  }

  lemma {:induction false} Simplified(topo: Topology, s: Uid, k: Uid, nodes: seq<Node>) returns (simple: seq<Node>)
    requires Walk(topo, s, k, nodes)
    ensures Walk(topo, s, k, simple) && Distinct(simple)
    decreases |nodes|
  {
    if Distinct(nodes) {
      simple := nodes;
    } else {
      var i, j :| 0 <= i < j < |nodes| && nodes[i] == nodes[j];
      Shortened(topo, s, k, nodes, i, j);
      simple := Simplified(topo, s, k, nodes[..i] + nodes[j..]);
    }
  }

  /** Two ways part after task `i`. */
  lemma Parts(topo: Topology, s: Uid, k: Uid, a: seq<Node>, b: seq<Node>) returns (i: nat)
    requires Walk(topo, s, k, a) && Walk(topo, s, k, b) && a != b
    ensures i + 1 < |a| && i + 1 < |b| && a[..i + 1] == b[..i + 1] && a[i + 1] != b[i + 1]
  {
    i := 0;
    while i + 1 < |a| && i + 1 < |b| && a[i + 1] == b[i + 1]
      invariant i < |a| && i < |b| && a[..i + 1] == b[..i + 1]
      decreases |a| - i
    {
      i := i + 1;
    }
    assert a[..i + 1][i] == b[..i + 1][i];
    assert a[..|a|] == a && b[..|b|] == b;
  }

  /** `way` leaves the trail `nodes` after task `i` for a task that is not on the trail from task `t` on. */
  ghost predicate Forked(topo: Topology, s: Uid, k: Uid, nodes: seq<Node>, i: nat, t: nat, way: seq<Node>) {
    && Walk(topo, s, k, nodes) && Distinct(nodes) && Walk(topo, s, k, way)
    && i < t < |nodes| && i + 1 < |way| && way[i] == nodes[i]
    && nodes[t] in Outs(topo, nodes[i]) && way[i + 1] !in nodes[t..]
  }

  lemma Fork(topo: Topology, s: Uid, k: Uid, nodes: seq<Node>, other: seq<Node>)
    returns (i: nat, t: nat, way: seq<Node>)
    requires Walk(topo, s, k, nodes) && Distinct(nodes) && Walk(topo, s, k, other) && other != nodes
    ensures Forked(topo, s, k, nodes, i, t, way)
  {
    i := Parts(topo, s, k, nodes, other);
    assert nodes[..i + 1][i] == other[..i + 1][i];
    if other[i + 1] in nodes[i + 1..] {
      t := At(nodes[i + 1..], other[i + 1]);
      t, way := t + i + 1, nodes;
    } else {
      t, way := i + 1, other;
    }
  }

  lemma Broadcast(topo: Topology, n: Node, d: Node, x: Item)
    requires Broadcasts(topo) && d in Outs(topo, n) && x.Packet? && (x.body.Data? || d != n)
    ensures Carries(topo, n, d, x)
  {
    var at :| 0 <= at < |Outs(topo, n)| && Outs(topo, n)[at] == d;
    assert Passes(topo, n, at, x);
  }

  lemma BroadcastAlong(topo: Topology, nodes: seq<Node>, i: nat, j: nat, x: Item)
    requires Broadcasts(topo) && x.Packet? && 0 < i <= j < |nodes| && Distinct(nodes)
    requires forall t :: i <= t < j ==> nodes[t].PipeNode?
    requires forall t :: 0 < t < |nodes| ==> nodes[t] in Outs(topo, nodes[t - 1])
    ensures CarriesAlong(topo, nodes, i, j, x)
  {
    forall t | i <= t < j
      ensures Carries(topo, nodes[t], nodes[t + 1], x)
    {
      assert nodes[t + 1] in Outs(topo, nodes[(t + 1) - 1]);
      Broadcast(topo, nodes[t], nodes[t + 1], x);
    }
  }

  /** What was sent by the source before and with its first drain signal. */
  function Story(s: Uid): seq<Item> {
    [Packet(s, StartSignal), Packet(s, Data(0)), Packet(s, DrainSignal)]
  }

  /** Task `n` is about to hand on the event and the drain signal to all it is linked to. */
  ghost predicate AtFork(topo: Topology, w: World, s: Uid, n: Node) {
    forall d :: d in Outs(topo, n) ==>
      && (d, Packet(s, Data(0))) in Outbox(w.net, n)
      && (d != n ==> (d, Packet(s, DrainSignal)) in Outbox(w.net, n))
  }

  /** The source sends an event and can be asked to drain. */
  lemma Sends(plant: Plant, s: Uid, k: Uid, nodes: seq<Node>) returns (w: World)
    requires Broadcasts(plant.topo) && Mirrored(plant) && Trail(plant, s, k, nodes)
    ensures Reaches(plant, Beginning(s, k), w) && Open(w, s, k) && Sent(w.net, s) == Story(s)[..2]
    ensures forall d :: d in Outs(plant.topo, SourceNode(s)) && d != SourceNode(s) ==>
                          (d, Packet(s, Data(0))) in Outbox(w.net, SourceNode(s))
  {
    var a := SourceHears(plant, s, k, nodes);
    w := Speaks(plant, a, s, k, 0);
    Then(plant, Beginning(s, k), a, w);
    forall d | d in Outs(plant.topo, SourceNode(s)) && d != SourceNode(s)
      ensures (d, Packet(s, Data(0))) in Outbox(w.net, SourceNode(s))
    {
      Broadcast(plant.topo, SourceNode(s), d, Packet(s, Data(0)));
      EmitReaches(plant.topo, a.net, s, Data(0), d);
    }
  }

  /** The source is asked to drain and sends its signal after the event. */
  lemma Signals(plant: Plant, w: World, s: Uid, k: Uid) returns (u: World)
    requires Broadcasts(plant.topo) && Open(w, s, k) && Sent(w.net, s) == Story(s)[..2]
    ensures Reaches(plant, w, u) && Waiting(u, s, k) && Sent(u.net, s) == Story(s) && u.net.inq == w.net.inq
    ensures forall e :: e in Outbox(w.net, SourceNode(s)) ==> e in Outbox(u.net, SourceNode(s))
    ensures forall d :: d in Outs(plant.topo, SourceNode(s)) && d != SourceNode(s) ==>
                          (d, Packet(s, DrainSignal)) in Outbox(u.net, SourceNode(s))
  {
    u := SourceDrains(plant, w, s, k, {s});
    forall d | d in Outs(plant.topo, SourceNode(s)) && d != SourceNode(s)
      ensures (d, Packet(s, DrainSignal)) in Outbox(u.net, SourceNode(s))
    {
      Broadcast(plant.topo, SourceNode(s), d, Packet(s, DrainSignal));
      EmitReaches(plant.topo, w.net, s, DrainSignal, d);
    }
  }

  /** A pipeline that has the event and the signal hands both on. */
  lemma HandsOn(plant: Plant, w: World, s: Uid, p: nat) returns (u: World)
    requires Broadcasts(plant.topo)
    requires Packet(s, Data(0)) in Inbox(w.net, PipeNode(p)) && Packet(s, DrainSignal) in Inbox(w.net, PipeNode(p))
    ensures Reaches(plant, w, u) && Carried(w, u, {PipeNode(p)}) && AtFork(plant.topo, u, s, PipeNode(p))
  {
    var n, x, y := PipeNode(p), Packet(s, Data(0)), Packet(s, DrainSignal);
    u := ForwardsUpTo(plant, w, p, |Inbox(w.net, n)| - 1);
    var i := At(Inbox(w.net, n), x);
    var j := At(Inbox(w.net, n), y);
    forall d | d in Outs(plant.topo, n)
      ensures (d, x) in Outbox(u.net, n) && (d != n ==> (d, y) in Outbox(u.net, n))
    {
      Broadcast(plant.topo, n, d, x);
      CarriedCopy(plant.topo, n, d, x);
      if d != n {
        Broadcast(plant.topo, n, d, y);
        CarriedCopy(plant.topo, n, d, y);
      }
    }
  }

  /** The event and the signal get to task `i` of the trail. */
  lemma GetsToFork(plant: Plant, s: Uid, k: Uid, nodes: seq<Node>, i: nat) returns (w: World)
    requires WellFormed(plant.topo) && Broadcasts(plant.topo) && Mirrored(plant) && Trail(plant, s, k, nodes) && i < |nodes| - 1
    ensures Reaches(plant, Beginning(s, k), w) && Waiting(w, s, k) && Sent(w.net, s) == Story(s)
    ensures AtFork(plant.topo, w, s, nodes[i])
  {
    var a := Sends(plant, s, k, nodes);
    assert SourceNode(s) !in Outs(plant.topo, SourceNode(s)) by {
      assert !MayFeed(SourceNode(s), SourceNode(s));
    }
    if i == 0 {
      w := Signals(plant, a, s, k);
      Then(plant, Beginning(s, k), a, w);
    } else {
      w := GetsToPipe(plant, a, s, k, nodes, i);
      Then(plant, Beginning(s, k), a, w);
    }
  }

  lemma GetsToPipe(plant: Plant, w: World, s: Uid, k: Uid, nodes: seq<Node>, i: nat) returns (u: World)
    requires Broadcasts(plant.topo) && Trail(plant, s, k, nodes) && 0 < i < |nodes| - 1
    requires Open(w, s, k) && Sent(w.net, s) == Story(s)[..2]
    requires (nodes[1], Packet(s, Data(0))) in Outbox(w.net, SourceNode(s))
    ensures Reaches(plant, w, u) && Waiting(u, s, k) && Sent(u.net, s) == Story(s)
    ensures AtFork(plant.topo, u, s, nodes[i])
  {
    BroadcastAlong(plant.topo, nodes, 1, i, Packet(s, Data(0)));
    var b := Brings(plant, w, s, nodes, i, Packet(s, Data(0)));
    CarriedKeeps(w, b, s, k, Members(nodes[1..i]));
    var c := Signals(plant, b, s, k);
    Then(plant, w, b, c);
    assert nodes[1] in Outs(plant.topo, nodes[0]);
    u := SignalFollows(plant, c, s, k, nodes, i);
    Then(plant, w, c, u);
  }

  lemma SignalFollows(plant: Plant, w: World, s: Uid, k: Uid, nodes: seq<Node>, i: nat) returns (u: World)
    requires Broadcasts(plant.topo) && Trail(plant, s, k, nodes) && 0 < i < |nodes| - 1 && Waiting(w, s, k)
    requires Packet(s, Data(0)) in Inbox(w.net, nodes[i])
    requires (nodes[1], Packet(s, DrainSignal)) in Outbox(w.net, SourceNode(s))
    ensures Reaches(plant, w, u) && Waiting(u, s, k) && u.net.sent == w.net.sent
    ensures AtFork(plant.topo, u, s, nodes[i])
  {
    BroadcastAlong(plant.topo, nodes, 1, i, Packet(s, DrainSignal));
    var d := Brings(plant, w, s, nodes, i, Packet(s, DrainSignal));
    CarriedKeeps(w, d, s, k, Members(nodes[1..i]));
    u := HandsOn(plant, d, s, nodes[i].pid);
    CarriedKeeps(d, u, s, k, {nodes[i]});
    Then(plant, w, d, u);
  }

  /** The event gets to `v` and the signal to `y`. */
  lemma Separate(plant: Plant, w: World, s: Uid, k: Uid, n: Node, y: Node, v: Node) returns (u: World)
    requires y in Outs(plant.topo, n) && y != n && v in Outs(plant.topo, n)
    requires Waiting(w, s, k) && AtFork(plant.topo, w, s, n)
    ensures Reaches(plant, w, u) && Waiting(u, s, k) && u.net.sent == w.net.sent
    ensures Packet(s, Data(0)) in Inbox(u.net, v) && Packet(s, DrainSignal) in Inbox(u.net, y)
  {
    u := DeliversUpTo(plant, w, n, |Outbox(w.net, n)| - 1);
    CarriedKeeps(w, u, s, k, {});
    var i := At(Outbox(w.net, n), (v, Packet(s, Data(0))));
    var j := At(Outbox(w.net, n), (y, Packet(s, DrainSignal)));
  }

  lemma OffTrail(nodes: seq<Node>, t: nat, last: nat, v: Node)
    requires t <= last < |nodes| && v !in nodes[t..]
    ensures v !in Members(nodes[t..last])
  {
    assert nodes[t..] == nodes[t..last] + nodes[last..];
  }

  /** The signal takes the trail from task `t` on, while the event stays at a task that is not on it. */
  lemma GoesAhead(plant: Plant, w: World, s: Uid, k: Uid, nodes: seq<Node>, t: nat, v: Node) returns (u: World)
    requires Broadcasts(plant.topo) && Trail(plant, s, k, nodes) && 0 < t < |nodes| && v !in nodes[t..]
    requires Waiting(w, s, k) && Packet(s, Data(0)) in Inbox(w.net, v) && Packet(s, DrainSignal) in Inbox(w.net, nodes[t])
    ensures Reaches(plant, w, u) && Waiting(u, s, k) && u.net.sent == w.net.sent
    ensures Packet(s, Data(0)) in Inbox(u.net, v) && Packet(s, DrainSignal) in Inbox(u.net, SinkNode(k))
  {
    var last := |nodes| - 1;
    BroadcastAlong(plant.topo, nodes, t, last, Packet(s, DrainSignal));
    u := Travels(plant, w, nodes, t, last, Packet(s, DrainSignal));
    CarriedKeeps(w, u, s, k, Members(nodes[t..last]));
    OffTrail(nodes, t, last, v);
  }

  lemma Overtakes(plant: Plant, w: World, s: Uid, k: Uid, nodes: seq<Node>, i: nat, t: nat, v: Node) returns (u: World)
    requires Broadcasts(plant.topo) && Mirrored(plant) && Trail(plant, s, k, nodes)
    requires i < t < |nodes| && nodes[t] in Outs(plant.topo, nodes[i]) && v in Outs(plant.topo, nodes[i]) && v !in nodes[t..]
    requires Waiting(w, s, k) && AtFork(plant.topo, w, s, nodes[i])
    ensures Reaches(plant, w, u) && u.net.sent == w.net.sent
    ensures s in u.sources && u.sources[s].started == {} && k in Heard(u, s)
    ensures Packet(s, Data(0)) in Inbox(u.net, v)
  {
    var a := Separate(plant, w, s, k, nodes[i], nodes[t], v);
    var b := GoesAhead(plant, a, s, k, nodes, t, v);
    Then(plant, w, a, b);
    u := Acknowledges(plant, b, s, k, nodes);
    Then(plant, w, b, u);
    assert SinkNode(k) == nodes[t..][|nodes| - 1 - t];
  }

  lemma EarlyEvent(s: Uid, net: Net)
    requires Sent(net, s) == Story(s)
    ensures Early(s, net, 2, Packet(s, Data(0)))
  {
    var sent := Sent(net, s);
    assert sent[..2] == [Packet(s, StartSignal), Packet(s, Data(0))];
    assert sent[2..] == [Packet(s, DrainSignal)];
  }

  lemma StaysUnderway(topo: Topology, s: Uid, k: Uid, net: Net, way: seq<Node>, j: nat)
    requires Broadcasts(topo) && Walk(topo, s, k, way) && 0 < j < |way| && Packet(s, Data(0)) in Inbox(net, way[j])
    ensures Underway(topo, s, k, net, way, j, Packet(s, Data(0)))
  {
    forall i | 0 < i < |way|
      ensures Carries(topo, way[i - 1], way[i], Packet(s, Data(0)))
    {
      Broadcast(topo, way[i - 1], way[i], Packet(s, Data(0)));
    }
    CarriedWays(topo, way, 0, Packet(s, Data(0)));
  }

  lemma ForkIsUnsafe(plant: Plant, s: Uid, k: Uid, nodes: seq<Node>, i: nat, t: nat, way: seq<Node>) returns (run: Run)
    requires WellFormed(plant.topo) && Broadcasts(plant.topo) && Mirrored(plant)
    requires Forked(plant.topo, s, k, nodes, i, t, way)
    ensures IsRun(plant, run) && Overtaken(plant.topo, s, k, run.states[|run.states| - 1])
  {
    IsTrail(plant, s, k, nodes);
    var w := GetsToFork(plant, s, k, nodes, i);
    var u := Overtakes(plant, w, s, k, nodes, i, t, way[i + 1]);
    Then(plant, Beginning(s, k), w, u);
    BeginsInit(s, k);
    run := AsRun(plant, Beginning(s, k), u);
    EarlyEvent(s, u.net);
    StaysUnderway(plant.topo, s, k, u.net, way, i + 1);
  }

  lemma IsTrail(plant: Plant, s: Uid, k: Uid, nodes: seq<Node>)
    requires WellFormed(plant.topo) && Walk(plant.topo, s, k, nodes) && Distinct(nodes)
    ensures Trail(plant, s, k, nodes)
  {
    assert MayFeed(nodes[0], nodes[1]);
  }

  /**
   A source may rely on the acknowledgement of a sink, whatever events the pipelines let pass and in
   every run, if and only if there is one way through the tasks from the source to the sink.
   */
  lemma SafeIff(topo: Topology, s: Uid, k: Uid)
    requires WellFormed(topo)
    ensures Safe(topo, s, k) <==> OnlyWalk(topo, s, k)
  {
    if OnlyWalk(topo, s, k) {
      forall plant: Plant, run, n: nat | plant.topo.outs == topo.outs && IsRun(plant, run) && n < |run.states|
        ensures !Overtaken(plant.topo, s, k, run.states[n])
      {
        SameLinks(topo, plant.topo, s, k);
        OnlyWalkIsSafe(plant, s, k, run, n);
      }
    } else {
      var a, b :| Walk(topo, s, k, a) && Walk(topo, s, k, b) && a != b;
      TwoWaysAreUnsafe(topo, s, k, a, b);
    }
  }

  lemma SameLinks(topo: Topology, other: Topology, s: Uid, k: Uid)
    requires topo.outs == other.outs
    ensures WellFormed(topo) ==> WellFormed(other)
    ensures OnlyWalk(topo, s, k) ==> OnlyWalk(other, s, k)
    ensures forall nodes :: Walk(topo, s, k, nodes) ==> Walk(other, s, k, nodes)
  {
    assert forall n :: Outs(topo, n) == Outs(other, n);
    assert forall nodes :: Walk(topo, s, k, nodes) <==> Walk(other, s, k, nodes);
  }

  lemma TwoWaysAreUnsafe(topo: Topology, s: Uid, k: Uid, a: seq<Node>, b: seq<Node>)
    requires WellFormed(topo) && Walk(topo, s, k, a) && Walk(topo, s, k, b) && a != b
    ensures !Safe(topo, s, k)
  {
    var plant := Broadcasting(topo);
    BroadcastingMirrors(topo);
    SameLinks(topo, plant.topo, s, k);
    var nodes := Simplified(plant.topo, s, k, a);
    var i, t, way := Fork(plant.topo, s, k, nodes, if nodes == a then b else a);
    var run := ForkIsUnsafe(plant, s, k, nodes, i, t, way);
  }
}
