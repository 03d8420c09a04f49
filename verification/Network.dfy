/**
 Forward flow: every task owns one FIFO inbox and, while it hands messages on, a list of sends
 that still have to be made. Sends happen one at a time, so that any two tasks can interleave.
 The result of this module is that along the only path from a source to a sink messages are
 neither lost, nor reordered, nor duplicated beyond the links that carry them (`Conserved`),
 whatever the schedule.
 */
module Network {
  import opened Protocol

  /**
   `outs` are the links of a task, one for each pair of an output port and a destination; a task may
   have several links to one destination. `routes` says which events go over which link.
   */
  datatype Topology = Topology(outs: map<Node, seq<Node>>, routes: (Node, nat, nat) -> bool)

  function Outs(topo: Topology, n: Node): seq<Node> {
    if n in topo.outs then topo.outs[n] else []
  }

  /** Signals go over all links, except that a pipeline does not send them to itself. */
  predicate Passes(topo: Topology, n: Node, link: nat, x: Item)
    requires link < |Outs(topo, n)|
  {
    x.Packet? && if x.body.Data? then topo.routes(n, link, x.body.event) else Outs(topo, n)[link] != n
  }

  /** `sent` and `log` are histories: what each source ever sent, what each sink ever handled. */
  datatype Net = Net(
    inq: map<Node, seq<Item>>,
    out: map<Node, seq<(Node, Item)>>,
    sent: map<Uid, seq<Item>>,
    log: map<Uid, seq<Item>>)

  const EMPTY := Net(map[], map[], map[], map[])

  function Inbox(net: Net, n: Node): seq<Item> {
    if n in net.inq then net.inq[n] else []
  }

  function Outbox(net: Net, n: Node): seq<(Node, Item)> {
    if n in net.out then net.out[n] else []
  }

  function Sent(net: Net, s: Uid): seq<Item> {
    if s in net.sent then net.sent[s] else []
  }

  function Log(net: Net, k: Uid): seq<Item> {
    if k in net.log then net.log[k] else []
  }

  // ----- steps

  /** The sends a task makes for one message, over its links from `link` on. */
  function Copies(topo: Topology, n: Node, link: nat, x: Item): seq<(Node, Item)>
    decreases |Outs(topo, n)| - link
  {
    if link >= |Outs(topo, n)| then []
    else if Passes(topo, n, link, x) then [(Outs(topo, n)[link], x)] + Copies(topo, n, link + 1, x)
    else Copies(topo, n, link + 1, x)
  }

  /** A source sends `body` over its links. */
  function Emit(topo: Topology, net: Net, s: Uid, body: Body): Net {
    var x := Packet(s, body);
    var n := SourceNode(s);
    net.(sent := net.sent[s := Sent(net, s) + [x]],
         out := net.out[n := Outbox(net, n) + Copies(topo, n, 0, x)])
  }

  /** The oldest pending send of `n` reaches its destination's inbox. */
  function Deliver(net: Net, n: Node): Net
    requires Outbox(net, n) != []
  {
    var (d, x) := Outbox(net, n)[0];
    net.(out := net.out[n := Outbox(net, n)[1..]], inq := net.inq[d := Inbox(net, d) + [x]])
  }

  /** A pipeline takes its oldest message and hands it on. */
  function Forward(topo: Topology, net: Net, p: nat): Net
    requires Inbox(net, PipeNode(p)) != []
  {
    var n := PipeNode(p);
    var x := Inbox(net, n)[0];
    net.(inq := net.inq[n := Inbox(net, n)[1..]], out := net.out[n := Outbox(net, n) + Copies(topo, n, 0, x)])
  }

  /** A sink takes its oldest message. */
  function Consume(net: Net, k: Uid): Net
    requires Inbox(net, SinkNode(k)) != []
  {
    var n := SinkNode(k);
    net.(inq := net.inq[n := Inbox(net, n)[1..]], log := net.log[k := Log(net, k) + [Inbox(net, n)[0]]])
  }

  /** The control plane puts a message into the inbox of a sink. */
  function Inject(net: Net, k: Uid, msg: SinkControl): Net {
    var n := SinkNode(k);
    net.(inq := net.inq[n := Inbox(net, n) + [Control(msg)]])
  }

  // ----- the only path from a source to a sink

  /** A path `nodes` from source `s` to sink `k`, inside the set `reach` of tasks `s` can reach. */
  datatype Route = Route(s: Uid, k: Uid, nodes: seq<Node>, reach: set<Node>)

  /** Task `i` is fed by task `i - 1` and by nothing else that `r.s` can reach. */
  ghost predicate Hop(topo: Topology, r: Route, i: nat)
    requires 0 < i < |r.nodes|
  {
    && r.nodes[i] in Outs(topo, r.nodes[i - 1])
    && (forall n :: n in r.reach && r.nodes[i] in Outs(topo, n) ==> n == r.nodes[i - 1])
  }

  ghost predicate Distinct(nodes: seq<Node>) {
    forall i, j :: 0 <= i < j < |nodes| ==> nodes[i] != nodes[j]
  }

  /** A source, then pipelines, then a sink. */
  ghost predicate Shape(s: Uid, k: Uid, nodes: seq<Node>) {
    && |nodes| >= 2
    && nodes[0] == SourceNode(s)
    && nodes[|nodes| - 1] == SinkNode(k)
    && (forall i :: 0 < i < |nodes| - 1 ==> nodes[i].PipeNode?)
  }

  /** `r.reach` holds the source and whatever its members send to. */
  ghost predicate Closed(topo: Topology, r: Route) {
    && SourceNode(r.s) in r.reach
    && (forall n, d :: n in r.reach && d in Outs(topo, n) ==> d in r.reach)
  }

  /** `r` is a path without a task twice, and nothing else that `r.s` can reach feeds a task on it. */
  ghost predicate SolePath(topo: Topology, r: Route) {
    && Shape(r.s, r.k, r.nodes) && Distinct(r.nodes) && Closed(topo, r)
    && forall i :: 0 < i < |r.nodes| ==> Hop(topo, r, i)
  }

  /** In how many ways, over parallel links, a message gets from task `i` of a path to its end. */
  ghost function Ways(topo: Topology, nodes: seq<Node>, i: nat, x: Item): nat
    requires i < |nodes|
    decreases |nodes| - i, 1, 0
  {
    if i == |nodes| - 1 then 1 else LinkWays(topo, nodes, i, 0, x)
  }

  ghost function LinkWays(topo: Topology, nodes: seq<Node>, i: nat, link: nat, x: Item): nat
    requires i + 1 < |nodes|
    decreases |nodes| - i, 0, |Outs(topo, nodes[i])| - link
  {
    var links := Outs(topo, nodes[i]);
    if link >= |links| then 0
    else
      (if links[link] == nodes[i + 1] && Passes(topo, nodes[i], link, x) then Ways(topo, nodes, i + 1, x) else 0)
      + LinkWays(topo, nodes, i, link + 1, x)
  }

  type Weight = Item -> nat

  /** What a message of `r.s` at task `i` of the path amounts to at its end; messages of others count nothing. */
  ghost function WeightAt(topo: Topology, r: Route, i: nat): Weight
    requires i < |r.nodes|
  {
    (x: Item) => if x.Packet? && x.origin == r.s then Ways(topo, r.nodes, i, x) else 0
  }

  ghost function Weights(topo: Topology, r: Route): (ws: seq<Weight>)
    ensures |ws| == |r.nodes|
  {
    seq(|r.nodes|, i requires 0 <= i < |r.nodes| => WeightAt(topo, r, i))
  }

  ghost function Rep(n: nat, x: Item): seq<Item> {
    seq(n, _ => x)
  }

  ghost function Scale(w: Weight, xs: seq<Item>): seq<Item> {
    if xs == [] then [] else Rep(w(xs[0]), xs[0]) + Scale(w, xs[1..])
  }

  /** The same for sends, those to `d`. */
  ghost function ScaleTo(w: Weight, d: Node, es: seq<(Node, Item)>): seq<Item> {
    if es == [] then []
    else (if es[0].0 == d then Rep(w(es[0].1), es[0].1) else []) + ScaleTo(w, d, es[1..])
  }

  /** What is between the outbox of task `j - 1` and the front of the inbox of task `j`, oldest first. */
  ghost function Segment(ws: seq<Weight>, nodes: seq<Node>, net: Net, j: nat): seq<Item>
    requires 0 < j < |nodes| == |ws|
  {
    Scale(ws[j], Inbox(net, nodes[j])) + ScaleTo(ws[j], nodes[j], Outbox(net, nodes[j - 1]))
  }

  /** The segments from the source's side to the sink's side. */
  ghost function Segments(ws: seq<Weight>, nodes: seq<Node>, net: Net): (segs: seq<seq<Item>>)
    requires 2 <= |nodes| == |ws|
    ensures |segs| == |nodes| - 1
  {
    seq(|nodes| - 1, j requires 0 <= j < |nodes| - 1 => Segment(ws, nodes, net, j + 1))
  }

  /** The concatenation of `segs`, last one first. */
  ghost function Back(segs: seq<seq<Item>>): seq<Item> {
    if segs == [] then [] else segs[|segs| - 1] + Back(segs[..|segs| - 1])
  }

  /** Everything in flight along the path, oldest first, as often as it will arrive. */
  ghost function InFlight(topo: Topology, r: Route, net: Net): seq<Item>
    requires |r.nodes| >= 2
  {
    Back(Segments(Weights(topo, r), r.nodes, net))
  }

  /** What the sink should get for `xs` from the source: each message as often as links carry it. */
  ghost function Due(topo: Topology, r: Route, xs: seq<Item>): seq<Item>
    requires |r.nodes| >= 2
  {
    Scale(Weights(topo, r)[0], xs)
  }

  /** The messages from the source among those the sink has got. */
  ghost function Own(topo: Topology, r: Route, xs: seq<Item>): seq<Item>
    requires |r.nodes| >= 2
  {
    Scale(Weights(topo, r)[|r.nodes| - 1], xs)
  }

  /** Messages of `r.s` exist only where `r.s` can reach. */
  ghost predicate Contained(topo: Topology, r: Route, net: Net) {
    && (forall n, x :: x in Inbox(net, n) && x.Packet? && x.origin == r.s ==> n in r.reach)
    && (forall n, e :: e in Outbox(net, n) && e.1.Packet? && e.1.origin == r.s ==> n in r.reach && e.0 in Outs(topo, n))
  }

  /** Handled, then in flight, is exactly what was sent. */
  ghost predicate Adds(ws: seq<Weight>, nodes: seq<Node>, net: Net, log: seq<Item>, sent: seq<Item>)
    requires 2 <= |nodes| == |ws|
  {
    Scale(ws[|ws| - 1], log) + Back(Segments(ws, nodes, net)) == Scale(ws[0], sent)
  }

  ghost predicate Balanced(topo: Topology, r: Route, net: Net)
    requires |r.nodes| >= 2
  {
    Adds(Weights(topo, r), r.nodes, net, Log(net, r.k), Sent(net, r.s))
  }

  ghost predicate Conserved(topo: Topology, r: Route, net: Net)
    requires |r.nodes| >= 2
  {
    Contained(topo, r, net) && Balanced(topo, r, net)
  }

  // ----- scaling distributes over concatenation

  lemma Assoc(xs: seq<Item>, ys: seq<Item>, zs: seq<Item>)
    ensures (xs + ys) + zs == xs + (ys + zs)
  {
  }

  lemma {:induction false} ScaleAppend(w: Weight, xs: seq<Item>, ys: seq<Item>)
    ensures Scale(w, xs + ys) == Scale(w, xs) + Scale(w, ys)
  {
    if xs == [] {
      assert xs + ys == ys;
    } else {
      ScaleAppend(w, xs[1..], ys);
      assert (xs + ys)[1..] == xs[1..] + ys;
      Assoc(Rep(w(xs[0]), xs[0]), Scale(w, xs[1..]), Scale(w, ys));
    }
  }

  lemma {:induction false} ScaleToAppend(w: Weight, d: Node, xs: seq<(Node, Item)>, ys: seq<(Node, Item)>)
    ensures ScaleTo(w, d, xs + ys) == ScaleTo(w, d, xs) + ScaleTo(w, d, ys)
  {
    if xs == [] {
      assert xs + ys == ys;
    } else {
      ScaleToAppend(w, d, xs[1..], ys);
      assert (xs + ys)[1..] == xs[1..] + ys;
      Assoc(if xs[0].0 == d then Rep(w(xs[0].1), xs[0].1) else [], ScaleTo(w, d, xs[1..]), ScaleTo(w, d, ys));
    }
  }

  lemma {:induction false} ScaleMember(w: Weight, xs: seq<Item>, x: Item)
    ensures x in Scale(w, xs) <==> x in xs && w(x) > 0
  {
    if xs != [] {
      ScaleMember(w, xs[1..], x);
      assert xs == [xs[0]] + xs[1..];
      assert x in Rep(w(xs[0]), xs[0]) <==> x == xs[0] && w(x) > 0 by {
        if x == xs[0] && w(x) > 0 {
          assert Rep(w(x), x)[0] == x;
        }
      }
    }
  }

  lemma ScaleOne(w: Weight, x: Item)
    ensures Scale(w, [x]) == Rep(w(x), x)
  {
    assert [x][1..] == [] && Rep(w(x), x) + [] == Rep(w(x), x);
  }

  lemma ScaleCons(w: Weight, xs: seq<Item>)
    requires xs != []
    ensures Scale(w, xs) == Scale(w, [xs[0]]) + Scale(w, xs[1..])
  {
    ScaleOne(w, xs[0]);
  }

  lemma ScaleToCons(w: Weight, d: Node, es: seq<(Node, Item)>)
    requires es != []
    ensures ScaleTo(w, d, es) == (if es[0].0 == d then Scale(w, [es[0].1]) else []) + ScaleTo(w, d, es[1..])
  {
    ScaleOne(w, es[0].1);
  }

  // ----- the copies a task makes

  lemma {:induction false} CopiesWeigh(topo: Topology, r: Route, j: nat, link: nat, x: Item)
    requires 0 < j < |r.nodes| && x.Packet? && x.origin == r.s
    ensures ScaleTo(WeightAt(topo, r, j), r.nodes[j], Copies(topo, r.nodes[j - 1], link, x))
            == Rep(LinkWays(topo, r.nodes, j - 1, link, x), x)
    decreases |Outs(topo, r.nodes[j - 1])| - link
  {
    var n, w := r.nodes[j - 1], WeightAt(topo, r, j);
    if link < |Outs(topo, n)| {
      var rest := Copies(topo, n, link + 1, x);
      CopiesWeigh(topo, r, j, link + 1, x);
      if Passes(topo, n, link, x) {
        assert ([(Outs(topo, n)[link], x)] + rest)[1..] == rest;
      }
    }
  }

  lemma {:induction false} CopiesOfOthers(topo: Topology, r: Route, j: nat, link: nat, x: Item)
    requires 0 < j < |r.nodes| && !(x.Packet? && x.origin == r.s)
    ensures ScaleTo(WeightAt(topo, r, j), r.nodes[j], Copies(topo, r.nodes[j - 1], link, x)) == []
    decreases |Outs(topo, r.nodes[j - 1])| - link
  {
    var n := r.nodes[j - 1];
    if link < |Outs(topo, n)| {
      var rest := Copies(topo, n, link + 1, x);
      CopiesOfOthers(topo, r, j, link + 1, x);
      if Passes(topo, n, link, x) {
        assert ([(Outs(topo, n)[link], x)] + rest)[1..] == rest;
      }
    }
  }

  /** The copies a task on the path makes for its successor amount to what the message did. */
  lemma CopiesOnPath(topo: Topology, r: Route, j: nat, x: Item)
    requires 0 < j < |r.nodes|
    ensures var ws := Weights(topo, r);
            ScaleTo(ws[j], r.nodes[j], Copies(topo, r.nodes[j - 1], 0, x)) == Scale(ws[j - 1], [x])
  {
    ScaleOne(WeightAt(topo, r, j - 1), x);
    if x.Packet? && x.origin == r.s {
      CopiesWeigh(topo, r, j, 0, x);
    } else {
      CopiesOfOthers(topo, r, j, 0, x);
    }
  }

  lemma {:induction false} CopiesTargets(topo: Topology, n: Node, link: nat, x: Item, e: (Node, Item))
    requires e in Copies(topo, n, link, x)
    ensures e.0 in Outs(topo, n) && e.1 == x && x.Packet?
    decreases |Outs(topo, n)| - link
  {
    if !Passes(topo, n, link, x) || e != (Outs(topo, n)[link], x) {
      CopiesTargets(topo, n, link + 1, x, e);
    }
  }

  /** A link leads to `d` and takes `x`: an event if that is its route, a signal if `d` is another task. */
  predicate LinkTakes(topo: Topology, n: Node, link: nat, d: Node, x: Item)
    requires link < |Outs(topo, n)|
  {
    Outs(topo, n)[link] == d && x.Packet? && if x.body.Data? then topo.routes(n, link, x.body.event) else d != n
  }

  /** How many links of `n`, from `link` on, do so. */
  function Links(topo: Topology, n: Node, link: nat, d: Node, x: Item): nat
    decreases |Outs(topo, n)| - link
  {
    if link >= |Outs(topo, n)| then 0
    else (if LinkTakes(topo, n, link, d, x) then 1 else 0) + Links(topo, n, link + 1, d, x)
  }

  lemma CopiesNext(topo: Topology, n: Node, link: nat, x: Item, d: Node, y: Item)
    requires link < |Outs(topo, n)|
    ensures multiset(Copies(topo, n, link, x))[(d, y)]
            == (if y == x && LinkTakes(topo, n, link, d, x) then 1 else 0) + multiset(Copies(topo, n, link + 1, x))[(d, y)]
  {
    if Passes(topo, n, link, x) {
      CountFront((Outs(topo, n)[link], x), Copies(topo, n, link + 1, x), (d, y));
    }
  }

  /** A task makes one copy for each such link, of that message and no other. */
  lemma {:induction false} CopiesAre(topo: Topology, n: Node, link: nat, x: Item, d: Node, y: Item)
    ensures multiset(Copies(topo, n, link, x))[(d, y)] == if y == x then Links(topo, n, link, d, x) else 0
    decreases |Outs(topo, n)| - link
  {
    if link < |Outs(topo, n)| {
      CopiesAre(topo, n, link + 1, x, d, y);
      CopiesNext(topo, n, link, x, d, y);
    }
  }

  lemma CountFront<T>(e: T, rest: seq<T>, f: T)
    ensures multiset([e] + rest)[f] == (if e == f then 1 else 0) + multiset(rest)[f]
  {
  }

  // ----- how the flight changes when segments change

  /** Moving messages from segment `i` to segment `i + 1` leaves the flight as it was. */
  lemma {:induction false} BackShift(segs: seq<seq<Item>>, i: nat, xs: seq<Item>, lower: seq<Item>)
    requires i + 1 < |segs|
    requires segs[i] == xs + lower
    ensures Back(segs[i := lower][i + 1 := segs[i + 1] + xs]) == Back(segs)
  {
    var upper := segs[i + 1] + xs;
    var segs' := segs[i := lower][i + 1 := upper];
    var last := |segs| - 1;
    if last == i + 1 {
      var rest := segs[..i];
      assert segs[..last][..i] == rest == segs'[..last][..i];
      assert Back(segs) == segs[i + 1] + (segs[i] + Back(rest)) == (segs[i + 1] + segs[i]) + Back(rest);
      assert Back(segs') == upper + (lower + Back(rest)) == (upper + lower) + Back(rest);
      assert upper + lower == segs[i + 1] + segs[i];
    } else {
      BackShift(segs[..last], i, xs, lower);
      assert segs'[..last] == segs[..last][i := lower][i + 1 := upper];
    }
  }

  /** New messages enter the flight behind all others. */
  lemma {:induction false} BackEnter(segs: seq<seq<Item>>, xs: seq<Item>)
    requires segs != []
    ensures Back(segs[0 := segs[0] + xs]) == Back(segs) + xs
  {
    var segs' := segs[0 := segs[0] + xs];
    var last := |segs| - 1;
    if last > 0 {
      BackEnter(segs[..last], xs);
      assert segs'[..last] == segs[..last][0 := segs[0] + xs];
    }
  }

  /** Messages leave the flight at its front. */
  lemma BackLeave(segs: seq<seq<Item>>, xs: seq<Item>, rest: seq<Item>)
    requires segs != [] && segs[|segs| - 1] == xs + rest
    ensures xs + Back(segs[|segs| - 1 := rest]) == Back(segs)
  {
    assert segs[|segs| - 1 := rest][..|segs| - 1] == segs[..|segs| - 1];
  }

  lemma {:induction false} BackEmpty(segs: seq<seq<Item>>)
    requires forall i :: 0 <= i < |segs| ==> segs[i] == []
    ensures Back(segs) == []
  {
    if segs != [] {
      BackEmpty(segs[..|segs| - 1]);
    }
  }

  lemma {:induction false} BackMember(segs: seq<seq<Item>>, i: nat, x: Item)
    requires i < |segs| && x in segs[i]
    ensures x in Back(segs)
  {
    if i < |segs| - 1 {
      BackMember(segs[..|segs| - 1], i, x);
    }
  }

  // ----- how the segments change when a step is made

  /** A task on a path that differs from `n`. */
  ghost predicate Apart(nodes: seq<Node>, n: Node) {
    forall i :: 0 <= i < |nodes| ==> nodes[i] != n
  }

  /** Only segment `j` changed. */
  lemma SegmentsUpdate(ws: seq<Weight>, nodes: seq<Node>, net: Net, net': Net, j: nat)
    requires 0 < j < |nodes| == |ws|
    requires forall i :: 0 < i < |nodes| && i != j ==> Segment(ws, nodes, net', i) == Segment(ws, nodes, net, i)
    ensures Segments(ws, nodes, net') == Segments(ws, nodes, net)[j - 1 := Segment(ws, nodes, net', j)]
  {
    var a, b := Segments(ws, nodes, net), Segments(ws, nodes, net');
    SegmentAt(ws, nodes, net', j - 1);
    forall i | 0 <= i < |b| && i != j - 1
      ensures b[i] == a[i]
    {
      SegmentAt(ws, nodes, net, i);
      SegmentAt(ws, nodes, net', i);
    }
    Replaced(a, b, j - 1, Segment(ws, nodes, net', j));
  }

  lemma SegmentAt(ws: seq<Weight>, nodes: seq<Node>, net: Net, i: nat)
    requires 2 <= |nodes| == |ws| && i < |nodes| - 1
    ensures Segments(ws, nodes, net)[i] == Segment(ws, nodes, net, i + 1)
  {
  }

  lemma Replaced<T>(a: seq<T>, b: seq<T>, j: nat, x: T)
    requires j < |a| == |b| && b[j] == x && forall i :: 0 <= i < |b| && i != j ==> b[i] == a[i]
    ensures b == a[j := x]
  {
  }

  lemma SegmentsSame(ws: seq<Weight>, nodes: seq<Node>, net: Net, net': Net)
    requires 2 <= |nodes| == |ws|
    requires forall i :: 0 < i < |nodes| ==> Segment(ws, nodes, net', i) == Segment(ws, nodes, net, i)
    ensures Segments(ws, nodes, net') == Segments(ws, nodes, net)
  {
  }

  /** The outbox of a task off the path changed. */
  lemma ApartOutbox(ws: seq<Weight>, nodes: seq<Node>, net: Net, n: Node, es: seq<(Node, Item)>)
    requires 2 <= |nodes| == |ws| && Apart(nodes, n)
    ensures Segments(ws, nodes, net.(out := net.out[n := es])) == Segments(ws, nodes, net)
  {
    SegmentsSame(ws, nodes, net, net.(out := net.out[n := es]));
  }

  /** The inbox of a task off the path changed. */
  lemma ApartInbox(ws: seq<Weight>, nodes: seq<Node>, net: Net, n: Node, xs: seq<Item>)
    requires 2 <= |nodes| == |ws| && Apart(nodes, n)
    ensures Segments(ws, nodes, net.(inq := net.inq[n := xs])) == Segments(ws, nodes, net)
  {
    SegmentsSame(ws, nodes, net, net.(inq := net.inq[n := xs]));
  }

  /** The histories do not matter for what is in flight. */
  lemma SegmentsHistory(ws: seq<Weight>, nodes: seq<Node>, net: Net, net': Net)
    requires 2 <= |nodes| == |ws| && net'.inq == net.inq && net'.out == net.out
    ensures Segments(ws, nodes, net') == Segments(ws, nodes, net)
  {
    SegmentsSame(ws, nodes, net, net');
  }

  lemma SegmentGrew(ws: seq<Weight>, nodes: seq<Node>, net: Net, net': Net, j: nat, es: seq<(Node, Item)>)
    requires 0 < j < |nodes| == |ws| && Inbox(net', nodes[j]) == Inbox(net, nodes[j])
    requires Outbox(net', nodes[j - 1]) == Outbox(net, nodes[j - 1]) + es
    ensures Segment(ws, nodes, net', j) == Segment(ws, nodes, net, j) + ScaleTo(ws[j], nodes[j], es)
  {
    var w, d := ws[j], nodes[j];
    ScaleToAppend(w, d, Outbox(net, nodes[j - 1]), es);
    Assoc(Scale(w, Inbox(net, d)), ScaleTo(w, d, Outbox(net, nodes[j - 1])), ScaleTo(w, d, es));
  }

  lemma SegmentAway(ws: seq<Weight>, nodes: seq<Node>, net: Net, j: nat, es: seq<(Node, Item)>, i: nat)
    requires Distinct(nodes) && 0 < j < |nodes| == |ws| && 0 < i < |nodes| && i != j
    ensures Segment(ws, nodes, net.(out := net.out[nodes[j - 1] := es]), i) == Segment(ws, nodes, net, i)
  {
    assert nodes[i - 1] != nodes[j - 1];
  }

  /** The outbox of task `j - 1` grew by `es`. */
  lemma SegmentsOutboxGrew(ws: seq<Weight>, nodes: seq<Node>, net: Net, j: nat, es: seq<(Node, Item)>)
    requires Distinct(nodes) && 0 < j < |nodes| == |ws|
    ensures Segments(ws, nodes, net.(out := net.out[nodes[j - 1] := Outbox(net, nodes[j - 1]) + es]))
            == Segments(ws, nodes, net)[j - 1 := Segment(ws, nodes, net, j) + ScaleTo(ws[j], nodes[j], es)]
  {
    var out := Outbox(net, nodes[j - 1]) + es;
    var net' := net.(out := net.out[nodes[j - 1] := out]);
    SegmentGrew(ws, nodes, net, net', j, es);
    forall i | 0 < i < |nodes| && i != j
      ensures Segment(ws, nodes, net', i) == Segment(ws, nodes, net, i)
    {
      SegmentAway(ws, nodes, net, j, out, i);
    }
    SegmentsUpdate(ws, nodes, net, net', j);
  }

  /** Task `j` took the oldest message from its inbox. */
  lemma SegmentsTook(ws: seq<Weight>, nodes: seq<Node>, net: Net, j: nat)
    requires Distinct(nodes) && 0 < j < |nodes| == |ws| && Inbox(net, nodes[j]) != []
    ensures var x, net' := Inbox(net, nodes[j])[0], net.(inq := net.inq[nodes[j] := Inbox(net, nodes[j])[1..]]);
            && Segments(ws, nodes, net') == Segments(ws, nodes, net)[j - 1 := Segment(ws, nodes, net', j)]
            && Segments(ws, nodes, net)[j - 1] == Scale(ws[j], [x]) + Segment(ws, nodes, net', j)
  {
    var net' := net.(inq := net.inq[nodes[j] := Inbox(net, nodes[j])[1..]]);
    SegmentTook(ws, nodes, net, j);
    forall i | 0 < i < |nodes| && i != j
      ensures Segment(ws, nodes, net', i) == Segment(ws, nodes, net, i)
    {
      InboxAway(ws, nodes, net, j, Inbox(net, nodes[j])[1..], i);
    }
    SegmentsUpdate(ws, nodes, net, net', j);
  }

  lemma InboxAway(ws: seq<Weight>, nodes: seq<Node>, net: Net, j: nat, xs: seq<Item>, i: nat)
    requires Distinct(nodes) && 0 < j < |nodes| == |ws| && 0 < i < |nodes| && i != j
    ensures Segment(ws, nodes, net.(inq := net.inq[nodes[j] := xs]), i) == Segment(ws, nodes, net, i)
  {
    assert nodes[i] != nodes[j];
  }

  lemma SegmentTook(ws: seq<Weight>, nodes: seq<Node>, net: Net, j: nat)
    requires 0 < j < |nodes| == |ws| && Inbox(net, nodes[j]) != []
    ensures var x, net' := Inbox(net, nodes[j])[0], net.(inq := net.inq[nodes[j] := Inbox(net, nodes[j])[1..]]);
            Segment(ws, nodes, net, j) == Scale(ws[j], [x]) + Segment(ws, nodes, net', j)
  {
    var x, rest := Inbox(net, nodes[j])[0], Inbox(net, nodes[j])[1..];
    ScaleCons(ws[j], Inbox(net, nodes[j]));
    Assoc(Scale(ws[j], [x]), Scale(ws[j], rest), ScaleTo(ws[j], nodes[j], Outbox(net, nodes[j - 1])));
  }

  // ----- every step keeps messages inside `reach`

  lemma CopiesContained(topo: Topology, r: Route, net: Net, n: Node, x: Item)
    requires Closed(topo, r) && Contained(topo, r, net)
    requires x.Packet? && x.origin == r.s ==> n in r.reach
    ensures Contained(topo, r, net.(out := net.out[n := Outbox(net, n) + Copies(topo, n, 0, x)]))
  {
    var net' := net.(out := net.out[n := Outbox(net, n) + Copies(topo, n, 0, x)]);
    forall m, e | e in Outbox(net', m) && e.1.Packet? && e.1.origin == r.s
      ensures m in r.reach && e.0 in Outs(topo, m)
    {
      if m == n && e !in Outbox(net, n) {
        CopiesTargets(topo, n, 0, x, e);
      }
    }
    assert forall m :: Inbox(net', m) == Inbox(net, m);
  }

  lemma TakenContained(topo: Topology, r: Route, net: Net, n: Node)
    requires Contained(topo, r, net) && Inbox(net, n) != []
    ensures Contained(topo, r, net.(inq := net.inq[n := Inbox(net, n)[1..]]))
    ensures var x := Inbox(net, n)[0]; x.Packet? && x.origin == r.s ==> n in r.reach
  {
    var net' := net.(inq := net.inq[n := Inbox(net, n)[1..]]);
    assert Inbox(net, n)[0] in Inbox(net, n);
    assert forall m :: Outbox(net', m) == Outbox(net, m);
    assert forall m, x :: x in Inbox(net', m) ==> x in Inbox(net, m);
  }

  lemma HistoryContained(topo: Topology, r: Route, net: Net, net': Net)
    requires Contained(topo, r, net) && net'.inq == net.inq && net'.out == net.out
    ensures Contained(topo, r, net')
  {
    assert forall n :: Inbox(net', n) == Inbox(net, n) && Outbox(net', n) == Outbox(net, n);
  }

  lemma EmitContained(topo: Topology, r: Route, net: Net, s: Uid, body: Body)
    requires Closed(topo, r) && Contained(topo, r, net)
    ensures Contained(topo, r, Emit(topo, net, s, body))
  {
    CopiesContained(topo, r, net, SourceNode(s), Packet(s, body));
    HistoryContained(topo, r, net.(out := Emit(topo, net, s, body).out), Emit(topo, net, s, body));
  }

  lemma DeliverContained(topo: Topology, r: Route, net: Net, n: Node)
    requires Closed(topo, r) && Contained(topo, r, net) && Outbox(net, n) != []
    ensures Contained(topo, r, Deliver(net, n))
  {
    var net' := Deliver(net, n);
    assert Outbox(net, n)[0] in Outbox(net, n);
    assert forall m, e :: e in Outbox(net', m) ==> e in Outbox(net, m);
  }

  lemma ForwardContained(topo: Topology, r: Route, net: Net, p: nat)
    requires Closed(topo, r) && Contained(topo, r, net) && Inbox(net, PipeNode(p)) != []
    ensures Contained(topo, r, Forward(topo, net, p))
  {
    var n := PipeNode(p);
    TakenContained(topo, r, net, n);
    CopiesContained(topo, r, net.(inq := net.inq[n := Inbox(net, n)[1..]]), n, Inbox(net, n)[0]);
  }

  lemma ConsumeContained(topo: Topology, r: Route, net: Net, k: Uid)
    requires Contained(topo, r, net) && Inbox(net, SinkNode(k)) != []
    ensures Contained(topo, r, Consume(net, k))
  {
    TakenContained(topo, r, net, SinkNode(k));
  }

  // ----- every step keeps the balance

  lemma EmitOnPath(ws: seq<Weight>, nodes: seq<Node>, net: Net, x: Item, es: seq<(Node, Item)>, log: seq<Item>, sent: seq<Item>)
    requires Distinct(nodes) && 2 <= |nodes| == |ws|
    requires ScaleTo(ws[1], nodes[1], es) == Scale(ws[0], [x])
    requires Adds(ws, nodes, net, log, sent)
    ensures Adds(ws, nodes, net.(out := net.out[nodes[0] := Outbox(net, nodes[0]) + es]), log, sent + [x])
  {
    SegmentsOutboxGrew(ws, nodes, net, 1, es);
    BackEnter(Segments(ws, nodes, net), Scale(ws[0], [x]));
    ScaleAppend(ws[0], sent, [x]);
    Assoc(Scale(ws[|ws| - 1], log), Back(Segments(ws, nodes, net)), Scale(ws[0], [x]));
  }

  lemma EmitBalanced(topo: Topology, r: Route, net: Net, s: Uid, body: Body)
    requires SolePath(topo, r) && Balanced(topo, r, net)
    ensures Balanced(topo, r, Emit(topo, net, s, body))
  {
    var net' := Emit(topo, net, s, body);
    var ws, x, n := Weights(topo, r), Packet(s, body), SourceNode(s);
    if s == r.s {
      CopiesOnPath(topo, r, 1, x);
      EmitOnPath(ws, r.nodes, net, x, Copies(topo, n, 0, x), Log(net, r.k), Sent(net, r.s));
    } else {
      ApartOutbox(ws, r.nodes, net, n, Outbox(net', n));
    }
    SegmentsHistory(ws, r.nodes, net.(out := net'.out), net');
  }

  /** A send from `n` to `m` moves from the outbox to the inbox of one segment. */
  lemma DeliverHere(w: Weight, m: Node, inbox: seq<Item>, outbox: seq<(Node, Item)>)
    requires outbox != [] && outbox[0].0 == m
    ensures Scale(w, inbox + [outbox[0].1]) + ScaleTo(w, m, outbox[1..]) == Scale(w, inbox) + ScaleTo(w, m, outbox)
  {
    var x := outbox[0].1;
    ScaleToCons(w, m, outbox);
    ScaleAppend(w, inbox, [x]);
    Assoc(Scale(w, inbox), Scale(w, [x]), ScaleTo(w, m, outbox[1..]));
  }

  lemma DeliverElsewhere(w: Weight, m: Node, inbox: seq<Item>, outbox: seq<(Node, Item)>)
    requires outbox != [] && (outbox[0].0 != m || w(outbox[0].1) == 0)
    ensures ScaleTo(w, m, outbox[1..]) == ScaleTo(w, m, outbox)
    ensures w(outbox[0].1) == 0 ==> Scale(w, inbox + [outbox[0].1]) == Scale(w, inbox)
  {
    ScaleToCons(w, m, outbox);
    ScaleOne(w, outbox[0].1);
    ScaleAppend(w, inbox, [outbox[0].1]);
  }

  lemma DeliverSegment(ws: seq<Weight>, nodes: seq<Node>, net: Net, n: Node, i: nat)
    requires Outbox(net, n) != [] && 0 < i < |nodes| == |ws|
    requires var (d, x) := Outbox(net, n)[0]; d == nodes[i] && ws[i](x) > 0 ==> n == nodes[i - 1]
    ensures Segment(ws, nodes, Deliver(net, n), i) == Segment(ws, nodes, net, i)
  {
    var (d, x) := Outbox(net, n)[0];
    if d == nodes[i] && ws[i](x) > 0 {
      DeliverHere(ws[i], nodes[i], Inbox(net, nodes[i]), Outbox(net, n));
    } else {
      DeliverElsewhere(ws[i], nodes[i], Inbox(net, nodes[i]), Outbox(net, n));
    }
  }

  lemma DeliverOnPath(topo: Topology, r: Route, net: Net, n: Node, i: nat)
    requires SolePath(topo, r) && Contained(topo, r, net) && Outbox(net, n) != [] && 0 < i < |r.nodes|
    ensures var ws := Weights(topo, r);
            Segment(ws, r.nodes, Deliver(net, n), i) == Segment(ws, r.nodes, net, i)
  {
    assert Outbox(net, n)[0] in Outbox(net, n) && Hop(topo, r, i);
    DeliverSegment(Weights(topo, r), r.nodes, net, n, i);
  }

  lemma DeliverBalanced(topo: Topology, r: Route, net: Net, n: Node)
    requires SolePath(topo, r) && Conserved(topo, r, net) && Outbox(net, n) != []
    ensures Balanced(topo, r, Deliver(net, n))
  {
    var ws := Weights(topo, r);
    forall i | 0 < i < |r.nodes|
      ensures Segment(ws, r.nodes, Deliver(net, n), i) == Segment(ws, r.nodes, net, i)
    {
      DeliverOnPath(topo, r, net, n, i);
    }
    SegmentsSame(ws, r.nodes, net, Deliver(net, n));
  }

  /** Task `j` took its oldest message and added `es` to its outbox. */
  lemma SegmentsForwarded(ws: seq<Weight>, nodes: seq<Node>, net: Net, j: nat, es: seq<(Node, Item)>) returns (lower: seq<Item>)
    requires Distinct(nodes) && 0 < j < |nodes| - 1 && |nodes| == |ws| && Inbox(net, nodes[j]) != []
    ensures Segments(ws, nodes, net)[j - 1] == Scale(ws[j], [Inbox(net, nodes[j])[0]]) + lower
    ensures Segments(ws, nodes, net.(inq := net.inq[nodes[j] := Inbox(net, nodes[j])[1..]],
                                     out := net.out[nodes[j] := Outbox(net, nodes[j]) + es]))
            == Segments(ws, nodes, net)[j - 1 := lower][j := Segments(ws, nodes, net)[j] + ScaleTo(ws[j + 1], nodes[j + 1], es)]
  {
    var mid := net.(inq := net.inq[nodes[j] := Inbox(net, nodes[j])[1..]]);
    lower := Segment(ws, nodes, mid, j);
    SegmentsTook(ws, nodes, net, j);
    SegmentsOutboxGrew(ws, nodes, mid, j + 1, es);
    assert Segment(ws, nodes, mid, j + 1) == Segments(ws, nodes, mid)[j];
  }

  lemma ForwardOnPath(ws: seq<Weight>, nodes: seq<Node>, net: Net, j: nat, es: seq<(Node, Item)>)
    requires Distinct(nodes) && 0 < j < |nodes| - 1 && |nodes| == |ws| && Inbox(net, nodes[j]) != []
    requires ScaleTo(ws[j + 1], nodes[j + 1], es) == Scale(ws[j], [Inbox(net, nodes[j])[0]])
    ensures Back(Segments(ws, nodes, net.(inq := net.inq[nodes[j] := Inbox(net, nodes[j])[1..]],
                                          out := net.out[nodes[j] := Outbox(net, nodes[j]) + es])))
            == Back(Segments(ws, nodes, net))
  {
    var lower := SegmentsForwarded(ws, nodes, net, j, es);
    BackShift(Segments(ws, nodes, net), j - 1, ScaleTo(ws[j + 1], nodes[j + 1], es), lower);
  }

  lemma ForwardFlight(topo: Topology, r: Route, net: Net, p: nat)
    requires SolePath(topo, r) && Inbox(net, PipeNode(p)) != []
    ensures InFlight(topo, r, Forward(topo, net, p)) == InFlight(topo, r, net)
  {
    var ws, n, net' := Weights(topo, r), PipeNode(p), Forward(topo, net, p);
    if j :| 0 <= j < |r.nodes| && r.nodes[j] == n {
      assert 0 < j < |r.nodes| - 1;
      var x := Inbox(net, n)[0];
      CopiesOnPath(topo, r, j + 1, x);
      ForwardOnPath(ws, r.nodes, net, j, Copies(topo, n, 0, x));
    } else {
      ApartInbox(ws, r.nodes, net, n, Inbox(net', n));
      ApartOutbox(ws, r.nodes, net.(inq := net'.inq), n, Outbox(net', n));
    }
  }

  lemma ForwardBalanced(topo: Topology, r: Route, net: Net, p: nat)
    requires SolePath(topo, r) && Balanced(topo, r, net) && Inbox(net, PipeNode(p)) != []
    ensures Balanced(topo, r, Forward(topo, net, p))
  {
    ForwardFlight(topo, r, net, p);
  }

  lemma ConsumeOnPath(ws: seq<Weight>, nodes: seq<Node>, net: Net, n: Node, log: seq<Item>, sent: seq<Item>)
    requires Distinct(nodes) && 2 <= |nodes| == |ws| && n == nodes[|nodes| - 1]
    requires Inbox(net, n) != [] && Adds(ws, nodes, net, log, sent)
    ensures Adds(ws, nodes, net.(inq := net.inq[n := Inbox(net, n)[1..]]), log + [Inbox(net, n)[0]], sent)
  {
    var last, net' := |nodes| - 1, net.(inq := net.inq[n := Inbox(net, n)[1..]]);
    var x := Inbox(net, n)[0];
    SegmentsTook(ws, nodes, net, last);
    BackLeave(Segments(ws, nodes, net), Scale(ws[last], [x]), Segment(ws, nodes, net', last));
    ScaleAppend(ws[last], log, [x]);
    Assoc(Scale(ws[last], log), Scale(ws[last], [x]), Back(Segments(ws, nodes, net')));
  }

  lemma ConsumeBalanced(topo: Topology, r: Route, net: Net, k: Uid)
    requires SolePath(topo, r) && Balanced(topo, r, net) && Inbox(net, SinkNode(k)) != []
    ensures Balanced(topo, r, Consume(net, k))
  {
    var ws, net' := Weights(topo, r), Consume(net, k);
    if k == r.k {
      ConsumeOnPath(ws, r.nodes, net, SinkNode(k), Log(net, k), Sent(net, r.s));
    } else {
      ApartInbox(ws, r.nodes, net, SinkNode(k), Inbox(net', SinkNode(k)));
    }
    SegmentsHistory(ws, r.nodes, net.(inq := net'.inq), net');
  }

  lemma InjectSegment(ws: seq<Weight>, nodes: seq<Node>, net: Net, k: Uid, msg: SinkControl, i: nat)
    requires 0 < i < |nodes| == |ws| && ws[i](Control(msg)) == 0
    ensures Segment(ws, nodes, Inject(net, k, msg), i) == Segment(ws, nodes, net, i)
  {
    ScaleAppend(ws[i], Inbox(net, nodes[i]), [Control(msg)]);
    ScaleOne(ws[i], Control(msg));
  }

  lemma InjectBalanced(topo: Topology, r: Route, net: Net, k: Uid, msg: SinkControl)
    requires |r.nodes| >= 2 && Balanced(topo, r, net)
    ensures Balanced(topo, r, Inject(net, k, msg))
  {
    var ws, net' := Weights(topo, r), Inject(net, k, msg);
    forall i | 0 < i < |r.nodes|
      ensures Segment(ws, r.nodes, net', i) == Segment(ws, r.nodes, net, i)
    {
      InjectSegment(ws, r.nodes, net, k, msg, i);
    }
    SegmentsSame(ws, r.nodes, net, net');
  }

  lemma InjectContained(topo: Topology, r: Route, net: Net, k: Uid, msg: SinkControl)
    requires Contained(topo, r, net)
    ensures Contained(topo, r, Inject(net, k, msg))
  {
    var net' := Inject(net, k, msg);
    assert forall m :: Outbox(net', m) == Outbox(net, m);
    assert forall m, x :: x in Inbox(net', m) && x.Packet? ==> x in Inbox(net, m);
  }

  lemma EmitConserved(topo: Topology, r: Route, net: Net, s: Uid, body: Body)
    requires SolePath(topo, r) && Conserved(topo, r, net)
    ensures Conserved(topo, r, Emit(topo, net, s, body))
  {
    EmitContained(topo, r, net, s, body);
    EmitBalanced(topo, r, net, s, body);
  }

  lemma InjectConserved(topo: Topology, r: Route, net: Net, k: Uid, msg: SinkControl)
    requires |r.nodes| >= 2 && Conserved(topo, r, net)
    ensures Conserved(topo, r, Inject(net, k, msg))
  {
    InjectContained(topo, r, net, k, msg);
    InjectBalanced(topo, r, net, k, msg);
  }

  lemma EmptyConserved(topo: Topology, r: Route)
    requires |r.nodes| >= 2
    ensures Conserved(topo, r, EMPTY)
  {
    BackEmpty(Segments(Weights(topo, r), r.nodes, EMPTY));
  }

  // ----- what the drain signal tells

  /** The drain signal of `s` occurs in `xs` for the first time at `d`. */
  ghost predicate FirstDrain(s: Uid, xs: seq<Item>, d: nat) {
    && d < |xs|
    && xs[d] == Packet(s, DrainSignal)
    && Packet(s, DrainSignal) !in xs[..d]
  }

  /** Some link from `n` to `d` takes `x`. */
  ghost predicate Carries(topo: Topology, n: Node, d: Node, x: Item) {
    exists link :: 0 <= link < |Outs(topo, n)| && Outs(topo, n)[link] == d && Passes(topo, n, link, x)
  }

  lemma {:induction false} LinkCounts(topo: Topology, nodes: seq<Node>, i: nat, link: nat, at: nat, x: Item)
    requires i + 1 < |nodes| && link <= at < |Outs(topo, nodes[i])| && Outs(topo, nodes[i])[at] == nodes[i + 1]
    requires Passes(topo, nodes[i], at, x) && Ways(topo, nodes, i + 1, x) > 0
    ensures LinkWays(topo, nodes, i, link, x) > 0
    decreases at - link
  {
    if link < at {
      LinkCounts(topo, nodes, i, link + 1, at, x);
    }
  }

  lemma {:induction false} CarriedWays(topo: Topology, nodes: seq<Node>, i: nat, x: Item)
    requires i < |nodes| && forall j :: 0 < j < |nodes| ==> Carries(topo, nodes[j - 1], nodes[j], x)
    ensures Ways(topo, nodes, i, x) > 0
    decreases |nodes| - i
  {
    if i < |nodes| - 1 {
      CarriedWays(topo, nodes, i + 1, x);
      assert Carries(topo, nodes[(i + 1) - 1], nodes[i + 1], x);
      var at :| 0 <= at < |Outs(topo, nodes[i])| && Outs(topo, nodes[i])[at] == nodes[i + 1] && Passes(topo, nodes[i], at, x);
      LinkCounts(topo, nodes, i, 0, at, x);
    }
  }

  lemma SignalCarried(topo: Topology, n: Node, d: Node, x: Item)
    requires d in Outs(topo, n) && d != n && x.Packet? && !x.body.Data?
    ensures Carries(topo, n, d, x)
  {
    var at :| 0 <= at < |Outs(topo, n)| && Outs(topo, n)[at] == d;
    assert Passes(topo, n, at, x);
  }

  lemma SolePathCarriesSignals(topo: Topology, r: Route, x: Item)
    requires SolePath(topo, r) && x.Packet? && x.origin == r.s && !x.body.Data?
    ensures Weights(topo, r)[0](x) > 0 && Weights(topo, r)[|r.nodes| - 1](x) == 1
  {
    forall j | 0 < j < |r.nodes|
      ensures Carries(topo, r.nodes[j - 1], r.nodes[j], x)
    {
      assert Hop(topo, r, j);
      SignalCarried(topo, r.nodes[j - 1], r.nodes[j], x);
    }
    CarriedWays(topo, r.nodes, 0, x);
  }

  /**
   Once a sink has handled the drain signal of a source, it has handled, in order and as often as links
   carry it, everything that source sent it before its first drain signal; all that is still under way
   was sent later.
   */
  lemma DrainBarrier(topo: Topology, r: Route, net: Net, d: nat)
    requires SolePath(topo, r) && Balanced(topo, r, net)
    requires FirstDrain(r.s, Sent(net, r.s), d)
    requires Packet(r.s, DrainSignal) in Log(net, r.k)
    ensures Due(topo, r, Sent(net, r.s)[..d]) <= Own(topo, r, Log(net, r.k))
    ensures forall x :: x in InFlight(topo, r, net) ==> x in Sent(net, r.s)[d..]
  {
    var ws := Weights(topo, r);
    SolePathCarriesSignals(topo, r, Packet(r.s, DrainSignal));
    PrefixUpTo(ws[0], ws[|ws| - 1], Log(net, r.k), InFlight(topo, r, net), Sent(net, r.s), d);
  }

  lemma PrefixUpTo(due: Weight, own: Weight, log: seq<Item>, flight: seq<Item>, sent: seq<Item>, d: nat)
    requires Scale(own, log) + flight == Scale(due, sent)
    requires d < |sent| && due(sent[d]) > 0 && own(sent[d]) > 0 && sent[d] !in sent[..d] && sent[d] in log
    ensures Scale(due, sent[..d]) <= Scale(own, log)
    ensures forall x :: x in flight ==> x in sent[d..]
  {
    var before, after, handled, mark := Scale(due, sent[..d]), Scale(due, sent[d..]), Scale(own, log), sent[d];
    assert sent == sent[..d] + sent[d..];
    ScaleAppend(due, sent[..d], sent[d..]);
    ScaleMember(own, log, mark);
    ScaleMember(due, sent[..d], mark);
    CutBehind(handled, flight, before, after, mark);
    forall x | x in flight
      ensures x in sent[d..]
    {
      ScaleMember(due, sent[d..], x);
    }
  }

  /** Two ways to cut a sequence: the cut before the first mark is not behind a cut that has a mark in front. */
  lemma CutBehind(handled: seq<Item>, flight: seq<Item>, before: seq<Item>, after: seq<Item>, mark: Item)
    requires handled + flight == before + after && mark in handled && mark !in before
    ensures before <= handled && forall x :: x in flight ==> x in after
  {
    var all := before + after;
    var i :| 0 <= i < |handled| && handled[i] == mark;
    assert all[i] == mark;
    assert i >= |before|;
    assert before == all[..|before|] == handled[..|before|];
    assert all[|handled|..] == flight && all[|handled|..] == after[|handled| - |before|..];
  }

  /** A handled drain signal was sent. */
  lemma DrainWasSent(topo: Topology, r: Route, net: Net) returns (d: nat)
    requires SolePath(topo, r) && Balanced(topo, r, net)
    requires Packet(r.s, DrainSignal) in Log(net, r.k)
    ensures FirstDrain(r.s, Sent(net, r.s), d)
  {
    var ws, mark, sent := Weights(topo, r), Packet(r.s, DrainSignal), Sent(net, r.s);
    SolePathCarriesSignals(topo, r, mark);
    ScaleMember(ws[|ws| - 1], Log(net, r.k), mark);
    ScaleMember(ws[0], sent, mark);
    assert mark in Scale(ws[0], sent);
    d := FirstAt(sent, mark);
  }

  lemma {:induction false} FirstAt(xs: seq<Item>, x: Item) returns (d: nat)
    requires x in xs
    ensures d < |xs| && xs[d] == x && x !in xs[..d]
  {
    if xs[0] == x {
      d := 0;
    } else {
      assert xs == [xs[0]] + xs[1..];
      d := FirstAt(xs[1..], x);
      d := d + 1;
      assert xs[..d] == [xs[0]] + xs[1..][..d - 1];
    }
  }
}
