/**
 How runs are put together: which state can be reached from which, how a message is carried along a
 path of tasks, and how contraflow finds its way back.
 */
module Playing {
  import opened Protocol
  import opened Wrappers
  import opened Network
  import opened Quiescence
  import S = SourceTask
  import K = SinkTask
  import C = ConnectorLoop

  /** A piece of a run, from `w` to `u`. */
  ghost predicate Joins(plant: Plant, run: Run, w: World, u: World) {
    && Shaped(run) && run.states[0] == w && run.states[|run.steps|] == u
    && forall i :: 0 <= i < |run.steps| ==> Moves(plant, run, i)
  }

  ghost predicate Reaches(plant: Plant, w: World, u: World) {
    exists run :: Joins(plant, run, w, u)
  }

  lemma Stays(plant: Plant, w: World)
    ensures Reaches(plant, w, w)
  {
    assert Joins(plant, Run([w], []), w, w);
  }

  lemma Then(plant: Plant, w: World, u: World, v: World)
    requires Reaches(plant, w, u) && Reaches(plant, u, v)
    ensures Reaches(plant, w, v)
  {
    var a :| Joins(plant, a, w, u);
    var b :| Joins(plant, b, u, v);
    var run := Chained(plant, a, b, w, u, v);
  }

  lemma Chained(plant: Plant, a: Run, b: Run, w: World, u: World, v: World) returns (run: Run)
    requires Joins(plant, a, w, u) && Joins(plant, b, u, v)
    ensures Joins(plant, run, w, v) && |a.steps| < |run.states| && run.states[|a.steps|] == u
  {
    run := Run(a.states + b.states[1..], a.steps + b.steps);
    forall i | 0 <= i < |run.steps|
      ensures Moves(plant, run, i)
    {
      if i < |a.steps| {
        assert Moves(plant, a, i);
      } else {
        assert Moves(plant, b, i - |a.steps|);
      }
    }
  }

  lemma Once(plant: Plant, w: World, step: Step)
    requires Enabled(plant, w, step)
    ensures Reaches(plant, w, Apply(plant, w, step))
  {
    assert Joins(plant, Run([w, Apply(plant, w, step)], [step]), w, Apply(plant, w, step));
  }

  lemma SourceOnce(plant: Plant, w: World, i: Uid)
    requires i in w.sources && w.sources[i].phase != S.Stopped && SourceIn(w, i) != []
    ensures Reaches(plant, w, SourceTook(plant, w, i))
  {
    Once(plant, w, SourceTakes(i));
  }

  lemma PullOnce(plant: Plant, w: World, i: Uid, reply: S.Reply)
    requires i in w.sources && S.Possible(w.sources[i], S.Pulled(reply))
    ensures Reaches(plant, w, SourcePulled(plant, w, i, reply))
  {
    Once(plant, w, SourcePulls(i, reply));
  }

  /** A sink takes a message; its implementation gives no reply. */
  lemma SinkOnce(plant: Plant, w: World, k: Uid)
    requires k in w.sinks && w.sinks[k].phase != K.Stopped && Inbox(w.net, SinkNode(k)) != []
    ensures Reaches(plant, w, SinkTook(plant, w, k, K.Errored, false, false))
  {
    Once(plant, w, SinkTakes(k, K.Errored, false, false));
  }

  lemma ReplyOnce(plant: Plant, w: World, k: Uid, cb: CbAction)
    requires k in w.sinks && !Reserved(cb)
    ensures Reaches(plant, w, w.(contraflow := ToPipes(w.contraflow, Pipes(plant, k), cb)))
  {
    Once(plant, w, SinkReplies(k, cb));
  }

  lemma ConnectorOnce(plant: Plant, w: World, i: Uid)
    requires i in w.connectors && w.connectors[i].phase != C.Stopped && ConnectorIn(w, i) != []
    ensures Reaches(plant, w, ConnectorTook(w, i))
  {
    Once(plant, w, ConnectorTakes(i));
  }

  lemma TellOnce(plant: Plant, w: World, i: Uid, msg: C.Msg)
    requires i in w.connectors && msg !in {C.Drain, C.SourceDrained, C.SinkDrained}
    ensures Reaches(plant, w, ConnectorTold(w, i, msg))
  {
    Once(plant, w, Operator(i, msg));
  }

  lemma WireOnce(plant: Plant, w: World, i: Uid, msg: SourceMsg)
    requires i in w.sources && (msg.LinkSource? || msg.ConnectSource?)
    ensures Reaches(plant, w, SourceWired(w, i, msg))
  {
    Once(plant, w, Wires(i, msg));
  }

  lemma AskOnce(plant: Plant, w: World, alive: set<Uid>)
    requires w.asked.None? && alive <= w.connectors.Keys
    ensures Reaches(plant, w, FlowAsked(w, alive))
  {
    Once(plant, w, AsksFlow(alive));
  }

  lemma FlowOnce(plant: Plant, w: World)
    requires w.results != []
    ensures Reaches(plant, w, FlowTook(w))
  {
    Once(plant, w, FlowTakes);
  }

  lemma DeliverOnce(plant: Plant, w: World, n: Node)
    requires Outbox(w.net, n) != []
    ensures Reaches(plant, w, w.(net := Deliver(w.net, n)))
  {
    Once(plant, w, Delivers(n));
  }

  lemma ForwardOnce(plant: Plant, w: World, p: nat)
    requires Inbox(w.net, PipeNode(p)) != []
    ensures Reaches(plant, w, w.(net := Forward(plant.topo, w.net, p)))
  {
    Once(plant, w, PipeForwards(p));
  }

  /** A pipeline passes contraflow on to all its inputs. */
  lemma ReturnOnce(plant: Plant, w: World, p: nat)
    requires Contraflow(w.contraflow, p) != []
    ensures Reaches(plant, w, PipeReturned(w, p, Inputs(plant, p)))
  {
    Once(plant, w, PipeReturns(p, Inputs(plant, p)));
  }

  /** What can be reached from an initial state is the end of a run. */
  lemma AsRun(plant: Plant, w: World, u: World) returns (run: Run)
    requires Init(w) && Reaches(plant, w, u)
    ensures IsRun(plant, run) && run.states[|run.states| - 1] == u
  {
    run :| Joins(plant, run, w, u);
  }

  lemma AsRunThrough(plant: Plant, w: World, u: World, v: World) returns (run: Run, m: nat)
    requires Init(w) && Reaches(plant, w, u) && Reaches(plant, u, v)
    ensures IsRun(plant, run) && run.states[|run.states| - 1] == v && m < |run.states| && run.states[m] == u
  {
    var a :| Joins(plant, a, w, u);
    var b :| Joins(plant, b, u, v);
    run := Chained(plant, a, b, w, u, v);
    m := |a.steps|;
  }

  // ----- forward

  lemma {:induction false} CopiesHave(topo: Topology, n: Node, link: nat, at: nat, x: Item)
    requires link <= at < |Outs(topo, n)| && Passes(topo, n, at, x)
    ensures (Outs(topo, n)[at], x) in Copies(topo, n, link, x)
    decreases at - link
  {
    if link < at {
      CopiesHave(topo, n, link + 1, at, x);
    }
  }

  lemma CarriedCopy(topo: Topology, n: Node, d: Node, x: Item)
    requires Carries(topo, n, d, x)
    ensures (d, x) in Copies(topo, n, 0, x)
  {
    var at :| 0 <= at < |Outs(topo, n)| && Outs(topo, n)[at] == d && Passes(topo, n, at, x);
    CopiesHave(topo, n, 0, at, x);
  }

  /** Nothing but messages of `s` is under way. */
  ghost predicate From(net: Net, s: Uid) {
    && (forall n, x :: x in Inbox(net, n) ==> x.Packet? && x.origin == s)
    && (forall n, e :: e in Outbox(net, n) ==> e.1.Packet? && e.1.origin == s)
  }

  /** Only the net changed: outside of `busy` inboxes lost nothing, and the histories are as they were. */
  ghost predicate Carried(w: World, u: World, busy: set<Node>) {
    && u == w.(net := u.net)
    && u.net.sent == w.net.sent && u.net.log == w.net.log
    && (forall m, x :: m !in busy && x in Inbox(w.net, m) ==> x in Inbox(u.net, m))
    && (forall s :: From(w.net, s) ==> From(u.net, s))
  }

  lemma CarriedOn(w: World, u: World, v: World, a: set<Node>, b: set<Node>)
    requires Carried(w, u, a) && Carried(u, v, b)
    ensures Carried(w, v, a + b)
  {
  }

  /** The pending sends of a task up to number `i` are made. */
  lemma {:induction false} DeliversUpTo(plant: Plant, w: World, n: Node, i: nat) returns (u: World)
    requires i < |Outbox(w.net, n)|
    ensures Reaches(plant, w, u) && Carried(w, u, {})
    ensures forall j :: 0 <= j <= i ==> Outbox(w.net, n)[j].1 in Inbox(u.net, Outbox(w.net, n)[j].0)
    ensures forall m :: m != n ==> Outbox(u.net, m) == Outbox(w.net, m)
    ensures Outbox(u.net, n) == Outbox(w.net, n)[i + 1..]
    decreases i
  {
    var mid := w;
    Stays(plant, w);
    if i > 0 {
      mid := DeliversUpTo(plant, w, n, i - 1);
    }
    assert Outbox(mid.net, n) == Outbox(w.net, n)[i..];
    var (d, x) := Outbox(w.net, n)[i];
    u := mid.(net := Deliver(mid.net, n));
    DeliverOnce(plant, mid, n);
    Then(plant, w, mid, u);
    assert Inbox(u.net, d) == Inbox(mid.net, d) + [x];
    assert x in Inbox(u.net, d);
    assert forall m, y :: y in Inbox(mid.net, m) ==> y in Inbox(u.net, m);
    forall s | From(w.net, s)
      ensures From(u.net, s)
    {
      DeliverFrom(mid.net, n, s);
    }
  }

  lemma DeliverFrom(net: Net, n: Node, s: Uid)
    requires Outbox(net, n) != [] && From(net, s)
    ensures From(Deliver(net, n), s)
  {
    var e := Outbox(net, n)[0];
    assert e in Outbox(net, n);
    assert forall m, x :: x in Inbox(Deliver(net, n), m) ==> x in Inbox(net, m) || x == e.1;
    assert forall m, f :: f in Outbox(Deliver(net, n), m) ==> f in Outbox(net, m);
  }

  lemma CopiesFrom(topo: Topology, net: Net, n: Node, x: Item, s: Uid)
    requires From(net, s) && x.Packet? && x.origin == s
    ensures From(net.(out := net.out[n := Outbox(net, n) + Copies(topo, n, 0, x)]), s)
  {
    var net' := net.(out := net.out[n := Outbox(net, n) + Copies(topo, n, 0, x)]);
    forall m, e | e in Outbox(net', m)
      ensures e.1.Packet? && e.1.origin == s
    {
      if m == n && e !in Outbox(net, n) {
        CopiesTargets(topo, n, 0, x, e);
      } else {
        assert e in Outbox(net, m);
      }
    }
    assert forall m :: Inbox(net', m) == Inbox(net, m);
  }

  lemma ForwardFrom(topo: Topology, net: Net, p: nat, s: Uid)
    requires Inbox(net, PipeNode(p)) != [] && From(net, s)
    ensures From(Forward(topo, net, p), s)
  {
    var n := PipeNode(p);
    var mid := net.(inq := net.inq[n := Inbox(net, n)[1..]]);
    assert Inbox(net, n)[0] in Inbox(net, n);
    assert forall m, x :: x in Inbox(mid, m) ==> x in Inbox(net, m);
    assert forall m :: Outbox(mid, m) == Outbox(net, m);
    CopiesFrom(topo, mid, n, Inbox(net, n)[0], s);
  }

  /** A pipeline hands on its oldest messages up to number `i`. */
  lemma {:induction false} ForwardsUpTo(plant: Plant, w: World, p: nat, i: nat) returns (u: World)
    requires i < |Inbox(w.net, PipeNode(p))|
    ensures Reaches(plant, w, u) && Carried(w, u, {PipeNode(p)})
    ensures Inbox(u.net, PipeNode(p)) == Inbox(w.net, PipeNode(p))[i + 1..]
    ensures forall e :: e in Outbox(w.net, PipeNode(p)) ==> e in Outbox(u.net, PipeNode(p))
    ensures forall j, e :: 0 <= j <= i && e in Copies(plant.topo, PipeNode(p), 0, Inbox(w.net, PipeNode(p))[j])
                           ==> e in Outbox(u.net, PipeNode(p))
    decreases i
  {
    var n, mid := PipeNode(p), w;
    Stays(plant, w);
    if i > 0 {
      mid := ForwardsUpTo(plant, w, p, i - 1);
    }
    assert Inbox(mid.net, n) == Inbox(w.net, n)[i..];
    u := mid.(net := Forward(plant.topo, mid.net, p));
    ForwardOnce(plant, mid, p);
    Then(plant, w, mid, u);
    assert forall m :: m != n ==> Inbox(u.net, m) == Inbox(mid.net, m);
    forall s | From(w.net, s)
      ensures From(u.net, s)
    {
      ForwardFrom(plant.topo, mid.net, p, s);
    }
  }

  lemma At<T>(xs: seq<T>, x: T) returns (i: nat)
    requires x in xs
    ensures i < |xs| && xs[i] == x
  {
    i :| 0 <= i < |xs| && xs[i] == x;
  }

  lemma {:induction false} First<T>(xs: seq<T>, x: T) returns (i: nat)
    requires x in xs
    ensures i < |xs| && xs[i] == x && x !in xs[..i]
  {
    if xs[0] == x {
      i := 0;
    } else {
      assert xs == [xs[0]] + xs[1..];
      i := First(xs[1..], x);
      i := i + 1;
      assert xs[..i] == [xs[0]] + xs[1..][..i - 1];
    }
  }

  /** A send that is pending is made. */
  lemma Arrives(plant: Plant, w: World, n: Node, d: Node, x: Item) returns (u: World)
    requires (d, x) in Outbox(w.net, n)
    ensures Reaches(plant, w, u) && Carried(w, u, {}) && x in Inbox(u.net, d)
  {
    var i := At(Outbox(w.net, n), (d, x));
    u := DeliversUpTo(plant, w, n, i);
  }

  /** A message gets from one pipeline to the next task. */
  lemma Hops(plant: Plant, w: World, p: nat, d: Node, x: Item) returns (u: World)
    requires x in Inbox(w.net, PipeNode(p)) && Carries(plant.topo, PipeNode(p), d, x)
    ensures Reaches(plant, w, u) && Carried(w, u, {PipeNode(p)}) && x in Inbox(u.net, d)
  {
    var i := At(Inbox(w.net, PipeNode(p)), x);
    var mid := ForwardsUpTo(plant, w, p, i);
    CarriedCopy(plant.topo, PipeNode(p), d, x);
    u := Arrives(plant, mid, PipeNode(p), d, x);
    Then(plant, w, mid, u);
    CarriedOn(w, mid, u, {PipeNode(p)}, {});
  }

  ghost predicate CarriesAlong(topo: Topology, nodes: seq<Node>, i: nat, j: nat, x: Item) {
    && i <= j < |nodes|
    && (forall t :: i <= t < j ==> nodes[t].PipeNode? && Carries(topo, nodes[t], nodes[t + 1], x))
  }

  function Members(nodes: seq<Node>): set<Node> {
    set n | n in nodes
  }

  /** A message gets along a path, from task `i` to task `j`. */
  lemma {:induction false} Travels(plant: Plant, w: World, nodes: seq<Node>, i: nat, j: nat, x: Item) returns (u: World)
    requires CarriesAlong(plant.topo, nodes, i, j, x) && x in Inbox(w.net, nodes[i])
    ensures Reaches(plant, w, u) && Carried(w, u, Members(nodes[i..j])) && x in Inbox(u.net, nodes[j])
    decreases j - i
  {
    if i == j {
      u := w;
      Stays(plant, w);
    } else {
      var mid := Hops(plant, w, nodes[i].pid, nodes[i + 1], x);
      u := Travels(plant, mid, nodes, i + 1, j, x);
      Then(plant, w, mid, u);
      CarriedOn(w, mid, u, {nodes[i]}, Members(nodes[i + 1..j]));
      MembersFront(nodes, i, j);
    }
  }

  lemma MembersFront(nodes: seq<Node>, i: nat, j: nat)
    requires i < j < |nodes|
    ensures {nodes[i]} + Members(nodes[i + 1..j]) == Members(nodes[i..j])
  {
    assert nodes[i..j] == [nodes[i]] + nodes[i + 1..j];
  }

  // ----- backward

  /** Contraflow travels the links backwards: pipelines and sinks know who feeds them. */
  ghost predicate Mirrored(plant: Plant) {
    && (forall n, p :: PipeNode(p) in Outs(plant.topo, n) <==> n in Inputs(plant, p))
    && (forall n, k :: SinkNode(k) in Outs(plant.topo, n) <==> n in Pipes(plant, k))
  }

  ghost predicate OnlyBack(cf: map<nat, seq<CbAction>>, cbs: set<CbAction>) {
    forall p, c :: c in Contraflow(cf, p) ==> c in cbs
  }

  ghost predicate OnlyMail(inboxes: map<Uid, seq<SourceMsg>>, cbs: set<CbAction>) {
    forall i, m :: m in Messages(inboxes, i) && m.Cb? ==> m.cb in cbs
  }

  /** Nothing but `cbs` comes back. */
  ghost predicate Only(w: World, cbs: set<CbAction>) {
    OnlyBack(w.contraflow, cbs) && OnlyMail(w.sourceIn, cbs)
  }

  /** Only contraflow moved, from pipelines in `busy`; messages for sources came only in addition. */
  ghost predicate Returned(w: World, u: World, busy: set<nat>) {
    && u == w.(contraflow := u.contraflow, sourceIn := u.sourceIn)
    && (forall p, c :: p !in busy && c in Contraflow(w.contraflow, p) ==> c in Contraflow(u.contraflow, p))
    && (forall i :: Adds(SourceIn(w, i), SourceIn(u, i)))
  }

  /** `b` is `a` and contraflow after it. */
  ghost predicate Adds(a: seq<SourceMsg>, b: seq<SourceMsg>) {
    a <= b && forall j :: |a| <= j < |b| ==> b[j].Cb?
  }

  lemma ReturnedOn(w: World, u: World, v: World, a: set<nat>, b: set<nat>)
    requires Returned(w, u, a) && Returned(u, v, b)
    ensures Returned(w, v, a + b)
  {
    forall i ensures Adds(SourceIn(w, i), SourceIn(v, i)) {
      assert Adds(SourceIn(w, i), SourceIn(u, i)) && Adds(SourceIn(u, i), SourceIn(v, i));
    }
  }

  lemma {:induction false} ToPipesHas(cf: map<nat, seq<CbAction>>, takers: seq<Node>, cb: CbAction)
    ensures forall p, c :: c in Contraflow(cf, p) ==> c in Contraflow(ToPipes(cf, takers, cb), p)
    ensures forall p, c :: c in Contraflow(ToPipes(cf, takers, cb), p) ==> c in Contraflow(cf, p) || c == cb
    ensures forall p :: PipeNode(p) in takers ==> cb in Contraflow(ToPipes(cf, takers, cb), p)
    decreases |takers|
  {
    if takers != [] {
      var n := takers[0];
      var next := if n.PipeNode? then cf[n.pid := Contraflow(cf, n.pid) + [cb]] else cf;
      ToPipesHas(next, takers[1..], cb);
      assert forall p, c :: c in Contraflow(cf, p) ==> c in Contraflow(next, p);
      assert n.PipeNode? ==> cb in Contraflow(next, n.pid);
    }
  }

  lemma {:induction false} ToSourcesHas(inboxes: map<Uid, seq<SourceMsg>>, takers: seq<Node>, cb: CbAction)
    ensures forall i :: Adds(Messages(inboxes, i), Messages(ToSources(inboxes, takers, cb), i))
    ensures forall i, m :: m in Messages(ToSources(inboxes, takers, cb), i) ==> m in Messages(inboxes, i) || m == Cb(cb)
    ensures forall i :: SourceNode(i) in takers ==> Cb(cb) in Messages(ToSources(inboxes, takers, cb), i)
    decreases |takers|
  {
    if takers != [] {
      var n := takers[0];
      var next := if n.SourceNode? then inboxes[n.uid := Messages(inboxes, n.uid) + [Cb(cb)]] else inboxes;
      var last := ToSources(inboxes, takers, cb);
      ToSourcesHas(next, takers[1..], cb);
      forall i
        ensures Adds(Messages(inboxes, i), Messages(last, i))
      {
        assert Adds(Messages(next, i), Messages(last, i));
      }
      if n.SourceNode? {
        assert Adds(Messages(next, n.uid), Messages(last, n.uid));
        assert Messages(last, n.uid)[|Messages(inboxes, n.uid)|] == Cb(cb);
      }
    }
  }

  /** A pipeline passes back its oldest contraflow up to number `i`. */
  lemma {:induction false} ReturnsUpTo(plant: Plant, w: World, p: nat, i: nat, cbs: set<CbAction>) returns (u: World)
    requires i < |Contraflow(w.contraflow, p)| && Only(w, cbs)
    ensures Reaches(plant, w, u) && Returned(w, u, {p}) && Only(u, cbs)
    ensures Contraflow(w.contraflow, p)[i + 1..] <= Contraflow(u.contraflow, p)
    ensures forall q :: PipeNode(q) in Inputs(plant, p) && q != p ==>
                          Contraflow(w.contraflow, p)[i] in Contraflow(u.contraflow, q)
    ensures forall j :: SourceNode(j) in Inputs(plant, p) ==> Cb(Contraflow(w.contraflow, p)[i]) in SourceIn(u, j)
    decreases i
  {
    var mid, queue := w, Contraflow(w.contraflow, p);
    Stays(plant, w);
    if i > 0 {
      mid := ReturnsUpTo(plant, w, p, i - 1, cbs);
    }
    assert queue[i..] <= Contraflow(mid.contraflow, p);
    assert Contraflow(mid.contraflow, p)[0] == queue[i];
    u := ReturnsOne(plant, mid, p, cbs);
    Then(plant, w, mid, u);
    if i == 0 {
      assert Returned(w, w, {});
    }
    ReturnedOn(w, mid, u, {p}, {p});
    assert {p} + {p} == {p};
    assert queue[i..][1..] == queue[i + 1..];
  }

  lemma ReturnsOne(plant: Plant, w: World, p: nat, cbs: set<CbAction>) returns (u: World)
    requires Contraflow(w.contraflow, p) != [] && Only(w, cbs)
    ensures Reaches(plant, w, u) && Returned(w, u, {p}) && Only(u, cbs)
    ensures Contraflow(w.contraflow, p)[1..] <= Contraflow(u.contraflow, p)
    ensures var cb := Contraflow(w.contraflow, p)[0];
            && (forall q :: PipeNode(q) in Inputs(plant, p) && q != p ==> cb in Contraflow(u.contraflow, q))
            && (forall j :: SourceNode(j) in Inputs(plant, p) ==> Cb(cb) in SourceIn(u, j))
  {
    var takers, cb := Inputs(plant, p), Contraflow(w.contraflow, p)[0];
    var rest := w.contraflow[p := Contraflow(w.contraflow, p)[1..]];
    u := PipeReturned(w, p, takers);
    ReturnOnce(plant, w, p);
    ToPipesHas(rest, takers, cb);
    ToPipesGrows(rest, takers, cb, p);
    ToSourcesHas(w.sourceIn, takers, cb);
    assert cb in Contraflow(w.contraflow, p);
    assert forall q, c :: c in Contraflow(rest, q) ==> c in Contraflow(w.contraflow, q);
  }

  lemma {:induction false} ToPipesGrows(cf: map<nat, seq<CbAction>>, takers: seq<Node>, cb: CbAction, p: nat)
    ensures Contraflow(cf, p) <= Contraflow(ToPipes(cf, takers, cb), p)
    decreases |takers|
  {
    if takers != [] {
      var n := takers[0];
      var next := if n.PipeNode? then cf[n.pid := Contraflow(cf, n.pid) + [cb]] else cf;
      ToPipesGrows(next, takers[1..], cb, p);
      assert Contraflow(cf, p) <= Contraflow(next, p);
    }
  }

  /** Contraflow at task `i` of a path gets back to the source. */
  lemma {:induction false} GoesBack(plant: Plant, w: World, nodes: seq<Node>, i: nat, cb: CbAction, cbs: set<CbAction>)
    returns (u: World)
    requires Mirrored(plant) && Only(w, cbs) && 0 < i < |nodes| && nodes[0].SourceNode? && Distinct(nodes)
    requires forall t :: 0 < t <= i ==> nodes[t].PipeNode? && nodes[t] in Outs(plant.topo, nodes[t - 1])
    requires cb in Contraflow(w.contraflow, nodes[i].pid)
    ensures Reaches(plant, w, u) && Only(u, cbs) && Cb(cb) in SourceIn(u, nodes[0].uid)
    ensures u == w.(contraflow := u.contraflow, sourceIn := u.sourceIn)
    ensures Adds(SourceIn(w, nodes[0].uid), SourceIn(u, nodes[0].uid))
    decreases i
  {
    var p, s := nodes[i].pid, nodes[0].uid;
    var at := At(Contraflow(w.contraflow, p), cb);
    var mid := ReturnsUpTo(plant, w, p, at, cbs);
    assert nodes[i] in Outs(plant.topo, nodes[i - 1]);
    assert nodes[i - 1] in Inputs(plant, p);
    if i == 1 {
      u := mid;
    } else {
      assert nodes[i - 1].pid != p;
      u := GoesBack(plant, mid, nodes, i - 1, cb, cbs);
      Then(plant, w, mid, u);
    }
    assert Adds(SourceIn(w, s), SourceIn(mid, s));
  }

  /**
   Circuit breaker events, announcements of sinks and acknowledgements of the drain are passed back to all tasks that feed a
   pipeline; whatever else comes back reaches at most these, and nobody more often than it has links.
   */
  lemma PassesBack(plant: Plant, w: World, p: nat, takers: seq<Node>)
    requires Enabled(plant, w, PipeReturns(p, takers))
    ensures var u, cb := PipeReturned(w, p, takers), Contraflow(w.contraflow, p)[0];
            && (forall n :: n in takers ==> n in Inputs(plant, p)) && |takers| <= |Inputs(plant, p)|
            && (cb.Trigger? || cb.Restore? || cb.SinkStart? || cb.DrainedBy? ==>
                  && (forall i :: SourceNode(i) in Inputs(plant, p) ==> Cb(cb) in SourceIn(u, i))
                  && (forall q :: PipeNode(q) in Inputs(plant, p) ==> cb in Contraflow(u.contraflow, q)))
  {
    var cb, rest := Contraflow(w.contraflow, p)[0], w.contraflow[p := Contraflow(w.contraflow, p)[1..]];
    ToPipesHas(rest, takers, cb);
    ToSourcesHas(w.sourceIn, takers, cb);
    forall n | n in takers
      ensures n in Inputs(plant, p)
    {
      assert n in multiset(takers);
      assert n in multiset(Inputs(plant, p));
    }
    assert |multiset(takers)| == |takers| && |multiset(Inputs(plant, p))| == |Inputs(plant, p)|;
    Fewer(multiset(takers), multiset(Inputs(plant, p)));
  }

  lemma Fewer(a: multiset<Node>, b: multiset<Node>)
    requires a <= b
    ensures |a| <= |b|
  {
    assert b == a + (b - a);
  }
}
