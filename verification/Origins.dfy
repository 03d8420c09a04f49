/**
 Invariants of all runs that progress rests on: messages come from sources that have a way to where they
 are, sinks remember whose signals they have handled, a signal that was sent is somewhere on every way, and
 the flow tells as soon as it has counted enough answers.
 */
module Origins {
  import opened Protocol
  import opened Wrappers
  import opened Network
  import opened Quiescence
  import opened Playing
  import opened OneWay
  import opened Homing
  import S = SourceTask
  import K = SinkTask
  import C = ConnectorLoop

  // ----- messages come from sources

  ghost predicate From(topo: Topology, sources: set<Uid>, n: Node, x: Item) {
    x.Packet? ==> x.origin in sources && Reachable(topo, x.origin, n)
  }

  ghost predicate Sourced(topo: Topology, sources: set<Uid>, net: Net) {
    && (forall n, x :: x in Inbox(net, n) ==> From(topo, sources, n, x))
    && (forall n, e :: e in Outbox(net, n) ==> From(topo, sources, n, e.1) && e.0 in Outs(topo, n))
  }

  ghost predicate KnownStarts(topo: Topology, sources: set<Uid>, sinks: map<Uid, K.Sink>) {
    forall k, s :: k in sinks && s in sinks[k].starts ==> s in sources && Reachable(topo, s, SinkNode(k))
  }

  lemma ReachableNext(topo: Topology, s: Uid, n: Node, d: Node)
    requires Reachable(topo, s, n) && d in Outs(topo, n)
    ensures Reachable(topo, s, d)
  {
    var nodes :| Leading(topo, s, nodes, n);
    var longer := nodes + [d];
    forall i | 0 < i < |longer|
      ensures longer[i] in Outs(topo, longer[i - 1])
    {
      assert longer[i - 1] == nodes[i - 1];
    }
    assert Leading(topo, s, longer, d);
  }

  lemma ReachableItself(topo: Topology, s: Uid)
    ensures Reachable(topo, s, SourceNode(s))
  {
    assert Leading(topo, s, [SourceNode(s)], SourceNode(s));
  }

  lemma ReachableFeeds(topo: Topology, s: Uid, k: Uid)
    requires Reachable(topo, s, SinkNode(k))
    ensures Feeds(topo, SourceNode(s), k)
  {
    var nodes :| Leading(topo, s, nodes, SinkNode(k));
    assert Onward(topo, SourceNode(s), k, nodes);
  }

  lemma CopiesSourced(topo: Topology, sources: set<Uid>, net: Net, net': Net, n: Node, x: Item)
    requires Sourced(topo, sources, net) && From(topo, sources, n, x)
    requires net'.out == net.out[n := Outbox(net, n) + Copies(topo, n, 0, x)]
    requires forall m, y :: y in Inbox(net', m) ==> y in Inbox(net, m)
    ensures Sourced(topo, sources, net')
  {
    forall m, e | e in Outbox(net', m)
      ensures From(topo, sources, m, e.1) && e.0 in Outs(topo, m)
    {
      if e !in Outbox(net, m) {
        CopiesTargets(topo, n, 0, x, e);
      }
    }
  }

  lemma {:induction false} EmitAllSourced(topo: Topology, sources: set<Uid>, net: Net, i: Uid, bodies: seq<Body>)
    requires Sourced(topo, sources, net) && i in sources
    ensures Sourced(topo, sources, EmitAll(topo, net, i, bodies))
    decreases |bodies|
  {
    if bodies != [] {
      var mid := Emit(topo, net, i, bodies[0]);
      ReachableItself(topo, i);
      assert forall m :: Inbox(mid, m) == Inbox(net, m);
      CopiesSourced(topo, sources, net, mid, SourceNode(i), Packet(i, bodies[0]));
      EmitAllSourced(topo, sources, mid, i, bodies[1..]);
    }
  }

  lemma DeliverSourced(topo: Topology, sources: set<Uid>, net: Net, n: Node)
    requires Sourced(topo, sources, net) && Outbox(net, n) != []
    ensures Sourced(topo, sources, Deliver(net, n))
  {
    var net', e := Deliver(net, n), Outbox(net, n)[0];
    assert e in Outbox(net, n);
    if e.1.Packet? {
      ReachableNext(topo, e.1.origin, n, e.0);
    }
    assert forall m, x :: x in Inbox(net', m) ==> x in Inbox(net, m) || (m == e.0 && x == e.1);
    assert forall m, f :: f in Outbox(net', m) ==> f in Outbox(net, m);
  }

  lemma ForwardSourced(topo: Topology, sources: set<Uid>, net: Net, p: nat)
    requires Sourced(topo, sources, net) && Inbox(net, PipeNode(p)) != []
    ensures Sourced(topo, sources, Forward(topo, net, p))
  {
    assert Inbox(net, PipeNode(p))[0] in Inbox(net, PipeNode(p));
    CopiesSourced(topo, sources, net, Forward(topo, net, p), PipeNode(p), Inbox(net, PipeNode(p))[0]);
  }

  lemma ShrinksSourced(topo: Topology, sources: set<Uid>, net: Net, net': Net)
    requires Sourced(topo, sources, net) && net'.out == net.out
    requires forall n, x :: x in Inbox(net', n) && x.Packet? ==> x in Inbox(net, n)
    ensures Sourced(topo, sources, net')
  {
    assert forall n :: Outbox(net', n) == Outbox(net, n);
  }

  lemma {:induction false} InjectAllPackets(net: Net, k: Uid, msgs: seq<SinkControl>)
    ensures forall n, x :: x in Inbox(InjectAll(net, k, msgs), n) && x.Packet? ==> x in Inbox(net, n)
    ensures InjectAll(net, k, msgs).out == net.out
    decreases |msgs|
  {
    if msgs != [] {
      InjectAllPackets(Inject(net, k, msgs[0]), k, msgs[1..]);
    }
  }

  lemma SinkTookStarts(plant: Plant, w: World, k: Uid, o: K.Outcome, transactional: bool, autoAck: bool)
    requires Sourced(plant.topo, w.sources.Keys, w.net) && KnownStarts(plant.topo, w.sources.Keys, w.sinks)
    requires k in w.sinks && Inbox(w.net, SinkNode(k)) != []
    ensures var w' := SinkTook(plant, w, k, o, transactional, autoAck);
            Sourced(plant.topo, w.sources.Keys, w'.net) && KnownStarts(plant.topo, w.sources.Keys, w'.sinks)
  {
    var x := Inbox(w.net, SinkNode(k))[0];
    assert x in Inbox(w.net, SinkNode(k));
    ShrinksSourced(plant.topo, w.sources.Keys, w.net, Consume(w.net, k));
  }

  lemma StepSourced(plant: Plant, w: World, step: Step)
    requires Sourced(plant.topo, w.sources.Keys, w.net) && KnownStarts(plant.topo, w.sources.Keys, w.sinks)
             && Enabled(plant, w, step)
    ensures var w' := Apply(plant, w, step);
            && w'.sources.Keys == w.sources.Keys
            && Sourced(plant.topo, w.sources.Keys, w'.net) && KnownStarts(plant.topo, w.sources.Keys, w'.sinks)
  {
    var topo, sources := plant.topo, w.sources.Keys;
    match step
    case SourceTakes(i) => EmitAllSourced(topo, sources, w.net, i, Bodies(S.OnMsg(w.sources[i], SourceIn(w, i)[0]).1));
    case SourcePulls(i, reply) => EmitAllSourced(topo, sources, w.net, i, Bodies(S.OnReply(w.sources[i], reply).1));
    case Delivers(n) => DeliverSourced(topo, sources, w.net, n);
    case PipeForwards(p) => ForwardSourced(topo, sources, w.net, p);
    case SinkTakes(k, o, transactional, autoAck) => SinkTookStarts(plant, w, k, o, transactional, autoAck);
    case ConnectorTakes(i) =>
      InjectAllPackets(w.net, i, ToSink(C.OnMsg(w.connectors[i], ConnectorIn(w, i)[0]).1));
      ShrinksSourced(topo, sources, w.net, ConnectorTook(w, i).net);
    case _ =>
  }

  lemma {:induction false} AlwaysSourced(plant: Plant, run: Run, n: nat)
    requires IsRun(plant, run) && n < |run.states|
    ensures var w := run.states[n];
            Sourced(plant.topo, w.sources.Keys, w.net) && KnownStarts(plant.topo, w.sources.Keys, w.sinks)
  {
    if n > 0 {
      AlwaysSourced(plant, run, n - 1);
      assert Moves(plant, run, n - 1);
      StepSourced(plant, run.states[n - 1], run.steps[n - 1]);
    }
  }

  // ----- sinks remember whose signals they handled

  ghost predicate Remembers(w: World) {
    forall s, k :: k in w.sinks && Handled(w.net, s, k) ==> s in w.sinks[k].drains
  }

  lemma SinkTookRemembers(plant: Plant, w: World, k: Uid, o: K.Outcome, transactional: bool, autoAck: bool)
    requires Remembers(w) && k in w.sinks && Inbox(w.net, SinkNode(k)) != []
    ensures Remembers(SinkTook(plant, w, k, o, transactional, autoAck))
  {
    var w', x := SinkTook(plant, w, k, o, transactional, autoAck), Inbox(w.net, SinkNode(k))[0];
    forall s, q | q in w'.sinks && Handled(w'.net, s, q)
      ensures s in w'.sinks[q].drains
    {
      if q == k {
        assert Handled(w.net, s, k) || x == Packet(s, DrainSignal);
      } else {
        assert Handled(w.net, s, q);
      }
    }
  }

  lemma {:induction false} AlwaysRemembers(plant: Plant, run: Run, n: nat)
    requires IsRun(plant, run) && n < |run.states|
    ensures Remembers(run.states[n])
  {
    if n > 0 {
      AlwaysRemembers(plant, run, n - 1);
      assert Moves(plant, run, n - 1);
      RemembersOn(plant, run.states[n - 1], run.steps[n - 1]);
    }
  }

  lemma RemembersOn(plant: Plant, w: World, step: Step)
    requires Remembers(w) && Enabled(plant, w, step)
    ensures Remembers(Apply(plant, w, step))
  {
    if step.SinkTakes? {
      SinkTookRemembers(plant, w, step.k, step.o, step.transactional, step.autoAck);
    } else {
      LogStep(plant, w, step);
      OtherSinks(plant, w, step);
    }
  }

  lemma SourceTookFrame(plant: Plant, w: World, i: Uid)
    requires i in w.sources && SourceIn(w, i) != []
    ensures var w' := SourceTook(plant, w, i);
            w'.sinks == w.sinks && w'.connectors == w.connectors && w'.sources.Keys == w.sources.Keys
  {
  }

  lemma SourcePulledFrame(plant: Plant, w: World, i: Uid, reply: S.Reply)
    requires i in w.sources
    ensures var w' := SourcePulled(plant, w, i, reply);
            w'.sinks == w.sinks && w'.connectors == w.connectors && w'.sources.Keys == w.sources.Keys
  {
  }

  lemma ConnectorTookFrame(w: World, i: Uid)
    requires i in w.connectors && ConnectorIn(w, i) != []
    ensures var w' := ConnectorTook(w, i);
            w'.sinks == w.sinks && w'.sources == w.sources && w'.connectors.Keys == w.connectors.Keys
  {
  }

  ghost predicate SameTasks(w: World, w': World) {
    w'.sinks == w.sinks && w'.sources == w.sources && w'.connectors == w.connectors
  }

  lemma QuietFrame(plant: Plant, w: World, step: Step)
    requires Enabled(plant, w, step) && !TaskStep(step) && !step.SinkTakes?
    ensures SameTasks(w, Apply(plant, w, step))
  {
    match step
    case Delivers(n) => NetFrame(w, Deliver(w.net, n));
    case PipeForwards(p) => NetFrame(w, Forward(plant.topo, w.net, p));
    case PipeReturns(p, takers) => ReturnFrame(w, p, takers);
    case SinkReplies(k, cb) =>
    case Operator(i, msg) =>
    case Wires(i, msg) =>
    case AsksFlow(alive) => AskFrame(w, alive);
    case FlowTakes => FlowFrame(w);
  }

  lemma NetFrame(w: World, net: Net)
    ensures SameTasks(w, w.(net := net))
  {
  }

  lemma ReturnFrame(w: World, p: nat, takers: seq<Node>)
    requires Contraflow(w.contraflow, p) != []
    ensures SameTasks(w, PipeReturned(w, p, takers))
  {
  }

  lemma AskFrame(w: World, alive: set<Uid>)
    ensures SameTasks(w, FlowAsked(w, alive))
  {
  }

  lemma FlowFrame(w: World)
    requires w.results != []
    ensures SameTasks(w, FlowTook(w))
  {
  }

  lemma OtherSinks(plant: Plant, w: World, step: Step)
    requires Enabled(plant, w, step) && !step.SinkTakes?
    ensures Apply(plant, w, step).sinks == w.sinks
  {
    match step
    case SourceTakes(i) => SourceTookFrame(plant, w, i);
    case SourcePulls(i, reply) => SourcePulledFrame(plant, w, i, reply);
    case ConnectorTakes(i) => ConnectorTookFrame(w, i);
    case _ => QuietFrame(plant, w, step);
  }

  // ----- a signal that was sent is somewhere on every way, or has been handled

  ghost predicate OnHop(net: Net, nodes: seq<Node>, j: nat, x: Item) {
    0 < j < |nodes| && (x in Inbox(net, nodes[j]) || (nodes[j], x) in Outbox(net, nodes[j - 1]))
  }

  ghost predicate SignalOn(net: Net, s: Uid, k: Uid, nodes: seq<Node>, x: Item) {
    x in Sent(net, s) ==> x in Log(net, k) || exists j: nat :: OnHop(net, nodes, j, x)
  }

  /** A way on which no task occurs twice, and a signal of its source. */
  ghost predicate SignalWay(topo: Topology, s: Uid, k: Uid, nodes: seq<Node>, x: Item) {
    Walk(topo, s, k, nodes) && Distinct(nodes) && x.Packet? && !x.body.Data? && x.origin == s
  }

  lemma HopCopied(topo: Topology, s: Uid, k: Uid, nodes: seq<Node>, x: Item, j: nat)
    requires SignalWay(topo, s, k, nodes, x) && 0 < j < |nodes|
    ensures (nodes[j], x) in Copies(topo, nodes[j - 1], 0, x)
  {
    SignalCarried(topo, nodes[j - 1], nodes[j], x);
    CarriedCopy(topo, nodes[j - 1], nodes[j], x);
  }

  /** Queues only grew. */
  lemma GrownOn(net: Net, net': Net, s: Uid, k: Uid, nodes: seq<Node>, x: Item)
    requires SignalOn(net, s, k, nodes, x) && net'.log == net.log && (x in Sent(net', s) ==> x in Sent(net, s))
    requires forall n :: x in Inbox(net, n) ==> x in Inbox(net', n)
    requires forall n, e :: e in Outbox(net, n) ==> e in Outbox(net', n)
    ensures SignalOn(net', s, k, nodes, x)
  {
    if x in Sent(net', s) && x !in Log(net, k) {
      var j: nat :| OnHop(net, nodes, j, x);
      assert OnHop(net', nodes, j, x);
    }
  }

  lemma EmitOn(topo: Topology, net: Net, i: Uid, body: Body, s: Uid, k: Uid, nodes: seq<Node>, x: Item)
    requires SignalWay(topo, s, k, nodes, x) && SignalOn(net, s, k, nodes, x)
    ensures SignalOn(Emit(topo, net, i, body), s, k, nodes, x)
  {
    var net' := Emit(topo, net, i, body);
    if Packet(i, body) == x {
      HopCopied(topo, s, k, nodes, x, 1);
      assert OnHop(net', nodes, 1, x);
    } else {
      GrownOn(net, net', s, k, nodes, x);
    }
  }

  lemma {:induction false} EmitAllOn(topo: Topology, net: Net, i: Uid, bodies: seq<Body>, s: Uid, k: Uid,
                                     nodes: seq<Node>, x: Item)
    requires SignalWay(topo, s, k, nodes, x) && SignalOn(net, s, k, nodes, x)
    ensures SignalOn(EmitAll(topo, net, i, bodies), s, k, nodes, x)
    decreases |bodies|
  {
    if bodies != [] {
      EmitOn(topo, net, i, bodies[0], s, k, nodes, x);
      EmitAllOn(topo, Emit(topo, net, i, bodies[0]), i, bodies[1..], s, k, nodes, x);
    }
  }

  lemma DeliverOn(net: Net, n: Node, s: Uid, k: Uid, nodes: seq<Node>, x: Item)
    requires SignalOn(net, s, k, nodes, x) && Outbox(net, n) != []
    ensures SignalOn(Deliver(net, n), s, k, nodes, x)
  {
    var net', e := Deliver(net, n), Outbox(net, n)[0];
    assert Outbox(net, n) == [e] + Outbox(net, n)[1..];
    if x in Sent(net', s) && x !in Log(net, k) {
      var j: nat :| OnHop(net, nodes, j, x);
      assert x in Inbox(net, nodes[j]) ==> x in Inbox(net', nodes[j]);
      assert OnHop(net', nodes, j, x);
    }
  }

  lemma ForwardOn(topo: Topology, net: Net, p: nat, s: Uid, k: Uid, nodes: seq<Node>, x: Item)
    requires SignalWay(topo, s, k, nodes, x) && SignalOn(net, s, k, nodes, x) && Inbox(net, PipeNode(p)) != []
    ensures SignalOn(Forward(topo, net, p), s, k, nodes, x)
  {
    var net' := Forward(topo, net, p);
    if x in Sent(net', s) && x !in Log(net, k) {
      var j: nat :| OnHop(net, nodes, j, x);
      if nodes[j] == PipeNode(p) && Inbox(net, PipeNode(p))[0] == x {
        HopCopied(topo, s, k, nodes, x, j + 1);
        Copied(net, net', p, Copies(topo, PipeNode(p), 0, x), (nodes[j + 1], x));
        assert OnHop(net', nodes, j + 1, x);
      } else {
        HopStays(net, net', p, nodes, j, x);
      }
    }
  }

  lemma Copied(net: Net, net': Net, p: nat, more: seq<(Node, Item)>, e: (Node, Item))
    requires net'.out == net.out[PipeNode(p) := Outbox(net, PipeNode(p)) + more] && e in more
    ensures e in Outbox(net', PipeNode(p))
  {
  }

  lemma HopStays(net: Net, net': Net, p: nat, nodes: seq<Node>, j: nat, x: Item)
    requires OnHop(net, nodes, j, x) && Inbox(net, PipeNode(p)) != []
             && !(nodes[j] == PipeNode(p) && Inbox(net, PipeNode(p))[0] == x)
    requires net'.inq == net.inq[PipeNode(p) := Inbox(net, PipeNode(p))[1..]]
    requires Outbox(net, PipeNode(p)) <= Outbox(net', PipeNode(p))
    requires forall n :: n != PipeNode(p) ==> Outbox(net', n) == Outbox(net, n)
    ensures OnHop(net', nodes, j, x)
  {
    var n := PipeNode(p);
    assert Inbox(net, n) == [Inbox(net, n)[0]] + Inbox(net, n)[1..];
    if (nodes[j], x) in Outbox(net, nodes[j - 1]) {
      var i := At(Outbox(net, nodes[j - 1]), (nodes[j], x));
      assert Outbox(net', nodes[j - 1])[i] == (nodes[j], x);
    }
  }

  lemma ConsumeOn(net: Net, q: Uid, s: Uid, k: Uid, nodes: seq<Node>, x: Item)
    requires Shape(s, k, nodes) && SignalOn(net, s, k, nodes, x) && Inbox(net, SinkNode(q)) != []
    ensures SignalOn(Consume(net, q), s, k, nodes, x)
  {
    var net', n := Consume(net, q), SinkNode(q);
    assert Inbox(net, n) == [Inbox(net, n)[0]] + Inbox(net, n)[1..];
    if x in Sent(net', s) && x !in Log(net', k) {
      assert x !in Log(net, k);
      var j: nat :| OnHop(net, nodes, j, x);
      assert OnHop(net', nodes, j, x);
    }
  }

  lemma {:induction false} InjectAllOn(net: Net, q: Uid, msgs: seq<SinkControl>, s: Uid, k: Uid, nodes: seq<Node>, x: Item)
    requires SignalOn(net, s, k, nodes, x)
    ensures SignalOn(InjectAll(net, q, msgs), s, k, nodes, x)
    decreases |msgs|
  {
    if msgs != [] {
      GrownOn(net, Inject(net, q, msgs[0]), s, k, nodes, x);
      InjectAllOn(Inject(net, q, msgs[0]), q, msgs[1..], s, k, nodes, x);
    }
  }

  lemma StepSignalOn(plant: Plant, w: World, step: Step, s: Uid, k: Uid, nodes: seq<Node>, x: Item)
    requires SignalWay(plant.topo, s, k, nodes, x) && SignalOn(w.net, s, k, nodes, x) && Enabled(plant, w, step)
    ensures SignalOn(Apply(plant, w, step).net, s, k, nodes, x)
  {
    match step
    case SourceTakes(i) => EmitAllOn(plant.topo, w.net, i, Bodies(S.OnMsg(w.sources[i], SourceIn(w, i)[0]).1), s, k, nodes, x);
    case SourcePulls(i, reply) => EmitAllOn(plant.topo, w.net, i, Bodies(S.OnReply(w.sources[i], reply).1), s, k, nodes, x);
    case Delivers(n) => DeliverOn(w.net, n, s, k, nodes, x);
    case PipeForwards(p) => ForwardOn(plant.topo, w.net, p, s, k, nodes, x);
    case SinkTakes(q, o, transactional, autoAck) => ConsumeOn(w.net, q, s, k, nodes, x);
    case ConnectorTakes(i) => InjectAllOn(w.net, i, ToSink(C.OnMsg(w.connectors[i], ConnectorIn(w, i)[0]).1), s, k, nodes, x);
    case _ =>
  }

  lemma {:induction false} AlwaysSignalOn(plant: Plant, run: Run, n: nat, s: Uid, k: Uid, nodes: seq<Node>, x: Item)
    requires IsRun(plant, run) && n < |run.states| && SignalWay(plant.topo, s, k, nodes, x)
    ensures SignalOn(run.states[n].net, s, k, nodes, x)
  {
    if n > 0 {
      AlwaysSignalOn(plant, run, n - 1, s, k, nodes, x);
      assert Moves(plant, run, n - 1);
      StepSignalOn(plant, run.states[n - 1], run.steps[n - 1], s, k, nodes, x);
    }
  }

  // ----- the flow tells as soon as it has counted enough answers

  ghost predicate Prompt(w: World) {
    w.asked.Some? && w.asked.value != {} ==>
      && (w.flow.expectedDrains > 0 ==> w.flow.drainSenders != [])
      && (|w.answers| >= |w.asked.value| ==> w.told)
  }

  lemma FlowTookPrompt(w: World)
    requires Prompt(w) && Counted(w) && w.results != []
    ensures Prompt(FlowTook(w))
  {
  }

  lemma FlowAskedPrompt(w: World, alive: set<Uid>)
    requires w.asked.None? && Counted(w) && alive <= w.connectors.Keys
    ensures Prompt(FlowAsked(w, alive))
  {
    if alive != {} {
      assert w.connectors != map[];
    }
  }

  lemma StepPrompt(plant: Plant, w: World, step: Step)
    requires Prompt(w) && Counted(w) && Enabled(plant, w, step)
    ensures Prompt(Apply(plant, w, step))
  {
    match step
    case AsksFlow(alive) => FlowAskedPrompt(w, alive);
    case FlowTakes => FlowTookPrompt(w);
    case _ =>
  }

  lemma MovePrompt(plant: Plant, run: Run, n: nat)
    requires IsRun(plant, run) && n < |run.steps| && Prompt(run.states[n]) && Counted(run.states[n])
    ensures Prompt(run.states[n + 1])
  {
    assert Moves(plant, run, n);
    StepPrompt(plant, run.states[n], run.steps[n]);
  }

  lemma AlwaysCounted(plant: Plant, run: Run, n: nat)
    requires IsRun(plant, run) && n < |run.states|
    ensures Counted(run.states[n])
  {
    AlwaysInvariant(plant, run, n);
  }

  lemma {:induction false} AlwaysPrompt(plant: Plant, run: Run, n: nat)
    requires IsRun(plant, run) && n < |run.states|
    ensures Prompt(run.states[n])
  {
    if n > 0 {
      AlwaysPrompt(plant, run, n - 1);
      AlwaysCounted(plant, run, n - 1);
      MovePrompt(plant, run, n - 1);
    }
  }
}
