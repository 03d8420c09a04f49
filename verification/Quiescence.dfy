/**
 The whole flow: sources, pipelines, sinks, connectors and the flow task run side by side and talk
 only over queues. A step lets one task take one message (or one pending send be made); any order of
 steps is a run. The results are `DrainLosesNothing` and `QuiescentMeansDelivered`.
 */
module Quiescence {
  import opened Protocol
  import opened Wrappers
  import opened Network
  import S = SourceTask
  import K = SinkTask
  import C = ConnectorLoop
  import F = FlowLoop

  /**
   The static wiring. `inputs` are the tasks a pipeline sends contraflow to, `pipes` those of a sink,
   one entry for each link.
   */
  datatype Plant = Plant(topo: Topology, inputs: map<nat, seq<Node>>, pipes: map<Uid, seq<Node>>)

  function Inputs(plant: Plant, p: nat): seq<Node> {
    if p in plant.inputs then plant.inputs[p] else []
  }

  function Pipes(plant: Plant, k: Uid): seq<Node> {
    if k in plant.pipes then plant.pipes[k] else []
  }

  /**
   The state of the flow. The last six fields are histories: the sinks each source has heard from,
   those it had heard from when it last reported to be drained, the sources that reported while they
   still waited for a sink, those that ever finished by themselves, the connectors the flow asked
   and those that answered.
   */
  datatype World = World(
    net: Net,
    sources: map<Uid, S.Source>,
    sourceIn: map<Uid, seq<SourceMsg>>,
    contraflow: map<nat, seq<CbAction>>,
    sinks: map<Uid, K.Sink>,
    connectors: map<Uid, C.Connector>,
    connectorIn: map<Uid, seq<C.Msg>>,
    flow: F.Flow,
    results: seq<Uid>,
    told: bool,
    heard: map<Uid, set<Uid>>,
    settled: map<Uid, set<Uid>>,
    hasty: set<Uid>,
    finished: set<Uid>,
    asked: Option<set<Uid>>,
    answers: seq<Uid>)

  function Messages(inboxes: map<Uid, seq<SourceMsg>>, i: Uid): seq<SourceMsg> {
    if i in inboxes then inboxes[i] else []
  }

  function SourceIn(w: World, i: Uid): seq<SourceMsg> {
    Messages(w.sourceIn, i)
  }

  function Contraflow(cf: map<nat, seq<CbAction>>, p: nat): seq<CbAction> {
    if p in cf then cf[p] else []
  }

  function ConnectorIn(w: World, i: Uid): seq<C.Msg> {
    if i in w.connectorIn then w.connectorIn[i] else []
  }

  function Heard(w: World, i: Uid): set<Uid> {
    if i in w.heard then w.heard[i] else {}
  }

  ghost predicate Init(w: World) {
    && w.net == EMPTY
    && (forall i :: i in w.sources ==> w.sources[i] == S.Fresh(i, w.sources[i].isAsync))
    && (forall k :: k in w.sinks ==> w.sinks[k] == K.Fresh(k))
    && (forall i :: i in w.connectors ==> w.connectors[i] == C.Fresh(i in w.sources, i in w.sinks))
    && w.sourceIn == map[] && w.contraflow == map[] && w.connectorIn == map[]
    && w.flow == F.Flow(F.Initializing, 0, []) && w.results == [] && !w.told
    && w.heard == map[] && w.settled == map[] && w.hasty == {} && w.finished == {} && w.asked.None? && w.answers == []
  }

  // ----- effects

  /** What a source sends forward. The routing of the topology stands for ports and pipelines alike. */
  function Bodies(effects: seq<S.Effect>): seq<Body> {
    if effects == [] then [] else BodiesOf(effects[0]) + Bodies(effects[1..])
  }

  function BodiesOf(effect: S.Effect): seq<Body> {
    match effect
    case SendSignal(body) => [body]
    case RouteEvent(_, event) => [Data(event)]
    case ReportDrained => []
  }

  function EmitAll(topo: Topology, net: Net, i: Uid, bodies: seq<Body>): Net
    decreases |bodies|
  {
    if bodies == [] then net else EmitAll(topo, Emit(topo, net, i, bodies[0]), i, bodies[1..])
  }

  function SinkInsights(effects: seq<K.Effect>): seq<CbAction> {
    if effects == [] then []
    else if effects[0].Insight? then [effects[0].cb] + SinkInsights(effects[1..])
    else SinkInsights(effects[1..])
  }

  /** Contraflow `cb` reaches the pipelines among `takers`. */
  function ToPipes(cf: map<nat, seq<CbAction>>, takers: seq<Node>, cb: CbAction): map<nat, seq<CbAction>>
    decreases |takers|
  {
    if takers == [] then cf
    else
      var p := takers[0];
      ToPipes(if p.PipeNode? then cf[p.pid := Contraflow(cf, p.pid) + [cb]] else cf, takers[1..], cb)
  }

  function ToPipesEach(cf: map<nat, seq<CbAction>>, takers: seq<Node>, cbs: seq<CbAction>): map<nat, seq<CbAction>>
    decreases |cbs|
  {
    if cbs == [] then cf else ToPipesEach(ToPipes(cf, takers, cbs[0]), takers, cbs[1..])
  }

  /** Contraflow `cb` reaches the sources among `takers`. */
  function ToSources(inboxes: map<Uid, seq<SourceMsg>>, takers: seq<Node>, cb: CbAction): map<Uid, seq<SourceMsg>>
    decreases |takers|
  {
    if takers == [] then inboxes
    else
      var n := takers[0];
      ToSources(if n.SourceNode? then inboxes[n.uid := Messages(inboxes, n.uid) + [Cb(cb)]] else inboxes, takers[1..], cb)
  }

  // ----- steps

  datatype Step =
    | SourceTakes(i: Uid)
    | SourcePulls(i: Uid, reply: S.Reply)
    | Delivers(n: Node)
    | PipeForwards(p: nat)
    | PipeReturns(p: nat, takers: seq<Node>)
    | SinkTakes(k: Uid, o: K.Outcome, transactional: bool, autoAck: bool)
    | SinkReplies(k: Uid, cb: CbAction)
    | ConnectorTakes(i: Uid)
    | Operator(i: Uid, msg: C.Msg)
    | Wires(i: Uid, wire: SourceMsg)
    | AsksFlow(alive: set<Uid>)
    | FlowTakes

  /** Insights only the runtime itself makes; sink implementations do not forge them. */
  predicate Reserved(cb: CbAction) {
    cb.SinkStart? || cb.DrainedBy?
  }

  predicate AlwaysDelivered(cb: CbAction) {
    cb.Trigger? || cb.Restore? || Reserved(cb)
  }

  ghost predicate Enabled(plant: Plant, w: World, step: Step) {
    match step
    case SourceTakes(i) => i in w.sources && w.sources[i].phase != S.Stopped && SourceIn(w, i) != []
    case SourcePulls(i, reply) => i in w.sources && S.Possible(w.sources[i], S.Pulled(reply))
    case Delivers(n) => Outbox(w.net, n) != []
    case PipeForwards(p) => Inbox(w.net, PipeNode(p)) != []
    case PipeReturns(p, takers) =>
      && Contraflow(w.contraflow, p) != []
      && multiset(takers) <= multiset(Inputs(plant, p))
      && (AlwaysDelivered(Contraflow(w.contraflow, p)[0]) ==> takers == Inputs(plant, p))
    case SinkTakes(k, o, _, _) =>
      && k in w.sinks && w.sinks[k].phase != K.Stopped
      && Inbox(w.net, SinkNode(k)) != []
      && (o.Replied? ==> !Reserved(o.cb))
    case SinkReplies(k, cb) => k in w.sinks && !Reserved(cb)
    case ConnectorTakes(i) => i in w.connectors && w.connectors[i].phase != C.Stopped && ConnectorIn(w, i) != []
    case Operator(i, msg) => i in w.connectors && msg !in {C.Drain, C.SourceDrained, C.SinkDrained}
    case Wires(i, msg) => i in w.sources && (msg.LinkSource? || msg.ConnectSource?)
    case AsksFlow(alive) => w.asked.None? && alive <= w.connectors.Keys
    case FlowTakes => w.results != []
  }

  /** Source `i` has become `s`, with `effects`. */
  function WithSource(plant: Plant, w: World, i: Uid, s: S.Source, effects: seq<S.Effect>): World {
    var reports := S.ReportDrained in effects;
    w.(sources := w.sources[i := s],
       net := EmitAll(plant.topo, w.net, i, Bodies(effects)),
       connectorIn := if reports then w.connectorIn[i := ConnectorIn(w, i) + [C.SourceDrained]] else w.connectorIn,
       settled := if reports && s.started == {} then w.settled[i := Heard(w, i)] else w.settled,
       hasty := if reports && s.started != {} then w.hasty + {i} else w.hasty)
  }

  /** Source `i` has taken its oldest message; announcements of sinks are remembered. */
  function Taken(w: World, i: Uid): World
    requires SourceIn(w, i) != []
  {
    var msg := SourceIn(w, i)[0];
    w.(sourceIn := w.sourceIn[i := SourceIn(w, i)[1..]],
       heard := if msg.Cb? && msg.cb.SinkStart? then w.heard[i := Heard(w, i) + {msg.cb.sink}] else w.heard)
  }

  function SourceTook(plant: Plant, w: World, i: Uid): World
    requires i in w.sources && SourceIn(w, i) != []
  {
    var (s, effects) := S.OnMsg(w.sources[i], SourceIn(w, i)[0]);
    WithSource(plant, Taken(w, i), i, s, effects)
  }

  /** A source that finishes by itself is remembered. */
  function Marked(w: World, i: Uid, reply: S.Reply): World {
    w.(finished := if reply.Finished? then w.finished + {i} else w.finished)
  }

  function SourcePulled(plant: Plant, w: World, i: Uid, reply: S.Reply): World
    requires i in w.sources
  {
    var (s, effects) := S.OnReply(w.sources[i], reply);
    WithSource(plant, Marked(w, i, reply), i, s, effects)
  }

  function PipeReturned(w: World, p: nat, takers: seq<Node>): World
    requires Contraflow(w.contraflow, p) != []
  {
    var cb := Contraflow(w.contraflow, p)[0];
    var rest := w.contraflow[p := Contraflow(w.contraflow, p)[1..]];
    w.(contraflow := ToPipes(rest, takers, cb), sourceIn := ToSources(w.sourceIn, takers, cb))
  }

  function SinkTook(plant: Plant, w: World, k: Uid, o: K.Outcome, transactional: bool, autoAck: bool): World
    requires k in w.sinks && Inbox(w.net, SinkNode(k)) != []
  {
    var (k', effects) := K.OnItem(w.sinks[k], Inbox(w.net, SinkNode(k))[0], o, transactional, autoAck);
    w.(sinks := w.sinks[k := k'],
       net := Consume(w.net, k),
       contraflow := ToPipesEach(w.contraflow, Pipes(plant, k), SinkInsights(effects)),
       connectorIn := if K.ReportDrained in effects then w.connectorIn[k := ConnectorIn(w, k) + [C.SinkDrained]]
                      else w.connectorIn)
  }

  function ToSource(effects: seq<C.Effect>): seq<SourceMsg> {
    if effects == [] then []
    else if effects[0].ToSource? then [effects[0].source] + ToSource(effects[1..])
    else ToSource(effects[1..])
  }

  function ToSink(effects: seq<C.Effect>): seq<SinkControl> {
    if effects == [] then []
    else if effects[0].ToSink? then [effects[0].sink] + ToSink(effects[1..])
    else ToSink(effects[1..])
  }

  function ToSelf(effects: seq<C.Effect>): seq<C.Msg> {
    if effects == [] then []
    else if effects[0].ToSelf? then [effects[0].msg] + ToSelf(effects[1..])
    else ToSelf(effects[1..])
  }

  function InjectAll(net: Net, k: Uid, msgs: seq<SinkControl>): Net
    decreases |msgs|
  {
    if msgs == [] then net else InjectAll(Inject(net, k, msgs[0]), k, msgs[1..])
  }

  function ConnectorTook(w: World, i: Uid): World
    requires i in w.connectors && ConnectorIn(w, i) != []
  {
    var (c, effects) := C.OnMsg(w.connectors[i], ConnectorIn(w, i)[0]);
    w.(connectors := w.connectors[i := c],
       connectorIn := w.connectorIn[i := ConnectorIn(w, i)[1..] + ToSelf(effects)],
       sourceIn := w.sourceIn[i := SourceIn(w, i) + ToSource(effects)],
       net := InjectAll(w.net, i, ToSink(effects)),
       results := if C.AnswerDrain in effects then w.results + [i] else w.results)
  }

  function ConnectorTold(w: World, i: Uid, msg: C.Msg): World {
    w.(connectorIn := w.connectorIn[i := ConnectorIn(w, i) + [msg]])
  }

  /** Source `i` is told about a pipeline it is linked to, or that it shall connect. */
  function SourceWired(w: World, i: Uid, msg: SourceMsg): World {
    w.(sourceIn := w.sourceIn[i := SourceIn(w, i) + [msg]])
  }

  /** The flow asks the connectors in `alive` to drain, once. */
  function FlowAsked(w: World, alive: set<Uid>): World {
    var (f, told) := F.OnDrain(w.flow, 0, w.connectors != map[], |alive|);
    w.(flow := f,
       told := w.told || told != [],
       connectorIn := map i | i in w.connectorIn.Keys + alive :: ConnectorIn(w, i) + if i in alive then [C.Drain] else [],
       asked := Some(alive),
       answers := [])
  }

  function FlowTook(w: World): World
    requires w.results != []
  {
    var (f, told) := F.OnDrainResult(w.flow);
    w.(flow := f, results := w.results[1..], told := w.told || told != [], answers := w.answers + [w.results[0]])
  }

  ghost function Apply(plant: Plant, w: World, step: Step): World
    requires Enabled(plant, w, step)
  {
    match step
    case SourceTakes(i) => SourceTook(plant, w, i)
    case SourcePulls(i, reply) => SourcePulled(plant, w, i, reply)
    case Delivers(n) => w.(net := Deliver(w.net, n))
    case PipeForwards(p) => w.(net := Forward(plant.topo, w.net, p))
    case PipeReturns(p, takers) => PipeReturned(w, p, takers)
    case SinkTakes(k, o, transactional, autoAck) => SinkTook(plant, w, k, o, transactional, autoAck)
    case SinkReplies(k, cb) => w.(contraflow := ToPipes(w.contraflow, Pipes(plant, k), cb))
    case ConnectorTakes(i) => ConnectorTook(w, i)
    case Operator(i, msg) => ConnectorTold(w, i, msg)
    case Wires(i, msg) => SourceWired(w, i, msg)
    case AsksFlow(alive) => FlowAsked(w, alive)
    case FlowTakes => FlowTook(w)
  }

  /** A run: `states[i + 1]` is what `steps[i]` makes of `states[i]`. */
  datatype Run = Run(states: seq<World>, steps: seq<Step>)

  ghost predicate Shaped(run: Run) {
    |run.states| == |run.steps| + 1
  }

  ghost predicate Moves(plant: Plant, run: Run, i: nat)
    requires Shaped(run) && i < |run.steps|
  {
    Enabled(plant, run.states[i], run.steps[i]) && run.states[i + 1] == Apply(plant, run.states[i], run.steps[i])
  }

  ghost predicate IsRun(plant: Plant, run: Run) {
    && Shaped(run)
    && Init(run.states[0])
    && forall i :: 0 <= i < |run.steps| ==> Moves(plant, run, i)
  }

  // ----- conservation on every sole path, in every run

  lemma {:induction false} EmitAllConserved(topo: Topology, r: Route, net: Net, i: Uid, bodies: seq<Body>)
    requires SolePath(topo, r) && Conserved(topo, r, net)
    ensures Conserved(topo, r, EmitAll(topo, net, i, bodies))
    decreases |bodies|
  {
    if bodies != [] {
      EmitConserved(topo, r, net, i, bodies[0]);
      EmitAllConserved(topo, r, Emit(topo, net, i, bodies[0]), i, bodies[1..]);
    }
  }

  lemma {:induction false} InjectAllConserved(topo: Topology, r: Route, net: Net, k: Uid, msgs: seq<SinkControl>)
    requires SolePath(topo, r) && Conserved(topo, r, net)
    ensures Conserved(topo, r, InjectAll(net, k, msgs))
    decreases |msgs|
  {
    if msgs != [] {
      InjectConserved(topo, r, net, k, msgs[0]);
      InjectAllConserved(topo, r, Inject(net, k, msgs[0]), k, msgs[1..]);
    }
  }

  lemma StepConserves(plant: Plant, r: Route, w: World, step: Step)
    requires SolePath(plant.topo, r) && Conserved(plant.topo, r, w.net) && Enabled(plant, w, step)
    ensures Conserved(plant.topo, r, Apply(plant, w, step).net)
  {
    match step
    case SourceTakes(i) =>
      EmitAllConserved(plant.topo, r, w.net, i, Bodies(S.OnMsg(w.sources[i], SourceIn(w, i)[0]).1));
    case SourcePulls(i, reply) =>
      EmitAllConserved(plant.topo, r, w.net, i, Bodies(S.OnReply(w.sources[i], reply).1));
    case Delivers(n) =>
      DeliverContained(plant.topo, r, w.net, n);
      DeliverBalanced(plant.topo, r, w.net, n);
    case PipeForwards(p) =>
      ForwardContained(plant.topo, r, w.net, p);
      ForwardBalanced(plant.topo, r, w.net, p);
    case SinkTakes(k, o, transactional, autoAck) =>
      ConsumeContained(plant.topo, r, w.net, k);
      ConsumeBalanced(plant.topo, r, w.net, k);
    case ConnectorTakes(i) =>
      InjectAllConserved(plant.topo, r, w.net, i, ToSink(C.OnMsg(w.connectors[i], ConnectorIn(w, i)[0]).1));
    case _ =>
  }

  /** In every reachable state, what a source sent a sink is what the sink handled, then what is in flight. */
  lemma {:induction false} AlwaysConserved(plant: Plant, r: Route, run: Run, n: nat)
    requires IsRun(plant, run) && SolePath(plant.topo, r) && n < |run.states|
    ensures Conserved(plant.topo, r, run.states[n].net)
  {
    if n == 0 {
      EmptyConserved(plant.topo, r);
    } else {
      AlwaysConserved(plant, r, run, n - 1);
      assert Moves(plant, run, n - 1);
      StepConserves(plant, r, run.states[n - 1], run.steps[n - 1]);
    }
  }

  // ----- acknowledgements are true

  /** Sink `k` has handled the drain signal of source `s`. */
  ghost predicate Handled(net: Net, s: Uid, k: Uid) {
    Packet(s, DrainSignal) in Log(net, k)
  }

  lemma {:induction false} EmitAllLog(topo: Topology, net: Net, i: Uid, bodies: seq<Body>)
    ensures EmitAll(topo, net, i, bodies).log == net.log
    decreases |bodies|
  {
    if bodies != [] {
      EmitAllLog(topo, Emit(topo, net, i, bodies[0]), i, bodies[1..]);
    }
  }

  lemma {:induction false} InjectAllLog(net: Net, k: Uid, msgs: seq<SinkControl>)
    ensures InjectAll(net, k, msgs).log == net.log
    decreases |msgs|
  {
    if msgs != [] {
      InjectAllLog(Inject(net, k, msgs[0]), k, msgs[1..]);
    }
  }

  lemma SourcePulledLog(plant: Plant, w: World, i: Uid, reply: S.Reply)
    requires i in w.sources
    ensures SourcePulled(plant, w, i, reply).net.log == w.net.log
  {
    EmitAllLog(plant.topo, w.net, i, Bodies(S.OnReply(w.sources[i], reply).1));
  }

  lemma SourceTookLog(plant: Plant, w: World, i: Uid)
    requires i in w.sources && SourceIn(w, i) != []
    ensures SourceTook(plant, w, i).net.log == w.net.log
  {
    EmitAllLog(plant.topo, w.net, i, Bodies(S.OnMsg(w.sources[i], SourceIn(w, i)[0]).1));
  }

  lemma ConnectorTookLog(w: World, i: Uid)
    requires i in w.connectors && ConnectorIn(w, i) != []
    ensures ConnectorTook(w, i).net.log == w.net.log
  {
    InjectAllLog(w.net, i, ToSink(C.OnMsg(w.connectors[i], ConnectorIn(w, i)[0]).1));
  }

  predicate TaskStep(step: Step) {
    step.SourceTakes? || step.SourcePulls? || step.ConnectorTakes?
  }

  lemma TaskLogStep(plant: Plant, w: World, step: Step)
    requires Enabled(plant, w, step) && TaskStep(step)
    ensures Apply(plant, w, step).net.log == w.net.log
  {
    match step
    case SourceTakes(i) => SourceTookLog(plant, w, i);
    case SourcePulls(i, reply) => SourcePulledLog(plant, w, i, reply);
    case ConnectorTakes(i) => ConnectorTookLog(w, i);
  }

  /** Only a sink that takes a message changes what is handled. */
  lemma LogStep(plant: Plant, w: World, step: Step)
    requires Enabled(plant, w, step) && !step.SinkTakes?
    ensures Apply(plant, w, step).net.log == w.net.log
  {
    if TaskStep(step) {
      TaskLogStep(plant, w, step);
    } else if step.Delivers? || step.PipeForwards? {
      CarryLogStep(plant, w, step);
    }
  }

  lemma CarryLogStep(plant: Plant, w: World, step: Step)
    requires Enabled(plant, w, step) && (step.Delivers? || step.PipeForwards?)
    ensures Apply(plant, w, step).net.log == w.net.log
  {
  }

  lemma HandledGrows(plant: Plant, w: World, step: Step)
    requires Enabled(plant, w, step)
    ensures forall s, k :: Handled(w.net, s, k) ==> Handled(Apply(plant, w, step).net, s, k)
  {
    if !step.SinkTakes? {
      LogStep(plant, w, step);
    }
  }

  ghost predicate True(net: Net, cbs: seq<CbAction>) {
    forall s, k :: DrainedBy(s, k) in cbs ==> Handled(net, s, k)
  }

  ghost predicate AllTrue(net: Net, cf: map<nat, seq<CbAction>>) {
    forall p :: True(net, Contraflow(cf, p))
  }

  ghost predicate TrueContraflow(w: World) {
    (forall k :: k in w.sinks ==> w.sinks[k].uid == k) && AllTrue(w.net, w.contraflow)
  }

  ghost predicate TrueInboxes(net: Net, inboxes: map<Uid, seq<SourceMsg>>) {
    forall i, s, k :: i in inboxes && Cb(DrainedBy(s, k)) in inboxes[i] ==> Handled(net, s, k)
  }

  lemma {:induction false} SinkInsightsMember(effects: seq<K.Effect>, cb: CbAction)
    ensures cb in SinkInsights(effects) <==> K.Insight(cb) in effects
  {
    if effects != [] {
      SinkInsightsMember(effects[1..], cb);
      assert effects == [effects[0]] + effects[1..];
    }
  }

  lemma {:induction false} ToPipesTrue(net: Net, cf: map<nat, seq<CbAction>>, takers: seq<Node>, cb: CbAction)
    requires AllTrue(net, cf) && True(net, [cb])
    ensures AllTrue(net, ToPipes(cf, takers, cb))
    decreases |takers|
  {
    if takers != [] {
      var n := takers[0];
      var next := if n.PipeNode? then cf[n.pid := Contraflow(cf, n.pid) + [cb]] else cf;
      forall p
        ensures True(net, Contraflow(next, p))
      {
        assert True(net, Contraflow(cf, p));
        AddedTrue(net, Contraflow(cf, p), cb);
      }
      ToPipesTrue(net, next, takers[1..], cb);
    }
  }

  lemma AddedTrue(net: Net, cbs: seq<CbAction>, cb: CbAction)
    requires True(net, cbs) && True(net, [cb])
    ensures True(net, cbs + [cb])
  {
    forall s, k | DrainedBy(s, k) in cbs + [cb]
      ensures Handled(net, s, k)
    {
      assert DrainedBy(s, k) in cbs || DrainedBy(s, k) in [cb];
    }
  }

  lemma {:induction false} ToPipesEachTrue(net: Net, cf: map<nat, seq<CbAction>>, takers: seq<Node>, cbs: seq<CbAction>)
    requires AllTrue(net, cf) && True(net, cbs)
    ensures AllTrue(net, ToPipesEach(cf, takers, cbs))
    decreases |cbs|
  {
    if cbs != [] {
      assert forall x :: x in [cbs[0]] || x in cbs[1..] ==> x in cbs;
      ToPipesTrue(net, cf, takers, cbs[0]);
      ToPipesEachTrue(net, ToPipes(cf, takers, cbs[0]), takers, cbs[1..]);
    }
  }

  lemma AllTrueGrows(net: Net, net': Net, cf: map<nat, seq<CbAction>>)
    requires AllTrue(net, cf) && forall s, k :: Handled(net, s, k) ==> Handled(net', s, k)
    ensures AllTrue(net', cf)
  {
    forall p ensures True(net', Contraflow(cf, p)) {
      assert True(net, Contraflow(cf, p));
    }
  }

  /** What a sink announces while it handles a message is true afterwards. */
  lemma SinkTellsTrue(net: Net, sink: K.Sink, o: K.Outcome, transactional: bool, autoAck: bool)
    requires Inbox(net, SinkNode(sink.uid)) != [] && (o.Replied? ==> !Reserved(o.cb))
    ensures var x := Inbox(net, SinkNode(sink.uid))[0];
            True(Consume(net, sink.uid), SinkInsights(K.OnItem(sink, x, o, transactional, autoAck).1))
  {
    var x := Inbox(net, SinkNode(sink.uid))[0];
    var input := K.Input(x, o, transactional, autoAck);
    var effects := K.Step(sink, input).1;
    forall s, k | DrainedBy(s, k) in SinkInsights(effects)
      ensures Handled(Consume(net, sink.uid), s, k)
    {
      SinkInsightsMember(effects, DrainedBy(s, k));
      K.AcknowledgesDrain(sink, input, s, k);
      var log := Log(net, k) + [x];
      assert log[|log| - 1] == x;
    }
  }

  lemma SinkTookTrue(plant: Plant, w: World, k: Uid, o: K.Outcome, transactional: bool, autoAck: bool)
    requires TrueContraflow(w) && k in w.sinks && Inbox(w.net, SinkNode(k)) != [] && (o.Replied? ==> !Reserved(o.cb))
    ensures TrueContraflow(SinkTook(plant, w, k, o, transactional, autoAck))
  {
    SinkTellsTrue(w.net, w.sinks[k], o, transactional, autoAck);
    K.KeepsUid(w.sinks[k], K.Input(Inbox(w.net, SinkNode(k))[0], o, transactional, autoAck));
    AllTrueGrows(w.net, Consume(w.net, k), w.contraflow);
    ToPipesEachTrue(Consume(w.net, k), w.contraflow, Pipes(plant, k),
                    SinkInsights(K.OnItem(w.sinks[k], Inbox(w.net, SinkNode(k))[0], o, transactional, autoAck).1));
  }

  lemma ReturnedTrue(net: Net, cf: map<nat, seq<CbAction>>, p: nat, takers: seq<Node>)
    requires Contraflow(cf, p) != [] && AllTrue(net, cf)
    ensures True(net, [Contraflow(cf, p)[0]])
    ensures AllTrue(net, ToPipes(cf[p := Contraflow(cf, p)[1..]], takers, Contraflow(cf, p)[0]))
  {
    var cb, rest := Contraflow(cf, p)[0], cf[p := Contraflow(cf, p)[1..]];
    assert True(net, Contraflow(cf, p)) && cb in Contraflow(cf, p);
    forall q ensures True(net, Contraflow(rest, q)) {
      assert True(net, Contraflow(cf, q));
      assert forall x :: x in Contraflow(rest, q) ==> x in Contraflow(cf, q);
    }
    ToPipesTrue(net, rest, takers, cb);
  }

  lemma PipeReturnedTrue(w: World, p: nat, takers: seq<Node>)
    requires TrueContraflow(w) && Contraflow(w.contraflow, p) != []
    ensures TrueContraflow(PipeReturned(w, p, takers))
  {
    ReturnedTrue(w.net, w.contraflow, p, takers);
  }

  lemma StepTrueContraflow(plant: Plant, w: World, step: Step)
    requires TrueContraflow(w) && Enabled(plant, w, step)
    ensures TrueContraflow(Apply(plant, w, step))
  {
    match step
    case PipeReturns(p, takers) => PipeReturnedTrue(w, p, takers);
    case SinkTakes(k, o, transactional, autoAck) => SinkTookTrue(plant, w, k, o, transactional, autoAck);
    case SinkReplies(k, cb) => ToPipesTrue(w.net, w.contraflow, Pipes(plant, k), cb);
    case _ => OthersTrueContraflow(plant, w, step);
  }

  lemma OthersTrueContraflow(plant: Plant, w: World, step: Step)
    requires TrueContraflow(w) && Enabled(plant, w, step) && !step.PipeReturns? && !step.SinkTakes? && !step.SinkReplies?
    ensures TrueContraflow(Apply(plant, w, step))
  {
    LogStep(plant, w, step);
    AllTrueGrows(w.net, Apply(plant, w, step).net, w.contraflow);
  }

  lemma {:induction false} ToSourcesTrue(net: Net, inboxes: map<Uid, seq<SourceMsg>>, takers: seq<Node>, cb: CbAction)
    requires TrueInboxes(net, inboxes) && True(net, [cb])
    ensures TrueInboxes(net, ToSources(inboxes, takers, cb))
    decreases |takers|
  {
    if takers != [] {
      var n := takers[0];
      var next := if n.SourceNode? then inboxes[n.uid := Messages(inboxes, n.uid) + [Cb(cb)]] else inboxes;
      forall i, s, k | i in next && Cb(DrainedBy(s, k)) in next[i]
        ensures Handled(net, s, k)
      {
        assert Cb(DrainedBy(s, k)) in Messages(inboxes, i) || DrainedBy(s, k) in [cb];
      }
      ToSourcesTrue(net, next, takers[1..], cb);
    }
  }

  lemma InboxesGrow(net: Net, net': Net, inboxes: map<Uid, seq<SourceMsg>>)
    requires TrueInboxes(net, inboxes) && forall s, k :: Handled(net, s, k) ==> Handled(net', s, k)
    ensures TrueInboxes(net', inboxes)
  {
  }

  lemma StepTrueInboxes(plant: Plant, w: World, step: Step)
    requires TrueContraflow(w) && TrueInboxes(w.net, w.sourceIn) && Enabled(plant, w, step)
    ensures TrueInboxes(Apply(plant, w, step).net, Apply(plant, w, step).sourceIn)
  {
    HandledGrows(plant, w, step);
    InboxesGrow(w.net, Apply(plant, w, step).net, w.sourceIn);
    match step
    case SourceTakes(i) =>
      assert forall m :: m in SourceIn(w, i)[1..] ==> m in SourceIn(w, i);
    case PipeReturns(p, takers) =>
      ReturnedTrue(w.net, w.contraflow, p, takers);
      ToSourcesTrue(w.net, w.sourceIn, takers, Contraflow(w.contraflow, p)[0]);
    case ConnectorTakes(i) =>
      forall s, k ensures Cb(DrainedBy(s, k)) !in ToSource(C.OnMsg(w.connectors[i], ConnectorIn(w, i)[0]).1) {
        ConnectorSendsNoCb(w.connectors[i], ConnectorIn(w, i)[0], DrainedBy(s, k));
      }
    case _ =>
  }

  lemma {:induction false} ToSourceMember(effects: seq<C.Effect>, msg: SourceMsg)
    ensures msg in ToSource(effects) <==> C.ToSource(msg) in effects
  {
    if effects != [] {
      ToSourceMember(effects[1..], msg);
      assert effects == [effects[0]] + effects[1..];
    }
  }

  lemma ConnectorSendsNoCb(c: C.Connector, msg: C.Msg, cb: CbAction)
    ensures Cb(cb) !in ToSource(C.OnMsg(c, msg).1)
  {
    ToSourceMember(C.OnMsg(c, msg).1, Cb(cb));
  }

  // ----- sources wait for every sink they heard from

  ghost predicate Accounted(w: World, i: Uid)
    requires i in w.sources
  {
    w.sources[i].uid == i && forall k :: k in Heard(w, i) ==> k in w.sources[i].started || Handled(w.net, i, k)
  }

  ghost predicate AllAccounted(w: World) {
    forall i :: i in w.sources ==> Accounted(w, i)
  }

  lemma SourceTookAccounted(plant: Plant, w: World, i: Uid)
    requires AllAccounted(w) && TrueInboxes(w.net, w.sourceIn) && i in w.sources && SourceIn(w, i) != []
    ensures AllAccounted(SourceTook(plant, w, i))
  {
    var w', msg := SourceTook(plant, w, i), SourceIn(w, i)[0];
    var s := w.sources[i];
    assert Accounted(w, i) && msg in SourceIn(w, i);
    SourceTookLog(plant, w, i);
    forall k | k in Heard(w', i)
      ensures k in w'.sources[i].started || Handled(w'.net, i, k)
    {
      S.StartedStep(s, S.Told(msg), k);
    }
    S.StartedStep(s, S.Told(msg), 0);
    forall j | j in w'.sources
      ensures Accounted(w', j)
    {
      assert j != i ==> Accounted(w, j) && w'.sources[j] == w.sources[j] && Heard(w', j) == Heard(w, j);
    }
  }

  lemma SourcePulledAccounted(plant: Plant, w: World, i: Uid, reply: S.Reply)
    requires AllAccounted(w) && i in w.sources
    ensures AllAccounted(SourcePulled(plant, w, i, reply))
  {
    var w', s := SourcePulled(plant, w, i, reply), w.sources[i];
    assert Accounted(w, i);
    EmitAllLog(plant.topo, w.net, i, Bodies(S.OnReply(s, reply).1));
    forall k ensures k in S.OnReply(s, reply).0.started <==> k in s.started {
      S.StartedStep(s, S.Pulled(reply), k);
    }
    S.StartedStep(s, S.Pulled(reply), 0);
    forall j | j in w'.sources
      ensures Accounted(w', j)
    {
      assert j != i ==> Accounted(w, j) && w'.sources[j] == w.sources[j] && Heard(w', j) == Heard(w, j);
    }
  }

  lemma StepAccounted(plant: Plant, w: World, step: Step)
    requires AllAccounted(w) && TrueInboxes(w.net, w.sourceIn) && Enabled(plant, w, step)
    ensures AllAccounted(Apply(plant, w, step))
  {
    match step
    case SourceTakes(i) => SourceTookAccounted(plant, w, i);
    case SourcePulls(i, reply) => SourcePulledAccounted(plant, w, i, reply);
    case _ => OthersAccounted(plant, w, step);
  }

  lemma OthersAccounted(plant: Plant, w: World, step: Step)
    requires AllAccounted(w) && Enabled(plant, w, step) && !step.SourceTakes? && !step.SourcePulls?
    ensures AllAccounted(Apply(plant, w, step))
  {
    HandledGrows(plant, w, step);
    OtherFrame(plant, w, step);
    AccountedGrows(w, Apply(plant, w, step));
  }

  /** Only sources change what is known of sources. */
  lemma OtherFrame(plant: Plant, w: World, step: Step)
    requires Enabled(plant, w, step) && !step.SourceTakes? && !step.SourcePulls?
    ensures var w' := Apply(plant, w, step);
            && w'.sources == w.sources && w'.heard == w.heard && w'.settled == w.settled && w'.finished == w.finished
            && w'.hasty == w.hasty && (w.asked.Some? ==> w'.asked == w.asked)
  {
    match step
    case ConnectorTakes(i) =>
    case SinkTakes(k, o, transactional, autoAck) =>
    case PipeReturns(p, takers) =>
    case AsksFlow(alive) =>
    case FlowTakes =>
    case _ =>
  }

  lemma AccountedGrows(w: World, w': World)
    requires AllAccounted(w) && w'.sources == w.sources && w'.heard == w.heard
    requires forall s, k :: Handled(w.net, s, k) ==> Handled(w'.net, s, k)
    ensures AllAccounted(w')
  {
    forall i | i in w'.sources ensures Accounted(w', i) {
      assert Accounted(w, i);
    }
  }

  /** The sinks a source had heard from when it last reported to be drained have handled its drain signal. */
  ghost predicate AllSettled(w: World) {
    forall i, k :: i in w.settled && k in w.settled[i] ==> Handled(w.net, i, k)
  }

  lemma SourceTookSettled(plant: Plant, w: World, i: Uid)
    requires AllSettled(w) && AllAccounted(w) && TrueInboxes(w.net, w.sourceIn) && i in w.sources && SourceIn(w, i) != []
    ensures AllSettled(SourceTook(plant, w, i))
  {
    SourceTookAccounted(plant, w, i);
    assert Accounted(SourceTook(plant, w, i), i);
    SourceTookLog(plant, w, i);
  }

  lemma SourcePulledSettled(plant: Plant, w: World, i: Uid, reply: S.Reply)
    requires AllSettled(w) && AllAccounted(w) && i in w.sources
    ensures AllSettled(SourcePulled(plant, w, i, reply))
  {
    SourcePulledAccounted(plant, w, i, reply);
    assert Accounted(SourcePulled(plant, w, i, reply), i);
    SourcePulledLog(plant, w, i, reply);
  }

  lemma StepSettled(plant: Plant, w: World, step: Step)
    requires AllSettled(w) && AllAccounted(w) && TrueInboxes(w.net, w.sourceIn) && Enabled(plant, w, step)
    ensures AllSettled(Apply(plant, w, step))
  {
    if step.SourceTakes? {
      SourceTookSettled(plant, w, step.i);
    } else if step.SourcePulls? {
      SourcePulledSettled(plant, w, step.i, step.reply);
    } else {
      OthersSettled(plant, w, step);
    }
  }

  lemma OthersSettled(plant: Plant, w: World, step: Step)
    requires AllSettled(w) && Enabled(plant, w, step) && !step.SourceTakes? && !step.SourcePulls?
    ensures AllSettled(Apply(plant, w, step))
  {
    HandledGrows(plant, w, step);
    assert Apply(plant, w, step).settled == w.settled;
  }

  // ----- connectors and the flow only pass on what sources reported

  /** Source `i` has reported to be drained at least once. */
  ghost predicate Reported(w: World, i: Uid) {
    i in w.settled || i in w.hasty
  }

  /** What connector `i` knows or is about to learn about its source part is what the source reported. */
  ghost predicate Backed(w: World, i: Uid)
    requires i in w.connectors
  {
    var c := w.connectors[i];
    c.hasSource ==>
      && (C.SourceDrained in ConnectorIn(w, i) ==> Reported(w, i))
      && (c.drainage.Some? ==> c.drainage.value.source != C.Absent)
      && (c.drainage.Some? && c.drainage.value.source == C.Done ==> Reported(w, i))
      && (i in w.results || i in w.answers ==> Reported(w, i))
  }

  ghost predicate AllBacked(w: World) {
    forall i :: i in w.connectors ==> Backed(w, i)
  }

  lemma {:induction false} ToSelfMember(effects: seq<C.Effect>, msg: C.Msg)
    ensures msg in ToSelf(effects) <==> C.ToSelf(msg) in effects
  {
    if effects != [] {
      ToSelfMember(effects[1..], msg);
      assert effects == [effects[0]] + effects[1..];
    }
  }

  lemma ConnectorSends(c: C.Connector, msg: C.Msg)
    ensures C.Drain !in ToSelf(C.OnMsg(c, msg).1)
    ensures c.hasSource ==> C.SourceDrained !in ToSelf(C.OnMsg(c, msg).1)
  {
    C.SelfMessages(c, msg);
    ToSelfMember(C.OnMsg(c, msg).1, C.Drain);
    ToSelfMember(C.OnMsg(c, msg).1, C.SourceDrained);
  }

  lemma ConnectorRecords(c: C.Connector, msg: C.Msg)
    ensures var c' := C.OnMsg(c, msg).0;
            && c'.hasSource == c.hasSource
            && (c'.phase == C.Draining ==> c.phase == C.Draining || msg == C.Drain)
            && (c.hasSource && c'.drainage.Some? && c'.drainage != c.drainage ==>
                  || c'.drainage.value.source == C.Expected
                  || msg == C.SourceDrained
                  || (c.drainage.Some? && c'.drainage.value.source == c.drainage.value.source))
  {
  }

  lemma ConnectorTookBacked(w: World, i: Uid)
    requires AllBacked(w) && i in w.connectors && ConnectorIn(w, i) != []
    ensures AllBacked(ConnectorTook(w, i))
  {
    var w', c, msg := ConnectorTook(w, i), w.connectors[i], ConnectorIn(w, i)[0];
    assert Backed(w, i) && msg in ConnectorIn(w, i);
    ConnectorSends(c, msg);
    ConnectorRecords(c, msg);
    if C.AnswerDrain in C.OnMsg(c, msg).1 {
      C.AnswersWhenAllDrained(c, msg);
    }
    assert Backed(w', i);
    forall j | j in w'.connectors ensures Backed(w', j) {
      assert j != i ==> Backed(w, j) && w'.connectors[j] == w.connectors[j] && ConnectorIn(w', j) == ConnectorIn(w, j);
    }
  }

  lemma WithSourceBacked(plant: Plant, w: World, i: Uid, s: S.Source, effects: seq<S.Effect>)
    requires AllBacked(w)
    ensures AllBacked(WithSource(plant, w, i, s, effects))
  {
    var w' := WithSource(plant, w, i, s, effects);
    forall j | j in w'.connectors ensures Backed(w', j) {
      assert Backed(w, j);
    }
  }

  lemma SourceTookBacked(plant: Plant, w: World, i: Uid)
    requires AllBacked(w) && i in w.sources && SourceIn(w, i) != []
    ensures AllBacked(SourceTook(plant, w, i))
  {
    var (s, effects) := S.OnMsg(w.sources[i], SourceIn(w, i)[0]);
    BackedGrows(w, Taken(w, i));
    WithSourceBacked(plant, Taken(w, i), i, s, effects);
  }

  lemma SourcePulledBacked(plant: Plant, w: World, i: Uid, reply: S.Reply)
    requires AllBacked(w) && i in w.sources
    ensures AllBacked(SourcePulled(plant, w, i, reply))
  {
    var (s, effects) := S.OnReply(w.sources[i], reply);
    BackedGrows(w, Marked(w, i, reply));
    WithSourceBacked(plant, Marked(w, i, reply), i, s, effects);
  }

  /** Inboxes of connectors grew by messages other than `SourceDrained`, answers moved on. */
  lemma BackedGrows(w: World, w': World)
    requires AllBacked(w) && w'.connectors == w.connectors && w'.settled == w.settled && w'.hasty == w.hasty
    requires forall i :: C.SourceDrained in ConnectorIn(w', i) ==> C.SourceDrained in ConnectorIn(w, i)
    requires forall i :: i in w'.results || i in w'.answers ==> i in w.results || i in w.answers
    ensures AllBacked(w')
  {
    forall i | i in w'.connectors ensures Backed(w', i) {
      assert Backed(w, i);
    }
  }

  lemma StepBacked(plant: Plant, w: World, step: Step)
    requires AllBacked(w) && Enabled(plant, w, step)
    ensures AllBacked(Apply(plant, w, step))
  {
    match step
    case SourceTakes(i) => SourceTookBacked(plant, w, i);
    case SourcePulls(i, reply) => SourcePulledBacked(plant, w, i, reply);
    case ConnectorTakes(i) => ConnectorTookBacked(w, i);
    case SinkTakes(k, o, transactional, autoAck) => SinkTookBacked(plant, w, k, o, transactional, autoAck);
    case Operator(i, msg) => BackedGrows(w, ConnectorTold(w, i, msg));
    case AsksFlow(alive) => BackedGrows(w, FlowAsked(w, alive));
    case FlowTakes => FlowTookBacked(w);
    case _ => CarryStepBacked(plant, w, step);
  }

  lemma SinkTookBacked(plant: Plant, w: World, k: Uid, o: K.Outcome, transactional: bool, autoAck: bool)
    requires AllBacked(w) && k in w.sinks && Inbox(w.net, SinkNode(k)) != []
    ensures AllBacked(SinkTook(plant, w, k, o, transactional, autoAck))
  {
    BackedGrows(w, SinkTook(plant, w, k, o, transactional, autoAck));
  }

  lemma FlowTookBacked(w: World)
    requires AllBacked(w) && w.results != []
    ensures AllBacked(FlowTook(w))
  {
    assert w.results == [w.results[0]] + w.results[1..];
    BackedGrows(w, FlowTook(w));
  }

  /** Steps that have nothing to do with connectors. */
  lemma CarryStepBacked(plant: Plant, w: World, step: Step)
    requires AllBacked(w) && Enabled(plant, w, step)
    requires step.Delivers? || step.PipeForwards? || step.PipeReturns? || step.SinkReplies? || step.Wires?
    ensures AllBacked(Apply(plant, w, step))
  {
    var w' := Apply(plant, w, step);
    assert w'.connectorIn == w.connectorIn && w'.results == w.results && w'.answers == w.answers;
    BackedGrows(w, w');
  }

  // ----- only connectors that were asked drain and answer

  ghost predicate Asked(w: World, i: Uid) {
    w.asked.Some? && i in w.asked.value
  }

  ghost predicate OnlyAsked(w: World) {
    && (forall i :: C.Drain in ConnectorIn(w, i) ==> Asked(w, i))
    && (forall i :: i in w.connectors && w.connectors[i].phase == C.Draining ==> Asked(w, i))
    && (forall i :: i in w.results || i in w.answers ==> Asked(w, i))
  }

  lemma ConnectorTookAsked(w: World, i: Uid)
    requires OnlyAsked(w) && i in w.connectors && ConnectorIn(w, i) != []
    ensures OnlyAsked(ConnectorTook(w, i))
  {
    var w', c, msg := ConnectorTook(w, i), w.connectors[i], ConnectorIn(w, i)[0];
    assert msg in ConnectorIn(w, i);
    ConnectorSends(c, msg);
    ConnectorRecords(c, msg);
    if C.AnswerDrain in C.OnMsg(c, msg).1 {
      C.AnswersWhenAllDrained(c, msg);
    }
    assert forall j :: j != i ==> ConnectorIn(w', j) == ConnectorIn(w, j);
  }

  lemma FlowAskedAsked(w: World, alive: set<Uid>)
    requires OnlyAsked(w) && w.asked.None?
    ensures OnlyAsked(FlowAsked(w, alive))
  {
  }

  /** Inboxes grew by other messages than `Drain`, answers moved on. */
  lemma AskedGrows(w: World, w': World)
    requires OnlyAsked(w) && w'.connectors == w.connectors && w'.asked == w.asked
    requires forall i :: C.Drain in ConnectorIn(w', i) ==> C.Drain in ConnectorIn(w, i)
    requires forall i :: i in w'.results || i in w'.answers ==> i in w.results || i in w.answers
    ensures OnlyAsked(w')
  {
  }

  lemma WithSourceAsked(plant: Plant, w: World, i: Uid, s: S.Source, effects: seq<S.Effect>)
    requires OnlyAsked(w)
    ensures OnlyAsked(WithSource(plant, w, i, s, effects))
  {
    AskedGrows(w, WithSource(plant, w, i, s, effects));
  }

  lemma SinkTookAsked(plant: Plant, w: World, k: Uid, o: K.Outcome, transactional: bool, autoAck: bool)
    requires OnlyAsked(w) && k in w.sinks && Inbox(w.net, SinkNode(k)) != []
    ensures OnlyAsked(SinkTook(plant, w, k, o, transactional, autoAck))
  {
    AskedGrows(w, SinkTook(plant, w, k, o, transactional, autoAck));
  }

  lemma SourceTookAsked(plant: Plant, w: World, i: Uid)
    requires OnlyAsked(w) && i in w.sources && SourceIn(w, i) != []
    ensures OnlyAsked(SourceTook(plant, w, i))
  {
    var (s, effects) := S.OnMsg(w.sources[i], SourceIn(w, i)[0]);
    AskedGrows(w, Taken(w, i));
    WithSourceAsked(plant, Taken(w, i), i, s, effects);
  }

  lemma SourcePulledAsked(plant: Plant, w: World, i: Uid, reply: S.Reply)
    requires OnlyAsked(w) && i in w.sources
    ensures OnlyAsked(SourcePulled(plant, w, i, reply))
  {
    var (s, effects) := S.OnReply(w.sources[i], reply);
    AskedGrows(w, Marked(w, i, reply));
    WithSourceAsked(plant, Marked(w, i, reply), i, s, effects);
  }

  lemma TaskStepAsked(plant: Plant, w: World, step: Step)
    requires OnlyAsked(w) && Enabled(plant, w, step) && TaskStep(step)
    ensures OnlyAsked(Apply(plant, w, step))
  {
    match step
    case SourceTakes(i) => SourceTookAsked(plant, w, i);
    case SourcePulls(i, reply) => SourcePulledAsked(plant, w, i, reply);
    case ConnectorTakes(i) => ConnectorTookAsked(w, i);
  }

  lemma OtherStepAsked(plant: Plant, w: World, step: Step)
    requires OnlyAsked(w) && Enabled(plant, w, step) && !TaskStep(step) && !step.SinkTakes? && !step.AsksFlow?
    ensures OnlyAsked(Apply(plant, w, step))
  {
    AskedGrows(w, Apply(plant, w, step));
  }

  lemma StepAsked(plant: Plant, w: World, step: Step)
    requires OnlyAsked(w) && Enabled(plant, w, step)
    ensures OnlyAsked(Apply(plant, w, step))
  {
    if TaskStep(step) {
      TaskStepAsked(plant, w, step);
    } else if step.SinkTakes? {
      SinkTookAsked(plant, w, step.k, step.o, step.transactional, step.autoAck);
    } else if step.AsksFlow? {
      FlowAskedAsked(w, step.alive);
    } else {
      OtherStepAsked(plant, w, step);
    }
  }

  // ----- the flow counts to the number it asked

  ghost predicate Counted(w: World) {
    match w.asked
    case None => w.flow == F.Flow(F.Initializing, 0, []) && !w.told
    case Some(asked) =>
      && w.flow.expectedDrains == (if |w.answers| < |asked| then |asked| - |w.answers| else 0)
      && (w.told && asked != {} ==> |w.answers| >= |asked|)
  }

  lemma FlowTookCounted(w: World)
    requires Counted(w) && w.results != []
    ensures Counted(FlowTook(w))
  {
  }

  lemma FlowAskedCounted(w: World, alive: set<Uid>)
    requires Counted(w) && w.asked.None? && alive <= w.connectors.Keys
    ensures Counted(FlowAsked(w, alive))
  {
    if w.connectors == map[] {
      assert alive == {};
    }
  }

  lemma StepCounted(plant: Plant, w: World, step: Step)
    requires Counted(w) && Enabled(plant, w, step)
    ensures Counted(Apply(plant, w, step))
  {
    match step
    case AsksFlow(alive) => FlowAskedCounted(w, alive);
    case FlowTakes => FlowTookCounted(w);
    case _ =>
  }

  // ----- one drain request per source

  ghost function SourceAsks(xs: seq<SourceMsg>): nat {
    if xs == [] then 0 else (if xs[0] == DrainSource then 1 else 0) + SourceAsks(xs[1..])
  }

  ghost function ConnectorAsks(xs: seq<C.Msg>): nat {
    if xs == [] then 0 else (if xs[0] == C.Drain then 1 else 0) + ConnectorAsks(xs[1..])
  }

  lemma {:induction false} SourceAsksAppend(xs: seq<SourceMsg>, ys: seq<SourceMsg>)
    ensures SourceAsks(xs + ys) == SourceAsks(xs) + SourceAsks(ys)
  {
    if xs == [] {
      assert xs + ys == ys;
    } else {
      SourceAsksAppend(xs[1..], ys);
      assert (xs + ys)[1..] == xs[1..] + ys;
    }
  }

  lemma {:induction false} ConnectorAsksAppend(xs: seq<C.Msg>, ys: seq<C.Msg>)
    ensures ConnectorAsks(xs + ys) == ConnectorAsks(xs) + ConnectorAsks(ys)
  {
    if xs == [] {
      assert xs + ys == ys;
    } else {
      ConnectorAsksAppend(xs[1..], ys);
      assert (xs + ys)[1..] == xs[1..] + ys;
    }
  }

  lemma {:induction false} SourceAsksNone(xs: seq<SourceMsg>)
    requires DrainSource !in xs
    ensures SourceAsks(xs) == 0
  {
    if xs != [] {
      SourceAsksNone(xs[1..]);
    }
  }

  lemma {:induction false} ConnectorAsksNone(xs: seq<C.Msg>)
    requires C.Drain !in xs
    ensures ConnectorAsks(xs) == 0
  {
    if xs != [] {
      ConnectorAsksNone(xs[1..]);
    }
  }

  /** Drain requests that source `i` may still see. */
  ghost function DrainsLeft(w: World, i: Uid): nat {
    SourceAsks(SourceIn(w, i)) + ConnectorAsks(ConnectorIn(w, i)) + if w.asked.None? then 1 else 0
  }

  /** A source sees one request; it reports while it still waits only if it had finished by itself. */
  ghost predicate Paced(w: World, i: Uid)
    requires i in w.sources
  {
    && DrainsLeft(w, i) <= 1
    && (w.sources[i].phase in {S.Draining, S.Drained} ==> i in w.finished || DrainsLeft(w, i) == 0)
    && (i in w.hasty ==> i in w.finished)
  }

  ghost predicate AllPaced(w: World) {
    forall i :: i in w.sources ==> Paced(w, i)
  }

  /** Nothing but the number of outstanding requests changed, and only downwards. */
  lemma PacedShrinks(w: World, w': World)
    requires AllPaced(w) && w'.sources == w.sources && w'.hasty == w.hasty && w'.finished == w.finished
    requires forall i :: DrainsLeft(w', i) <= DrainsLeft(w, i)
    ensures AllPaced(w')
  {
    forall j | j in w'.sources ensures Paced(w', j) {
      assert Paced(w, j);
    }
  }

  /** Source `i` became `s`, other sources and their outstanding requests did not change. */
  lemma PacedUpdate(w: World, w': World, i: Uid)
    requires AllPaced(w) && i in w'.sources && Paced(w', i)
    requires forall j :: j in w'.sources && j != i ==> j in w.sources && w'.sources[j] == w.sources[j]
    requires forall j :: j != i ==> DrainsLeft(w', j) == DrainsLeft(w, j)
    requires w'.hasty <= w.hasty + {i} && w.finished <= w'.finished
    ensures AllPaced(w')
  {
    forall j | j in w'.sources && j != i ensures Paced(w', j) {
      assert Paced(w, j);
    }
  }

  lemma WithSourceDrains(plant: Plant, w: World, i: Uid, s: S.Source, effects: seq<S.Effect>)
    ensures forall j :: DrainsLeft(WithSource(plant, w, i, s, effects), j) == DrainsLeft(w, j)
  {
    ConnectorAsksAppend(ConnectorIn(w, i), [C.SourceDrained]);
  }

  lemma SourceTookPaced(plant: Plant, w: World, i: Uid)
    requires AllPaced(w) && i in w.sources && SourceIn(w, i) != []
    ensures AllPaced(SourceTook(plant, w, i))
  {
    var w', s, msg := SourceTook(plant, w, i), w.sources[i], SourceIn(w, i)[0];
    assert Paced(w, i);
    S.HastyReport(s, S.Told(msg));
    if msg != DrainSource && s.phase !in {S.Draining, S.Drained} {
      S.PhaseStep(s, S.Told(msg));
    }
    SourceTookDrains(plant, w, i);
    PacedUpdate(w, w', i);
  }

  lemma SourceTookDrains(plant: Plant, w: World, i: Uid)
    requires i in w.sources && SourceIn(w, i) != []
    ensures forall j :: j != i ==> DrainsLeft(SourceTook(plant, w, i), j) == DrainsLeft(w, j)
    ensures DrainsLeft(w, i) == DrainsLeft(SourceTook(plant, w, i), i) + if SourceIn(w, i)[0] == DrainSource then 1 else 0
  {
    var (s, effects) := S.OnMsg(w.sources[i], SourceIn(w, i)[0]);
    TakenDrains(w, i);
    WithSourceDrains(plant, Taken(w, i), i, s, effects);
  }

  lemma TakenDrains(w: World, i: Uid)
    requires SourceIn(w, i) != []
    ensures forall j :: j != i ==> DrainsLeft(Taken(w, i), j) == DrainsLeft(w, j)
    ensures DrainsLeft(w, i) == DrainsLeft(Taken(w, i), i) + if SourceIn(w, i)[0] == DrainSource then 1 else 0
  {
  }

  lemma SourcePulledPaced(plant: Plant, w: World, i: Uid, reply: S.Reply)
    requires AllPaced(w) && i in w.sources
    ensures AllPaced(SourcePulled(plant, w, i, reply))
  {
    var w', s := SourcePulled(plant, w, i, reply), w.sources[i];
    assert Paced(w, i);
    S.HastyReport(s, S.Pulled(reply));
    if reply != S.Finished && s.phase !in {S.Draining, S.Drained} {
      S.PhaseStep(s, S.Pulled(reply));
    }
    SourcePulledDrains(plant, w, i, reply);
    PacedUpdate(w, w', i);
  }

  lemma SourcePulledDrains(plant: Plant, w: World, i: Uid, reply: S.Reply)
    requires i in w.sources
    ensures forall j :: DrainsLeft(SourcePulled(plant, w, i, reply), j) == DrainsLeft(w, j)
  {
    var (s, effects) := S.OnReply(w.sources[i], reply);
    MarkedDrains(w, i, reply);
    WithSourceDrains(plant, Marked(w, i, reply), i, s, effects);
  }

  lemma MarkedDrains(w: World, i: Uid, reply: S.Reply)
    ensures forall j :: DrainsLeft(Marked(w, i, reply), j) == DrainsLeft(w, j)
  {
  }

  lemma DrainSentOnce(c: C.Connector, msg: C.Msg)
    ensures SourceAsks(ToSource(C.OnMsg(c, msg).1)) <= if msg == C.Drain then 1 else 0
  {
    var effects := C.OnMsg(c, msg).1;
    if msg == C.Drain {
      assert |effects| <= 2 && (|effects| == 2 ==> effects[1] == C.AnswerDrain);
      assert effects != [] ==> ToSource(effects[1..]) == [];
    } else {
      ToSourceMember(effects, DrainSource);
      if DrainSource in ToSource(effects) {
        C.SourceDrainStep(c, msg);
      }
      SourceAsksNone(ToSource(effects));
    }
  }

  lemma ConnectorTookDrains(w: World, i: Uid)
    requires i in w.connectors && ConnectorIn(w, i) != []
    ensures forall j :: DrainsLeft(ConnectorTook(w, i), j) <= DrainsLeft(w, j)
  {
    var c, msg := w.connectors[i], ConnectorIn(w, i)[0];
    var effects := C.OnMsg(c, msg).1;
    DrainSentOnce(c, msg);
    ConnectorSends(c, msg);
    ConnectorAsksNone(ToSelf(effects));
    ConnectorAsksAppend(ConnectorIn(w, i)[1..], ToSelf(effects));
    SourceAsksAppend(SourceIn(w, i), ToSource(effects));
  }

  lemma FlowAskedDrains(w: World, alive: set<Uid>)
    requires w.asked.None?
    ensures forall j :: DrainsLeft(FlowAsked(w, alive), j) <= DrainsLeft(w, j)
  {
    forall j ensures DrainsLeft(FlowAsked(w, alive), j) <= DrainsLeft(w, j) {
      ConnectorAsksAppend(ConnectorIn(w, j), [C.Drain]);
      ConnectorAsksAppend(ConnectorIn(w, j), []);
    }
  }

  lemma {:induction false} ToSourcesAsks(inboxes: map<Uid, seq<SourceMsg>>, takers: seq<Node>, cb: CbAction, j: Uid)
    ensures SourceAsks(Messages(ToSources(inboxes, takers, cb), j)) == SourceAsks(Messages(inboxes, j))
    decreases |takers|
  {
    if takers != [] {
      var n := takers[0];
      var next := if n.SourceNode? then inboxes[n.uid := Messages(inboxes, n.uid) + [Cb(cb)]] else inboxes;
      SourceAsksAppend(Messages(inboxes, j), [Cb(cb)]);
      ToSourcesAsks(next, takers[1..], cb, j);
    }
  }

  lemma PipeReturnedDrains(w: World, p: nat, takers: seq<Node>)
    requires Contraflow(w.contraflow, p) != []
    ensures forall j :: DrainsLeft(PipeReturned(w, p, takers), j) == DrainsLeft(w, j)
  {
    forall j ensures DrainsLeft(PipeReturned(w, p, takers), j) == DrainsLeft(w, j) {
      ToSourcesAsks(w.sourceIn, takers, Contraflow(w.contraflow, p)[0], j);
    }
  }

  lemma SinkTookDrains(plant: Plant, w: World, k: Uid, o: K.Outcome, transactional: bool, autoAck: bool)
    requires k in w.sinks && Inbox(w.net, SinkNode(k)) != []
    ensures forall j :: DrainsLeft(SinkTook(plant, w, k, o, transactional, autoAck), j) == DrainsLeft(w, j)
  {
    ConnectorAsksAppend(ConnectorIn(w, k), [C.SinkDrained]);
  }

  lemma ConnectorToldDrains(w: World, i: Uid, msg: C.Msg)
    requires msg != C.Drain
    ensures forall j :: DrainsLeft(ConnectorTold(w, i, msg), j) == DrainsLeft(w, j)
  {
    ConnectorAsksAppend(ConnectorIn(w, i), [msg]);
  }

  lemma SourceWiredDrains(w: World, i: Uid, msg: SourceMsg)
    requires msg != DrainSource
    ensures forall j :: DrainsLeft(SourceWired(w, i, msg), j) == DrainsLeft(w, j)
  {
    SourceAsksAppend(SourceIn(w, i), [msg]);
  }

  /** Steps that leave the inboxes of sources and connectors alone. */
  predicate QuietStep(step: Step) {
    step.Delivers? || step.PipeForwards? || step.SinkReplies? || step.FlowTakes?
  }

  lemma QuietStepDrains(plant: Plant, w: World, step: Step)
    requires Enabled(plant, w, step) && QuietStep(step)
    ensures forall j :: DrainsLeft(Apply(plant, w, step), j) == DrainsLeft(w, j)
  {
  }

  /** Only a source that takes its request changes the number of requests it may still see. */
  lemma OtherStepDrains(plant: Plant, w: World, step: Step)
    requires Enabled(plant, w, step) && !step.SourceTakes? && !step.SourcePulls?
    ensures forall j :: DrainsLeft(Apply(plant, w, step), j) <= DrainsLeft(w, j)
  {
    match step
    case PipeReturns(p, takers) => PipeReturnedDrains(w, p, takers);
    case SinkTakes(k, o, transactional, autoAck) => SinkTookDrains(plant, w, k, o, transactional, autoAck);
    case AsksFlow(alive) => FlowAskedDrains(w, alive);
    case Operator(i, msg) => ConnectorToldDrains(w, i, msg);
    case Wires(i, msg) => SourceWiredDrains(w, i, msg);
    case ConnectorTakes(i) => ConnectorTookDrains(w, i);
    case _ => QuietStepDrains(plant, w, step);
  }

  lemma OtherStepPaced(plant: Plant, w: World, step: Step)
    requires AllPaced(w) && Enabled(plant, w, step) && !step.SourceTakes? && !step.SourcePulls?
    ensures AllPaced(Apply(plant, w, step))
  {
    OtherStepDrains(plant, w, step);
    OtherFrame(plant, w, step);
    PacedShrinks(w, Apply(plant, w, step));
  }

  lemma StepPaced(plant: Plant, w: World, step: Step)
    requires AllPaced(w) && Enabled(plant, w, step)
    ensures AllPaced(Apply(plant, w, step))
  {
    match step
    case SourceTakes(i) => SourceTookPaced(plant, w, i);
    case SourcePulls(i, reply) => SourcePulledPaced(plant, w, i, reply);
    case _ => OtherStepPaced(plant, w, step);
  }

  // ----- the invariant of every run

  ghost predicate Invariant(w: World) {
    && TrueContraflow(w)
    && TrueInboxes(w.net, w.sourceIn)
    && AllAccounted(w)
    && AllSettled(w)
    && AllBacked(w)
    && OnlyAsked(w)
    && Counted(w)
    && AllPaced(w)
  }

  lemma InitInvariant(w: World)
    requires Init(w)
    ensures Invariant(w)
  {
    assert AllTrue(w.net, w.contraflow);
    forall i | i in w.sources ensures Accounted(w, i) {
    }
    forall i | i in w.connectors ensures Backed(w, i) {
    }
    forall i | i in w.sources ensures Paced(w, i) {
    }
  }

  lemma StepInvariant(plant: Plant, w: World, step: Step)
    requires Invariant(w) && Enabled(plant, w, step)
    ensures Invariant(Apply(plant, w, step))
  {
    StepTrueContraflow(plant, w, step);
    StepTrueInboxes(plant, w, step);
    StepAccounted(plant, w, step);
    StepSettled(plant, w, step);
    StepBacked(plant, w, step);
    StepAsked(plant, w, step);
    StepCounted(plant, w, step);
    StepPaced(plant, w, step);
  }

  lemma {:induction false} AlwaysInvariant(plant: Plant, run: Run, n: nat)
    requires IsRun(plant, run) && n < |run.states|
    ensures Invariant(run.states[n])
  {
    if n == 0 {
      InitInvariant(run.states[0]);
    } else {
      AlwaysInvariant(plant, run, n - 1);
      assert Moves(plant, run, n - 1);
      StepInvariant(plant, run.states[n - 1], run.steps[n - 1]);
    }
  }

  // ----- the two results

  /** All that was sent before `d` has been handled in order, and nothing of it is in flight. */
  ghost predicate Past(topo: Topology, r: Route, net: Net, d: nat)
    requires |r.nodes| >= 2 && d <= |Sent(net, r.s)|
  {
    && Due(topo, r, Sent(net, r.s)[..d]) <= Own(topo, r, Log(net, r.k))
    && forall x :: x in InFlight(topo, r, net) ==> x in Sent(net, r.s)[d..]
  }

  /**
   Everything the source of `r` sent its sink before its first drain signal has been handled, as often
   as links carry it and in order; what is in flight was sent later.
   */
  ghost predicate Delivered(topo: Topology, r: Route, net: Net)
    requires |r.nodes| >= 2
  {
    && Own(topo, r, Log(net, r.k)) + InFlight(topo, r, net) == Due(topo, r, Sent(net, r.s))
    && exists d: nat :: FirstDrain(r.s, Sent(net, r.s), d) && Past(topo, r, net, d)
  }

  lemma HandledMeansDelivered(topo: Topology, r: Route, net: Net)
    requires SolePath(topo, r) && Conserved(topo, r, net) && Handled(net, r.s, r.k)
    ensures Delivered(topo, r, net)
  {
    var d := DrainWasSent(topo, r, net);
    DrainBarrier(topo, r, net, d);
  }

  /**
   Drain loses nothing: in every run, at every moment, a source that heard from a sink and no longer
   waits for it knows that the sink has handled everything sent before the drain signal.
   */
  lemma DrainLosesNothing(plant: Plant, r: Route, run: Run, n: nat)
    requires IsRun(plant, run) && SolePath(plant.topo, r) && n < |run.states|
    requires var w := run.states[n]; r.s in w.sources && r.k in Heard(w, r.s) && r.k !in w.sources[r.s].started
    ensures Delivered(plant.topo, r, run.states[n].net)
  {
    AlwaysInvariant(plant, run, n);
    AlwaysConserved(plant, r, run, n);
    assert Accounted(run.states[n], r.s);
    HandledMeansDelivered(plant.topo, r, run.states[n].net);
  }

  /**
   When the flow tells that it is drained and no connector answered twice, every connector it asked
   that has a source has reported; unless that source had finished by itself, every sink it had heard
   from when it reported has handled everything sent before the drain signal.
   */
  lemma QuiescentMeansDelivered(plant: Plant, r: Route, run: Run, n: nat)
    requires IsRun(plant, run) && SolePath(plant.topo, r) && n < |run.states|
    requires var w := run.states[n];
             && w.told && Asked(w, r.s)
             && F.NoRepeats(w.answers)
             && r.s in w.connectors && w.connectors[r.s].hasSource
             && r.s in w.sources && r.s !in w.finished
    ensures r.s in run.states[n].settled
    ensures r.k in run.states[n].settled[r.s] ==> Delivered(plant.topo, r, run.states[n].net)
  {
    var w := run.states[n];
    AlwaysInvariant(plant, run, n);
    var asked := w.asked.value;
    assert F.Elements(w.answers) <= asked;
    F.TruthfulIff(asked, w.answers);
    assert r.s in F.Elements(w.answers[..|asked|]);
    assert Backed(w, r.s) && Paced(w, r.s);
    if r.k in w.settled[r.s] {
      AlwaysConserved(plant, r, run, n);
      HandledMeansDelivered(plant.topo, r, w.net);
    }
  }
}
