/**
 How often sources report. Where each sink can be reached over one way, and a source has heard of all
 its sinks before it is asked to drain, it reports once: its drain signal reaches each sink once, and one
 acknowledgement of each comes back. So the flow can rely on the answers it counts.
 */
module ReportCount {
  import opened Protocol
  import opened Wrappers
  import opened Network
  import opened Quiescence
  import opened Playing
  import opened OneWay
  import opened Homing
  import opened AnswerCount
  import S = SourceTask
  import K = SinkTask
  import C = ConnectorLoop
  import F = FlowLoop

  // ----- one drain signal

  ghost function Signals(w: World, i: Uid): nat {
    Times(Sent(w.net, i), Packet(i, DrainSignal))
  }

  lemma {:induction false} EmitAllSent(topo: Topology, net: Net, i: Uid, bodies: seq<Body>, j: Uid)
    ensures Times(Sent(EmitAll(topo, net, i, bodies), j), Packet(j, DrainSignal))
         == Times(Sent(net, j), Packet(j, DrainSignal)) + if i == j then Times(bodies, DrainSignal) else 0
    decreases |bodies|
  {
    if bodies != [] {
      EmitAllSent(topo, Emit(topo, net, i, bodies[0]), i, bodies[1..], j);
      TimesMore(Sent(net, i), Packet(i, bodies[0]), Packet(i, DrainSignal));
    }
  }

  lemma {:induction false} InjectAllSent(net: Net, k: Uid, msgs: seq<SinkControl>)
    ensures InjectAll(net, k, msgs).sent == net.sent
    decreases |msgs|
  {
    if msgs != [] {
      InjectAllSent(Inject(net, k, msgs[0]), k, msgs[1..]);
    }
  }

  lemma OtherStepSent(plant: Plant, w: World, step: Step)
    requires Enabled(plant, w, step) && !step.SourceTakes? && !step.SourcePulls?
    ensures Apply(plant, w, step).net.sent == w.net.sent
  {
    if step.ConnectorTakes? {
      ConnectorTookSent(w, step.i);
    } else if step.Delivers? || step.PipeForwards? || step.SinkTakes? {
      NetStepSent(plant, w, step);
    } else {
      QuietSent(plant, w, step);
    }
  }

  lemma ConnectorTookSent(w: World, i: Uid)
    requires i in w.connectors && ConnectorIn(w, i) != []
    ensures ConnectorTook(w, i).net.sent == w.net.sent
  {
    InjectAllSent(w.net, i, ToSink(C.OnMsg(w.connectors[i], ConnectorIn(w, i)[0]).1));
  }

  lemma NetStepSent(plant: Plant, w: World, step: Step)
    requires Enabled(plant, w, step) && (step.Delivers? || step.PipeForwards? || step.SinkTakes?)
    ensures Apply(plant, w, step).net.sent == w.net.sent
  {
  }

  lemma QuietSent(plant: Plant, w: World, step: Step)
    requires Enabled(plant, w, step) && !TaskStep(step) && !step.Delivers? && !step.PipeForwards? && !step.SinkTakes?
    ensures Apply(plant, w, step).net == w.net
  {
  }

  lemma {:induction false} BodiesAppend(a: seq<S.Effect>, b: seq<S.Effect>)
    ensures Bodies(a + b) == Bodies(a) + Bodies(b)
  {
    if a == [] {
      assert a + b == b;
    } else {
      BodiesAppend(a[1..], b);
      assert (a + b)[1..] == a[1..] + b;
      Joined(BodiesOf(a[0]), Bodies(a[1..]), Bodies(b));
    }
  }

  lemma Joined<T>(a: seq<T>, b: seq<T>, c: seq<T>)
    ensures (a + b) + c == a + (b + c)
  {
  }

  lemma {:induction false} RoutedBodies(events: seq<(Port, nat)>)
    ensures Times(Bodies(S.Routed(events)), DrainSignal) == 0
  {
    if events != [] {
      RoutedBodies(events[1..]);
      if events[0].0 != OtherPort {
        var e, rest := S.RouteEvent(events[0].0, events[0].1), S.Routed(events[1..]);
        BodiesAppend([e], rest);
        assert [e][1..] == [] && Bodies([e]) == [Data(events[0].1)];
        TimesAppend([Data(events[0].1)], Bodies(rest), DrainSignal);
        TimesOne(Data(events[0].1), DrainSignal);
      }
    }
  }

  function IsDraining(s: S.Source): nat {
    if s.phase == S.Draining then 1 else 0
  }

  lemma OneBody(body: Body)
    ensures Bodies([S.SendSignal(body)]) == [body] && Times([body], DrainSignal) == if body == DrainSignal then 1 else 0
  {
    assert [S.SendSignal(body)][1..] == [] && Bodies([]) == [] && [body] + [] == [body];
    TimesOne(body, DrainSignal);
  }

  lemma NoBody()
    ensures Bodies([S.ReportDrained]) == [] && Bodies([]) == []
  {
    assert [S.ReportDrained][1..] == [];
  }

  lemma DrainSignals(s: S.Source)
    ensures var (t, effects) := S.OnDrain(s); Times(Bodies(effects), DrainSignal) + IsDraining(t) <= IsDraining(s) + 1
  {
    OneBody(DrainSignal);
    NoBody();
  }

  lemma CbSignals(s: S.Source, cb: CbAction)
    ensures var (t, effects) := S.OnCb(s, cb); Times(Bodies(effects), DrainSignal) + IsDraining(t) <= IsDraining(s)
  {
    NoBody();
  }

  lemma ToldSignals(s: S.Source, msg: SourceMsg)
    ensures var (t, effects) := S.OnMsg(s, msg);
            Times(Bodies(effects), DrainSignal) + IsDraining(t) <= IsDraining(s) + if msg == DrainSource then 1 else 0
  {
    match msg
    case DrainSource => DrainSignals(s);
    case Cb(cb) => CbSignals(s, cb);
    case StartSource =>
      OneBody(StartSignal);
      NoBody();
    case _ => NoBody();
  }

  lemma PulledSignals(s: S.Source, reply: S.Reply)
    requires reply != S.Finished
    ensures var (t, effects) := S.OnReply(s, reply);
            Times(Bodies(effects), DrainSignal) + IsDraining(t) <= IsDraining(s)
  {
    OneBody(DrainSignal);
    NoBody();
    match reply
    case Received(_, _, events) => RoutedBodies(events);
    case EndStream(stream, last) =>
      var sent := if stream in s.streams then S.Routed(last) else [];
      RoutedBodies(last);
      BodiesAppend(sent, [S.SendSignal(DrainSignal)]);
      TimesAppend(Bodies(sent), [DrainSignal], DrainSignal);
    case _ =>
  }

  /** A source that does not finish by itself sends one drain signal, if any. */
  ghost predicate OneSignal(w: World, i: Uid) {
    i in w.sources && i !in w.finished ==> Signals(w, i) + DrainsLeft(w, i) + IsDraining(w.sources[i]) <= 1
  }

  lemma SourceTookOneSignal(plant: Plant, w: World, j: Uid, i: Uid)
    requires OneSignal(w, i) && j in w.sources && SourceIn(w, j) != []
    ensures OneSignal(SourceTook(plant, w, j), i)
  {
    var msg := SourceIn(w, j)[0];
    ToldSignals(w.sources[j], msg);
    EmitAllSent(plant.topo, w.net, j, Bodies(S.OnMsg(w.sources[j], msg).1), i);
    SourceTookDrains(plant, w, j);
  }

  lemma SourcePulledOneSignal(plant: Plant, w: World, j: Uid, reply: S.Reply, i: Uid)
    requires OneSignal(w, i) && j in w.sources
    ensures OneSignal(SourcePulled(plant, w, j, reply), i)
  {
    if reply != S.Finished {
      PulledSignals(w.sources[j], reply);
    }
    EmitAllSent(plant.topo, w.net, j, Bodies(S.OnReply(w.sources[j], reply).1), i);
    SourcePulledDrains(plant, w, j, reply);
  }

  lemma StepOneSignal(plant: Plant, w: World, step: Step, i: Uid)
    requires OneSignal(w, i) && Enabled(plant, w, step)
    ensures OneSignal(Apply(plant, w, step), i)
  {
    match step
    case SourceTakes(j) => SourceTookOneSignal(plant, w, j, i);
    case SourcePulls(j, reply) => SourcePulledOneSignal(plant, w, j, reply, i);
    case _ =>
      OtherStepSent(plant, w, step);
      OtherStepDrains(plant, w, step);
  }

  lemma {:induction false} AlwaysOneSignal(plant: Plant, run: Run, n: nat, i: Uid)
    requires IsRun(plant, run) && n < |run.states|
    ensures OneSignal(run.states[n], i)
  {
    if n > 0 {
      AlwaysOneSignal(plant, run, n - 1, i);
      assert Moves(plant, run, n - 1);
      StepOneSignal(plant, run.states[n - 1], run.steps[n - 1], i);
    }
  }

  // ----- over one way without parallel links a sink handles it once

  /** Contraflow travels each link backwards once. */
  ghost predicate MirrorsLinks(plant: Plant) {
    && (forall n, p :: Times(Inputs(plant, p), n) == Times(Outs(plant.topo, n), PipeNode(p)))
    && (forall n, k :: Times(Pipes(plant, k), n) == Times(Outs(plant.topo, n), SinkNode(k)))
  }

  lemma MirrorsLinksMirrors(plant: Plant)
    requires MirrorsLinks(plant)
    ensures Mirrored(plant)
  {
    forall n, p ensures PipeNode(p) in Outs(plant.topo, n) <==> n in Inputs(plant, p) {
      TimesNone(Inputs(plant, p), n);
      TimesNone(Outs(plant.topo, n), PipeNode(p));
    }
    forall n, k ensures SinkNode(k) in Outs(plant.topo, n) <==> n in Pipes(plant, k) {
      TimesNone(Pipes(plant, k), n);
      TimesNone(Outs(plant.topo, n), SinkNode(k));
    }
  }

  /** `nodes` is the only way from `s` to `k`, and there is one link from each task on it to the next. */
  ghost predicate SingleWay(topo: Topology, s: Uid, k: Uid, nodes: seq<Node>) {
    && OnlyWalk(topo, s, k) && Walk(topo, s, k, nodes)
    && forall j :: 0 <= j < |nodes| - 1 ==> Times(Outs(topo, nodes[j]), nodes[j + 1]) == 1
  }

  lemma {:induction false} LinkWaysAre(topo: Topology, nodes: seq<Node>, i: nat, link: nat, x: Item)
    requires i + 1 < |nodes| && nodes[i] != nodes[i + 1] && x.Packet? && !x.body.Data? && link <= |Outs(topo, nodes[i])|
    ensures LinkWays(topo, nodes, i, link, x) == Times(Outs(topo, nodes[i])[link..], nodes[i + 1]) * Ways(topo, nodes, i + 1, x)
    decreases |Outs(topo, nodes[i])| - link
  {
    var links := Outs(topo, nodes[i]);
    if link < |links| {
      LinkWaysAre(topo, nodes, i, link + 1, x);
      assert links[link..][1..] == links[link + 1..];
    }
  }

  lemma {:induction false} SingleWays(topo: Topology, s: Uid, k: Uid, nodes: seq<Node>, i: nat, x: Item)
    requires SingleWay(topo, s, k, nodes) && Distinct(nodes) && i < |nodes| && x.Packet? && !x.body.Data?
    ensures Ways(topo, nodes, i, x) == 1
    decreases |nodes| - i
  {
    if i < |nodes| - 1 {
      SingleWays(topo, s, k, nodes, i + 1, x);
      LinkWaysAre(topo, nodes, i, 0, x);
      assert Outs(topo, nodes[i])[0..] == Outs(topo, nodes[i]);
    }
  }

  lemma {:induction false} RepTimes(n: nat, y: Item, x: Item)
    ensures Times(Rep(n, y), x) == if x == y then n else 0
  {
    if n > 0 {
      RepTimes(n - 1, y, x);
      assert Rep(n, y)[1..] == Rep(n - 1, y);
    }
  }

  lemma {:induction false} ScaleTimes(w: Weight, xs: seq<Item>, x: Item)
    ensures Times(Scale(w, xs), x) == w(x) * Times(xs, x)
  {
    if xs != [] {
      ScaleTimes(w, xs[1..], x);
      RepTimes(w(xs[0]), xs[0], x);
      TimesAppend(Rep(w(xs[0]), xs[0]), Scale(w, xs[1..]), x);
      OneMore(w(x), Times(xs[1..], x));
    }
  }

  lemma OneMore(a: nat, b: nat)
    ensures a * (1 + b) == a + a * b
  {
  }

  /** The sink handles the drain signal no more often than it was sent. */
  lemma HandledAtMost(plant: Plant, run: Run, n: nat, s: Uid, k: Uid, nodes: seq<Node>)
    requires WellFormed(plant.topo) && IsRun(plant, run) && n < |run.states| && SingleWay(plant.topo, s, k, nodes)
    ensures Times(Log(run.states[n].net, k), Packet(s, DrainSignal)) <= Signals(run.states[n], s)
  {
    var topo, net, x := plant.topo, run.states[n].net, Packet(s, DrainSignal);
    var r := Route(s, k, nodes, ReachOf(topo, s));
    OnlyWalkIsSole(topo, s, k, nodes);
    AlwaysConserved(plant, r, run, n);
    SingleWays(topo, s, k, nodes, 0, x);
    HandledOnce(topo, r, net, x);
  }

  lemma HandledOnce(topo: Topology, r: Route, net: Net, x: Item)
    requires |r.nodes| >= 2 && Balanced(topo, r, net) && x.Packet? && x.origin == r.s && Ways(topo, r.nodes, 0, x) == 1
    ensures Times(Log(net, r.k), x) <= Times(Sent(net, r.s), x)
  {
    var first, last := WeightAt(topo, r, 0), WeightAt(topo, r, |r.nodes| - 1);
    ScaleKeeps(first, Sent(net, r.s), x);
    ScaleKeeps(last, Log(net, r.k), x);
    Share(Scale(last, Log(net, r.k)), Back(Segments(Weights(topo, r), r.nodes, net)), x);
  }

  lemma ScaleKeeps(w: Weight, xs: seq<Item>, x: Item)
    requires w(x) == 1
    ensures Times(Scale(w, xs), x) == Times(xs, x)
  {
    ScaleTimes(w, xs, x);
  }

  lemma Share<T>(a: seq<T>, b: seq<T>, x: T)
    ensures Times(a, x) <= Times(a + b, x)
  {
    TimesAppend(a, b, x);
  }

  // ----- acknowledgements on their way back are counted

  lemma {:induction false} ToPipesTimes(cf: map<nat, seq<CbAction>>, takers: seq<Node>, cb: CbAction, p: nat, x: CbAction)
    ensures Times(Contraflow(ToPipes(cf, takers, cb), p), x)
         == Times(Contraflow(cf, p), x) + if x == cb then Times(takers, PipeNode(p)) else 0
    decreases |takers|
  {
    if takers != [] {
      var n := takers[0];
      var next := if n.PipeNode? then cf[n.pid := Contraflow(cf, n.pid) + [cb]] else cf;
      ToPipesTimes(next, takers[1..], cb, p, x);
      TimesMore(Contraflow(cf, p), cb, x);
    }
  }

  lemma {:induction false} ToPipesEachTimes(cf: map<nat, seq<CbAction>>, takers: seq<Node>, cbs: seq<CbAction>,
                                            p: nat, x: CbAction)
    requires Times(cbs, x) <= 1
    ensures Times(Contraflow(ToPipesEach(cf, takers, cbs), p), x)
         == Times(Contraflow(cf, p), x) + if Times(cbs, x) == 1 then Times(takers, PipeNode(p)) else 0
    decreases |cbs|
  {
    if cbs != [] {
      ToPipesTimes(cf, takers, cbs[0], p, x);
      ToPipesEachTimes(ToPipes(cf, takers, cbs[0]), takers, cbs[1..], p, x);
    }
  }

  lemma {:induction false} ToSourcesTimes(inboxes: map<Uid, seq<SourceMsg>>, takers: seq<Node>, cb: CbAction, i: Uid, x: CbAction)
    ensures Times(Messages(ToSources(inboxes, takers, cb), i), Cb(x))
         == Times(Messages(inboxes, i), Cb(x)) + if x == cb then Times(takers, SourceNode(i)) else 0
    decreases |takers|
  {
    if takers != [] {
      var n := takers[0];
      var next := if n.SourceNode? then inboxes[n.uid := Messages(inboxes, n.uid) + [Cb(cb)]] else inboxes;
      ToSourcesTimes(next, takers[1..], cb, i, x);
      TimesMore(Messages(inboxes, i), Cb(cb), Cb(x));
    }
  }

  /** How often `cb` waits at the source of a way or at its pipelines up to task `t`. */
  ghost function Coming(mail: map<Uid, seq<SourceMsg>>, cf: map<nat, seq<CbAction>>, nodes: seq<Node>, t: nat, cb: CbAction): nat
    requires t < |nodes| && nodes[0].SourceNode? && forall j :: 0 < j <= t ==> nodes[j].PipeNode?
  {
    if t == 0 then Times(Messages(mail, nodes[0].uid), Cb(cb))
    else Coming(mail, cf, nodes, t - 1, cb) + Times(Contraflow(cf, nodes[t].pid), cb)
  }

  /** How many of `takers` are tasks of the way, up to `t`. */
  ghost function Hits(takers: seq<Node>, nodes: seq<Node>, t: nat): nat
    requires t < |nodes|
  {
    (if t == 0 then 0 else Hits(takers, nodes, t - 1)) + Times(takers, nodes[t])
  }

  ghost predicate Path(nodes: seq<Node>, t: nat) {
    t < |nodes| && nodes[0].SourceNode? && (forall j :: 0 < j <= t ==> nodes[j].PipeNode?) && Distinct(nodes)
  }

  lemma {:induction false} ReturnedComing(mail: map<Uid, seq<SourceMsg>>, cf: map<nat, seq<CbAction>>,
                                          takers: seq<Node>, cb: CbAction, nodes: seq<Node>, t: nat, x: CbAction)
    requires Path(nodes, t)
    ensures Coming(ToSources(mail, takers, cb), ToPipes(cf, takers, cb), nodes, t, x)
         == Coming(mail, cf, nodes, t, x) + if x == cb then Hits(takers, nodes, t) else 0
  {
    if t == 0 {
      ToSourcesTimes(mail, takers, cb, nodes[0].uid, x);
    } else {
      ReturnedComing(mail, cf, takers, cb, nodes, t - 1, x);
      ToPipesTimes(cf, takers, cb, nodes[t].pid, x);
    }
  }

  lemma {:induction false} TakenComing(mail: map<Uid, seq<SourceMsg>>, cf: map<nat, seq<CbAction>>, p: nat,
                                       nodes: seq<Node>, t: nat, x: CbAction)
    requires Path(nodes, t) && Contraflow(cf, p) != []
    ensures Coming(mail, cf[p := Contraflow(cf, p)[1..]], nodes, t, x)
            + (if Contraflow(cf, p)[0] == x && PipeNode(p) in nodes[..t + 1] then 1 else 0)
         == Coming(mail, cf, nodes, t, x)
  {
    assert nodes[..t + 1] == nodes[..t] + [nodes[t]];
    if t > 0 {
      TakenComing(mail, cf, p, nodes, t - 1, x);
      assert PipeNode(p) == nodes[t] ==> PipeNode(p) !in nodes[..t];
    }
  }

  lemma {:induction false} SpokenComing(mail: map<Uid, seq<SourceMsg>>, cf: map<nat, seq<CbAction>>,
                                        takers: seq<Node>, cbs: seq<CbAction>, nodes: seq<Node>, t: nat, x: CbAction)
    requires Path(nodes, t) && Times(cbs, x) <= 1
    ensures Coming(mail, ToPipesEach(cf, takers, cbs), nodes, t, x)
         <= Coming(mail, cf, nodes, t, x) + if Times(cbs, x) == 1 then Hits(takers, nodes, t) else 0
  {
    if t > 0 {
      SpokenComing(mail, cf, takers, cbs, nodes, t - 1, x);
      ToPipesEachTimes(cf, takers, cbs, nodes[t].pid, x);
    }
  }

  lemma {:induction false} MailComing(mail: map<Uid, seq<SourceMsg>>, mail': map<Uid, seq<SourceMsg>>,
                                      cf: map<nat, seq<CbAction>>, nodes: seq<Node>, t: nat, x: CbAction)
    requires Path(nodes, t)
    ensures Coming(mail', cf, nodes, t, x) + Times(Messages(mail, nodes[0].uid), Cb(x))
         == Coming(mail, cf, nodes, t, x) + Times(Messages(mail', nodes[0].uid), Cb(x))
  {
    if t > 0 {
      MailComing(mail, mail', cf, nodes, t - 1, x);
    }
  }

  /** Of the tasks of the only way, only the one before `d` feeds `d`. */
  lemma {:induction false} HitsOnce(takers: seq<Node>, d: Node, nodes: seq<Node>, t: nat)
    requires t + 1 < |nodes| && Distinct(nodes)
    requires forall j :: 0 <= j <= t ==> Times(takers, nodes[j]) == if nodes[j + 1] == d then 1 else 0
    ensures Hits(takers, nodes, t) == if d in nodes[1..t + 2] then 1 else 0
  {
    assert nodes[1..t + 2] == nodes[1..t + 1] + [nodes[t + 1]];
    if t > 0 {
      HitsOnce(takers, d, nodes, t - 1);
    }
  }

  /** A task of the only way that feeds a task which feeds the sink is the one before it. */
  lemma OnTheWay(topo: Topology, s: Uid, k: Uid, nodes: seq<Node>, j: nat, d: Node)
    requires WellFormed(topo) && OnlyWalk(topo, s, k) && Walk(topo, s, k, nodes) && j < |nodes| - 1
    requires d in Outs(topo, nodes[j]) && Feeds(topo, d, k)
    ensures nodes[j + 1] == d
  {
    var tail :| Onward(topo, d, k, tail);
    var other := nodes[..j + 1] + tail;
    forall i | 0 < i < |other|
      ensures other[i] in Outs(topo, other[i - 1])
    {
      if i > j + 1 {
        assert other[i] == tail[i - j - 1] && other[i - 1] == tail[(i - j - 1) - 1];
      }
    }
    assert Onward(topo, SourceNode(s), k, other);
    OnwardIsWalk(topo, s, k, other);
    assert other == nodes;
  }

  /** In this step source `i` takes contraflow `cb`. */
  predicate Arrives(w: World, step: Step, i: Uid, cb: CbAction) {
    step == SourceTakes(i) && SourceIn(w, i) != [] && SourceIn(w, i)[0] == Cb(cb)
  }

  ghost function Arrived(run: Run, n: nat, i: Uid, cb: CbAction): nat
    requires Shaped(run) && n < |run.states|
  {
    if n == 0 then 0 else Arrived(run, n - 1, i, cb) + if Arrives(run.states[n - 1], run.steps[n - 1], i, cb) then 1 else 0
  }

  /** What came back and what is coming back is no more than what the sink handled. */
  ghost predicate Acks(w: World, s: Uid, k: Uid, nodes: seq<Node>, arrived: nat)
    requires Shape(s, k, nodes)
  {
    arrived + Coming(w.sourceIn, w.contraflow, nodes, |nodes| - 2, DrainedBy(s, k))
    <= Times(Log(w.net, k), Packet(s, DrainSignal))
  }

  lemma SourceTookAcks(plant: Plant, w: World, j: Uid, s: Uid, k: Uid, nodes: seq<Node>, arrived: nat)
    requires Shape(s, k, nodes) && Distinct(nodes) && Acks(w, s, k, nodes, arrived) && j in w.sources && SourceIn(w, j) != []
    ensures Acks(SourceTook(plant, w, j), s, k, nodes, arrived + if Arrives(w, SourceTakes(j), s, DrainedBy(s, k)) then 1 else 0)
  {
    SourceTookLog(plant, w, j);
    MailComing(w.sourceIn, SourceTook(plant, w, j).sourceIn, w.contraflow, nodes, |nodes| - 2, DrainedBy(s, k));
  }

  lemma MailAcks(w: World, w': World, s: Uid, k: Uid, nodes: seq<Node>, arrived: nat)
    requires Shape(s, k, nodes) && Distinct(nodes) && Acks(w, s, k, nodes, arrived)
    requires w'.contraflow == w.contraflow && w'.net.log == w.net.log
    requires Times(SourceIn(w', s), Cb(DrainedBy(s, k))) == Times(SourceIn(w, s), Cb(DrainedBy(s, k)))
    ensures Acks(w', s, k, nodes, arrived)
  {
    MailComing(w.sourceIn, w'.sourceIn, w.contraflow, nodes, |nodes| - 2, DrainedBy(s, k));
  }

  lemma ConnectorTookAcks(plant: Plant, w: World, j: Uid, s: Uid, k: Uid, nodes: seq<Node>, arrived: nat)
    requires Shape(s, k, nodes) && Distinct(nodes) && Acks(w, s, k, nodes, arrived) && j in w.connectors
             && ConnectorIn(w, j) != []
    ensures Acks(ConnectorTook(w, j), s, k, nodes, arrived)
  {
    var c, msg, cb := w.connectors[j], ConnectorIn(w, j)[0], DrainedBy(s, k);
    ConnectorTookLog(w, j);
    ConnectorSendsNoCb(c, msg, cb);
    TimesNone(ToSource(C.OnMsg(c, msg).1), Cb(cb));
    TimesAppend(SourceIn(w, j), ToSource(C.OnMsg(c, msg).1), Cb(cb));
    MailAcks(w, ConnectorTook(w, j), s, k, nodes, arrived);
  }

  lemma WiredAcks(w: World, j: Uid, msg: SourceMsg, s: Uid, k: Uid, nodes: seq<Node>, arrived: nat)
    requires Shape(s, k, nodes) && Distinct(nodes) && Acks(w, s, k, nodes, arrived) && !msg.Cb?
    ensures Acks(SourceWired(w, j, msg), s, k, nodes, arrived)
  {
    TimesMore(SourceIn(w, j), msg, Cb(DrainedBy(s, k)));
    MailAcks(w, SourceWired(w, j, msg), s, k, nodes, arrived);
  }

  /** Whoever of the way feeds `d`, and `d` feeds the sink, is the task before `d`, over one link. */
  lemma WayHits(plant: Plant, s: Uid, k: Uid, nodes: seq<Node>, takers: seq<Node>, d: Node)
    requires WellFormed(plant.topo) && SingleWay(plant.topo, s, k, nodes) && Distinct(nodes) && Feeds(plant.topo, d, k)
    requires forall n :: Times(takers, n) == Times(Outs(plant.topo, n), d)
    ensures Hits(takers, nodes, |nodes| - 2) == if d in nodes[1..] then 1 else 0
  {
    forall j | 0 <= j <= |nodes| - 2
      ensures Times(takers, nodes[j]) == if nodes[j + 1] == d then 1 else 0
    {
      if nodes[j + 1] != d {
        TimesNone(Outs(plant.topo, nodes[j]), d);
        if d in Outs(plant.topo, nodes[j]) {
          OnTheWay(plant.topo, s, k, nodes, j, d);
        }
      }
    }
    HitsOnce(takers, d, nodes, |nodes| - 2);
    assert nodes[1..|nodes| - 2 + 2] == nodes[1..];
  }

  /** The task that `d` gets its messages from takes back one acknowledgement, if `d` is on the way. */
  lemma ReturnHits(plant: Plant, s: Uid, k: Uid, nodes: seq<Node>, p: nat)
    requires WellFormed(plant.topo) && MirrorsLinks(plant) && SingleWay(plant.topo, s, k, nodes) && Distinct(nodes)
    requires Feeds(plant.topo, PipeNode(p), k)
    ensures Hits(Inputs(plant, p), nodes, |nodes| - 2) == if PipeNode(p) in nodes[..|nodes| - 1] then 1 else 0
  {
    WayHits(plant, s, k, nodes, Inputs(plant, p), PipeNode(p));
    Inside(s, k, nodes, PipeNode(p));
  }

  lemma Inside(s: Uid, k: Uid, nodes: seq<Node>, d: Node)
    requires Shape(s, k, nodes) && d.PipeNode?
    ensures d in nodes[1..] <==> d in nodes[..|nodes| - 1]
  {
    assert nodes == nodes[..|nodes| - 1] + [SinkNode(k)] && nodes == [SourceNode(s)] + nodes[1..];
    assert d in nodes[1..] <==> d in nodes;
    assert d in nodes[..|nodes| - 1] <==> d in nodes;
  }

  lemma PipeReturnedAcks(plant: Plant, w: World, p: nat, takers: seq<Node>, s: Uid, k: Uid, nodes: seq<Node>, arrived: nat)
    requires WellFormed(plant.topo) && MirrorsLinks(plant) && SingleWay(plant.topo, s, k, nodes) && Distinct(nodes)
    requires Homed(plant, w) && Acks(w, s, k, nodes, arrived) && Contraflow(w.contraflow, p) != []
    requires AlwaysDelivered(Contraflow(w.contraflow, p)[0]) ==> takers == Inputs(plant, p)
    ensures Acks(PipeReturned(w, p, takers), s, k, nodes, arrived)
  {
    var cb := Contraflow(w.contraflow, p)[0];
    assert cb in Contraflow(w.contraflow, p);
    assert HomedAt(plant.topo, PipeNode(p), cb);
    if cb == DrainedBy(s, k) {
      ReturnHits(plant, s, k, nodes, p);
    }
    ComingReturned(w, p, takers, nodes, |nodes| - 2, DrainedBy(s, k));
  }

  lemma ComingReturned(w: World, p: nat, takers: seq<Node>, nodes: seq<Node>, t: nat, x: CbAction)
    requires Path(nodes, t) && Contraflow(w.contraflow, p) != []
    requires Contraflow(w.contraflow, p)[0] == x ==> Hits(takers, nodes, t) == if PipeNode(p) in nodes[..t + 1] then 1 else 0
    ensures var w' := PipeReturned(w, p, takers);
            Coming(w'.sourceIn, w'.contraflow, nodes, t, x) == Coming(w.sourceIn, w.contraflow, nodes, t, x)
  {
    TakenComing(w.sourceIn, w.contraflow, p, nodes, t, x);
    ReturnedComing(w.sourceIn, w.contraflow[p := Contraflow(w.contraflow, p)[1..]], takers,
                   Contraflow(w.contraflow, p)[0], nodes, t, x);
  }

  lemma {:induction false} InsightsAppend(a: seq<K.Effect>, b: seq<K.Effect>)
    ensures SinkInsights(a + b) == SinkInsights(a) + SinkInsights(b)
  {
    if a == [] {
      assert a + b == b;
    } else {
      InsightsAppend(a[1..], b);
      assert (a + b)[1..] == a[1..] + b;
    }
  }

  lemma NoAck(k: K.Sink, input: K.Input, s: Uid, q: Uid)
    requires input.o.Replied? ==> !Reserved(input.o.cb)
    requires !(input.x == Packet(s, DrainSignal) && q == k.uid)
    ensures Times(SinkInsights(K.Step(k, input).1), DrainedBy(s, q)) == 0
  {
    var effects, cb := K.Step(k, input).1, DrainedBy(s, q);
    SinkInsightsMember(effects, cb);
    K.AcknowledgesDrain(k, input, s, q);
    TimesNone(SinkInsights(effects), cb);
  }

  lemma NoAckReplied(o: K.Outcome, cb: CbAction)
    requires o.Replied? && !Reserved(o.cb) && Reserved(cb)
    ensures Times(SinkInsights(K.Replies(o, false)), cb) == 0
  {
    SinkInsightsMember(K.Replies(o, false), cb);
    TimesNone(SinkInsights(K.Replies(o, false)), cb);
  }

  /** One acknowledgement for each drain signal that is handled, and no other. */
  lemma AckTimes(k: K.Sink, input: K.Input, s: Uid)
    requires input.o.Replied? ==> !Reserved(input.o.cb)
    requires input.x == Packet(s, DrainSignal)
    ensures Times(SinkInsights(K.Step(k, input).1), DrainedBy(s, k.uid)) == 1
  {
    var cb, own := DrainedBy(s, k.uid), K.OnSignal(k, s, DrainSignal).1;
    var replies := if input.o.Replied? then K.Replies(input.o, false) else [];
    InsightsAppend(own, replies);
    TimesAppend(SinkInsights(own), SinkInsights(replies), cb);
    if input.o.Replied? {
      NoAckReplied(input.o, cb);
    }
    assert own == [K.Insight(cb)] || own == [K.ReportDrained, K.Insight(cb)];
    OwnAck(own, cb);
  }

  lemma OwnAck(own: seq<K.Effect>, cb: CbAction)
    requires own == [K.Insight(cb)] || own == [K.ReportDrained, K.Insight(cb)]
    ensures Times(SinkInsights(own), cb) == 1
  {
    assert [K.Insight(cb)][1..] == [] && SinkInsights([K.Insight(cb)]) == [cb];
    assert [K.ReportDrained, K.Insight(cb)][1..] == [K.Insight(cb)];
    TimesOne(cb, cb);
  }

  lemma SinkTookAcks(plant: Plant, w: World, q: Uid, o: K.Outcome, transactional: bool, autoAck: bool, s: Uid, k: Uid,
                     nodes: seq<Node>, arrived: nat)
    requires WellFormed(plant.topo) && MirrorsLinks(plant) && SingleWay(plant.topo, s, k, nodes) && Distinct(nodes)
    requires Acks(w, s, k, nodes, arrived) && q in w.sinks && w.sinks[q].uid == q && Inbox(w.net, SinkNode(q)) != []
    requires o.Replied? ==> !Reserved(o.cb)
    ensures Acks(SinkTook(plant, w, q, o, transactional, autoAck), s, k, nodes, arrived)
  {
    var x := Inbox(w.net, SinkNode(q))[0];
    var input := K.Input(x, o, transactional, autoAck);
    var cbs := SinkInsights(K.Step(w.sinks[q], input).1);
    if q == k && x == Packet(s, DrainSignal) {
      AckTimes(w.sinks[q], input, s);
      SinkHits(plant, s, k, nodes);
    } else {
      NoAck(w.sinks[q], input, s, k);
    }
    SpokenAcks(w, SinkTook(plant, w, q, o, transactional, autoAck), q, Pipes(plant, q), cbs, s, k, nodes, arrived);
  }

  lemma SpokenAcks(w: World, w': World, q: Uid, takers: seq<Node>, cbs: seq<CbAction>, s: Uid, k: Uid,
                   nodes: seq<Node>, arrived: nat)
    requires Shape(s, k, nodes) && Distinct(nodes) && Acks(w, s, k, nodes, arrived) && Inbox(w.net, SinkNode(q)) != []
    requires Times(cbs, DrainedBy(s, k)) == if q == k && Inbox(w.net, SinkNode(q))[0] == Packet(s, DrainSignal) then 1 else 0
    requires Times(cbs, DrainedBy(s, k)) == 1 ==> Hits(takers, nodes, |nodes| - 2) <= 1
    requires w'.contraflow == ToPipesEach(w.contraflow, takers, cbs) && w'.sourceIn == w.sourceIn && w'.net == Consume(w.net, q)
    ensures Acks(w', s, k, nodes, arrived)
  {
    SpokenComing(w.sourceIn, w.contraflow, takers, cbs, nodes, |nodes| - 2, DrainedBy(s, k));
    TimesMore(Log(w.net, q), Inbox(w.net, SinkNode(q))[0], Packet(s, DrainSignal));
  }

  lemma SinkHits(plant: Plant, s: Uid, k: Uid, nodes: seq<Node>)
    requires WellFormed(plant.topo) && MirrorsLinks(plant) && SingleWay(plant.topo, s, k, nodes) && Distinct(nodes)
    ensures Hits(Pipes(plant, k), nodes, |nodes| - 2) <= 1
  {
    FeedsItself(plant.topo, k);
    WayHits(plant, s, k, nodes, Pipes(plant, k), SinkNode(k));
  }

  lemma SinkRepliedAcks(plant: Plant, w: World, q: Uid, cb: CbAction, s: Uid, k: Uid, nodes: seq<Node>, arrived: nat)
    requires Shape(s, k, nodes) && Distinct(nodes) && Acks(w, s, k, nodes, arrived) && !Reserved(cb)
    ensures Acks(w.(contraflow := ToPipes(w.contraflow, Pipes(plant, q), cb)), s, k, nodes, arrived)
  {
    assert [cb][1..] == [];
    assert ToPipesEach(w.contraflow, Pipes(plant, q), [cb]) == ToPipes(w.contraflow, Pipes(plant, q), cb);
    TimesOne(cb, DrainedBy(s, k));
    SpokenComing(w.sourceIn, w.contraflow, Pipes(plant, q), [cb], nodes, |nodes| - 2, DrainedBy(s, k));
  }

  lemma StepAcks(plant: Plant, w: World, step: Step, s: Uid, k: Uid, nodes: seq<Node>, arrived: nat)
    requires WellFormed(plant.topo) && MirrorsLinks(plant) && SingleWay(plant.topo, s, k, nodes) && Distinct(nodes)
    requires Homed(plant, w) && Acks(w, s, k, nodes, arrived) && Enabled(plant, w, step)
    requires forall q :: q in w.sinks ==> w.sinks[q].uid == q
    ensures Acks(Apply(plant, w, step), s, k, nodes, arrived + if Arrives(w, step, s, DrainedBy(s, k)) then 1 else 0)
  {
    match step
    case SourceTakes(j) => SourceTookAcks(plant, w, j, s, k, nodes, arrived);
    case PipeReturns(p, takers) => PipeReturnedAcks(plant, w, p, takers, s, k, nodes, arrived);
    case SinkTakes(q, o, transactional, autoAck) => SinkTookAcks(plant, w, q, o, transactional, autoAck, s, k, nodes, arrived);
    case SinkReplies(q, cb) => SinkRepliedAcks(plant, w, q, cb, s, k, nodes, arrived);
    case ConnectorTakes(j) => ConnectorTookAcks(plant, w, j, s, k, nodes, arrived);
    case Wires(j, msg) => WiredAcks(w, j, msg, s, k, nodes, arrived);
    case _ => OtherStepAcks(plant, w, step, s, k, nodes, arrived);
  }

  lemma OtherStepAcks(plant: Plant, w: World, step: Step, s: Uid, k: Uid, nodes: seq<Node>, arrived: nat)
    requires Shape(s, k, nodes) && Distinct(nodes) && Acks(w, s, k, nodes, arrived) && Enabled(plant, w, step)
    requires step.SourcePulls? || step.Delivers? || step.PipeForwards? || step.Operator? || step.AsksFlow? || step.FlowTakes?
    ensures Acks(Apply(plant, w, step), s, k, nodes, arrived)
  {
    LogStep(plant, w, step);
    MailAcks(w, Apply(plant, w, step), s, k, nodes, arrived);
  }

  lemma KnownHomes(plant: Plant, run: Run, n: nat)
    requires MirrorsLinks(plant) && IsRun(plant, run) && n < |run.states|
    ensures Homed(plant, run.states[n]) && forall q :: q in run.states[n].sinks ==> run.states[n].sinks[q].uid == q
  {
    MirrorsLinksMirrors(plant);
    AlwaysHomed(plant, run, n);
    AlwaysInvariant(plant, run, n);
  }

  lemma {:induction false} AlwaysAcks(plant: Plant, run: Run, n: nat, s: Uid, k: Uid, nodes: seq<Node>)
    requires WellFormed(plant.topo) && MirrorsLinks(plant) && SingleWay(plant.topo, s, k, nodes)
    requires IsRun(plant, run) && n < |run.states|
    ensures Acks(run.states[n], s, k, nodes, Arrived(run, n, s, DrainedBy(s, k)))
  {
    SingleIsDistinct(plant.topo, s, k, nodes);
    if n == 0 {
      NothingComing(nodes, |nodes| - 2, DrainedBy(s, k));
    } else {
      AlwaysAcks(plant, run, n - 1, s, k, nodes);
      KnownHomes(plant, run, n - 1);
      assert Moves(plant, run, n - 1);
      StepAcks(plant, run.states[n - 1], run.steps[n - 1], s, k, nodes, Arrived(run, n - 1, s, DrainedBy(s, k)));
    }
  }

  lemma SingleIsDistinct(topo: Topology, s: Uid, k: Uid, nodes: seq<Node>)
    requires WellFormed(topo) && SingleWay(topo, s, k, nodes)
    ensures Distinct(nodes)
  {
    OnlyWalkIsSole(topo, s, k, nodes);
  }

  lemma {:induction false} NothingComing(nodes: seq<Node>, t: nat, x: CbAction)
    requires Path(nodes, t)
    ensures Coming(map[], map[], nodes, t, x) == 0
  {
    if t > 0 {
      NothingComing(nodes, t - 1, x);
    }
  }

  // ----- a source reports once

  /** Each sink that source `i` feeds can be reached over one way. */
  ghost predicate Clear(topo: Topology, i: Uid) {
    forall k :: Feeds(topo, SourceNode(i), k) ==> exists nodes :: SingleWay(topo, i, k, nodes)
  }

  lemma {:induction false} MailIsComing(mail: map<Uid, seq<SourceMsg>>, cf: map<nat, seq<CbAction>>, nodes: seq<Node>,
                                        t: nat, x: CbAction)
    requires Path(nodes, t)
    ensures Times(Messages(mail, nodes[0].uid), Cb(x)) <= Coming(mail, cf, nodes, t, x)
  {
    if t > 0 {
      MailIsComing(mail, cf, nodes, t - 1, x);
    }
  }

  /** The acknowledgement of a sink comes back once. */
  lemma AcksOnce(plant: Plant, run: Run, n: nat, i: Uid, k: Uid)
    requires WellFormed(plant.topo) && MirrorsLinks(plant) && Clear(plant.topo, i) && Feeds(plant.topo, SourceNode(i), k)
    requires IsRun(plant, run) && n < |run.states| && i in run.states[n].sources && i !in run.states[n].finished
    ensures Arrived(run, n, i, DrainedBy(i, k)) + Times(SourceIn(run.states[n], i), Cb(DrainedBy(i, k))) <= 1
  {
    var nodes :| SingleWay(plant.topo, i, k, nodes);
    var w := run.states[n];
    OnlyWalkIsSole(plant.topo, i, k, nodes);
    AlwaysAcks(plant, run, n, i, k, nodes);
    HandledAtMost(plant, run, n, i, k, nodes);
    AlwaysOneSignal(plant, run, n, i);
    MailIsComing(w.sourceIn, w.contraflow, nodes, |nodes| - 2, DrainedBy(i, k));
  }

  /** A sink that a source heard of is awaited until its acknowledgement comes. */
  lemma {:induction false} HeardOrArrived(plant: Plant, run: Run, n: nat, i: Uid, k: Uid)
    requires IsRun(plant, run) && n < |run.states| && i in run.states[n].sources && k in Heard(run.states[n], i)
    ensures k in run.states[n].sources[i].started || Arrived(run, n, i, DrainedBy(i, k)) >= 1
  {
    if n > 0 {
      var w, step := run.states[n - 1], run.steps[n - 1];
      assert Moves(plant, run, n - 1);
      AlwaysInvariant(plant, run, n - 1);
      SourcesStay(plant, w, step, i);
      if k in Heard(w, i) {
        HeardOrArrived(plant, run, n - 1, i, k);
      }
      AwaitedOn(plant, w, step, i, k);
    }
  }

  lemma SourcesStay(plant: Plant, w: World, step: Step, i: Uid)
    requires Enabled(plant, w, step)
    ensures i in Apply(plant, w, step).sources <==> i in w.sources
    ensures i in w.finished ==> i in Apply(plant, w, step).finished
    ensures Heard(w, i) <= Heard(Apply(plant, w, step), i)
    ensures w.asked.Some? ==> Apply(plant, w, step).asked.Some?
  {
    match step
    case SourceTakes(j) => TookStays(plant, w, j, i);
    case SourcePulls(j, reply) => PulledStays(plant, w, j, reply, i);
    case _ => OtherFrame(plant, w, step);
  }

  lemma TookStays(plant: Plant, w: World, j: Uid, i: Uid)
    requires j in w.sources && SourceIn(w, j) != []
    ensures var w' := SourceTook(plant, w, j);
            && w'.sources.Keys == w.sources.Keys && w'.finished == w.finished && Heard(w, i) <= Heard(w', i)
               && w'.asked == w.asked
  {
  }

  lemma PulledStays(plant: Plant, w: World, j: Uid, reply: S.Reply, i: Uid)
    requires j in w.sources
    ensures var w' := SourcePulled(plant, w, j, reply);
            && w'.sources.Keys == w.sources.Keys && w.finished <= w'.finished && Heard(w, i) <= Heard(w', i)
               && w'.asked == w.asked
  {
  }

  lemma AwaitedTook(plant: Plant, w: World, i: Uid, k: Uid)
    requires i in w.sources && w.sources[i].uid == i && SourceIn(w, i) != []
    ensures var w' := SourceTook(plant, w, i);
            && (k in Heard(w', i) && k !in Heard(w, i) ==> k in w'.sources[i].started)
            && (k in w.sources[i].started ==> k in w'.sources[i].started || SourceIn(w, i)[0] == Cb(DrainedBy(i, k)))
  {
    S.StartedStep(w.sources[i], S.Told(SourceIn(w, i)[0]), k);
  }

  lemma AwaitedPulled(plant: Plant, w: World, i: Uid, reply: S.Reply, k: Uid)
    requires i in w.sources
    ensures var w' := SourcePulled(plant, w, i, reply);
            Heard(w', i) == Heard(w, i) && (k in w.sources[i].started ==> k in w'.sources[i].started)
  {
    S.StartedStep(w.sources[i], S.Pulled(reply), k);
  }

  lemma AwaitedElse(plant: Plant, w: World, step: Step, i: Uid)
    requires Enabled(plant, w, step) && i in w.sources && step != SourceTakes(i) && !(step.SourcePulls? && step.i == i)
    ensures var w' := Apply(plant, w, step);
            i in w'.sources && w'.sources[i] == w.sources[i] && Heard(w', i) == Heard(w, i)
  {
    if step.SourceTakes? {
      OtherTook(plant, w, step.i, i);
    } else if step.SourcePulls? {
      OtherPulled(plant, w, step.i, step.reply, i);
    } else {
      OtherFrame(plant, w, step);
    }
  }

  lemma OtherTook(plant: Plant, w: World, j: Uid, i: Uid)
    requires j in w.sources && SourceIn(w, j) != [] && i in w.sources && i != j
    ensures var w' := SourceTook(plant, w, j); i in w'.sources && w'.sources[i] == w.sources[i] && Heard(w', i) == Heard(w, i)
  {
  }

  lemma OtherPulled(plant: Plant, w: World, j: Uid, reply: S.Reply, i: Uid)
    requires j in w.sources && i in w.sources && i != j
    ensures var w' := SourcePulled(plant, w, j, reply);
            i in w'.sources && w'.sources[i] == w.sources[i] && Heard(w', i) == Heard(w, i)
  {
  }

  lemma AwaitedOn(plant: Plant, w: World, step: Step, i: Uid, k: Uid)
    requires Enabled(plant, w, step) && i in w.sources && w.sources[i].uid == i && i in Apply(plant, w, step).sources
    ensures var w' := Apply(plant, w, step);
            && (k in Heard(w', i) && k !in Heard(w, i) ==> k in w'.sources[i].started)
            && (k in w.sources[i].started ==> k in w'.sources[i].started || Arrives(w, step, i, DrainedBy(i, k)))
  {
    if step == SourceTakes(i) {
      AwaitedTook(plant, w, i, k);
    } else if step.SourcePulls? && step.i == i {
      AwaitedPulled(plant, w, i, step.reply, k);
    } else {
      AwaitedElse(plant, w, step, i);
    }
  }

  lemma {:induction false} GrowsAlong(plant: Plant, run: Run, m: nat, n: nat, i: Uid)
    requires IsRun(plant, run) && m <= n < |run.states|
    ensures Heard(run.states[m], i) <= Heard(run.states[n], i)
    ensures run.states[m].asked.Some? ==> run.states[n].asked.Some?
    ensures i in run.states[m].finished ==> i in run.states[n].finished
  {
    if m < n {
      GrowsAlong(plant, run, m, n - 1, i);
      assert Moves(plant, run, n - 1);
      SourcesStay(plant, run.states[n - 1], run.steps[n - 1], i);
    }
  }

  /** When a source reports, and when it learns whom to report to. */
  lemma ReportCases(s: S.Source, msg: SourceMsg)
    ensures var (t, effects) := S.OnMsg(s, msg);
            && (S.ReportDrained in effects ==>
                  || (msg == DrainSource && t.channel == s.channel)
                  || (msg.Cb? && msg.cb.DrainedBy? && msg.cb.source == s.uid && s.channel && t.started == {}))
            && (t.channel != s.channel ==> msg == DrainSource && t.channel && S.ReportDrained !in effects)
  {
  }

  lemma NoReportPulled(s: S.Source, reply: S.Reply)
    ensures S.ReportDrained !in S.OnReply(s, reply).1 && S.OnReply(s, reply).0.channel == s.channel
  {
    if reply.Received? {
      S.RoutedOnly(reply.events);
    } else if reply.EndStream? {
      S.RoutedOnly(reply.last);
    }
  }

  /** All acknowledgements have come back to source `i`. */
  ghost predicate AllBack(topo: Topology, run: Run, n: nat, i: Uid)
    requires Shaped(run) && n < |run.states|
  {
    forall k :: Feeds(topo, SourceNode(i), k) ==> Arrived(run, n, i, DrainedBy(i, k)) >= 1
  }

  ghost predicate Frugal(w: World, i: Uid, reports: nat, back: bool) {
    i in w.sources && i !in w.finished ==>
      if w.sources[i].channel then DrainsLeft(w, i) == 0 && reports <= 1 && (reports == 1 ==> back)
      else reports + DrainsLeft(w, i) <= 1
  }

  /** A step in which source `i` does not take a message. */
  lemma OtherStepFrugal(plant: Plant, w: World, step: Step, i: Uid, reports: nat, back: bool)
    requires Frugal(w, i, reports, back) && Enabled(plant, w, step) && step != SourceTakes(i)
    ensures Frugal(Apply(plant, w, step), i, reports, back) && !Tells(w, step, i)
  {
    match step
    case SourceTakes(j) =>
      SourceTookDrains(plant, w, j);
      if i in w.sources {
        OtherTook(plant, w, j, i);
      }
    case SourcePulls(j, reply) => PulledFrugal(plant, w, j, reply, i, reports, back);
    case _ =>
      OtherStepDrains(plant, w, step);
      OtherFrame(plant, w, step);
  }

  lemma PulledFrugal(plant: Plant, w: World, j: Uid, reply: S.Reply, i: Uid, reports: nat, back: bool)
    requires Frugal(w, i, reports, back) && j in w.sources
    ensures Frugal(SourcePulled(plant, w, j, reply), i, reports, back) && !Tells(w, SourcePulls(j, reply), i)
  {
    SourcePulledDrains(plant, w, j, reply);
    NoReportPulled(w.sources[j], reply);
  }

  /** Source `i` takes a message; an acknowledgement that it reports on is the last one. */
  lemma SourceTookFrugal(plant: Plant, w: World, i: Uid, reports: nat, back: bool, back': bool)
    requires Frugal(w, i, reports, back) && i in w.sources && SourceIn(w, i) != [] && (back ==> back')
    requires var msg := SourceIn(w, i)[0];
             Tells(w, SourceTakes(i), i) && msg != DrainSource && i !in w.finished ==> !back && back'
    ensures Frugal(SourceTook(plant, w, i), i, reports + (if Tells(w, SourceTakes(i), i) then 1 else 0), back')
  {
    ReportCases(w.sources[i], SourceIn(w, i)[0]);
    SourceTookDrains(plant, w, i);
  }

  /** The moment before the flow is asked: the source has heard of all sinks that it feeds. */
  ghost predicate Ready(plant: Plant, w: World, i: Uid) {
    w.asked.None? && forall k :: Feeds(plant.topo, SourceNode(i), k) ==> k in Heard(w, i)
  }

  /** A report on an acknowledgement is made when this was the last one. */
  lemma LastAck(plant: Plant, run: Run, m: nat, n: nat, i: Uid)
    requires WellFormed(plant.topo) && MirrorsLinks(plant) && Clear(plant.topo, i)
    requires IsRun(plant, run) && m < |run.states| && n + 1 < |run.states| && Ready(plant, run.states[m], i)
    requires i in run.states[n].sources && i !in run.states[n].finished && run.steps[n] == SourceTakes(i)
    requires run.states[n].sources[i].channel ==> DrainsLeft(run.states[n], i) == 0
    requires Tells(run.states[n], SourceTakes(i), i) && SourceIn(run.states[n], i)[0] != DrainSource
    ensures !AllBack(plant.topo, run, n, i) && AllBack(plant.topo, run, n + 1, i)
  {
    var w, msg := run.states[n], SourceIn(run.states[n], i)[0];
    assert Moves(plant, run, n);
    ReportCases(w.sources[i], msg);
    KnownHomes(plant, run, n);
    AlwaysInvariant(plant, run, n);
    assert Accounted(w, i);
    assert msg in Messages(w.sourceIn, i) && HomedAt(plant.topo, SourceNode(i), msg.cb);
    FirstOfIts(plant, run, n, i, msg.cb.sink);
    EveryoneBack(plant, run, m, n, i);
  }

  lemma FirstOfIts(plant: Plant, run: Run, n: nat, i: Uid, k: Uid)
    requires WellFormed(plant.topo) && MirrorsLinks(plant) && Clear(plant.topo, i) && Feeds(plant.topo, SourceNode(i), k)
    requires IsRun(plant, run) && n < |run.states| && i in run.states[n].sources && i !in run.states[n].finished
    requires SourceIn(run.states[n], i) != [] && SourceIn(run.states[n], i)[0] == Cb(DrainedBy(i, k))
    ensures !AllBack(plant.topo, run, n, i)
  {
    AcksOnce(plant, run, n, i, k);
    assert Arrived(run, n, i, DrainedBy(i, k)) == 0;
  }

  lemma EveryoneBack(plant: Plant, run: Run, m: nat, n: nat, i: Uid)
    requires IsRun(plant, run) && m < |run.states| && n + 1 < |run.states| && Ready(plant, run.states[m], i)
    requires i in run.states[n].sources && run.states[n].asked.Some?
    requires i in run.states[n + 1].sources && run.states[n + 1].sources[i].started == {}
    ensures AllBack(plant.topo, run, n + 1, i)
  {
    if n < m {
      GrowsAlong(plant, run, n, m, i);
      assert false;
    }
    forall k | Feeds(plant.topo, SourceNode(i), k)
      ensures Arrived(run, n + 1, i, DrainedBy(i, k)) >= 1
    {
      GrowsAlong(plant, run, m, n + 1, i);
      HeardOrArrived(plant, run, n + 1, i, k);
    }
  }

  lemma {:induction false} AlwaysFrugal(plant: Plant, run: Run, m: nat, n: nat, i: Uid)
    requires WellFormed(plant.topo) && MirrorsLinks(plant) && Clear(plant.topo, i)
    requires IsRun(plant, run) && m < |run.states| && n < |run.states| && Ready(plant, run.states[m], i)
    ensures Frugal(run.states[n], i, Reports(run, n, i), AllBack(plant.topo, run, n, i))
  {
    if n > 0 {
      var w, step := run.states[n - 1], run.steps[n - 1];
      assert Moves(plant, run, n - 1);
      AlwaysFrugal(plant, run, m, n - 1, i);
      BackStays(plant.topo, run, n - 1, i);
      if step != SourceTakes(i) {
        OtherStepFrugal(plant, w, step, i, Reports(run, n - 1, i), AllBack(plant.topo, run, n - 1, i));
      } else {
        if Tells(w, step, i) && SourceIn(w, i)[0] != DrainSource && i !in w.finished {
          LastAck(plant, run, m, n - 1, i);
        }
        SourceTookFrugal(plant, w, i, Reports(run, n - 1, i), AllBack(plant.topo, run, n - 1, i), AllBack(plant.topo, run, n, i));
      }
    }
  }

  lemma BackStays(topo: Topology, run: Run, n: nat, i: Uid)
    requires Shaped(run) && n + 1 < |run.states|
    ensures AllBack(topo, run, n, i) ==> AllBack(topo, run, n + 1, i)
  {
    assert forall k :: Arrived(run, n, i, DrainedBy(i, k)) <= Arrived(run, n + 1, i, DrainedBy(i, k));
  }

  /**
   In every run, a source that does not finish by itself reports at most once, if each of its sinks can be
   reached over one way and it had heard of all of them before the flow was asked to drain.
   */
  lemma ReportsOnce(plant: Plant, run: Run, m: nat, n: nat, i: Uid)
    requires WellFormed(plant.topo) && MirrorsLinks(plant) && Clear(plant.topo, i)
    requires IsRun(plant, run) && m < |run.states| && n < |run.states| && Ready(plant, run.states[m], i)
    requires i in run.states[n].sources && i !in run.states[n].finished
    ensures Reports(run, n, i) <= 1
  {
    AlwaysFrugal(plant, run, m, n, i);
  }

  // ----- what the flow tells

  /** A source reports only after the flow was asked, unless it finished by itself. */
  lemma TellsAfterAsked(plant: Plant, run: Run, m: nat, n: nat, i: Uid)
    requires WellFormed(plant.topo) && MirrorsLinks(plant) && Clear(plant.topo, i)
    requires IsRun(plant, run) && m < |run.states| && n < |run.steps| && Ready(plant, run.states[m], i)
    requires i in run.states[n].sources && i !in run.states[n].finished && Tells(run.states[n], run.steps[n], i)
    ensures m < n && Heard(run.states[m], i) <= Heard(run.states[n + 1], i)
  {
    AlwaysInvariant(plant, run, n);
    AlwaysFrugal(plant, run, m, n, i);
    assert Paced(run.states[n], i);
    TellsAsked(run.states[n], run.steps[n], i);
    if n <= m {
      GrowsAlong(plant, run, n, m, i);
    }
    GrowsAlong(plant, run, m, n + 1, i);
  }

  lemma TellsAsked(w: World, step: Step, i: Uid)
    requires Tells(w, step, i) && DrainsLeft(w, i) <= 1 && (w.sources[i].channel ==> DrainsLeft(w, i) == 0)
    ensures w.asked.Some?
  {
    if step.SourceTakes? {
      ReportCases(w.sources[i], SourceIn(w, i)[0]);
      assert SourceIn(w, i)[0] == DrainSource ==> SourceAsks(SourceIn(w, i)) >= 1;
    } else {
      NoReportPulled(w.sources[i], step.reply);
    }
  }

  /** What a source knew when it reported includes what it knew before the flow was asked. */
  lemma {:induction false} SettledKnows(plant: Plant, run: Run, m: nat, n: nat, i: Uid)
    requires WellFormed(plant.topo) && MirrorsLinks(plant) && Clear(plant.topo, i)
    requires IsRun(plant, run) && m < |run.states| && n < |run.states| && Ready(plant, run.states[m], i)
    requires i in run.states[n].sources && i !in run.states[n].finished && i in run.states[n].settled
    ensures Heard(run.states[m], i) <= run.states[n].settled[i]
  {
    if n > 0 {
      var w, step := run.states[n - 1], run.steps[n - 1];
      assert Moves(plant, run, n - 1);
      SourcesStay(plant, w, step, i);
      SettledOn(plant, w, step, i);
      if i in w.settled && run.states[n].settled[i] == w.settled[i] {
        SettledKnows(plant, run, m, n - 1, i);
      } else {
        TellsAfterAsked(plant, run, m, n - 1, i);
      }
    }
  }

  lemma SettledOn(plant: Plant, w: World, step: Step, i: Uid)
    requires Enabled(plant, w, step)
    ensures var w' := Apply(plant, w, step);
            i in w'.settled ==>
              || (i in w.settled && w'.settled[i] == w.settled[i])
              || (Tells(w, step, i) && w'.settled[i] == Heard(w', i))
  {
    match step
    case SourceTakes(j) => SettledTook(plant, w, j, i);
    case SourcePulls(j, reply) => SettledPulled(plant, w, j, reply, i);
    case _ => OtherFrame(plant, w, step);
  }

  lemma SettledTook(plant: Plant, w: World, j: Uid, i: Uid)
    requires j in w.sources && SourceIn(w, j) != []
    ensures var w' := SourceTook(plant, w, j);
            i in w'.settled ==>
              || (i in w.settled && w'.settled[i] == w.settled[i])
              || (Tells(w, SourceTakes(j), i) && w'.settled[i] == Heard(w', i))
  {
  }

  lemma SettledPulled(plant: Plant, w: World, j: Uid, reply: S.Reply, i: Uid)
    requires j in w.sources
    ensures var w' := SourcePulled(plant, w, j, reply);
            i in w'.settled ==>
              || (i in w.settled && w'.settled[i] == w.settled[i])
              || (Tells(w, SourcePulls(j, reply), i) && w'.settled[i] == Heard(w', i))
  {
  }

  /** Connector `i` can be relied on: it has a part, and its source, if any, is ready and reaches each sink over one way. */
  ghost predicate Reliable(plant: Plant, before: World, w: World, i: Uid) {
    && i in w.connectors && (w.connectors[i].hasSource || w.connectors[i].hasSink)
    && (w.connectors[i].hasSource ==>
          i in w.sources && i !in w.finished && Clear(plant.topo, i) && Ready(plant, before, i))
  }

  lemma ReliableAnswersOnce(plant: Plant, run: Run, m: nat, n: nat)
    requires WellFormed(plant.topo) && MirrorsLinks(plant) && IsRun(plant, run) && m < |run.states| && n < |run.states|
    requires forall i :: Asked(run.states[n], i) ==> Reliable(plant, run.states[m], run.states[n], i)
    ensures F.NoRepeats(run.states[n].answers)
  {
    var w := run.states[n];
    forall i | Asked(w, i)
      ensures i in w.connectors && (w.connectors[i].hasSource ==> Reports(run, n, i) <= 1)
    {
      if w.connectors[i].hasSource {
        ReportsOnce(plant, run, m, n, i);
      }
    }
    AnswersDoNotRepeat(plant, run, n);
  }

  /**
   When the flow tells that it is drained, everything is: of every source it asked, every sink that the
   source feeds has handled all that was sent before the drain signal. This holds in every run in which
   the asked connectors can be relied on.
   */
  lemma ToldMeansDrained(plant: Plant, run: Run, m: nat, n: nat, s: Uid, k: Uid, nodes: seq<Node>)
    requires WellFormed(plant.topo) && MirrorsLinks(plant) && IsRun(plant, run) && m < |run.states| && n < |run.states|
    requires forall i :: Asked(run.states[n], i) ==> Reliable(plant, run.states[m], run.states[n], i)
    requires var w := run.states[n]; w.told && Asked(w, s) && s in w.connectors && w.connectors[s].hasSource
    requires Walk(plant.topo, s, k, nodes)
    ensures Delivered(plant.topo, Route(s, k, nodes, ReachOf(plant.topo, s)), run.states[n].net)
  {
    ReliableAnswersOnce(plant, run, m, n);
    WalkFeeds(plant.topo, s, k, nodes);
    var way :| SingleWay(plant.topo, s, k, way);
    assert way == nodes;
    OnlyWalkIsSole(plant.topo, s, k, nodes);
    QuiescentMeansDelivered(plant, Route(s, k, nodes, ReachOf(plant.topo, s)), run, n);
    SettledKnows(plant, run, m, n, s);
  }

  lemma WalkFeeds(topo: Topology, s: Uid, k: Uid, nodes: seq<Node>)
    requires Walk(topo, s, k, nodes)
    ensures Feeds(topo, SourceNode(s), k)
  {
    assert Onward(topo, SourceNode(s), k, nodes);
  }
}
