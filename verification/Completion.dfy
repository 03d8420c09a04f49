/**
 Draining can always be completed: with one way from a source to a sink there is a run in which an event
 is handled, both connectors are asked to drain, both answer once, and the flow tells that it is drained.
 Thus the hypotheses of the results in `Quiescence` can be met, all at once.
 */
module Completion {
  import opened Protocol
  import opened Wrappers
  import opened Network
  import opened Quiescence
  import opened Playing
  import opened DrainScenario
  import opened OneWay
  import opened Homing
  import P = Progress
  import S = SourceTask
  import K = SinkTask
  import C = ConnectorLoop
  import F = FlowLoop

  // ----- the parts have drained, the connectors answer

  lemma InjectOne(net: Net, k: Uid, msg: SinkControl)
    ensures InjectAll(net, k, [msg]) == Inject(net, k, msg)
  {
    assert [msg][1..] == [];
    assert InjectAll(Inject(net, k, msg), k, []) == Inject(net, k, msg);
  }

  lemma TookOne(w: World, i: Uid, msg: C.Msg, c: C.Connector, e: C.Effect)
    requires i in w.connectors && ConnectorIn(w, i) == [msg] && C.OnMsg(w.connectors[i], msg) == (c, [e])
    requires !e.ToSource?
    ensures ConnectorTook(w, i)
         == w.(connectors := w.connectors[i := c], connectorIn := w.connectorIn[i := if e.ToSelf? then [e.msg] else []],
               sourceIn := w.sourceIn[i := SourceIn(w, i)], net := if e.ToSink? then Inject(w.net, i, e.sink) else w.net,
               results := if e == C.AnswerDrain then w.results + [i] else w.results)
  {
    OneEffect(e);
    assert [msg][1..] + ToSelf([e]) == ToSelf([e]) && SourceIn(w, i) + [] == SourceIn(w, i);
    if e.ToSink? {
      InjectOne(w.net, i, e.sink);
    }
  }

  lemma TakesOne(plant: Plant, w: World, i: Uid, msg: C.Msg, c: C.Connector, e: C.Effect) returns (u: World)
    requires i in w.connectors && ConnectorIn(w, i) == [msg] && C.OnMsg(w.connectors[i], msg) == (c, [e])
    requires !e.ToSource? && w.connectors[i].phase != C.Stopped
    ensures Reaches(plant, w, u)
    ensures u == w.(connectors := w.connectors[i := c], connectorIn := w.connectorIn[i := if e.ToSelf? then [e.msg] else []],
                    sourceIn := w.sourceIn[i := SourceIn(w, i)], net := if e.ToSink? then Inject(w.net, i, e.sink) else w.net,
                    results := if e == C.AnswerDrain then w.results + [i] else w.results)
  {
    u := ConnectorTook(w, i);
    TookOne(w, i, msg, c, e);
    ConnectorOnce(plant, w, i);
  }

  predicate Drains(c: C.Connector, d: C.Drainage) {
    c.phase == C.Draining && c.drainage == Some(d)
  }

  lemma SourceAnswers(plant: Plant, w: World, s: Uid) returns (u: World)
    requires s in w.connectors && Drains(w.connectors[s], C.Drainage(C.Expected, C.Absent))
    requires ConnectorIn(w, s) == [C.SourceDrained]
    ensures Reaches(plant, w, u) && s in u.connectors && u.connectors[s].hasSource == w.connectors[s].hasSource
    ensures u == w.(connectors := w.connectors[s := u.connectors[s]], connectorIn := w.connectorIn[s := []],
                    sourceIn := u.sourceIn,
                    results := w.results + [s])
  {
    var c := w.connectors[s].(drainage := Some(C.Drainage(C.Done, C.Absent)));
    u := TakesOne(plant, w, s, C.SourceDrained, c, C.AnswerDrain);
  }

  /** The connector of a sink is asked to drain and passes the request on to the sink. */
  lemma SinkIsAsked(plant: Plant, w: World, k: Uid) returns (u: World)
    requires k in w.connectors && ConnectorIn(w, k) == [C.Drain]
    requires w.connectors[k].phase == C.Running && w.connectors[k].hasSink && !w.connectors[k].hasSource
    ensures Reaches(plant, w, u) && k in u.connectors && Drains(u.connectors[k], C.Drainage(C.Done, C.Expected))
    ensures u == w.(connectors := w.connectors[k := u.connectors[k]], connectorIn := w.connectorIn[k := []],
                    sourceIn := u.sourceIn,
                    net := Inject(w.net, k, DrainSink))
  {
    var c := Requested(w.connectors[k]);
    assert [C.ToSelf(C.SourceDrained)] + [] == [C.ToSelf(C.SourceDrained)];
    var mid := TakesOne(plant, w, k, C.Drain, c, C.ToSelf(C.SourceDrained));
    u := PassesOn(plant, mid, k);
    Then(plant, w, mid, u);
    Twice(w.connectors, k, c, u.connectors[k]);
    Twice(w.connectorIn, k, [C.SourceDrained], []);
  }

  lemma PassesOn(plant: Plant, w: World, k: Uid) returns (u: World)
    requires k in w.connectors && ConnectorIn(w, k) == [C.SourceDrained]
    requires Drains(w.connectors[k], C.Drainage(C.Absent, C.Expected)) && w.connectors[k].hasSink
    ensures Reaches(plant, w, u) && k in u.connectors && Drains(u.connectors[k], C.Drainage(C.Done, C.Expected))
    ensures u == w.(connectors := w.connectors[k := u.connectors[k]], connectorIn := w.connectorIn[k := []],
                    sourceIn := u.sourceIn,
                    net := Inject(w.net, k, DrainSink))
  {
    var d := w.connectors[k].(drainage := Some(C.Drainage(C.Done, C.Expected)));
    u := TakesOne(plant, w, k, C.SourceDrained, d, C.ToSink(DrainSink));
  }

  lemma ReportsAtOnce(sink: K.Sink)
    requires sink.phase == K.Drained
    ensures K.OnItem(sink, Control(DrainSink), K.Errored, false, false) == (sink, [K.ReportDrained])
    ensures SinkInsights([K.ReportDrained]) == []
  {
    assert [K.ReportDrained][1..] == [];
  }

  lemma SinkReportsIs(plant: Plant, w: World, k: Uid)
    requires k in w.sinks && w.sinks[k].phase == K.Drained && Inbox(w.net, SinkNode(k)) == [Control(DrainSink)]
    ensures SinkTook(plant, w, k, K.Errored, false, false)
         == w.(net := Consume(w.net, k), connectorIn := w.connectorIn[k := ConnectorIn(w, k) + [C.SinkDrained]])
  {
    ReportsAtOnce(w.sinks[k]);
    assert w.sinks[k := w.sinks[k]] == w.sinks;
  }

  lemma SinkReportsDrained(plant: Plant, w: World, k: Uid) returns (u: World)
    requires k in w.sinks && w.sinks[k].phase == K.Drained && Inbox(w.net, SinkNode(k)) == [Control(DrainSink)]
    ensures Reaches(plant, w, u)
    ensures u == w.(net := Consume(w.net, k), connectorIn := w.connectorIn[k := ConnectorIn(w, k) + [C.SinkDrained]])
  {
    u := SinkTook(plant, w, k, K.Errored, false, false);
    SinkReportsIs(plant, w, k);
    SinkOnce(plant, w, k);
  }

  lemma SinkAnswers(plant: Plant, w: World, k: Uid) returns (u: World)
    requires k in w.connectors && Drains(w.connectors[k], C.Drainage(C.Done, C.Expected))
    requires ConnectorIn(w, k) == [C.SinkDrained]
    ensures Reaches(plant, w, u) && k in u.connectors
    ensures u == w.(connectors := w.connectors[k := u.connectors[k]], connectorIn := w.connectorIn[k := []],
                    sourceIn := u.sourceIn,
                    results := w.results + [k])
  {
    var c := w.connectors[k].(drainage := Some(C.Drainage(C.Done, C.Done)));
    u := TakesOne(plant, w, k, C.SinkDrained, c, C.AnswerDrain);
  }

  // ----- the sink handles what is left in its inbox

  lemma {:induction false} SinkEmpties(plant: Plant, w: World, s: Uid, k: Uid) returns (u: World)
    requires k in w.sinks && Drained(w.sinks[k], s, k)
    requires forall x :: x in Inbox(w.net, SinkNode(k)) ==> x.Packet? && x.origin == s
    ensures Reaches(plant, w, u) && k in u.sinks && Drained(u.sinks[k], s, k)
    ensures u == w.(sinks := w.sinks[k := u.sinks[k]], net := u.net, contraflow := u.contraflow)
    ensures Inbox(u.net, SinkNode(k)) == [] && Log(u.net, k) == Log(w.net, k) + Inbox(w.net, SinkNode(k))
    decreases |Inbox(w.net, SinkNode(k))|
  {
    var inbox := Inbox(w.net, SinkNode(k));
    if inbox == [] {
      u := w;
      Stays(plant, w);
      assert w.sinks[k := w.sinks[k]] == w.sinks;
    } else {
      assert inbox[0] in inbox;
      var mid := SinkTakesPacket(plant, w, s, k, inbox[0].body);
      SinkSteps(w.sinks[k], s, inbox[0].body);
      assert forall x :: x in inbox[1..] ==> x in inbox;
      u := SinkEmpties(plant, mid, s, k);
      Then(plant, w, mid, u);
      Twice(w.sinks, k, mid.sinks[k], u.sinks[k]);
      Shifted(Log(w.net, k), inbox);
    }
  }

  lemma Shifted<T>(a: seq<T>, b: seq<T>)
    requires b != []
    ensures (a + [b[0]]) + b[1..] == a + b
  {
  }

  // ----- the flow

  lemma FlowTells(plant: Plant, w: World, s: Uid, k: Uid) returns (u: World)
    requires w.results == [s, k] && w.flow == F.Flow(F.Draining, 2, [0]) && w.answers == []
    ensures Reaches(plant, w, u) && u.told && u.answers == [s, k]
    ensures u == w.(flow := u.flow, results := [], told := true, answers := [s, k])
  {
    var mid := FlowTook(w);
    FlowOnce(plant, w);
    assert [s, k][1..] == [k] && [k][1..] == [] && [] + [s] == [s] && [s] + [k] == [s, k];
    u := FlowTook(mid);
    FlowOnce(plant, mid);
    Then(plant, w, mid, u);
  }

  // ----- all together

  /** Both parts are drained; their connectors still have to answer. */
  ghost predicate Closing(w: World, s: Uid, k: Uid) {
    && s != k && s in w.connectors && k in w.connectors && k in w.sinks
    && Drains(w.connectors[s], C.Drainage(C.Expected, C.Absent)) && ConnectorIn(w, s) == [C.SourceDrained]
    && w.connectors[k].phase == C.Running && w.connectors[k].hasSink && !w.connectors[k].hasSource
       && ConnectorIn(w, k) == [C.Drain]
    && Drained(w.sinks[k], s, k) && Inbox(w.net, SinkNode(k)) == []
    && w.flow == F.Flow(F.Draining, 2, [0]) && w.results == [] && w.answers == []
  }

  /** What the play is about at the end has not changed. */
  ghost predicate SameStory(w: World, u: World, s: Uid, k: Uid) {
    && u.asked == w.asked && u.sources == w.sources && u.heard == w.heard && u.settled == w.settled && u.finished == w.finished
    && Log(w.net, k) <= Log(u.net, k)
    && s in w.connectors && s in u.connectors && u.connectors[s].hasSource == w.connectors[s].hasSource
  }

  lemma SinkSide(plant: Plant, w: World, k: Uid) returns (u: World)
    requires k in w.connectors && ConnectorIn(w, k) == [C.Drain] && k in w.sinks
    requires w.connectors[k].phase == C.Running && w.connectors[k].hasSink && !w.connectors[k].hasSource
    requires w.sinks[k].phase == K.Drained && Inbox(w.net, SinkNode(k)) == []
    ensures Reaches(plant, w, u) && k in u.connectors
    ensures u == w.(connectors := w.connectors[k := u.connectors[k]], connectorIn := u.connectorIn, sourceIn := u.sourceIn,
                    net := u.net, results := w.results + [k])
    ensures Log(w.net, k) <= Log(u.net, k)
  {
    var a := SinkIsAsked(plant, w, k);
    assert [] + [Control(DrainSink)] == [Control(DrainSink)] && [] + [C.SinkDrained] == [C.SinkDrained];
    var b := SinkReportsDrained(plant, a, k);
    Then(plant, w, a, b);
    u := SinkAnswers(plant, b, k);
    Then(plant, w, b, u);
    Twice(w.connectors, k, a.connectors[k], u.connectors[k]);
  }

  lemma Closes(plant: Plant, w: World, s: Uid, k: Uid) returns (u: World)
    requires Closing(w, s, k)
    ensures Reaches(plant, w, u) && SameStory(w, u, s, k) && u.told && u.answers == [s, k]
  {
    var a := SourceAnswers(plant, w, s);
    var b := SinkSide(plant, a, k);
    Then(plant, w, a, b);
    assert [] + [s] == [s] && [s] + [k] == [s, k];
    u := FlowTells(plant, b, s, k);
    Then(plant, w, b, u);
  }

  lemma {:induction false} LinkPasses(topo: Topology, nodes: seq<Node>, i: nat, link: nat, x: Item)
    requires i + 1 < |nodes| && LinkWays(topo, nodes, i, link, x) > 0
    ensures Carries(topo, nodes[i], nodes[i + 1], x)
    decreases |Outs(topo, nodes[i])| - link
  {
    if !(Outs(topo, nodes[i])[link] == nodes[i + 1] && Passes(topo, nodes[i], link, x)) {
      LinkPasses(topo, nodes, i, link + 1, x);
    }
  }

  /** An event that takes a path is carried from each task to the next. */
  lemma TakesAllHops(topo: Topology, nodes: seq<Node>, i: nat, x: Item)
    requires i + 1 < |nodes| && Ways(topo, nodes, 0, x) > 0
    ensures Carries(topo, nodes[i], nodes[i + 1], x)
  {
    WaysOn(topo, nodes, i, x);
    LinkPasses(topo, nodes, i, 0, x);
  }

  ghost predicate Carrying(topo: Topology, nodes: seq<Node>, x: Item) {
    forall i :: 0 <= i < |nodes| - 1 ==> Carries(topo, nodes[i], nodes[i + 1], x)
  }

  /** The source sends; the message gets to the sink. */
  lemma GetsThere(plant: Plant, w: World, s: Uid, k: Uid, nodes: seq<Node>, x: Item) returns (u: World)
    requires Trail(plant, s, k, nodes) && Carrying(plant.topo, nodes, x) && (nodes[1], x) in Outbox(w.net, SourceNode(s))
    ensures Reaches(plant, w, u) && Carried(w, u, Members(nodes[1..|nodes| - 1])) && x in Inbox(u.net, SinkNode(k))
  {
    u := Brings(plant, w, s, nodes, |nodes| - 1, x);
  }

  /** The source comes up, an event gets to the sink, and the source may be asked to drain. */
  lemma Opens(plant: Plant, s: Uid, k: Uid, nodes: seq<Node>, event: nat) returns (w: World)
    requires Mirrored(plant) && Trail(plant, s, k, nodes) && Carrying(plant.topo, nodes, Packet(s, Data(event)))
    ensures Reaches(plant, Beginning(s, k), w) && Open(w, s, k) && Packet(s, Data(event)) in Inbox(w.net, SinkNode(k))
  {
    var a := SourceHears(plant, s, k, nodes);
    var b := Speaks(plant, a, s, k, event);
    Then(plant, Beginning(s, k), a, b);
    EmitReaches(plant.topo, a.net, s, Data(event), nodes[1]);
    w := GetsThere(plant, b, s, k, nodes, Packet(s, Data(event)));
    Then(plant, Beginning(s, k), b, w);
    CarriedKeeps(b, w, s, k, Members(nodes[1..|nodes| - 1]));
  }

  lemma SignalAllAlong(plant: Plant, s: Uid, k: Uid, nodes: seq<Node>)
    requires Trail(plant, s, k, nodes)
    ensures Carrying(plant.topo, nodes, Packet(s, DrainSignal))
  {
    forall i | 0 <= i < |nodes| - 1
      ensures Carries(plant.topo, nodes[i], nodes[i + 1], Packet(s, DrainSignal))
    {
      assert nodes[i + 1] in Outs(plant.topo, nodes[(i + 1) - 1]);
      SignalCarried(plant.topo, nodes[i], nodes[i + 1], Packet(s, DrainSignal));
    }
  }

  lemma OffPath(s: Uid, k: Uid, nodes: seq<Node>)
    requires Shape(s, k, nodes)
    ensures SinkNode(k) !in Members(nodes[1..|nodes| - 1])
  {
  }

  /** What is known of the connectors while the source waits for the sink. */
  ghost predicate Requests(w: World, s: Uid, k: Uid) {
    && w.connectors.Keys == {s, k} && w.connectors[s].hasSource && Drains(w.connectors[s], C.Drainage(C.Expected, C.Absent))
    && w.connectors[k].phase == C.Running && w.connectors[k].hasSink && !w.connectors[k].hasSource
       && ConnectorIn(w, k) == [C.Drain]
    && w.flow == F.Flow(F.Draining, 2, [0]) && w.asked == Some({s, k}) && w.results == [] && w.answers == [] && w.finished == {}
  }

  /** Both connectors are asked, and the signal gets to the sink, after the event. */
  lemma SignalGetsThere(plant: Plant, w: World, s: Uid, k: Uid, nodes: seq<Node>, x: Item) returns (u: World)
    requires s != k && Mirrored(plant) && Trail(plant, s, k, nodes) && Open(w, s, k) && x in Inbox(w.net, SinkNode(k))
    ensures Reaches(plant, w, u) && Waiting(u, s, k) && Requests(u, s, k)
    ensures x in Inbox(u.net, SinkNode(k)) && Packet(s, DrainSignal) in Inbox(u.net, SinkNode(k))
  {
    var a := SourceDrains(plant, w, s, k, {s, k});
    SignalAllAlong(plant, s, k, nodes);
    EmitReaches(plant.topo, w.net, s, DrainSignal, nodes[1]);
    u := GetsThere(plant, a, s, k, nodes, Packet(s, DrainSignal));
    Then(plant, w, a, u);
    CarriedKeeps(a, u, s, k, Members(nodes[1..|nodes| - 1]));
    OffPath(s, k, nodes);
    assert Inbox(a.net, SinkNode(k)) == Inbox(w.net, SinkNode(k));
    assert ConnectorIn(u, k) == ConnectorIn(a, k);
  }

  /** What the play shows at the end. */
  ghost predicate Shown(w: World, s: Uid, k: Uid, x: Item) {
    && w.asked == Some({s, k}) && w.finished == {} && s in w.connectors && w.connectors[s].hasSource
    && s in w.sources && w.sources[s].started == {} && k in Heard(w, s) && s in w.settled && k in w.settled[s]
    && x in Log(w.net, k)
  }

  lemma Settles(plant: Plant, w: World, s: Uid, k: Uid, nodes: seq<Node>, x: Item) returns (u: World)
    requires s != k && Mirrored(plant) && Trail(plant, s, k, nodes) && Waiting(w, s, k) && Requests(w, s, k)
    requires x in Inbox(w.net, SinkNode(k)) && Packet(s, DrainSignal) in Inbox(w.net, SinkNode(k))
    ensures Reaches(plant, w, u) && Closing(u, s, k) && Shown(u, s, k, x)
  {
    var a := Acknowledges(plant, w, s, k, nodes);
    u := SinkEmpties(plant, a, s, k);
    Then(plant, w, a, u);
    InOne(Log(w.net, k), Inbox(w.net, SinkNode(k)), x);
  }

  lemma InOne<T>(a: seq<T>, b: seq<T>, x: T)
    requires x in b
    ensures x in a + b
  {
  }

  lemma Ending(w: World, u: World, s: Uid, k: Uid, x: Item)
    requires Shown(w, s, k, x) && SameStory(w, u, s, k)
    ensures Shown(u, s, k, x)
  {
    var i := At(Log(w.net, k), x);
    assert Log(u.net, k)[i] == x;
  }

  lemma Plays(plant: Plant, s: Uid, k: Uid, nodes: seq<Node>, event: nat) returns (a: World, w: World)
    requires s != k && Mirrored(plant) && Trail(plant, s, k, nodes) && Carrying(plant.topo, nodes, Packet(s, Data(event)))
    ensures Reaches(plant, Beginning(s, k), a) && a.asked.None? && k in Heard(a, s) && Reaches(plant, a, w)
    ensures Shown(w, s, k, Packet(s, Data(event))) && w.told && w.answers == [s, k]
  {
    var x := Packet(s, Data(event));
    a := Opens(plant, s, k, nodes, event);
    var b := SignalGetsThere(plant, a, s, k, nodes, x);
    var c := Settles(plant, b, s, k, nodes, x);
    Then(plant, a, b, c);
    w := Closes(plant, c, s, k);
    Then(plant, a, c, w);
    Ending(c, w, s, k, x);
  }

  /**
   Whatever the links are, if there is one way from the source of a connector to the sink of another and
   an event takes it, then there is a run at the end of which the event has been handled, both connectors
   have answered once, and the flow has told that it is drained. The source had heard of the sink before
   the flow was asked.
   */
  lemma DrainCompletes(plant: Plant, s: Uid, k: Uid, nodes: seq<Node>, event: nat) returns (run: Run, m: nat)
    requires s != k && Mirrored(plant) && WellFormed(plant.topo) && OnlyWalk(plant.topo, s, k) && Walk(plant.topo, s, k, nodes)
    requires Ways(plant.topo, nodes, 0, Packet(s, Data(event))) > 0
    ensures IsRun(plant, run) && SolePath(plant.topo, Route(s, k, nodes, ReachOf(plant.topo, s)))
    ensures m < |run.states| && run.states[m].asked.None? && k in Heard(run.states[m], s)
    ensures var w := run.states[|run.states| - 1];
            && w.told && w.asked == Some({s, k}) && F.NoRepeats(w.answers) && w.answers == [s, k]
            && s in w.connectors && w.connectors[s].hasSource && s in w.sources && s !in w.finished
            && k in Heard(w, s) && k !in w.sources[s].started && s in w.settled && k in w.settled[s]
            && Packet(s, Data(event)) in Log(w.net, k)
  {
    OnlyWalkIsSole(plant.topo, s, k, nodes);
    IsTrail(plant, s, k, nodes);
    forall i | 0 <= i < |nodes| - 1
      ensures Carries(plant.topo, nodes[i], nodes[i + 1], Packet(s, Data(event)))
    {
      TakesAllHops(plant.topo, nodes, i, Packet(s, Data(event)));
    }
    var a, w := Plays(plant, s, k, nodes, event);
    BeginsInit(s, k);
    run, m := AsRunThrough(plant, Beginning(s, k), a, w);
  }

  // ----- the flow can be told too early

  /** Connector 0 has no parts, connector 1 has a source. */
  const TWO := World(EMPTY, map[1 := S.Fresh(1, false)], map[], map[], map[],
                     map[0 := C.Fresh(false, false), 1 := C.Fresh(true, false)], map[],
                     F.Flow(F.Initializing, 0, []), [], false, map[], map[], {}, {}, None, [])

  lemma AnswersTwice(plant: Plant, w: World) returns (u: World)
    requires 0 in w.connectors && w.connectors[0] == C.Fresh(false, false) && ConnectorIn(w, 0) == [C.Drain] && w.results == []
    ensures Reaches(plant, w, u) && 0 in u.connectors
    ensures u == w.(connectors := w.connectors[0 := u.connectors[0]], connectorIn := u.connectorIn, sourceIn := u.sourceIn,
                    results := [0, 0])
  {
    var c := C.Fresh(false, false).(phase := C.Draining, drainage := Some(C.Drainage(C.Absent, C.Absent)));
    var mid := ConnectorTook(w, 0);
    AnswersOnce(w);
    ConnectorOnce(plant, w, 0);
    u := TakesOne(plant, mid, 0, C.SourceDrained, c.(drainage := Some(C.Drainage(C.Done, C.Absent))), C.AnswerDrain);
    Then(plant, w, mid, u);
    Twice(w.connectors, 0, c, u.connectors[0]);
    assert [0] + [0] == [0, 0];
  }

  lemma AnswersOnce(w: World)
    requires 0 in w.connectors && w.connectors[0] == C.Fresh(false, false) && ConnectorIn(w, 0) == [C.Drain] && w.results == []
    ensures var c := C.Fresh(false, false).(phase := C.Draining, drainage := Some(C.Drainage(C.Absent, C.Absent)));
            ConnectorTook(w, 0) == w.(connectors := w.connectors[0 := c], connectorIn := w.connectorIn[0 := [C.SourceDrained]],
                                      sourceIn := w.sourceIn[0 := SourceIn(w, 0)], results := [0])
  {
    C.NeitherPartAnswersTwice(C.Initializing, false);
    BothEffects();
    assert [C.Drain][1..] + [C.SourceDrained] == [C.SourceDrained] && SourceIn(w, 0) + [] == SourceIn(w, 0);
    assert [] + [0] == [0];
  }

  lemma BothEffects()
    ensures var es := [C.ToSelf(C.SourceDrained), C.AnswerDrain];
            ToSelf(es) == [C.SourceDrained] && ToSource(es) == [] && ToSink(es) == [] && C.AnswerDrain in es
  {
    var a, b: C.Effect := C.ToSelf(C.SourceDrained), C.AnswerDrain;
    OneEffect(a);
    OneEffect(b);
    ToSelfAppend([a], [b]);
    ToSourceAppend([a], [b]);
    ToSinkAppend([a], [b]);
    assert [a] + [b] == [a, b];
    assert [a, b][1] == b;
  }

  /** A connector without parts answers twice, and the flow tells that it is drained while a source has not reported. */
  lemma ToldTooEarly(plant: Plant) returns (run: Run)
    ensures IsRun(plant, run)
    ensures var w := run.states[|run.states| - 1];
            && w.told && w.answers == [0, 0] && Asked(w, 1) && 1 in w.connectors && w.connectors[1].hasSource
            && 1 in w.sources && 1 !in w.finished && !Reported(w, 1)
  {
    var a := TwoAreAsked(plant);
    var b := AnswersTwice(plant, a);
    Then(plant, TWO, a, b);
    var c := FlowTells(plant, b, 0, 0);
    Then(plant, TWO, b, c);
    run := AsRun(plant, TWO, c);
  }

  lemma TwoAreAsked(plant: Plant) returns (w: World)
    ensures Init(TWO) && Reaches(plant, TWO, w) && ConnectorIn(w, 0) == [C.Drain]
    ensures w == TWO.(flow := F.Flow(F.Draining, 2, [0]), asked := Some({0, 1}), connectorIn := w.connectorIn)
  {
    w := FlowAsked(TWO, {0, 1});
    AskOnce(plant, TWO, {0, 1});
    assert 0 in TWO.connectors;
    AskedIs(TWO, {0, 1});
    AskedTells(TWO, {0, 1}, 0);
  }

  // ----- everything can be up

  /** Source `s` feeds pipeline 0, which feeds sink `k`. */
  function Line(s: Uid, k: Uid): Plant {
    Plant(Topology(map[SourceNode(s) := [PipeNode(0)], PipeNode(0) := [SinkNode(k)]], (n, link, event) => true),
          map[0 := [SourceNode(s)]], map[k := [PipeNode(0)]])
  }

  lemma LineIsSound(s: Uid, k: Uid)
    ensures Mirrored(Line(s, k)) && WellFormed(Line(s, k).topo)
  {
  }

  lemma LineFeeds(s: Uid, k: Uid, q: Uid)
    requires Feeds(Line(s, k).topo, SourceNode(s), q)
    ensures q == k
  {
    var topo := Line(s, k).topo;
    FeedsNext(topo, SourceNode(s), q);
    FeedsNext(topo, PipeNode(0), q);
    FeedsNext(topo, SinkNode(k), q);
  }

  /** The source has heard of the sink, and nothing else has happened since both started. */
  ghost predicate Settled(w: World, s: Uid, k: Uid) {
    && w.asked.None? && w.sources.Keys == {s} && w.sources[s] == Running(s).(started := {k}, numStarted := 1)
       && Heard(w, s) == {k}
    && w.sinks.Keys == {k} && w.sinks[k] == K.Fresh(k).(phase := K.Running)
    && w.connectors.Keys == {s, k} && w.connectors[s].phase == C.Running && w.connectors[k].phase == C.Running
       && NoMail(w.connectorIn)
    && SourceIn(w, s) == [] && OnlyMail(w.sourceIn, {}) && Contraflow(w.contraflow, 0) == [] && w.contraflow.Keys == {0}
    && Playing.From(w.net, s) && w.net.log == map[k := [Control(StartSink)]]
  }

  lemma SettledIsUp(w: World, s: Uid, k: Uid)
    requires Settled(w, s, k)
    ensures P.Up(Line(s, k), w)
  {
    forall q | Feeds(Line(s, k).topo, SourceNode(s), q)
      ensures q in Heard(w, s) && q in w.sinks
    {
      LineFeeds(s, k, q);
    }
    assert P.SourceUp(Line(s, k), w, s);
    assert P.SinkUp(w, k);
  }

  lemma AnnouncementReturns(w: World, s: Uid, k: Uid) returns (u: World)
    requires w.contraflow == map[0 := [SinkStart(k)]] && SourceIn(w, s) == []
    ensures Reaches(Line(s, k), w, u)
    ensures u == w.(contraflow := map[0 := []], sourceIn := w.sourceIn[s := [Cb(SinkStart(k))]])
  {
    u := PipeReturned(w, 0, [SourceNode(s)]);
    ReturnOnce(Line(s, k), w, 0);
    assert Contraflow(w.contraflow, 0) == [SinkStart(k)] && [SinkStart(k)][1..] == [];
    assert w.contraflow[0 := []] == map[0 := []];
    OneSource(map[0 := []], w.sourceIn, s, SinkStart(k));
    assert [] + [Cb(SinkStart(k))] == [Cb(SinkStart(k))];
  }

  lemma OneSource(cf: map<nat, seq<CbAction>>, mail: map<Uid, seq<SourceMsg>>, s: Uid, cb: CbAction)
    ensures ToPipes(cf, [SourceNode(s)], cb) == cf
    ensures ToSources(mail, [SourceNode(s)], cb) == mail[s := Messages(mail, s) + [Cb(cb)]]
  {
    assert [SourceNode(s)][1..] == [];
    assert ToPipes(cf, [], cb) == cf;
  }

  lemma HearsOfSink(w: World, s: Uid, k: Uid) returns (u: World)
    requires s in w.sources && w.sources[s] == Running(s) && SourceIn(w, s) == [Cb(SinkStart(k))] && w.heard == map[]
    ensures Reaches(Line(s, k), w, u)
    ensures u == w.(sources := w.sources[s := Running(s).(started := {k}, numStarted := 1)], sourceIn := w.sourceIn[s := []],
                    heard := map[s := {k}])
  {
    assert {} + {k} == {k} && |{k}| == 1 && [Cb(SinkStart(k))] == [Cb(SinkStart(k))] + [];
    u := TakesQuietly(Line(s, k), w, s, Cb(SinkStart(k)), [], Running(s).(started := {k}, numStarted := 1));
  }

  /** A run after which everything is up. */
  lemma UpIsReached(s: Uid, k: Uid) returns (run: Run)
    requires s != k
    ensures IsRun(Line(s, k), run) && Mirrored(Line(s, k)) && WellFormed(Line(s, k).topo)
    ensures var w := run.states[|run.states| - 1];
            P.Up(Line(s, k), w) && s in w.sources && k in w.sinks && w.sources[s].started == {k}
  {
    var plant, begin := Line(s, k), Beginning(s, k);
    var a := ConnectorsStart(plant, s, k);
    var b := SourceStarts(plant, a, s);
    Then(plant, begin, a, b);
    var c := SinkStarts(plant, b, s, k);
    Then(plant, begin, b, c);
    OneTaker(k);
    var d := AnnouncementReturns(c, s, k);
    Then(plant, begin, c, d);
    var e := HearsOfSink(d, s, k);
    Then(plant, begin, d, e);
    IsSettled(a, e, s, k);
    SettledIsUp(e, s, k);
    LineIsSound(s, k);
    BeginsInit(s, k);
    run := AsRun(plant, begin, e);
  }

  lemma OneTaker(k: Uid)
    ensures ToPipes(map[], [PipeNode(0)], SinkStart(k)) == map[0 := [SinkStart(k)]]
  {
    assert [PipeNode(0)][1..] == [] && [] + [SinkStart(k)] == [SinkStart(k)];
  }

  lemma IsSettled(a: World, e: World, s: Uid, k: Uid)
    requires s != k && Booted(a, s, k)
    requires e == a.(sources := a.sources[s := Running(s)][s := Running(s).(started := {k}, numStarted := 1)],
                     sourceIn := a.sourceIn[s := []][s := [Cb(SinkStart(k))]][s := []],
                     net := Consume(Emit(Line(s, k).topo, a.net, s, StartSignal), k),
                     sinks := a.sinks[k := K.Fresh(k).(phase := K.Running)], contraflow := map[0 := []], heard := map[s := {k}])
    ensures Settled(e, s, k)
  {
    NetStarts(Line(s, k).topo, s, k);
    assert [] + [Control(StartSink)] == [Control(StartSink)];
    assert forall i, m :: m in Messages(e.sourceIn, i) ==> m in Messages(a.sourceIn, i);
  }
}
