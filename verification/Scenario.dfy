/**
 One source and one sink come up, an event is sent, and the source is drained, in any topology with a
 path between them. The scenes of this play are used twice: to show that the hypotheses of the results in
 `Quiescence` can be met, all of them at once, and to show what happens when there are several paths.
 */
module DrainScenario {
  import opened Protocol
  import opened Wrappers
  import opened Network
  import opened Quiescence
  import opened Playing
  import S = SourceTask
  import K = SinkTask
  import C = ConnectorLoop
  import F = FlowLoop

  /** Source connector `s` and sink connector `k`, which may be the same. */
  function Beginning(s: Uid, k: Uid): World {
    World(EMPTY, map[s := S.Fresh(s, false)], map[], map[], map[k := K.Fresh(k)],
          map[s := C.Fresh(true, s == k), k := C.Fresh(s == k, true)], map[],
          F.Flow(F.Initializing, 0, []), [], false, map[], map[], {}, {}, None, [])
  }

  lemma BeginsInit(s: Uid, k: Uid)
    ensures Init(Beginning(s, k))
  {
  }

  // ----- the connectors start

  lemma {:induction false} ToSourceAppend(a: seq<C.Effect>, b: seq<C.Effect>)
    ensures ToSource(a + b) == ToSource(a) + ToSource(b)
  {
    if a == [] {
      assert a + b == b;
    } else {
      ToSourceAppend(a[1..], b);
      assert (a + b)[1..] == a[1..] + b;
    }
  }

  lemma {:induction false} ToSinkAppend(a: seq<C.Effect>, b: seq<C.Effect>)
    ensures ToSink(a + b) == ToSink(a) + ToSink(b)
  {
    if a == [] {
      assert a + b == b;
    } else {
      ToSinkAppend(a[1..], b);
      assert (a + b)[1..] == a[1..] + b;
    }
  }

  lemma {:induction false} ToSelfAppend(a: seq<C.Effect>, b: seq<C.Effect>)
    ensures ToSelf(a + b) == ToSelf(a) + ToSelf(b)
  {
    if a == [] {
      assert a + b == b;
    } else {
      ToSelfAppend(a[1..], b);
      assert (a + b)[1..] == a[1..] + b;
    }
  }

  lemma OneEffect(e: C.Effect)
    ensures ToSource([e]) == if e.ToSource? then [e.source] else []
    ensures ToSink([e]) == if e.ToSink? then [e.sink] else []
    ensures ToSelf([e]) == if e.ToSelf? then [e.msg] else []
  {
    assert [e][1..] == [];
  }

  lemma StartEffects(c: C.Connector)
    requires c.phase == C.Initializing
    ensures var (d, es) := C.OnMsg(c, C.Start(true));
            && d == c.(phase := C.Running, starting := true)
            && ToSource(es) == (if c.hasSource then [StartSource] else [])
            && ToSink(es) == (if c.hasSink then [StartSink] else [])
            && ToSelf(es) == [] && C.AnswerDrain !in es
  {
    var a, b, z := C.SendSource(c, StartSource), C.SendSink(c, StartSink), C.ReconnectNow;
    OneEffect(C.ToSource(StartSource));
    OneEffect(C.ToSink(StartSink));
    OneEffect(z);
    ToSourceAppend(a, b);
    ToSourceAppend(a + b, [z]);
    ToSinkAppend(a, b);
    ToSinkAppend(a + b, [z]);
    ToSelfAppend(a, b);
    ToSelfAppend(a + b, [z]);
  }

  lemma Twice<X, Y>(m: map<X, Y>, x: X, a: Y, b: Y)
    ensures m[x := a][x := b] == m[x := b]
  {
  }

  lemma InjectNothing(net: Net, i: Uid)
    ensures InjectAll(net, i, []) == net && InjectAll(net, i, [StartSink]) == Inject(net, i, StartSink)
  {
    assert [StartSink][1..] == [];
  }

  /** A connector is told to start. */
  lemma Boots(plant: Plant, w: World, i: Uid) returns (u: World)
    requires i in w.connectors && ConnectorIn(w, i) == [] && w.connectors[i].phase == C.Initializing
    ensures Reaches(plant, w, u)
    ensures var c := w.connectors[i];
            u == w.(connectors := w.connectors[i := c.(phase := C.Running, starting := true)],
                    connectorIn := w.connectorIn[i := []],
                    sourceIn := w.sourceIn[i := SourceIn(w, i) + if c.hasSource then [StartSource] else []],
                    net := if c.hasSink then Inject(w.net, i, StartSink) else w.net)
  {
    var mid, msgs := ConnectorTold(w, i, C.Start(true)), [C.Start(true)];
    TellOnce(plant, w, i, C.Start(true));
    assert [] + msgs == msgs && msgs[1..] == [] && [] + [] == msgs[1..];
    Twice(w.connectorIn, i, msgs, []);
    u := ConnectorBoots(plant, mid, i);
    Then(plant, w, mid, u);
  }

  lemma ConnectorBoots(plant: Plant, w: World, i: Uid) returns (u: World)
    requires i in w.connectors && ConnectorIn(w, i) == [C.Start(true)] && w.connectors[i].phase == C.Initializing
    ensures Reaches(plant, w, u)
    ensures var c := w.connectors[i];
            u == w.(connectors := w.connectors[i := c.(phase := C.Running, starting := true)],
                    connectorIn := w.connectorIn[i := []],
                    sourceIn := w.sourceIn[i := SourceIn(w, i) + if c.hasSource then [StartSource] else []],
                    net := if c.hasSink then Inject(w.net, i, StartSink) else w.net)
  {
    assert [C.Start(true)][1..] + [] == [];
    StartEffects(w.connectors[i]);
    InjectNothing(w.net, i);
    u := ConnectorTook(w, i);
    ConnectorOnce(plant, w, i);
  }

  ghost predicate NoMail(inboxes: map<Uid, seq<C.Msg>>) {
    forall i :: i in inboxes ==> inboxes[i] == []
  }

  ghost predicate Booted(w: World, s: Uid, k: Uid) {
    && w == Beginning(s, k).(connectors := w.connectors, connectorIn := w.connectorIn, sourceIn := w.sourceIn,
                             net := Inject(EMPTY, k, StartSink))
    && w.connectors.Keys == {s, k}
    && w.connectors[s] == C.Fresh(true, s == k).(phase := C.Running, starting := true)
    && w.connectors[k] == C.Fresh(s == k, true).(phase := C.Running, starting := true)
    && NoMail(w.connectorIn)
    && SourceIn(w, s) == [StartSource] && OnlyMail(w.sourceIn, {})
  }

  lemma ConnectorsStart(plant: Plant, s: Uid, k: Uid) returns (w: World)
    ensures Reaches(plant, Beginning(s, k), w) && Booted(w, s, k)
  {
    w := Boots(plant, Beginning(s, k), k);
    if s != k {
      var a := w;
      w := Boots(plant, a, s);
      Then(plant, Beginning(s, k), a, w);
    }
  }

  // ----- the source starts

  /** A message without effects changes the source and nothing else. */
  lemma TakesQuietly(plant: Plant, w: World, i: Uid, msg: SourceMsg, more: seq<SourceMsg>, s: S.Source) returns (u: World)
    requires i in w.sources && SourceIn(w, i) == [msg] + more
    requires w.sources[i].phase != S.Stopped && S.OnMsg(w.sources[i], msg) == (s, [])
    ensures Reaches(plant, w, u)
    ensures u == w.(sources := w.sources[i := s], sourceIn := w.sourceIn[i := more],
                    heard := if msg.Cb? && msg.cb.SinkStart? then w.heard[i := Heard(w, i) + {msg.cb.sink}] else w.heard)
  {
    assert SourceIn(w, i)[1..] == more;
    u := SourceTook(plant, w, i);
    SourceOnce(plant, w, i);
  }

  /** A message that makes the source send a signal. */
  lemma TakesWithSignal(plant: Plant, w: World, i: Uid, msg: SourceMsg, more: seq<SourceMsg>, s: S.Source, body: Body)
    returns (u: World)
    requires i in w.sources && SourceIn(w, i) == [msg] + more && !msg.Cb?
    requires w.sources[i].phase != S.Stopped && S.OnMsg(w.sources[i], msg) == (s, [S.SendSignal(body)])
    ensures Reaches(plant, w, u)
    ensures u == w.(sources := w.sources[i := s], sourceIn := w.sourceIn[i := more], net := Emit(plant.topo, w.net, i, body))
  {
    var effects := [S.SendSignal(body)];
    assert SourceIn(w, i)[1..] == more && effects[1..] == [] && Bodies([]) == [] && [body][1..] == [];
    assert Bodies(effects) == [body];
    assert EmitAll(plant.topo, w.net, i, [body]) == Emit(plant.topo, w.net, i, body);
    u := SourceTook(plant, w, i);
    SourceOnce(plant, w, i);
  }

  function After(s: S.Source, msgs: seq<SourceMsg>): S.Source
    decreases |msgs|
  {
    if msgs == [] then s else After(S.OnMsg(s, msgs[0]).0, msgs[1..])
  }

  /** None of the messages has effects. */
  predicate Silent(s: S.Source, msgs: seq<SourceMsg>)
    decreases |msgs|
  {
    msgs == []
    || (s.phase != S.Stopped && S.OnMsg(s, msgs[0]).1 == [] && Silent(S.OnMsg(s, msgs[0]).0, msgs[1..]))
  }

  lemma {:induction false} TakesMany(plant: Plant, w: World, i: Uid, msgs: seq<SourceMsg>, more: seq<SourceMsg>)
    returns (u: World)
    requires i in w.sources && SourceIn(w, i) == msgs + more && Silent(w.sources[i], msgs)
    ensures Reaches(plant, w, u)
    ensures u == w.(sources := w.sources[i := After(w.sources[i], msgs)], sourceIn := u.sourceIn, heard := u.heard)
    ensures u.sourceIn == (if msgs == [] then w.sourceIn else w.sourceIn[i := more]) && SourceIn(u, i) == more
    ensures Heard(w, i) <= Heard(u, i) && forall k :: Cb(SinkStart(k)) in msgs ==> k in Heard(u, i)
    decreases |msgs|
  {
    if msgs == [] {
      u := w;
      Stays(plant, w);
      assert w.sources[i := w.sources[i]] == w.sources;
      assert msgs + more == more;
    } else {
      var s, rest := S.OnMsg(w.sources[i], msgs[0]).0, msgs[1..];
      assert msgs + more == [msgs[0]] + (rest + more);
      var mid := TakesQuietly(plant, w, i, msgs[0], rest + more, s);
      u := TakesMany(plant, mid, i, rest, more);
      Then(plant, w, mid, u);
      Twice(w.sources, i, s, After(s, rest));
      Twice(w.sourceIn, i, rest + more, more);
      assert msgs == [msgs[0]] + rest;
      assert rest == [] ==> rest + more == more;
    }
  }

  function Running(s: Uid): S.Source {
    S.Fresh(s, false).(phase := S.Running, outs := 1, connected := true)
  }

  lemma SourceIsWired(plant: Plant, w: World, s: Uid) returns (u: World)
    requires s in w.sources && SourceIn(w, s) == [StartSource]
    ensures Reaches(plant, w, u)
    ensures u == w.(sourceIn := w.sourceIn[s := [StartSource] + [LinkSource(OutPort), ConnectSource(true)]])
  {
    var one := [StartSource] + [LinkSource(OutPort)];
    var a := SourceWired(w, s, LinkSource(OutPort));
    WireOnce(plant, w, s, LinkSource(OutPort));
    assert SourceIn(a, s) == one;
    u := SourceWired(a, s, ConnectSource(true));
    WireOnce(plant, a, s, ConnectSource(true));
    Then(plant, w, a, u);
    assert one + [ConnectSource(true)] == [StartSource] + [LinkSource(OutPort), ConnectSource(true)];
    Twice(w.sourceIn, s, one, one + [ConnectSource(true)]);
  }

  /** The source is told of its pipeline and to connect, and handles all messages. */
  lemma SourceStarts(plant: Plant, w: World, s: Uid) returns (u: World)
    requires s in w.sources && w.sources[s] == S.Fresh(s, false) && SourceIn(w, s) == [StartSource]
    ensures Reaches(plant, w, u)
    ensures u == w.(sources := w.sources[s := Running(s)], sourceIn := w.sourceIn[s := []],
                    net := Emit(plant.topo, w.net, s, StartSignal))
  {
    var b := SourceIsWired(plant, w, s);
    var c := TakesWithSignal(plant, b, s, StartSource, [LinkSource(OutPort), ConnectSource(true)],
                             S.Fresh(s, false).(phase := S.Running), StartSignal);
    Then(plant, w, b, c);
    u := SourceConnects(plant, c, s);
    Then(plant, w, c, u);
    TwiceHere(w, b, c, s);
  }

  lemma TwiceHere(w: World, b: World, c: World, s: Uid)
    requires b.sourceIn == w.sourceIn[s := SourceIn(b, s)] && c.sourceIn == b.sourceIn[s := SourceIn(c, s)]
    requires c.sources == w.sources[s := S.Fresh(s, false).(phase := S.Running)]
    ensures c.sourceIn[s := []] == w.sourceIn[s := []]
    ensures c.sources[s := Running(s)] == w.sources[s := Running(s)]
  {
  }

  lemma SourceConnects(plant: Plant, w: World, s: Uid) returns (u: World)
    requires s in w.sources && w.sources[s] == S.Fresh(s, false).(phase := S.Running)
    requires SourceIn(w, s) == [LinkSource(OutPort), ConnectSource(true)]
    ensures Reaches(plant, w, u) && u == w.(sources := w.sources[s := Running(s)], sourceIn := w.sourceIn[s := []])
  {
    assert [LinkSource(OutPort), ConnectSource(true)] == [LinkSource(OutPort)] + [ConnectSource(true)];
    var d := TakesQuietly(plant, w, s, LinkSource(OutPort), [ConnectSource(true)], Running(s).(connected := false));
    assert [ConnectSource(true)] == [ConnectSource(true)] + [];
    u := TakesQuietly(plant, d, s, ConnectSource(true), [], Running(s));
    Then(plant, w, d, u);
  }

  // ----- the sink starts and announces itself

  /** A sink that takes a packet of `s`, with a reply that is an error, and no request to answer. */
  lemma SinkSteps(k: K.Sink, s: Uid, body: Body)
    requires !k.channel
    ensures var (k', es) := K.OnItem(k, Packet(s, body), K.Errored, false, false);
            && k'.uid == k.uid && !k'.channel && (k.phase != K.Stopped ==> k'.phase != K.Stopped)
            && k'.starts == (if body.StartSignal? then k.starts + {s} else k.starts)
            && k'.drains == (if body.DrainSignal? then k.drains + {s} else k.drains)
            && (k'.starts <= {s} && s in k'.drains && (k.phase == K.Drained || body.DrainSignal?) ==> k'.phase == K.Drained)
            && es == (if body.DrainSignal? then [K.Insight(DrainedBy(s, k.uid))] else [])
  {
  }

  lemma OneInsight(cb: CbAction)
    ensures SinkInsights([K.Insight(cb)]) == [cb] && SinkInsights([]) == []
  {
    assert [K.Insight(cb)][1..] == [];
  }

  lemma ToPipesOne(cf: map<nat, seq<CbAction>>, takers: seq<Node>, cb: CbAction)
    ensures ToPipesEach(cf, takers, [cb]) == ToPipes(cf, takers, cb)
  {
    assert [cb][1..] == [];
  }

  /** What stays as it is while messages are carried around. */
  ghost predicate Cast(w: World, s: Uid, k: Uid) {
    && w.sources.Keys == {s} && w.sources[s].uid == s && !w.sources[s].isAsync
    && w.sinks.Keys == {k} && w.sinks[k].uid == k && w.sinks[k].phase != K.Stopped && !w.sinks[k].channel
    && w.sinks[k].starts <= {s}
    && w.connectors.Keys == {s, k} && w.connectors[s].hasSource && w.connectors[k].hasSink
    && (s != k ==> !w.connectors[s].hasSink && !w.connectors[k].hasSource)
    && From(w.net, s)
  }

  /** Nobody has asked to drain, and nothing is left to do for the connectors. */
  ghost predicate Idle(w: World, s: Uid, k: Uid) {
    && s in w.connectors && k in w.connectors && w.connectors[s].phase == C.Running && w.connectors[k].phase == C.Running
    && NoMail(w.connectorIn)
    && w.asked.None? && w.flow == F.Flow(F.Initializing, 0, []) && w.results == [] && w.answers == [] && !w.told
    && w.finished == {}
  }

  function Ready(k: Uid): set<CbAction> {
    {SinkStart(k), Restore}
  }

  lemma NetStarts(topo: Topology, s: Uid, k: Uid)
    ensures var net := Emit(topo, Inject(EMPTY, k, StartSink), s, StartSignal);
            && Inbox(net, SinkNode(k)) == [Control(StartSink)]
            && From(Consume(net, k), s)
            && Sent(Consume(net, k), s) == [Packet(s, StartSignal)]
  {
    var net := Emit(topo, Inject(EMPTY, k, StartSink), s, StartSignal);
    var x := Packet(s, StartSignal);
    assert [Control(StartSink)][1..] == [];
    assert forall n :: Inbox(Consume(net, k), n) == [];
    forall n, e | e in Outbox(Consume(net, k), n)
      ensures e.1 == x
    {
      assert e in Copies(topo, SourceNode(s), 0, x);
      CopiesTargets(topo, SourceNode(s), 0, x, e);
    }
  }

  ghost predicate Announced(plant: Plant, w: World, s: Uid, k: Uid) {
    && Cast(w, s, k) && Idle(w, s, k) && w.sources[s] == Running(s) && SourceIn(w, s) == []
    && Sent(w.net, s) == [Packet(s, StartSignal)]
    && Only(w, Ready(k))
    && forall p :: PipeNode(p) in Pipes(plant, k) ==> SinkStart(k) in Contraflow(w.contraflow, p)
  }

  lemma SinkStarts(plant: Plant, w: World, s: Uid, k: Uid) returns (u: World)
    requires k in w.sinks && w.sinks[k] == K.Fresh(k)
    requires w.net == Emit(plant.topo, Inject(EMPTY, k, StartSink), s, StartSignal)
    ensures Reaches(plant, w, u)
    ensures u == w.(sinks := w.sinks[k := K.Fresh(k).(phase := K.Running)], net := Consume(w.net, k),
                    contraflow := ToPipes(w.contraflow, Pipes(plant, k), SinkStart(k)))
  {
    NetStarts(plant.topo, s, k);
    OneInsight(SinkStart(k));
    ToPipesOne(w.contraflow, Pipes(plant, k), SinkStart(k));
    u := SinkTook(plant, w, k, K.Errored, false, false);
    SinkOnce(plant, w, k);
  }

  lemma SinkAnnounces(plant: Plant, s: Uid, k: Uid) returns (w: World)
    ensures Reaches(plant, Beginning(s, k), w) && Announced(plant, w, s, k)
  {
    var a := ConnectorsStart(plant, s, k);
    var b := SourceStarts(plant, a, s);
    Then(plant, Beginning(s, k), a, b);
    w := SinkStarts(plant, b, s, k);
    Then(plant, Beginning(s, k), b, w);
    IsAnnounced(plant, a, w, s, k);
  }

  lemma IsAnnounced(plant: Plant, a: World, w: World, s: Uid, k: Uid)
    requires Booted(a, s, k)
    requires w == a.(sources := a.sources[s := Running(s)], sourceIn := a.sourceIn[s := []],
                     net := Consume(Emit(plant.topo, a.net, s, StartSignal), k),
                     sinks := a.sinks[k := K.Fresh(k).(phase := K.Running)],
                     contraflow := ToPipes(a.contraflow, Pipes(plant, k), SinkStart(k)))
    ensures Announced(plant, w, s, k)
  {
    NetStarts(plant.topo, s, k);
    ToPipesHas(map[], Pipes(plant, k), SinkStart(k));
    assert forall i, m :: m in Messages(w.sourceIn, i) ==> m in Messages(a.sourceIn, i);
  }

  // ----- the source hears of the sink

  /** A source that may be listening to sink `k`, and to no other. */
  predicate Alive(s: S.Source, k: Uid) {
    s.phase == S.Running && s.outs > 0 && s.connected && s.started <= {k} && s.numStarted <= 1 && !s.channel
  }

  lemma SubsetOfOne(a: set<Uid>, k: Uid)
    requires a <= {k}
    ensures |a| <= 1 && (k in a ==> a == {k})
  {
    if k in a {
      assert a == {k};
    } else {
      assert a == {};
    }
  }

  lemma AliveStep(s: S.Source, k: Uid, cb: CbAction)
    requires Alive(s, k) && cb in Ready(k)
    ensures S.OnMsg(s, Cb(cb)).1 == []
    ensures var t := S.OnMsg(s, Cb(cb)).0;
            && Alive(t, k) && t.uid == s.uid && t.isAsync == s.isAsync
            && (k in s.started || cb == SinkStart(k) ==> k in t.started)
            && (s.restores > 0 || cb == Restore ==> t.restores > 0)
  {
    SubsetOfOne(s.started + {k}, k);
  }

  /** `t` is `s` after contraflow, among which were an announcement or restores. */
  ghost predicate Listened(s: S.Source, t: S.Source, k: Uid, msgs: seq<SourceMsg>) {
    && Alive(t, k) && t.uid == s.uid && t.isAsync == s.isAsync
    && (k in s.started || Cb(SinkStart(k)) in msgs ==> k in t.started)
    && (s.restores > 0 || Cb(Restore) in msgs ==> t.restores > 0)
  }

  lemma {:induction false} AliveAfter(s: S.Source, k: Uid, msgs: seq<SourceMsg>)
    requires Alive(s, k) && forall m :: m in msgs ==> m.Cb? && m.cb in Ready(k)
    ensures Silent(s, msgs) && Listened(s, After(s, msgs), k, msgs)
    decreases |msgs|
  {
    if msgs != [] {
      assert msgs == [msgs[0]] + msgs[1..];
      AliveStep(s, k, msgs[0].cb);
      AliveAfter(S.OnMsg(s, msgs[0]).0, k, msgs[1..]);
    }
  }

  /** The source handles all messages in its inbox, which are announcements and restores. */
  lemma Listens(plant: Plant, w: World, s: Uid, k: Uid) returns (u: World)
    requires s in w.sources && Alive(w.sources[s], k) && SourceIn(w, s) != []
    requires forall m :: m in SourceIn(w, s) ==> m.Cb? && m.cb in Ready(k)
    ensures Reaches(plant, w, u) && s in u.sources
    ensures u == w.(sources := w.sources[s := u.sources[s]], sourceIn := w.sourceIn[s := []], heard := u.heard)
    ensures Listened(w.sources[s], u.sources[s], k, SourceIn(w, s))
    ensures k in Heard(w, s) || Cb(SinkStart(k)) in SourceIn(w, s) ==> k in Heard(u, s)
  {
    AliveAfter(w.sources[s], k, SourceIn(w, s));
    assert SourceIn(w, s) + [] == SourceIn(w, s);
    u := TakesMany(plant, w, s, SourceIn(w, s), []);
  }

  /** The source runs, listens to the sink, and may pull. */
  ghost predicate Open(w: World, s: Uid, k: Uid) {
    && Cast(w, s, k) && Idle(w, s, k)
    && Alive(w.sources[s], k) && w.sources[s].started == {k} && w.sources[s].restores > 0
    && k in Heard(w, s) && SourceIn(w, s) == [] && Only(w, Ready(k))
  }

  /** A path from `s` to `k` on which no task occurs twice. */
  ghost predicate Trail(plant: Plant, s: Uid, k: Uid, nodes: seq<Node>) {
    && Shape(s, k, nodes) && |nodes| >= 3 && Distinct(nodes)
    && (forall i :: 0 < i < |nodes| ==> nodes[i] in Outs(plant.topo, nodes[i - 1]))
  }

  lemma GoesHome(plant: Plant, w: World, s: Uid, k: Uid, nodes: seq<Node>, cb: CbAction, cbs: set<CbAction>) returns (u: World)
    requires Mirrored(plant) && Trail(plant, s, k, nodes) && Only(w, cbs)
    requires forall p :: PipeNode(p) in Pipes(plant, k) ==> cb in Contraflow(w.contraflow, p)
    ensures Reaches(plant, w, u) && Only(u, cbs) && Cb(cb) in SourceIn(u, s)
    ensures u == w.(contraflow := u.contraflow, sourceIn := u.sourceIn)
    ensures Playing.Adds(SourceIn(w, s), SourceIn(u, s))
  {
    var last := |nodes| - 1;
    assert nodes[last] in Outs(plant.topo, nodes[last - 1]);
    assert nodes[last - 1] in Pipes(plant, k);
    u := GoesBack(plant, w, nodes, last - 1, cb, cbs);
  }

  /** Contraflow gets back, and the source takes note. */
  lemma Notes(plant: Plant, w: World, s: Uid, k: Uid, nodes: seq<Node>, cb: CbAction) returns (u: World)
    requires Mirrored(plant) && Trail(plant, s, k, nodes) && Only(w, Ready(k)) && cb in Ready(k)
    requires s in w.sources && Alive(w.sources[s], k) && SourceIn(w, s) == []
    requires forall p :: PipeNode(p) in Pipes(plant, k) ==> cb in Contraflow(w.contraflow, p)
    ensures Reaches(plant, w, u) && Only(u, Ready(k)) && SourceIn(u, s) == []
    ensures u == w.(contraflow := u.contraflow, sourceIn := u.sourceIn, sources := u.sources, heard := u.heard)
    ensures u.sources.Keys == w.sources.Keys && Listened(w.sources[s], u.sources[s], k, [Cb(cb)])
    ensures k in Heard(w, s) || cb == SinkStart(k) ==> k in Heard(u, s)
  {
    var b := GoesHome(plant, w, s, k, nodes, cb, Ready(k));
    assert Playing.Adds(SourceIn(w, s), SourceIn(b, s));
    u := Listens(plant, b, s, k);
    Then(plant, w, b, u);
    assert OnlyMail(u.sourceIn, Ready(k)) by {
      assert forall i, m :: m in Messages(u.sourceIn, i) ==> m in Messages(b.sourceIn, i);
    }
  }

  /** The sink is there for the source. */
  lemma SourceHears(plant: Plant, s: Uid, k: Uid, nodes: seq<Node>) returns (w: World)
    requires Mirrored(plant) && Trail(plant, s, k, nodes)
    ensures Reaches(plant, Beginning(s, k), w) && Open(w, s, k) && Sent(w.net, s) == [Packet(s, StartSignal)]
  {
    var a := SinkAnnounces(plant, s, k);
    var b := Notes(plant, a, s, k, nodes, SinkStart(k));
    Then(plant, Beginning(s, k), a, b);
    var c := b.(contraflow := ToPipes(b.contraflow, Pipes(plant, k), Restore));
    ReplyOnce(plant, b, k, Restore);
    Then(plant, Beginning(s, k), b, c);
    ToPipesHas(b.contraflow, Pipes(plant, k), Restore);
    assert Only(c, Ready(k));
    w := Notes(plant, c, s, k, nodes, Restore);
    Then(plant, Beginning(s, k), c, w);
    SubsetOfOne(w.sources[s].started, k);
    IsOpen(a, w, s, k);
  }

  lemma IsOpen(a: World, w: World, s: Uid, k: Uid)
    requires Cast(a, s, k) && Idle(a, s, k)
    requires w == a.(contraflow := w.contraflow, sourceIn := w.sourceIn, sources := w.sources, heard := w.heard)
    requires w.sources.Keys == {s} && w.sources[s].uid == s && !w.sources[s].isAsync
    requires Alive(w.sources[s], k) && w.sources[s].started == {k} && w.sources[s].restores > 0
    requires k in Heard(w, s) && SourceIn(w, s) == [] && Only(w, Ready(k))
    ensures Open(w, s, k)
  {
  }

  // ----- the source sends an event, and is asked to drain

  lemma EmitFrom(topo: Topology, net: Net, s: Uid, body: Body)
    requires From(net, s)
    ensures From(Emit(topo, net, s, body), s)
  {
    var net', n := Emit(topo, net, s, body), SourceNode(s);
    CopiesFrom(topo, net, n, Packet(s, body), s);
    var mid := net.(out := net'.out);
    assert forall m :: Inbox(net', m) == Inbox(mid, m) && Outbox(net', m) == Outbox(mid, m);
  }

  lemma PullsOne(s: S.Source, event: nat)
    requires s.phase == S.Running && s.connected && s.outs > 0
    ensures S.OnReply(s, S.Received(None, true, [(OutPort, event)])) == (s, [S.RouteEvent(OutPort, event)])
    ensures Bodies([S.RouteEvent(OutPort, event)]) == [Data(event)]
  {
    var events, effects := [(OutPort, event)], [S.RouteEvent(OutPort, event)];
    assert events[1..] == [] && S.Routed([]) == [] && S.Routed(events) == effects;
    assert effects[1..] == [] && Bodies([]) == [];
  }

  lemma PulledOne(plant: Plant, w: World, s: Uid, event: nat)
    requires s in w.sources && w.sources[s].phase == S.Running && w.sources[s].connected && w.sources[s].outs > 0
    ensures SourcePulled(plant, w, s, S.Received(None, true, [(OutPort, event)]))
         == w.(net := Emit(plant.topo, w.net, s, Data(event)))
  {
    PullsOne(w.sources[s], event);
    assert w.sources[s := w.sources[s]] == w.sources;
    assert [Data(event)][1..] == [];
    assert EmitAll(plant.topo, w.net, s, [Data(event)]) == Emit(plant.topo, w.net, s, Data(event));
  }

  lemma Speaks(plant: Plant, w: World, s: Uid, k: Uid, event: nat) returns (u: World)
    requires Open(w, s, k)
    ensures Reaches(plant, w, u) && u == w.(net := Emit(plant.topo, w.net, s, Data(event))) && Open(u, s, k)
  {
    var reply := S.Received(None, true, [(OutPort, event)]);
    u := SourcePulled(plant, w, s, reply);
    PulledOne(plant, w, s, event);
    PullOnce(plant, w, s, reply);
    EmitFrom(plant.topo, w.net, s, Data(event));
  }

  /** Connector `c` has been asked to drain. */
  function Requested(c: C.Connector): C.Connector {
    c.(phase := C.Draining, drainage := Some(C.NewDrainage(c)))
  }

  lemma DrainEffects(c: C.Connector)
    requires c.phase == C.Running && (c.hasSource || c.hasSink)
    ensures var (d, es) := C.OnMsg(c, C.Drain);
            && d == Requested(c) && C.AnswerDrain !in es && ToSink(es) == []
            && ToSource(es) == (if c.hasSource then [DrainSource] else [])
            && ToSelf(es) == (if c.hasSource then [] else [C.SourceDrained])
  {
    var e := if c.hasSource then C.ToSource(DrainSource) else C.ToSelf(C.SourceDrained);
    assert [e] + [] == [e];
    OneEffect(e);
  }

  lemma FlowDrains(n: nat)
    ensures F.OnDrain(F.Flow(F.Initializing, 0, []), 0, true, n) == (F.Flow(F.Draining, n, [0]), [])
  {
    assert [] + [0] == [0];
  }

  lemma AskedIs(w: World, alive: set<Uid>)
    requires w.connectors != map[] && w.flow == F.Flow(F.Initializing, 0, []) && w.answers == []
    ensures var u := FlowAsked(w, alive);
            u == w.(flow := F.Flow(F.Draining, |alive|, [0]), asked := Some(alive), connectorIn := u.connectorIn)
  {
    FlowDrains(|alive|);
  }

  lemma AskedTells(w: World, alive: set<Uid>, i: Uid)
    requires NoMail(w.connectorIn)
    ensures ConnectorIn(FlowAsked(w, alive), i) == if i in alive then [C.Drain] else []
  {
    assert ConnectorIn(w, i) == [] && [] + [C.Drain] == [C.Drain];
  }

  lemma FlowAsks(plant: Plant, w: World, s: Uid, k: Uid, alive: set<Uid>) returns (u: World)
    requires Idle(w, s, k) && w.connectors.Keys == {s, k} && s in alive && alive <= {s, k}
    ensures Reaches(plant, w, u)
    ensures u == w.(flow := F.Flow(F.Draining, |alive|, [0]), asked := Some(alive), connectorIn := u.connectorIn)
    ensures ConnectorIn(u, s) == [C.Drain] && (k != s ==> ConnectorIn(u, k) == if k in alive then [C.Drain] else [])
  {
    u := FlowAsked(w, alive);
    AskOnce(plant, w, alive);
    assert w.connectors != map[];
    AskedIs(w, alive);
    AskedTells(w, alive, s);
    AskedTells(w, alive, k);
  }

  lemma ConnectorAsks(plant: Plant, w: World, i: Uid) returns (u: World)
    requires i in w.connectors && w.connectors[i].phase == C.Running && ConnectorIn(w, i) == [C.Drain]
    requires w.connectors[i].hasSource
    ensures Reaches(plant, w, u)
    ensures u == w.(connectors := w.connectors[i := Requested(w.connectors[i])], connectorIn := w.connectorIn[i := []],
                    sourceIn := w.sourceIn[i := SourceIn(w, i) + [DrainSource]])
  {
    DrainEffects(w.connectors[i]);
    InjectNothing(w.net, i);
    assert [C.Drain][1..] + [] == [];
    u := ConnectorTook(w, i);
    ConnectorOnce(plant, w, i);
  }

  /** The source has sent its drain signal and waits for the sink. */
  ghost predicate Waiting(w: World, s: Uid, k: Uid) {
    && Cast(w, s, k) && Awaits(w.sources[s], k) && k in Heard(w, s) && SourceIn(w, s) == [] && ConnectorIn(w, s) == []
    && Only(w, Ready(k))
  }

  predicate Awaits(s: S.Source, k: Uid) {
    s.phase != S.Stopped && s.phase != S.Initialized && s.started == {k} && s.channel
  }

  lemma SourceDrains(plant: Plant, w: World, s: Uid, k: Uid, alive: set<Uid>) returns (u: World)
    requires Open(w, s, k) && s in alive && alive <= {s, k}
    ensures Reaches(plant, w, u) && Waiting(u, s, k)
    ensures u == w.(flow := F.Flow(F.Draining, |alive|, [0]), asked := Some(alive),
                    connectors := w.connectors[s := Requested(w.connectors[s])], connectorIn := u.connectorIn,
                    sources := u.sources, sourceIn := u.sourceIn, net := Emit(plant.topo, w.net, s, DrainSignal))
    ensures k != s ==> ConnectorIn(u, k) == if k in alive then [C.Drain] else []
  {
    var a := FlowAsks(plant, w, s, k, alive);
    var b := ConnectorAsks(plant, a, s);
    Then(plant, w, a, b);
    assert [] + [DrainSource] == [DrainSource] + [];
    var src := w.sources[s].(phase := S.Drained, channel := true);
    u := TakesWithSignal(plant, b, s, DrainSource, [], src, DrainSignal);
    Then(plant, w, b, u);
    IsWaiting(plant, w, u, s, k, src);
  }

  lemma IsWaiting(plant: Plant, w: World, u: World, s: Uid, k: Uid, src: S.Source)
    requires Open(w, s, k) && src == w.sources[s].(phase := S.Drained, channel := true)
    requires u.connectors == w.connectors[s := Requested(w.connectors[s])] && ConnectorIn(u, s) == []
    requires u.sinks == w.sinks && u.heard == w.heard && u.contraflow == w.contraflow
    requires u.sources == w.sources[s := src]
    requires u.sourceIn == w.sourceIn[s := SourceIn(w, s) + [DrainSource]][s := []]
    requires u.net == Emit(plant.topo, w.net, s, DrainSignal)
    ensures Waiting(u, s, k)
  {
    EmitFrom(plant.topo, w.net, s, DrainSignal);
    assert forall i, m :: m in Messages(u.sourceIn, i) ==> m in Messages(w.sourceIn, i);
    assert u.connectors.Keys == {s, k};
  }

  // ----- the sink handles the drain signal

  lemma ConsumeFrom(net: Net, k: Uid, s: Uid)
    requires Inbox(net, SinkNode(k)) != [] && From(net, s)
    ensures From(Consume(net, k), s)
  {
    assert forall n, x :: x in Inbox(Consume(net, k), n) ==> x in Inbox(net, n);
    assert forall n :: Outbox(Consume(net, k), n) == Outbox(net, n);
  }

  ghost predicate AtHome(plant: Plant, w: World, k: Uid, cb: CbAction) {
    forall p :: PipeNode(p) in Pipes(plant, k) ==> cb in Contraflow(w.contraflow, p)
  }

  /** What a sink makes of a packet of `s`. */
  function Sunk(k: K.Sink, s: Uid, body: Body): K.Sink {
    K.OnItem(k, Packet(s, body), K.Errored, false, false).0
  }

  lemma SinkTakesPacket(plant: Plant, w: World, s: Uid, k: Uid, body: Body) returns (u: World)
    requires k in w.sinks && w.sinks[k].phase != K.Stopped && !w.sinks[k].channel && w.sinks[k].uid == k
    requires Inbox(w.net, SinkNode(k)) != [] && Inbox(w.net, SinkNode(k))[0] == Packet(s, body)
    ensures Reaches(plant, w, u)
    ensures u == w.(sinks := w.sinks[k := Sunk(w.sinks[k], s, body)], net := Consume(w.net, k),
                    contraflow := if body.DrainSignal? then ToPipes(w.contraflow, Pipes(plant, k), DrainedBy(s, k))
                      else w.contraflow)
  {
    SinkSteps(w.sinks[k], s, body);
    OneInsight(DrainedBy(s, k));
    ToPipesOne(w.contraflow, Pipes(plant, k), DrainedBy(s, k));
    u := SinkTook(plant, w, k, K.Errored, false, false);
    SinkOnce(plant, w, k);
  }

  lemma SinkTakesOne(plant: Plant, w: World, s: Uid, k: Uid, cbs: set<CbAction>) returns (u: World)
    requires Cast(w, s, k) && Inbox(w.net, SinkNode(k)) != [] && Only(w, cbs) && DrainedBy(s, k) in cbs
    ensures Reaches(plant, w, u) && Cast(u, s, k) && Only(u, cbs)
    ensures u == w.(sinks := u.sinks, net := Consume(w.net, k), contraflow := u.contraflow)
    ensures Inbox(w.net, SinkNode(k))[0] == Packet(s, DrainSignal) ==>
              u.sinks[k].phase == K.Drained && s in u.sinks[k].drains && AtHome(plant, u, k, DrainedBy(s, k))
  {
    var x := Inbox(w.net, SinkNode(k))[0];
    assert x in Inbox(w.net, SinkNode(k));
    u := SinkTakesPacket(plant, w, s, k, x.body);
    SinkSteps(w.sinks[k], s, x.body);
    ToPipesHas(w.contraflow, Pipes(plant, k), DrainedBy(s, k));
    ConsumeFrom(w.net, k, s);
  }

  /** The net after sink `k` has taken `n` messages. */
  function Consumed(net: Net, k: Uid, n: nat): Net
    requires n <= |Inbox(net, SinkNode(k))|
    decreases n
  {
    if n == 0 then net else Consumed(Consume(net, k), k, n - 1)
  }

  lemma {:induction false} ConsumedIs(net: Net, k: Uid, n: nat)
    requires n <= |Inbox(net, SinkNode(k))|
    ensures var u, inbox := Consumed(net, k, n), Inbox(net, SinkNode(k));
            && u.out == net.out && u.sent == net.sent
            && (forall m :: m != SinkNode(k) ==> Inbox(u, m) == Inbox(net, m))
            && Inbox(u, SinkNode(k)) == inbox[n..] && Log(u, k) == Log(net, k) + inbox[..n]
    decreases n
  {
    if n > 0 {
      var mid, inbox := Consume(net, k), Inbox(net, SinkNode(k));
      ConsumedIs(mid, k, n - 1);
      assert inbox[1..][n - 1..] == inbox[n..];
      assert [inbox[0]] + inbox[1..][..n - 1] == inbox[..n];
    }
  }

  /** The sink handles its messages up to the drain signal, which is number `n`. */
  lemma {:induction false} SinkDrains(plant: Plant, w: World, s: Uid, k: Uid, n: nat, cbs: set<CbAction>) returns (u: World)
    requires Cast(w, s, k) && n < |Inbox(w.net, SinkNode(k))| && Inbox(w.net, SinkNode(k))[n] == Packet(s, DrainSignal)
    requires Only(w, cbs) && DrainedBy(s, k) in cbs
    ensures Reaches(plant, w, u) && Cast(u, s, k) && Only(u, cbs)
    ensures u == w.(sinks := u.sinks, net := Consumed(w.net, k, n + 1), contraflow := u.contraflow)
    ensures u.sinks[k].phase == K.Drained && s in u.sinks[k].drains && AtHome(plant, u, k, DrainedBy(s, k))
    decreases n
  {
    var mid := SinkTakesOne(plant, w, s, k, cbs);
    if n == 0 {
      u := mid;
      assert Consumed(mid.net, k, 0) == mid.net;
    } else {
      u := SinkDrains(plant, mid, s, k, n - 1, cbs);
      Then(plant, w, mid, u);
    }
  }

  // ----- the source hears that the sink is drained

  lemma AwaitsStep(s: S.Source, k: Uid, cb: CbAction)
    requires Awaits(s, k) && cb in Ready(k)
    ensures S.OnMsg(s, Cb(cb)).1 == []
    ensures var t := S.OnMsg(s, Cb(cb)).0; Awaits(t, k) && t.uid == s.uid && t.isAsync == s.isAsync
  {
  }

  lemma ReportsOnce(s: S.Source, k: Uid)
    requires Awaits(s, k)
    ensures S.OnMsg(s, Cb(DrainedBy(s.uid, k))) == (s.(started := {}), [S.ReportDrained]) && Bodies([S.ReportDrained]) == []
  {
    assert {k} - {k} == {};
    assert [S.ReportDrained][1..] == [] && Bodies([]) == [];
  }

  lemma ReportedIs(plant: Plant, w: World, s: Uid, k: Uid, more: seq<SourceMsg>)
    requires s in w.sources && Awaits(w.sources[s], k) && w.sources[s].uid == s
    requires SourceIn(w, s) == [Cb(DrainedBy(s, k))] + more
    ensures SourceTook(plant, w, s)
         == w.(sources := w.sources[s := w.sources[s].(started := {})], sourceIn := w.sourceIn[s := more],
               connectorIn := w.connectorIn[s := ConnectorIn(w, s) + [C.SourceDrained]],
               settled := w.settled[s := Heard(w, s)])
  {
    ReportsOnce(w.sources[s], k);
    assert SourceIn(w, s)[1..] == more;
  }

  lemma SourceReports(plant: Plant, w: World, s: Uid, k: Uid, more: seq<SourceMsg>) returns (u: World)
    requires s in w.sources && Awaits(w.sources[s], k) && w.sources[s].uid == s
    requires SourceIn(w, s) == [Cb(DrainedBy(s, k))] + more
    ensures Reaches(plant, w, u)
    ensures u == w.(sources := w.sources[s := w.sources[s].(started := {})], sourceIn := w.sourceIn[s := more],
                    connectorIn := w.connectorIn[s := ConnectorIn(w, s) + [C.SourceDrained]],
                    settled := w.settled[s := Heard(w, s)])
  {
    u := SourceTook(plant, w, s);
    ReportedIs(plant, w, s, k, more);
    SourceOnce(plant, w, s);
  }

  lemma {:induction false} AwaitsAfter(s: S.Source, k: Uid, msgs: seq<SourceMsg>)
    requires Awaits(s, k) && forall m :: m in msgs ==> m.Cb? && m.cb in Ready(k)
    ensures Silent(s, msgs) && Awaits(After(s, msgs), k) && After(s, msgs).uid == s.uid
    decreases |msgs|
  {
    if msgs != [] {
      assert msgs == [msgs[0]] + msgs[1..];
      AwaitsStep(s, k, msgs[0].cb);
      AwaitsAfter(S.OnMsg(s, msgs[0]).0, k, msgs[1..]);
    }
  }

  /** The source handles its messages up to the first acknowledgement. */
  lemma HearsOut(plant: Plant, w: World, s: Uid, k: Uid) returns (u: World)
    requires s in w.sources && Awaits(w.sources[s], k) && w.sources[s].uid == s
    requires forall m :: m in SourceIn(w, s) ==> m.Cb? && m.cb in Ready(k) + {DrainedBy(s, k)}
    requires Cb(DrainedBy(s, k)) in SourceIn(w, s)
    ensures Reaches(plant, w, u)
    ensures u == w.(sources := u.sources, sourceIn := u.sourceIn, heard := u.heard, settled := u.settled,
                    connectorIn := w.connectorIn[s := ConnectorIn(w, s) + [C.SourceDrained]])
    ensures s in u.sources && u.sources[s].started == {}
    ensures Heard(w, s) <= Heard(u, s) && s in u.settled && u.settled[s] == Heard(u, s)
  {
    var before, after := UpToAck(w.sources[s], s, k, SourceIn(w, s));
    var mid := TakesMany(plant, w, s, before, [Cb(DrainedBy(s, k))] + after);
    u := SourceReports(plant, mid, s, k, after);
    Then(plant, w, mid, u);
  }

  lemma UpToAck(src: S.Source, s: Uid, k: Uid, inbox: seq<SourceMsg>) returns (before: seq<SourceMsg>, after: seq<SourceMsg>)
    requires Awaits(src, k) && src.uid == s
    requires forall m :: m in inbox ==> m.Cb? && m.cb in Ready(k) + {DrainedBy(s, k)}
    requires Cb(DrainedBy(s, k)) in inbox
    ensures inbox == before + ([Cb(DrainedBy(s, k))] + after)
    ensures Silent(src, before) && Awaits(After(src, before), k) && After(src, before).uid == s
  {
    var i := First(inbox, Cb(DrainedBy(s, k)));
    before, after := inbox[..i], inbox[i + 1..];
    assert inbox == before + ([inbox[i]] + after);
    forall m | m in before
      ensures m.Cb? && m.cb in Ready(k)
    {
      assert m in inbox && m != Cb(DrainedBy(s, k));
    }
    AwaitsAfter(src, k, before);
  }

  /** Sink `k` has handled some of its messages, and nothing else happened in the net. */
  ghost predicate Handled(net: Net, later: Net, k: Uid) {
    && later.sent == net.sent && (forall n :: n != SinkNode(k) ==> Inbox(later, n) == Inbox(net, n))
    && Log(later, k) + Inbox(later, SinkNode(k)) == Log(net, k) + Inbox(net, SinkNode(k))
  }

  lemma ConsumedHandled(net: Net, k: Uid, n: nat)
    requires n <= |Inbox(net, SinkNode(k))|
    ensures Handled(net, Consumed(net, k, n), k)
  {
    ConsumedIs(net, k, n);
    Rejoin(Log(net, k), Inbox(net, SinkNode(k)), n);
  }

  /** The sink handles its messages up to the drain signal. */
  lemma SinkHandles(plant: Plant, w: World, s: Uid, k: Uid) returns (u: World)
    requires Cast(w, s, k) && Only(w, Ready(k)) && Packet(s, DrainSignal) in Inbox(w.net, SinkNode(k))
    ensures Reaches(plant, w, u) && Only(u, Ready(k) + {DrainedBy(s, k)}) && AtHome(plant, u, k, DrainedBy(s, k))
    ensures u == w.(sinks := u.sinks, net := u.net, contraflow := u.contraflow) && Handled(w.net, u.net, k) && From(u.net, s)
    ensures u.sinks.Keys == {k} && Drained(u.sinks[k], s, k)
  {
    var n := At(Inbox(w.net, SinkNode(k)), Packet(s, DrainSignal));
    u := SinkDrains(plant, w, s, k, n, Ready(k) + {DrainedBy(s, k)});
    ConsumedHandled(w.net, k, n + 1);
  }

  /**
   Once the drain signal is in the inbox of the sink, the sink can handle it and the source can hear of
   it, while everything else stays where it is.
   */
  lemma Acknowledges(plant: Plant, w: World, s: Uid, k: Uid, nodes: seq<Node>) returns (u: World)
    requires Mirrored(plant) && Trail(plant, s, k, nodes) && Waiting(w, s, k)
    requires Packet(s, DrainSignal) in Inbox(w.net, SinkNode(k))
    ensures Reaches(plant, w, u)
    ensures u == w.(sinks := u.sinks, net := u.net, contraflow := u.contraflow, sources := u.sources, sourceIn := u.sourceIn,
                    heard := u.heard, settled := u.settled, connectorIn := w.connectorIn[s := [C.SourceDrained]])
    ensures s in u.sources && u.sources[s].started == {} && k in Heard(u, s) && s in u.settled && k in u.settled[s]
    ensures Handled(w.net, u.net, k) && From(u.net, s)
    ensures u.sinks.Keys == {k} && Drained(u.sinks[k], s, k)
  {
    var a := SinkHandles(plant, w, s, k);
    u := ReportsHome(plant, a, s, k, nodes);
    Then(plant, w, a, u);
    assert [] + [C.SourceDrained] == [C.SourceDrained];
  }

  lemma Rejoin<T>(a: seq<T>, b: seq<T>, n: nat)
    requires n <= |b|
    ensures (a + b[..n]) + b[n..] == a + b
  {
  }

  lemma ReportsHome(plant: Plant, w: World, s: Uid, k: Uid, nodes: seq<Node>) returns (u: World)
    requires Mirrored(plant) && Trail(plant, s, k, nodes) && AtHome(plant, w, k, DrainedBy(s, k))
    requires s in w.sources && Awaits(w.sources[s], k) && w.sources[s].uid == s && SourceIn(w, s) == []
    requires Only(w, Ready(k) + {DrainedBy(s, k)})
    ensures Reaches(plant, w, u)
    ensures u == w.(contraflow := u.contraflow, sources := u.sources, sourceIn := u.sourceIn, heard := u.heard,
                    settled := u.settled,
                    connectorIn := w.connectorIn[s := ConnectorIn(w, s) + [C.SourceDrained]])
    ensures s in u.sources && u.sources[s].started == {}
    ensures Heard(w, s) <= Heard(u, s) && s in u.settled && u.settled[s] == Heard(u, s)
  {
    var b := GoesHome(plant, w, s, k, nodes, DrainedBy(s, k), Ready(k) + {DrainedBy(s, k)});
    assert Playing.Adds(SourceIn(w, s), SourceIn(b, s));
    u := HearsOut(plant, b, s, k);
    Then(plant, w, b, u);
  }

  predicate Drained(sink: K.Sink, s: Uid, k: Uid) {
    sink.uid == k && sink.phase == K.Drained && s in sink.drains && sink.starts <= {s} && !sink.channel
  }

  // ----- what the source has sent gets along a path

  lemma EmitReaches(topo: Topology, net: Net, s: Uid, body: Body, d: Node)
    requires Carries(topo, SourceNode(s), d, Packet(s, body))
    ensures (d, Packet(s, body)) in Outbox(Emit(topo, net, s, body), SourceNode(s))
  {
    CarriedCopy(topo, SourceNode(s), d, Packet(s, body));
  }

  lemma Brings(plant: Plant, w: World, s: Uid, nodes: seq<Node>, i: nat, x: Item) returns (u: World)
    requires 0 < i < |nodes| && CarriesAlong(plant.topo, nodes, 1, i, x)
    requires (nodes[1], x) in Outbox(w.net, SourceNode(s))
    ensures Reaches(plant, w, u) && Carried(w, u, Members(nodes[1..i])) && x in Inbox(u.net, nodes[i])
  {
    var mid := Arrives(plant, w, SourceNode(s), nodes[1], x);
    u := Travels(plant, mid, nodes, 1, i, x);
    Then(plant, w, mid, u);
    CarriedOn(w, mid, u, {}, Members(nodes[1..i]));
    assert {} + Members(nodes[1..i]) == Members(nodes[1..i]);
  }

  lemma CarriedKeeps(w: World, u: World, s: Uid, k: Uid, busy: set<Node>)
    requires Carried(w, u, busy)
    ensures Open(w, s, k) ==> Open(u, s, k)
    ensures Waiting(w, s, k) ==> Waiting(u, s, k)
  {
  }
}
