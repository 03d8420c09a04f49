/**
 Draining never gets stuck. From a state in which everything is up, and as long as nobody interferes,
 there is always a task that can take a step until the flow has told that it is drained: a state in
 which nothing can move any more is one in which it has.
 */
module Progress {
  import opened Protocol
  import opened Wrappers
  import opened Network
  import opened Quiescence
  import opened Playing
  import opened OneWay
  import opened Homing
  import opened Origins
  import opened ReportCount
  import opened AnswerCount
  import S = SourceTask
  import K = SinkTask
  import C = ConnectorLoop
  import F = FlowLoop

  /** The drain signal of source `i` has been sent. */
  ghost predicate Signalled(w: World, i: Uid) {
    Packet(i, DrainSignal) in Sent(w.net, i)
  }

  // ----- what holds of a connector and its parts, from the moment when all is up

  /** The loop of connector `i`: a request is taken, reports are recorded, and when all parts are drained it has answered. */
  ghost predicate Steered(w: World, i: Uid)
    requires i in w.connectors
  {
    var c, mail := w.connectors[i], ConnectorIn(w, i);
    && c.phase != C.Stopped && (c.phase == C.Draining ==> c.drainage.Some?)
    && (forall m :: m in mail ==> m in {C.Drain, C.SourceDrained, C.SinkDrained})
    && (w.asked.None? ==> mail == [] && c.phase != C.Draining)
    && (Asked(w, i) ==> C.Drain in mail || c.phase == C.Draining)
    && (C.SourceDrained in mail || C.SinkDrained in mail ==> c.phase == C.Draining)
    && (c.phase == C.Draining ==>
          && c.drainage.value.sink != (if c.hasSink then C.Absent else C.Expected)
          && (c.hasSource ==> c.drainage.value.source != C.Absent)
          && (!c.hasSource ==> C.SourceDrained in mail || c.drainage.value.source == C.Done)
          && (C.AllDrained(c.drainage.value) ==> HasAnswered(w, i)))
    && (HasAnswered(w, i) ==> c.phase == C.Draining && C.AllDrained(c.drainage.value))
  }

  ghost predicate HasAnswered(w: World, i: Uid) {
    i in w.results || i in w.answers
  }

  /** The source has sent its signal, or waits for nobody. */
  ghost predicate Called(w: World, i: Uid)
    requires i in w.sources
  {
    Signalled(w, i) || w.sources[i].started == {}
  }

  ghost predicate HasReported(w: World, i: Uid)
    requires i in w.connectors
  {
    C.SourceDrained in ConnectorIn(w, i) || (w.connectors[i].drainage.Some? && w.connectors[i].drainage.value.source == C.Done)
  }

  /** The source has reported, or will because it waits for sinks. */
  ghost predicate Reporting(w: World, i: Uid)
    requires i in w.connectors && i in w.sources
  {
    HasReported(w, i) || (w.sources[i].channel && w.sources[i].started != {})
  }

  /**
   The source part of connector `i`: a request is taken, and afterwards the signal was sent if any sink is
   awaited. A source that streams asynchronously may have to wait for its streams before it sends it.
   */
  ghost predicate Served(w: World, i: Uid)
    requires i in w.connectors && i in w.sources
  {
    var c, s, asked := w.connectors[i], w.sources[i], DrainSource in SourceIn(w, i);
    && s.phase != S.Stopped && (s.phase == S.Draining ==> s.isAsync && s.channel) && s.uid == i && StopSource !in SourceIn(w, i)
    && (asked || s.channel ==> c.phase == C.Draining) && (s.channel ==> Reporting(w, i))
    && (s.phase == S.Drained || (s.channel && !s.isAsync) ==> Called(w, i))
    && (c.phase == C.Draining && HasReported(w, i) ==> Called(w, i))
    && (c.phase == C.Draining && !asked ==> Reporting(w, i) && (s.isAsync || Called(w, i)))
  }

  /** The sink part of connector `i`: once the source part has reported, a request is with the sink until it reports. */
  ghost predicate Drawn(w: World, i: Uid)
    requires i in w.connectors && i in w.sinks
  {
    var c, k, asked := w.connectors[i], w.sinks[i], Control(DrainSink) in Inbox(w.net, SinkNode(i));
    && k.phase !in {K.Stopped, K.Initialized} && K.Waits(k)
    && (forall x :: x in Inbox(w.net, SinkNode(i)) && x.Control? ==> x.msg == DrainSink)
    && (asked || k.channel ==> c.phase == C.Draining)
    && (c.phase == C.Draining && c.drainage.Some? && c.drainage.value.source == C.Done ==>
          c.drainage.value.sink == C.Done || C.SinkDrained in ConnectorIn(w, i) || asked || k.channel)
  }

  ghost predicate Live(w: World, i: Uid) {
    i in w.connectors ==>
      && (w.connectors[i].hasSource <==> i in w.sources) && (w.connectors[i].hasSink <==> i in w.sinks)
      && Steered(w, i) && (i in w.sources ==> Served(w, i)) && (i in w.sinks ==> Drawn(w, i))
  }

  /** Announcements of sinks are not under way any more. */
  ghost predicate NoStarts(w: World) {
    && (forall p, cb :: cb in Contraflow(w.contraflow, p) ==> !cb.SinkStart?)
    && (forall i, m :: m in Messages(w.sourceIn, i) && m.Cb? ==> !m.cb.SinkStart?)
  }

  // ----- steps that leave connector `i` alone

  ghost predicate SamePart<T>(a: map<Uid, T>, b: map<Uid, T>, i: Uid) {
    (i in a <==> i in b) && (i in a ==> a[i] == b[i])
  }

  ghost predicate Kept(w: World, w': World, i: Uid) {
    && w'.asked == w.asked && ConnectorIn(w', i) == ConnectorIn(w, i)
    && SamePart(w.connectors, w'.connectors, i) && SamePart(w.sources, w'.sources, i) && SamePart(w.sinks, w'.sinks, i)
    && (forall m ::
          m in SourceIn(w', i) && !m.Cb? && !m.LinkSource? && !m.ConnectSource?
          <==> m in SourceIn(w, i) && !m.Cb? && !m.LinkSource? && !m.ConnectSource?)
    && (forall x :: x in Inbox(w'.net, SinkNode(i)) && x.Control? <==> x in Inbox(w.net, SinkNode(i)) && x.Control?)
    && (Signalled(w, i) ==> Signalled(w', i))
    && (HasAnswered(w', i) <==> HasAnswered(w, i))
  }

  lemma KeptLive(w: World, w': World, i: Uid)
    requires Live(w, i) && Kept(w, w', i)
    ensures Live(w', i)
  {
    assert DrainSource in SourceIn(w', i) <==> DrainSource in SourceIn(w, i);
    assert StopSource in SourceIn(w', i) <==> StopSource in SourceIn(w, i);
  }

  // ----- the connector takes a message

  lemma RestThere<T>(xs: seq<T>, x: T)
    requires xs != []
    ensures x in xs <==> x == xs[0] || x in xs[1..]
  {
    assert xs == [xs[0]] + xs[1..];
  }

  /** What a busy or idle connector does with the three messages it may find. */
  lemma ConnectorActs(c: C.Connector, msg: C.Msg)
    requires msg in {C.Drain, C.SourceDrained, C.SinkDrained} && c.phase != C.Stopped
    requires c.phase == C.Draining ==> c.drainage.Some?
    requires msg != C.Drain ==> c.phase == C.Draining
    ensures var (d, es) := C.OnMsg(c, msg);
            && d.phase == C.Draining && d.drainage.Some? && d.hasSource == c.hasSource && d.hasSink == c.hasSink
            && (forall m :: C.ToSelf(m) in es ==> m in {C.SourceDrained, C.SinkDrained})
            && (forall m :: C.ToSource(m) in es ==> m == DrainSource) && (forall m :: C.ToSink(m) in es ==> m == DrainSink)
            && (C.AllDrained(d.drainage.value)
                ==> (c.phase == C.Draining && C.AllDrained(c.drainage.value)) || C.AnswerDrain in es)
            && (d.drainage.value.sink == (if c.hasSink then C.Absent else C.Expected) ==>
                  c.phase == C.Draining && c.drainage.value.sink == d.drainage.value.sink)
  {
  }

  /** Where the effects of a message to connector `i` go. */
  ghost predicate Took(w: World, w': World, i: Uid, rest: seq<C.Msg>, c: C.Connector, es: seq<C.Effect>) {
    && w'.asked == w.asked && w'.sources == w.sources && w'.sinks == w.sinks && w'.answers == w.answers
    && i in w'.connectors && w'.connectors[i] == c
    && (forall m :: m in ConnectorIn(w', i) <==> m in rest || C.ToSelf(m) in es)
    && (forall m :: m in SourceIn(w', i) <==> m in SourceIn(w, i) || C.ToSource(m) in es)
    && (forall m :: Control(m) in Inbox(w'.net, SinkNode(i)) <==> Control(m) in Inbox(w.net, SinkNode(i)) || C.ToSink(m) in es)
    && (i in w'.results <==> i in w.results || C.AnswerDrain in es)
    && (Signalled(w, i) ==> Signalled(w', i))
  }

  lemma {:induction false} InjectAllControls(net: Net, k: Uid, msgs: seq<SinkControl>)
    ensures forall m ::
              Control(m) in Inbox(InjectAll(net, k, msgs), SinkNode(k)) <==> Control(m) in Inbox(net, SinkNode(k)) || m in msgs
    decreases |msgs|
  {
    if msgs != [] {
      InjectAllControls(Inject(net, k, msgs[0]), k, msgs[1..]);
    }
  }

  lemma IsTook(w: World, i: Uid)
    requires i in w.connectors && ConnectorIn(w, i) != []
    ensures var (c, es) := C.OnMsg(w.connectors[i], ConnectorIn(w, i)[0]);
            Took(w, ConnectorTook(w, i), i, ConnectorIn(w, i)[1..], c, es)
  {
    var (c, es) := C.OnMsg(w.connectors[i], ConnectorIn(w, i)[0]);
    forall m ensures m in ToSelf(es) <==> C.ToSelf(m) in es {
      ToSelfMember(es, m);
    }
    forall m ensures m in ToSource(es) <==> C.ToSource(m) in es {
      ToSourceMember(es, m);
    }
    forall m ensures m in ToSink(es) <==> C.ToSink(m) in es {
      ToSinkMember(es, m);
    }
    InjectAllControls(w.net, i, ToSink(es));
    ConnectorTookSent(w, i);
  }

  lemma TookSteered(w: World, w': World, i: Uid, mail: seq<C.Msg>)
    requires i in w.connectors && Steered(w, i) && mail == ConnectorIn(w, i) && mail != [] && w.asked.Some?
    requires Took(w, w', i, mail[1..], C.OnMsg(w.connectors[i], mail[0]).0, C.OnMsg(w.connectors[i], mail[0]).1)
    ensures Steered(w', i)
  {
    assert mail == [mail[0]] + mail[1..];
    assert mail[0] in mail;
    ConnectorActs(w.connectors[i], mail[0]);
    forall m | m in ConnectorIn(w', i)
      ensures m in {C.Drain, C.SourceDrained, C.SinkDrained}
    {
      RestThere(mail, m);
    }
  }

  /** A request is accepted, and passed on to the source. */
  lemma AcceptsServed(w: World, w': World, i: Uid, mail: seq<C.Msg>)
    requires i in w.connectors && Steered(w, i) && mail == ConnectorIn(w, i) && mail != [] && i in w.sources && Served(w, i)
    requires w.connectors[i].hasSource && mail[0] == C.Drain && w.connectors[i].phase != C.Draining
    requires Took(w, w', i, mail[1..], C.OnMsg(w.connectors[i], mail[0]).0, C.OnMsg(w.connectors[i], mail[0]).1)
    ensures Served(w', i)
  {
    assert mail == [mail[0]] + mail[1..];
    assert C.OnMsg(w.connectors[i], mail[0]).1[0] == C.ToSource(DrainSource);
    assert DrainSource in SourceIn(w', i);
    ConnectorActs(w.connectors[i], mail[0]);
  }

  /** While it drains, a connector tells its source nothing; it records what it hears. */
  lemma DrainingActs(c: C.Connector, msg: C.Msg)
    requires msg in {C.Drain, C.SourceDrained, C.SinkDrained} && c.phase == C.Draining && c.drainage.Some?
    ensures var (d, es) := C.OnMsg(c, msg);
            && d.phase == C.Draining && d.drainage.Some? && d.hasSource == c.hasSource
            && (d.drainage.value.source == C.Done <==> msg == C.SourceDrained || c.drainage.value.source == C.Done)
            && C.ToSelf(C.SourceDrained) !in es && forall m :: C.ToSource(m) !in es
  {
  }

  lemma DrainingServed(w: World, w': World, i: Uid, mail: seq<C.Msg>)
    requires i in w.connectors && Steered(w, i) && mail == ConnectorIn(w, i) && mail != [] && i in w.sources && Served(w, i)
    requires w.connectors[i].phase == C.Draining
    requires Took(w, w', i, mail[1..], C.OnMsg(w.connectors[i], mail[0]).0, C.OnMsg(w.connectors[i], mail[0]).1)
    ensures Served(w', i)
  {
    assert mail[0] in mail;
    RestThere(mail, C.SourceDrained);
    DrainingActs(w.connectors[i], mail[0]);
    assert HasReported(w', i) <==> HasReported(w, i);
  }

  lemma TookServed(w: World, w': World, i: Uid, mail: seq<C.Msg>)
    requires i in w.connectors && Steered(w, i) && mail == ConnectorIn(w, i) && mail != [] && i in w.sources && Served(w, i)
    requires w.connectors[i].hasSource
    requires Took(w, w', i, mail[1..], C.OnMsg(w.connectors[i], mail[0]).0, C.OnMsg(w.connectors[i], mail[0]).1)
    ensures Served(w', i)
  {
    assert mail[0] in mail;
    if w.connectors[i].phase == C.Draining {
      DrainingServed(w, w', i, mail);
    } else {
      AcceptsServed(w, w', i, mail);
    }
  }

  lemma TookDrawn(w: World, w': World, i: Uid, mail: seq<C.Msg>)
    requires i in w.connectors && Steered(w, i) && mail == ConnectorIn(w, i) && mail != [] && i in w.sinks && Drawn(w, i)
    requires w.connectors[i].hasSink
    requires Took(w, w', i, mail[1..], C.OnMsg(w.connectors[i], mail[0]).0, C.OnMsg(w.connectors[i], mail[0]).1)
    ensures Drawn(w', i)
  {
    assert mail == [mail[0]] + mail[1..];
    assert mail[0] in mail;
    ConnectorActs(w.connectors[i], mail[0]);
    if mail[0] == C.SourceDrained && !C.AllDrained(w.connectors[i].drainage.value.(source := C.Done)) {
      assert C.OnMsg(w.connectors[i], mail[0]).1[0] == C.ToSink(DrainSink);
      assert Control(DrainSink) in Inbox(w'.net, SinkNode(i));
    }
  }

  lemma ConnectorTookLive(w: World, j: Uid, i: Uid)
    requires Live(w, i) && Live(w, j) && j in w.connectors && ConnectorIn(w, j) != []
    ensures Live(ConnectorTook(w, j), i)
  {
    if i == j {
      var w', mail := ConnectorTook(w, i), ConnectorIn(w, i);
      IsTook(w, i);
      C.RecordStep(w.connectors[i], mail[0]);
      TookSteered(w, w', i, mail);
      if i in w.sources {
        TookServed(w, w', i, mail);
      }
      if i in w.sinks {
        TookDrawn(w, w', i, mail);
      }
    } else {
      TookElsewhere(w, j, i);
      KeptLive(w, ConnectorTook(w, j), i);
    }
  }

  lemma TookElsewhere(w: World, j: Uid, i: Uid)
    requires i != j && j in w.connectors && ConnectorIn(w, j) != []
    ensures Kept(w, ConnectorTook(w, j), i)
  {
    var es := C.OnMsg(w.connectors[j], ConnectorIn(w, j)[0]).1;
    InjectElsewhere(w.net, j, ToSink(es));
    ConnectorTookSent(w, j);
  }

  lemma {:induction false} InjectElsewhere(net: Net, k: Uid, msgs: seq<SinkControl>)
    ensures forall n :: n != SinkNode(k) ==> Inbox(InjectAll(net, k, msgs), n) == Inbox(net, n)
    decreases |msgs|
  {
    if msgs != [] {
      InjectElsewhere(Inject(net, k, msgs[0]), k, msgs[1..]);
    }
  }

  // ----- the source takes a message, or pulls

  /** What a source that takes `msg` becomes and does, as far as draining is concerned. */
  ghost predicate Behaves(s: S.Source, msg: SourceMsg, t: S.Source, es: seq<S.Effect>) {
    && t.phase != S.Stopped && (t.phase == S.Draining ==> t.isAsync && t.channel)
    && t.isAsync == s.isAsync && t.uid == s.uid && t.started <= s.started
    && (t.phase == S.Drained ==> s.phase == S.Drained || S.SendSignal(DrainSignal) in es || t.started == {})
    && (t.channel && !t.isAsync ==> s.channel || S.SendSignal(DrainSignal) in es)
    && (t.channel ==> s.channel || (msg == DrainSource && t.started != {}))
    && (S.ReportDrained in es ==> s.phase == S.Drained || t.started == {})
    && (msg == DrainSource ==> t.started == s.started && (S.ReportDrained in es || t.channel))
    && (msg != DrainSource ==> t.channel == s.channel && (S.ReportDrained in es ==> s.channel))
    && (s.channel && s.started != {} ==> S.ReportDrained in es || t.started != {})
  }

  lemma SourceActs(s: S.Source, msg: SourceMsg)
    requires s.phase != S.Stopped && msg != StopSource && !(msg.Cb? && msg.cb.SinkStart?)
    requires s.phase == S.Draining ==> s.isAsync && s.channel
    ensures Behaves(s, msg, S.OnMsg(s, msg).0, S.OnMsg(s, msg).1)
  {
    match msg
    case DrainSource => DrainActs(s);
    case Cb(cb) => CbActs(s, cb);
    case _ =>
  }

  lemma DrainActs(s: S.Source)
    requires s.phase != S.Stopped && (s.phase == S.Draining ==> s.isAsync && s.channel)
    ensures Behaves(s, DrainSource, S.OnDrain(s).0, S.OnDrain(s).1)
  {
  }

  lemma CbActs(s: S.Source, cb: CbAction)
    requires s.phase != S.Stopped && (s.phase == S.Draining ==> s.isAsync && s.channel) && !cb.SinkStart?
    ensures Behaves(s, Cb(cb), S.OnCb(s, cb).0, S.OnCb(s, cb).1)
  {
  }

  /** A source that does not stream asynchronously sends its signal at once. */
  lemma CallsAtOnce(s: S.Source)
    requires !s.isAsync && s.phase !in {S.Stopped, S.Draining}
    ensures var (t, es) := S.OnMsg(s, DrainSource);
            S.SendSignal(DrainSignal) in es || t.started == {} || s.phase == S.Drained
  {
  }

  lemma {:induction false} SignalBodies(es: seq<S.Effect>, body: Body)
    requires S.SendSignal(body) in es
    ensures body in Bodies(es)
  {
    if es[0] != S.SendSignal(body) {
      assert es == [es[0]] + es[1..];
      SignalBodies(es[1..], body);
    }
  }

  lemma {:induction false} EmitAllSends(topo: Topology, net: Net, i: Uid, bodies: seq<Body>, x: Item)
    ensures x in Sent(net, i) || (exists b :: b in bodies && x == Packet(i, b)) ==> x in Sent(EmitAll(topo, net, i, bodies), i)
    ensures forall j :: j != i ==> Sent(EmitAll(topo, net, i, bodies), j) == Sent(net, j)
    decreases |bodies|
  {
    if bodies != [] {
      assert bodies == [bodies[0]] + bodies[1..];
      EmitAllSends(topo, Emit(topo, net, i, bodies[0]), i, bodies[1..], x);
    }
  }

  /** Source `i` has become `t`, with effects `es`; `mail` is what it has still to take. */
  ghost predicate Acted(w: World, w': World, i: Uid, t: S.Source, es: seq<S.Effect>, mail: seq<SourceMsg>) {
    && w'.asked == w.asked && w'.connectors == w.connectors && w'.sinks == w.sinks && w'.results == w.results
       && w'.answers == w.answers
    && i in w'.sources && w'.sources[i] == t && SourceIn(w', i) == mail
    && w'.net.inq == w.net.inq
    && ConnectorIn(w', i) == ConnectorIn(w, i) + (if S.ReportDrained in es then [C.SourceDrained] else [])
    && (Signalled(w, i) || S.SendSignal(DrainSignal) in es ==> Signalled(w', i))
  }

  lemma IsActed(plant: Plant, w: World, v: World, i: Uid, s: S.Source, es: seq<S.Effect>)
    requires v == w.(sourceIn := v.sourceIn, heard := v.heard, finished := v.finished)
    ensures Acted(w, WithSource(plant, v, i, s, es), i, s, es, SourceIn(v, i))
  {
    EmitAllInboxes(plant.topo, v.net, i, Bodies(es));
    EmitAllSends(plant.topo, v.net, i, Bodies(es), Packet(i, DrainSignal));
    if S.SendSignal(DrainSignal) in es {
      SignalBodies(es, DrainSignal);
    }
    assert ConnectorIn(w, i) + [] == ConnectorIn(w, i);
  }

  lemma ActedSteered(w: World, w': World, i: Uid, t: S.Source, es: seq<S.Effect>, mail: seq<SourceMsg>)
    requires i in w.connectors && Steered(w, i) && Acted(w, w', i, t, es, mail)
    requires S.ReportDrained in es ==> w.connectors[i].phase == C.Draining
    ensures Steered(w', i)
  {
    forall m | m in ConnectorIn(w', i)
      ensures m in ConnectorIn(w, i) || m == C.SourceDrained
    {
    }
  }

  lemma ActedDrawn(w: World, w': World, i: Uid, t: S.Source, es: seq<S.Effect>, mail: seq<SourceMsg>)
    requires i in w.connectors && i in w.sinks && Drawn(w, i) && Acted(w, w', i, t, es, mail)
    ensures Drawn(w', i)
  {
    assert Inbox(w'.net, SinkNode(i)) == Inbox(w.net, SinkNode(i));
    assert C.SinkDrained in ConnectorIn(w, i) ==> C.SinkDrained in ConnectorIn(w', i);
  }

  lemma TakesServed(w: World, w': World, i: Uid, es: seq<S.Effect>)
    requires i in w.connectors && i in w.sources && Served(w, i) && SourceIn(w, i) != [] && NoStarts(w)
    requires S.OnMsg(w.sources[i], SourceIn(w, i)[0]).1 == es
    requires Acted(w, w', i, S.OnMsg(w.sources[i], SourceIn(w, i)[0]).0, es, SourceIn(w, i)[1..])
    ensures Served(w', i) && (S.ReportDrained in es ==> w.connectors[i].phase == C.Draining)
  {
    var msg, mail := SourceIn(w, i)[0], SourceIn(w, i);
    assert mail == [msg] + mail[1..];
    assert msg in Messages(w.sourceIn, i);
    SourceActs(w.sources[i], msg);
    if !w.sources[i].isAsync {
      CallsAtOnce(w.sources[i]);
    }
    assert C.SourceDrained in ConnectorIn(w', i) <==> C.SourceDrained in ConnectorIn(w, i) || S.ReportDrained in es;
  }

  lemma ActedElsewhere(plant: Plant, w: World, v: World, j: Uid, s: S.Source, es: seq<S.Effect>, i: Uid)
    requires v == w.(sourceIn := v.sourceIn, heard := v.heard, finished := v.finished) && i != j
             && SourceIn(v, i) == SourceIn(w, i)
    ensures Kept(w, WithSource(plant, v, j, s, es), i)
  {
    EmitAllInboxes(plant.topo, v.net, j, Bodies(es));
    EmitAllSends(plant.topo, v.net, j, Bodies(es), Packet(i, DrainSignal));
  }

  lemma SourceTookOwn(plant: Plant, w: World, i: Uid)
    requires Live(w, i) && NoStarts(w) && i in w.sources && SourceIn(w, i) != []
    ensures Live(SourceTook(plant, w, i), i)
  {
    var (s, es) := S.OnMsg(w.sources[i], SourceIn(w, i)[0]);
    var w', mail := SourceTook(plant, w, i), SourceIn(w, i)[1..];
    IsActed(plant, w, Taken(w, i), i, s, es);
    if i in w.connectors {
      TakesServed(w, w', i, es);
      ActedLive(w, w', i, s, es, mail);
    }
  }

  lemma ActedLive(w: World, w': World, i: Uid, t: S.Source, es: seq<S.Effect>, mail: seq<SourceMsg>)
    requires i in w.connectors && i in w.sources && Live(w, i) && Acted(w, w', i, t, es, mail) && Served(w', i)
    requires S.ReportDrained in es ==> w.connectors[i].phase == C.Draining
    ensures Live(w', i)
  {
    ActedSteered(w, w', i, t, es, mail);
    if i in w.sinks {
      ActedDrawn(w, w', i, t, es, mail);
    }
  }

  lemma SourceTookLive(plant: Plant, w: World, j: Uid, i: Uid)
    requires Live(w, i) && NoStarts(w) && j in w.sources && SourceIn(w, j) != []
    ensures Live(SourceTook(plant, w, j), i)
  {
    if i == j {
      SourceTookOwn(plant, w, i);
    } else {
      var (s, es) := S.OnMsg(w.sources[j], SourceIn(w, j)[0]);
      ActedElsewhere(plant, w, Taken(w, j), j, s, es, i);
      KeptLive(w, SourceTook(plant, w, j), i);
    }
  }

  lemma PullsServed(w: World, w': World, i: Uid, reply: S.Reply)
    requires i in w.connectors && i in w.sources && Served(w, i)
    requires Acted(w, w', i, S.OnReply(w.sources[i], reply).0, S.OnReply(w.sources[i], reply).1, SourceIn(w, i))
    ensures Served(w', i)
  {
    NoReportPulled(w.sources[i], reply);
    assert ConnectorIn(w, i) + [] == ConnectorIn(w, i);
  }

  lemma SourcePulledOwn(plant: Plant, w: World, i: Uid, reply: S.Reply)
    requires Live(w, i) && i in w.sources
    ensures Live(SourcePulled(plant, w, i, reply), i)
  {
    var (s, es) := S.OnReply(w.sources[i], reply);
    var w' := SourcePulled(plant, w, i, reply);
    IsActed(plant, w, Marked(w, i, reply), i, s, es);
    NoReportPulled(w.sources[i], reply);
    if i in w.connectors {
      PullsServed(w, w', i, reply);
      ActedLive(w, w', i, s, es, SourceIn(w, i));
    }
  }

  lemma SourcePulledLive(plant: Plant, w: World, j: Uid, reply: S.Reply, i: Uid)
    requires Live(w, i) && j in w.sources
    ensures Live(SourcePulled(plant, w, j, reply), i)
  {
    if i == j {
      SourcePulledOwn(plant, w, i, reply);
    } else {
      var (s, es) := S.OnReply(w.sources[j], reply);
      ActedElsewhere(plant, w, Marked(w, j, reply), j, s, es, i);
      KeptLive(w, SourcePulled(plant, w, j, reply), i);
    }
  }

  // ----- the sink takes a message

  lemma SinkActs(k: K.Sink, x: Item, o: K.Outcome, transactional: bool, autoAck: bool)
    requires k.phase !in {K.Stopped, K.Initialized} && K.Waits(k) && (x.Control? ==> x.msg == DrainSink)
    ensures var (t, es) := K.OnItem(k, x, o, transactional, autoAck);
            && t.phase !in {K.Stopped, K.Initialized} && K.Waits(t)
            && (x == Control(DrainSink) || k.channel ==> K.ReportDrained in es || t.channel)
            && (K.ReportDrained in es || t.channel ==> x == Control(DrainSink) || k.channel)
  {
    K.ReportsIff(k, K.Input(x, o, transactional, autoAck));
  }

  lemma SinkTookOwn(plant: Plant, w: World, k: Uid, o: K.Outcome, transactional: bool, autoAck: bool)
    requires Live(w, k) && k in w.sinks && k in w.connectors && Inbox(w.net, SinkNode(k)) != []
    ensures Live(SinkTook(plant, w, k, o, transactional, autoAck), k)
  {
    var w', inbox := SinkTook(plant, w, k, o, transactional, autoAck), Inbox(w.net, SinkNode(k));
    assert inbox == [inbox[0]] + inbox[1..];
    assert inbox[0] in inbox;
    SinkActs(w.sinks[k], inbox[0], o, transactional, autoAck);
    SunkDrawn(w, w', k, inbox, w'.sinks[k], K.OnItem(w.sinks[k], inbox[0], o, transactional, autoAck).1);
  }

  /** Sink `k` has become `t`, with effects `es`. */
  lemma SunkDrawn(w: World, w': World, k: Uid, inbox: seq<Item>, t: K.Sink, es: seq<K.Effect>)
    requires Live(w, k) && k in w.sinks && k in w.connectors && inbox == Inbox(w.net, SinkNode(k)) && inbox != []
    requires w'.asked == w.asked && w'.connectors == w.connectors && w'.sources == w.sources && w'.sourceIn == w.sourceIn
    requires w'.results == w.results && w'.answers == w.answers && w'.net.sent == w.net.sent
    requires k in w'.sinks && w'.sinks[k] == t && Inbox(w'.net, SinkNode(k)) == inbox[1..]
    requires ConnectorIn(w', k) == if K.ReportDrained in es then ConnectorIn(w, k) + [C.SinkDrained] else ConnectorIn(w, k)
    requires t.phase !in {K.Stopped, K.Initialized} && K.Waits(t)
    requires inbox[0] == Control(DrainSink) || w.sinks[k].channel ==> K.ReportDrained in es || t.channel
    requires K.ReportDrained in es || t.channel ==> inbox[0] == Control(DrainSink) || w.sinks[k].channel
    ensures Live(w', k)
  {
    assert inbox == [inbox[0]] + inbox[1..];
    assert forall m :: m in ConnectorIn(w', k) <==> m in ConnectorIn(w, k) || (m == C.SinkDrained && K.ReportDrained in es);
  }

  lemma SinkTookLive(plant: Plant, w: World, k: Uid, o: K.Outcome, transactional: bool, autoAck: bool, i: Uid)
    requires Live(w, i) && k in w.sinks && Inbox(w.net, SinkNode(k)) != []
    ensures Live(SinkTook(plant, w, k, o, transactional, autoAck), i)
  {
    if i == k && i in w.connectors {
      SinkTookOwn(plant, w, k, o, transactional, autoAck);
    } else if i != k {
      SunkElsewhere(plant, w, k, o, transactional, autoAck, i);
      KeptLive(w, SinkTook(plant, w, k, o, transactional, autoAck), i);
    }
  }

  lemma SunkElsewhere(plant: Plant, w: World, k: Uid, o: K.Outcome, transactional: bool, autoAck: bool, i: Uid)
    requires k in w.sinks && Inbox(w.net, SinkNode(k)) != [] && i != k
    ensures Kept(w, SinkTook(plant, w, k, o, transactional, autoAck), i)
  {
    var w' := SinkTook(plant, w, k, o, transactional, autoAck);
    KeptBySink(w, w', k, w'.sinks[k], ConnectorIn(w', k), i);
  }

  lemma KeptBySink(w: World, w': World, k: Uid, t: K.Sink, mail: seq<C.Msg>, i: Uid)
    requires Inbox(w.net, SinkNode(k)) != [] && i != k
    requires w' == w.(sinks := w.sinks[k := t], net := Consume(w.net, k), contraflow := w'.contraflow,
                      connectorIn := w'.connectorIn)
    requires w'.connectorIn == w.connectorIn || w'.connectorIn == w.connectorIn[k := mail]
    ensures Kept(w, w', i)
  {
  }

  // ----- all other steps

  lemma AskedLive(w: World, alive: set<Uid>, i: Uid)
    requires Live(w, i) && w.asked.None?
    ensures Live(FlowAsked(w, alive), i)
  {
    var w' := FlowAsked(w, alive);
    if i in w.connectors {
      assert ConnectorIn(w', i) == if i in alive then [C.Drain] else [];
    }
  }

  lemma DeliverKept(w: World, n: Node, i: Uid)
    requires Outbox(w.net, n) != [] && Packets(w.net)
    ensures Kept(w, w.(net := Deliver(w.net, n)), i)
  {
    var e := Outbox(w.net, n)[0];
    assert e in Outbox(w.net, n);
    assert forall x ::
        x in Inbox(Deliver(w.net, n), SinkNode(i)) <==> x in Inbox(w.net, SinkNode(i)) || (e.0 == SinkNode(i) && x == e.1);
  }

  lemma ReturnedKept(w: World, p: nat, takers: seq<Node>, i: Uid)
    requires Contraflow(w.contraflow, p) != []
    ensures Kept(w, PipeReturned(w, p, takers), i)
  {
    ToSourcesHas(w.sourceIn, takers, Contraflow(w.contraflow, p)[0]);
    MailStays(w, PipeReturned(w, p, takers), i);
  }

  lemma ForwardKept(plant: Plant, w: World, p: nat, i: Uid)
    requires Inbox(w.net, PipeNode(p)) != []
    ensures Kept(w, w.(net := Forward(plant.topo, w.net, p)), i)
  {
  }

  lemma WiredKept(w: World, j: Uid, msg: SourceMsg, i: Uid)
    requires msg.LinkSource? || msg.ConnectSource?
    ensures Kept(w, SourceWired(w, j, msg), i)
  {
  }

  lemma FlowTookKept(w: World, i: Uid)
    requires w.results != []
    ensures Kept(w, FlowTook(w), i)
  {
    assert w.results == [w.results[0]] + w.results[1..];
  }

  predicate Carrying(step: Step) {
    step.Delivers? || step.PipeForwards? || step.PipeReturns? || step.SinkReplies? || step.Wires? || step.FlowTakes?
  }

  lemma OtherStepKept(plant: Plant, w: World, step: Step, i: Uid)
    requires Enabled(plant, w, step) && Packets(w.net) && Carrying(step)
    ensures Kept(w, Apply(plant, w, step), i)
  {
    match step
    case Delivers(n) => DeliverKept(w, n, i);
    case PipeForwards(p) => ForwardKept(plant, w, p, i);
    case PipeReturns(p, takers) => ReturnedKept(w, p, takers, i);
    case SinkReplies(k, cb) =>
    case Wires(j, msg) => WiredKept(w, j, msg, i);
    case FlowTakes => FlowTookKept(w, i);
  }

  lemma StepLive(plant: Plant, w: World, step: Step, i: Uid)
    requires Enabled(plant, w, step) && !step.Operator? && Packets(w.net) && NoStarts(w) && forall j :: Live(w, j)
    ensures Live(Apply(plant, w, step), i)
  {
    if Carrying(step) {
      OtherStepKept(plant, w, step, i);
      KeptLive(w, Apply(plant, w, step), i);
    } else {
      TaskStepLive(plant, w, step, i);
    }
  }

  lemma TaskStepLive(plant: Plant, w: World, step: Step, i: Uid)
    requires Enabled(plant, w, step) && !step.Operator? && !Carrying(step) && NoStarts(w) && forall j :: Live(w, j)
    ensures Live(Apply(plant, w, step), i)
  {
    match step
    case SourceTakes(j) => SourceTookLive(plant, w, j, i);
    case SourcePulls(j, reply) => SourcePulledLive(plant, w, j, reply, i);
    case SinkTakes(k, o, transactional, autoAck) => SinkTookLive(plant, w, k, o, transactional, autoAck, i);
    case ConnectorTakes(j) => ConnectorTookLive(w, j, i);
    case AsksFlow(alive) => AskedLive(w, alive, i);
  }

  // ----- no announcement comes up again

  lemma NoNewStart(k: K.Sink, input: K.Input, cb: CbAction)
    requires k.phase != K.Initialized && cb.SinkStart? && (input.o.Replied? ==> !Reserved(input.o.cb))
    ensures K.Insight(cb) !in K.Step(k, input).1
  {
  }

  lemma {:induction false} SpokenHas(cf: map<nat, seq<CbAction>>, takers: seq<Node>, cbs: seq<CbAction>)
    ensures forall p, c :: c in Contraflow(cf, p) ==> c in Contraflow(ToPipesEach(cf, takers, cbs), p)
    ensures forall p, c :: c in Contraflow(ToPipesEach(cf, takers, cbs), p) ==> c in Contraflow(cf, p) || c in cbs
    ensures forall p, c :: PipeNode(p) in takers && c in cbs ==> c in Contraflow(ToPipesEach(cf, takers, cbs), p)
    decreases |cbs|
  {
    if cbs != [] {
      assert cbs == [cbs[0]] + cbs[1..];
      ToPipesHas(cf, takers, cbs[0]);
      SpokenHas(ToPipes(cf, takers, cbs[0]), takers, cbs[1..]);
    }
  }

  lemma SinkTookNoStarts(plant: Plant, w: World, k: Uid, o: K.Outcome, transactional: bool, autoAck: bool)
    requires NoStarts(w) && k in w.sinks && w.sinks[k].phase != K.Initialized && Inbox(w.net, SinkNode(k)) != []
    requires o.Replied? ==> !Reserved(o.cb)
    ensures NoStarts(SinkTook(plant, w, k, o, transactional, autoAck))
  {
    var input := K.Input(Inbox(w.net, SinkNode(k))[0], o, transactional, autoAck);
    var es := K.Step(w.sinks[k], input).1;
    SpokenHas(w.contraflow, Pipes(plant, k), SinkInsights(es));
    forall cb | cb in SinkInsights(es)
      ensures !cb.SinkStart?
    {
      SinkInsightsMember(es, cb);
      if cb.SinkStart? {
        NoNewStart(w.sinks[k], input, cb);
      }
    }
  }

  lemma ReturnedNoStarts(w: World, p: nat, takers: seq<Node>)
    requires NoStarts(w) && Contraflow(w.contraflow, p) != []
    ensures NoStarts(PipeReturned(w, p, takers))
  {
    var cb, rest := Contraflow(w.contraflow, p)[0], w.contraflow[p := Contraflow(w.contraflow, p)[1..]];
    assert cb in Contraflow(w.contraflow, p);
    assert forall q, c :: c in Contraflow(rest, q) ==> c in Contraflow(w.contraflow, q);
    ToPipesHas(rest, takers, cb);
    ToSourcesHas(w.sourceIn, takers, cb);
  }

  lemma TookNoStarts(w: World, i: Uid)
    requires NoStarts(w) && i in w.connectors && ConnectorIn(w, i) != []
    ensures NoStarts(ConnectorTook(w, i))
  {
    var w', added := ConnectorTook(w, i), ToSource(C.OnMsg(w.connectors[i], ConnectorIn(w, i)[0]).1);
    forall j, m | m in Messages(w'.sourceIn, j) && m.Cb?
      ensures m in Messages(w.sourceIn, j)
    {
      ConnectorSendsNoCb(w.connectors[i], ConnectorIn(w, i)[0], m.cb);
    }
  }

  lemma SourceTookNoStarts(plant: Plant, w: World, i: Uid)
    requires NoStarts(w) && i in w.sources && SourceIn(w, i) != []
    ensures NoStarts(SourceTook(plant, w, i))
  {
    assert forall j, m :: m in Messages(SourceTook(plant, w, i).sourceIn, j) ==> m in Messages(w.sourceIn, j);
  }

  lemma WiredNoStarts(w: World, i: Uid, msg: SourceMsg)
    requires NoStarts(w) && !msg.Cb?
    ensures NoStarts(SourceWired(w, i, msg))
  {
    assert forall j, m :: m in Messages(SourceWired(w, i, msg).sourceIn, j) && m.Cb? ==> m in Messages(w.sourceIn, j);
  }

  lemma QuietNoStarts(plant: Plant, w: World, step: Step)
    requires NoStarts(w) && Enabled(plant, w, step)
    requires step.SourcePulls? || step.Delivers? || step.PipeForwards? || step.Operator? || step.AsksFlow? || step.FlowTakes?
    ensures NoStarts(Apply(plant, w, step))
  {
  }

  lemma StepNoStarts(plant: Plant, w: World, step: Step)
    requires NoStarts(w) && Enabled(plant, w, step) && forall k :: k in w.sinks ==> w.sinks[k].phase != K.Initialized
    ensures NoStarts(Apply(plant, w, step))
  {
    match step
    case SourceTakes(i) => SourceTookNoStarts(plant, w, i);
    case PipeReturns(p, takers) => ReturnedNoStarts(w, p, takers);
    case SinkTakes(k, o, transactional, autoAck) => SinkTookNoStarts(plant, w, k, o, transactional, autoAck);
    case SinkReplies(k, cb) => ToPipesHas(w.contraflow, Pipes(plant, k), cb);
    case ConnectorTakes(i) => TookNoStarts(w, i);
    case Wires(i, msg) => WiredNoStarts(w, i, msg);
    case _ => QuietNoStarts(plant, w, step);
  }

  // ----- the acknowledgement of a handled signal is somewhere on the way back, or has come

  ghost predicate AckAt(w: World, nodes: seq<Node>, j: nat, cb: CbAction) {
    0 < j < |nodes| - 1 && nodes[j].PipeNode? && cb in Contraflow(w.contraflow, nodes[j].pid)
  }

  ghost predicate AckOn(w: World, s: Uid, k: Uid, nodes: seq<Node>) {
    s in w.sources && Handled(w.net, s, k) ==>
      || k !in w.sources[s].started
      || Cb(DrainedBy(s, k)) in SourceIn(w, s)
      || exists j: nat :: AckAt(w, nodes, j, DrainedBy(s, k))
  }

  /** Contraflow and mail only grew. */
  lemma GrownAck(w: World, w': World, s: Uid, k: Uid, nodes: seq<Node>)
    requires AckOn(w, s, k, nodes) && SamePart(w.sources, w'.sources, s) && (Handled(w'.net, s, k) ==> Handled(w.net, s, k))
    requires forall m :: m in SourceIn(w, s) && m.Cb? ==> m in SourceIn(w', s)
    requires forall p, c :: c in Contraflow(w.contraflow, p) ==> c in Contraflow(w'.contraflow, p)
    ensures AckOn(w', s, k, nodes)
  {
    if j: nat :| AckAt(w, nodes, j, DrainedBy(s, k)) {
      assert AckAt(w', nodes, j, DrainedBy(s, k));
    }
  }

  lemma SourceTookAck(plant: Plant, w: World, i: Uid, s: Uid, k: Uid, nodes: seq<Node>)
    requires AckOn(w, s, k, nodes) && NoStarts(w) && i in w.sources && SourceIn(w, i) != [] && w.sources[i].uid == i
    ensures AckOn(SourceTook(plant, w, i), s, k, nodes)
  {
    var w', msg := SourceTook(plant, w, i), SourceIn(w, i)[0];
    SourceTookLog(plant, w, i);
    assert SourceIn(w, i) == [msg] + SourceIn(w, i)[1..];
    if i == s {
      assert msg in Messages(w.sourceIn, i);
      S.StartedStep(w.sources[i], S.Told(msg), k);
      if j: nat :| AckAt(w, nodes, j, DrainedBy(s, k)) {
        assert AckAt(w', nodes, j, DrainedBy(s, k));
      }
    } else {
      GrownAck(w, w', s, k, nodes);
    }
  }

  lemma SourcePulledAck(plant: Plant, w: World, i: Uid, reply: S.Reply, s: Uid, k: Uid, nodes: seq<Node>)
    requires AckOn(w, s, k, nodes) && i in w.sources
    ensures AckOn(SourcePulled(plant, w, i, reply), s, k, nodes)
  {
    var w' := SourcePulled(plant, w, i, reply);
    SourcePulledLog(plant, w, i, reply);
    S.StartedStep(w.sources[i], S.Pulled(reply), k);
    if j: nat :| AckAt(w, nodes, j, DrainedBy(s, k)) {
      assert AckAt(w', nodes, j, DrainedBy(s, k));
    }
  }

  lemma SinkTookAck(plant: Plant, w: World, q: Uid, o: K.Outcome, transactional: bool, autoAck: bool, s: Uid, k: Uid,
                    nodes: seq<Node>)
    requires Mirrored(plant) && WellFormed(plant.topo) && Walk(plant.topo, s, k, nodes) && AckOn(w, s, k, nodes)
    requires q in w.sinks && w.sinks[q].uid == q && Inbox(w.net, SinkNode(q)) != []
    requires o.Replied? ==> !Reserved(o.cb)
    ensures AckOn(SinkTook(plant, w, q, o, transactional, autoAck), s, k, nodes)
  {
    var w', x := SinkTook(plant, w, q, o, transactional, autoAck), Inbox(w.net, SinkNode(q))[0];
    var input := K.Input(x, o, transactional, autoAck);
    SpokenHas(w.contraflow, Pipes(plant, q), SinkInsights(K.Step(w.sinks[q], input).1));
    if q == k && x == Packet(s, DrainSignal) {
      var last := |nodes| - 1;
      SinkInsightsMember(K.Step(w.sinks[q], input).1, DrainedBy(s, k));
      K.AcknowledgesDrain(w.sinks[q], input, s, k);
      assert MayFeed(nodes[last - 1], nodes[last]);
      assert nodes[last - 1] in Pipes(plant, k);
      assert AckAt(w', nodes, last - 1, DrainedBy(s, k));
    } else {
      assert Handled(w'.net, s, k) ==> Handled(w.net, s, k);
      GrownAck(w, w', s, k, nodes);
    }
  }

  lemma ReturnedAck(plant: Plant, w: World, p: nat, takers: seq<Node>, s: Uid, k: Uid, nodes: seq<Node>)
    requires Mirrored(plant) && Walk(plant.topo, s, k, nodes) && Distinct(nodes) && AckOn(w, s, k, nodes)
    requires Contraflow(w.contraflow, p) != [] && (AlwaysDelivered(Contraflow(w.contraflow, p)[0]) ==> takers == Inputs(plant, p))
    ensures AckOn(PipeReturned(w, p, takers), s, k, nodes)
  {
    var w', cb, x := PipeReturned(w, p, takers), Contraflow(w.contraflow, p)[0], DrainedBy(s, k);
    var rest := w.contraflow[p := Contraflow(w.contraflow, p)[1..]];
    assert Contraflow(w.contraflow, p) == [cb] + Contraflow(w.contraflow, p)[1..];
    ToPipesHas(rest, takers, cb);
    ToSourcesHas(w.sourceIn, takers, cb);
    MailStays(w, w', s);
    if j: nat :| AckAt(w, nodes, j, x) {
      if nodes[j] == PipeNode(p) && cb == x {
        assert nodes[j] in Outs(plant.topo, nodes[j - 1]);
        assert nodes[j - 1] in Inputs(plant, p);
        if j > 1 {
          assert AckAt(w', nodes, j - 1, x);
        }
      } else {
        assert x in Contraflow(rest, nodes[j].pid);
        assert AckAt(w', nodes, j, x);
      }
    }
  }

  lemma MailStays(w: World, w': World, i: Uid)
    requires Playing.Adds(Messages(w.sourceIn, i), Messages(w'.sourceIn, i))
    ensures forall m :: m in SourceIn(w, i) ==> m in SourceIn(w', i)
  {
    forall m | m in SourceIn(w, i)
      ensures m in SourceIn(w', i)
    {
      var j := At(SourceIn(w, i), m);
      assert SourceIn(w', i)[j] == m;
    }
  }

  lemma OtherStepAck(plant: Plant, w: World, step: Step, s: Uid, k: Uid, nodes: seq<Node>)
    requires AckOn(w, s, k, nodes) && Enabled(plant, w, step)
    requires !step.SourceTakes? && !step.SourcePulls? && !step.SinkTakes? && !step.PipeReturns?
    ensures AckOn(Apply(plant, w, step), s, k, nodes)
  {
    LogStep(plant, w, step);
    OtherFrame(plant, w, step);
    if step.SinkReplies? {
      ToPipesHas(w.contraflow, Pipes(plant, step.k), step.cb);
    }
    GrownAck(w, Apply(plant, w, step), s, k, nodes);
  }

  lemma StepAck(plant: Plant, w: World, step: Step, s: Uid, k: Uid, nodes: seq<Node>)
    requires Mirrored(plant) && WellFormed(plant.topo) && Walk(plant.topo, s, k, nodes) && Distinct(nodes)
    requires AckOn(w, s, k, nodes) && NoStarts(w) && Enabled(plant, w, step)
    requires (forall i :: i in w.sources ==> w.sources[i].uid == i) && (forall q :: q in w.sinks ==> w.sinks[q].uid == q)
    ensures AckOn(Apply(plant, w, step), s, k, nodes)
  {
    match step
    case SourceTakes(i) => SourceTookAck(plant, w, i, s, k, nodes);
    case SourcePulls(i, reply) => SourcePulledAck(plant, w, i, reply, s, k, nodes);
    case SinkTakes(q, o, transactional, autoAck) => SinkTookAck(plant, w, q, o, transactional, autoAck, s, k, nodes);
    case PipeReturns(p, takers) => ReturnedAck(plant, w, p, takers, s, k, nodes);
    case _ => OtherStepAck(plant, w, step, s, k, nodes);
  }

  // ----- sinks that are awaited have announced themselves

  ghost predicate StartedHeard(w: World) {
    forall i, k :: i in w.sources && k in w.sources[i].started ==> k in Heard(w, i)
  }

  lemma StepStartedHeard(plant: Plant, w: World, step: Step)
    requires StartedHeard(w) && Enabled(plant, w, step)
    ensures StartedHeard(Apply(plant, w, step))
  {
    match step
    case SourceTakes(i) => SourceTookHeard(plant, w, i);
    case SourcePulls(i, reply) => SourcePulledHeard(plant, w, i, reply);
    case _ =>
      OtherFrame(plant, w, step);
      SameHeard(w, Apply(plant, w, step));
  }

  lemma SameHeard(w: World, w': World)
    requires StartedHeard(w) && w'.sources == w.sources && w'.heard == w.heard
    ensures StartedHeard(w')
  {
    assert forall i :: Heard(w', i) == Heard(w, i);
  }

  lemma SourceTookHeard(plant: Plant, w: World, i: Uid)
    requires StartedHeard(w) && i in w.sources && SourceIn(w, i) != []
    ensures StartedHeard(SourceTook(plant, w, i))
  {
    var w' := SourceTook(plant, w, i);
    forall j, k | j in w'.sources && k in w'.sources[j].started
      ensures k in Heard(w', j)
    {
      S.StartedStep(w.sources[i], S.Told(SourceIn(w, i)[0]), k);
    }
  }

  lemma SourcePulledHeard(plant: Plant, w: World, i: Uid, reply: S.Reply)
    requires StartedHeard(w) && i in w.sources
    ensures StartedHeard(SourcePulled(plant, w, i, reply))
  {
    var w' := SourcePulled(plant, w, i, reply);
    forall j, k | j in w'.sources && k in w'.sources[j].started
      ensures k in Heard(w', j)
    {
      S.StartedStep(w.sources[i], S.Pulled(reply), k);
    }
  }

  lemma {:induction false} AlwaysStartedHeard(plant: Plant, run: Run, n: nat)
    requires IsRun(plant, run) && n < |run.states|
    ensures StartedHeard(run.states[n])
  {
    if n > 0 {
      AlwaysStartedHeard(plant, run, n - 1);
      assert Moves(plant, run, n - 1);
      StepStartedHeard(plant, run.states[n - 1], run.steps[n - 1]);
    }
  }

  // ----- everything is up

  ghost predicate SourceUp(plant: Plant, w: World, i: Uid)
    requires i in w.sources
  {
    && w.sources[i].phase !in {S.Stopped, S.Draining, S.Drained} && !w.sources[i].channel
    && StopSource !in SourceIn(w, i)
    && (forall k :: Feeds(plant.topo, SourceNode(i), k) ==> k in Heard(w, i) && k in w.sinks)
  }

  ghost predicate SinkUp(w: World, k: Uid)
    requires k in w.sinks
  {
    && w.sinks[k].phase !in {K.Stopped, K.Initialized, K.Draining}
    && (forall x :: x in Inbox(w.net, SinkNode(k)) ==> x.Packet?)
  }

  /**
   Nobody asked to drain yet and no sink handled a drain signal. All connectors are idle, sources and sinks
   are started, each source has heard of each sink that it feeds, and no announcement is under way.
   */
  ghost predicate Up(plant: Plant, w: World) {
    && w.asked.None? && (forall s, k :: !Handled(w.net, s, k)) && NoStarts(w)
    && w.sources.Keys <= w.connectors.Keys && w.sinks.Keys <= w.connectors.Keys
    && (forall i :: i in w.connectors ==> w.connectors[i].phase !in {C.Draining, C.Stopped} && ConnectorIn(w, i) == [])
    && (forall i :: i in w.sources ==> SourceUp(plant, w, i))
    && (forall k :: k in w.sinks ==> SinkUp(w, k))
  }

  /** What lasts while nobody interferes. */
  ghost predicate Alive(w: World) {
    && NoStarts(w) && (forall i :: Live(w, i))
    && w.sources.Keys <= w.connectors.Keys && w.sinks.Keys <= w.connectors.Keys
  }

  /** Connectors know their parts. */
  ghost predicate Parts(w: World) {
    forall i :: i in w.connectors ==>
      (w.connectors[i].hasSource <==> i in w.sources) && (w.connectors[i].hasSink <==> i in w.sinks)
  }

  lemma StepKeys(plant: Plant, w: World, step: Step)
    requires Enabled(plant, w, step)
    ensures var w' := Apply(plant, w, step);
            w'.sources.Keys == w.sources.Keys && w'.sinks.Keys == w.sinks.Keys && w'.connectors.Keys == w.connectors.Keys
  {
    match step
    case SourceTakes(i) => SourceTookFrame(plant, w, i);
    case SourcePulls(i, reply) => SourcePulledFrame(plant, w, i, reply);
    case SinkTakes(k, o, transactional, autoAck) => SinkTookFrame(plant, w, k, o, transactional, autoAck);
    case ConnectorTakes(i) => ConnectorTookFrame(w, i);
    case _ => QuietFrame(plant, w, step);
  }

  lemma SinkTookFrame(plant: Plant, w: World, k: Uid, o: K.Outcome, transactional: bool, autoAck: bool)
    requires k in w.sinks && Inbox(w.net, SinkNode(k)) != []
    ensures var w' := SinkTook(plant, w, k, o, transactional, autoAck);
            w'.sinks.Keys == w.sinks.Keys && w'.sources == w.sources && w'.connectors == w.connectors
  {
  }

  lemma {:induction false} AlwaysParts(plant: Plant, run: Run, n: nat)
    requires IsRun(plant, run) && n < |run.states|
    ensures Parts(run.states[n])
  {
    if n > 0 {
      AlwaysParts(plant, run, n - 1);
      assert Moves(plant, run, n - 1);
      StepPartsLast(plant, run.states[n - 1], run.steps[n - 1]);
    }
  }

  lemma StepPartsLast(plant: Plant, w: World, step: Step)
    requires Parts(w) && Enabled(plant, w, step)
    ensures Parts(Apply(plant, w, step))
  {
    match step
    case SourceTakes(i) => SourceTookFrame(plant, w, i);
    case SourcePulls(i, reply) => SourcePulledFrame(plant, w, i, reply);
    case SinkTakes(k, o, transactional, autoAck) => SinkTookFrame(plant, w, k, o, transactional, autoAck);
    case ConnectorTakes(i) => ConnectorTookParts(w, i);
    case _ => QuietFrame(plant, w, step);
  }

  lemma ConnectorTookParts(w: World, i: Uid)
    requires Parts(w) && i in w.connectors && ConnectorIn(w, i) != []
    ensures Parts(ConnectorTook(w, i))
  {
    C.RecordStep(w.connectors[i], ConnectorIn(w, i)[0]);
  }

  lemma UpLive(plant: Plant, w: World, i: Uid)
    requires Up(plant, w) && Parts(w) && Invariant(w) && Matched(w)
    ensures Live(w, i)
  {
    if i in w.connectors && i in w.sources {
      assert SourceUp(plant, w, i) && Accounted(w, i) && Paced(w, i);
      NoRequest(SourceIn(w, i));
    }
    if i in w.connectors && i in w.sinks {
      assert SinkUp(w, i);
    }
  }

  lemma {:induction false} NoRequest(mail: seq<SourceMsg>)
    requires SourceAsks(mail) == 0
    ensures DrainSource !in mail
  {
    if mail != [] {
      assert mail == [mail[0]] + mail[1..];
      NoRequest(mail[1..]);
    }
  }

  lemma {:induction false} AlwaysAlive(plant: Plant, run: Run, m: nat, n: nat)
    requires IsRun(plant, run) && m <= n < |run.states| && Up(plant, run.states[m])
    requires forall j :: m <= j < n ==> !run.steps[j].Operator?
    ensures Alive(run.states[n])
  {
    if m == n {
      AlwaysParts(plant, run, n);
      AlwaysInvariant(plant, run, n);
      AlwaysMatched(plant, run, n);
      forall i ensures Live(run.states[n], i) {
        UpLive(plant, run.states[n], i);
      }
    } else {
      AlwaysAlive(plant, run, m, n - 1);
      AlwaysMatched(plant, run, n - 1);
      assert Moves(plant, run, n - 1);
      StepAlive(plant, run.states[n - 1], run.steps[n - 1]);
    }
  }

  lemma StepAlive(plant: Plant, w: World, step: Step)
    requires Alive(w) && Packets(w.net) && Enabled(plant, w, step) && !step.Operator?
    ensures Alive(Apply(plant, w, step))
  {
    StepKeys(plant, w, step);
    forall i ensures Live(Apply(plant, w, step), i) {
      StepLive(plant, w, step, i);
    }
    forall k | k in w.sinks
      ensures w.sinks[k].phase != K.Initialized
    {
      assert Live(w, k);
    }
    StepNoStarts(plant, w, step);
  }

  lemma AlwaysNoStarts(plant: Plant, run: Run, m: nat, n: nat)
    requires IsRun(plant, run) && m <= n < |run.states| && Up(plant, run.states[m])
    requires forall j :: m <= j < n ==> !run.steps[j].Operator?
    ensures NoStarts(run.states[n])
  {
    AlwaysAlive(plant, run, m, n);
  }

  lemma {:induction false} AlwaysAckOn(plant: Plant, run: Run, m: nat, n: nat, s: Uid, k: Uid, nodes: seq<Node>)
    requires Mirrored(plant) && WellFormed(plant.topo) && Walk(plant.topo, s, k, nodes) && Distinct(nodes)
    requires IsRun(plant, run) && m <= n < |run.states| && Up(plant, run.states[m])
    requires forall j :: m <= j < n ==> !run.steps[j].Operator?
    ensures AckOn(run.states[n], s, k, nodes)
  {
    if m < n {
      AlwaysAckOn(plant, run, m, n - 1, s, k, nodes);
      AlwaysNoStarts(plant, run, m, n - 1);
      KnownUids(plant, run, n - 1);
      assert Moves(plant, run, n - 1);
      StepAck(plant, run.states[n - 1], run.steps[n - 1], s, k, nodes);
    }
  }

  lemma KnownUids(plant: Plant, run: Run, n: nat)
    requires IsRun(plant, run) && n < |run.states|
    ensures var w := run.states[n];
            (forall i :: i in w.sources ==> w.sources[i].uid == i) && (forall q :: q in w.sinks ==> w.sinks[q].uid == q)
  {
    AlwaysInvariant(plant, run, n);
    var w := run.states[n];
    forall i | i in w.sources ensures w.sources[i].uid == i {
      assert Accounted(w, i);
    }
  }

  // ----- where nothing can move

  /** Steps that are not input from outside. */
  predicate Internal(step: Step) {
    step.SourceTakes? || step.Delivers? || step.PipeForwards? || step.PipeReturns? || step.SinkTakes?
      || step.ConnectorTakes? || step.FlowTakes?
  }

  ghost predicate Stuck(plant: Plant, w: World) {
    forall step :: Internal(step) ==> !Enabled(plant, w, step)
  }

  /** Nothing is left to do. */
  ghost predicate Quiet(w: World) {
    && (forall n :: Outbox(w.net, n) == []) && (forall p :: Inbox(w.net, PipeNode(p)) == [])
       && (forall p :: Contraflow(w.contraflow, p) == [])
    && (forall k :: k in w.sinks ==> Inbox(w.net, SinkNode(k)) == []) && (forall i :: i in w.sources ==> SourceIn(w, i) == [])
    && (forall i :: i in w.connectors ==> ConnectorIn(w, i) == []) && w.results == []
  }

  lemma StuckIsQuiet(plant: Plant, w: World)
    requires Alive(w) && Stuck(plant, w)
    ensures Quiet(w)
  {
    forall n ensures Outbox(w.net, n) == [] {
      assert !Enabled(plant, w, Delivers(n));
    }
    forall p ensures Inbox(w.net, PipeNode(p)) == [] && Contraflow(w.contraflow, p) == [] {
      assert !Enabled(plant, w, PipeForwards(p)) && !Enabled(plant, w, PipeReturns(p, Inputs(plant, p)));
    }
    forall k | k in w.sinks ensures Inbox(w.net, SinkNode(k)) == [] {
      assert Live(w, k) && !Enabled(plant, w, SinkTakes(k, K.Errored, false, false));
    }
    forall i | i in w.sources ensures SourceIn(w, i) == [] {
      assert Live(w, i) && !Enabled(plant, w, SourceTakes(i));
    }
    forall i | i in w.connectors ensures ConnectorIn(w, i) == [] {
      assert Live(w, i) && !Enabled(plant, w, ConnectorTakes(i));
    }
    assert !Enabled(plant, w, FlowTakes);
  }

  /** Every source that streams asynchronously has sent its signal, or waits for nobody. */
  ghost predicate AllCalled(w: World) {
    forall i :: i in w.sources && w.sources[i].isAsync ==> Called(w, i)
  }

  /** In a quiet state no source waits for a sink after it has sent its signal. */
  lemma NobodyAwaited(plant: Plant, w: World, i: Uid, k: Uid, nodes: seq<Node>)
    requires Alive(w) && Quiet(w) && i in w.sources && Asked(w, i) && Called(w, i) && k in w.sinks && Shape(i, k, nodes)
    requires SignalOn(w.net, i, k, nodes, Packet(i, DrainSignal)) && AckOn(w, i, k, nodes)
    ensures k !in w.sources[i].started
  {
    assert Live(w, i);
    forall j: nat ensures !OnHop(w.net, nodes, j, Packet(i, DrainSignal)) {
    }
  }

  lemma QuietCalled(w: World, i: Uid)
    requires Alive(w) && Quiet(w) && i in w.sources && Asked(w, i) && !w.sources[i].isAsync
    ensures Called(w, i)
  {
    assert Live(w, i);
  }

  lemma AllTheWay(plant: Plant, s: Uid, k: Uid) returns (nodes: seq<Node>)
    requires WellFormed(plant.topo) && Feeds(plant.topo, SourceNode(s), k)
    ensures Walk(plant.topo, s, k, nodes) && Distinct(nodes)
  {
    nodes := FeedsMeansWalk(plant.topo, s, k);
    nodes := Simplified(plant.topo, s, k, nodes);
  }

  /** What is known of a run that nobody has interfered with since everything was up. */
  ghost predicate Undisturbed(plant: Plant, run: Run, m: nat, n: nat) {
    && Mirrored(plant) && WellFormed(plant.topo) && IsRun(plant, run) && m <= n < |run.states| && Up(plant, run.states[m])
    && (forall j :: m <= j < n ==> !run.steps[j].Operator?)
  }

  lemma NoSourceWaits(plant: Plant, run: Run, m: nat, n: nat, i: Uid)
    requires Undisturbed(plant, run, m, n) && Quiet(run.states[n]) && i in run.states[n].sources && Asked(run.states[n], i)
    requires AllCalled(run.states[n])
    ensures run.states[n].sources[i].started == {}
  {
    var w := run.states[n];
    if k :| k in w.sources[i].started {
      AlwaysStartedHeard(plant, run, n);
      AlwaysHomed(plant, run, n);
      assert k in Heard(w, i);
      SinksAreThere(plant, run, m, n, i, k);
      var nodes := AllTheWay(plant, i, k);
      AlwaysAlive(plant, run, m, n);
      if !w.sources[i].isAsync {
        QuietCalled(w, i);
      }
      AlwaysSignalOn(plant, run, n, i, k, nodes, Packet(i, DrainSignal));
      AlwaysAckOn(plant, run, m, n, i, k, nodes);
      NobodyAwaited(plant, w, i, k, nodes);
    }
  }

  /** Sinks that a source feeds exist, and the source has heard of them. */
  lemma {:induction false} SinksAreThere(plant: Plant, run: Run, m: nat, n: nat, i: Uid, k: Uid)
    requires Undisturbed(plant, run, m, n) && i in run.states[n].sources && Feeds(plant.topo, SourceNode(i), k)
    ensures k in run.states[n].sinks && k in Heard(run.states[n], i)
  {
    if m == n {
      assert SourceUp(plant, run.states[m], i);
    } else {
      assert Moves(plant, run, n - 1);
      StepKeys(plant, run.states[n - 1], run.steps[n - 1]);
      SourcesStay(plant, run.states[n - 1], run.steps[n - 1], i);
      SinksAreThere(plant, run, m, n - 1, i, k);
    }
  }

  lemma NoSinkWaits(plant: Plant, run: Run, m: nat, n: nat, k: Uid)
    requires Undisturbed(plant, run, m, n) && Quiet(run.states[n]) && AllCalled(run.states[n]) && k in run.states[n].sinks
    requires forall i :: i in run.states[n].sources ==> Asked(run.states[n], i)
    ensures !run.states[n].sinks[k].channel
  {
    var w := run.states[n];
    AlwaysAlive(plant, run, m, n);
    assert Live(w, k);
    if w.sinks[k].channel {
      var s :| s in w.sinks[k].starts && s !in w.sinks[k].drains;
      HasDrained(plant, run, m, n, s, k);
    }
  }

  /** In a quiet state every source that has started for a sink has drained for it. */
  lemma HasDrained(plant: Plant, run: Run, m: nat, n: nat, s: Uid, k: Uid)
    requires Undisturbed(plant, run, m, n) && Quiet(run.states[n]) && k in run.states[n].sinks
             && s in run.states[n].sinks[k].starts
    requires AllCalled(run.states[n]) && forall i :: i in run.states[n].sources ==> Asked(run.states[n], i)
    ensures s in run.states[n].sinks[k].drains
  {
    var w := run.states[n];
    AlwaysSourced(plant, run, n);
    assert s in w.sources.Keys && Reachable(plant.topo, s, SinkNode(k));
    ReachableFeeds(plant.topo, s, k);
    SinksAreThere(plant, run, m, n, s, k);
    NoSourceWaits(plant, run, m, n, s);
    AlwaysInvariant(plant, run, n);
    assert Accounted(w, s);
    AlwaysRemembers(plant, run, n);
  }

  /** In a quiet state every connector whose parts wait for nobody has answered. */
  lemma Answers(w: World, i: Uid)
    requires Alive(w) && Quiet(w) && i in w.connectors && Asked(w, i)
    requires i in w.sources ==> w.sources[i].started == {}
    requires i in w.sinks ==> !w.sinks[i].channel
    ensures i in w.answers
  {
    assert Live(w, i);
    assert w.connectors[i].phase == C.Draining;
    var d := w.connectors[i].drainage.value;
    assert d.source == C.Done by {
      if i in w.sources {
        assert Reporting(w, i);
      }
    }
    assert C.AllDrained(d);
  }

  /** The source of a connector that has answered has sent its signal, or waits for nobody. */
  lemma AnsweredMeansCalled(w: World, i: Uid)
    requires Alive(w) && i in w.sources && i in w.answers
    ensures Called(w, i)
  {
    assert Live(w, i);
    assert HasAnswered(w, i);
  }

  lemma AllAnswer(plant: Plant, run: Run, m: nat, n: nat)
    requires Undisturbed(plant, run, m, n) && Stuck(plant, run.states[n]) && AllCalled(run.states[n])
    requires run.states[n].asked == Some(run.states[n].connectors.Keys)
    ensures forall i :: i in run.states[n].connectors ==> i in run.states[n].answers
  {
    var w := run.states[n];
    AlwaysAlive(plant, run, m, n);
    StuckIsQuiet(plant, w);
    forall i | i in w.connectors
      ensures i in w.answers
    {
      if i in w.sources {
        NoSourceWaits(plant, run, m, n, i);
      }
      if i in w.sinks {
        NoSinkWaits(plant, run, m, n, i);
      }
      Answers(w, i);
    }
  }

  /**
   Where nothing can move any more, all have answered and the flow has told. From a state in which
   everything is up, and without operators who interfere, every run that ends in a state without internal
   steps, after all connectors were asked to drain, ends with answers of all connectors if and only if
   every source that streams asynchronously has sent its signal, or waits for nobody; and then the flow has
   told that it is drained. So draining never gets stuck, but for streams that do not end.
   */
  lemma StuckMeansTold(plant: Plant, run: Run, m: nat, n: nat)
    requires Undisturbed(plant, run, m, n) && Stuck(plant, run.states[n])
    requires var w := run.states[n]; w.connectors != map[] && w.asked == Some(w.connectors.Keys)
    ensures var w := run.states[n];
            && (AllCalled(w) <==> forall i :: i in w.connectors ==> i in w.answers)
            && (AllCalled(w) ==> w.told)
  {
    var w := run.states[n];
    if AllCalled(w) {
      AllAnswer(plant, run, m, n);
      EnoughAnswers(w.connectors.Keys, w.answers);
      AlwaysPrompt(plant, run, n);
    } else if forall i :: i in w.connectors ==> i in w.answers {
      AlwaysAlive(plant, run, m, n);
      forall i | i in w.sources
        ensures Called(w, i)
      {
        AnsweredMeansCalled(w, i);
      }
    }
  }

  lemma EnoughAnswers(asked: set<Uid>, answers: seq<Uid>)
    requires forall i :: i in asked ==> i in answers
    ensures |asked| <= |answers|
  {
    F.ElementsCount(answers);
    F.SubsetCount(asked, F.Elements(answers));
  }
}
