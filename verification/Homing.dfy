/**
 Where contraflow comes from. Announcements and acknowledgements of a sink are only ever found at tasks
 that feed this sink, so a source hears only of sinks that it has a way to.
 */
module Homing {
  import opened Protocol
  import opened Wrappers
  import opened Network
  import opened Quiescence
  import opened Playing
  import opened OneWay
  import K = SinkTask
  import C = ConnectorLoop

  /** A way from task `n` to sink `k`. */
  ghost predicate Onward(topo: Topology, n: Node, k: Uid, tail: seq<Node>) {
    && tail != [] && tail[0] == n && tail[|tail| - 1] == SinkNode(k)
    && forall i :: 0 < i < |tail| ==> tail[i] in Outs(topo, tail[i - 1])
  }

  ghost predicate Feeds(topo: Topology, n: Node, k: Uid) {
    exists tail :: Onward(topo, n, k, tail)
  }

  lemma FeedsBack(topo: Topology, n: Node, d: Node, k: Uid)
    requires d in Outs(topo, n) && Feeds(topo, d, k)
    ensures Feeds(topo, n, k)
  {
    var tail :| Onward(topo, d, k, tail);
    var longer := [n] + tail;
    forall i | 0 < i < |longer|
      ensures longer[i] in Outs(topo, longer[i - 1])
    {
      if i > 1 {
        assert longer[i] == tail[i - 1] && longer[i - 1] == tail[(i - 1) - 1];
      }
    }
    assert Onward(topo, n, k, longer);
  }

  lemma FeedsNext(topo: Topology, n: Node, k: Uid)
    requires Feeds(topo, n, k)
    ensures n == SinkNode(k) || exists d :: d in Outs(topo, n) && Feeds(topo, d, k)
  {
    var tail :| Onward(topo, n, k, tail);
    if |tail| > 1 {
      var rest := tail[1..];
      forall i | 0 < i < |rest|
        ensures rest[i] in Outs(topo, rest[i - 1])
      {
        assert rest[i] == tail[i + 1] && rest[i - 1] == tail[(i + 1) - 1];
      }
      assert Onward(topo, tail[1], k, rest);
    }
  }

  lemma FeedsItself(topo: Topology, k: Uid)
    ensures Feeds(topo, SinkNode(k), k)
  {
    assert Onward(topo, SinkNode(k), k, [SinkNode(k)]);
  }

  lemma OnwardIsWalk(topo: Topology, s: Uid, k: Uid, nodes: seq<Node>)
    requires WellFormed(topo) && Onward(topo, SourceNode(s), k, nodes)
    ensures Walk(topo, s, k, nodes)
  {
    forall i | 0 < i < |nodes| - 1
      ensures nodes[i].PipeNode?
    {
      assert MayFeed(nodes[i - 1], nodes[i]);
      assert nodes[i + 1] in Outs(topo, nodes[(i + 1) - 1]);
      assert MayFeed(nodes[i], nodes[i + 1]);
    }
  }

  /** What feeds a sink, seen from a source, is a way to it. */
  lemma FeedsMeansWalk(topo: Topology, s: Uid, k: Uid) returns (nodes: seq<Node>)
    requires WellFormed(topo) && Feeds(topo, SourceNode(s), k)
    ensures Walk(topo, s, k, nodes)
  {
    nodes :| Onward(topo, SourceNode(s), k, nodes);
    OnwardIsWalk(topo, s, k, nodes);
  }

  /** Announcements and acknowledgements at `n` are of sinks that `n` feeds. */
  ghost predicate HomedAt(topo: Topology, n: Node, cb: CbAction) {
    Reserved(cb) ==> Feeds(topo, n, cb.sink)
  }

  ghost predicate HomedBack(topo: Topology, cf: map<nat, seq<CbAction>>) {
    forall p, cb :: cb in Contraflow(cf, p) ==> HomedAt(topo, PipeNode(p), cb)
  }

  ghost predicate HomedMail(topo: Topology, inboxes: map<Uid, seq<SourceMsg>>) {
    forall i, m :: m in Messages(inboxes, i) && m.Cb? ==> HomedAt(topo, SourceNode(i), m.cb)
  }

  ghost predicate HomedHeard(topo: Topology, w: World) {
    forall i, k :: k in Heard(w, i) ==> Feeds(topo, SourceNode(i), k)
  }

  ghost predicate Homed(plant: Plant, w: World) {
    HomedBack(plant.topo, w.contraflow) && HomedMail(plant.topo, w.sourceIn) && HomedHeard(plant.topo, w)
  }

  lemma {:induction false} ToPipesHomed(topo: Topology, cf: map<nat, seq<CbAction>>, takers: seq<Node>, cb: CbAction)
    requires HomedBack(topo, cf) && forall n :: n in takers ==> HomedAt(topo, n, cb)
    ensures HomedBack(topo, ToPipes(cf, takers, cb))
    decreases |takers|
  {
    if takers != [] {
      var n := takers[0];
      var next := if n.PipeNode? then cf[n.pid := Contraflow(cf, n.pid) + [cb]] else cf;
      assert forall m :: m in takers[1..] ==> m in takers;
      ToPipesHomed(topo, next, takers[1..], cb);
    }
  }

  lemma {:induction false} ToPipesEachHomed(topo: Topology, cf: map<nat, seq<CbAction>>, takers: seq<Node>, cbs: seq<CbAction>)
    requires HomedBack(topo, cf) && forall n, cb :: n in takers && cb in cbs ==> HomedAt(topo, n, cb)
    ensures HomedBack(topo, ToPipesEach(cf, takers, cbs))
    decreases |cbs|
  {
    if cbs != [] {
      assert forall cb :: cb in cbs[1..] ==> cb in cbs;
      ToPipesHomed(topo, cf, takers, cbs[0]);
      ToPipesEachHomed(topo, ToPipes(cf, takers, cbs[0]), takers, cbs[1..]);
    }
  }

  lemma {:induction false} ToSourcesHomed(topo: Topology, inboxes: map<Uid, seq<SourceMsg>>, takers: seq<Node>, cb: CbAction)
    requires HomedMail(topo, inboxes) && forall n :: n in takers ==> HomedAt(topo, n, cb)
    ensures HomedMail(topo, ToSources(inboxes, takers, cb))
    decreases |takers|
  {
    if takers != [] {
      var n := takers[0];
      var next := if n.SourceNode? then inboxes[n.uid := Messages(inboxes, n.uid) + [Cb(cb)]] else inboxes;
      assert forall m :: m in takers[1..] ==> m in takers;
      ToSourcesHomed(topo, next, takers[1..], cb);
    }
  }

  /** Contraflow that leaves a pipeline backwards. */
  lemma InputsHomed(plant: Plant, p: nat, takers: seq<Node>, cb: CbAction)
    requires Mirrored(plant) && multiset(takers) <= multiset(Inputs(plant, p)) && HomedAt(plant.topo, PipeNode(p), cb)
    ensures forall n :: n in takers ==> HomedAt(plant.topo, n, cb)
  {
    forall n | n in takers
      ensures HomedAt(plant.topo, n, cb)
    {
      assert n in multiset(takers);
      assert n in multiset(Inputs(plant, p));
      if Reserved(cb) {
        FeedsBack(plant.topo, n, PipeNode(p), cb.sink);
      }
    }
  }

  lemma RestHomed(topo: Topology, cf: map<nat, seq<CbAction>>, p: nat)
    requires HomedBack(topo, cf) && Contraflow(cf, p) != []
    ensures HomedBack(topo, cf[p := Contraflow(cf, p)[1..]]) && HomedAt(topo, PipeNode(p), Contraflow(cf, p)[0])
  {
    var rest := cf[p := Contraflow(cf, p)[1..]];
    assert Contraflow(cf, p)[0] in Contraflow(cf, p);
    assert forall q, c :: c in Contraflow(rest, q) ==> c in Contraflow(cf, q);
  }

  lemma PipeReturnedHomed(plant: Plant, w: World, p: nat, takers: seq<Node>)
    requires Mirrored(plant) && Homed(plant, w) && Contraflow(w.contraflow, p) != []
    requires multiset(takers) <= multiset(Inputs(plant, p))
    ensures Homed(plant, PipeReturned(w, p, takers))
  {
    var cb, rest := Contraflow(w.contraflow, p)[0], w.contraflow[p := Contraflow(w.contraflow, p)[1..]];
    RestHomed(plant.topo, w.contraflow, p);
    InputsHomed(plant, p, takers, cb);
    ToPipesHomed(plant.topo, rest, takers, cb);
    ToSourcesHomed(plant.topo, w.sourceIn, takers, cb);
    HeardHomed(plant.topo, w, PipeReturned(w, p, takers));
  }

  lemma HeardHomed(topo: Topology, w: World, w': World)
    requires HomedHeard(topo, w) && w'.heard == w.heard
    ensures HomedHeard(topo, w')
  {
    assert forall i :: Heard(w', i) == Heard(w, i);
  }

  /** A sink speaks of itself. */
  lemma OwnInsights(k: K.Sink, input: K.Input, cb: CbAction)
    requires K.Insight(cb) in K.Step(k, input).1 && Reserved(cb) && (input.o.Replied? ==> !Reserved(input.o.cb))
    ensures cb.sink == k.uid
  {
  }

  lemma PipesHomed(plant: Plant, k: Uid, cb: CbAction)
    requires Mirrored(plant) && (Reserved(cb) ==> cb.sink == k)
    ensures forall n :: n in Pipes(plant, k) ==> HomedAt(plant.topo, n, cb)
  {
    forall n | n in Pipes(plant, k)
      ensures HomedAt(plant.topo, n, cb)
    {
      FeedsItself(plant.topo, k);
      FeedsBack(plant.topo, n, SinkNode(k), k);
    }
  }

  lemma SinkTookHomed(plant: Plant, w: World, k: Uid, o: K.Outcome, transactional: bool, autoAck: bool)
    requires Mirrored(plant) && Homed(plant, w) && k in w.sinks && w.sinks[k].uid == k && Inbox(w.net, SinkNode(k)) != []
    requires o.Replied? ==> !Reserved(o.cb)
    ensures Homed(plant, SinkTook(plant, w, k, o, transactional, autoAck))
  {
    var input := K.Input(Inbox(w.net, SinkNode(k))[0], o, transactional, autoAck);
    var cbs := SinkInsights(K.Step(w.sinks[k], input).1);
    forall n, cb | n in Pipes(plant, k) && cb in cbs
      ensures HomedAt(plant.topo, n, cb)
    {
      SinkInsightsMember(K.Step(w.sinks[k], input).1, cb);
      if Reserved(cb) {
        OwnInsights(w.sinks[k], input, cb);
      }
      PipesHomed(plant, k, cb);
    }
    ToPipesEachHomed(plant.topo, w.contraflow, Pipes(plant, k), cbs);
    HomedSame(plant, w, SinkTook(plant, w, k, o, transactional, autoAck));
  }

  lemma HomedSame(plant: Plant, w: World, w': World)
    requires Homed(plant, w) && w'.sourceIn == w.sourceIn && w'.heard == w.heard && HomedBack(plant.topo, w'.contraflow)
    ensures Homed(plant, w')
  {
    assert forall i :: Heard(w', i) == Heard(w, i);
  }

  lemma SourceTookHomed(plant: Plant, w: World, i: Uid)
    requires Homed(plant, w) && i in w.sources && SourceIn(w, i) != []
    ensures Homed(plant, SourceTook(plant, w, i))
  {
    var w', msg := SourceTook(plant, w, i), SourceIn(w, i)[0];
    assert msg in Messages(w.sourceIn, i);
    assert forall j, m :: m in Messages(w'.sourceIn, j) ==> m in Messages(w.sourceIn, j);
    forall j, k | k in Heard(w', j)
      ensures Feeds(plant.topo, SourceNode(j), k)
    {
      if k !in Heard(w, j) {
        assert HomedAt(plant.topo, SourceNode(i), msg.cb);
      }
    }
  }

  lemma ConnectorTookHomed(plant: Plant, w: World, i: Uid)
    requires Homed(plant, w) && i in w.connectors && ConnectorIn(w, i) != []
    ensures Homed(plant, ConnectorTook(w, i))
  {
    var w', added := ConnectorTook(w, i), ToSource(C.OnMsg(w.connectors[i], ConnectorIn(w, i)[0]).1);
    forall j, m | m in Messages(w'.sourceIn, j) && m.Cb?
      ensures m in Messages(w.sourceIn, j)
    {
      ConnectorSendsNoCb(w.connectors[i], ConnectorIn(w, i)[0], m.cb);
    }
    assert forall j :: Heard(w', j) == Heard(w, j);
  }

  lemma WiredHomed(plant: Plant, w: World, i: Uid, msg: SourceMsg)
    requires Homed(plant, w) && !msg.Cb?
    ensures Homed(plant, SourceWired(w, i, msg))
  {
    var w' := SourceWired(w, i, msg);
    assert forall j, m :: m in Messages(w'.sourceIn, j) && m.Cb? ==> m in Messages(w.sourceIn, j);
    assert forall j :: Heard(w', j) == Heard(w, j);
  }

  lemma StepHomed(plant: Plant, w: World, step: Step)
    requires Mirrored(plant) && Homed(plant, w) && Enabled(plant, w, step) && forall k :: k in w.sinks ==> w.sinks[k].uid == k
    ensures Homed(plant, Apply(plant, w, step))
  {
    match step
    case SourceTakes(i) => SourceTookHomed(plant, w, i);
    case PipeReturns(p, takers) => PipeReturnedHomed(plant, w, p, takers);
    case SinkTakes(k, o, transactional, autoAck) => SinkTookHomed(plant, w, k, o, transactional, autoAck);
    case SinkReplies(k, cb) =>
      PipesHomed(plant, k, cb);
      ToPipesHomed(plant.topo, w.contraflow, Pipes(plant, k), cb);
      HomedSame(plant, w, Apply(plant, w, step));
    case ConnectorTakes(i) => ConnectorTookHomed(plant, w, i);
    case Wires(i, msg) => WiredHomed(plant, w, i, msg);
    case _ => HomedSame(plant, w, Apply(plant, w, step));
  }

  lemma {:induction false} AlwaysHomed(plant: Plant, run: Run, n: nat)
    requires Mirrored(plant) && IsRun(plant, run) && n < |run.states|
    ensures Homed(plant, run.states[n])
  {
    if n > 0 {
      AlwaysHomed(plant, run, n - 1);
      AlwaysInvariant(plant, run, n - 1);
      assert Moves(plant, run, n - 1);
      StepHomed(plant, run.states[n - 1], run.steps[n - 1]);
    }
  }

  /** In every run a source hears only of sinks that it has a way to. */
  lemma HearsOnlyOfItsSinks(plant: Plant, run: Run, n: nat, i: Uid, k: Uid) returns (nodes: seq<Node>)
    requires Mirrored(plant) && WellFormed(plant.topo) && IsRun(plant, run) && n < |run.states| && k in Heard(run.states[n], i)
    ensures Walk(plant.topo, i, k, nodes)
  {
    AlwaysHomed(plant, run, n);
    nodes := FeedsMeansWalk(plant.topo, i, k);
  }
}
