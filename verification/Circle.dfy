/**
 Circles. Where tasks are linked in a circle, contraflow and signals go round and round, so that without new
 input all runs end if and only if there is no circle.
 */
module Circles {
  import opened Protocol
  import opened Wrappers
  import opened Network
  import opened Quiescence
  import opened Playing
  import opened OneWay
  import opened Ending
  import S = SourceTask
  import K = SinkTask
  import C = ConnectorLoop
  import F = FlowLoop
  import D = DrainScenario

  ghost predicate EndsFrom(plant: Plant, w: World) {
    exists bound: nat :: Bounds(plant, w, bound)
  }

  ghost predicate Ends(plant: Plant) {
    forall w :: EndsFrom(plant, w)
  }

  /** A circle through `n` has two tasks at least. */
  ghost predicate Whirls(topo: Topology, n: Node) {
    exists d :: d != n && Leads(topo, n, d) && Leads(topo, d, n)
  }

  /** Task `n` can get something: contraflow, or signals that a task does not keep from itself. */
  ghost predicate Served(topo: Topology, n: Node) {
    (exists k :: Leads(topo, n, SinkNode(k))) || (Whirls(topo, n) && exists s :: Leads(topo, SourceNode(s), n))
  }

  /** Circles lead to sinks, or have two tasks and are fed by sources. */
  ghost predicate InUse(topo: Topology) {
    forall n :: Leads(topo, n, n) ==> Served(topo, n)
  }

  // ----- contraflow never ends

  /** A circle leads to `n`. */
  ghost predicate Bottomless(topo: Topology, n: Node) {
    exists c :: Leads(topo, c, c) && Leads(topo, c, n)
  }

  lemma OneBack(topo: Topology, c: Node, d: Node) returns (n: Node)
    requires Leads(topo, c, d)
    ensures d in Outs(topo, n) && (n == c || Leads(topo, c, n))
  {
    var nodes :| Path(topo, nodes) && nodes[0] == c && nodes[|nodes| - 1] == d;
    var last := |nodes| - 1;
    n := nodes[last - 1];
    if last > 1 {
      var shorter := nodes[..last];
      assert Path(topo, shorter) && shorter[|shorter| - 1] == n;
    }
  }

  /** A task that a circle leads to is fed by a pipeline that a circle leads to. */
  lemma Upstream(topo: Topology, d: Node) returns (n: Node)
    requires WellFormed(topo) && Bottomless(topo, d)
    ensures d in Outs(topo, n) && n.PipeNode? && Bottomless(topo, n)
  {
    var c :| Leads(topo, c, c) && Leads(topo, c, d);
    n := OneBack(topo, c, d);
    assert Bottomless(topo, n);
    var before := OneBack(topo, c, n);
    assert MayFeed(before, n) && MayFeed(n, d);
  }

  /** Contraflow waits at a pipeline that a circle leads to. */
  ghost predicate Circling(plant: Plant, w: World, p: nat) {
    Bottomless(plant.topo, PipeNode(p)) && Contraflow(w.contraflow, p) != []
  }

  lemma Reached(plant: Plant, cf: map<nat, seq<CbAction>>, takers: seq<Node>, cb: CbAction, n: Node)
    requires n in takers && n.PipeNode?
    ensures Contraflow(ToPipes(cf, takers, cb), n.pid) != []
  {
    ToPipesHas(cf, takers, cb);
    assert cb in Contraflow(ToPipes(cf, takers, cb), n.pid);
  }

  lemma GoesRound(plant: Plant, run: Run, p: nat) returns (more: Run, q: nat)
    requires Mirrored(plant) && WellFormed(plant.topo) && IsRun(plant, run) && Circling(plant, Last(run), p)
    ensures IsRun(plant, more) && |more.steps| == |run.steps| + 1 && Continues(run, |run.steps|, more)
            && Circling(plant, Last(more), q)
  {
    var w := Last(run);
    var n := Upstream(plant.topo, PipeNode(p));
    more := OneMore(plant, run, PipeReturns(p, Inputs(plant, p)));
    q := n.pid;
    Reached(plant, w.contraflow[p := Contraflow(w.contraflow, p)[1..]], Inputs(plant, p), Contraflow(w.contraflow, p)[0], n);
  }

  lemma {:induction false} GoesRoundAndRound(plant: Plant, run: Run, p: nat, times: nat) returns (more: Run)
    requires Mirrored(plant) && WellFormed(plant.topo) && IsRun(plant, run) && Circling(plant, Last(run), p)
    ensures IsRun(plant, more) && |more.steps| == |run.steps| + times && Continues(run, |run.steps|, more)
    decreases times
  {
    if times == 0 {
      more := run;
    } else {
      var next, q := GoesRound(plant, run, p);
      more := GoesRoundAndRound(plant, next, q, times - 1);
      ContinuesOn(run, next, more);
    }
  }

  function OneSink(k: Uid): World {
    World(EMPTY, map[], map[], map[], map[k := K.Fresh(k)], map[], map[], F.Flow(F.Initializing, 0, []), [], false,
          map[], map[], {}, {}, None, [])
  }

  /** A sink behind a circle says something. */
  lemma Begins(plant: Plant, k: Uid) returns (run: Run, p: nat)
    requires Mirrored(plant) && WellFormed(plant.topo) && Bottomless(plant.topo, SinkNode(k))
    ensures IsRun(plant, run) && Circling(plant, Last(run), p)
  {
    var w, step := OneSink(k), SinkReplies(k, Trigger);
    var n := Upstream(plant.topo, SinkNode(k));
    run := Run([w, Apply(plant, w, step)], [step]);
    assert Moves(plant, run, 0);
    p := n.pid;
    Reached(plant, w.contraflow, Pipes(plant, k), Trigger, n);
  }

  // ----- nor do signals

  lemma LeadsThrough(topo: Topology, a: Node, b: Node, c: Node)
    requires Leads(topo, a, b) && Leads(topo, b, c)
    ensures Leads(topo, a, c)
  {
    var xs :| Path(topo, xs) && xs[0] == a && xs[|xs| - 1] == b;
    var ys :| Path(topo, ys) && ys[0] == b && ys[|ys| - 1] == c;
    var both := xs + ys[1..];
    forall i | 0 < i < |both|
      ensures both[i] in Outs(topo, both[i - 1])
    {
      if i < |xs| {
        assert xs[i] in Outs(topo, xs[i - 1]);
      } else {
        assert both[i] == ys[i - |xs| + 1] && both[i - 1] == ys[i - |xs|];
      }
    }
    assert Path(topo, both);
  }

  /** The first task of a path that is another one. */
  lemma {:induction false} OneOn(topo: Topology, nodes: seq<Node>) returns (d: Node)
    requires Path(topo, nodes) && nodes[0] != nodes[|nodes| - 1]
    ensures d in Outs(topo, nodes[0]) && d != nodes[0] && (d == nodes[|nodes| - 1] || Leads(topo, d, nodes[|nodes| - 1]))
    decreases |nodes|
  {
    assert nodes[1] in Outs(topo, nodes[1 - 1]);
    if nodes[1] == nodes[0] {
      PathRest(topo, nodes);
      d := OneOn(topo, nodes[1..]);
    } else {
      d := nodes[1];
      if |nodes| > 2 {
        PathRest(topo, nodes);
      }
    }
  }

  lemma PathRest(topo: Topology, nodes: seq<Node>)
    requires Path(topo, nodes) && |nodes| > 2
    ensures Path(topo, nodes[1..])
  {
    forall i | 0 < i < |nodes[1..]|
      ensures nodes[1..][i] in Outs(topo, nodes[1..][i - 1])
    {
      assert nodes[i + 1] in Outs(topo, nodes[(i + 1) - 1]);
    }
  }

  lemma LeadsOne(topo: Topology, n: Node, c: Node) returns (d: Node)
    requires Leads(topo, n, c) && n != c
    ensures d in Outs(topo, n) && d != n && (d == c || Leads(topo, d, c))
  {
    var nodes :| Path(topo, nodes) && nodes[0] == n && nodes[|nodes| - 1] == c;
    d := OneOn(topo, nodes);
  }

  /** From `n` one gets to a circle of two tasks at least. */
  ghost predicate Caught(topo: Topology, n: Node) {
    exists c :: Whirls(topo, c) && (n == c || Leads(topo, n, c))
  }

  /** A task with a way to such a circle feeds another such task. */
  lemma Onwards(topo: Topology, n: Node) returns (d: Node)
    requires Caught(topo, n)
    ensures d in Outs(topo, n) && d != n && Caught(topo, d)
  {
    var c :| Whirls(topo, c) && (n == c || Leads(topo, n, c));
    if n != c {
      d := LeadsOne(topo, n, c);
    } else {
      var e :| e != c && Leads(topo, c, e) && Leads(topo, e, c);
      d := LeadsOne(topo, c, e);
      if d != e {
        LeadsThrough(topo, d, e, c);
      }
    }
  }

  lemma CaughtPipe(topo: Topology, n: Node, d: Node)
    requires WellFormed(topo) && d in Outs(topo, n) && Caught(topo, d)
    ensures d.PipeNode?
  {
    var next := Onwards(topo, d);
    assert MayFeed(n, d) && MayFeed(d, next);
  }

  /** Signal `x` waits at a task with a way to a circle, or is about to get there. */
  ghost predicate Waits(topo: Topology, net: Net, x: Item, p: nat) {
    Caught(topo, PipeNode(p)) && x in Inbox(net, PipeNode(p))
  }

  ghost predicate Sets(topo: Topology, net: Net, x: Item, n: Node, p: nat) {
    Caught(topo, PipeNode(p)) && (PipeNode(p), x) in Outbox(net, n)
  }

  ghost predicate Whirling(topo: Topology, net: Net, x: Item) {
    (exists p :: Waits(topo, net, x, p)) || (exists n, p :: Sets(topo, net, x, n, p))
  }

  lemma DeliverWhirls(topo: Topology, net: Net, x: Item, n: Node, p: nat)
    requires Sets(topo, net, x, n, p)
    ensures Whirling(topo, Deliver(net, n), x)
  {
    var net' := Deliver(net, n);
    assert Outbox(net, n) == [Outbox(net, n)[0]] + Outbox(net, n)[1..];
    if Outbox(net, n)[0] == (PipeNode(p), x) {
      assert Waits(topo, net', x, p);
    } else {
      assert Sets(topo, net', x, n, p);
    }
  }

  lemma PassesOnwards(topo: Topology, n: Node, x: Item) returns (p: nat)
    requires WellFormed(topo) && Caught(topo, n) && x.Packet? && !x.body.Data?
    ensures Caught(topo, PipeNode(p)) && (PipeNode(p), x) in Copies(topo, n, 0, x)
  {
    var d := Onwards(topo, n);
    CaughtPipe(topo, n, d);
    SignalCarried(topo, n, d, x);
    CarriedCopy(topo, n, d, x);
    p := d.pid;
  }

  lemma ForwardKeeps(topo: Topology, net: Net, p: nat)
    requires Inbox(net, PipeNode(p)) != []
    ensures var n, net' := PipeNode(p), Forward(topo, net, p);
            && (forall y :: y in Inbox(net, n) ==> y == Inbox(net, n)[0] || y in Inbox(net', n))
            && (forall e :: e in Copies(topo, n, 0, Inbox(net, n)[0]) ==> e in Outbox(net', n))
  {
    assert Inbox(net, PipeNode(p)) == [Inbox(net, PipeNode(p))[0]] + Inbox(net, PipeNode(p))[1..];
  }

  lemma ForwardWhirls(topo: Topology, net: Net, x: Item, p: nat)
    requires WellFormed(topo) && Waits(topo, net, x, p) && x.Packet? && !x.body.Data?
    ensures Whirling(topo, Forward(topo, net, p), x)
  {
    ForwardKeeps(topo, net, p);
    if Inbox(net, PipeNode(p))[0] == x {
      var q := PassesOnwards(topo, PipeNode(p), x);
      assert Sets(topo, Forward(topo, net, p), x, PipeNode(p), q);
    } else {
      assert Waits(topo, Forward(topo, net, p), x, p);
    }
  }

  lemma WhirlStep(plant: Plant, w: World, x: Item) returns (step: Step)
    requires WellFormed(plant.topo) && Whirling(plant.topo, w.net, x) && x.Packet? && !x.body.Data?
    ensures (step.PipeForwards? || step.Delivers?) && Enabled(plant, w, step)
            && Whirling(plant.topo, Apply(plant, w, step).net, x)
  {
    if p :| Waits(plant.topo, w.net, x, p) {
      step := PipeForwards(p);
      ForwardWhirls(plant.topo, w.net, x, p);
    } else {
      var n, p :| Sets(plant.topo, w.net, x, n, p);
      step := Delivers(n);
      DeliverWhirls(plant.topo, w.net, x, n, p);
    }
  }

  lemma WhirlsOn(plant: Plant, run: Run, x: Item) returns (more: Run)
    requires WellFormed(plant.topo) && IsRun(plant, run) && Whirling(plant.topo, Last(run).net, x) && x.Packet? && !x.body.Data?
    ensures IsRun(plant, more) && |more.steps| == |run.steps| + 1 && Continues(run, |run.steps|, more)
    ensures Whirling(plant.topo, Last(more).net, x)
  {
    var step := WhirlStep(plant, Last(run), x);
    more := OneMore(plant, run, step);
  }

  lemma {:induction false} WhirlsOnAndOn(plant: Plant, run: Run, x: Item, times: nat) returns (more: Run)
    requires WellFormed(plant.topo) && IsRun(plant, run) && Whirling(plant.topo, Last(run).net, x) && x.Packet? && !x.body.Data?
    ensures IsRun(plant, more) && |more.steps| == |run.steps| + times && Continues(run, |run.steps|, more)
    decreases times
  {
    if times == 0 {
      more := run;
    } else {
      var next := WhirlsOn(plant, run, x);
      more := WhirlsOnAndOn(plant, next, x, times - 1);
      ContinuesOn(run, next, more);
    }
  }

  function OneSource(s: Uid): World {
    World(EMPTY, map[s := S.Fresh(s, false)], map[], map[], map[], map[s := C.Fresh(true, false)], map[],
          F.Flow(F.Initializing, 0, []), [], false, map[], map[], {}, {}, None, [])
  }

  /** A source before a circle starts. */
  lemma Starts(plant: Plant, s: Uid) returns (run: Run)
    requires WellFormed(plant.topo) && Caught(plant.topo, SourceNode(s))
    ensures IsRun(plant, run) && Whirling(plant.topo, Last(run).net, Packet(s, StartSignal))
  {
    var w, n, x := OneSource(s), SourceNode(s), Packet(s, StartSignal);
    var a := D.Boots(plant, w, s);
    assert [] + [StartSource] == [StartSource];
    var b := D.SourceStarts(plant, a, s);
    Then(plant, w, a, b);
    run := AsRun(plant, w, b);
    var d := Onwards(plant.topo, n);
    CaughtPipe(plant.topo, n, d);
    SignalCarried(plant.topo, n, d, x);
    D.EmitReaches(plant.topo, a.net, s, StartSignal, d);
    assert Sets(plant.topo, b.net, x, n, d.pid);
  }

  lemma WhirlNeverEnds(plant: Plant, s: Uid)
    requires WellFormed(plant.topo) && Caught(plant.topo, SourceNode(s))
    ensures !Ends(plant)
  {
    var run := Starts(plant, s);
    forall bound: nat
      ensures !Bounds(plant, Last(run), bound)
    {
      var more := WhirlsOnAndOn(plant, run, Packet(s, StartSignal), bound + 1);
      var n := |run.steps|;
      assert more.states[..n + 1][n] == run.states[..n + 1][n];
    }
    assert !EndsFrom(plant, Last(run));
  }

  lemma CircleNeverEnds(plant: Plant, c: Node, k: Uid)
    requires Mirrored(plant) && WellFormed(plant.topo) && Leads(plant.topo, c, c) && Leads(plant.topo, c, SinkNode(k))
    ensures !Ends(plant)
  {
    var run, p := Begins(plant, k);
    forall bound: nat
      ensures !Bounds(plant, Last(run), bound)
    {
      var more := GoesRoundAndRound(plant, run, p, bound + 1);
      var n := |run.steps|;
      assert more.states[..n + 1][n] == run.states[..n + 1][n];
    }
    assert !EndsFrom(plant, Last(run));
  }

  /**
   Without new input all runs end if and only if tasks are not linked in a circle. Left aside are circles that
   lead to no sink and either have one task only or are not fed by a source.
   */
  lemma EndsIff(plant: Plant)
    requires Mirrored(plant) && WellFormed(plant.topo) && InUse(plant.topo)
    ensures Ends(plant) <==> !Circular(plant.topo)
  {
    if Circular(plant.topo) {
      var c :| Leads(plant.topo, c, c);
      assert Served(plant.topo, c);
      if k :| Leads(plant.topo, c, SinkNode(k)) {
        CircleNeverEnds(plant, c, k);
      } else {
        var s :| Leads(plant.topo, SourceNode(s), c);
        WhirlNeverEnds(plant, s);
      }
    } else {
      forall w
        ensures EndsFrom(plant, w)
      {
        var bound := EveryRunEnds(plant, w);
      }
    }
  }
}
