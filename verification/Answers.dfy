/**
 How often connectors answer. A connector with a source answers at most as often as its source reports
 to be drained, one with a sink alone answers at most once.
 */
module AnswerCount {
  import opened Protocol
  import opened Wrappers
  import opened Network
  import opened Quiescence
  import S = SourceTask
  import K = SinkTask
  import C = ConnectorLoop
  import F = FlowLoop

  /** How often `x` occurs. */
  ghost function Times<T>(xs: seq<T>, x: T): nat {
    if xs == [] then 0 else (if xs[0] == x then 1 else 0) + Times(xs[1..], x)
  }

  lemma {:induction false} TimesAppend<T>(a: seq<T>, b: seq<T>, x: T)
    ensures Times(a + b, x) == Times(a, x) + Times(b, x)
  {
    if a == [] {
      assert a + b == b;
    } else {
      TimesAppend(a[1..], b, x);
      assert (a + b)[1..] == a[1..] + b;
    }
  }

  lemma TimesOne<T>(y: T, x: T)
    ensures Times([y], x) == if x == y then 1 else 0
  {
    assert [y][1..] == [];
  }

  lemma TimesMore<T>(a: seq<T>, y: T, x: T)
    ensures Times(a + [y], x) == Times(a, x) + if x == y then 1 else 0
  {
    TimesAppend(a, [y], x);
    assert [y][1..] == [];
  }

  lemma {:induction false} TimesNone<T>(xs: seq<T>, x: T)
    ensures Times(xs, x) == 0 <==> x !in xs
  {
    if xs != [] {
      TimesNone(xs[1..], x);
      assert xs == [xs[0]] + xs[1..];
    }
  }

  /** In this step source `i` reports to be drained. */
  predicate Tells(w: World, step: Step, i: Uid) {
    && i in w.sources
    && match step
       case SourceTakes(j) => j == i && SourceIn(w, i) != [] && S.ReportDrained in S.OnMsg(w.sources[i], SourceIn(w, i)[0]).1
       case SourcePulls(j, reply) => j == i && S.ReportDrained in S.OnReply(w.sources[i], reply).1
       case _ => false
  }

  /** How often source `i` has reported. */
  ghost function Reports(run: Run, n: nat, i: Uid): nat
    requires Shaped(run) && n < |run.states|
  {
    if n == 0 then 0 else Reports(run, n - 1, i) + if Tells(run.states[n - 1], run.steps[n - 1], i) then 1 else 0
  }

  /** What concerns a connector in its own inbox and in the inbox of its sink part. */
  ghost function MailClaims(mail: seq<C.Msg>): nat {
    Times(mail, C.SourceDrained) + Times(mail, C.SinkDrained)
  }

  /** Requests that the sink part has still to take, or to answer. */
  ghost function Demands(inbox: seq<Item>, channel: bool): nat {
    Times(inbox, Control(DrainSink)) + if channel then 1 else 0
  }

  ghost predicate Waiting(w: World, i: Uid) {
    i in w.sinks && w.sinks[i].channel
  }

  ghost function Given(w: World, i: Uid): nat {
    Times(w.results, i) + Times(w.answers, i)
  }

  /** Everything that may still become an answer of connector `i`, and its answers. */
  ghost function Claims(w: World, i: Uid): nat {
    Given(w, i) + MailClaims(ConnectorIn(w, i)) + Demands(Inbox(w.net, SinkNode(i)), Waiting(w, i))
  }

  ghost function Requests(w: World, i: Uid): nat {
    Times(ConnectorIn(w, i), C.Drain) + if w.asked.None? then 1 else 0
  }

  // ----- what goes with it

  ghost predicate Matched(w: World) {
    && (forall i :: i in w.connectors && i in w.sources ==> w.connectors[i].hasSource)
    && (forall k :: k in w.sinks ==> K.Waits(w.sinks[k]))
    && Packets(w.net)
  }

  ghost predicate Modest(w: World, i: Uid, reports: nat) {
    i in w.connectors ==>
      && (w.connectors[i].hasSource ==> Claims(w, i) <= reports)
      && (!w.connectors[i].hasSource && w.connectors[i].hasSink ==> Claims(w, i) + Requests(w, i) <= 1)
  }

  // ----- one message to a connector

  lemma OtherEffects(c: C.Connector, msg: C.Msg)
    requires msg !in {C.Drain, C.SourceDrained, C.SinkDrained}
    ensures C.AnswerDrain !in C.OnMsg(c, msg).1 && C.ToSink(DrainSink) !in C.OnMsg(c, msg).1
    ensures forall m :: C.ToSelf(m) !in C.OnMsg(c, msg).1
  {
    if C.ToSink(DrainSink) in C.OnMsg(c, msg).1 {
      C.SinkDrainStep(c, msg);
    }
    if C.AnswerDrain in C.OnMsg(c, msg).1 {
      NoOtherAnswer(c, msg);
    }
    forall m ensures C.ToSelf(m) !in C.OnMsg(c, msg).1 {
      C.OtherSelfMessages(c, msg, m);
    }
  }

  lemma NoOtherAnswer(c: C.Connector, msg: C.Msg)
    requires msg !in {C.Drain, C.SourceDrained, C.SinkDrained}
    ensures C.AnswerDrain !in C.OnMsg(c, msg).1
  {
  }

  /** What the effects of one message add to the claims of its connector. */
  ghost function Adds(effects: seq<C.Effect>): nat {
    (if C.AnswerDrain in effects then 1 else 0) + Times(ToSelf(effects), C.SourceDrained)
    + Times(ToSelf(effects), C.SinkDrained) + Times(ToSink(effects), DrainSink)
  }

  lemma {:induction false} ToSinkMember(effects: seq<C.Effect>, msg: SinkControl)
    ensures msg in ToSink(effects) <==> C.ToSink(msg) in effects
  {
    if effects != [] {
      ToSinkMember(effects[1..], msg);
      assert effects == [effects[0]] + effects[1..];
    }
  }

  lemma AddsOne(e: C.Effect)
    ensures Adds([e]) <= 1
  {
    assert [e][1..] == [];
    assert ToSelf([]) == [] && ToSink([]) == [];
    if e.ToSelf? {
      TimesOne(e.msg, C.SourceDrained);
      TimesOne(e.msg, C.SinkDrained);
    } else if e.ToSink? {
      TimesOne(e.sink, DrainSink);
    }
  }

  lemma AddsNone(effects: seq<C.Effect>)
    requires C.AnswerDrain !in effects && C.ToSink(DrainSink) !in effects && forall m :: C.ToSelf(m) !in effects
    ensures Adds(effects) == 0
  {
    ToSelfMember(effects, C.SourceDrained);
    ToSelfMember(effects, C.SinkDrained);
    ToSinkMember(effects, DrainSink);
    TimesNone(ToSelf(effects), C.SourceDrained);
    TimesNone(ToSelf(effects), C.SinkDrained);
    TimesNone(ToSink(effects), DrainSink);
  }

  lemma AddsWhat(c: C.Connector, msg: C.Msg)
    requires c.hasSource || c.hasSink
    ensures Adds(C.OnMsg(c, msg).1)
            <= if msg == C.SourceDrained || msg == C.SinkDrained || (msg == C.Drain && !c.hasSource) then 1 else 0
  {
    var effects := C.OnMsg(c, msg).1;
    if msg !in {C.Drain, C.SourceDrained, C.SinkDrained} {
      OtherEffects(c, msg);
      AddsNone(effects);
    } else if effects != [] {
      assert effects == [effects[0]];
      if msg == C.Drain && c.hasSource {
        AddsNone(effects);
      } else {
        AddsOne(effects[0]);
      }
    } else {
      AddsNone(effects);
    }
  }

  lemma {:induction false} InjectAllTimes(net: Net, k: Uid, msgs: seq<SinkControl>, m: SinkControl)
    ensures Times(Inbox(InjectAll(net, k, msgs), SinkNode(k)), Control(m))
            == Times(Inbox(net, SinkNode(k)), Control(m)) + Times(msgs, m)
    ensures forall n :: n != SinkNode(k) ==> Inbox(InjectAll(net, k, msgs), n) == Inbox(net, n)
    ensures InjectAll(net, k, msgs).out == net.out
    decreases |msgs|
  {
    if msgs != [] {
      InjectAllTimes(Inject(net, k, msgs[0]), k, msgs[1..], m);
      TimesMore(Inbox(net, SinkNode(k)), Control(msgs[0]), Control(m));
    }
  }

  lemma ConnectorTookClaims(w: World, i: Uid)
    requires i in w.connectors && ConnectorIn(w, i) != []
    ensures var msg, c := ConnectorIn(w, i)[0], w.connectors[i];
            var gone := if msg == C.SourceDrained || msg == C.SinkDrained then 1 else 0;
            Claims(ConnectorTook(w, i), i) + gone == Claims(w, i) + Adds(C.OnMsg(c, msg).1)
  {
    var w', inbox := ConnectorTook(w, i), ConnectorIn(w, i);
    var effects := C.OnMsg(w.connectors[i], inbox[0]).1;
    InjectAllTimes(w.net, i, ToSink(effects), DrainSink);
    TimesAppend(inbox[1..], ToSelf(effects), C.SourceDrained);
    TimesAppend(inbox[1..], ToSelf(effects), C.SinkDrained);
    TimesMore(w.results, i, i);
  }

  lemma ConnectorTookRequests(w: World, i: Uid)
    requires i in w.connectors && ConnectorIn(w, i) != []
    ensures Requests(ConnectorTook(w, i), i) + (if ConnectorIn(w, i)[0] == C.Drain then 1 else 0) == Requests(w, i)
  {
    var inbox := ConnectorIn(w, i);
    var effects := C.OnMsg(w.connectors[i], inbox[0]).1;
    TimesAppend(inbox[1..], ToSelf(effects), C.Drain);
    ConnectorSends(w.connectors[i], inbox[0]);
    TimesNone(ToSelf(effects), C.Drain);
  }

  // ----- one step of anyone

  lemma MailMore(mail: seq<C.Msg>, msg: C.Msg)
    ensures MailClaims(mail + [msg]) == MailClaims(mail) + (if msg == C.SourceDrained || msg == C.SinkDrained then 1 else 0)
    ensures Times(mail + [msg], C.Drain) == Times(mail, C.Drain) + if msg == C.Drain then 1 else 0
  {
    TimesMore(mail, msg, C.SourceDrained);
    TimesMore(mail, msg, C.SinkDrained);
    TimesMore(mail, msg, C.Drain);
  }

  /** Nothing that concerns connector `i` grew. */
  ghost predicate Shrinks(w: World, w': World, i: Uid) {
    && (i in w'.connectors ==> i in w.connectors && w'.connectors[i].hasSource == w.connectors[i].hasSource
                               && w'.connectors[i].hasSink == w.connectors[i].hasSink)
    && Claims(w', i) <= Claims(w, i) && Requests(w', i) <= Requests(w, i)
  }

  lemma ConnectorTookModest(w: World, j: Uid, i: Uid, reports: nat)
    requires Modest(w, i, reports) && j in w.connectors && ConnectorIn(w, j) != []
    ensures Modest(ConnectorTook(w, j), i, reports)
  {
    if i == j {
      var c, msg := w.connectors[i], ConnectorIn(w, i)[0];
      C.RecordStep(c, msg);
      ConnectorTookClaims(w, i);
      ConnectorTookRequests(w, i);
      if c.hasSource || c.hasSink {
        AddsWhat(c, msg);
      }
    } else {
      ConnectorTookElsewhere(w, j, i);
    }
  }

  lemma ConnectorTookElsewhere(w: World, j: Uid, i: Uid)
    requires i != j && j in w.connectors && ConnectorIn(w, j) != []
    ensures Shrinks(w, ConnectorTook(w, j), i)
  {
    var effects := C.OnMsg(w.connectors[j], ConnectorIn(w, j)[0]).1;
    InjectAllTimes(w.net, j, ToSink(effects), DrainSink);
    TimesMore(w.results, j, i);
  }

  lemma {:induction false} EmitAllInboxes(topo: Topology, net: Net, i: Uid, bodies: seq<Body>)
    ensures EmitAll(topo, net, i, bodies).inq == net.inq
    decreases |bodies|
  {
    if bodies != [] {
      EmitAllInboxes(topo, Emit(topo, net, i, bodies[0]), i, bodies[1..]);
    }
  }

  lemma WithSourceClaims(plant: Plant, w: World, j: Uid, s: S.Source, effects: seq<S.Effect>, i: Uid)
    ensures var w' := WithSource(plant, w, j, s, effects);
            && Claims(w', i) == Claims(w, i) + (if i == j && S.ReportDrained in effects then 1 else 0)
            && Requests(w', i) == Requests(w, i)
  {
    EmitAllInboxes(plant.topo, w.net, j, Bodies(effects));
    MailMore(ConnectorIn(w, j), C.SourceDrained);
  }

  lemma SourceTookModest(plant: Plant, w: World, j: Uid, i: Uid, reports: nat)
    requires Modest(w, i, reports) && Matched(w) && j in w.sources && SourceIn(w, j) != []
    ensures Modest(SourceTook(plant, w, j), i, reports + if Tells(w, SourceTakes(j), i) then 1 else 0)
  {
    var (s, effects) := S.OnMsg(w.sources[j], SourceIn(w, j)[0]);
    WithSourceClaims(plant, Taken(w, j), j, s, effects, i);
    assert Claims(Taken(w, j), i) == Claims(w, i);
  }

  lemma SourcePulledModest(plant: Plant, w: World, j: Uid, reply: S.Reply, i: Uid, reports: nat)
    requires Modest(w, i, reports) && Matched(w) && j in w.sources
    ensures Modest(SourcePulled(plant, w, j, reply), i, reports + if Tells(w, SourcePulls(j, reply), i) then 1 else 0)
  {
    var (s, effects) := S.OnReply(w.sources[j], reply);
    WithSourceClaims(plant, Marked(w, j, reply), j, s, effects, i);
    assert Claims(Marked(w, j, reply), i) == Claims(w, i);
  }

  lemma SinkTookShrinks(plant: Plant, w: World, k: Uid, o: K.Outcome, transactional: bool, autoAck: bool, i: Uid)
    requires Matched(w) && k in w.sinks && w.sinks[k].phase != K.Stopped && Inbox(w.net, SinkNode(k)) != []
    ensures Shrinks(w, SinkTook(plant, w, k, o, transactional, autoAck), i)
  {
    if i == k {
      var inbox := Inbox(w.net, SinkNode(k));
      K.ReportsIff(w.sinks[k], K.Input(inbox[0], o, transactional, autoAck));
      MailMore(ConnectorIn(w, k), C.SinkDrained);
    }
  }

  lemma DeliverShrinks(w: World, n: Node, i: Uid)
    requires Matched(w) && Outbox(w.net, n) != []
    ensures Shrinks(w, w.(net := Deliver(w.net, n)), i)
  {
    var e := Outbox(w.net, n)[0];
    assert e in Outbox(w.net, n);
    TimesMore(Inbox(w.net, SinkNode(i)), e.1, Control(DrainSink));
  }

  lemma ForwardShrinks(plant: Plant, w: World, p: nat, i: Uid)
    requires Inbox(w.net, PipeNode(p)) != []
    ensures Shrinks(w, w.(net := Forward(plant.topo, w.net, p)), i)
  {
  }

  lemma ToldShrinks(w: World, j: Uid, msg: C.Msg, i: Uid)
    requires msg !in {C.Drain, C.SourceDrained, C.SinkDrained}
    ensures Shrinks(w, ConnectorTold(w, j, msg), i)
  {
    MailMore(ConnectorIn(w, j), msg);
  }

  lemma AskedShrinks(w: World, alive: set<Uid>, i: Uid)
    requires w.asked.None?
    ensures Shrinks(w, FlowAsked(w, alive), i)
  {
    MailMore(ConnectorIn(w, i), C.Drain);
    assert ConnectorIn(w, i) + [] == ConnectorIn(w, i);
  }

  lemma FlowTookShrinks(w: World, i: Uid)
    requires w.results != []
    ensures Shrinks(w, FlowTook(w), i)
  {
    TimesMore(w.answers, w.results[0], i);
  }

  lemma OthersShrink(plant: Plant, w: World, step: Step, i: Uid)
    requires Matched(w) && Enabled(plant, w, step) && !TaskStep(step)
    ensures Shrinks(w, Apply(plant, w, step), i)
  {
    match step
    case Delivers(n) => DeliverShrinks(w, n, i);
    case PipeForwards(p) => ForwardShrinks(plant, w, p, i);
    case PipeReturns(p, takers) =>
    case SinkTakes(k, o, transactional, autoAck) => SinkTookShrinks(plant, w, k, o, transactional, autoAck, i);
    case SinkReplies(k, cb) =>
    case Operator(j, msg) => ToldShrinks(w, j, msg, i);
    case Wires(j, msg) =>
    case AsksFlow(alive) => AskedShrinks(w, alive, i);
    case FlowTakes => FlowTookShrinks(w, i);
  }

  lemma StepModest(plant: Plant, w: World, step: Step, i: Uid, reports: nat)
    requires Modest(w, i, reports) && Matched(w) && Enabled(plant, w, step)
    ensures Modest(Apply(plant, w, step), i, reports + if Tells(w, step, i) then 1 else 0)
  {
    match step
    case SourceTakes(j) => SourceTookModest(plant, w, j, i, reports);
    case SourcePulls(j, reply) => SourcePulledModest(plant, w, j, reply, i, reports);
    case ConnectorTakes(j) => ConnectorTookModest(w, j, i, reports);
    case _ => OthersShrink(plant, w, step, i);
  }

  // ----- the assumptions last

  ghost predicate Packets(net: Net) {
    forall n, e :: e in Outbox(net, n) ==> e.1.Packet?
  }

  lemma CopiesPackets(topo: Topology, net: Net, net': Net, n: Node, x: Item)
    requires Packets(net) && net'.out == net.out[n := Outbox(net, n) + Copies(topo, n, 0, x)]
    ensures Packets(net')
  {
    forall m, e | e in Outbox(net', m)
      ensures e.1.Packet?
    {
      if e !in Outbox(net, m) {
        CopiesTargets(topo, n, 0, x, e);
      }
    }
  }

  lemma {:induction false} EmitAllPackets(topo: Topology, net: Net, i: Uid, bodies: seq<Body>)
    requires Packets(net)
    ensures Packets(EmitAll(topo, net, i, bodies))
    decreases |bodies|
  {
    if bodies != [] {
      var mid := Emit(topo, net, i, bodies[0]);
      CopiesPackets(topo, net, mid, SourceNode(i), Packet(i, bodies[0]));
      EmitAllPackets(topo, mid, i, bodies[1..]);
    }
  }

  lemma DeliverPackets(net: Net, n: Node)
    requires Packets(net) && Outbox(net, n) != []
    ensures Packets(Deliver(net, n))
  {
    assert forall m, e :: e in Outbox(Deliver(net, n), m) ==> e in Outbox(net, m);
  }

  lemma ForwardPackets(topo: Topology, net: Net, p: nat)
    requires Packets(net) && Inbox(net, PipeNode(p)) != []
    ensures Packets(Forward(topo, net, p))
  {
    CopiesPackets(topo, net, Forward(topo, net, p), PipeNode(p), Inbox(net, PipeNode(p))[0]);
  }

  lemma SamePackets(net: Net, net': Net)
    requires Packets(net) && net'.out == net.out
    ensures Packets(net')
  {
    assert forall m :: Outbox(net', m) == Outbox(net, m);
  }

  lemma StepPackets(plant: Plant, w: World, step: Step)
    requires Packets(w.net) && Enabled(plant, w, step)
    ensures Packets(Apply(plant, w, step).net)
  {
    match step
    case SourceTakes(i) => EmitAllPackets(plant.topo, w.net, i, Bodies(S.OnMsg(w.sources[i], SourceIn(w, i)[0]).1));
    case SourcePulls(i, reply) => EmitAllPackets(plant.topo, w.net, i, Bodies(S.OnReply(w.sources[i], reply).1));
    case Delivers(n) => DeliverPackets(w.net, n);
    case PipeForwards(p) => ForwardPackets(plant.topo, w.net, p);
    case SinkTakes(k, o, transactional, autoAck) => SamePackets(w.net, Consume(w.net, k));
    case ConnectorTakes(i) =>
      InjectAllTimes(w.net, i, ToSink(C.OnMsg(w.connectors[i], ConnectorIn(w, i)[0]).1), DrainSink);
      SamePackets(w.net, Apply(plant, w, step).net);
    case _ =>
  }

  lemma StepWaits(plant: Plant, w: World, step: Step)
    requires Enabled(plant, w, step) && forall k :: k in w.sinks ==> K.Waits(w.sinks[k])
    ensures forall k :: k in Apply(plant, w, step).sinks ==> K.Waits(Apply(plant, w, step).sinks[k])
  {
    if step.SinkTakes? {
      K.ReportsIff(w.sinks[step.k], K.Input(Inbox(w.net, SinkNode(step.k))[0], step.o, step.transactional, step.autoAck));
    }
  }

  lemma StepParts(plant: Plant, w: World, step: Step)
    requires Enabled(plant, w, step) && forall i :: i in w.connectors && i in w.sources ==> w.connectors[i].hasSource
    ensures forall i :: i in Apply(plant, w, step).connectors && i in Apply(plant, w, step).sources
                        ==> Apply(plant, w, step).connectors[i].hasSource
  {
    if step.ConnectorTakes? {
      C.RecordStep(w.connectors[step.i], ConnectorIn(w, step.i)[0]);
    }
  }

  lemma {:induction false} AlwaysMatched(plant: Plant, run: Run, n: nat)
    requires IsRun(plant, run) && n < |run.states|
    ensures Matched(run.states[n])
  {
    if n > 0 {
      AlwaysMatched(plant, run, n - 1);
      assert Moves(plant, run, n - 1);
      var w, step := run.states[n - 1], run.steps[n - 1];
      StepPackets(plant, w, step);
      StepWaits(plant, w, step);
      StepParts(plant, w, step);
    }
  }

  // ----- in every run

  lemma {:induction false} AlwaysModest(plant: Plant, run: Run, n: nat, i: Uid)
    requires IsRun(plant, run) && n < |run.states|
    ensures Modest(run.states[n], i, Reports(run, n, i))
  {
    if n > 0 {
      AlwaysModest(plant, run, n - 1, i);
      AlwaysMatched(plant, run, n - 1);
      assert Moves(plant, run, n - 1);
      StepModest(plant, run.states[n - 1], run.steps[n - 1], i, Reports(run, n - 1, i));
    }
  }

  /**
   In every run a connector answers at most as often as its source has reported; a connector without
   a source but with a sink answers at most once.
   */
  lemma AnswersAtMost(plant: Plant, run: Run, n: nat, i: Uid)
    requires IsRun(plant, run) && n < |run.states| && i in run.states[n].connectors
    ensures var w := run.states[n];
            && (w.connectors[i].hasSource ==> Times(w.answers, i) <= Reports(run, n, i))
            && (!w.connectors[i].hasSource && w.connectors[i].hasSink ==> Times(w.answers, i) <= 1)
  {
    AlwaysModest(plant, run, n, i);
  }

  lemma {:induction false} OnceMeansNoRepeats(xs: seq<Uid>)
    requires forall x :: x in xs ==> Times(xs, x) <= 1
    ensures F.NoRepeats(xs)
  {
    forall i, j | 0 <= i < j < |xs|
      ensures xs[i] != xs[j]
    {
      var a, b := xs[..j], xs[j..];
      assert xs == a + b && xs[i] in a && xs[j] in b;
      TimesAppend(a, b, xs[i]);
      TimesNone(a, xs[i]);
      TimesNone(b, xs[i]);
    }
  }

  /** When no asked source reported twice and every asked connector has a part, no connector answered twice. */
  lemma AnswersDoNotRepeat(plant: Plant, run: Run, n: nat)
    requires IsRun(plant, run) && n < |run.states|
    requires forall i :: Asked(run.states[n], i) ==>
               && i in run.states[n].connectors
               && (run.states[n].connectors[i].hasSource || run.states[n].connectors[i].hasSink)
               && (run.states[n].connectors[i].hasSource ==> Reports(run, n, i) <= 1)
    ensures F.NoRepeats(run.states[n].answers)
  {
    var w := run.states[n];
    AlwaysInvariant(plant, run, n);
    forall i | i in w.answers
      ensures Times(w.answers, i) <= 1
    {
      assert Asked(w, i);
      AnswersAtMost(plant, run, n, i);
    }
    OnceMeansNoRepeats(w.answers);
  }
}
