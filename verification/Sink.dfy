/**
 The sink task. `SinkManager` holds the fields of the running task and changes them in place; the
 functions before it say what each message does to those fields.
 */
module SinkTask {
  import opened Protocol

  datatype Phase = Initialized | Running | Paused | Draining | Drained | Stopped

  datatype Sink = Sink(
    uid: Uid,
    phase: Phase,
    starts: set<Uid>,     // sources whose start signal arrived
    drains: set<Uid>,     // sources whose drain signal arrived
    channel: bool)        // is a drain request still to be answered?

  datatype Effect = Insight(cb: CbAction) | ReportDrained

  datatype AckKind = AckNone | AckOk | AckFail

  /** What the sink implementation makes of an event or a signal. */
  datatype Outcome = Replied(cb: CbAction, ack: AckKind) | Errored

  function Fresh(uid: Uid): Sink {
    Sink(uid, Initialized, {}, {}, false)
  }

  /** Contraflow for one reply; `autoAck` acknowledges where the implementation says nothing. */
  function Replies(o: Outcome, autoAck: bool): seq<Effect>
    requires o.Replied?
  {
    (if o.cb == NoAction then [] else [Insight(o.cb)]) +
    (match o.ack
     case AckOk => [Insight(Ack)]
     case AckFail => [Insight(Fail)]
     case AckNone => if autoAck then [Insight(Ack)] else [])
  }

  function OnEvent(o: Outcome, transactional: bool, autoAck: bool): seq<Effect> {
    if o.Replied? then Replies(o, transactional && autoAck)
    else if transactional then [Insight(Fail)]
    else []
  }

  function OnDrain(k: Sink): (Sink, seq<Effect>) {
    match k.phase
    case Draining => (k, [])
    case Drained => (k, [ReportDrained])
    case _ =>
      if k.starts <= k.drains then (k.(phase := Drained, channel := false), [ReportDrained])
      else (k.(phase := Draining, channel := true), [])
  }

  function OnControl(k: Sink, msg: SinkControl): (Sink, seq<Effect>) {
    match msg
    case LinkSink => (k, [])
    case StartSink => if k.phase == Initialized then (k.(phase := Running), [Insight(SinkStart(k.uid))]) else (k, [])
    case ConnectSink => (k, [])
    case PauseSink => (if k.phase == Running then k.(phase := Paused) else k, [])
    case ResumeSink => (if k.phase == Paused then k.(phase := Running) else k, [])
    case StopSink => (k.(phase := Stopped), [])
    case DrainSink => OnDrain(k)
    case SinkConnected => (k, [Insight(Restore)])
    case SinkDisconnected => (k, [Insight(Trigger)])
  }

  function OnSignal(k: Sink, source: Uid, body: Body): (Sink, seq<Effect>) {
    match body
    case Data(_) => (k, [])
    case StartSignal => (k.(starts := k.starts + {source}), [])
    case DrainSignal =>
      var drains := k.drains + {source};
      var all := k.starts <= drains;
      (if all then k.(drains := drains, phase := Drained, channel := false) else k.(drains := drains),
       (if all && k.channel then [ReportDrained] else []) + [Insight(DrainedBy(source, k.uid))])
  }

  /** Handling one inbox entry; `o`, `transactional` and `autoAck` matter for events and signals only. */
  function OnItem(k: Sink, x: Item, o: Outcome, transactional: bool, autoAck: bool): (Sink, seq<Effect>) {
    match x
    case Control(msg) => OnControl(k, msg)
    case Packet(source, body) =>
      var (k', effects) := OnSignal(k, source, body);
      (k', effects + if body.Data? then OnEvent(o, transactional, autoAck)
                     else if o.Replied? then Replies(o, false)
                     else [])
  }

  // ----- the running sink

  class SinkManager {
    const uid: Uid
    var phase: Phase
    var starts: set<Uid>
    var drains: set<Uid>
    var channel: bool

    ghost function View(): Sink
      reads this
    {
      Sink(uid, phase, starts, drains, channel)
    }

    constructor (uid: Uid)
      ensures View() == Fresh(uid)
    {
      this.uid := uid;
      phase, starts, drains, channel := Initialized, {}, {}, false;
    }

    method HandleReplies(o: Outcome, autoAck: bool) returns (effects: seq<Effect>)
      requires o.Replied?
      ensures effects == Replies(o, autoAck)
    {
      effects := [];
      if o.cb != NoAction {
        effects := effects + [Insight(o.cb)];
      }
      if o.ack == AckOk || (o.ack == AckNone && autoAck) {
        effects := effects + [Insight(Ack)];
      } else if o.ack == AckFail {
        effects := effects + [Insight(Fail)];
      }
    }

    method TakeChannel() returns (effects: seq<Effect>)
      modifies this
      ensures View() == old(View()).(phase := Drained, channel := false)
      ensures effects == if old(channel) then [ReportDrained] else []
    {
      phase := Drained;
      effects := if channel then [ReportDrained] else [];
      channel := false;
    }

    method HandleControl(msg: SinkControl) returns (effects: seq<Effect>, terminate: bool)
      modifies this
      ensures (View(), effects) == OnControl(old(View()), msg) && terminate == msg.StopSink?
    {
      effects, terminate := [], false;
      match msg {
        case LinkSink =>
        case ConnectSink =>
        case StartSink =>
          if phase == Initialized {
            phase := Running;
            effects := [Insight(SinkStart(uid))];
          }
        case PauseSink =>
          if phase == Running {
            phase := Paused;
          }
        case ResumeSink =>
          if phase == Paused {
            phase := Running;
          }
        case StopSink =>
          phase := Stopped;
          terminate := true;
        case DrainSink =>
          if phase == Drained {
            effects := [ReportDrained];
          } else if phase != Draining {
            phase := Draining;
            channel := true;
            if starts <= drains {
              effects := TakeChannel();
            }
          }
        case SinkConnected =>
          effects := [Insight(Restore)];
        case SinkDisconnected =>
          effects := [Insight(Trigger)];
      }
    }

    method HandleItem(x: Item, o: Outcome, transactional: bool, autoAck: bool) returns (effects: seq<Effect>, terminate: bool)
      modifies this
      ensures (View(), effects) == OnItem(old(View()), x, o, transactional, autoAck)
      ensures terminate == (x == Control(StopSink))
    {
      effects, terminate := [], false;
      match x {
        case Control(msg) =>
          effects, terminate := HandleControl(msg);
        case Packet(source, body) =>
          match body {
            case Data(_) =>
            case StartSignal =>
              starts := starts + {source};
            case DrainSignal =>
              drains := drains + {source};
              if starts <= drains {
                effects := TakeChannel();
              }
              effects := effects + [Insight(DrainedBy(source, uid))];
          }
          var replies := [];
          if o.Replied? {
            replies := HandleReplies(o, body.Data? && transactional && autoAck);
          } else if body.Data? && transactional {
            replies := [Insight(Fail)];
          }
          effects := effects + replies;
      }
    }
  }

  // ----- one message, at most three insights

  function Insights(effects: seq<Effect>): nat {
    if effects == [] then 0 else (if effects[0].Insight? then 1 else 0) + Insights(effects[1..])
  }

  lemma {:induction false} InsightsAppend(xs: seq<Effect>, ys: seq<Effect>)
    ensures Insights(xs + ys) == Insights(xs) + Insights(ys)
  {
    if xs == [] {
      assert xs + ys == ys;
    } else {
      InsightsAppend(xs[1..], ys);
      assert (xs + ys)[1..] == xs[1..] + ys;
    }
  }

  /**
   Contraflow arises only while a message is handled: at most two insights for an event, one for
   a control message, three for a signal.
   */
  lemma InsightBound(k: Sink, x: Item, o: Outcome, transactional: bool, autoAck: bool)
    ensures var n := Insights(OnItem(k, x, o, transactional, autoAck).1);
            n <= if x.Control? then 1 else if x.body.Data? then 2 else 3
  {
    match x
    case Control(msg) =>
    case Packet(source, body) =>
      var own := OnSignal(k, source, body).1;
      var replied := if body.Data? then OnEvent(o, transactional, autoAck)
                     else if o.Replied? then Replies(o, false)
                     else [];
      InsightsAppend(own, replied);
      if body.DrainSignal? {
        var report := if k.starts <= k.drains + {source} && k.channel then [ReportDrained] else [];
        InsightsAppend(report, [Insight(DrainedBy(source, k.uid))]);
      }
      assert Insights(replied) <= 2 by {
        if o.Replied? {
          RepliesBound(o, transactional && autoAck);
          RepliesBound(o, false);
        }
      }
  }

  lemma RepliesBound(o: Outcome, autoAck: bool)
    requires o.Replied?
    ensures Insights(Replies(o, autoAck)) <= 2
  {
    var first := if o.cb == NoAction then [] else [Insight(o.cb)];
    InsightsAppend(first, Replies(o, autoAck)[|first|..]);
    assert Replies(o, autoAck) == first + Replies(o, autoAck)[|first|..];
  }

  // ----- what a sink says, insight by insight

  /** How often `e` is among the effects of one input. */
  ghost function Often(k: Sink, x: Item, o: Outcome, transactional: bool, autoAck: bool, e: Effect): nat {
    multiset(OnItem(k, x, o, transactional, autoAck).1)[e]
  }

  predicate IsEvent(x: Item) {
    x.Packet? && x.body.Data?
  }

  /** The implementation says `cb` by itself. */
  predicate Says(x: Item, o: Outcome, cb: CbAction) {
    x.Packet? && o.Replied? && o.cb == cb && cb != NoAction
  }

  lemma MultisetAppend(a: seq<Effect>, b: seq<Effect>, e: Effect)
    ensures multiset(a + b)[e] == multiset(a)[e] + multiset(b)[e]
  {
  }

  lemma Single(f: Effect, e: Effect)
    ensures multiset([f])[e] == if e == f then 1 else 0
  {
  }

  lemma SingleIf(given: seq<Effect>, c: bool, f: Effect, e: Effect)
    requires given == if c then [f] else []
    ensures multiset(given)[e] == if c && e == f then 1 else 0
  {
    Single(f, e);
  }

  lemma RepliesParts(o: Outcome, autoAck: bool) returns (said: seq<Effect>, acks: seq<Effect>, fails: seq<Effect>)
    requires o.Replied?
    ensures Replies(o, autoAck) == said + (acks + fails)
    ensures said == (if o.cb != NoAction then [Insight(o.cb)] else [])
    ensures acks == (if o.ack == AckOk || (o.ack == AckNone && autoAck) then [Insight(Ack)] else [])
    ensures fails == (if o.ack == AckFail then [Insight(Fail)] else [])
  {
    said := if o.cb != NoAction then [Insight(o.cb)] else [];
    acks := if o.ack == AckOk || (o.ack == AckNone && autoAck) then [Insight(Ack)] else [];
    fails := if o.ack == AckFail then [Insight(Fail)] else [];
    assert [] + fails == fails && acks + [] == acks;
  }

  lemma RepliesOften(o: Outcome, autoAck: bool, e: Effect)
    requires o.Replied?
    ensures multiset(Replies(o, autoAck))[e]
            == (if o.cb != NoAction && e == Insight(o.cb) then 1 else 0)
               + (if e == Insight(Ack) && (o.ack == AckOk || (o.ack == AckNone && autoAck)) then 1 else 0)
               + (if e == Insight(Fail) && o.ack == AckFail then 1 else 0)
  {
    var said, acks, fails := RepliesParts(o, autoAck);
    MultisetAppend(said, acks + fails, e);
    MultisetAppend(acks, fails, e);
    SingleIf(said, o.cb != NoAction, Insight(o.cb), e);
    SingleIf(acks, o.ack == AckOk || (o.ack == AckNone && autoAck), Insight(Ack), e);
    SingleIf(fails, o.ack == AckFail, Insight(Fail), e);
  }

  /** What an event gets from the runtime, apart from what the implementation says by itself. */
  lemma EventOften(o: Outcome, transactional: bool, autoAck: bool, e: Effect)
    ensures multiset(OnEvent(o, transactional, autoAck))[e]
            == (if o.Replied? && o.cb != NoAction && e == Insight(o.cb) then 1 else 0)
               + (if e == Insight(Ack) && Delivered(o, transactional, autoAck) then 1 else 0)
               + (if e == Insight(Fail) && Failed(o, transactional) then 1 else 0)
  {
    if o.Replied? {
      RepliesOften(o, transactional && autoAck, e);
    }
  }

  /** The implementation acknowledged the event, or said nothing about a transactional one and the sink acknowledges by itself. */
  predicate Delivered(o: Outcome, transactional: bool, autoAck: bool) {
    o.Replied? && (o.ack == AckOk || (o.ack == AckNone && transactional && autoAck))
  }

  /** The implementation said that the event failed, or gave an error for a transactional one. */
  predicate Failed(o: Outcome, transactional: bool) {
    if o.Replied? then o.ack == AckFail else transactional
  }

  /** For an event: what the implementation says, one acknowledgement if it was delivered, and one failure if it failed. */
  lemma EventIff(k: Sink, x: Item, o: Outcome, transactional: bool, autoAck: bool, e: Effect)
    requires IsEvent(x)
    ensures Often(k, x, o, transactional, autoAck, e)
            == (if e.Insight? && Says(x, o, e.cb) then 1 else 0)
               + (if e == Insight(Ack) && Delivered(o, transactional, autoAck) then 1 else 0)
               + (if e == Insight(Fail) && Failed(o, transactional) then 1 else 0)
  {
    EventOften(o, transactional, autoAck, e);
    assert [] + OnEvent(o, transactional, autoAck) == OnEvent(o, transactional, autoAck);
  }

  /**
   Every transactional event at a sink that acknowledges by itself gets exactly one answer, either an acknowledgement or a
   failure, and an acknowledgement exactly when the implementation did not report a failure.
   */
  lemma AnsweredOnce(k: Sink, x: Item, o: Outcome)
    requires IsEvent(x) && (o.Replied? ==> o.cb != Ack && o.cb != Fail)
    ensures var acks, fails := Often(k, x, o, true, true, Insight(Ack)), Often(k, x, o, true, true, Insight(Fail));
            acks + fails == 1 && (acks == 1 <==> o.Replied? && o.ack != AckFail)
  {
    EventIff(k, x, o, true, true, Insight(Ack));
    EventIff(k, x, o, true, true, Insight(Fail));
  }

  /** For a signal: what the implementation says and answers, and the drain acknowledged; nothing is acknowledged by itself. */
  lemma SignalIff(k: Sink, x: Item, o: Outcome, transactional: bool, autoAck: bool, e: Effect)
    requires x.Packet? && !IsEvent(x) && e.Insight?
    ensures Often(k, x, o, transactional, autoAck, e)
            == (if Says(x, o, e.cb) then 1 else 0)
               + (if e == Insight(Ack) && o.Replied? && o.ack == AckOk then 1 else 0)
               + (if e == Insight(Fail) && o.Replied? && o.ack == AckFail then 1 else 0)
               + (if x.body.DrainSignal? && e == Insight(DrainedBy(x.origin, k.uid)) then 1 else 0)
  {
    var own := OnSignal(k, x.origin, x.body).1;
    var replied := if o.Replied? then Replies(o, false) else [];
    MultisetAppend(own, replied, e);
    OwnOften(k, x.origin, x.body, e);
    if o.Replied? {
      RepliesOften(o, false, e);
    }
  }

  lemma OwnOften(k: Sink, source: Uid, body: Body, e: Effect)
    requires e.Insight? && !body.Data?
    ensures multiset(OnSignal(k, source, body).1)[e] == if body.DrainSignal?
            && e == Insight(DrainedBy(source, k.uid)) then 1 else 0
  {
    if body.DrainSignal? {
      var all := k.starts <= k.drains + {source};
      var report := if all && k.channel then [ReportDrained] else [];
      MultisetAppend(report, [Insight(DrainedBy(source, k.uid))], e);
      Single(Insight(DrainedBy(source, k.uid)), e);
      Single(ReportDrained, e);
    }
  }

  /** What is said about the drain comes first, the report before all; what the implementation says comes before its answer. */
  lemma Order(k: Sink, x: Item, o: Outcome, transactional: bool, autoAck: bool)
    requires x.Packet?
    ensures var es := OnItem(k, x, o, transactional, autoAck).1;
            && (ReportDrained in es ==> es[0] == ReportDrained)
            && (x.body.DrainSignal? ==> Insight(DrainedBy(x.origin, k.uid)) == es[if ReportDrained in es then 1 else 0])
            && (!x.body.DrainSignal? && o.Replied? && Says(x, o, o.cb) ==> es[0] == Insight(o.cb))
  {
    if o.Replied? {
      RepliesNoReport(o, transactional && autoAck);
      RepliesNoReport(o, false);
    }
  }

  /** For a control message: a sink announces itself when it starts, and its connection closes or opens the circuit breaker. */
  lemma ControlIff(k: Sink, x: Item, o: Outcome, transactional: bool, autoAck: bool, e: Effect)
    requires x.Control? && e.Insight?
    ensures Often(k, x, o, transactional, autoAck, e)
            == if || (x.msg == StartSink && k.phase == Initialized && e.cb == SinkStart(k.uid))
                  || (x.msg == SinkConnected && e.cb == Restore)
                  || (x.msg == SinkDisconnected && e.cb == Trigger) then 1 else 0
  {
  }

  // ----- runs

  datatype Input = Input(x: Item, o: Outcome, transactional: bool, autoAck: bool)

  function Step(k: Sink, input: Input): (Sink, seq<Effect>) {
    OnItem(k, input.x, input.o, input.transactional, input.autoAck)
  }

  datatype Run = Run(states: seq<Sink>, inputs: seq<Input>)

  ghost predicate Shaped(run: Run) {
    |run.states| == |run.inputs| + 1
  }

  ghost predicate Moves(run: Run, i: nat)
    requires Shaped(run) && i < |run.inputs|
  {
    run.states[i].phase != Stopped && run.states[i + 1] == Step(run.states[i], run.inputs[i]).0
  }

  ghost predicate IsRun(run: Run) {
    Shaped(run) && run.states[0] == Fresh(run.states[0].uid) && forall i :: 0 <= i < |run.inputs| ==> Moves(run, i)
  }

  /** A drain request that is not ignored. */
  predicate Accepts(k: Sink, input: Input) {
    input.x == Control(DrainSink) && k.phase != Draining
  }

  predicate Reports(k: Sink, input: Input) {
    ReportDrained in Step(k, input).1
  }

  ghost function Accepted(run: Run, n: nat): nat
    requires Shaped(run) && n <= |run.inputs|
  {
    if n == 0 then 0 else Accepted(run, n - 1) + if Accepts(run.states[n - 1], run.inputs[n - 1]) then 1 else 0
  }

  ghost function Reported(run: Run, n: nat): nat
    requires Shaped(run) && n <= |run.inputs|
  {
    if n == 0 then 0 else Reported(run, n - 1) + if Reports(run.states[n - 1], run.inputs[n - 1]) then 1 else 0
  }

  /** A request waits for an answer exactly while some started source has not drained. */
  ghost predicate Waits(k: Sink) {
    && (k.phase == Draining ==> k.channel && !(k.starts <= k.drains))
    && (k.channel ==> k.phase == Draining || k.phase == Stopped)
  }

  lemma RepliesNoReport(o: Outcome, autoAck: bool)
    requires o.Replied?
    ensures ReportDrained !in Replies(o, autoAck)
  {
  }

  lemma ReportsIff(k: Sink, input: Input)
    requires Waits(k) && k.phase != Stopped
    ensures Waits(Step(k, input).0)
    ensures (if Reports(k, input) then 1 else 0) + (if Step(k, input).0.channel then 1 else 0)
            == (if k.channel then 1 else 0) + (if Accepts(k, input) then 1 else 0)
  {
    if input.o.Replied? {
      RepliesNoReport(input.o, input.transactional && input.autoAck);
      RepliesNoReport(input.o, false);
    }
    match input.x
    case Control(msg) =>
    case Packet(source, body) =>
  }

  /**
   In every run, reports sent and requests still stored add up to the drain requests that were
   not ignored; the sink is draining only while some started source has not drained.
   */
  lemma {:induction false} DrainAccounting(run: Run, n: nat)
    requires IsRun(run) && n < |run.states|
    ensures Waits(run.states[n])
    ensures Reported(run, n) + (if run.states[n].channel then 1 else 0) == Accepted(run, n)
  {
    if n > 0 {
      DrainAccounting(run, n - 1);
      assert Moves(run, n - 1);
      ReportsIff(run.states[n - 1], run.inputs[n - 1]);
    }
  }

  // ----- what the fields stand for

  lemma SinkStartedStep(k: Sink, input: Input, s: Uid)
    ensures var t := Step(k, input).0;
            && (s in t.starts <==> s in k.starts || input.x == Packet(s, StartSignal))
            && (s in t.drains <==> s in k.drains || input.x == Packet(s, DrainSignal))
  {
    match input.x
    case Control(msg) =>
    case Packet(source, body) =>
  }

  ghost predicate HandledBefore(run: Run, n: nat, x: Item)
    requires Shaped(run) && n <= |run.inputs|
  {
    exists i :: 0 <= i < n && run.inputs[i].x == x
  }

  /** In every run the sources that started, and those that drained, are those whose signals were handled. */
  lemma {:induction false} SignalsAreRemembered(run: Run, n: nat, s: Uid)
    requires IsRun(run) && n < |run.states|
    ensures s in run.states[n].starts <==> HandledBefore(run, n, Packet(s, StartSignal))
    ensures s in run.states[n].drains <==> HandledBefore(run, n, Packet(s, DrainSignal))
  {
    if n > 0 {
      SignalsAreRemembered(run, n - 1, s);
      assert Moves(run, n - 1);
      SinkStartedStep(run.states[n - 1], run.inputs[n - 1], s);
      RememberedStep(run, n - 1, Packet(s, StartSignal));
      RememberedStep(run, n - 1, Packet(s, DrainSignal));
    }
  }

  lemma RememberedStep(run: Run, n: nat, x: Item)
    requires Shaped(run) && n < |run.inputs|
    ensures HandledBefore(run, n + 1, x) <==> HandledBefore(run, n, x) || run.inputs[n].x == x
  {
    if HandledBefore(run, n, x) {
      var i :| 0 <= i < n && run.inputs[i].x == x;
      assert i < n + 1;
    }
  }

  /** The last source that had started drains with this input. */
  predicate AllDrain(k: Sink, input: Input) {
    input.x.Packet? && input.x.body.DrainSignal? && k.starts <= k.drains + {input.x.origin}
  }

  /** Neither a control message of `msgs` nor the drain signal that completes all. */
  predicate Unmoved(k: Sink, input: Input, msgs: set<SinkControl>) {
    !AllDrain(k, input) && (input.x.Control? ==> input.x.msg !in msgs)
  }

  /** The phases one by one: each is where it was unless a message says otherwise. */
  lemma SinkPhaseIff(k: Sink, input: Input)
    requires k.phase != Stopped
    ensures Step(k, input).0.phase == Initialized
            <==> k.phase == Initialized && Unmoved(k, input, {StartSink, StopSink, DrainSink})
    ensures Step(k, input).0.phase == Running
            <==> || (input.x == Control(StartSink) && k.phase == Initialized)
                 || (input.x == Control(ResumeSink) && k.phase == Paused)
                 || (k.phase == Running && Unmoved(k, input, {PauseSink, StopSink, DrainSink}))
    ensures Step(k, input).0.phase == Paused
            <==> || (input.x == Control(PauseSink) && k.phase == Running)
                 || (k.phase == Paused && Unmoved(k, input, {ResumeSink, StopSink, DrainSink}))
    ensures Step(k, input).0.phase == Draining
            <==> || (k.phase == Draining && Unmoved(k, input, {StopSink}))
                 || (k.phase !in {Draining, Drained} && input.x == Control(DrainSink) && !(k.starts <= k.drains))
    ensures Step(k, input).0.phase == Stopped <==> input.x == Control(StopSink)
  {
    match input.x
    case Control(msg) =>
    case Packet(source, body) =>
  }

  /**
   A sink reports that it is drained although a started source has not drained in exactly one
   situation: it is asked again after it had drained, and that source started in between.
   */
  lemma HastyReport(k: Sink, input: Input)
    requires Waits(k) && k.phase != Stopped
    ensures var k' := Step(k, input).0;
            Reports(k, input) && !(k'.starts <= k'.drains)
            <==> input.x == Control(DrainSink) && k.phase == Drained && !(k.starts <= k.drains)
  {
    if input.o.Replied? {
      RepliesNoReport(input.o, input.transactional && input.autoAck);
      RepliesNoReport(input.o, false);
    }
    match input.x
    case Control(msg) =>
    case Packet(source, body) =>
  }

  /** Such a run: source 1 starts and drains, source 2 starts, and the sink is asked to drain. */
  lemma ReportsTooEarly() returns (run: Run)
    ensures IsRun(run) && |run.inputs| == 5 && Reports(run.states[4], run.inputs[4])
    ensures 2 in run.states[5].starts && 2 !in run.states[5].drains
  {
    var items := [Control(StartSink), Packet(1, StartSignal), Packet(1, DrainSignal), Packet(2, StartSignal), Control(DrainSink)];
    var inputs := seq(5, i requires 0 <= i < 5 => Input(items[i], Errored, false, false));
    var s0 := Fresh(0);
    var s1 := s0.(phase := Running);
    var s2 := s1.(starts := {1});
    var s3 := s2.(drains := {1}, phase := Drained);
    var s4 := s3.(starts := {1, 2});
    assert {} + {1} == {1} && {1} + {2} == {1, 2};
    run := Run([s0, s1, s2, s3, s4, s4], inputs);
    assert Moves(run, 0) && Moves(run, 1) && Moves(run, 2) && Moves(run, 3) && Moves(run, 4);
  }

  lemma KeepsUid(k: Sink, input: Input)
    ensures Step(k, input).0.uid == k.uid
  {
  }

  /** Apart from what the implementation replies, a sink acknowledges exactly the drain signals it handles. */
  lemma AcknowledgesDrain(k: Sink, input: Input, source: Uid, sink: Uid)
    requires input.o.Replied? ==> input.o.cb != DrainedBy(source, sink)
    ensures Insight(DrainedBy(source, sink)) in Step(k, input).1
            <==> input.x == Packet(source, DrainSignal) && sink == k.uid
  {
    match input.x
    case Control(msg) =>
    case Packet(s, body) =>
      var own := OnSignal(k, s, body).1;
      assert Insight(DrainedBy(source, sink)) in own <==> body.DrainSignal? && s == source && sink == k.uid by {
        if body.DrainSignal? {
          assert own[|own| - 1] == Insight(DrainedBy(s, k.uid));
        }
      }
  }
}
