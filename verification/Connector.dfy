/**
 The control loop of a connector, as far as it concerns its two parts. `ConnectorTask` holds the
 fields of the loop and changes them in place.
 */
module ConnectorLoop {
  import opened Protocol
  import opened Wrappers

  datatype Phase = Initializing | Running | Paused | Draining | Failed | Stopped

  datatype PartState = Absent | Expected | Done

  datatype Drainage = Drainage(source: PartState, sink: PartState)

  datatype Connector = Connector(
    phase: Phase,
    connected: bool,
    hasSource: bool,
    hasSink: bool,
    drainage: Option<Drainage>,
    starting: bool)       // is a start request still to be answered?

  /** Results of library calls come with the message: `ok` of `on_start`, the outcome of a connection attempt. */
  datatype Msg =
    | Start(ok: bool)
    | ConnectionLost
    | Reconnect(connected: bool, willRetry: bool)
    | Pause
    | Resume
    | Drain
    | SourceDrained
    | SinkDrained
    | Stop

  datatype Effect =
    | ToSource(source: SourceMsg)
    | ToSink(sink: SinkControl)
    | ToSelf(msg: Msg)
    | ReconnectNow
    | ReconnectLater
    | AnswerStart(ok: bool)
    | AnswerDrain
    | AnswerStop

  function Fresh(hasSource: bool, hasSink: bool): Connector {
    Connector(Initializing, false, hasSource, hasSink, None, false)
  }

  function NewDrainage(c: Connector): Drainage {
    Drainage(if c.hasSource then Expected else Absent, if c.hasSink then Expected else Absent)
  }

  predicate AllDrained(d: Drainage) {
    d.source != Expected && d.sink != Expected
  }

  function SendSource(c: Connector, msg: SourceMsg): seq<Effect> {
    if c.hasSource then [ToSource(msg)] else []
  }

  function SendSink(c: Connector, msg: SinkControl): seq<Effect> {
    if c.hasSink then [ToSink(msg)] else []
  }

  function OnDrain(c: Connector): (Connector, seq<Effect>) {
    if c.phase == Draining then (c, [])
    else
      var d := NewDrainage(c);
      (c.(phase := Draining, drainage := Some(d)),
       [if c.hasSource then ToSource(DrainSource) else ToSelf(SourceDrained)] +
       (if AllDrained(d) then [AnswerDrain] else []))
  }

  function OnSourceDrained(c: Connector): (Connector, seq<Effect>) {
    if c.phase != Draining || c.drainage.None? then (c, [])
    else
      var d := c.drainage.value.(source := Done);
      (c.(drainage := Some(d)),
       if AllDrained(d) then [AnswerDrain]
       else if c.hasSink then [ToSink(DrainSink)]
       else [ToSelf(SinkDrained)])
  }

  function OnSinkDrained(c: Connector): (Connector, seq<Effect>) {
    if c.phase != Draining || c.drainage.None? then (c, [])
    else
      var d := c.drainage.value.(sink := Done);
      (c.(drainage := Some(d)), if AllDrained(d) then [AnswerDrain] else [])
  }

  function OnReconnect(c: Connector, connected: bool, willRetry: bool): (Connector, seq<Effect>) {
    var rises := !c.connected && connected;
    var falls := c.connected && !connected;
    var fails := !connected && !willRetry;
    (c.(connected := connected,
        phase := if fails then Failed else c.phase,
        starting := c.starting && !rises && !fails),
     (if rises then SendSink(c, SinkConnected) + SendSource(c, SourceConnected) + (if c.starting then [AnswerStart(true)] else [])
      else if falls then SendSink(c, SinkDisconnected) + SendSource(c, SourceDisconnected)
      else []) +
     (if fails && c.starting && !rises then [AnswerStart(false)] else []))
  }

  function OnMsg(c: Connector, msg: Msg): (Connector, seq<Effect>) {
    match msg
    case Start(ok) =>
      if c.phase == Initializing then
        (c.(phase := if ok then Running else Failed, starting := true),
         SendSource(c, StartSource) + SendSink(c, StartSink) + [ReconnectNow])
      else (c, if c.phase == Running && c.connected then [AnswerStart(true)] else [])
    case ConnectionLost =>
      (c.(connected := false),
       SendSink(c, SinkDisconnected) + SendSource(c, SourceDisconnected) + (if c.phase == Running then [ReconnectLater] else []))
    case Reconnect(connected, willRetry) => OnReconnect(c, connected, willRetry)
    case Pause =>
      if c.phase == Running then (c.(phase := Paused), SendSource(c, PauseSource) + SendSink(c, PauseSink)) else (c, [])
    case Resume =>
      if c.phase == Paused then
        (c.(phase := Running), SendSource(c, ResumeSource) + SendSink(c, ResumeSink) + if c.connected then [] else [ReconnectNow])
      else (c, [])
    case Drain => OnDrain(c)
    case SourceDrained => OnSourceDrained(c)
    case SinkDrained => OnSinkDrained(c)
    case Stop => (c.(phase := Stopped), SendSource(c, StopSource) + SendSink(c, StopSink) + [AnswerStop])
  }

  // ----- the loop itself, for the messages that matter to draining

  class ConnectorTask {
    const hasSource: bool
    const hasSink: bool
    var phase: Phase
    var connected: bool
    var starting: bool
    var drainage: Option<Drainage>

    ghost function View(): Connector
      reads this
    {
      Connector(phase, connected, hasSource, hasSink, drainage, starting)
    }

    constructor (hasSource: bool, hasSink: bool)
      ensures View() == Fresh(hasSource, hasSink)
    {
      this.hasSource, this.hasSink := hasSource, hasSink;
      phase, connected, starting, drainage := Initializing, false, false, None;
    }

    method HandleDrain() returns (effects: seq<Effect>)
      modifies this
      ensures (View(), effects) == OnDrain(old(View()))
    {
      if phase == Draining {
        return [];
      }
      phase := Draining;
      effects := [if hasSource then ToSource(DrainSource) else ToSelf(SourceDrained)];
      var d := Drainage(if hasSource then Expected else Absent, if hasSink then Expected else Absent);
      effects := effects + if d.source != Expected && d.sink != Expected then [AnswerDrain] else [];
      drainage := Some(d);
    }

    method HandleSourceDrained() returns (effects: seq<Effect>)
      modifies this
      ensures (View(), effects) == OnSourceDrained(old(View()))
    {
      effects := [];
      if phase == Draining && drainage.Some? {
        drainage := Some(drainage.value.(source := Done));
        if AllDrained(drainage.value) {
          effects := [AnswerDrain];
        } else if hasSink {
          effects := [ToSink(DrainSink)];
        } else {
          effects := [ToSelf(SinkDrained)];
        }
      }
    }

    method HandleSinkDrained() returns (effects: seq<Effect>)
      modifies this
      ensures (View(), effects) == OnSinkDrained(old(View()))
    {
      effects := [];
      if phase == Draining && drainage.Some? {
        drainage := Some(drainage.value.(sink := Done));
        if AllDrained(drainage.value) {
          effects := [AnswerDrain];
        }
      }
    }

    method HandleReconnect(now: bool, willRetry: bool) returns (effects: seq<Effect>)
      modifies this
      ensures (View(), effects) == OnReconnect(old(View()), now, willRetry)
    {
      effects := [];
      if !connected && now {
        effects := (if hasSink then [ToSink(SinkConnected)] else []) + if hasSource then [ToSource(SourceConnected)] else [];
        effects := effects + if starting then [AnswerStart(true)] else [];
        starting := false;
      } else if connected && !now {
        effects := (if hasSink then [ToSink(SinkDisconnected)] else [])
          + if hasSource then [ToSource(SourceDisconnected)] else [];
      }
      var given := [];
      if !now && !willRetry {
        phase := Failed;
        given := if starting then [AnswerStart(false)] else [];
        starting := false;
      }
      effects := effects + given;
      connected := now;
    }
  }

  // ----- runs

  datatype Run = Run(states: seq<Connector>, inputs: seq<Msg>)

  ghost predicate Shaped(run: Run) {
    |run.states| == |run.inputs| + 1
  }

  ghost predicate Moves(run: Run, i: nat)
    requires Shaped(run) && i < |run.inputs|
  {
    run.states[i].phase != Stopped && run.states[i + 1] == OnMsg(run.states[i], run.inputs[i]).0
  }

  ghost predicate IsRun(run: Run) {
    && Shaped(run)
    && run.states[0] == Fresh(run.states[0].hasSource, run.states[0].hasSink)
    && forall i :: 0 <= i < |run.inputs| ==> Moves(run, i)
  }

  ghost function EffectsAt(run: Run, i: nat): seq<Effect>
    requires Shaped(run) && i < |run.inputs|
  {
    OnMsg(run.states[i], run.inputs[i]).1
  }

  /** Step `i` takes a drain request that is not ignored. */
  ghost predicate Accepts(run: Run, i: nat)
    requires Shaped(run)
  {
    i < |run.inputs| && run.inputs[i] == Drain && run.states[i].phase != Draining
  }

  /** `msg` arrived among the inputs before `n`, after the last drain request that was not ignored. */
  ghost predicate HeardSince(run: Run, n: nat, msg: Msg)
    requires Shaped(run) && n <= |run.inputs|
  {
    exists j :: 0 <= j < n && run.inputs[j] == msg && NoDrainFrom(run, j, n)
  }

  ghost predicate NoDrainFrom(run: Run, j: nat, n: nat)
    requires Shaped(run) && n <= |run.inputs|
  {
    forall h :: j <= h < n ==> !Accepts(run, h)
  }

  /** What the drainage record stands for. */
  ghost predicate Honest(run: Run, n: nat)
    requires Shaped(run) && n <= |run.inputs|
  {
    var c := run.states[n];
    && c.hasSource == run.states[0].hasSource
    && c.hasSink == run.states[0].hasSink
    && (c.drainage.Some? ==>
          && (c.drainage.value.source == Absent ==> !c.hasSource)
          && (c.drainage.value.sink == Absent ==> !c.hasSink)
          && (c.drainage.value.source == Done ==> HeardSince(run, n, SourceDrained))
          && (c.drainage.value.sink == Done ==> HeardSince(run, n, SinkDrained)))
  }

  lemma StillHeard(run: Run, n: nat, msg: Msg)
    requires Shaped(run) && n < |run.inputs|
    requires HeardSince(run, n, msg) || run.inputs[n] == msg
    requires !Accepts(run, n)
    ensures HeardSince(run, n + 1, msg)
  {
    if run.inputs[n] == msg {
      assert NoDrainFrom(run, n, n + 1);
    } else {
      var j :| 0 <= j < n && run.inputs[j] == msg && NoDrainFrom(run, j, n);
      assert NoDrainFrom(run, j, n + 1);
    }
  }

  /** What one message does to the parts and to the record of what they reported. */
  lemma RecordStep(c: Connector, msg: Msg)
    ensures var c' := OnMsg(c, msg).0;
            && c'.hasSource == c.hasSource && c'.hasSink == c.hasSink
            && c'.drainage == if msg == Drain && c.phase != Draining then Some(NewDrainage(c))
                              else if c.phase != Draining || c.drainage.None? then c.drainage
                              else if msg == SourceDrained then Some(c.drainage.value.(source := Done))
                              else if msg == SinkDrained then Some(c.drainage.value.(sink := Done))
                              else c.drainage
  {
  }

  lemma HonestStep(run: Run, n: nat)
    requires Shaped(run) && n < |run.inputs| && Honest(run, n)
    requires run.states[n + 1] == OnMsg(run.states[n], run.inputs[n]).0
    ensures Honest(run, n + 1)
  {
    RecordStep(run.states[n], run.inputs[n]);
    if !Accepts(run, n) {
      if HeardSince(run, n, SourceDrained) || run.inputs[n] == SourceDrained {
        StillHeard(run, n, SourceDrained);
      }
      if HeardSince(run, n, SinkDrained) || run.inputs[n] == SinkDrained {
        StillHeard(run, n, SinkDrained);
      }
    }
  }

  lemma {:induction false} RecordIsHonest(run: Run, n: nat)
    requires IsRun(run) && n < |run.states|
    ensures Honest(run, n)
  {
    if n > 0 {
      RecordIsHonest(run, n - 1);
      assert Moves(run, n - 1);
      HonestStep(run, n - 1);
    }
  }

  lemma AnswersWhenAllDrained(c: Connector, msg: Msg)
    requires AnswerDrain in OnMsg(c, msg).1
    ensures var c' := OnMsg(c, msg).0; c'.phase == Draining && c'.drainage.Some? && AllDrained(c'.drainage.value)
  {
  }

  /**
   In every run, a connector answers a drain request only after each part it has reported since
   that request.
   */
  lemma AnswersAfterAllParts(run: Run, i: nat)
    requires IsRun(run) && i < |run.inputs| && AnswerDrain in EffectsAt(run, i)
    ensures run.states[0].hasSource ==> HeardSince(run, i + 1, SourceDrained)
    ensures run.states[0].hasSink ==> HeardSince(run, i + 1, SinkDrained)
  {
    assert Moves(run, i);
    AnswersWhenAllDrained(run.states[i], run.inputs[i]);
    RecordIsHonest(run, i + 1);
  }

  lemma OtherSelfMessages(c: Connector, msg: Msg, m: Msg)
    requires msg != Drain && msg != SourceDrained
    ensures ToSelf(m) !in OnMsg(c, msg).1
  {
  }

  /** The loop never asks itself to drain, and reports for its source part only when it has none. */
  lemma SelfMessages(c: Connector, msg: Msg)
    ensures ToSelf(Drain) !in OnMsg(c, msg).1
    ensures ToSelf(SourceDrained) in OnMsg(c, msg).1 ==> !c.hasSource
  {
    if msg != Drain && msg != SourceDrained {
      OtherSelfMessages(c, msg, Drain);
      OtherSelfMessages(c, msg, SourceDrained);
    }
  }

  /** The source part is asked to drain only when the connector accepts a drain request. */
  lemma SourceDrainStep(c: Connector, msg: Msg)
    requires ToSource(DrainSource) in OnMsg(c, msg).1
    ensures msg == Drain && c.phase != Draining && c.hasSource
  {
  }

  lemma SinkDrainStep(c: Connector, msg: Msg)
    requires ToSink(DrainSink) in OnMsg(c, msg).1
    ensures msg == SourceDrained
  {
  }

  /** The sink part is asked to drain only after the source part has reported since the request. */
  lemma SinkDrainsAfterSource(run: Run, i: nat)
    requires IsRun(run) && i < |run.inputs| && ToSink(DrainSink) in EffectsAt(run, i)
    ensures HeardSince(run, i + 1, SourceDrained)
  {
    assert Moves(run, i);
    SinkDrainStep(run.states[i], run.inputs[i]);
    StillHeard(run, i, SourceDrained);
  }

  lemma FailedStep(c: Connector, msg: Msg)
    requires c.phase == Failed && msg != Drain
    ensures OnMsg(c, msg).0.phase in {Failed, Stopped} && AnswerDrain !in OnMsg(c, msg).1
  {
  }

  /** A connector that failed while draining never answers that request. */
  lemma {:induction false} SilentOnceFailed(run: Run, i: nat, n: nat)
    requires IsRun(run) && i <= n < |run.inputs| && run.states[i].phase == Failed
    requires forall h :: i <= h <= n ==> run.inputs[h] != Drain
    ensures run.states[n].phase == Failed && AnswerDrain !in EffectsAt(run, n)
  {
    if i < n {
      SilentOnceFailed(run, i, n - 1);
      assert Moves(run, n - 1);
      FailedStep(run.states[n - 1], run.inputs[n - 1]);
    }
    assert Moves(run, n);
    FailedStep(run.states[n], run.inputs[n]);
  }

  /** Once all parts have reported, every further notice from a part makes the connector answer again. */
  lemma AnswersAgain(c: Connector, msg: Msg)
    requires c.phase == Draining && c.drainage.Some? && AllDrained(c.drainage.value)
    ensures AnswerDrain in OnMsg(c, msg).1 <==> msg in {SourceDrained, SinkDrained}
  {
  }

  /** A connector with neither part answers one request twice. */
  lemma NeitherPartAnswersTwice(phase: Phase, connected: bool)
    requires phase != Draining
    ensures var c := Fresh(false, false).(phase := phase, connected := connected);
            var (c1, effects1) := OnMsg(c, Drain);
            && effects1 == [ToSelf(SourceDrained), AnswerDrain]
            && OnMsg(c1, SourceDrained).1 == [AnswerDrain]
  {
  }

  // ----- what a connector does, effect by effect

  /** The connection is lost, by an attempt or by notice; notice is taken whether there was one or not. */
  predicate Loses(c: Connector, msg: Msg) {
    msg == ConnectionLost || (msg.Reconnect? && !msg.connected && c.connected)
  }

  predicate Gains(c: Connector, msg: Msg) {
    msg.Reconnect? && msg.connected && !c.connected
  }

  predicate Starts(c: Connector, msg: Msg) {
    msg.Start? && c.phase == Initializing
  }

  /** What the source part is told. */
  lemma ToldSourceIff(c: Connector, msg: Msg, m: SourceMsg)
    ensures ToSource(m) in OnMsg(c, msg).1
            <==> && c.hasSource
                 && match m
                    case StartSource => Starts(c, msg)
                    case SourceConnected => Gains(c, msg)
                    case SourceDisconnected => Loses(c, msg)
                    case PauseSource => msg == Pause && c.phase == Running
                    case ResumeSource => msg == Resume && c.phase == Paused
                    case DrainSource => msg == Drain && c.phase != Draining
                    case StopSource => msg == Stop
                    case _ => false
  {
    match msg
    case Reconnect(connected, willRetry) => ReconnectTellsSource(c, connected, willRetry, m);
    case _ => OthersTellSource(c, msg, m);
  }

  lemma ReconnectTellsSource(c: Connector, connected: bool, willRetry: bool, m: SourceMsg)
    ensures ToSource(m) in OnReconnect(c, connected, willRetry).1
            <==> c.hasSource && c.connected != connected && m == if connected then SourceConnected else SourceDisconnected
  {
  }

  lemma OthersTellSource(c: Connector, msg: Msg, m: SourceMsg)
    requires !msg.Reconnect?
    ensures ToSource(m) in OnMsg(c, msg).1
            <==> && c.hasSource
                 && match msg
                    case Start(_) => m == StartSource && c.phase == Initializing
                    case ConnectionLost => m == SourceDisconnected
                    case Pause => m == PauseSource && c.phase == Running
                    case Resume => m == ResumeSource && c.phase == Paused
                    case Drain => m == DrainSource && c.phase != Draining
                    case Stop => m == StopSource
                    case _ => false
  {
  }

  /** What the sink part is told. It is asked to drain when the source part has drained and the sink part has not. */
  lemma ToldSinkIff(c: Connector, msg: Msg, m: SinkControl)
    ensures ToSink(m) in OnMsg(c, msg).1
            <==> && c.hasSink
                 && match m
                    case StartSink => Starts(c, msg)
                    case SinkConnected => Gains(c, msg)
                    case SinkDisconnected => Loses(c, msg)
                    case PauseSink => msg == Pause && c.phase == Running
                    case ResumeSink => msg == Resume && c.phase == Paused
                    case DrainSink => msg == SourceDrained && c.phase == Draining && c.drainage.Some?
                      && c.drainage.value.sink == Expected
                    case StopSink => msg == Stop
                    case _ => false
  {
    match msg
    case Reconnect(connected, willRetry) => ReconnectTellsSink(c, connected, willRetry, m);
    case _ => OthersTellSink(c, msg, m);
  }

  lemma ReconnectTellsSink(c: Connector, connected: bool, willRetry: bool, m: SinkControl)
    ensures ToSink(m) in OnReconnect(c, connected, willRetry).1
            <==> c.hasSink && c.connected != connected && m == if connected then SinkConnected else SinkDisconnected
  {
  }

  lemma OthersTellSink(c: Connector, msg: Msg, m: SinkControl)
    requires !msg.Reconnect?
    ensures ToSink(m) in OnMsg(c, msg).1
            <==> && c.hasSink
                 && match msg
                    case Start(_) => m == StartSink && c.phase == Initializing
                    case ConnectionLost => m == SinkDisconnected
                    case Pause => m == PauseSink && c.phase == Running
                    case Resume => m == ResumeSink && c.phase == Paused
                    case SourceDrained => m == DrainSink && c.phase == Draining && c.drainage.Some?
                      && c.drainage.value.sink == Expected
                    case Stop => m == StopSink
                    case _ => false
  {
  }

  /** A part that is not there reports to be drained as soon as it is its turn. */
  lemma ToldSelfIff(c: Connector, msg: Msg, m: Msg)
    ensures ToSelf(m) in OnMsg(c, msg).1
            <==> || (m == SourceDrained && msg == Drain && c.phase != Draining && !c.hasSource)
                 || (m == SinkDrained && msg == SourceDrained && c.phase == Draining && c.drainage.Some?
                     && c.drainage.value.sink == Expected && !c.hasSink)
  {
  }

  /** A drain request is answered when the last part that was waited for reports, and at once if there is none. */
  lemma AnsweredIff(c: Connector, msg: Msg)
    ensures AnswerDrain in OnMsg(c, msg).1
            <==> || (msg == Drain && c.phase != Draining && !c.hasSource && !c.hasSink)
                 || (c.phase == Draining && c.drainage.Some? && msg == SourceDrained && c.drainage.value.sink != Expected)
                 || (c.phase == Draining && c.drainage.Some? && msg == SinkDrained && c.drainage.value.source != Expected)
  {
  }

  /** A start request is answered well when the connection comes up, or is up already, and badly when the last attempt fails. */
  lemma StartAnsweredIff(c: Connector, msg: Msg, ok: bool)
    ensures AnswerStart(ok) in OnMsg(c, msg).1
            <==> if ok then (Gains(c, msg) && c.starting) || (msg.Start? && c.phase == Running && c.connected)
                 else msg.Reconnect? && !msg.connected && !msg.willRetry && c.starting
  {
  }

  /** Who connects again: at once after a start or a resume without a connection, later if running and the connection is lost. */
  lemma ReconnectsIff(c: Connector, msg: Msg)
    ensures ReconnectNow in OnMsg(c, msg).1 <==> Starts(c, msg) || (msg == Resume && c.phase == Paused && !c.connected)
    ensures ReconnectLater in OnMsg(c, msg).1 <==> msg == ConnectionLost && c.phase == Running
    ensures AnswerStop in OnMsg(c, msg).1 <==> msg == Stop
  {
    if msg.Reconnect? {
      ReconnectOnly(c, msg.connected, msg.willRetry);
    }
  }

  lemma ReconnectOnly(c: Connector, connected: bool, willRetry: bool)
    ensures forall e :: e in OnReconnect(c, connected, willRetry).1 ==> e.ToSource? || e.ToSink? || e.AnswerStart?
  {
  }

  /** No effect comes twice; the sink part hears first of the connection, the source part of all else. */
  lemma EffectsOnce(c: Connector, msg: Msg, i: nat, j: nat)
    requires i < j < |OnMsg(c, msg).1|
    ensures var es := OnMsg(c, msg).1;
            && es[i] != es[j]
            && (es[i].ToSource? ==> !(es[j].ToSink? && (msg.Reconnect? || msg == ConnectionLost)))
            && (es[i].ToSink? ==> !(es[j].ToSource? && !msg.Reconnect? && msg != ConnectionLost))
  {
    if msg.Reconnect? {
      ReconnectOnce(c, msg.connected, msg.willRetry, i, j);
    }
  }

  lemma ReconnectOnce(c: Connector, connected: bool, willRetry: bool, i: nat, j: nat)
    requires i < j < |OnReconnect(c, connected, willRetry).1|
    ensures var es := OnReconnect(c, connected, willRetry).1;
            es[i] != es[j] && (es[i].ToSource? ==> !es[j].ToSink?)
  {
  }

  // ----- phases, one by one

  lemma ConnectorPhaseIff(c: Connector, msg: Msg)
    requires c.phase != Stopped
    ensures OnMsg(c, msg).0.phase == Initializing
            <==> c.phase == Initializing && !msg.Start? && msg !in {Drain, Stop} && !Fails(msg)
    ensures OnMsg(c, msg).0.phase == Running
            <==> || (Starts(c, msg) && msg.ok) || (msg == Resume && c.phase == Paused)
                 || (c.phase == Running && msg !in {Pause, Drain, Stop} && !Fails(msg))
    ensures OnMsg(c, msg).0.phase == Paused
            <==> (msg == Pause && c.phase == Running) || (c.phase == Paused && msg !in {Resume, Drain, Stop} && !Fails(msg))
    ensures OnMsg(c, msg).0.phase == Draining <==> msg == Drain || (c.phase == Draining && msg != Stop && !Fails(msg))
    ensures OnMsg(c, msg).0.phase == Stopped <==> msg == Stop
  {
  }

  /** The last attempt to connect has failed. */
  predicate Fails(msg: Msg) {
    msg.Reconnect? && !msg.connected && !msg.willRetry
  }

  /** Before `n`, the last that was heard about the connection was good. */
  ghost predicate Online(inputs: seq<Msg>, n: nat)
    requires n <= |inputs|
  {
    exists i :: && 0 <= i < n && inputs[i].Reconnect? && inputs[i].connected
                && forall j :: i < j < n ==> inputs[j] != ConnectionLost && !(inputs[j].Reconnect? && !inputs[j].connected)
  }

  /** Before `n`, a connector was started whose request was not answered since by a connection that came up or failed for good. */
  ghost predicate Unanswered(run: Run, n: nat)
    requires Shaped(run) && n <= |run.inputs|
  {
    exists i :: && 0 <= i < n && Starts(run.states[i], run.inputs[i])
                && forall j :: i < j < n ==> !Gains(run.states[j], run.inputs[j]) && !Fails(run.inputs[j])
  }

  lemma NewsStep(c: Connector, msg: Msg)
    ensures var d := OnMsg(c, msg).0;
            && (d.connected <==> if msg.Reconnect? then msg.connected else c.connected && msg != ConnectionLost)
            && (d.starting <==> Starts(c, msg) || (c.starting && !Gains(c, msg) && !Fails(msg)))
  {
  }

  lemma OnlineStep(inputs: seq<Msg>, n: nat)
    requires n < |inputs|
    ensures Online(inputs, n + 1)
            <==> if inputs[n].Reconnect? then inputs[n].connected else Online(inputs, n) && inputs[n] != ConnectionLost
  {
    if Online(inputs, n) && inputs[n] != ConnectionLost && !inputs[n].Reconnect? {
      var i :| && 0 <= i < n && inputs[i].Reconnect? && inputs[i].connected
               && forall j :: i < j < n ==> inputs[j] != ConnectionLost && !(inputs[j].Reconnect? && !inputs[j].connected);
      assert forall j :: i < j < n + 1 ==> inputs[j] != ConnectionLost && !(inputs[j].Reconnect? && !inputs[j].connected);
    }
  }

  lemma UnansweredStep(run: Run, n: nat)
    requires Shaped(run) && n < |run.inputs|
    ensures Unanswered(run, n + 1)
            <==> || Starts(run.states[n], run.inputs[n])
                 || (Unanswered(run, n) && !Gains(run.states[n], run.inputs[n]) && !Fails(run.inputs[n]))
  {
    if Unanswered(run, n) && !Gains(run.states[n], run.inputs[n]) && !Fails(run.inputs[n]) {
      var i :| && 0 <= i < n && Starts(run.states[i], run.inputs[i])
               && forall j :: i < j < n ==> !Gains(run.states[j], run.inputs[j]) && !Fails(run.inputs[j]);
      assert forall j :: i < j < n + 1 ==> !Gains(run.states[j], run.inputs[j]) && !Fails(run.inputs[j]);
    }
  }

  /** In every run a connector knows whether it is connected, and whether its start request is still to be answered. */
  lemma {:induction false} NewsAreKept(run: Run, n: nat)
    requires IsRun(run) && n < |run.states|
    ensures run.states[n].connected <==> Online(run.inputs, n)
    ensures run.states[n].starting <==> Unanswered(run, n)
  {
    if n > 0 {
      NewsAreKept(run, n - 1);
      assert Moves(run, n - 1);
      NewsStep(run.states[n - 1], run.inputs[n - 1]);
      OnlineStep(run.inputs, n - 1);
      UnansweredStep(run, n - 1);
    }
  }
}
