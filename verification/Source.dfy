/**
 The source task. `SourceManager` holds the fields of the running task and changes them in place;
 the functions before it say what each message and each pulled reply does to those fields.
 */
module SourceTask {
  import opened Protocol
  import opened Wrappers

  datatype Phase = Initialized | Running | Paused | Draining | Drained | Stopped

  datatype Source = Source(
    uid: Uid,
    phase: Phase,
    connected: bool,
    isAsync: bool,
    outs: nat,            // number of linked pipelines, port by port
    errs: nat,
    streams: set<nat>,    // streams with live codec and preprocessor state
    started: set<Uid>,    // sinks that announced themselves and have not drained yet
    numStarted: nat,
    restores: nat,
    channel: bool)        // is there a connector to tell when drained?

  /** What a source does to its surroundings while it handles one message. */
  datatype Effect =
    | SendSignal(body: Body)
    | RouteEvent(port: Port, event: nat)
    | ReportDrained

  /** What one pull yields. `events` is what codec and preprocessors make of the data. */
  datatype Reply =
    | PullFailed
    | Received(stream: Option<nat>, built: bool, events: seq<(Port, nat)>)
    | EndStream(ended: nat, last: seq<(Port, nat)>)
    | StreamFail(ended: nat)
    | Finished

  function Fresh(uid: Uid, isAsync: bool): Source {
    Source(uid, Initialized, false, isAsync, 0, 0, {}, {}, 0, 0, false)
  }

  /** Events for the two valid ports are sent; others are dropped. */
  function Routed(events: seq<(Port, nat)>): seq<Effect> {
    if events == [] then []
    else if events[0].0 == OtherPort then Routed(events[1..])
    else [RouteEvent(events[0].0, events[0].1)] + Routed(events[1..])
  }

  predicate ShouldPull(s: Source) {
    && (s.phase == Running || (s.phase == Draining && s.isAsync))
    && s.outs > 0
    && s.connected
    && s.restores > 0
    && s.restores >= s.numStarted
  }

  function OnFullyDrained(s: Source): (Source, seq<Effect>) {
    (s.(phase := Drained), [SendSignal(DrainSignal)])
  }

  function OnDrain(s: Source): (Source, seq<Effect>) {
    match s.phase
    case Drained => (s, [ReportDrained])
    case Draining => (s, [])
    case _ =>
      if s.started == {} then (s.(phase := Drained), [ReportDrained])
      else if !s.isAsync || !s.connected || s.streams == {} then OnFullyDrained(s.(channel := true))
      else (s.(channel := true, phase := Draining), [])
  }

  function OnCb(s: Source, cb: CbAction): (Source, seq<Effect>) {
    match cb
    case Trigger => (s.(phase := Paused), [])
    case Restore =>
      (s.(restores := s.restores + 1, phase := if s.phase == Initialized then Initialized else Running), [])
    case SinkStart(k) =>
      var started := s.started + {k};
      (s.(started := started, numStarted := |started|), [])
    case DrainedBy(source, k) =>
      if source != s.uid then (s, [])
      else
        var s' := s.(started := s.started - {k});
        (s', if s'.started == {} && s.channel then [ReportDrained] else [])
    case _ => (s, [])
  }

  function OnMsg(s: Source, msg: SourceMsg): (Source, seq<Effect>) {
    match msg
    case LinkSource(port) =>
      (match port
       case OutPort => s.(outs := s.outs + 1)
       case ErrPort => s.(errs := s.errs + 1)
       case OtherPort => s, [])
    case StartSource => if s.phase == Initialized then (s.(phase := Running), [SendSignal(StartSignal)]) else (s, [])
    case ConnectSource(ok) => (s.(connected := ok), [])
    case PauseSource => (if s.phase == Running then s.(phase := Paused) else s, [])
    case ResumeSource => (if s.phase == Paused then s.(phase := Running) else s, [])
    case StopSource => (s.(phase := Stopped), [])
    case DrainSource => OnDrain(s)
    case SourceConnected => (s.(connected := true), [])
    case SourceDisconnected => (s.(connected := false), [])
    case Cb(cb) => OnCb(s, cb)
  }

  function OnStreamGone(s: Source, sent: seq<Effect>): (Source, seq<Effect>) {
    if s.phase == Draining && s.streams == {} then (OnFullyDrained(s).0, sent + OnFullyDrained(s).1) else (s, sent)
  }

  function OnReply(s: Source, reply: Reply): (Source, seq<Effect>) {
    match reply
    case PullFailed => (s, [])
    case Received(stream, built, events) =>
      if !built then (s, [])
      else (if stream.Some? then s.(streams := s.streams + {stream.value}) else s, Routed(events))
    case EndStream(stream, last) =>
      OnStreamGone(s.(streams := s.streams - {stream}), if stream in s.streams then Routed(last) else [])
    case StreamFail(stream) => OnStreamGone(s.(streams := s.streams - {stream}), [])
    case Finished => OnFullyDrained(s)
  }

  // ----- the running source

  class SourceManager {
    const uid: Uid
    const isAsync: bool
    var phase: Phase
    var connected: bool
    var outs: nat
    var errs: nat
    var streams: set<nat>
    var started: set<Uid>
    var numStarted: nat
    var restores: nat
    var channel: bool
    var pulls: nat

    ghost function View(): Source
      reads this
    {
      Source(uid, phase, connected, isAsync, outs, errs, streams, started, numStarted, restores, channel)
    }

    constructor (uid: Uid, isAsync: bool)
      ensures View() == Fresh(uid, isAsync) && pulls == 0
    {
      this.uid, this.isAsync := uid, isAsync;
      phase, connected, outs, errs := Initialized, false, 0, 0;
      streams, started, numStarted, restores, channel, pulls := {}, {}, 0, 0, false, 0;
    }

    method FullyDrained() returns (effects: seq<Effect>)
      modifies this
      ensures (View(), effects) == OnFullyDrained(old(View())) && pulls == old(pulls)
    {
      phase := Drained;
      effects := [SendSignal(DrainSignal)];
    }

    method HandleDrain() returns (effects: seq<Effect>)
      modifies this
      ensures (View(), effects) == OnDrain(old(View())) && pulls == old(pulls)
    {
      effects := [];
      match phase {
        case Drained =>
          effects := [ReportDrained];
        case Draining =>
        case _ =>
          if started == {} {
            effects := [ReportDrained];
            phase := Drained;
          } else {
            channel := true;
            if !isAsync || !connected || streams == {} {
              effects := FullyDrained();
            } else {
              phase := Draining;
            }
          }
      }
    }

    method HandleCb(cb: CbAction) returns (effects: seq<Effect>)
      modifies this
      ensures (View(), effects) == OnCb(old(View()), cb) && pulls == old(pulls)
    {
      effects := [];
      match cb {
        case Trigger =>
          phase := Paused;
        case Restore =>
          restores := restores + 1;
          if phase != Initialized {
            phase := Running;
          }
        case SinkStart(k) =>
          started := started + {k};
          numStarted := |started|;
        case DrainedBy(source, k) =>
          if source == uid {
            started := started - {k};
            if started == {} && channel {
              effects := [ReportDrained];
            }
          }
        case _ =>
      }
    }

    method HandleMsg(msg: SourceMsg) returns (effects: seq<Effect>, terminate: bool)
      modifies this
      ensures (View(), effects) == OnMsg(old(View()), msg) && terminate == msg.StopSource? && pulls == old(pulls)
    {
      effects, terminate := [], false;
      match msg {
        case LinkSource(port) =>
          if port == OutPort {
            outs := outs + 1;
          } else if port == ErrPort {
            errs := errs + 1;
          }
        case StartSource =>
          if phase == Initialized {
            phase := Running;
            effects := [SendSignal(StartSignal)];
          }
        case ConnectSource(ok) =>
          connected := ok;
        case PauseSource =>
          if phase == Running {
            phase := Paused;
          }
        case ResumeSource =>
          if phase == Paused {
            phase := Running;
          }
        case StopSource =>
          phase := Stopped;
          terminate := true;
        case DrainSource =>
          effects := HandleDrain();
        case SourceConnected =>
          connected := true;
        case SourceDisconnected =>
          connected := false;
        case Cb(cb) =>
          effects := HandleCb(cb);
      }
    }

    method HandleReply(reply: Reply) returns (effects: seq<Effect>)
      modifies this
      ensures (View(), effects) == OnReply(old(View()), reply) && pulls == old(pulls) + 1
    {
      effects := [];
      match reply {
        case PullFailed =>
        case Received(stream, built, events) =>
          if built {
            if stream.Some? {
              streams := streams + {stream.value};
            }
            effects := RouteEvents(events);
          }
        case EndStream(stream, last) =>
          if stream in streams {
            effects := RouteEvents(last);
          }
          streams := streams - {stream};
          if phase == Draining && streams == {} {
            var signal := FullyDrained();
            effects := effects + signal;
          }
        case StreamFail(stream) =>
          streams := streams - {stream};
          if phase == Draining && streams == {} {
            var signal := FullyDrained();
            effects := effects + signal;
          }
        case Finished =>
          effects := FullyDrained();
      }
      pulls := pulls + 1;
    }

    method RouteEvents(events: seq<(Port, nat)>) returns (effects: seq<Effect>)
      ensures effects == Routed(events)
    {
      effects := [];
      for i := 0 to |events|
        invariant effects + Routed(events[i..]) == Routed(events)
      {
        if events[i].0 != OtherPort {
          effects := effects + [RouteEvent(events[i].0, events[i].1)];
        }
      }
    }
  }

  // ----- runs

  datatype Input = Told(msg: SourceMsg) | Pulled(reply: Reply)

  function Step(s: Source, input: Input): (Source, seq<Effect>) {
    match input
    case Told(msg) => OnMsg(s, msg)
    case Pulled(reply) => OnReply(s, reply)
  }

  /** The loop pulls only while it should, and ends with `StopSource`. */
  predicate Possible(s: Source, input: Input) {
    s.phase != Stopped && (input.Pulled? ==> ShouldPull(s))
  }

  /** A run: `states[i + 1]` is what `inputs[i]` makes of `states[i]`. */
  datatype Run = Run(states: seq<Source>, inputs: seq<Input>)

  ghost predicate Shaped(run: Run) {
    |run.states| == |run.inputs| + 1
  }

  ghost predicate Moves(run: Run, i: nat)
    requires Shaped(run) && i < |run.inputs|
  {
    && Possible(run.states[i], run.inputs[i])
    && run.states[i + 1] == Step(run.states[i], run.inputs[i]).0
  }

  ghost predicate IsRun(run: Run) {
    Shaped(run) && forall i :: 0 <= i < |run.inputs| ==> Moves(run, i)
  }

  ghost predicate StartsFresh(run: Run) {
    IsRun(run) && run.states[0] == Fresh(run.states[0].uid, run.states[0].isAsync)
  }

  /** What step `i` of a run does to the surroundings. */
  ghost function EffectsAt(run: Run, i: nat): seq<Effect>
    requires Shaped(run) && i < |run.inputs|
  {
    Step(run.states[i], run.inputs[i]).1
  }

  lemma RoutedOnly(events: seq<(Port, nat)>)
    ensures ReportDrained !in Routed(events)
    ensures forall e :: e in Routed(events) ==> e.RouteEvent?
    ensures forall i :: 0 <= i < |Routed(events)| ==> Routed(events)[i].RouteEvent?
  {
  }

  /**
   A source tells its connector that it is drained while some sink it waits for has not drained
   in exactly one situation: it is asked to drain again after it had already sent its drain signal.
   */
  lemma HastyReport(s: Source, input: Input)
    ensures ReportDrained in Step(s, input).1 && Step(s, input).0.started != {}
            <==> input == Told(DrainSource) && s.phase == Drained && s.started != {}
  {
    if input.Pulled? {
      if input.reply.Received? {
        RoutedOnly(input.reply.events);
      } else if input.reply.EndStream? {
        RoutedOnly(input.reply.last);
      }
    }
  }

  /** Among the first `n` inputs, `k` announced itself and has not acknowledged the drain since. */
  ghost predicate Awaited(uid: Uid, inputs: seq<Input>, n: nat, k: Uid)
    requires n <= |inputs|
  {
    exists i ::
      && 0 <= i < n
      && inputs[i] == Told(Cb(SinkStart(k)))
      && forall j :: i < j < n ==> inputs[j] != Told(Cb(DrainedBy(uid, k)))
  }

  lemma AwaitedStep(uid: Uid, inputs: seq<Input>, n: nat, k: Uid)
    requires n < |inputs|
    ensures Awaited(uid, inputs, n + 1, k)
            <==> inputs[n] == Told(Cb(SinkStart(k))) || (Awaited(uid, inputs, n, k) && inputs[n] != Told(Cb(DrainedBy(uid, k))))
  {
    var ack := Told(Cb(DrainedBy(uid, k)));
    if Awaited(uid, inputs, n, k) && inputs[n] != ack {
      var i :| 0 <= i < n && inputs[i] == Told(Cb(SinkStart(k))) && forall j :: i < j < n ==> inputs[j] != ack;
      assert forall j :: i < j < n + 1 ==> inputs[j] != ack;
    }
  }

  lemma StartedStep(s: Source, input: Input, k: Uid)
    ensures Step(s, input).0.uid == s.uid
    ensures k in Step(s, input).0.started
            <==> input == Told(Cb(SinkStart(k))) || (k in s.started && input != Told(Cb(DrainedBy(s.uid, k))))
  {
    match input
    case Pulled(reply) => PulledStarted(s, reply);
    case Told(msg) =>
      match msg
      case DrainSource => DrainStarted(s);
      case Cb(cb) => CbStarted(s, cb, k);
      case _ =>
  }

  lemma PulledStarted(s: Source, reply: Reply)
    ensures OnReply(s, reply).0.uid == s.uid && OnReply(s, reply).0.started == s.started
  {
  }

  lemma DrainStarted(s: Source)
    ensures OnDrain(s).0.uid == s.uid && OnDrain(s).0.started == s.started
  {
  }

  lemma CbStarted(s: Source, cb: CbAction, k: Uid)
    ensures OnCb(s, cb).0.uid == s.uid
    ensures k in OnCb(s, cb).0.started <==> cb == SinkStart(k) || (k in s.started && cb != DrainedBy(s.uid, k))
  {
  }

  /** `started` holds exactly the sinks still awaited, at every moment of every run. */
  lemma {:induction false} StartedIsAwaited(run: Run, n: nat, k: Uid)
    requires StartsFresh(run) && n < |run.states|
    ensures run.states[n].uid == run.states[0].uid
    ensures k in run.states[n].started <==> Awaited(run.states[0].uid, run.inputs, n, k)
  {
    if n > 0 {
      StartedIsAwaited(run, n - 1, k);
      AwaitedStep(run.states[0].uid, run.inputs, n - 1, k);
      assert Moves(run, n - 1);
      StartedStep(run.states[n - 1], run.inputs[n - 1], k);
    }
  }

  ghost predicate DrainsOnce(inputs: seq<Input>) {
    forall i, j :: 0 <= i < j < |inputs| && inputs[i] == Told(DrainSource) ==> inputs[j] != Told(DrainSource)
  }

  ghost predicate NoFinishBeforeDrain(inputs: seq<Input>) {
    forall i, j :: 0 <= i < j < |inputs| && inputs[i] == Pulled(Finished) ==> inputs[j] != Told(DrainSource)
  }

  lemma PhaseStep(s: Source, input: Input)
    requires s.phase !in {Draining, Drained} && input != Told(DrainSource) && input != Pulled(Finished)
    ensures Step(s, input).0.phase !in {Draining, Drained}
  {
    match input
    case Pulled(reply) => ReplyPhase(s, reply);
    case Told(msg) =>
      match msg
      case DrainSource => DrainPhase(s);
      case Cb(cb) => CbPhase(s, cb);
      case _ =>
  }

  /** Before it is asked to drain, a source that never finished is not draining. */
  lemma {:induction false} NotDrainingYet(run: Run, n: nat)
    requires StartsFresh(run) && n < |run.states|
    requires forall i :: 0 <= i < n ==> run.inputs[i] != Told(DrainSource) && run.inputs[i] != Pulled(Finished)
    ensures run.states[n].phase !in {Draining, Drained}
  {
    if n > 0 {
      NotDrainingYet(run, n - 1);
      assert Moves(run, n - 1);
      PhaseStep(run.states[n - 1], run.inputs[n - 1]);
    }
  }

  /**
   In every run with one drain request and no `Finished` before it, the source reports that it is
   drained only when every sink that announced itself has acknowledged the drain since.
   */
  lemma ReportsOnlyWhenDrained(run: Run, i: nat, k: Uid)
    requires StartsFresh(run) && i < |run.inputs|
    requires DrainsOnce(run.inputs) && NoFinishBeforeDrain(run.inputs)
    requires ReportDrained in EffectsAt(run, i)
    ensures !Awaited(run.states[0].uid, run.inputs, i + 1, k)
  {
    assert Moves(run, i);
    HastyReport(run.states[i], run.inputs[i]);
    StartedIsAwaited(run, i + 1, k);
    if run.inputs[i] == Told(DrainSource) {
      NotDrainingYet(run, i);
    }
  }

  // ----- silence after the drain signal

  predicate Wakes(input: Input) {
    input == Told(Cb(Trigger)) || input == Told(Cb(Restore))
  }

  predicate Asleep(s: Source) {
    s.phase == Drained || s.phase == Stopped
  }

  lemma AsleepStep(s: Source, input: Input)
    requires s.phase == Drained && Possible(s, input)
    ensures Asleep(Step(s, input).0) <==> !Wakes(input)
    ensures forall e :: e in Step(s, input).1 ==> !e.RouteEvent?
  {
  }

  /** A drained source stays drained until a circuit breaker event reaches it or it stops. */
  lemma {:induction false} AsleepUntilWoken(run: Run, i: nat, n: nat)
    requires IsRun(run) && i <= n < |run.states| && run.states[i].phase == Drained
    requires forall h :: i <= h < n ==> !Wakes(run.inputs[h])
    ensures Asleep(run.states[n])
  {
    if i < n {
      AsleepUntilWoken(run, i, n - 1);
      assert Moves(run, n - 1);
      AsleepStep(run.states[n - 1], run.inputs[n - 1]);
    }
  }

  /** A drained source wakes up if and only if a circuit breaker event reaches it. */
  lemma WakesIff(run: Run, i: nat)
    requires IsRun(run) && i < |run.states| && run.states[i].phase == Drained
    ensures (exists n :: i <= n < |run.states| && !Asleep(run.states[n]))
            <==> (exists h :: i <= h < |run.inputs| && Wakes(run.inputs[h]))
  {
    if h :| i <= h < |run.inputs| && Wakes(run.inputs[h]) {
      var first := FirstWake(run.inputs, i, h);
      AsleepUntilWoken(run, i, first);
      assert Moves(run, first);
      AsleepStep(run.states[first], run.inputs[first]);
      assert !Asleep(run.states[first + 1]);
    }
    if n :| i <= n < |run.states| && !Asleep(run.states[n]) {
      if forall h :: i <= h < n ==> !Wakes(run.inputs[h]) {
        AsleepUntilWoken(run, i, n);
      }
    }
  }

  lemma FirstWake(inputs: seq<Input>, i: nat, h: nat) returns (first: nat)
    requires i <= h < |inputs| && Wakes(inputs[h])
    ensures i <= first <= h && Wakes(inputs[first]) && forall j :: i <= j < first ==> !Wakes(inputs[j])
  {
    first := i;
    while !Wakes(inputs[first])
      invariant i <= first <= h && forall j :: i <= j < first ==> !Wakes(inputs[j])
      decreases h - first
    {
      first := first + 1;
    }
  }

  lemma SignalMeansDrained(s: Source, input: Input)
    requires SendSignal(DrainSignal) in Step(s, input).1
    ensures Step(s, input).0.phase == Drained
  {
    if input.Pulled? && input.reply.Received? {
      RoutedOnly(input.reply.events);
    } else if input.Pulled? && input.reply.EndStream? {
      RoutedOnly(input.reply.last);
    }
  }

  /**
   No event is routed after the drain signal, in any run, as long as no circuit breaker event
   arrives after that signal.
   */
  lemma SilentAfterDrainSignal(run: Run, i: nat, j: nat)
    requires IsRun(run) && i < j < |run.inputs|
    requires SendSignal(DrainSignal) in EffectsAt(run, i)
    requires forall h :: i < h < j ==> !Wakes(run.inputs[h])
    ensures forall e :: e in EffectsAt(run, j) ==> !e.RouteEvent?
  {
    assert Moves(run, i) && Moves(run, j);
    SignalMeansDrained(run.states[i], run.inputs[i]);
    AsleepUntilWoken(run, i + 1, j);
    AsleepStep(run.states[j], run.inputs[j]);
  }

  // ----- phases, one by one

  /** A sink is awaited, and the source can neither be drained at once nor go without its streams. */
  predicate HasToWait(s: Source) {
    s.started != {} && s.isAsync && s.connected && s.streams != {}
  }

  lemma ReplyPhase(s: Source, reply: Reply)
    ensures OnReply(s, reply).0.phase
            == if reply.Finished? || (s.phase == Draining && LastStreamEnds(s, Pulled(reply))) then Drained else s.phase
  {
  }

  lemma CbPhase(s: Source, cb: CbAction)
    ensures OnCb(s, cb).0.phase == if cb.Trigger? then Paused else if cb.Restore?
            && s.phase != Initialized then Running else s.phase
  {
  }

  lemma DrainPhase(s: Source)
    ensures OnDrain(s).0.phase == if s.phase in {Draining, Drained} then s.phase else if HasToWait(s) then Draining else Drained
  {
  }

  lemma InitializedIff(s: Source, input: Input)
    requires Possible(s, input)
    ensures Step(s, input).0.phase == Initialized
            <==> s.phase == Initialized && input !in {Told(StartSource), Told(StopSource), Told(DrainSource), Told(Cb(Trigger))}
  {
    match input
    case Pulled(reply) => ReplyPhase(s, reply);
    case Told(msg) =>
      match msg
      case DrainSource => DrainPhase(s);
      case Cb(cb) => CbPhase(s, cb);
      case _ =>
  }

  lemma RunningIff(s: Source, input: Input)
    requires Possible(s, input)
    ensures Step(s, input).0.phase == Running
            <==> || (input == Told(StartSource) && s.phase == Initialized)
                 || (input == Told(ResumeSource) && s.phase == Paused)
                 || (input == Told(Cb(Restore)) && s.phase != Initialized)
                 || (s.phase == Running && Ordinary(input) && input != Told(PauseSource) && input != Told(Cb(Trigger)))
  {
    match input
    case Pulled(reply) => ReplyPhase(s, reply);
    case Told(msg) =>
      match msg
      case DrainSource => DrainPhase(s);
      case Cb(cb) => CbPhase(s, cb);
      case _ =>
  }

  lemma PausedIff(s: Source, input: Input)
    requires Possible(s, input)
    ensures Step(s, input).0.phase == Paused
            <==> || input == Told(Cb(Trigger))
                 || (input == Told(PauseSource) && s.phase == Running)
                 || (s.phase == Paused && Ordinary(input) && input != Told(ResumeSource) && input != Told(Cb(Restore)))
  {
    match input
    case Pulled(reply) => ReplyPhase(s, reply);
    case Told(msg) =>
      match msg
      case DrainSource => DrainPhase(s);
      case Cb(cb) => CbPhase(s, cb);
      case _ =>
  }

  lemma DrainingIff(s: Source, input: Input)
    requires Possible(s, input)
    ensures Step(s, input).0.phase == Draining
            <==> || (input == Told(DrainSource) && s.phase !in {Draining, Drained} && HasToWait(s))
                 || (s.phase == Draining && (Ordinary(input) || input == Told(DrainSource)) && !Wakes(input)
                     && !LastStreamEnds(s, input))
  {
    match input
    case Pulled(reply) => ReplyPhase(s, reply);
    case Told(msg) =>
      match msg
      case DrainSource => DrainPhase(s);
      case Cb(cb) => CbPhase(s, cb);
      case _ =>
  }

  lemma StoppedIff(s: Source, input: Input)
    requires Possible(s, input)
    ensures Step(s, input).0.phase == Stopped <==> input == Told(StopSource)
  {
    match input
    case Pulled(reply) => ReplyPhase(s, reply);
    case Told(msg) =>
      match msg
      case DrainSource => DrainPhase(s);
      case Cb(cb) => CbPhase(s, cb);
      case _ =>
  }

  // ----- a circuit breaker that is open stops the source

  /** What may make a source go on that was stopped by a circuit breaker event. */
  predicate MayGoOn(input: Input) {
    input == Told(Cb(Restore)) || input == Told(ResumeSource) || input == Told(DrainSource)
  }

  lemma {:induction false} StaysPaused(run: Run, i: nat, n: nat)
    requires IsRun(run) && i < n < |run.states| && run.inputs[i] == Told(Cb(Trigger))
    requires forall h :: i < h < n ==> !MayGoOn(run.inputs[h])
    ensures run.states[n].phase in {Paused, Stopped}
    decreases n
  {
    assert Moves(run, n - 1);
    PausedIff(run.states[n - 1], run.inputs[n - 1]);
    if i < n - 1 {
      StaysPaused(run, i, n - 1);
      StoppedIff(run.states[n - 1], run.inputs[n - 1]);
    }
  }

  /** After a trigger no event is sent, in any run, until the source is restored, resumed or asked to drain. */
  lemma SilentAfterTrigger(run: Run, i: nat, j: nat)
    requires IsRun(run) && i < j < |run.inputs| && run.inputs[i] == Told(Cb(Trigger))
    requires forall h :: i < h < j ==> !MayGoOn(run.inputs[h])
    ensures forall e :: e in EffectsAt(run, j) ==> !e.RouteEvent?
  {
    assert Moves(run, j);
    StaysPaused(run, i, j);
  }

  /** Since step `i` the source was restored or resumed, and not stopped again. */
  ghost predicate GoesOn(inputs: seq<Input>, i: nat, n: nat)
    requires n <= |inputs|
  {
    exists h :: && i < h < n && (inputs[h] == Told(Cb(Restore)) || inputs[h] == Told(ResumeSource))
                && forall g :: h < g < n ==> inputs[g] != Told(Cb(Trigger)) && inputs[g] != Told(PauseSource)
  }

  lemma GoesOnStep(inputs: seq<Input>, i: nat, n: nat)
    requires i < n < |inputs|
    ensures GoesOn(inputs, i, n + 1)
            <==> || inputs[n] == Told(Cb(Restore)) || inputs[n] == Told(ResumeSource)
                 || (GoesOn(inputs, i, n) && inputs[n] != Told(Cb(Trigger)) && inputs[n] != Told(PauseSource))
  {
    if GoesOn(inputs, i, n) && inputs[n] != Told(Cb(Trigger)) && inputs[n] != Told(PauseSource) {
      var h :| && i < h < n && (inputs[h] == Told(Cb(Restore)) || inputs[h] == Told(ResumeSource))
               && forall g :: h < g < n ==> inputs[g] != Told(Cb(Trigger)) && inputs[g] != Told(PauseSource);
      assert forall g :: h < g < n + 1 ==> inputs[g] != Told(Cb(Trigger)) && inputs[g] != Told(PauseSource);
    }
  }

  /**
   A source that was stopped by a trigger, and that is not asked to drain or to stop, is running again if and
   only if it was restored or resumed since, and neither triggered nor paused after that; otherwise it is paused.
   */
  lemma {:induction false} RunsAgainIff(run: Run, i: nat, n: nat)
    requires IsRun(run) && i < n < |run.states| && run.inputs[i] == Told(Cb(Trigger))
    requires forall h :: i < h < n ==> Ordinary(run.inputs[h])
    ensures run.states[n].phase == if GoesOn(run.inputs, i, n) then Running else Paused
    decreases n
  {
    var s, input := run.states[n - 1], run.inputs[n - 1];
    assert Moves(run, n - 1);
    PausedIff(s, input);
    if i < n - 1 {
      RunsAgainIff(run, i, n - 1);
      GoesOnStep(run.inputs, i, n - 1);
      RunningIff(s, input);
    }
  }

  // ----- what a source does, effect by effect

  lemma {:induction false} RoutedIff(events: seq<(Port, nat)>, port: Port, event: nat)
    ensures RouteEvent(port, event) in Routed(events) <==> port != OtherPort && (port, event) in events
  {
    if events != [] {
      RoutedIff(events[1..], port, event);
      assert events == [events[0]] + events[1..];
    }
  }

  /** Events keep their order. */
  lemma {:induction false} RoutedAppend(a: seq<(Port, nat)>, b: seq<(Port, nat)>)
    ensures Routed(a + b) == Routed(a) + Routed(b) && |Routed(a)| <= |a|
  {
    if a == [] {
      assert a + b == b;
    } else {
      RoutedAppend(a[1..], b);
      assert (a + b)[1..] == a[1..] + b;
    }
  }

  /** An event is sent exactly if it was pulled for a known port, as data that was understood or the rest of an open stream. */
  lemma RoutesIff(s: Source, input: Input, port: Port, event: nat)
    ensures RouteEvent(port, event) in Step(s, input).1
            <==> && port != OtherPort && input.Pulled?
                 && match input.reply
                    case Received(_, built, events) => built && (port, event) in events
                    case EndStream(stream, last) => stream in s.streams && (port, event) in last
                    case _ => false
  {
    if input.Pulled? && input.reply.Received? {
      RoutedIff(input.reply.events, port, event);
    } else if input.Pulled? && input.reply.EndStream? {
      RoutedIff(input.reply.last, port, event);
    }
  }

  lemma StartSignalIff(s: Source, input: Input)
    ensures SendSignal(StartSignal) in Step(s, input).1 <==> input == Told(StartSource) && s.phase == Initialized
  {
    if input.Pulled? && input.reply.Received? {
      RoutedOnly(input.reply.events);
    } else if input.Pulled? && input.reply.EndStream? {
      RoutedOnly(input.reply.last);
    }
  }

  /** The drain signal: on request unless there are streams to wait for, when the last one ends, and when the source finishes. */
  lemma DrainSignalIff(s: Source, input: Input)
    ensures SendSignal(DrainSignal) in Step(s, input).1
            <==> || (input == Told(DrainSource) && s.phase !in {Draining, Drained} && s.started != {} && !HasToWait(s))
                 || (s.phase == Draining && LastStreamEnds(s, input))
                 || input == Pulled(Finished)
  {
    if input.Pulled? && input.reply.Received? {
      RoutedOnly(input.reply.events);
    } else if input.Pulled? && input.reply.EndStream? {
      RoutedOnly(input.reply.last);
    }
  }

  /** The drain signal comes after all events of the same step, and once. */
  lemma SignalComesLast(s: Source, input: Input, i: nat)
    requires i < |Step(s, input).1| && Step(s, input).1[i] == SendSignal(DrainSignal)
    ensures i == |Step(s, input).1| - 1
  {
    if input.Pulled? && input.reply.Received? {
      RoutedOnly(input.reply.events);
    } else if input.Pulled? && input.reply.EndStream? {
      RoutedOnly(input.reply.last);
      var sent := if input.reply.ended in s.streams then Routed(input.reply.last) else [];
      assert i < |sent| ==> Step(s, input).1[i] == sent[i];
    }
  }

  /** The report: on request when nobody is awaited or the source is drained, and when the last awaited sink has drained. */
  lemma ReportIff(s: Source, input: Input)
    ensures ReportDrained in Step(s, input).1
            <==> || (input == Told(DrainSource) && s.phase != Draining && (s.phase == Drained || s.started == {}))
                 || (exists k :: input == Told(Cb(DrainedBy(s.uid, k))) && s.channel && s.started <= {k})
  {
    match input
    case Pulled(reply) => PulledReport(s, reply);
    case Told(msg) =>
      match msg
      case DrainSource =>
      case Cb(cb) => CbReport(s, cb);
      case _ =>
  }

  lemma PulledReport(s: Source, reply: Reply)
    ensures ReportDrained !in OnReply(s, reply).1
  {
    if reply.Received? {
      RoutedOnly(reply.events);
    } else if reply.EndStream? {
      RoutedOnly(reply.last);
    }
  }

  lemma CbReport(s: Source, cb: CbAction)
    ensures ReportDrained in OnCb(s, cb).1 <==> exists k :: cb == DrainedBy(s.uid, k) && s.channel && s.started <= {k}
  {
    if cb.DrainedBy? {
      assert s.started - {cb.sink} == {} <==> s.started <= {cb.sink};
    }
  }

  // ----- what the fields stand for

  ghost function Times(inputs: seq<Input>, n: nat, input: Input): nat
    requires n <= |inputs|
  {
    if n == 0 then 0 else Times(inputs, n - 1, input) + if inputs[n - 1] == input then 1 else 0
  }

  predicate Connects(input: Input) {
    input == Told(ConnectSource(true)) || input == Told(SourceConnected)
  }

  predicate Disconnects(input: Input) {
    input == Told(ConnectSource(false)) || input == Told(SourceDisconnected)
  }

  /** The last news about the connection was good. */
  ghost predicate Online(inputs: seq<Input>, n: nat)
    requires n <= |inputs|
  {
    exists i :: 0 <= i < n && Connects(inputs[i]) && forall j :: i < j < n ==> !Disconnects(inputs[j])
  }

  predicate Opens(input: Input, stream: nat) {
    input.Pulled? && input.reply.Received? && input.reply.built && input.reply.stream == Some(stream)
  }

  predicate Closes(input: Input, stream: nat) {
    input.Pulled? && (input.reply.EndStream? || input.reply.StreamFail?) && input.reply.ended == stream
  }

  /** Data came on the stream, and it has not ended since. */
  ghost predicate OpenStream(inputs: seq<Input>, n: nat, stream: nat)
    requires n <= |inputs|
  {
    exists i :: 0 <= i < n && Opens(inputs[i], stream) && forall j :: i < j < n ==> !Closes(inputs[j], stream)
  }

  lemma OnlineStep(inputs: seq<Input>, n: nat)
    requires n < |inputs|
    ensures Online(inputs, n + 1) <==> Connects(inputs[n]) || (Online(inputs, n) && !Disconnects(inputs[n]))
  {
    if Online(inputs, n) && !Disconnects(inputs[n]) {
      var i :| 0 <= i < n && Connects(inputs[i]) && forall j :: i < j < n ==> !Disconnects(inputs[j]);
      assert forall j :: i < j < n + 1 ==> !Disconnects(inputs[j]);
    }
  }

  lemma OpenStreamStep(inputs: seq<Input>, n: nat, stream: nat)
    requires n < |inputs|
    ensures OpenStream(inputs, n + 1, stream)
            <==> Opens(inputs[n], stream) || (OpenStream(inputs, n, stream) && !Closes(inputs[n], stream))
  {
    if OpenStream(inputs, n, stream) && !Closes(inputs[n], stream) {
      var i :| 0 <= i < n && Opens(inputs[i], stream) && forall j :: i < j < n ==> !Closes(inputs[j], stream);
      assert forall j :: i < j < n + 1 ==> !Closes(inputs[j], stream);
    }
  }

  lemma CountsStep(s: Source, input: Input)
    ensures var t := Step(s, input).0;
            && t.outs == s.outs + (if input == Told(LinkSource(OutPort)) then 1 else 0)
            && t.errs == s.errs + (if input == Told(LinkSource(ErrPort)) then 1 else 0)
            && t.restores == s.restores + (if input == Told(Cb(Restore)) then 1 else 0)
  {
  }

  lemma ConnectedStep(s: Source, input: Input)
    ensures Step(s, input).0.connected <==> Connects(input) || (s.connected && !Disconnects(input))
  {
    match input
    case Pulled(reply) =>
    case Told(msg) =>
      match msg
      case DrainSource =>
      case Cb(cb) => CbKeeps(s, cb);
      case _ =>
  }

  lemma CbKeeps(s: Source, cb: CbAction)
    ensures OnCb(s, cb).0.connected == s.connected && OnCb(s, cb).0.streams == s.streams
  {
  }

  lemma StreamsStep(s: Source, input: Input, stream: nat)
    ensures stream in Step(s, input).0.streams <==> Opens(input, stream) || (stream in s.streams && !Closes(input, stream))
  {
    match input
    case Pulled(reply) =>
    case Told(msg) =>
      match msg
      case DrainSource =>
      case Cb(cb) => CbKeeps(s, cb);
      case _ =>
  }

  /** There is a connector to tell once a request was accepted while a sink was awaited. */
  lemma ChannelStep(s: Source, input: Input)
    ensures Step(s, input).0.isAsync == s.isAsync
    ensures Step(s, input).0.channel
            <==> s.channel || (input == Told(DrainSource) && s.phase !in {Draining, Drained} && s.started != {})
  {
    match input
    case Pulled(reply) =>
    case Told(msg) =>
      match msg
      case DrainSource =>
      case Cb(cb) =>
      case _ =>
  }

  predicate Announces(input: Input) {
    input.Told? && input.msg.Cb? && input.msg.cb.SinkStart?
  }

  lemma AnnouncedStep(s: Source, input: Input)
    ensures Step(s, input).0.numStarted == if Announces(input) then |Step(s, input).0.started| else s.numStarted
  {
    match input
    case Pulled(reply) =>
    case Told(msg) =>
      match msg
      case DrainSource =>
      case Cb(cb) =>
      case _ =>
  }

  /**
   In every run the fields are what the inputs so far say: how many pipelines were linked to each port, how many restores
   came, whether the last news about the connection was good, and which streams are open.
   */
  lemma {:induction false} FieldsAreHistory(run: Run, n: nat, stream: nat)
    requires StartsFresh(run) && n < |run.states|
    ensures var s := run.states[n];
            && s.outs == Times(run.inputs, n, Told(LinkSource(OutPort)))
               && s.errs == Times(run.inputs, n, Told(LinkSource(ErrPort)))
            && s.restores == Times(run.inputs, n, Told(Cb(Restore)))
            && (s.connected <==> Online(run.inputs, n)) && (stream in s.streams <==> OpenStream(run.inputs, n, stream))
  {
    if n > 0 {
      FieldsAreHistory(run, n - 1, stream);
      assert Moves(run, n - 1);
      CountsStep(run.states[n - 1], run.inputs[n - 1]);
      ConnectedStep(run.states[n - 1], run.inputs[n - 1]);
      StreamsStep(run.states[n - 1], run.inputs[n - 1], stream);
      OnlineStep(run.inputs, n - 1);
      OpenStreamStep(run.inputs, n - 1, stream);
    }
  }

  /** How many sinks were awaited when the last one announced itself. */
  ghost function Announced(run: Run, n: nat): nat
    requires Shaped(run) && n <= |run.inputs|
  {
    if n == 0 then 0 else if Announces(run.inputs[n - 1]) then |run.states[n].started| else Announced(run, n - 1)
  }

  lemma {:induction false} AnnouncedIs(run: Run, n: nat)
    requires StartsFresh(run) && n < |run.states|
    ensures run.states[n].numStarted == Announced(run, n)
  {
    if n > 0 {
      AnnouncedIs(run, n - 1);
      assert Moves(run, n - 1);
      AnnouncedStep(run.states[n - 1], run.inputs[n - 1]);
    }
  }

  /**
   In every run a source may pull if and only if it is running, or drains and streams asynchronously; some pipeline is linked;
   the connection is up; and a restore came, as many as sinks were awaited when the last one announced itself.
   */
  lemma PullsIff(run: Run, n: nat)
    requires StartsFresh(run) && n < |run.states|
    ensures ShouldPull(run.states[n])
            <==> && (run.states[n].phase == Running || (run.states[n].phase == Draining && run.states[n].isAsync))
                 && Times(run.inputs, n, Told(LinkSource(OutPort))) > 0 && Online(run.inputs, n)
                 && Times(run.inputs, n, Told(Cb(Restore))) > 0 && Times(run.inputs, n, Told(Cb(Restore))) >= Announced(run, n)
  {
    FieldsAreHistory(run, n, 0);
    AnnouncedIs(run, n);
  }

  // ----- waiting for streams

  /** The last stream of the source ends, in one way or the other. */
  predicate LastStreamEnds(s: Source, input: Input) {
    input.Pulled? && (input.reply.EndStream? || input.reply.StreamFail?) && s.streams - {input.reply.ended} == {}
  }

  predicate Ordinary(input: Input) {
    input != Told(DrainSource) && input != Told(StopSource) && input != Pulled(Finished)
  }

  lemma DrainingStep(s: Source, input: Input)
    requires s.phase == Draining && Ordinary(input)
    ensures var (t, es) := Step(s, input);
            && (SendSignal(DrainSignal) in es <==> LastStreamEnds(s, input))
            && (t.phase == Draining <==> !LastStreamEnds(s, input) && !Wakes(input))
  {
    if input.Pulled? && input.reply.Received? {
      RoutedOnly(input.reply.events);
    } else if input.Pulled? && input.reply.EndStream? {
      RoutedOnly(input.reply.last);
    }
  }

  lemma OtherwiseStep(s: Source, input: Input)
    requires s.phase != Draining && Ordinary(input)
    ensures SendSignal(DrainSignal) !in Step(s, input).1 && Step(s, input).0.phase != Draining
  {
    if input.Pulled? && input.reply.Received? {
      RoutedOnly(input.reply.events);
    } else if input.Pulled? && input.reply.EndStream? {
      RoutedOnly(input.reply.last);
    }
  }

  /** A source that drains at step `n` has done so since step `i`, and no circuit breaker event came. */
  lemma {:induction false} DrainedSince(run: Run, i: nat, n: nat)
    requires IsRun(run) && i <= n < |run.states| && run.states[n].phase == Draining
    requires forall h :: i <= h < n ==> Ordinary(run.inputs[h])
    ensures forall h :: i <= h < n ==> run.states[h].phase == Draining && !Wakes(run.inputs[h])
    decreases n - i
  {
    if i < n {
      assert Moves(run, n - 1);
      if run.states[n - 1].phase != Draining {
        OtherwiseStep(run.states[n - 1], run.inputs[n - 1]);
      } else {
        DrainingStep(run.states[n - 1], run.inputs[n - 1]);
        DrainedSince(run, i, n - 1);
      }
    }
  }

  lemma {:induction false} DrainsOn(run: Run, i: nat, n: nat)
    requires IsRun(run) && i <= n < |run.states| && run.states[i].phase == Draining
    requires forall h :: i <= h < n ==> Ordinary(run.inputs[h]) && !Wakes(run.inputs[h])
    ensures run.states[n].phase == Draining || exists h :: i <= h < n && SendSignal(DrainSignal) in EffectsAt(run, h)
    decreases n - i
  {
    if i < n {
      DrainsOn(run, i, n - 1);
      assert Moves(run, n - 1);
      if run.states[n - 1].phase == Draining {
        DrainingStep(run.states[n - 1], run.inputs[n - 1]);
        if LastStreamEnds(run.states[n - 1], run.inputs[n - 1]) {
          assert SendSignal(DrainSignal) in EffectsAt(run, n - 1);
        }
      }
    }
  }

  /**
   A source that was asked to drain and waits for its streams sends its drain signal if and only if its
   last stream ends before a circuit breaker event comes; such an event makes it forget that it drains.
   */
  lemma SignalsIff(run: Run, i: nat)
    requires IsRun(run) && i < |run.states| && run.states[i].phase == Draining
    requires forall h :: i <= h < |run.inputs| ==> Ordinary(run.inputs[h])
    ensures (exists n :: i <= n < |run.inputs| && SendSignal(DrainSignal) in EffectsAt(run, n))
            <==> (exists n :: && i <= n < |run.inputs| && LastStreamEnds(run.states[n], run.inputs[n])
                              && forall h :: i <= h < n ==> !Wakes(run.inputs[h]))
  {
    if n :| i <= n < |run.inputs| && SendSignal(DrainSignal) in EffectsAt(run, n) {
      assert Moves(run, n);
      if run.states[n].phase != Draining {
        OtherwiseStep(run.states[n], run.inputs[n]);
      } else {
        DrainingStep(run.states[n], run.inputs[n]);
        DrainedSince(run, i, n);
      }
    }
    if n :| && i <= n < |run.inputs| && LastStreamEnds(run.states[n], run.inputs[n])
            && forall h :: i <= h < n ==> !Wakes(run.inputs[h]) {
      DrainsOn(run, i, n);
      if run.states[n].phase == Draining {
        DrainingStep(run.states[n], run.inputs[n]);
        assert SendSignal(DrainSignal) in EffectsAt(run, n);
      }
    }
  }

  // ----- where the promises fail

  /** A source with one pipeline that a sink has told about itself and that may pull. */
  function UpSource(isAsync: bool): Source {
    Fresh(0, isAsync).(phase := Running, connected := true, outs := 1, started := {1}, numStarted := 1, restores := 1)
  }

  lemma Goes(run: Run, input: Input) returns (longer: Run)
    requires StartsFresh(run) && Possible(run.states[|run.inputs|], input)
    ensures StartsFresh(longer) && longer.inputs == run.inputs + [input]
    ensures longer.states == run.states + [Step(run.states[|run.inputs|], input).0]
  {
    longer := Run(run.states + [Step(run.states[|run.inputs|], input).0], run.inputs + [input]);
    forall i | 0 <= i < |longer.inputs|
      ensures Moves(longer, i)
    {
      if i < |run.inputs| {
        assert Moves(run, i);
      }
    }
  }

  /** From a fresh source: it is linked, connected and started. */
  lemma ComesAlive(isAsync: bool) returns (run: Run)
    ensures StartsFresh(run) && |run.inputs| == 3
    ensures run.states[3] == Fresh(0, isAsync).(phase := Running, connected := true, outs := 1)
    ensures forall i :: 0 <= i < 3 ==> run.inputs[i] != Told(DrainSource)
  {
    run := Run([Fresh(0, isAsync)], []);
    run := Goes(run, Told(LinkSource(OutPort)));
    run := Goes(run, Told(ConnectSource(true)));
    run := Goes(run, Told(StartSource));
  }

  /** Then it hears of sink 1. */
  lemma ComesUp(isAsync: bool) returns (run: Run)
    ensures StartsFresh(run) && |run.inputs| == 5 && run.states[5] == UpSource(isAsync)
    ensures forall i :: 0 <= i < 5 ==> run.inputs[i] != Told(DrainSource)
  {
    run := ComesAlive(isAsync);
    assert {} + {1} == {1} && |{1}| == 1;
    run := Goes(run, Told(Cb(SinkStart(1))));
    run := Goes(run, Told(Cb(Restore)));
  }

  /** Without that proviso the promise fails: a restored source routes events after its drain signal. */
  lemma RoutesAfterDrainSignal() returns (run: Run)
    ensures StartsFresh(run) && |run.inputs| == 8
    ensures SendSignal(DrainSignal) in EffectsAt(run, 5) && RouteEvent(OutPort, 7) in EffectsAt(run, 7)
  {
    run := ComesUp(false);
    run := Goes(run, Told(DrainSource));
    run := Goes(run, Told(Cb(Restore)));
    run := Goes(run, Pulled(Received(None, true, [(OutPort, 7)])));
    assert Routed([(OutPort, 7)]) == [RouteEvent(OutPort, 7)] + Routed([]);
  }

  /** A source that had finished by itself reports at once, although sink 1 is awaited. */
  lemma ReportsTooEarly() returns (run: Run)
    ensures StartsFresh(run) && |run.inputs| == 7 && DrainsOnce(run.inputs)
    ensures ReportDrained in EffectsAt(run, 6) && Awaited(run.states[0].uid, run.inputs, 7, 1)
  {
    run := ComesUp(false);
    run := Goes(run, Pulled(Finished));
    run := Goes(run, Told(DrainSource));
    StartedIsAwaited(run, 7, 1);
  }

  /** A source that is restored while it waits for its stream has not sent its drain signal when the stream has ended. */
  lemma ForgetsToDrain() returns (run: Run)
    ensures StartsFresh(run) && |run.inputs| == 9 && run.inputs[6] == Told(DrainSource) && run.states[7].phase == Draining
    ensures run.states[9].streams == {} && run.states[9].channel && run.states[9].started == {1}
    ensures forall n :: 7 <= n < 9 ==> SendSignal(DrainSignal) !in EffectsAt(run, n)
  {
    run := ComesUp(true);
    assert Routed([]) == [] && {} + {9} == {9};
    run := Goes(run, Pulled(Received(Some(9), true, [])));
    run := Goes(run, Told(DrainSource));
    run := Goes(run, Told(Cb(Restore)));
    run := Goes(run, Pulled(EndStream(9, [])));
    assert {9} - {9} == {};
  }
}
