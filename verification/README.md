# Tremor runtime: a verified model

Tremor is an event processing runtime. Sources read events from the outside, pipelines transform and
route them, sinks write them out; connectors own a source and a sink part, and a flow owns connectors
and pipelines. This project models two cores of it in Dafny and proves what they promise.

**Quiescence.** A flow is drained by a protocol between its tasks: the flow asks its connectors, each
asks its source, the source sends a drain signal through the pipelines, sinks acknowledge it with
contraflow that travels backwards, and the answers are collected on the way up. Each task is modelled
as a class that follows the handlers of the source, proved against a function from state and message to
state and effects (`Source.dfy`, `Sink.dfy`, `Connector.dfy`, `Flow.dfy`). `Network.dfy` models the
queues between them, with any number of links between tasks. `Quiescence.dfy` puts everything together
into a transition system in which any task may take its next step at any time, and proves over all its
runs that draining loses nothing. The other modules prove results about the same runs:

- `Paths.dfy`: an acknowledgement can be relied on, in all runs, if and only if there is one way from the
  source to the sink.
- `Answers.dfy`, `Homing.dfy`, `Reports.dfy`: how often connectors answer and sources report, and, from
  that, that a flow that tells that it is drained is drained.
- `Origins.dfy`, `Progress.dfy`: draining never gets stuck.
- `Ending.dfy`, `Circle.dfy`: draining ends, if and only if tasks are not linked in a circle.
- `Play.dfy`, `Scenario.dfy`, `Completion.dfy`: how runs are put together, for any topology; used for
  the unsafe runs in `Paths.dfy` and for runs that meet all hypotheses at once.

`Counterflow.dfy` and `Merge.dfy` are about the channels: how much contraflow can wait, and when a
bounded channel for it would deadlock.

**Wire formats.** GELF chunking with its timed reassembly (`Gelf.dfy`), the binary `tremor` codec
(`Tremor.dfy`), framing by length and by separator (`Framing.dfy`, `Separate.dfy`), the `chunk`
postprocessor (`Chunk.dfy`), chains of processors (`Chain.dfy`, `Flush.dfy`), the serializer that keeps them per
stream (`Serializer.dfy`) and the `dogstatsd` codec (`DogStatsD.dfy`). Encoders and decoders are proved
inverse to each other, on all inputs, together with the exact conditions where they are not.

Several natural expectations do not hold of the code. For each of them the project keeps the code's
behaviour, gives an input on which the expectation fails, and proves exactly when it holds:

- Contraflow is not bounded by `N * (q + F)` (`N` contraflow messages per handled message, a sink queue of
  `q`, `F` sends per forward message): the sink takes a message out of its queue before it answers it, so
  the exact bound is `N * (q + 1 + F)`.
- A drain request that finds a source or a sink drained already is answered at once, whatever it still waits for.
- A drained source can be woken by circuit breaker events and then routes events after its drain signal.
- The flow counts answers without looking at who gave them, and connectors can answer twice.
- With two ways from a source to a sink the drain signal can overtake events; parallel links on one way do no harm.
- Where tasks are linked in a circle, contraflow and signals go round for ever; otherwise everything comes to rest.
- A source that waits for its streams to end before it sends its drain signal forgets to when a circuit
  breaker event comes first.
- GELF messages are lost when a chunk arrives twice, and are kept longer than five seconds.
- An empty message at the end of a stream of length words is held back. After one error the reader of
  textual lengths fails forever.
- Parts over the maximum length make the result depend on how the stream is cut into pieces, unless all
  parts are too long.
- Finishing a chain of processors does not flush it: a processor behind one that has nothing to give is not
  told to finish.
- The binary codec accepts objects that repeat a key, which no value with unique keys is written as.
- DogStatsD fields with a `|`, and empty lists of tags, do not survive.
- A message that fills a chunk by itself is not sent at once when it comes to a chunk that is not empty.

`dafny verify dfyconfig.toml` checks the whole project.

## Model

| member | source | states |
|---|---|---|
| `Quiescence.DrainLosesNothing` | src/connectors/source.rs:801-823 | In every run, once a source that heard from a sink no longer waits for it, that sink has handled everything the source sent it before its first drain signal, in order and as often as links carry it; all that is in flight was sent later |
| `Quiescence.QuiescentMeansDelivered` | src/system/flow.rs:646-667 | In every run, when the flow tells that it is drained and no connector answered twice, every asked source that did not finish by itself has reported, and every sink it had heard from then has handled everything sent before the drain signal |
| `ReportCount.ToldMeansDrained` | src/system/flow.rs:646-667 | In every run, when the flow tells that it is drained, every sink that an asked source feeds has handled all that was sent before the drain signal, provided that each asked connector has a part, its source reaches each sink over one way, had heard of all of them before the request and did not finish by itself; nothing is assumed of answers |
| `ReportCount.ReportsOnce` | src/connectors/source.rs:801-823 | In every run such a source reports at most once: its drain signal reaches each sink once, and one acknowledgement of each comes back |
| `ReportCount.AlwaysAcks` | src/pipeline.rs:437-470 | In every run, acknowledgements that came back over the only way and those on it are no more than the drain signals the sink handled |
| `ReportCount.HandledAtMost` | src/pipeline.rs:401-434 | In every run a sink handles the drain signal of a source no more often than it was sent, over one way without parallel links |
| `AnswerCount.AnswersAtMost` | src/connectors.rs:776-851 | In every run a connector answers at most as often as its source reported, and at most once if it has only a sink |
| `Homing.HearsOnlyOfItsSinks` | src/pipeline.rs:437-470 | In every run a source hears only of sinks that it has a way to, because contraflow travels links backwards |
| `Progress.StuckMeansTold` | src/system/flow.rs:539-573 | From a state in which everything is up, without operators who interfere and for any topology: where no task can take a step any more, after all connectors were asked, all connectors have answered if and only if every source that streams asynchronously has sent its drain signal or waits for nobody, and then the flow has told that it is drained |
| `Ending.DrainingEnds` | src/system/flow.rs:539-573 | From every state of such a run after all connectors were asked, if no task is linked in a circle: all that the tasks still do without new input, in any order, ends within a bound on the number of steps; there is such a run to the end, and at its end the flow has told, unless a source waits for its streams |
| `Ending.EveryRunEnds` | src/pipeline.rs:401-470 | Without circles each state, of any run at all, has a bound on the number of steps that tasks can still make without new input |
| `Circles.EndsIff` | src/pipeline.rs:418-470 | There is such a bound for every state if and only if no task is linked in a circle, where circles lead to a sink, or have two tasks and are fed by a source: contraflow, or signals, go round for any number of steps |
| `Progress.AlwaysAlive` | src/connectors.rs:776-851 | Invariant of such runs for every connector: a request is taken, reports are recorded and passed on, and when all parts have drained it has answered |
| `Progress.AlwaysAckOn` | src/connectors/sink.rs:817-846 | In such runs the acknowledgement of a handled drain signal is at some task of every way back, or the source no longer waits for the sink |
| `Completion.UpIsReached` | src/connectors/source.rs:758-800 | A run after which a source and a sink with one pipeline between them are up |
| `Origins.AlwaysSignalOn` | src/connectors/source.rs:922-938 | In every run a signal that was sent has been handled by the sink at the end of any way, or is at some task of that way |
| `OneWay.SafeIff` | src/pipeline.rs:401-434 | With given links, in all runs and whatever the pipelines do with events, no event is overtaken by the drain signal of its source, if and only if there is one way through the tasks from the source to the sink |
| `OneWay.OnlyWalkIsSafe` | src/connectors/source.rs:801-823 | With one way, when a source no longer waits for a sink nothing sent before its drain signal is on any way to it |
| `OneWay.ForkIsUnsafe` | src/pipeline.rs:401-434 | With two ways, a run from the start in which the source no longer waits for the sink while an earlier event is still on its way |
| `Completion.DrainCompletes` | src/connectors/source.rs:699-826 | For any topology with one way from a source to a sink, a run from start to finish in which an event is sent and handled, both connectors are asked and answer once, the flow tells that it is drained, and the hypotheses of the results about draining hold |
| `Completion.ToldTooEarly` | src/system/flow.rs:655-657 | A run in which a connector without parts answers twice and the flow tells that it is drained while an asked source has not reported |
| `Quiescence.AlwaysInvariant` | src/connectors/source.rs:1190-1235 | Inductive invariant of all runs: every acknowledgement on its way is backed by a handled drain signal, every report by a source without awaited sinks, every connector answer by reports, every flow answer by a connector |
| `Quiescence.AlwaysConserved` | src/pipeline.rs:556-591 | In every run, along the only path from a source to a sink, handled followed by in flight is exactly what was sent |
| `Network.DrainBarrier` | src/connectors/sink.rs:817-846 | A sink that has handled a source's drain signal has handled all that the source sent it before, in order |
| `Network.DrainWasSent` | src/connectors/source.rs:699-756 | A drain signal a sink has handled was sent by its source |
| `Network.EmitConserved` | src/connectors/source.rs:863-919 | Sending events and signals to all connected pipelines neither loses, doubles nor reorders what travels a path |
| `Network.ForwardBalanced` | src/pipeline.rs:401-434 | Handing a message on to all its destinations neither loses, doubles nor reorders what travels a path |
| `Network.DeliverBalanced` | src/pipeline.rs:401-434 | Making one pending send neither loses, doubles nor reorders what travels a path |
| `Network.ConsumeBalanced` | src/connectors/sink.rs:642-700 | A sink that takes a message moves it from in flight to handled |
| `Network.CopiesAre` | src/pipeline.rs:401-434 | A task makes one copy of a message for each link that passes it, and no other |
| `Playing.PassesBack` | src/pipeline.rs:437-470 | Circuit breaker events, sink starts and drain acknowledgements are passed back to all tasks that feed a pipeline |
| `SourceTask.SourceManager.HandleMsg` | src/connectors/source.rs:618-697 | The control plane handler has the state change and the effects of its specification |
| `SourceTask.SourceManager.HandleDrain` | src/connectors/source.rs:699-756 | The drain handler likewise, with the immediate answers of a source that is drained already or waits for no sink |
| `SourceTask.SourceManager.HandleCb` | src/connectors/source.rs:758-826 | The contraflow handler likewise: trigger, restore, sink starts, drain acknowledgements |
| `SourceTask.SourceManager.HandleReply` | src/connectors/source.rs:941-1002 | What a reply of the source implementation does: routing, ending streams, draining on finish |
| `SourceTask.SourceManager.RouteEvents` | src/connectors/source.rs:872-919 | Routes all events to known ports, in order, and skips unknown ports |
| `SourceTask.StartedIsAwaited` | src/connectors/source.rs:795-823 | In every run the set of started sinks is exactly the sinks that announced themselves and have not acknowledged the drain since |
| `SourceTask.ReportsOnlyWhenDrained` | src/connectors/source.rs:801-823 | In every run with one drain request and no finish before it, the source reports only when every announced sink has acknowledged |
| `SourceTask.HastyReport` | src/connectors/source.rs:702-708 | A source reports while it still waits for a sink if and only if it is asked to drain when it is drained already |
| `SourceTask.ReportsTooEarly` | src/connectors/source.rs:702-708 | A run from a fresh source that finished by itself and reports on request while a sink is awaited |
| `SourceTask.WakesIff` | src/connectors/source.rs:776-794 | A drained source wakes up if and only if a circuit breaker event reaches it |
| `SourceTask.SilentAfterDrainSignal` | src/connectors/source.rs:922-938 | In every run no event is routed after the drain signal as long as no circuit breaker event follows it |
| `SourceTask.SilentAfterTrigger` | src/connectors/source.rs:776-794 | In every run, after a trigger no event is sent until the source is restored, resumed or asked to drain |
| `SourceTask.RunsAgainIff` | src/connectors/source.rs:776-794 | In every run, a triggered source that is not asked to drain or stop runs again if and only if it was restored or resumed since, and neither triggered nor paused after that |
| `SourceTask.PullsIff` | src/connectors/source.rs:922-938 | In every run a source pulls if and only if it is running (or draining asynchronously), a pipeline was linked, the last news of the connection was good, and restores came, as many as sinks were awaited when the last one announced itself |
| `SourceTask.FieldsAreHistory` | src/connectors/source.rs:618-697 | In every run the counters, the connection and the open streams are what the inputs so far say |
| `SourceTask.AnnouncedIs` | src/connectors/source.rs:795-800 | In every run the number of sinks the restores are compared with is how many were awaited when the last sink announced itself |
| `SourceTask.RunningIff` | src/connectors/source.rs:618-826 | Which message makes or keeps a source running |
| `SourceTask.PausedIff` | src/connectors/source.rs:776-794 | Which message makes or keeps a source paused; a trigger always does |
| `SourceTask.DrainingIff` | src/connectors/source.rs:699-756 | Which message makes or keeps a source waiting for its streams to end |
| `SourceTask.InitializedIff` | src/connectors/source.rs:640-697 | Which messages leave a source where it has not started |
| `SourceTask.RoutesIff` | src/connectors/source.rs:941-1002 | An event is sent if and only if it was pulled for a known port, as data that could be handled or as the rest of a stream that is open |
| `SourceTask.DrainSignalIff` | src/connectors/source.rs:699-756 | When the drain signal is sent: on request, if there are no streams to wait for; when the last one ends; when the source finishes |
| `SourceTask.SignalComesLast` | src/connectors/source.rs:978-1002 | The drain signal comes after all events of its step, and once |
| `SourceTask.ReportIff` | src/connectors/source.rs:699-823 | When a source reports: on request, if nobody is awaited or it is drained already; when the last awaited sink has drained |
| `SourceTask.SignalsIff` | src/connectors/source.rs:978-995 | In every run a source that was asked to drain and waits for its streams sends its drain signal if and only if its last stream ends before a circuit breaker event comes |
| `SourceTask.ForgetsToDrain` | src/connectors/source.rs:776-794 | A run from a fresh source that is restored while it waits for its stream: the stream has ended, a sink is awaited, and no drain signal was sent |
| `SourceTask.RoutesAfterDrainSignal` | src/connectors/source.rs:784-794 | A run from a fresh source in which it is restored and routes an event after its drain signal |
| `SinkTask.SinkManager.HandleControl` | src/connectors/sink.rs:651-764 | Control messages have the state change and the effects of their specification |
| `SinkTask.SinkManager.HandleItem` | src/connectors/sink.rs:651-876 | One message of any kind: new state and effects, with the drain answer when the last started source drains |
| `SinkTask.SinkManager.HandleReplies` | src/connectors/sink.rs:981-1004 | Turns a reply of the implementation into contraflow, with an acknowledgement added where it is due |
| `SinkTask.InsightBound` | src/connectors/sink.rs:981-1004 | Contraflow arises only in response to messages: at most one for a control message, two for an event, three for a signal |
| `SinkTask.EventIff` | src/connectors/sink.rs:765-816 | How often each insight comes for an event: once what the implementation says, once an acknowledgement if it was delivered, once a failure if it failed |
| `SinkTask.AnsweredOnce` | src/connectors/sink.rs:981-1004 | A transactional event at a sink that acknowledges by itself gets exactly one answer, an acknowledgement exactly when the implementation did not fail |
| `SinkTask.SignalIff` | src/connectors/sink.rs:817-871 | How often each insight comes for a signal: nothing is acknowledged by itself, a drain is always |
| `SinkTask.ControlIff` | src/connectors/sink.rs:651-764 | How often each insight comes for a control message: a start announces the sink, the connection opens or closes the circuit breaker |
| `SinkTask.Order` | src/connectors/sink.rs:817-871 | The report comes before all else and the acknowledgement of the drain next; for all other messages what the implementation says comes before its answer |
| `SinkTask.SinkPhaseIff` | src/connectors/sink.rs:651-764 | Each phase of a sink: which messages lead there or leave it there |
| `SinkTask.SignalsAreRemembered` | src/connectors/sink.rs:817-846 | In every run the sources that started and those that drained are those whose signals were handled |
| `SinkTask.DrainAccounting` | src/connectors/sink.rs:703-743 | In every run, reports sent and senders stored add up to the drain requests not ignored, and a sink is draining only while a started source has not drained |
| `SinkTask.HastyReport` | src/connectors/sink.rs:703-743 | A sink reports although a started source has not drained if and only if it is asked again after it had drained and a source started since |
| `SinkTask.ReportsTooEarly` | src/connectors/sink.rs:703-743 | A run in which a drained sink reports on request although another source has started since |
| `SinkTask.AcknowledgesDrain` | src/connectors/sink.rs:817-846 | A sink acknowledges exactly the drain signals it handles, with its own uid |
| `ConnectorLoop.ConnectorTask.HandleDrain` | src/connectors.rs:776-807 | State change and messages of a drain request, for connectors with any combination of parts |
| `ConnectorLoop.ConnectorTask.HandleSourceDrained` | src/connectors.rs:808-833 | Records the source part, asks the sink part, answers when all parts are drained |
| `ConnectorLoop.ConnectorTask.HandleSinkDrained` | src/connectors.rs:834-851 | Records the sink part and answers when all parts are drained |
| `ConnectorLoop.ConnectorTask.HandleReconnect` | src/connectors.rs:662-704 | Connectivity changes, and a failed attempt fails the connector |
| `ConnectorLoop.AnswersAfterAllParts` | src/connectors.rs:776-851 | In every run a connector answers only after each part it has reported since the request |
| `ConnectorLoop.SinkDrainsAfterSource` | src/connectors.rs:808-833 | In every run the sink part is asked to drain only after the source part reported |
| `ConnectorLoop.RecordIsHonest` | src/connectors.rs:896-943 | In every run, a part the drain record holds as drained has reported since the request, and a part it holds as absent does not exist |
| `ConnectorLoop.SilentOnceFailed` | src/connectors.rs:846-851 | A connector that failed while draining never answers that request |
| `ConnectorLoop.AnswersAgain` | src/connectors.rs:808-845 | Once all parts are drained the connector answers again if and only if a part reports again |
| `ConnectorLoop.NeitherPartAnswersTwice` | src/connectors.rs:793-817 | A connector without parts answers one request twice |
| `ConnectorLoop.ToldSourceIff` | src/connectors.rs:644-870 | Which message makes a connector tell its source part what |
| `ConnectorLoop.ToldSinkIff` | src/connectors.rs:644-870 | Which message makes a connector tell its sink part what; it is asked to drain when the source part has drained |
| `ConnectorLoop.ToldSelfIff` | src/connectors.rs:793-830 | A part that is not there reports to be drained when it is its turn |
| `ConnectorLoop.AnsweredIff` | src/connectors.rs:776-845 | A drain request is answered when the last part that was waited for reports, and at once if there is none |
| `ConnectorLoop.StartAnsweredIff` | src/connectors.rs:662-736 | A start request is answered well when the connection is up or comes up, and badly when the last attempt fails |
| `ConnectorLoop.ReconnectsIff` | src/connectors.rs:644-772 | Who connects again, and when |
| `ConnectorLoop.EffectsOnce` | src/connectors.rs:644-870 | Nothing is sent twice in one step; the sink part hears first of the connection, the source part of all else |
| `ConnectorLoop.ConnectorPhaseIff` | src/connectors.rs:644-870 | Each phase of a connector: which messages lead there or leave it there |
| `ConnectorLoop.NewsAreKept` | src/connectors.rs:644-704 | In every run a connector knows whether it is connected, and whether its start request is still to be answered |
| `FlowLoop.Partition` | src/system/flow.rs:432-469 | Start, mixed and end points are disjoint and cover exactly the linked connectors |
| `FlowLoop.FlowTask.HandleDrain` | src/system/flow.rs:539-573 | A drain request is sent to each linked connector whose channel is open, once, and the expected answers grow by their number |
| `FlowLoop.FlowTask.constructor` | src/system/flow.rs:432-469 | The three lists of connectors made from the links hold each connector of their kind once |
| `FlowLoop.FlowTask.HandleDrainResult` | src/system/flow.rs:646-667 | The answer handler tells all stored senders when the count is reached |
| `FlowLoop.ToldAtLast` | src/system/flow.rs:646-667 | Senders are told exactly at the answer that completes the expected number, for any number of answers |
| `FlowLoop.TruthfulIff` | src/system/flow.rs:655-657 | When the senders are told, every asked connector has answered if and only if none answered twice |
| `FlowLoop.SendersAreKept` | src/system/flow.rs:539-667 | In every run every sender of a request was told, or still waits, as often as it was heard |
| `FlowLoop.ExpectedIs` | src/system/flow.rs:539-667 | In every run without answers nobody was asked for, the flow expects as many answers as were asked for and have not come |
| `FlowLoop.DrainsFromThenOn` | src/system/flow.rs:539-543 | From a request on the flow drains, and hears no other request |
| `PriorityMerge.PollTakesFirst` | src/primerge.rs:61-71 | However merges are nested, a poll takes the oldest item of the first busy stream in priority order and nothing else; the merge ends if and only if all streams have |
| `PriorityMerge.ForwardComesLast` | src/pipeline.rs:554-556 | A pipeline takes a forward message if and only if one waits and neither management nor contraflow does |
| `Counterflow.CounterflowBounded` | src/pipeline.rs:187-203 | In every reachable state at most `insights * (queue + 1 + fanout)` contraflow messages wait |
| `Counterflow.BoundIsReached` | src/pipeline.rs:187-203 | For all limits some run reaches that bound, so it is exact |
| `Counterflow.UnboundedNeverDeadlocks` | src/connectors/source.rs:353-374 | With the unbounded channel no reachable state with work left is stuck |
| `Counterflow.DeadlockIff` | src/connectors/source.rs:370-374 | With a bounded channel some run deadlocks if and only if its capacity is below `insights * fanout` |
| `Counterflow.RunsEnd` | src/pipeline.rs:187-203 | Without new input every run is finite; an explicit weight bounds its length |
| `Counterflow.EndsEmpty` | src/pipeline.rs:187-203 | Where such a run ends, all queues are empty |
| `Gelf.Encoder.Encode` | src/postprocessor/gelf_chunking.rs:38-70 | The packets of all chunks in order, none longer than the chunk size and all but the last as long; or, exactly for more than 128 times the chunk size without headers, an error that does not use up the id; ids wrap around |
| `Gelf.ChunkAt` | src/postprocessor/gelf_chunking.rs:39 | Chunk `i` holds the bytes from `i * size` on, `size` of them unless the data ends before |
| `Gelf.TooManyIff` | src/postprocessor/gelf_chunking.rs:39-48 | More than 128 chunks are needed exactly for more than 128 times the size of a chunk |
| `Gelf.PacketBytes` | src/postprocessor/gelf_chunking.rs:50-69 | A packet byte by byte: magic, id in network order, number, count, chunk |
| `Gelf.HeaderErrors` | src/preprocessor/gelf_chunking.rs:125-127 | What a refused packet is reported with: its length, and its first two bytes as far as there are any |
| `Gelf.DecodePacket` | src/preprocessor/gelf_chunking.rs:85-129 | Reading a packet gives back the id, number, count and data it was made from |
| `Gelf.Assemble` | src/preprocessor/gelf_chunking.rs:246-257 | Joins all segments, or gives nothing if one is missing |
| `Gelf.Decoder.EnqueueSegment` | src/preprocessor/gelf_chunking.rs:147-243 | Searching two generations and updating in place equals one step on the incomplete message with that id, wherever it is kept |
| `Gelf.Decoder.ProcessPacket` | src/preprocessor/gelf_chunking.rs:136-143 | A packet is decoded and enqueued; a malformed one is an error that changes nothing |
| `Gelf.CollectSound` | src/preprocessor/gelf_chunking.rs:155-243 | Counters agree with the segments and never overflow, and a message that counts as complete has all its segments |
| `Gelf.AlwaysValid` | src/preprocessor/gelf_chunking.rs:147-257 | For all packets at all times the two generations have no id in common and every incomplete message is sound |
| `Gelf.Isolated` | src/preprocessor/gelf_chunking.rs:147-243 | For any one message id, a run with any other packets in between leaves the same incomplete message as its own chunks alone, until the second swap after the first of them |
| `Gelf.DeliversIff` | src/preprocessor/gelf_chunking.rs:136-257 | Packets of an encoded message in any order, at any times, with any other packets in between: the last of as many as there are chunks gives the message, and no packet before gives any output, if and only if none came twice and the decoder swapped less than twice since the first |
| `Gelf.DeliversFromStart` | src/preprocessor/gelf_chunking.rs:136-257 | From the start of a decoder whose clock does not go back, within five seconds: if and only if none came twice |
| `Gelf.SingleChunk` | src/preprocessor/gelf_chunking.rs:155-157 | A message of one chunk comes out at once in any state |
| `Gelf.PlainForms` | src/preprocessor/gelf_chunking.rs:85-129 | Both forms without chunks come out whole at once; a packet is an error, which changes nothing, if and only if it is neither of these nor a chunk |
| `Gelf.KeptIff` | src/preprocessor/gelf_chunking.rs:148-154 | In every run of other packets an incomplete message is kept if and only if fewer than two swaps followed its first chunk |
| `Gelf.LateChunkDelivers` | src/preprocessor/gelf_chunking.rs:148-154 | A message of two chunks is delivered however late its second chunk comes |
| `TremorCodec.DecodesIff` | src/codec/tremor.rs:68-80 | Decoding gives a form, a value with its entries in wire order, if and only if its encoding is a prefix of the data |
| `TremorCodec.BeginsIff` | src/codec/tremor.rs:68-80 | Data begins with an encoding of a value, in whatever order its maps yield their entries, if and only if it is accepted, repeats no key in an object, and this value is what is read |
| `TremorCodec.RoundTrip` | src/codec/tremor.rs:237-245 | A value is read back whatever order the entries were written in and whatever follows |
| `TremorCodec.RepeatedKeys` | src/codec/tremor.rs:121-143 | Data that repeats a key is accepted although no value with unique keys is written like that |
| `TremorCodec.ReadsEncoded` | src/codec/tremor.rs:146-171 | Every nested form is read back whatever follows it, using exactly its bytes |
| `TremorCodec.EncodesRead` | src/codec/tremor.rs:146-171 | Every accepted input is the encoding of the form that was read |
| `TremorCodec.PrefixFree` | src/codec/tremor.rs:237-245 | No encoding of a value is a prefix of an encoding of another value |
| `TremorCodec.Truncated` | src/codec/tremor.rs:68-76 | No encoding that is cut off is accepted |
| `TremorCodec.TruncatedScalar` | src/codec/tremor.rs:83-103 | Which error a scalar that is cut off gives, by where it is cut |
| `TremorCodec.VersionFirst` | src/codec/tremor.rs:68-76 | The version is refused if and only if its two bytes are there and not 0 |
| `TremorCodec.Tags` | src/codec/tremor.rs:57-67 | The tags of all kinds of values, and where lengths stand |
| `TremorCodec.TwosComplement` | src/codec/tremor.rs:175-178 | Negative numbers are written in two's complement |
| `TremorCodec.ReadItems` | src/codec/tremor.rs:105-118 | The loop over an array gives the values that the forms on the wire mean |
| `TremorCodec.ReadEntries` | src/codec/tremor.rs:121-143 | The loop over an object fills a map with what the entries on the wire mean |
| `TremorCodec.ReadValue` | src/codec/tremor.rs:146-171 | The recursive decoder gives the value that the form on the wire means, or the same error |
| `TremorCodec.Codec.Write` | src/codec/tremor.rs:173-245 | The writer appends an encoding of the value, with the entries of each map in any order |
| `TremorCodec.Codec.EncodeToVec` | src/codec/tremor.rs:77-80 | A call gives the version and an encoding of its value and leaves the buffer empty |
| `LengthFraming.Preprocessor.ProcessData` | src/preprocessor/length_prefixed.rs:32-55 | The loop computes the specification, for length words and for textual lengths |
| `LengthFraming.DrainMore` | src/preprocessor/textual_length_prefixed.rs:31-66 | More data continues where the data so far left off; an error stays an error at the same place |
| `LengthFraming.PiecesDoNotMatter` | src/preprocessor/length_prefixed.rs:32-55 | However a stream is cut, some call fails if and only if one call with all of it would; otherwise messages and state are the same |
| `LengthFraming.DigitsReadBackIff` | src/postprocessor/textual_length_prefixed.rs:28-36 | However the stream is cut, framed messages come back if and only if each is shorter than 2^32 bytes; otherwise the reader fails |
| `LengthFraming.WordsReadBack` | src/postprocessor/length_prefixed.rs:31-36 | However the stream is cut, framed messages come back, except an empty last one, whose eight bytes stay in the buffer |
| `LengthFraming.FrameBytes` | src/postprocessor/length_prefixed.rs:31-36 | A frame byte by byte: a length word in network order; or digits without zeros in front, and a blank |
| `LengthFraming.LengthIsReadIff` | src/preprocessor/textual_length_prefixed.rs:45-62 | A length is awaited up to the first of five blanks; what is before it is a length if and only if it is digits, a plus sign before them allowed, below 2^32 |
| `LengthFraming.ErrorsLast` | src/preprocessor/textual_length_prefixed.rs:49-62 | After one error of the textual reader every later call fails, whatever it gets |
| `Separation.Preprocessor.ProcessData` | src/preprocessor/separate.rs:210-277 | Both modes compute the specification; the buffer never holds a separator and never more than the maximum, errors included |
| `Separation.Preprocessor.Finish` | src/preprocessor/separate.rs:279-293 | What is left in the buffer goes out, unless it is empty; without buffering the data is split as in any other call |
| `Separation.SplitsOnly` | src/preprocessor/separate.rs:210-277 | Records and rest are the only way to see the stream as terminated parts without separators |
| `Separation.SplitsMore` | src/preprocessor/separate.rs:210-277 | More data only continues the rest |
| `Separation.AllRecordsIff` | src/preprocessor/separate.rs:150-277 | However a stream is cut, all records come out and the rest is kept if and only if none is longer than the maximum |
| `Separation.SplitsWithFinish` | src/preprocessor/separate.rs:279-293 | With a finish in the end, all parts come out but an empty last one |
| `Separation.UnbufferedIff` | src/preprocessor/separate.rs:250-270 | Without buffering, the last part always comes out, and all others do if and only if none is too long |
| `Separation.EndsEmpty` | src/preprocessor/separate.rs:279-293 | After a finish nothing is left for another one |
| `Separation.ReadsBackIff` | src/postprocessor/separate.rs:74-80 | Written messages are read back, in whatever pieces, if and only if none holds the separator or is too long |
| `Separation.CutsMatterIff` | src/preprocessor/separate.rs:150-277 | The outcome for a stream is the same for all ways to cut it if and only if no part is too long, or the last part and all others are |
| `Separation.CutsMatter` | src/preprocessor/separate.rs:180-202 | With longer records the same stream loses one record, or fails and loses all, depending on the cut |
| `Chunking.Chunk.Process` | src/postprocessor/chunk.rs:69-92 | The bytes that go out are the group of messages that was closed |
| `Chunking.Chunk.Finish` | src/postprocessor/chunk.rs:94-126 | Like one more call, after which the open group goes out |
| `Chunking.BestPacking` | src/postprocessor/chunk.rs:69-126 | Outputs are consecutive groups of the accepted messages and their bytes are all accepted bytes in order, nothing lost, doubled, reordered or split, each at most the maximum and not empty, two neighbours always over the maximum, and no other grouping has fewer outputs |
| `Chunking.GivesIff` | src/postprocessor/chunk.rs:69-92 | A call gives a group exactly when its message is not too long and fills the open group, or goes beyond it |
| `Chunking.FullIff` | src/postprocessor/chunk.rs:69-92 | When a group that is full stays open: a message that fills a group by itself came to a group that was not empty |
| `Chains.RunChain` | src/postprocessor.rs:103-125 | The nested loops compute the specification, errors included |
| `Chains.RunFinish` | src/preprocessor.rs:133-166 | The finish loops compute the specification, errors included |
| `Chains.ChainAppend` | src/preprocessor.rs:104-126 | Two batches one after the other equal both at once: same success, data and states |
| `Chains.OrderDoesNotMatter` | src/postprocessor.rs:103-125 | Stage by stage and piece by piece give the same data and states, or both fail |
| `Chains.ChainConcat` | src/postprocessor.rs:103-125 | Two chains in a row are one chain |
| `Chains.DefaultFinishesSilently` | src/postprocessor.rs:51-53 | One processor with the default finish makes the finish of the whole chain give nothing and leaves all later processors as they are |
| `Chains.FinishReaches` | src/postprocessor.rs:132-165 | In chains of any length a processor ends up as the demands to finish make it, one for each piece it is given; given none, it and all after it stay as they are and nothing comes out |
| `Chains.ErrorStops` | src/postprocessor.rs:103-125 | A chain that fails does so at one processor: those before have taken what they were given, those behind were not reached |
| `Chains.FinishErrorStops` | src/postprocessor.rs:132-165 | The same for finishing |
| `Chains.PassedOverIff` | src/preprocessor.rs:133-166 | In chains of any machines a processor is not told to finish if and only if some processor before it gives nothing |
| `Flushing.HeldBack` | src/preprocessor.rs:50-52 | Every splitter that holds data behind a length framer: finishing the chain changes nothing and gives nothing, although the splitter gives its data when it is told |
| `Flushing.KeepsIff` | src/preprocessor.rs:133-166 | In a chain of framers and splitters a splitter keeps its data if and only if, before it, there is a framer, a first splitter without data, or a buffering splitter without data to which no byte of earlier ones gets |
| `Flushing.FlushesIff` | src/preprocessor.rs:133-166 | Finishing such a chain leaves no splitter with data if and only if no splitter with data comes after one of these |
| `Flushing.EndsGive` | src/preprocessor/separate.rs:279-293 | A splitter that is told to finish gives all bytes it holds and is given, but separators, and nothing if and only if there are none |
| `Serialization.EventSerializer.SerializeForStream` | src/connectors/sink.rs:526-565 | The new state and output of one call, with fresh codec and postprocessors for a new stream |
| `Serialization.EventSerializer.Flush` | src/connectors/sink.rs:568-574 | Removes the stream and gives what its postprocessors finish with |
| `Serialization.NewStream` | src/connectors/sink.rs:535-560 | A new stream starts with the codec of the overwrite, or else the configured one, and with fresh postprocessors; if one cannot be made the call fails and there is no stream |
| `Serialization.KnownStream` | src/connectors/sink.rs:526-560 | A stream that exists, and the default one, go on with what they have, whatever the overwrite |
| `Serialization.EndsStream` | src/connectors/sink.rs:493-574 | What ends a stream, and what stays |
| `Serialization.StreamIsOneChain` | src/connectors/sink.rs:526-565 | Values sent call by call give what the chain of the stream gives for all encoded values at once, with the same final states, and succeed if and only if that does |
| `Serialization.StreamsAreIsolated` | src/connectors/sink.rs:493-574 | In every interleaving of operations on all streams each stream gives what it would give alone |
| `DogStatsD.EventReadsBackIff` | src/codec/dogstatsd.rs:207-259 | The text of an event is read back to fields that hold each value of the event under its own name and once, if and only if no optional field holds a bar and tags are absent or a non-empty list without commas; title and text may hold anything |
| `DogStatsD.CheckReadsBackIff` | src/codec/dogstatsd.rs:261-294 | The text of a service check is read back to fields that hold each value under its own name and once, if and only if name and optional fields hold no bar, tags are as for events, and the status is 0 to 3 |
| `DogStatsD.EventIsWritten` | src/codec/dogstatsd.rs:207-259 | The text of every event: prefix, lengths, title, text, and each optional field behind its own mark, in order |
| `DogStatsD.CheckIsWritten` | src/codec/dogstatsd.rs:261-294 | The text of every service check likewise |
| `DogStatsD.EventIsReadIff` | src/codec/dogstatsd.rs:374-418 | A text is read as an event if and only if it has two lengths, a title and a text of these lengths with a bar between, and sections that can be read |
| `DogStatsD.CheckIsReadIff` | src/codec/dogstatsd.rs:421-447 | A text is read as a service check if and only if it has a name, a status from 0 to 3, and sections that can be read |
| `DogStatsD.SectionIsRead` | src/codec/dogstatsd.rs:394-415 | How every section is read: by its mark; unknown ones are skipped, and only a time that is no 32 bit number is an error |
| `DogStatsD.WrongLengths` | src/codec/dogstatsd.rs:379-386 | Lengths that do not fit what follows are refused |
| `DogStatsD.SectionsReadBack` | src/codec/dogstatsd.rs:374-418 | All optional fields are read back in the order they were written |
| `DogStatsD.TagsReadBack` | src/codec/dogstatsd.rs:297-310 | A list of tags that is not empty and has no commas is read back |
| `DogStatsD.ReadSections` | src/codec/dogstatsd.rs:394-415 | The loop over sections computes the specification, with the error for a malformed time |
| `DogStatsD.WriteEvent` | src/codec/dogstatsd.rs:207-259 | Writing an event piece by piece gives the specified text |
| `DogStatsD.WriteCheck` | src/codec/dogstatsd.rs:261-294 | Writing a service check piece by piece gives the specified text |
| `DogStatsD.Writer.WriteTags` | src/codec/dogstatsd.rs:297-310 | Appends the section with the tags, commas between them, if there are tags |

## Left out

- Asynchronous scheduling, closing channels, timeouts, logging and metrics: tasks take steps in any order, and sends succeed.
- The operator graph of a pipeline: it passes on each event unchanged to the destinations its routes say, and makes no events for signals; ticks are not modelled.
- Capacities of forward queues in the quiescence model: queues there are unbounded, which allows more runs.
- Ports of connectors and pipelines in the quiescence model: links stand for pairs of a port and a destination, and routes say which events go over which link. A message is sent over links in their order; the code makes the send to the first destination last.
- Drain acknowledgements and sink starts are made by the runtime only: sink implementations do not forge them.
- More than one drain request to the flow in a run, and the counting of starts and stops in the flow.
- Circles.EndsIff: circles that lead to no sink are left aside if they have one task only or no source feeds them; new input while draining (what sources pull, what sinks say on their own, operators) is not bounded.
- The order in which a pipeline polls in the quiescence model: it may take a forward message while contraflow waits or earlier sends are not made yet, which allows more runs. The runs that `OneWay.ForkIsUnsafe`, `Completion.DrainCompletes` and `Completion.UpIsReached` construct use this freedom; `PriorityMerge` has the order itself.
- SinkTask.SinkManager.HandleItem: replies that a sink gives later, on its own channel, are not part of this method; they are the step `SinkReplies` of the whole flow.
- Flushing.FlushesIff: splitters there have no maximum length; `Chains.PassedOverIff` covers all processors.
- ReportCount.ToldMeansDrained: the conditions are sufficient, and no claim is made that they are necessary.
- Quiescence.QuiescentMeansDelivered: says nothing of a source that finished by itself before, because such a source answers at once.
- The contraflow of a pipeline with several sinks: the exact bound is for one pipeline and one sink.
- Contraflow that sinks create on their own, not in response to a message: `Counterflow` covers what arises while a message is handled, as the comments in the source do.
- Reconnect timing and the quiescence beacon.
- TremorCodec.RepeatedKeys: values have unique keys here. What the map library does with a key that is there already is not part of this model: if it keeps both entries, the object is its wire-order form, which `TremorCodec.EncodesRead` shows to be written back as it was read.
- TremorCodec.ReadEntries: of entries with the same key the later one counts, where the source inserts without a check; no result about encodings depends on it.
- TremorCodec: the check of UTF-8 and the allocation for a length that was read are not modelled.
- DogStatsD: metrics are left out because of floating point numbers; plus signs before numbers are not accepted; lengths that cut a UTF-8 character and lengths whose sum exceeds 64 bits, where the code panics, are errors.
- Gelf: the random id of messages in the uncompressed form is never looked at and left out; debug builds, where a clock that goes back panics, are not modelled.
- `parts_per_chunk` and other capacities that only affect allocation.
- Compression, base64, JSON, msgpack, YAML, CSV, influx, binflux, syslog and statsd: wrappers around libraries, or easier relatives of what is here.
- Configuration parsing, lookup tables, the command line and the API.
