/**
 The vocabulary that sources, pipelines, sinks, connectors and the flow exchange.
 A connector uid doubles as the uid of its source part and of its sink part.
 */
module Protocol {

  type Uid = nat

  /** Contraflow actions that travel from sinks back to sources. */
  datatype CbAction =
    | NoAction
    | Trigger
    | Restore
    | Ack
    | Fail
    | SinkStart(sink: Uid)
    | DrainedBy(source: Uid, sink: Uid)

  /** What a source sends forward: data, or one of its two lifecycle signals. */
  datatype Body = Data(event: nat) | StartSignal | DrainSignal

  /** Messages from the control plane of a connector to its sink part. */
  datatype SinkControl =
    | LinkSink
    | StartSink
    | ConnectSink
    | PauseSink
    | ResumeSink
    | StopSink
    | DrainSink
    | SinkConnected
    | SinkDisconnected

  datatype Port = OutPort | ErrPort | OtherPort

  /** Messages to a source task, from the control plane of its connector or as contraflow. */
  datatype SourceMsg =
    | LinkSource(port: Port)
    | StartSource
    | ConnectSource(ok: bool)
    | PauseSource
    | ResumeSource
    | StopSource
    | DrainSource
    | SourceConnected
    | SourceDisconnected
    | Cb(cb: CbAction)

  /** One entry of a forward queue. Sinks receive their control messages on the same queue. */
  datatype Item = Packet(origin: Uid, body: Body) | Control(msg: SinkControl)

  datatype Node = SourceNode(uid: Uid) | PipeNode(pid: nat) | SinkNode(uid: Uid)
}
