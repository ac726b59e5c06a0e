/**
 * The embedder's side of the plugin: the nine callbacks of
 * MoonlightXRPluginListener, as events recorded by a listener object.
 */
module PluginListener {
  import opened JavaTypes

  /** One call on the listener interface, with its arguments. */
  datatype ListenerEvent =
    | StageStarting(stage: string)
    | StageComplete(stage: string)
    | StageFailed(stage: string, portFlags: int32, errorCode: int32)
    | ConnectionStarted
    | ConnectionTerminated(errorCode: int32)
    | ConnectionStatusUpdate(status: int32)
    | Message(message: string)
    | HdrModeChanged(enabled: bool, metadata: seq<int8>)
    | DecoderCrashed

  /**
   * A listener registered by the embedder. Each interface method appends
   * the call it received to `received`, so that what reached which listener,
   * and in which order, can be stated.
   */
  class Listener {
    var received: seq<ListenerEvent>

    constructor ()
      ensures received == []
    {
      received := [];
    }

    method OnStageStarting(stage: string)
      modifies this
      ensures received == old(received) + [StageStarting(stage)]
    {
      received := received + [StageStarting(stage)];
    }

    method OnStageComplete(stage: string)
      modifies this
      ensures received == old(received) + [StageComplete(stage)]
    {
      received := received + [StageComplete(stage)];
    }

    method OnStageFailed(stage: string, portFlags: int32, errorCode: int32)
      modifies this
      ensures received == old(received) + [StageFailed(stage, portFlags, errorCode)]
    {
      received := received + [StageFailed(stage, portFlags, errorCode)];
    }

    method OnConnectionStarted()
      modifies this
      ensures received == old(received) + [ConnectionStarted]
    {
      received := received + [ConnectionStarted];
    }

    method OnConnectionTerminated(errorCode: int32)
      modifies this
      ensures received == old(received) + [ConnectionTerminated(errorCode)]
    {
      received := received + [ConnectionTerminated(errorCode)];
    }

    method OnConnectionStatusUpdate(status: int32)
      modifies this
      ensures received == old(received) + [ConnectionStatusUpdate(status)]
    {
      received := received + [ConnectionStatusUpdate(status)];
    }

    method OnMessage(message: string)
      modifies this
      ensures received == old(received) + [Message(message)]
    {
      received := received + [Message(message)];
    }

    method OnHdrModeChanged(enabled: bool, metadata: seq<int8>)
      modifies this
      ensures received == old(received) + [HdrModeChanged(enabled, metadata)]
    {
      received := received + [HdrModeChanged(enabled, metadata)];
    }

    method OnDecoderCrashed()
      modifies this
      ensures received == old(received) + [DecoderCrashed]
    {
      received := received + [DecoderCrashed];
    }
  }
}
