/**
 * MoonlightXRPlugin: the session controller. Its nullable fields are the
 * session. The session operations (connect, startStream, stopStream,
 * updateVideoTexture, ensureSurface) are proved against the step functions
 * in module Session, which say what each does to those fields and which
 * effects it performs on the engine, the decoder's surface and the GL
 * texture, in order. setListener and getVideoTextureId state their result
 * directly, and the engine callbacks are proved against the events the
 * listener in the single slot records.
 */
module LimelightXR {
  import opened JavaTypes
  import opened Capabilities
  import opened StreamConfig
  import opened Session
  import opened PluginListener

  class MoonlightXRPlugin {
    var preferences: Option<Preferences>
    var streamConfiguration: Option<StreamConfiguration>
    var connection: Option<Connection>
    var videoRenderer: Option<VideoRenderer>
    var audioRenderer: Option<AudioRenderer>
    var listener: Listener?
    var surfaceTexture: Option<SurfaceTexture>
    var renderSurface: Option<RenderSurface>
    var textureId: int32

    /** Every effect the controller has performed on its collaborators, oldest first. */
    ghost var log: seq<Effect>

    /** The session fields as one value. */
    function Snapshot(): Fields
      reads this
    {
      Fields(preferences, streamConfiguration, connection, videoRenderer, audioRenderer,
             surfaceTexture, renderSurface, textureId)
    }

    /** The objects a forwarded callback may change: the registered listener, if any. */
    ghost function Slot(): set<object>
      reads this
    {
      if listener == null then {} else {listener}
    }

    /** A new controller has no session, no texture and no listener. */
    constructor ()
      ensures Snapshot() == INITIAL && listener == null && log == []
    {
      preferences := None;
      streamConfiguration := None;
      connection := None;
      videoRenderer := None;
      audioRenderer := None;
      listener := null;
      surfaceTexture := None;
      renderSurface := None;
      textureId := NO_TEXTURE;
      log := [];
    }

    /** Replaces the listener slot; the session is untouched. */
    method SetListener(l: Listener?)
      modifies this
      ensures listener == l
      ensures Snapshot() == old(Snapshot()) && log == old(log)
    {
      listener := l;
    }

    /** The eight-argument connect: the nine-argument one without a pinned certificate. */
    method Connect(host: string, port: int32, httpsPort: int32, uniqueId: string,
                   width: int32, height: int32, fps: int32, bitrate: int32, platform: Platform)
      returns (ok: bool)
      requires FpsInRange(fps)
      modifies this
      ensures ok
      ensures var step := ConnectStep(old(Snapshot()),
                                      ConnectArgs(host, port, httpsPort, uniqueId, width, height, fps, bitrate, None),
                                      platform);
              Snapshot() == step.fields && log == old(log) + step.effects
      ensures listener == old(listener)
    {
      ok := ConnectWithCertificate(host, port, httpsPort, uniqueId, width, height, fps, bitrate, None, platform);
    }

    /**
     * Tears down any previous session, then binds a surface, sets up the
     * decoder, negotiates formats, builds the configuration and creates the
     * engine. The handshake itself waits for startStream.
     */
    method ConnectWithCertificate(host: string, port: int32, httpsPort: int32, uniqueId: string,
                                  width: int32, height: int32, fps: int32, bitrate: int32,
                                  serverCert: Option<X509Certificate>, platform: Platform)
      returns (ok: bool)
      requires FpsInRange(fps)
      modifies this
      ensures ok
      ensures var step := ConnectStep(old(Snapshot()),
                                      ConnectArgs(host, port, httpsPort, uniqueId, width, height, fps, bitrate, serverCert),
                                      platform);
              Snapshot() == step.fields && log == old(log) + step.effects
      ensures Bound(Snapshot())
      ensures listener == old(listener)
    {
      StopStream();

      preferences := Some(BuildPreferences(width, height, fps, bitrate));
      var bound := EnsureSurface(width, height, platform.generatedTexture);
      if !bound {
        return false;
      }

      var renderer := VideoRenderer(preferences.value, platform.decoder,
                                    GlRendererName(platform.glRenderer), renderSurface.value);
      videoRenderer := Some(renderer);

      var supportedVideoFormats := SupportedVideoFormats(platform.decoder.hevcSupported,
                                                         platform.decoder.av1Supported);
      var config := BuildStreamConfiguration(width, height, fps, bitrate, supportedVideoFormats,
                                             platform.decoder.preferredColorSpace,
                                             platform.decoder.preferredColorRange);
      streamConfiguration := Some(config);

      connection := Some(Connection(host, port, httpsPort, uniqueId, config, serverCert));
      log := log + [CreateEngine];
      audioRenderer := Some(AudioRenderer(false));
      return true;
    }

    /** Starts the engine when it and both renderers exist; otherwise does nothing. */
    method StartStream()
      modifies this
      ensures Snapshot() == old(Snapshot()) && listener == old(listener)
      ensures log == old(log) + StartStep(old(Snapshot())).effects
    {
      if connection.Some? && videoRenderer.Some? && audioRenderer.Some? {
        log := log + [StartEngine];
      }
    }

    /**
     * Stops the engine, drops every reference, then releases the surface
     * texture, the surface and the texture, each only if present. Safe to
     * call in any state and any number of times.
     */
    method StopStream()
      modifies this
      ensures Snapshot() == StopStep(old(Snapshot())).fields == INITIAL
      ensures log == old(log) + StopStep(old(Snapshot())).effects
      ensures listener == old(listener)
    {
      ghost var before := Snapshot();
      if connection.Some? {
        log := log + [StopEngine];
        connection := None;
      }
      streamConfiguration := None;
      preferences := None;
      videoRenderer := None;
      audioRenderer := None;
      if surfaceTexture.Some? {
        log := log + [ReleaseSurfaceTexture];
        surfaceTexture := None;
      }
      if renderSurface.Some? {
        log := log + [ReleaseSurface];
        renderSurface := None;
      }
      if textureId != NO_TEXTURE {
        log := log + [DeleteTexture(textureId)];
        textureId := NO_TEXTURE;
      }
      assert log == old(log) + StopStep(before).effects;
    }

    /** The texture the video is rendered into, or -1 when no session is bound. */
    method GetVideoTextureId() returns (id: int32)
      ensures id == textureId
      ensures Released(Snapshot()) ==> id == NO_TEXTURE
      ensures Bound(Snapshot()) ==> id == surfaceTexture.value.textureName
    {
      id := textureId;
    }

    /** Latches the newest decoded frame into the texture when a surface texture exists. */
    method UpdateVideoTexture()
      modifies this
      ensures Snapshot() == old(Snapshot()) && listener == old(listener)
      ensures log == old(log) + UpdateStep(old(Snapshot())).effects
    {
      if surfaceTexture.Some? {
        log := log + [UpdateTexImage];
      }
    }

    /** Keeps an existing surface; otherwise binds a new one over the texture GL generated. Never fails. */
    method EnsureSurface(width: int32, height: int32, generated: int32) returns (ok: bool)
      modifies this
      ensures ok
      ensures Snapshot() == EnsureSurfaceStep(old(Snapshot()), width, height, generated).fields
      ensures log == old(log) + EnsureSurfaceStep(old(Snapshot()), width, height, generated).effects
      ensures listener == old(listener)
    {
      if renderSurface.Some? && surfaceTexture.Some? {
        return true;
      }

      textureId := generated;
      log := log + [GenTexture(generated)];

      var queue := SurfaceTexture(textureId, width, height);
      surfaceTexture := Some(queue);
      log := log + [CreateSurfaceTexture];
      renderSurface := Some(RenderSurface(queue));
      log := log + [CreateSurface];
      return true;
    }

    // -------------------------------------------------------------------
    // Engine callbacks, forwarded to the listener slot
    // -------------------------------------------------------------------

    method StageStarting(stage: string)
      modifies Slot()
      ensures listener != null ==> listener.received == old(listener.received) + [ListenerEvent.StageStarting(stage)]
    {
      if listener != null {
        listener.OnStageStarting(stage);
      }
    }

    method StageComplete(stage: string)
      modifies Slot()
      ensures listener != null ==> listener.received == old(listener.received) + [ListenerEvent.StageComplete(stage)]
    {
      if listener != null {
        listener.OnStageComplete(stage);
      }
    }

    method StageFailed(stage: string, portFlags: int32, errorCode: int32)
      modifies Slot()
      ensures listener != null ==>
                listener.received == old(listener.received) + [ListenerEvent.StageFailed(stage, portFlags, errorCode)]
    {
      if listener != null {
        listener.OnStageFailed(stage, portFlags, errorCode);
      }
    }

    method ConnectionStarted()
      modifies Slot()
      ensures listener != null ==> listener.received == old(listener.received) + [ListenerEvent.ConnectionStarted]
    {
      if listener != null {
        listener.OnConnectionStarted();
      }
    }

    method ConnectionTerminated(errorCode: int32)
      modifies Slot()
      ensures listener != null ==>
                listener.received == old(listener.received) + [ListenerEvent.ConnectionTerminated(errorCode)]
    {
      if listener != null {
        listener.OnConnectionTerminated(errorCode);
      }
    }

    method ConnectionStatusUpdate(connectionStatus: int32)
      modifies Slot()
      ensures listener != null ==>
                listener.received == old(listener.received) + [ListenerEvent.ConnectionStatusUpdate(connectionStatus)]
    {
      if listener != null {
        listener.OnConnectionStatusUpdate(connectionStatus);
      }
    }

    method DisplayMessage(message: string)
      modifies Slot()
      ensures listener != null ==> listener.received == old(listener.received) + [Message(message)]
    {
      if listener != null {
        listener.OnMessage(message);
      }
    }

    /** Transient messages reach the listener exactly as ordinary ones do. */
    method DisplayTransientMessage(message: string)
      modifies Slot()
      ensures listener != null ==> listener.received == old(listener.received) + [Message(message)]
    {
      if listener != null {
        listener.OnMessage(message);
      }
    }

    /** Rumble is accepted and dropped: nothing is delivered and nothing changes. */
    method Rumble(controllerNumber: int16, lowFreqMotor: int16, highFreqMotor: int16)
      ensures unchanged(this) && (listener != null ==> unchanged(listener))
    {
    }

    /** Trigger rumble is accepted and dropped. */
    method RumbleTriggers(controllerNumber: int16, leftTrigger: int16, rightTrigger: int16)
      ensures unchanged(this) && (listener != null ==> unchanged(listener))
    {
    }

    method SetHdrMode(enabled: bool, hdrMetadata: seq<int8>)
      modifies Slot()
      ensures listener != null ==>
                listener.received == old(listener.received) + [HdrModeChanged(enabled, hdrMetadata)]
    {
      if listener != null {
        listener.OnHdrModeChanged(enabled, hdrMetadata);
      }
    }

    /** Motion events are accepted and dropped. */
    method SetMotionEventState(controllerNumber: int16, motionType: int8, reportRateHz: int16)
      ensures unchanged(this) && (listener != null ==> unchanged(listener))
    {
    }

    /** Controller LEDs are accepted and dropped. */
    method SetControllerLED(controllerNumber: int16, r: int8, g: int8, b: int8)
      ensures unchanged(this) && (listener != null ==> unchanged(listener))
    {
    }

    /** A decoder crash is reported to the listener. */
    method OnCrash()
      modifies Slot()
      ensures listener != null ==> listener.received == old(listener.received) + [DecoderCrashed]
    {
      if listener != null {
        listener.OnDecoderCrashed();
      }
    }
  }

  /**
   * After the slot is replaced, events reach only the new listener: the
   * old one keeps what it had, and nothing is replayed to the new one.
   */
  method ReplacedListenerGetsLaterEvents(plugin: MoonlightXRPlugin, first: Listener, second: Listener,
                                         before: string, after: string)
    requires first != second
    modifies plugin, first, second
    ensures first.received == old(first.received) + [ListenerEvent.StageStarting(before)]
    ensures second.received == old(second.received) + [ListenerEvent.StageStarting(after)]
    ensures plugin.listener == second
  {
    plugin.SetListener(first);
    plugin.StageStarting(before);
    plugin.SetListener(second);
    plugin.StageStarting(after);
  }

  /** connect followed by stopStream leaves no texture, as on a new controller, whatever came before. */
  method ConnectThenStopReleasesTexture(plugin: MoonlightXRPlugin, host: string, port: int32, httpsPort: int32,
                                        uniqueId: string, width: int32, height: int32, fps: int32, bitrate: int32,
                                        platform: Platform)
    returns (id: int32)
    requires FpsInRange(fps)
    modifies plugin
    ensures id == NO_TEXTURE && Released(plugin.Snapshot())
    ensures |plugin.log| > |old(plugin.log)|
    ensures platform.generatedTexture != NO_TEXTURE ==>
              plugin.log[|plugin.log| - 1] == DeleteTexture(platform.generatedTexture)
  {
    var ok := plugin.Connect(host, port, httpsPort, uniqueId, width, height, fps, bitrate, platform);
    plugin.StopStream();
    id := plugin.GetVideoTextureId();
  }
}
