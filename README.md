# Moonlight XR streaming plugin: session controller model

This project models the session controller that an XR engine (Unity, for one)
embeds to drive a Moonlight game stream: `MoonlightXRPlugin` and its thin
wrapper `MoonlightBridge`. The controller keeps the session in nullable
fields: preferences, stream configuration, connection engine, video and audio
renderers, a SurfaceTexture, the Surface over it, and a GL texture id with the
sentinel -1.

- `connect` always tears down the previous session first. It then records
  the preferences, binds a fresh surface over a new texture, and sets up the
  decoder on that surface. It negotiates the video-format bitmask from the
  decoder's HEVC and AV1 probes, builds the stream configuration, and creates
  the engine and the audio renderer.
- `startStream` starts the engine only when it and both renderers exist.
- `stopStream` stops the engine, drops every reference, and then releases
  the surface texture, the surface and the texture, in that order.
- Engine callbacks go to a single listener slot.

Files and modules:

- `java_types.dfy` (`JavaTypes`): Java `int`, `short` and `byte` as
  newtypes, and `Option` for a nullable reference.
- `capabilities.dfy` (`Capabilities`): the supported-format bitmask.
- `stream_config.dfy` (`StreamConfig`): the preference record and the
  stream configuration built from the arguments.
- `session.dfy` (`Session`): the fields as one value, and one step function
  per operation giving the new fields and the ordered effects on the
  collaborators. It also holds a replay of those effects against the
  resources that exist outside the controller, and the theorems about any
  sequence of calls.
- `plugin_listener.dfy` (`PluginListener`): the nine listener callbacks as
  events, and a listener object that records what it receives.
- `xr_plugin.dfy` (`LimelightXR`): class `MoonlightXRPlugin`. Its fields
  are the Java fields and a ghost log of effects. The session operations
  (connect, startStream, stopStream, updateVideoTexture, ensureSurface) are
  proved against their step functions. `setListener` and `getVideoTextureId`
  state their result directly. The engine callbacks are proved against the
  events the listener in the slot records.
- `moonlight_bridge.dfy` (`ExampleMoonlight`): class `MoonlightBridge`.

Collaborators are modelled at their boundary:

- The texture GL generates, the GL_RENDERER string and the decoder's probes
  (HEVC, AV1, colour space, colour range) are inputs to `connect`, grouped
  as a `Platform` value.
- The engine, the surfaces and the texture appear as effects in the log:
  `GenTexture`, `CreateSurfaceTexture`, `CreateSurface`, `CreateEngine`,
  `StartEngine`, `UpdateTexImage`, `StopEngine`, `ReleaseSurfaceTexture`,
  `ReleaseSurface` and `DeleteTexture`.
- `Session.Replay` runs a log against the resources that exist outside the
  controller. It fails on any misuse:
  - a double release, or the use of a resource that does not exist;
  - an engine started without a bound surface;
  - any part of the presentation binding released while an engine is alive.
- The session phase (Idle, Configured, Streaming) is not a field of the
  controller, so it is derived from these resources.

Behaviour of the code worth knowing:

- A second `startStream` calls `connection.start` again, because the
  controller does not record that streaming began. The model does the same.
- `ensureSurface` has no failing path, so `connect` always returns true
  (`ensures ok`).
- The preference record says the host plays audio (`playHostAudio = true`).
  The stream configuration disables host audio (`enableLocalAudioPlayback(false)`).
  Both are kept as written; `StreamConfig.PreferencesAgreeWithConfiguration`
  states this.

## Model

| member | source | states |
|---|---|---|
| Capabilities.SupportedVideoFormats | xrstreamingplugin/src/main/java/com/limelight/xr/MoonlightXRPlugin.java:75-81 | H264 is always in the mask; H265 is in it iff the decoder supports HEVC; AV1 Main8 iff it supports AV1; no other bit is ever set |
| Capabilities.SupportedVideoFormatsDetermineProbes | xrstreamingplugin/src/main/java/com/limelight/xr/MoonlightXRPlugin.java:75-81 | the two checks are independent: the four probe combinations give four distinct masks |
| StreamConfig.BuildPreferences | xrstreamingplugin/src/main/java/com/limelight/xr/MoonlightXRPlugin.java:240-252 | width, height, fps and bitrate are copied unchanged; the video format is AUTO and the audio layout is stereo |
| StreamConfig.BuildStreamConfiguration | xrstreamingplugin/src/main/java/com/limelight/xr/MoonlightXRPlugin.java:83-100 | resolution is width×height; launch and refresh rate are fps; bitrate is copied; clientRefreshRateX100 is fps*100 without wrap-around; packet size is 1392; gamepad mask is 0; audio is stereo; the colour space, colour range and format mask are the negotiated ones; local audio playback is off; remote configuration is AUTO |
| StreamConfig.PreferencesAgreeWithConfiguration | xrstreamingplugin/src/main/java/com/limelight/xr/MoonlightXRPlugin.java:66-100 | the two records built by one connect agree on resolution, frame rate, bitrate, SOPS and audio layout, and disagree on host audio |
| Session.StopStep | xrstreamingplugin/src/main/java/com/limelight/xr/MoonlightXRPlugin.java:116-138 | after stopStream every reference is null and textureId is -1, whatever the state before |
| Session.StopStepReleasesWhatIsHeld | xrstreamingplugin/src/main/java/com/limelight/xr/MoonlightXRPlugin.java:116-138 | the engine is stopped iff there is one; the surface texture and the surface are released iff present; the texture is deleted iff textureId is not -1, and no other texture is deleted |
| Session.StopStepReleasesInOrder | xrstreamingplugin/src/main/java/com/limelight/xr/MoonlightXRPlugin.java:116-138 | teardown runs in strictly increasing order (engine stop, surface texture, surface, texture), each at most once, and contains nothing else |
| Session.StopStepIdempotent | xrstreamingplugin/src/main/java/com/limelight/xr/MoonlightXRPlugin.java:116-138 | a second stopStream changes nothing and performs no effect |
| Session.StartStep | xrstreamingplugin/src/main/java/com/limelight/xr/MoonlightXRPlugin.java:110-114 | startStream performs exactly one engine start iff the connection and both renderers are present, and nothing otherwise; it never changes a field |
| Session.UpdateStep | xrstreamingplugin/src/main/java/com/limelight/xr/MoonlightXRPlugin.java:144-148 | updateVideoTexture latches a frame iff a surface texture exists, and changes no field |
| Session.EnsureSurfaceStep | xrstreamingplugin/src/main/java/com/limelight/xr/MoonlightXRPlugin.java:254-273 | ensureSurface always leaves a surface and a surface texture. It reuses both untouched when both exist. Otherwise it binds the generated texture, sized width×height, with exactly three effects. No other field changes |
| Session.GlRendererName | xrstreamingplugin/src/main/java/com/limelight/xr/MoonlightXRPlugin.java:275-278 | the GL renderer string, or "unity" when GL returns null |
| Session.ConnectStep | xrstreamingplugin/src/main/java/com/limelight/xr/MoonlightXRPlugin.java:62-108 | connect always ends with a fully bound session over the freshly generated texture. Its effects are exactly the previous session's teardown, then one allocation, the surface texture, the surface and the engine. The decoder, configuration and engine are built from the arguments and the probes |
| Session.ConnectTearsDownBeforeAllocating | xrstreamingplugin/src/main/java/com/limelight/xr/MoonlightXRPlugin.java:62-73 | the old engine is stopped and the old texture deleted before the single new texture is generated; the reuse branch of ensureSurface is never taken from connect |
| Session.ApplyIsSafe | xrstreamingplugin/src/main/java/com/limelight/xr/MoonlightXRPlugin.java:62-148 | each public call keeps the fields well formed and misuses no resource. Afterwards the live resources are exactly those the fields refer to. The phase moves Idle→Configured on connect, Configured/Streaming→Streaming on startStream, anything→Idle on stopStream |
| Session.RunIsSafe | xrstreamingplugin/src/main/java/com/limelight/xr/MoonlightXRPlugin.java:62-148 | over any sequence of calls there is no double release and no release while an engine runs. There is no start without a surface, and at most one engine and one texture exist at a time. Nothing leaks beyond what the fields still hold |
| Session.StoppedRunHoldsNothing | xrstreamingplugin/src/main/java/com/limelight/xr/MoonlightXRPlugin.java:116-138 | from a new controller, any sequence of calls followed by stopStream leaves no texture, surface or engine alive |
| Session.SentinelTextureIsNeverDeleted | xrstreamingplugin/src/main/java/com/limelight/xr/MoonlightXRPlugin.java:133-137 | a texture whose name equals the sentinel -1 is bound by connect but never deleted by stopStream |
| LimelightXR.MoonlightXRPlugin.constructor | xrstreamingplugin/src/main/java/com/limelight/xr/MoonlightXRPlugin.java:35-51 | a new controller holds no session, no listener, and texture id -1 |
| LimelightXR.MoonlightXRPlugin.SetListener | xrstreamingplugin/src/main/java/com/limelight/xr/MoonlightXRPlugin.java:53-55 | replaces the listener slot and touches nothing else |
| LimelightXR.MoonlightXRPlugin.Connect | xrstreamingplugin/src/main/java/com/limelight/xr/MoonlightXRPlugin.java:57-60 | the eight-argument connect is the nine-argument one with a null certificate |
| LimelightXR.MoonlightXRPlugin.ConnectWithCertificate | xrstreamingplugin/src/main/java/com/limelight/xr/MoonlightXRPlugin.java:62-108 | returns true, and leaves the fields and the effect log as ConnectStep says. The session is fully bound and the listener unchanged |
| LimelightXR.MoonlightXRPlugin.StartStream | xrstreamingplugin/src/main/java/com/limelight/xr/MoonlightXRPlugin.java:110-114 | the fields are unchanged, and the log grows by StartStep's effects only |
| LimelightXR.MoonlightXRPlugin.StopStream | xrstreamingplugin/src/main/java/com/limelight/xr/MoonlightXRPlugin.java:116-138 | all fields are reset to the initial state, and the log grows by exactly StopStep's ordered teardown |
| LimelightXR.MoonlightXRPlugin.GetVideoTextureId | xrstreamingplugin/src/main/java/com/limelight/xr/MoonlightXRPlugin.java:140-142 | returns the current texture id: -1 when no session is bound, and the surface texture's name when one is |
| LimelightXR.MoonlightXRPlugin.UpdateVideoTexture | xrstreamingplugin/src/main/java/com/limelight/xr/MoonlightXRPlugin.java:144-148 | the fields are unchanged, and the log grows by UpdateStep's effects only |
| LimelightXR.MoonlightXRPlugin.EnsureSurface | xrstreamingplugin/src/main/java/com/limelight/xr/MoonlightXRPlugin.java:254-273 | returns true and does what EnsureSurfaceStep says |
| LimelightXR.MoonlightXRPlugin.StageStarting | xrstreamingplugin/src/main/java/com/limelight/xr/MoonlightXRPlugin.java:150-155 | delivers exactly StageStarting(stage) to the current listener, if any; nothing else changes |
| LimelightXR.MoonlightXRPlugin.StageComplete | xrstreamingplugin/src/main/java/com/limelight/xr/MoonlightXRPlugin.java:157-162 | delivers exactly StageComplete(stage) to the current listener, if any |
| LimelightXR.MoonlightXRPlugin.StageFailed | xrstreamingplugin/src/main/java/com/limelight/xr/MoonlightXRPlugin.java:164-169 | delivers exactly StageFailed with the same stage, port flags and error code, if there is a listener |
| LimelightXR.MoonlightXRPlugin.ConnectionStarted | xrstreamingplugin/src/main/java/com/limelight/xr/MoonlightXRPlugin.java:171-176 | delivers exactly ConnectionStarted to the current listener, if any |
| LimelightXR.MoonlightXRPlugin.ConnectionTerminated | xrstreamingplugin/src/main/java/com/limelight/xr/MoonlightXRPlugin.java:178-183 | delivers exactly ConnectionTerminated with the same error code, if there is a listener; the session is not torn down |
| LimelightXR.MoonlightXRPlugin.ConnectionStatusUpdate | xrstreamingplugin/src/main/java/com/limelight/xr/MoonlightXRPlugin.java:185-190 | delivers exactly ConnectionStatusUpdate with the same status, if there is a listener |
| LimelightXR.MoonlightXRPlugin.DisplayMessage | xrstreamingplugin/src/main/java/com/limelight/xr/MoonlightXRPlugin.java:192-197 | delivers exactly Message(message), if there is a listener |
| LimelightXR.MoonlightXRPlugin.DisplayTransientMessage | xrstreamingplugin/src/main/java/com/limelight/xr/MoonlightXRPlugin.java:199-204 | maps to the same Message(message) event as displayMessage |
| LimelightXR.MoonlightXRPlugin.Rumble | xrstreamingplugin/src/main/java/com/limelight/xr/MoonlightXRPlugin.java:206-209 | delivers nothing and changes nothing |
| LimelightXR.MoonlightXRPlugin.RumbleTriggers | xrstreamingplugin/src/main/java/com/limelight/xr/MoonlightXRPlugin.java:211-214 | delivers nothing and changes nothing |
| LimelightXR.MoonlightXRPlugin.SetHdrMode | xrstreamingplugin/src/main/java/com/limelight/xr/MoonlightXRPlugin.java:216-221 | delivers exactly HdrModeChanged with the same flag and metadata, if there is a listener |
| LimelightXR.MoonlightXRPlugin.SetMotionEventState | xrstreamingplugin/src/main/java/com/limelight/xr/MoonlightXRPlugin.java:223-226 | delivers nothing and changes nothing |
| LimelightXR.MoonlightXRPlugin.SetControllerLED | xrstreamingplugin/src/main/java/com/limelight/xr/MoonlightXRPlugin.java:228-231 | delivers nothing and changes nothing |
| LimelightXR.MoonlightXRPlugin.OnCrash | xrstreamingplugin/src/main/java/com/limelight/xr/MoonlightXRPlugin.java:233-238 | delivers exactly DecoderCrashed, if there is a listener |
| LimelightXR.ReplacedListenerGetsLaterEvents | xrstreamingplugin/src/main/java/com/limelight/xr/MoonlightXRPlugin.java:150-155 | after the slot is replaced, later events reach only the new listener. The old listener keeps what it had, and nothing is replayed to the new one |
| LimelightXR.ConnectThenStopReleasesTexture | xrstreamingplugin/src/main/java/com/limelight/xr/MoonlightXRPlugin.java:116-142 | connect then stopStream leaves the controller released, with texture id -1; this stopStream's last effect is deleting the texture that this connect bound |
| ExampleMoonlight.DefaultConnectArgs | xrstreamingplugin/src/main/java/com/example/moonlight/MoonlightBridge.java:25-27 | the two-argument connect uses ports 47984/47989, 1920×1080, 60 fps, 20000 kbps and no certificate |
| ExampleMoonlight.MoonlightBridge.constructor | xrstreamingplugin/src/main/java/com/example/moonlight/MoonlightBridge.java:14-18 | the bridge owns one fresh plugin in the initial state; the field is constant, so it is never replaced |
| ExampleMoonlight.MoonlightBridge.ConnectDefault | xrstreamingplugin/src/main/java/com/example/moonlight/MoonlightBridge.java:25-27 | does exactly what the plugin's connect does with the default arguments, and returns true |
| ExampleMoonlight.MoonlightBridge.Connect | xrstreamingplugin/src/main/java/com/example/moonlight/MoonlightBridge.java:29-32 | passes every argument unchanged to the plugin's eight-argument connect and returns its result |
| ExampleMoonlight.MoonlightBridge.SetListener | xrstreamingplugin/src/main/java/com/example/moonlight/MoonlightBridge.java:34-36 | replaces the plugin's listener slot and nothing else |
| ExampleMoonlight.MoonlightBridge.StartStream | xrstreamingplugin/src/main/java/com/example/moonlight/MoonlightBridge.java:38-40 | has exactly the effect of the plugin's startStream |
| ExampleMoonlight.MoonlightBridge.StopStream | xrstreamingplugin/src/main/java/com/example/moonlight/MoonlightBridge.java:42-44 | has exactly the effect of the plugin's stopStream |
| ExampleMoonlight.MoonlightBridge.GetVideoTextureId | xrstreamingplugin/src/main/java/com/example/moonlight/MoonlightBridge.java:46-48 | returns the plugin's texture id unchanged, so -1 whenever the plugin's is |
| ExampleMoonlight.MoonlightBridge.UpdateVideoTexture | xrstreamingplugin/src/main/java/com/example/moonlight/MoonlightBridge.java:50-52 | has exactly the effect of the plugin's updateVideoTexture |

## Left out

- GL calls are not modelled: glGenTextures, glBindTexture, glTexParameteri (linear filtering, clamp-to-edge wrapping), glDeleteTextures and glGetString are foreign graphics calls. A generated texture name is an input, and deletion is a logged effect.
- SurfaceTexture and Surface internals (setDefaultBufferSize beyond recording the size, updateTexImage's buffer handoff between threads) are platform code. They appear only as effects.
- The internals of NvConnection, LimelightCryptoProvider, X509Certificate and ComputerDetails.AddressTuple are not modelled: the handshake, crypto and transport are outside the controller. The engine is the set of values it is constructed from, and its start and stop calls are effects.
- The internals of MediaCodecDecoderRenderer and AndroidAudioRenderer are not modelled. The decoder's fixed constructor arguments (Activity, crash count 0, metered data off, HDR off, no performance overlay) are not recorded. Its HEVC and AV1 probes and its preferred colour space and range are inputs.
- The Activity, the application context, the crypto provider and the NvApp object are not modelled: they are Android objects with no effect on the controller's decisions. The app appears only as its name, "Steam", in the configuration.
- PreferenceConfiguration fields that buildPreferences does not set, and StreamConfiguration fields the builder chain does not set, are not modelled.
- Concurrency is not modelled: engine callbacks may arrive on background threads, but here they are sequential method calls.
- Exceptions thrown by the collaborators' constructors are not modelled.
- Java null strings and a null HDR metadata array are not modelled; they are forwarded verbatim and do not affect any branch.
- The listener interface is implemented here by a listener that records each call, so that deliveries can be stated.
- LimelightXR.MoonlightXRPlugin.ConnectWithCertificate: requires that fps*100 fits in a Java int, instead of modelling the wrap-around of clientRefreshRateX100.
- Session.ApplyIsSafe: holds only for a connect in which GL does not generate the texture name -1. A texture named -1 is bound but never deleted (Session.SentinelTextureIsNeverDeleted).
- Session.RunIsSafe: holds only for runs in which GL never generates the texture name -1. A texture named -1 is bound but never deleted (Session.SentinelTextureIsNeverDeleted).
- Session.StoppedRunHoldsNothing: holds only for runs in which GL never generates the texture name -1, for the same reason.
- The texture-name assumption above matters because GL names are unsigned and, in practice, small. The name 0xFFFFFFFF read as a Java int is the only one that collides with the sentinel.
