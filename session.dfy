/**
 * The session controller's state, as the nullable fields of
 * MoonlightXRPlugin hold it, and what each public operation does to those
 * fields and to the outside world. The plugin class proves its methods
 * against the step functions here; the lemmas here state what the steps
 * guarantee, alone and over any sequence of calls.
 */
module Session {
  import opened JavaTypes
  import opened Capabilities
  import opened StreamConfig

  /** What the decoder answers when probed during `connect`. */
  datatype DecoderCaps = DecoderCaps(
    hevcSupported: bool,
    av1Supported: bool,
    preferredColorSpace: int32,
    preferredColorRange: int32)

  /**
   * What the platform hands the controller during one `connect`: the
   * GL_RENDERER string (null when GL has none), the texture name
   * glGenTextures produces, and the decoder's probes.
   */
  datatype Platform = Platform(glRenderer: Option<string>, generatedTexture: int32, decoder: DecoderCaps)

  /** A pinned server certificate, by its encoded bytes. */
  datatype X509Certificate = X509Certificate(encoded: seq<int8>)

  /** The arguments of the nine-argument `connect`. */
  datatype ConnectArgs = ConnectArgs(
    host: string,
    port: int32,
    httpsPort: int32,
    uniqueId: string,
    width: int32,
    height: int32,
    fps: int32,
    bitrate: int32,
    serverCert: Option<X509Certificate>)

  /** The consumer side of the video buffer queue, over one texture, with its default buffer size. */
  datatype SurfaceTexture = SurfaceTexture(textureName: int32, width: int32, height: int32)

  /** The producer surface wrapping a SurfaceTexture, which the decoder renders into. */
  datatype RenderSurface = RenderSurface(consumer: SurfaceTexture)

  /** A MediaCodecDecoderRenderer as the plugin sets it up. */
  datatype VideoRenderer = VideoRenderer(
    prefs: Preferences,
    decoder: DecoderCaps,
    glRenderer: string,
    renderSurface: RenderSurface)

  /** An AndroidAudioRenderer, created without audio effects. */
  datatype AudioRenderer = AudioRenderer(enableAudioFx: bool)

  /** An NvConnection with everything it was constructed from. */
  datatype Connection = Connection(
    host: string,
    port: int32,
    httpsPort: int32,
    uniqueId: string,
    config: StreamConfiguration,
    serverCert: Option<X509Certificate>)

  /** The controller's mutable fields; `None` is Java's null, and textureId -1 means no texture. */
  datatype Fields = Fields(
    preferences: Option<Preferences>,
    streamConfiguration: Option<StreamConfiguration>,
    connection: Option<Connection>,
    videoRenderer: Option<VideoRenderer>,
    audioRenderer: Option<AudioRenderer>,
    surfaceTexture: Option<SurfaceTexture>,
    renderSurface: Option<RenderSurface>,
    textureId: int32)

  const NO_TEXTURE: int32 := -1

  /** The fields of a new controller. */
  const INITIAL := Fields(None, None, None, None, None, None, None, NO_TEXTURE)

  /** What the controller does to its collaborators, in the order it does it. */
  datatype Effect =
    | GenTexture(name: int32)
    | CreateSurfaceTexture
    | CreateSurface
    | CreateEngine
    | StartEngine
    | UpdateTexImage
    | StopEngine
    | ReleaseSurfaceTexture
    | ReleaseSurface
    | DeleteTexture(name: int32)

  /** The fields after an operation and the effects it performed. */
  datatype Step = Step(fields: Fields, effects: seq<Effect>)

  // ---------------------------------------------------------------------
  // The two shapes the fields take between calls
  // ---------------------------------------------------------------------

  /** No session: every reference null and no texture. */
  predicate Released(f: Fields) {
    f == INITIAL
  }

  /**
   * A configured session: every reference set, the surface wraps the
   * surface texture over `textureId`, the decoder renders into that
   * surface with the session's preferences, and the engine carries the
   * session's configuration.
   */
  predicate Bound(f: Fields) {
    && f.preferences.Some?
    && f.streamConfiguration.Some?
    && f.connection.Some?
    && f.videoRenderer.Some?
    && f.audioRenderer.Some?
    && f.surfaceTexture.Some?
    && f.renderSurface.Some?
    && f.surfaceTexture.value.textureName == f.textureId
    && f.renderSurface.value.consumer == f.surfaceTexture.value
    && f.videoRenderer.value.renderSurface == f.renderSurface.value
    && f.videoRenderer.value.prefs == f.preferences.value
    && f.connection.value.config == f.streamConfiguration.value
  }

  predicate WellFormed(f: Fields) {
    Released(f) || Bound(f)
  }

  // ---------------------------------------------------------------------
  // One step per operation
  // ---------------------------------------------------------------------

  /**
   * stopStream: stop the engine if there is one, drop every reference,
   * release the surface texture, then the surface, then delete the texture
   * unless textureId is the sentinel.
   */
  function StopStep(f: Fields): (r: Step)
    ensures Released(r.fields)
  {
    var stopEngine := if f.connection.Some? then [StopEngine] else [];
    var releaseQueue := if f.surfaceTexture.Some? then [ReleaseSurfaceTexture] else [];
    var releaseSurface := if f.renderSurface.Some? then [ReleaseSurface] else [];
    var deleteTexture := if f.textureId != NO_TEXTURE then [DeleteTexture(f.textureId)] else [];
    Step(INITIAL, stopEngine + releaseQueue + releaseSurface + deleteTexture)
  }

  /** startStream: start the engine when the engine and both renderers exist; the fields never change. */
  function StartStep(f: Fields): (r: Step)
    ensures r.fields == f
    ensures r.effects == [StartEngine] <==>
            f.connection.Some? && f.videoRenderer.Some? && f.audioRenderer.Some?
    ensures r.effects == [] || r.effects == [StartEngine]
  {
    if f.connection.Some? && f.videoRenderer.Some? && f.audioRenderer.Some? then Step(f, [StartEngine])
    else Step(f, [])
  }

  /** updateVideoTexture: latch the newest frame when there is a surface texture; the fields never change. */
  function UpdateStep(f: Fields): (r: Step)
    ensures r.fields == f
    ensures r.effects == [UpdateTexImage] <==> f.surfaceTexture.Some?
    ensures r.effects == [] || r.effects == [UpdateTexImage]
  {
    if f.surfaceTexture.Some? then Step(f, [UpdateTexImage]) else Step(f, [])
  }

  /**
   * ensureSurface: keep an existing surface and surface texture; otherwise
   * take a fresh texture name and wrap it in a surface texture and a surface.
   * Never fails.
   */
  function EnsureSurfaceStep(f: Fields, width: int32, height: int32, generated: int32): (r: Step)
    ensures r.fields.surfaceTexture.Some? && r.fields.renderSurface.Some?
    ensures r.fields.preferences == f.preferences && r.fields.streamConfiguration == f.streamConfiguration
    ensures r.fields.connection == f.connection && r.fields.videoRenderer == f.videoRenderer
    ensures r.fields.audioRenderer == f.audioRenderer
    ensures f.surfaceTexture.Some? && f.renderSurface.Some? ==> r == Step(f, [])
    ensures f.surfaceTexture.None? || f.renderSurface.None? ==>
              && r.fields.textureId == generated
              && r.fields.surfaceTexture == Some(SurfaceTexture(generated, width, height))
              && r.fields.renderSurface == Some(RenderSurface(r.fields.surfaceTexture.value))
              && r.effects == [GenTexture(generated), CreateSurfaceTexture, CreateSurface]
  {
    if f.renderSurface.Some? && f.surfaceTexture.Some? then
      Step(f, [])
    else
      var queue := SurfaceTexture(generated, width, height);
      Step(f.(textureId := generated, surfaceTexture := Some(queue), renderSurface := Some(RenderSurface(queue))),
           [GenTexture(generated), CreateSurfaceTexture, CreateSurface])
  }

  /** getGlRendererName: the GL renderer string, or "unity" when GL reports none. */
  function GlRendererName(glRenderer: Option<string>): (name: string)
    ensures glRenderer.Some? ==> name == glRenderer.value
    ensures glRenderer.None? ==> name == "unity"
  {
    match glRenderer
    case Some(s) => s
    case None => "unity"
  }

  /**
   * connect: tear the previous session down, record the preferences, bind
   * a surface, set up the decoder on it, negotiate the formats, build the
   * configuration, create the engine and the audio renderer.
   */
  function ConnectStep(f: Fields, a: ConnectArgs, p: Platform): (r: Step)
    requires FpsInRange(a.fps)
    ensures Bound(r.fields)
    ensures r.fields.textureId == p.generatedTexture
    ensures r.fields.surfaceTexture == Some(SurfaceTexture(p.generatedTexture, a.width, a.height))
    ensures r.effects == StopStep(f).effects + [GenTexture(p.generatedTexture), CreateSurfaceTexture, CreateSurface, CreateEngine]
    ensures r.fields.preferences == Some(BuildPreferences(a.width, a.height, a.fps, a.bitrate))
    ensures r.fields.streamConfiguration ==
              Some(BuildStreamConfiguration(a.width, a.height, a.fps, a.bitrate,
                                            SupportedVideoFormats(p.decoder.hevcSupported, p.decoder.av1Supported),
                                            p.decoder.preferredColorSpace, p.decoder.preferredColorRange))
    ensures var c := r.fields.connection.value;
            c.host == a.host && c.port == a.port && c.httpsPort == a.httpsPort
            && c.uniqueId == a.uniqueId && c.serverCert == a.serverCert
    ensures r.fields.videoRenderer.value.decoder == p.decoder
    ensures r.fields.videoRenderer.value.glRenderer == GlRendererName(p.glRenderer)
  {
    var stopped := StopStep(f);
    var withPrefs := stopped.fields.(preferences := Some(BuildPreferences(a.width, a.height, a.fps, a.bitrate)));
    var bound := EnsureSurfaceStep(withPrefs, a.width, a.height, p.generatedTexture);
    var b := bound.fields;
    var renderer := VideoRenderer(b.preferences.value, p.decoder, GlRendererName(p.glRenderer), b.renderSurface.value);
    var formats := SupportedVideoFormats(p.decoder.hevcSupported, p.decoder.av1Supported);
    var config := BuildStreamConfiguration(a.width, a.height, a.fps, a.bitrate, formats,
                                           p.decoder.preferredColorSpace, p.decoder.preferredColorRange);
    var engine := Connection(a.host, a.port, a.httpsPort, a.uniqueId, config, a.serverCert);
    Step(b.(videoRenderer := Some(renderer), streamConfiguration := Some(config),
            connection := Some(engine), audioRenderer := Some(AudioRenderer(false))),
         stopped.effects + bound.effects + [CreateEngine])
  }

  // ---------------------------------------------------------------------
  // Properties of single steps
  // ---------------------------------------------------------------------

  /** Position of an effect in the teardown order; effects that are not teardown come last. */
  function TeardownRank(e: Effect): nat {
    match e
    case StopEngine => 0
    case ReleaseSurfaceTexture => 1
    case ReleaseSurface => 2
    case DeleteTexture(_) => 3
    case _ => 4
  }

  /** Teardown of each resource happens exactly when the controller holds it, and nothing else happens. */
  lemma StopStepReleasesWhatIsHeld(f: Fields)
    ensures var e := StopStep(f).effects;
            && (StopEngine in e <==> f.connection.Some?)
            && (ReleaseSurfaceTexture in e <==> f.surfaceTexture.Some?)
            && (ReleaseSurface in e <==> f.renderSurface.Some?)
            && (DeleteTexture(f.textureId) in e <==> f.textureId != NO_TEXTURE)
            && (forall x :: x in e && x.DeleteTexture? ==> x.name == f.textureId)
  {
    var a, b, c, d := TeardownParts(f);
    var e := StopStep(f).effects;
    forall x
      ensures x in e <==> x in a || x in b || x in c || x in d
    {
      assert e == a + b + c + d;
    }
  }

  /**
   * stopStream stops the engine before releasing the surface texture, then
   * the surface, then deleting the texture, each at most once.
   */
  lemma StopStepReleasesInOrder(f: Fields)
    ensures RankedBelow(StopStep(f).effects, 3)
  {
    var a, b, c, d := TeardownParts(f);
    assert StopStep(f).effects == a + b + c + d;
    RankedAppend(a, b, 0, 1);
    RankedAppend(a + b, c, 1, 2);
    RankedAppend(a + b + c, d, 2, 3);
  }

  /** The four parts of stopStream's effects, one per resource. */
  lemma TeardownParts(f: Fields) returns (a: seq<Effect>, b: seq<Effect>, c: seq<Effect>, d: seq<Effect>)
    ensures StopStep(f).effects == a + b + c + d
    ensures a == if f.connection.Some? then [StopEngine] else []
    ensures b == if f.surfaceTexture.Some? then [ReleaseSurfaceTexture] else []
    ensures c == if f.renderSurface.Some? then [ReleaseSurface] else []
    ensures d == if f.textureId != NO_TEXTURE then [DeleteTexture(f.textureId)] else []
  {
    a := if f.connection.Some? then [StopEngine] else [];
    b := if f.surfaceTexture.Some? then [ReleaseSurfaceTexture] else [];
    c := if f.renderSurface.Some? then [ReleaseSurface] else [];
    d := if f.textureId != NO_TEXTURE then [DeleteTexture(f.textureId)] else [];
  }

  /** Effects in strictly increasing teardown rank, each below `bound`. */
  predicate RankedBelow(e: seq<Effect>, bound: nat) {
    && (forall i :: 0 <= i < |e| ==> TeardownRank(e[i]) <= bound)
    && (forall i, j :: 0 <= i < j < |e| ==> TeardownRank(e[i]) < TeardownRank(e[j]))
  }

  lemma RankedAppend(a: seq<Effect>, b: seq<Effect>, lo: nat, hi: nat)
    requires lo < hi && |b| <= 1
    requires RankedBelow(a, lo)
    requires forall i :: 0 <= i < |b| ==> TeardownRank(b[i]) == hi
    ensures RankedBelow(a + b, hi)
  {
    forall i, j | 0 <= i < j < |a + b|
      ensures TeardownRank((a + b)[i]) < TeardownRank((a + b)[j])
    {
      if j >= |a| {
        assert (a + b)[i] == a[i];
      }
    }
  }

  /** A second stopStream finds nothing to release: it changes nothing and does nothing. */
  lemma StopStepIdempotent(f: Fields)
    ensures StopStep(StopStep(f).fields) == Step(StopStep(f).fields, [])
  {
  }

  /**
   * connect on any fields first stops the old engine and deletes the old
   * texture, and only then allocates; the reuse branch of ensureSurface is
   * never taken, so exactly one fresh texture is bound afterwards.
   */
  lemma ConnectTearsDownBeforeAllocating(f: Fields, a: ConnectArgs, p: Platform)
    requires FpsInRange(a.fps)
    ensures var e := ConnectStep(f, a, p).effects;
            var k := |StopStep(f).effects|;
            && |e| == k + 4
            && e[k] == GenTexture(p.generatedTexture)
            && (f.connection.Some? ==> StopEngine in e[..k])
            && (f.textureId != NO_TEXTURE ==> DeleteTexture(f.textureId) in e[..k])
            && (forall i :: 0 <= i < |e| && e[i].GenTexture? ==> i == k)
            && (forall i :: k <= i < |e| ==> TeardownRank(e[i]) == 4)
  {
    StopStepReleasesInOrder(f);
    var e := ConnectStep(f, a, p).effects;
    assert e[..|StopStep(f).effects|] == StopStep(f).effects;
  }

  // ---------------------------------------------------------------------
  // Any sequence of calls
  // ---------------------------------------------------------------------

  /** A call on the controller, with what the platform answers during it. */
  datatype Op =
    | Connect(args: ConnectArgs, platform: Platform)
    | StartStream
    | StopStream
    | UpdateVideoTexture

  /** The caller's side of the contract: `connect` is only called with an fps whose ×100 fits an int. */
  predicate Admissible(op: Op) {
    op.Connect? ==> FpsInRange(op.args.fps)
  }

  /** GL never hands out the name that the controller uses as its "no texture" sentinel. */
  predicate SentinelFree(op: Op) {
    op.Connect? ==> op.platform.generatedTexture != NO_TEXTURE
  }

  function Apply(f: Fields, op: Op): Step
    requires Admissible(op)
  {
    match op
    case Connect(a, p) => ConnectStep(f, a, p)
    case StartStream => StartStep(f)
    case StopStream => StopStep(f)
    case UpdateVideoTexture => UpdateStep(f)
  }

  /** The fields after a sequence of calls and every effect performed on the way. */
  function Run(f: Fields, ops: seq<Op>): Step
    requires forall i :: 0 <= i < |ops| ==> Admissible(ops[i])
    decreases |ops|
  {
    if ops == [] then Step(f, [])
    else
      var first := Apply(f, ops[0]);
      var rest := Run(first.fields, ops[1..]);
      Step(rest.fields, first.effects + rest.effects)
  }

  // ---------------------------------------------------------------------
  // The resources held outside the controller
  // ---------------------------------------------------------------------

  /** What exists outside the controller: live texture names, the buffer queue, the surface, the engine. */
  datatype Resources = Resources(
    textures: set<int32>,
    surfaceTexture: bool,
    surface: bool,
    engine: bool,
    started: bool)

  const NO_RESOURCES := Resources({}, false, false, false, false)

  /**
   * The effect applied to the resources, or None when the effect is a
   * misuse: creating what already exists, releasing or using what does not,
   * starting an engine without a bound surface, or releasing any part of
   * the presentation binding while an engine is still alive.
   */
  function Perform(r: Resources, e: Effect): Option<Resources> {
    match e
    case GenTexture(t) =>
      if t in r.textures then None else Some(r.(textures := r.textures + {t}))
    case CreateSurfaceTexture =>
      if r.surfaceTexture then None else Some(r.(surfaceTexture := true))
    case CreateSurface =>
      if r.surface || !r.surfaceTexture then None else Some(r.(surface := true))
    case CreateEngine =>
      if r.engine then None else Some(r.(engine := true, started := false))
    case StartEngine =>
      if !r.engine || !r.surface || !r.surfaceTexture then None else Some(r.(started := true))
    case UpdateTexImage =>
      if !r.surfaceTexture then None else Some(r)
    case StopEngine =>
      if !r.engine then None else Some(r.(engine := false, started := false))
    case ReleaseSurfaceTexture =>
      if !r.surfaceTexture || r.engine then None else Some(r.(surfaceTexture := false))
    case ReleaseSurface =>
      if !r.surface || r.engine then None else Some(r.(surface := false))
    case DeleteTexture(t) =>
      if t !in r.textures || r.engine then None else Some(r.(textures := r.textures - {t}))
  }

  /** Replays a log of effects; None as soon as one of them is a misuse. */
  function Replay(r: Resources, log: seq<Effect>): Option<Resources>
    decreases |log|
  {
    if log == [] then Some(r)
    else
      match Perform(r, log[0])
      case None => None
      case Some(r') => Replay(r', log[1..])
  }

  /** Replaying two logs one after the other is replaying their concatenation. */
  lemma {:induction false} ReplayAppend(r: Resources, a: seq<Effect>, b: seq<Effect>)
    ensures Replay(r, a + b) == match Replay(r, a)
                                 case None => None
                                 case Some(r') => Replay(r', b)
    decreases |a|
  {
    if a == [] {
      assert a + b == b;
    } else {
      assert (a + b)[0] == a[0];
      assert (a + b)[1..] == a[1..] + b;
      match Perform(r, a[0])
      case None =>
      case Some(r') => ReplayAppend(r', a[1..], b);
    }
  }

  lemma ReplayOne(r: Resources, e: Effect)
    ensures Replay(r, [e]) == Perform(r, e)
  {
    assert [e][1..] == [];
  }

  /** The resources that the fields account for: exactly what the controller holds a reference to. */
  predicate Accounts(r: Resources, f: Fields) {
    && r.textures == (if f.textureId != NO_TEXTURE then {f.textureId} else {})
    && r.surfaceTexture == f.surfaceTexture.Some?
    && r.surface == f.renderSurface.Some?
    && r.engine == f.connection.Some?
    && (r.started ==> r.engine)
  }

  /** The session's phase; the fields alone cannot tell Configured from Streaming, the engine's state can. */
  datatype Phase = Idle | Configured | Streaming

  function PhaseOf(r: Resources): Phase {
    if !r.engine then Idle else if r.started then Streaming else Configured
  }

  /** Idle --connect--> Configured --startStream--> Streaming --stopStream--> Idle. */
  function NextPhase(ph: Phase, op: Op): Phase {
    match op
    case Connect(_, _) => Configured
    case StartStream => if ph == Idle then Idle else Streaming
    case StopStream => Idle
    case UpdateVideoTexture => ph
  }

  /**
   * One call never misuses a resource, keeps the fields well formed and in
   * step with the resources, and moves the session's phase as the state
   * machine says.
   */
  lemma {:induction false} ApplyIsSafe(f: Fields, r: Resources, op: Op)
    requires WellFormed(f) && Accounts(r, f)
    requires Admissible(op) && SentinelFree(op)
    ensures var s := Apply(f, op);
            && WellFormed(s.fields)
            && Replay(r, s.effects).Some?
            && Accounts(Replay(r, s.effects).value, s.fields)
            && PhaseOf(Replay(r, s.effects).value) == NextPhase(PhaseOf(r), op)
  {
    match op
    case Connect(a, p) =>
      StopReplaysToNothing(f, r);
      BindReplays(p.generatedTexture);
      ReplayAppend(r, StopStep(f).effects, BindEffects(p.generatedTexture));
    case StartStream =>
      if StartStep(f).effects != [] {
        ReplayOne(r, StartEngine);
      }
    case StopStream =>
      StopReplaysToNothing(f, r);
    case UpdateVideoTexture =>
      if UpdateStep(f).effects != [] {
        ReplayOne(r, UpdateTexImage);
      }
  }

  /** What connect does after the teardown. */
  function BindEffects(t: int32): seq<Effect> {
    [GenTexture(t), CreateSurfaceTexture, CreateSurface, CreateEngine]
  }

  /** After the teardown nothing is left alive. */
  lemma StopReplaysToNothing(f: Fields, r: Resources)
    requires WellFormed(f) && Accounts(r, f)
    ensures Replay(r, StopStep(f).effects) == Some(NO_RESOURCES)
  {
    var a, b, c, d := TeardownParts(f);
    assert StopStep(f).effects == a + (b + (c + d));
    var r1 := r.(engine := false, started := false);
    var r2 := r1.(surfaceTexture := false);
    var r3 := r2.(surface := false);
    ReplayAppend(r, a, b + (c + d));
    ReplayOne(r, StopEngine);
    ReplayAppend(r1, b, c + d);
    ReplayOne(r1, ReleaseSurfaceTexture);
    ReplayAppend(r2, c, d);
    ReplayOne(r2, ReleaseSurface);
    ReplayOne(r3, DeleteTexture(f.textureId));
    assert f.textureId != NO_TEXTURE ==> r3.textures - {f.textureId} == {};
  }

  /** Binding a fresh session from nothing leaves exactly its texture, queue, surface and an unstarted engine. */
  lemma BindReplays(t: int32)
    ensures Replay(NO_RESOURCES, BindEffects(t)) == Some(Resources({t}, true, true, true, false))
  {
    var bind := BindEffects(t);
    var s1 := NO_RESOURCES.(textures := {t});
    var s2 := s1.(surfaceTexture := true);
    var s3 := s2.(surface := true);
    assert [GenTexture(t)] + bind[1..] == bind;
    assert [CreateSurfaceTexture] + bind[2..] == bind[1..];
    assert [CreateSurface] + [CreateEngine] == bind[2..];
    ReplayAppend(NO_RESOURCES, [GenTexture(t)], bind[1..]);
    ReplayOne(NO_RESOURCES, GenTexture(t));
    assert NO_RESOURCES.textures + {t} == {t};
    assert Replay(NO_RESOURCES, bind) == Replay(s1, bind[1..]);
    ReplayAppend(s1, [CreateSurfaceTexture], bind[2..]);
    ReplayOne(s1, CreateSurfaceTexture);
    assert Replay(s1, bind[1..]) == Replay(s2, bind[2..]);
    ReplayAppend(s2, [CreateSurface], [CreateEngine]);
    ReplayOne(s2, CreateSurface);
    ReplayOne(s3, CreateEngine);
  }

  /**
   * Over any sequence of calls from any well-formed state: no resource is
   * ever misused (no double release, nothing released while the engine
   * runs, no start without a bound surface, at most one engine and one
   * texture at a time), and what stays alive is exactly what the fields
   * still refer to, so nothing leaks.
   */
  lemma {:induction false} RunIsSafe(f: Fields, r: Resources, ops: seq<Op>)
    requires WellFormed(f) && Accounts(r, f)
    requires forall i :: 0 <= i < |ops| ==> Admissible(ops[i]) && SentinelFree(ops[i])
    ensures var s := Run(f, ops);
            && WellFormed(s.fields)
            && Replay(r, s.effects).Some?
            && Accounts(Replay(r, s.effects).value, s.fields)
    decreases |ops|
  {
    if ops != [] {
      var first := Apply(f, ops[0]);
      ApplyIsSafe(f, r, ops[0]);
      var r' := Replay(r, first.effects).value;
      RunIsSafe(first.fields, r', ops[1..]);
      ReplayAppend(r, first.effects, Run(first.fields, ops[1..]).effects);
    }
  }

  /** From a new controller: every texture allocated is deleted once the session is stopped. */
  lemma {:induction false} StoppedRunHoldsNothing(ops: seq<Op>)
    requires forall i :: 0 <= i < |ops| ==> Admissible(ops[i]) && SentinelFree(ops[i])
    ensures var log := Run(INITIAL, ops + [StopStream]).effects;
            Replay(NO_RESOURCES, log) == Some(NO_RESOURCES)
  {
    var all := ops + [StopStream];
    assert forall i :: 0 <= i < |all| ==> Admissible(all[i]) && SentinelFree(all[i]) by {
      forall i | 0 <= i < |all| ensures Admissible(all[i]) && SentinelFree(all[i]) {
        if i < |ops| { assert all[i] == ops[i]; }
      }
    }
    RunIsSafe(INITIAL, NO_RESOURCES, all);
    RunEndsWith(INITIAL, ops, StopStream);
  }

  /** Running a sequence and then one more call ends where that call leaves the sequence's result. */
  lemma {:induction false} RunEndsWith(f: Fields, ops: seq<Op>, last: Op)
    requires forall i :: 0 <= i < |ops| ==> Admissible(ops[i])
    requires Admissible(last)
    ensures forall i :: 0 <= i < |ops + [last]| ==> Admissible((ops + [last])[i])
    ensures Run(f, ops + [last]).fields == Apply(Run(f, ops).fields, last).fields
    decreases |ops|
  {
    assert forall i :: 0 <= i < |ops + [last]| ==> Admissible((ops + [last])[i]) by {
      forall i | 0 <= i < |ops + [last]| ensures Admissible((ops + [last])[i]) {
        if i < |ops| { assert (ops + [last])[i] == ops[i]; }
      }
    }
    if ops == [] {
      assert ops + [last] == [last];
    } else {
      assert (ops + [last])[1..] == ops[1..] + [last];
      RunEndsWith(Apply(f, ops[0]).fields, ops[1..], last);
    }
  }

  /**
   * A texture name equal to the sentinel is bound like any other, but
   * stopStream takes it for "no texture" and never deletes it.
   */
  lemma SentinelTextureIsNeverDeleted(a: ConnectArgs, p: Platform)
    requires FpsInRange(a.fps) && p.generatedTexture == NO_TEXTURE
    ensures var bound := ConnectStep(INITIAL, a, p);
            var log := bound.effects + StopStep(bound.fields).effects;
            && GenTexture(NO_TEXTURE) in log
            && DeleteTexture(NO_TEXTURE) !in log
  {
    var bound := ConnectStep(INITIAL, a, p);
    assert bound.effects[0] == GenTexture(NO_TEXTURE);
    assert StopStep(bound.fields).effects == [StopEngine, ReleaseSurfaceTexture, ReleaseSurface];
  }
}
