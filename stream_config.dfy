/**
 * The two records `connect` builds from its arguments: the decoder's
 * preference record (buildPreferences) and the immutable stream
 * configuration handed to the connection engine (the builder chain).
 */
module StreamConfig {
  import opened JavaTypes

  /** PreferenceConfiguration.FormatOption. */
  datatype FormatOption = Auto | ForceAv1 | ForceHevc | ForceH264

  /** MoonBridge's audio channel layouts. */
  datatype AudioConfiguration = Stereo | Surround51 | Surround71

  /** StreamConfiguration's remote-configuration modes. */
  datatype RemoteConfiguration = StreamCfgLocal | StreamCfgRemote | StreamCfgAuto

  /** The fields of PreferenceConfiguration that buildPreferences sets. */
  datatype Preferences = Preferences(
    width: int32,
    height: int32,
    fps: int32,
    bitrate: int32,
    enableSops: bool,
    videoFormat: FormatOption,
    multiController: bool,
    playHostAudio: bool,
    audioConfiguration: AudioConfiguration)

  /** The fields of StreamConfiguration that the builder chain in `connect` sets. */
  datatype StreamConfiguration = StreamConfiguration(
    app: string,
    width: int32,
    height: int32,
    launchRefreshRate: int32,
    refreshRate: int32,
    bitrate: int32,
    enableSops: bool,
    localAudioPlayback: bool,
    maxPacketSize: int32,
    remoteConfiguration: RemoteConfiguration,
    supportedVideoFormats: bv32,
    attachedGamepadMask: int32,
    clientRefreshRateX100: int32,
    audioConfiguration: AudioConfiguration,
    colorSpace: int32,
    colorRange: int32,
    persistGamepadsAfterDisconnect: bool)

  /** The app the plugin always launches (its NvApp descriptor). */
  const APP_NAME := "Steam"
  const MAX_PACKET_SIZE: int32 := 1392

  /** `fps * 100` fits in a Java int, so the refresh rate sent to the host does not wrap. */
  predicate FpsInRange(fps: int32) {
    -0x8000_0000 <= fps as int * 100 < 0x8000_0000
  }

  /** buildPreferences: the caller's stream settings, unchanged, with fixed defaults for the rest. */
  function BuildPreferences(width: int32, height: int32, fps: int32, bitrate: int32): (p: Preferences)
    ensures p.width == width && p.height == height && p.fps == fps && p.bitrate == bitrate
    ensures p.videoFormat == Auto && p.audioConfiguration == Stereo
  {
    Preferences(width, height, fps, bitrate, true, Auto, true, true, Stereo)
  }

  /**
   * The configuration built in `connect`: resolution, launch and refresh
   * rate, bitrate from the arguments; the negotiated format mask and the
   * decoder's colour space and range; fixed values for everything else.
   */
  function BuildStreamConfiguration(width: int32, height: int32, fps: int32, bitrate: int32,
                                    supportedVideoFormats: bv32, colorSpace: int32, colorRange: int32)
    : (c: StreamConfiguration)
    requires FpsInRange(fps)
    ensures c.width == width && c.height == height
    ensures c.launchRefreshRate == fps && c.refreshRate == fps && c.bitrate == bitrate
    ensures c.clientRefreshRateX100 as int == fps as int * 100
    ensures c.supportedVideoFormats == supportedVideoFormats
    ensures c.colorSpace == colorSpace && c.colorRange == colorRange
    ensures c.maxPacketSize == 1392 && c.attachedGamepadMask == 0 && c.audioConfiguration == Stereo
    ensures !c.localAudioPlayback && c.remoteConfiguration == StreamCfgAuto
  {
    StreamConfiguration(
      app := APP_NAME,
      width := width,
      height := height,
      launchRefreshRate := fps,
      refreshRate := fps,
      bitrate := bitrate,
      enableSops := true,
      localAudioPlayback := false,
      maxPacketSize := MAX_PACKET_SIZE,
      remoteConfiguration := StreamCfgAuto,
      supportedVideoFormats := supportedVideoFormats,
      attachedGamepadMask := 0,
      clientRefreshRateX100 := fps * 100,
      audioConfiguration := Stereo,
      colorSpace := colorSpace,
      colorRange := colorRange,
      persistGamepadsAfterDisconnect := true)
  }

  /**
   * The two records built from one set of arguments agree on every stream
   * setting they share: resolution, frame rate, bitrate, SOPS and audio
   * layout. (They disagree on host audio: the preferences say the host
   * plays audio, the configuration disables it.)
   */
  lemma PreferencesAgreeWithConfiguration(width: int32, height: int32, fps: int32, bitrate: int32,
                                          formats: bv32, colorSpace: int32, colorRange: int32)
    requires FpsInRange(fps)
    ensures var p := BuildPreferences(width, height, fps, bitrate);
            var c := BuildStreamConfiguration(width, height, fps, bitrate, formats, colorSpace, colorRange);
            && p.width == c.width && p.height == c.height
            && p.fps == c.refreshRate == c.launchRefreshRate
            && p.bitrate == c.bitrate
            && p.enableSops == c.enableSops
            && p.audioConfiguration == c.audioConfiguration
            && p.playHostAudio != c.localAudioPlayback
  {
  }
}
