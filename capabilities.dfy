/**
 * Capability negotiation: the supported-video-format bitmask that `connect`
 * derives from the decoder's two probes.
 */
module Capabilities {

  /** Format bits: the values MoonBridge defines. */
  const VIDEO_FORMAT_H264: bv32 := 0x0001
  const VIDEO_FORMAT_H265: bv32 := 0x0100
  const VIDEO_FORMAT_AV1_MAIN8: bv32 := 0x1000

  /** The three bits together: nothing else can ever appear in a negotiated mask. */
  const KNOWN_FORMATS: bv32 := VIDEO_FORMAT_H264 | VIDEO_FORMAT_H265 | VIDEO_FORMAT_AV1_MAIN8

  /**
   * H264 always, then H265 OR-ed in when the decoder supports HEVC, then
   * AV1 Main8 OR-ed in when it supports AV1; the two checks are independent.
   */
  function SupportedVideoFormats(hevcSupported: bool, av1Supported: bool): (mask: bv32)
    ensures mask & VIDEO_FORMAT_H264 == VIDEO_FORMAT_H264
    ensures mask & VIDEO_FORMAT_H265 != 0 <==> hevcSupported
    ensures mask & VIDEO_FORMAT_AV1_MAIN8 != 0 <==> av1Supported
    ensures mask & !KNOWN_FORMATS == 0
  {
    var baseline := VIDEO_FORMAT_H264;
    var withHevc := if hevcSupported then baseline | VIDEO_FORMAT_H265 else baseline;
    if av1Supported then withHevc | VIDEO_FORMAT_AV1_MAIN8 else withHevc
  }

  /** The four probe combinations give four different masks: the mask determines the probes. */
  lemma SupportedVideoFormatsDetermineProbes(hevc1: bool, av11: bool, hevc2: bool, av12: bool)
    ensures SupportedVideoFormats(hevc1, av11) == SupportedVideoFormats(hevc2, av12)
            <==> hevc1 == hevc2 && av11 == av12
  {
    var m1, m2 := SupportedVideoFormats(hevc1, av11), SupportedVideoFormats(hevc2, av12);
    if m1 == m2 {
      assert m1 & VIDEO_FORMAT_H265 == m2 & VIDEO_FORMAT_H265;
      assert m1 & VIDEO_FORMAT_AV1_MAIN8 == m2 & VIDEO_FORMAT_AV1_MAIN8;
    }
  }
}
