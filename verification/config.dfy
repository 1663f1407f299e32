/** The build-time configuration of openmax/h264.h, the Q16 fixed-point
    conversions openmax/h264.cpp applies to it, and the fixed lists of
    camera and encoder settings those values end up in. */
module Config {

  // Video settings.
  const VideoFramerate: int := 10
  const VideoBitrate: int := 140000
  const VideoIdrPeriod: int := 1
  const VideoSei: bool := false
  const VideoEede: bool := false
  const VideoEedeLossRate: int := 0
  const VideoQp: bool := false
  const VideoQpI: int := 0        // 1 .. 51, 0 means off
  const VideoQpP: int := 0        // 1 .. 51, 0 means off
  const VideoInlineHeaders: bool := false

  // Camera settings.
  const CamWidth: int := 320
  const CamHeight: int := 240
  const CamSharpness: int := 0                // -100 .. 100
  const CamContrast: int := 0                 // -100 .. 100
  const CamBrightness: int := 50              // 0 .. 100
  const CamSaturation: int := 0               // -100 .. 100
  const CamIso: int := 100                    // 100 .. 800
  const CamExposureCompensation: int := 0     // -24 .. 24
  const CamRotation: int := 0                 // 0 90 180 270
  const CamColorU: int := 128                 // 0 .. 255
  const CamColorV: int := 128                 // 0 .. 255
  const CamWhiteBalanceRedGain: int := 1000   // 0 ..
  const CamWhiteBalanceBlueGain: int := 1000  // 0 ..
  const CamRoiTop: int := 0                   // 0 .. 100
  const CamRoiLeft: int := 0                  // 0 .. 100
  const CamRoiWidth: int := 100               // 0 .. 100
  const CamRoiHeight: int := 100              // 0 .. 100

  /** OMX_WHITEBALCONTROLTYPE; `WhiteBalOff` is the enumeration's zero, so
      `!CAM_WHITE_BALANCE` holds exactly for it. */
  datatype WhiteBalance =
    | WhiteBalOff | WhiteBalAuto | WhiteBalSunLight | WhiteBalCloudy | WhiteBalShade
    | WhiteBalTungsten | WhiteBalFluorescent | WhiteBalIncandescent | WhiteBalFlash
    | WhiteBalHorizon

  const CamWhiteBalance: WhiteBalance := WhiteBalAuto

  /** Every configured integer lies in the range its comment documents. */
  lemma ConfiguredValuesInRange()
    ensures -100 <= CamSharpness <= 100 && -100 <= CamContrast <= 100
    ensures 0 <= CamBrightness <= 100 && -100 <= CamSaturation <= 100
    ensures 100 <= CamIso <= 800 && -24 <= CamExposureCompensation <= 24
    ensures CamRotation in {0, 90, 180, 270}
    ensures 0 <= CamColorU <= 255 && 0 <= CamColorV <= 255
    ensures 0 <= CamWhiteBalanceRedGain && 0 <= CamWhiteBalanceBlueGain
    ensures 0 <= CamRoiTop <= 100 && 0 <= CamRoiLeft <= 100
    ensures 0 <= CamRoiWidth <= 100 && 0 <= CamRoiHeight <= 100
    ensures VideoQpI == 0 || 1 <= VideoQpI <= 51
    ensures VideoQpP == 0 || 1 <= VideoQpP <= 51
  {
  }

  /** `x << 16` on a C int: defined (no sign-bit overflow) only for
      0 <= x < 2^15. */
  function Q16(x: int): (r: int)
    requires 0 <= x < 0x8000
    ensures 0 <= r < 0x8000_0000
    ensures r % 0x1_0000 == 0 && r / 0x1_0000 == x
  {
    x * 0x1_0000
  }

  /** The Q16 frame rate divided by 65536 gives the frame rate back. */
  lemma FramerateRoundTrip()
    ensures Q16(VideoFramerate) == 655360
    ensures Q16(VideoFramerate) / 0x1_0000 == VideoFramerate
  {
  }

  /** `(p << 16) / 100`: a percentage as a Q16 fraction of the frame. */
  function Percent16(p: int): (r: int)
    requires 0 <= p < 0x8000
    ensures p <= 100 <==> r <= 0x1_0000
    ensures r == 0x1_0000 <==> p == 100
    ensures r == 0 <==> p == 0
  {
    Q16(p) / 100
  }

  /** The crop conversion is monotone. */
  lemma Percent16Monotone(p: int, q: int)
    requires 0 <= p <= q < 0x8000
    ensures Percent16(p) <= Percent16(q)
  {
  }

  /** `(g << 16) / 1000`: an AWB gain in thousandths as a Q16 value. */
  function Gain16(g: int): (r: int)
    requires 0 <= g < 0x8000
    ensures r * 1000 <= g * 0x1_0000 < (r + 1) * 1000
    ensures g == 1000 <==> r == 0x1_0000
  {
    Q16(g) / 1000
  }

  /** The camera and encoder parameters the initialisation sets. Enumerated
      modes that the model never reasons about are kept abstract. */
  datatype Setting =
    // load_camera_drivers
    | CameraCallbackRequest
    | CameraDeviceNumber(device: int)
    // port definitions and frame rates
    | CameraPortDefinition(port: nat, width: int, height: int, stride: int, framerateQ16: int)
    | EncoderPortDefinition(port: nat, width: int, height: int, stride: int, framerateQ16: int, bitrate: int)
    | Framerate(port: nat, framerateQ16: int)
    // set_camera_settings
    | Sharpness(sharpness: int)
    | Contrast(contrast: int)
    | Saturation(saturation: int)
    | Brightness(brightness: int)
    | ExposureValue(sensitivity: int, autoSensitivity: bool, autoShutter: bool)
    | ExposureControl
    | FrameStabilisation(enabled: bool)
    | WhiteBalanceControl(mode: WhiteBalance)
    | AwbGains(redQ16: int, blueQ16: int)
    | ImageFilter
    | Mirror(port: nat)
    | Rotation(port: nat, degrees: int)
    | ColorEnhancement(enabled: bool, u: int, v: int)
    | Denoise(enabled: bool)
    | InputCrop(left: int, top: int, width: int, height: int)
    | DynamicRangeExpansion
    // set_h264_settings
    | Bitrate(port: nat, target: int)
    | Quantization(port: nat, qpI: int, qpP: int)
    | PortFormat(port: nat)
    | IntraPeriod(port: nat, period: int)
    | SeiEnable(port: nat, enabled: bool)
    | EedeEnable(port: nat, enabled: bool)
    | EedeLossRate(port: nat, rate: int)
    | AvcProfile(port: nat)          // VIDEO_PROFILE, the AVC baseline profile
    | InlineHeaders(port: nat, enabled: bool)

  /** The crop window set_camera_settings hands to the camera. */
  function CropWindow(): (s: Setting)
    ensures s == InputCrop(0, 0, 0x1_0000, 0x1_0000)
  {
    InputCrop(Percent16(CamRoiLeft), Percent16(CamRoiTop), Percent16(CamRoiWidth), Percent16(CamRoiHeight))
  }

  /** The settings set_camera_settings applies, in order, for a given white
      balance mode: the custom AWB gains appear only when the mode is off. */
  function CameraSettings(wb: WhiteBalance): (s: seq<Setting>)
    ensures (exists i :: 0 <= i < |s| && s[i].AwbGains?) <==> wb == WhiteBalOff
    ensures wb == WhiteBalOff ==> AwbGains(0x1_0000, 0x1_0000) in s
    ensures CropWindow() in s
  {
    var head := [ Sharpness(CamSharpness), Contrast(CamContrast), Saturation(CamSaturation),
                  Brightness(CamBrightness), ExposureValue(CamIso, true, true), ExposureControl,
                  FrameStabilisation(false), WhiteBalanceControl(wb) ];
    var gains := if wb == WhiteBalOff
                 then [AwbGains(Gain16(CamWhiteBalanceRedGain), Gain16(CamWhiteBalanceBlueGain))]
                 else [];
    var tail := [ ImageFilter, Mirror(71), Rotation(71, CamRotation),
                  ColorEnhancement(false, CamColorU, CamColorV), Denoise(true), CropWindow(),
                  DynamicRangeExpansion ];
    var s := head + gains + tail;
    assert forall i :: 0 <= i < |s| ==> s[i] in head || s[i] in gains || s[i] in tail;
    assert wb == WhiteBalOff ==> s[|head|].AwbGains?;
    s
  }

  /** The bitrate written into the encoder's output port definition. */
  function EncoderPortBitrate(qp: bool): (b: int)
    ensures qp ==> b == 0
    ensures !qp ==> b == VideoBitrate
  {
    if qp then 0 else VideoBitrate
  }

  /** The rate-control setting set_h264_settings applies: a variable target
      bitrate when VIDEO_QP is off, fixed quantisers otherwise. */
  function RateControl(qp: bool): (s: Setting)
    ensures s.Bitrate? <==> !qp
    ensures s.Quantization? <==> qp
    ensures s.Bitrate? ==> s == Bitrate(201, EncoderPortBitrate(qp))
  {
    if qp then Quantization(201, VideoQpI, VideoQpP) else Bitrate(201, VideoBitrate)
  }

  /** The bitrate written into the encoder's port definition agrees with the
      rate control written later: it is zero exactly when fixed quantisers
      are used, and otherwise it is the same target. */
  lemma PortBitrateAgrees(qp: bool)
    ensures EncoderPortBitrate(qp) == 0 <==> RateControl(qp).Quantization?
    ensures RateControl(qp).Bitrate? ==> RateControl(qp).target == EncoderPortBitrate(qp)
  {
  }

  /** With the configured VIDEO_QP (off) the bitrate branch is taken and the
      port bitrate is VIDEO_BITRATE. */
  lemma ConfiguredRateControl()
    ensures RateControl(VideoQp) == Bitrate(201, 140000)
    ensures EncoderPortBitrate(VideoQp) == 140000
    ensures AwbGains(0x1_0000, 0x1_0000) in CameraSettings(WhiteBalOff)
    ensures forall i :: 0 <= i < |CameraSettings(CamWhiteBalance)| ==>
                          !CameraSettings(CamWhiteBalance)[i].AwbGains?
  {
  }
}
