/**
 `DeviceParams` and its `Builder`: the settings of a device and the picture geometry computed
 from them, on which the address maps of module Geometry rely.

 The USB device, file descriptor, endpoints, packet sizes of the endpoints and callbacks are
 passed through by the source and are not modelled.
 */
module DeviceParameters {
  import G = Geometry

  datatype TvNorm = NTSC | PAL

  datatype ScanType = PROGRESSIVE | DISCARD | INTERLEAVED

  datatype InputSelection = COMPOSITE | SVIDEO

  datatype Settings = Settings(
    captureAudio: bool,
    framePoolSize: int,
    norm: TvNorm,
    scanType: ScanType,
    input: InputSelection)

  datatype DeviceParams = DeviceParams(
    settings: Settings,
    frameWidth: int,
    frameHeight: int,
    frameSizeBytes: int,
    videoPacketsPerField: int)

  // The lines of a whole picture.
  function PictureHeight(norm: TvNorm): nat
  {
    match norm
    case NTSC => 480
    case PAL => 576
  }

  // What a consumer may rely on: the sizes fit the picture, and the packets of its fields fill
  // the buffer.
  ghost predicate Consistent(p: DeviceParams)
  {
    var height := PictureHeight(p.settings.norm);
    && p.frameWidth == G.WIDTH
    && p.frameHeight == (if p.settings.scanType.INTERLEAVED? then height else height / 2)
    && p.frameSizeBytes == p.frameWidth * p.frameHeight * 2
    && p.videoPacketsPerField == G.PacketsPerField(height)
  }

  class Builder {
    var captureAudio: bool
    var framePoolSize: int
    var norm: TvNorm
    var scanType: ScanType
    var input: InputSelection
    var frameWidth: int
    var frameHeight: int
    var videoPacketsPerField: int

    function Chosen(): Settings
      reads this
    {
      Settings(captureAudio, framePoolSize, norm, scanType, input)
    }

    constructor ()
      ensures Chosen() == Settings(false, 4, NTSC, PROGRESSIVE, COMPOSITE)
    {
      captureAudio := false;
      framePoolSize := 4;
      norm := NTSC;
      scanType := PROGRESSIVE;
      input := COMPOSITE;
      frameWidth, frameHeight, videoPacketsPerField := 0, 0, 0;
    }

    constructor From(params: DeviceParams)
      ensures Chosen() == params.settings
      ensures frameWidth == params.frameWidth && frameHeight == params.frameHeight
    {
      captureAudio := params.settings.captureAudio;
      framePoolSize := params.settings.framePoolSize;
      norm := params.settings.norm;
      scanType := params.settings.scanType;
      input := params.settings.input;
      frameWidth := params.frameWidth;
      frameHeight := params.frameHeight;
      videoPacketsPerField := params.videoPacketsPerField;
    }

    method SetAudioCapture(enabled: bool) returns (b: Builder)
      modifies this`captureAudio
      ensures b == this && Chosen() == old(Chosen()).(captureAudio := enabled)
    {
      captureAudio := enabled;
      return this;
    }

    method SetFramePoolSize(poolSize: int) returns (b: Builder)
      modifies this`framePoolSize
      ensures b == this && Chosen() == old(Chosen()).(framePoolSize := poolSize)
    {
      framePoolSize := poolSize;
      return this;
    }

    method SetTvNorm(nrm: TvNorm) returns (b: Builder)
      modifies this`norm
      ensures b == this && Chosen() == old(Chosen()).(norm := nrm)
    {
      norm := nrm;
      return this;
    }

    method SetScanType(st: ScanType) returns (b: Builder)
      modifies this`scanType
      ensures b == this && Chosen() == old(Chosen()).(scanType := st)
    {
      scanType := st;
      return this;
    }

    method SetInput(selection: InputSelection) returns (b: Builder)
      modifies this`input
      ensures b == this && Chosen() == old(Chosen()).(input := selection)
    {
      input := selection;
      return this;
    }

    // The packet count is that of the full height; the height is halved afterwards.
    method SetFrameSize()
      modifies this`frameWidth, this`frameHeight, this`videoPacketsPerField
      ensures frameWidth == G.WIDTH
      ensures videoPacketsPerField == G.PacketsPerField(PictureHeight(norm))
      ensures frameHeight == if scanType.INTERLEAVED? then PictureHeight(norm) else PictureHeight(norm) / 2
    {
      match norm {
        case NTSC =>
          frameWidth := 720;
          frameHeight := 480;
        case PAL =>
          frameWidth := 720;
          frameHeight := 576;
      }
      videoPacketsPerField := (frameWidth * frameHeight) / G.PAYLOAD_SIZE;
      if scanType != INTERLEAVED {
        frameHeight := frameHeight / 2;
      }
    }

    // Whatever geometry the builder held before, the result is consistent with its settings: in
    // numbers, 480 or 576 lines of 720 pixels and 360 or 432 packets, or half the lines.
    method Build() returns (params: DeviceParams)
      modifies this`frameWidth, this`frameHeight, this`videoPacketsPerField
      ensures params.settings == Chosen() == old(Chosen())
      ensures Consistent(params)
      ensures params.videoPacketsPerField == match norm { case NTSC => 360 case PAL => 432 }
      ensures scanType.INTERLEAVED? ==>
        params.frameHeight == (match norm { case NTSC => 480 case PAL => 576 })
      ensures !scanType.INTERLEAVED? ==>
        params.frameHeight == (match norm { case NTSC => 240 case PAL => 288 })
      ensures params.frameWidth == 720
    {
      SetFrameSize();
      params := DeviceParams(Chosen(), frameWidth, frameHeight, frameWidth * frameHeight * 2, videoPacketsPerField);
    }
  }

  // The settings determine the rest, so building again from a result gives the same result.
  method Rebuild(params: DeviceParams) returns (again: DeviceParams)
    ensures again.settings == params.settings && Consistent(again)
    ensures Consistent(params) ==> again == params
  {
    var b := new Builder.From(params);
    again := b.Build();
  }

  // Changing the scan type of existing parameters restores or halves the height.
  method Rescan(params: DeviceParams, st: ScanType) returns (again: DeviceParams)
    requires Consistent(params)
    ensures Consistent(again) && again.settings == params.settings.(scanType := st)
    ensures again.videoPacketsPerField == params.videoPacketsPerField
    ensures params.settings.scanType.INTERLEAVED? && !st.INTERLEAVED? ==>
      2 * again.frameSizeBytes == params.frameSizeBytes
    ensures !params.settings.scanType.INTERLEAVED? && st.INTERLEAVED? ==>
      again.frameSizeBytes == 2 * params.frameSizeBytes
  {
    var b := new Builder.From(params);
    b := b.SetScanType(st);
    again := b.Build();
  }

  // The packets of one field, or of both, fill the buffer byte for byte.
  lemma BuiltFramesAreFilled(p: DeviceParams)
    requires Consistent(p)
    ensures p.videoPacketsPerField >= 0 && p.frameSizeBytes >= 0
    ensures p.settings.scanType.INTERLEAVED? ==>
      p.frameSizeBytes == 2 * p.videoPacketsPerField * G.PAYLOAD_SIZE &&
      forall q: G.Place :: q.byte < G.PAYLOAD_SIZE ==>
        (q.packet < p.videoPacketsPerField <==> G.InterleavedOffset(q) < p.frameSizeBytes)
    ensures !p.settings.scanType.INTERLEAVED? ==>
      p.frameSizeBytes == p.videoPacketsPerField * G.PAYLOAD_SIZE &&
      forall n: nat, b: nat :: b < G.PAYLOAD_SIZE ==>
        (n < p.videoPacketsPerField <==> G.ProgressiveOffset(n, b) < p.frameSizeBytes)
  {
    hide G.PacketsPerField, G.InterleavedOffset, G.ProgressiveOffset;
    var height := PictureHeight(p.settings.norm);
    G.FieldSizes(height);
    G.InterleavedTilesExactly(height);
    G.ProgressiveTilesExactly(height);
  }
}
