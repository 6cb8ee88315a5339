/** The desktop transcoder's `transcode-file` request handler
    (ffmpeg-desktop/electron/main.ts): from a request it derives the output
    path beside the input and the list of calls made on the encoder's
    command builder, and it forwards the encoder's progress, end and error
    events to the window. The encoder itself is not modelled: only the
    builder calls, in order. */
module Transcode {
  import opened Common

  /** The fields of one `transcode-file` request. */
  datatype TranscodeRequest = TranscodeRequest(
    filePath: string,
    format: string,
    id: int,
    hwAccel: bool,
    codec: string,
    resolution: string,
    bitrate: string)

  /** One call on the command builder. */
  datatype BuilderOp =
    | ToFormat(format: string)
    | Size(size: string)
    | VideoBitrate(rate: string)
    | VideoCodec(codec: string)
    | Fps(fps: nat)
    | NoVideo

  /** The prepared command: input file, builder calls in order, and the
      path given to `save`. */
  datatype Command = Command(input: string, ops: seq<BuilderOp>, outputPath: string)

  const HardwarePlatform: string := "darwin"
  const HardwareDefaultBitrate: string := "2500k"
  const GifSize: string := "320x?"
  const GifFps: nat := 10

  /** The formats whose video codec may be chosen: mp4, mov and mkv. */
  predicate IsContainer(format: string) {
    format == "mp4" || format == "mov" || format == "mkv"
  }

  /** `resolution && resolution !== 'original'`. */
  predicate ResizeRequested(req: TranscodeRequest) {
    req.resolution != "" && req.resolution != "original"
  }

  /** The VideoToolbox branch: a container format, hardware acceleration on,
      running on macOS. */
  predicate HardwarePath(req: TranscodeRequest, platform: string) {
    IsContainer(req.format) && req.hwAccel && platform == HardwarePlatform
  }

  // ---------------------------------------------------------------------
  // Reading a list of builder calls

  /** The kinds of builder call the handler may make after `toFormat`. */
  datatype OpKind = IsSize | IsBitrate | IsCodec | IsFps | IsNoVideo

  predicate OfKind(op: BuilderOp, kind: OpKind) {
    match kind
    case IsSize => op.Size?
    case IsBitrate => op.VideoBitrate?
    case IsCodec => op.VideoCodec?
    case IsFps => op.Fps?
    case IsNoVideo => op.NoVideo?
  }

  /** The calls of one kind, in the order they were made. */
  function Calls(ops: seq<BuilderOp>, kind: OpKind): (r: seq<BuilderOp>)
    ensures forall k :: 0 <= k < |r| ==> OfKind(r[k], kind)
  {
    if ops == [] then []
    else Calls(ops[..|ops| - 1], kind) + (if OfKind(ops[|ops| - 1], kind) then [ops[|ops| - 1]] else [])
  }

  lemma {:induction false} CallsAppend(a: seq<BuilderOp>, b: seq<BuilderOp>, kind: OpKind)
    ensures Calls(a + b, kind) == Calls(a, kind) + Calls(b, kind)
    decreases |b|
  {
    if b == [] {
      assert a + b == a;
    } else {
      assert (a + b)[..|a + b| - 1] == a + b[..|b| - 1];
      CallsAppend(a, b[..|b| - 1], kind);
    }
  }

  /** A list of calls all of one kind is all of its calls of that kind and
      holds none of any other kind. */
  lemma {:induction false} CallsUniform(b: seq<BuilderOp>, only: OpKind, kind: OpKind)
    requires forall i :: 0 <= i < |b| ==> OfKind(b[i], only)
    ensures Calls(b, kind) == if kind == only then b else []
    decreases |b|
  {
    if b != [] {
      CallsUniform(b[..|b| - 1], only, kind);
      assert b[..|b| - 1] + [b[|b| - 1]] == b;
    }
  }

  /** Appending calls all of one kind adds them to that kind's calls only. */
  lemma CallsStep(a: seq<BuilderOp>, b: seq<BuilderOp>, only: OpKind, kind: OpKind)
    requires forall i :: 0 <= i < |b| ==> OfKind(b[i], only)
    ensures Calls(a + b, kind) == Calls(a, kind) + (if kind == only then b else [])
  {
    CallsAppend(a, b, kind);
    CallsUniform(b, only, kind);
  }

  /** The calls of one kind made by a `toFormat` call followed by seven
      phases, each of a single kind: resize, bitrate, codec, bitrate, frame
      rate, size, no video. */
  lemma CallsPhases(p0: seq<BuilderOp>, p1: seq<BuilderOp>, p2: seq<BuilderOp>, p3: seq<BuilderOp>,
                    p4: seq<BuilderOp>, p5: seq<BuilderOp>, p6: seq<BuilderOp>, p7: seq<BuilderOp>,
                    kind: OpKind)
    requires |p0| == 1 && p0[0].ToFormat?
    requires forall i :: 0 <= i < |p1| ==> p1[i].Size?
    requires forall i :: 0 <= i < |p2| ==> p2[i].VideoBitrate?
    requires forall i :: 0 <= i < |p3| ==> p3[i].VideoCodec?
    requires forall i :: 0 <= i < |p4| ==> p4[i].VideoBitrate?
    requires forall i :: 0 <= i < |p5| ==> p5[i].Fps?
    requires forall i :: 0 <= i < |p6| ==> p6[i].Size?
    requires forall i :: 0 <= i < |p7| ==> p7[i].NoVideo?
    ensures Calls(p0 + p1 + p2 + p3 + p4 + p5 + p6 + p7, kind)
      == (if kind == IsSize then p1 else []) + (if kind == IsBitrate then p2 else [])
       + (if kind == IsCodec then p3 else []) + (if kind == IsBitrate then p4 else [])
       + (if kind == IsFps then p5 else []) + (if kind == IsSize then p6 else [])
       + (if kind == IsNoVideo then p7 else [])
  {
    assert p0[..0] == [];
    var p := p0;
    assert Calls(p, kind) == [];
    CallsStep(p, p1, IsSize, kind);
    p := p + p1;
    CallsStep(p, p2, IsBitrate, kind);
    p := p + p2;
    CallsStep(p, p3, IsCodec, kind);
    p := p + p3;
    CallsStep(p, p4, IsBitrate, kind);
    p := p + p4;
    CallsStep(p, p5, IsFps, kind);
    p := p + p5;
    CallsStep(p, p6, IsSize, kind);
    p := p + p6;
    CallsStep(p, p7, IsNoVideo, kind);
  }

  /** The size the encoder ends up with: the last `size` call wins. */
  function EffectiveSize(ops: seq<BuilderOp>): Option<string>
  {
    var sizes := Calls(ops, IsSize);
    if sizes == [] then None else Some(sizes[|sizes| - 1].size)
  }

  // ---------------------------------------------------------------------
  // The builder calls

  /** `hwAccel` with a container format on macOS: the VideoToolbox encoder
      named after the requested codec. */
  function HardwareCodec(req: TranscodeRequest): string {
    if req.codec == "hevc" then "hevc_videotoolbox" else "h264_videotoolbox"
  }

  /** The software encoder for the requested codec, if it is one of the two
      the handler knows. */
  function SoftwareCodec(req: TranscodeRequest): Option<string> {
    if req.codec == "hevc" then Some("libx265")
    else if req.codec == "h264" then Some("libx264")
    else None
  }

  /** The calls the handler makes, phase by phase, in the order it makes
      them: `toFormat`, the resolution, the bitrate, the codec (and on the
      hardware path its default bitrate), then the GIF or MP3 overrides. */
  function Plan(req: TranscodeRequest, platform: string): seq<BuilderOp> {
    [ToFormat(req.format)]
    + ResizePhase(req) + RatePhase(req) + CodecPhase(req, platform) + HardwareRatePhase(req, platform)
    + FrameRatePhase(req) + GifSizePhase(req) + NoVideoPhase(req)
  }

  function ResizePhase(req: TranscodeRequest): seq<BuilderOp> {
    if ResizeRequested(req) then [Size(req.resolution)] else []
  }

  function RatePhase(req: TranscodeRequest): seq<BuilderOp> {
    if req.bitrate != "" then [VideoBitrate(req.bitrate + "k")] else []
  }

  function CodecPhase(req: TranscodeRequest, platform: string): seq<BuilderOp> {
    if HardwarePath(req, platform) then [VideoCodec(HardwareCodec(req))]
    else if IsContainer(req.format) && SoftwareCodec(req).Some? then [VideoCodec(SoftwareCodec(req).value)]
    else []
  }

  function HardwareRatePhase(req: TranscodeRequest, platform: string): seq<BuilderOp> {
    if HardwarePath(req, platform) && req.bitrate == "" then [VideoBitrate(HardwareDefaultBitrate)] else []
  }

  function FrameRatePhase(req: TranscodeRequest): seq<BuilderOp> {
    if req.format == "gif" then [Fps(GifFps)] else []
  }

  function GifSizePhase(req: TranscodeRequest): seq<BuilderOp> {
    if req.format == "gif" then [Size(GifSize)] else []
  }

  function NoVideoPhase(req: TranscodeRequest): seq<BuilderOp> {
    if req.format == "mp3" then [NoVideo] else []
  }

  /** The calls of one kind in the plan, phase by phase. */
  lemma PlanCalls(req: TranscodeRequest, platform: string, kind: OpKind)
    ensures Calls(Plan(req, platform), kind)
      == (if kind == IsSize then ResizePhase(req) else [])
       + (if kind == IsBitrate then RatePhase(req) else [])
       + (if kind == IsCodec then CodecPhase(req, platform) else [])
       + (if kind == IsBitrate then HardwareRatePhase(req, platform) else [])
       + (if kind == IsFps then FrameRatePhase(req) else [])
       + (if kind == IsSize then GifSizePhase(req) else [])
       + (if kind == IsNoVideo then NoVideoPhase(req) else [])
  {
    var start := [ToFormat(req.format)];
    assert start[..0] == [];
    CallsPhases(start, ResizePhase(req), RatePhase(req), CodecPhase(req, platform), HardwareRatePhase(req, platform),
                FrameRatePhase(req), GifSizePhase(req), NoVideoPhase(req), kind);
  }

  /** The sizes asked for: the requested resolution unless it is empty or
      "original", then 320 pixels wide for a GIF. */
  lemma PlanSizes(req: TranscodeRequest, platform: string)
    ensures Calls(Plan(req, platform), IsSize)
      == (if ResizeRequested(req) then [Size(req.resolution)] else [])
       + (if req.format == "gif" then [Size(GifSize)] else [])
  {
    PlanCalls(req, platform, IsSize);
  }

  /** The bitrates asked for: the user's in kilobits, or 2500k on the
      hardware path when the user gave none; so at most one, and exactly one
      on the hardware path. */
  lemma PlanBitrates(req: TranscodeRequest, platform: string)
    ensures Calls(Plan(req, platform), IsBitrate)
      == (if req.bitrate != "" then [VideoBitrate(req.bitrate + "k")]
          else if HardwarePath(req, platform) then [VideoBitrate(HardwareDefaultBitrate)]
          else [])
    ensures |Calls(Plan(req, platform), IsBitrate)| <= 1
    ensures HardwarePath(req, platform) ==> |Calls(Plan(req, platform), IsBitrate)| == 1
  {
    PlanCalls(req, platform, IsBitrate);
  }

  /** The codec: VideoToolbox on the hardware path, libx265 / libx264 for a
      container otherwise (none for another codec name), never for a format
      that is not a container; so at most one. */
  lemma PlanCodecs(req: TranscodeRequest, platform: string)
    ensures HardwarePath(req, platform) ==> (Calls(Plan(req, platform), IsCodec)
      == [VideoCodec(if req.codec == "hevc" then "hevc_videotoolbox" else "h264_videotoolbox")])
    ensures IsContainer(req.format) && !HardwarePath(req, platform) ==> (Calls(Plan(req, platform), IsCodec)
      == if req.codec == "hevc" then [VideoCodec("libx265")]
         else if req.codec == "h264" then [VideoCodec("libx264")]
         else [])
    ensures !IsContainer(req.format) ==> Calls(Plan(req, platform), IsCodec) == []
    ensures |Calls(Plan(req, platform), IsCodec)| <= 1
  {
    PlanCalls(req, platform, IsCodec);
  }

  /** The overrides: a frame rate of 10 only for a GIF, no video only for
      an MP3. */
  lemma PlanOverrides(req: TranscodeRequest, platform: string)
    ensures Calls(Plan(req, platform), IsFps) == (if req.format == "gif" then [Fps(GifFps)] else [])
    ensures Calls(Plan(req, platform), IsNoVideo) == (if req.format == "mp3" then [NoVideo] else [])
  {
    PlanCalls(req, platform, IsFps);
    PlanCalls(req, platform, IsNoVideo);
  }

  /** The size the encoder keeps is the last one asked for: 320 pixels wide
      for a GIF whatever resolution was requested, the requested one
      otherwise. */
  lemma PlanEffectiveSize(req: TranscodeRequest, platform: string)
    ensures req.format == "gif" ==> EffectiveSize(Plan(req, platform)) == Some(GifSize)
    ensures req.format != "gif" ==> (EffectiveSize(Plan(req, platform))
      == if ResizeRequested(req) then Some(req.resolution) else None)
  {
    PlanSizes(req, platform);
  }

  /** The calls the handler makes on `ffmpeg(filePath)` before `save`, one
      at a time. */
  method PlanOps(req: TranscodeRequest, platform: string) returns (ops: seq<BuilderOp>)
    ensures ops == Plan(req, platform)
    ensures ops[0] == ToFormat(req.format)
  {
    ops := [ToFormat(req.format)];

    // Resolution
    ghost var before := ops;
    if ResizeRequested(req) {
      ops := ops + [Size(req.resolution)];
    }
    assert ops == before + ResizePhase(req);

    // Bitrate
    before := ops;
    if req.bitrate != "" {
      ops := ops + [VideoBitrate(req.bitrate + "k")];
    }
    assert ops == before + RatePhase(req);

    // Codec and hardware acceleration
    before := ops;
    ghost var afterCodec := ops;
    if IsContainer(req.format) {
      if req.hwAccel && platform == HardwarePlatform {
        ops := ops + [VideoCodec(HardwareCodec(req))];
        afterCodec := ops;
        if req.bitrate == "" {
          ops := ops + [VideoBitrate(HardwareDefaultBitrate)];
        }
      } else if req.codec == "hevc" {
        ops := ops + [VideoCodec("libx265")];
        afterCodec := ops;
      } else if req.codec == "h264" {
        ops := ops + [VideoCodec("libx264")];
        afterCodec := ops;
      }
    }
    assert afterCodec == before + CodecPhase(req, platform);
    assert ops == afterCodec + HardwareRatePhase(req, platform);

    // Format specific overrides
    before := ops;
    if req.format == "gif" {
      ops := ops + [Fps(GifFps)] + [Size(GifSize)];
    } else if req.format == "mp3" {
      ops := ops + [NoVideo];
    }
    assert ops == before + FrameRatePhase(req) + GifSizePhase(req) + NoVideoPhase(req);
  }

  // ---------------------------------------------------------------------
  // Paths (POSIX `path.dirname`, `path.basename`, `path.extname`, `path.join`
  // for file paths without trailing or doubled separators)

  const Separator: char := '/'

  /** The index of the last separator of `p`, if any. */
  function LastSeparator(p: string): (r: Option<nat>)
    ensures r.Some? ==> (r.value < |p| && p[r.value] == Separator
      && forall k :: r.value < k < |p| ==> p[k] != Separator)
    ensures r.None? ==> Separator !in p
  {
    if p == [] then None
    else if p[|p| - 1] == Separator then Some(|p| - 1)
    else LastSeparator(p[..|p| - 1])
  }

  /** `path.dirname(p)`. */
  function Dirname(p: string): string
  {
    match LastSeparator(p)
    case None => "."
    case Some(0) => [Separator]
    case Some(i) => p[..i]
  }

  /** `path.basename(p)`: what follows the last separator. */
  function Basename(p: string): (r: string)
    ensures Separator !in r
  {
    match LastSeparator(p)
    case None => p
    case Some(i) => p[i + 1..]
  }

  /** The index of the last dot of a file name, if any. */
  function LastDot(name: string): (r: Option<nat>)
    ensures r.Some? ==> r.value < |name| && name[r.value] == '.'
  {
    if name == [] then None
    else if name[|name| - 1] == '.' then Some(|name| - 1)
    else LastDot(name[..|name| - 1])
  }

  /** `path.basename(p, path.extname(p))`: the file name less its extension;
      a name whose only dot leads it (".bashrc") has no extension. */
  function Stem(p: string): (r: string)
    ensures Separator !in r
  {
    var name := Basename(p);
    match LastDot(name)
    case Some(d) => if d == 0 then name else name[..d]
    case None => name
  }

  /** `path.join(dir, name)` for a single file name. */
  function JoinPath(dir: string, name: string): string
  {
    if dir == "." then name
    else if dir == [Separator] then [Separator] + name
    else dir + [Separator] + name
  }

  /** `path.join(inputDir, `${name}_converted.${format}`)`. */
  function OutputPath(filePath: string, format: string): string
  {
    JoinPath(Dirname(filePath), Stem(filePath) + "_converted." + format)
  }

  /** A path without doubled separators. */
  predicate NoDoubledSeparator(p: string) {
    forall k :: 0 < k < |p| && p[k] == Separator ==> p[k - 1] != Separator
  }

  /** The output lands in the input's directory, named after the input's
      stem with "_converted." and the format appended. */
  lemma OutputBesideInput(filePath: string, format: string)
    requires NoDoubledSeparator(filePath)
    requires Separator !in format
    ensures Dirname(OutputPath(filePath, format)) == Dirname(filePath)
    ensures Basename(OutputPath(filePath, format)) == Stem(filePath) + "_converted." + format
  {
    var dir, name := Dirname(filePath), Stem(filePath) + "_converted." + format;
    var out := OutputPath(filePath, format);
    assert Separator !in name;
    match LastSeparator(filePath)
    case None =>
      assert out == name;
      NoSeparatorHasNone(out);
    case Some(i) =>
      if i == 0 {
        assert out == [Separator] + name;
        LastSeparatorAfter([Separator], name);
      } else {
        assert dir == filePath[..i];
        assert filePath[i - 1] != Separator;
        if dir == "." {
          assert out == name;
          NoSeparatorHasNone(out);
        } else {
          assert dir != [Separator];
          assert out == dir + [Separator] + name;
          LastSeparatorAfter(dir + [Separator], name);
          assert out[..|dir|] == dir;
        }
      }
  }

  lemma {:induction false} NoSeparatorHasNone(p: string)
    requires Separator !in p
    ensures LastSeparator(p) == None
    decreases |p|
  {
    if p != [] {
      assert Separator !in p[..|p| - 1];
      NoSeparatorHasNone(p[..|p| - 1]);
    }
  }

  lemma {:induction false} LastSeparatorAfter(prefix: string, name: string)
    requires |prefix| > 0 && prefix[|prefix| - 1] == Separator
    requires Separator !in name
    ensures LastSeparator(prefix + name) == Some(|prefix| - 1)
    decreases |name|
  {
    if name == [] {
      assert prefix + name == prefix;
    } else {
      assert (prefix + name)[..|prefix + name| - 1] == prefix + name[..|name| - 1];
      assert Separator !in name[..|name| - 1];
      LastSeparatorAfter(prefix, name[..|name| - 1]);
    }
  }

  // ---------------------------------------------------------------------
  // The handler and its notifications

  /** An event the encoder reports while running. */
  datatype EncoderEvent =
    | Progress(percent: Option<real>)
    | End
    | Failed(message: string)

  /** A message sent to the window. */
  datatype Notification =
    | ConversionProgress(id: int, progress: real)
    | ConversionComplete(id: int, outputPath: string)
    | ConversionError(id: int, error: string)

  /** The `transcode-file` handler: nothing happens without a window;
      otherwise the command reads the request's file, makes the planned
      builder calls and saves beside the input. */
  method HandleTranscode(windowOpen: bool, req: TranscodeRequest, platform: string)
    returns (cmd: Option<Command>)
    ensures cmd.None? <==> !windowOpen
    ensures cmd.Some? ==> (cmd.value.input == req.filePath
      && cmd.value.outputPath == OutputPath(req.filePath, req.format)
      && cmd.value.ops == Plan(req, platform) && cmd.value.ops[0] == ToFormat(req.format))
  {
    if !windowOpen {
      return None;
    }
    var ops := PlanOps(req, platform);
    cmd := Some(Command(req.filePath, ops, OutputPath(req.filePath, req.format)));
  }

  /** What the window is told about one encoder event (`win?.webContents.send`):
      nothing once the window is gone; otherwise a message carrying the
      request's id, with a missing percentage reported as 0. */
  function Notify(windowOpen: bool, req: TranscodeRequest, event: EncoderEvent): (n: Option<Notification>)
    ensures n.Some? <==> windowOpen
    ensures n.Some? ==> n.value.id == req.id
    ensures n.Some? && event.Progress? ==> (n.value.ConversionProgress?
      && (event.percent.None? ==> n.value.progress == 0.0)
      && (event.percent.Some? ==> n.value.progress == event.percent.value))
    ensures n.Some? && event.End? ==> n.value == ConversionComplete(req.id, OutputPath(req.filePath, req.format))
    ensures n.Some? && event.Failed? ==> n.value == ConversionError(req.id, event.message)
  {
    if !windowOpen then None
    else match event
      case Progress(p) => Some(ConversionProgress(req.id, p.GetOr(0.0)))
      case End => Some(ConversionComplete(req.id, OutputPath(req.filePath, req.format)))
      case Failed(m) => Some(ConversionError(req.id, m))
  }
}
