/** The desktop transcoder's window (ffmpeg-desktop/src/App.tsx): a list of
    dropped files, each idle, converting, completed or failed; the output
    options; the Start button that sends one `transcode-file` request per
    idle file; and the three event handlers that update a file by its
    index. The IPC channel is modelled by the list of requests sent and by
    the events given to the handlers. */
module ConversionQueue {
  import opened Common
  import opened Transcode

  datatype FileStatus = Idle | Converting | Completed | Error

  /** One entry of the list; `progress` is absent until conversion starts. */
  datatype VideoFile = VideoFile(path: string, name: string, status: FileStatus, progress: Option<int>)

  /** A file as the drop event delivers it. */
  datatype DroppedFile = DroppedFile(path: string, name: string)

  /** The drag events the drop zone listens to. */
  datatype DragEvent = DragEnter | DragOver | DragLeave | OtherDrag

  const CompletedProgress: int := 100

  /** `Math.round`: the nearest integer, halves rounded up. */
  function Round(p: real): (r: int)
    ensures r as real <= p + 0.5 < r as real + 1.0
    ensures -0.5 < r as real - p <= 0.5
  {
    (p + 0.5).Floor
  }

  /** The entries added by a drop: the files in order, all idle. */
  function Dropped(dropped: seq<DroppedFile>): (r: seq<VideoFile>)
    ensures |r| == |dropped|
    ensures forall i :: 0 <= i < |r| ==> r[i].status == Idle && r[i].progress == None
    ensures forall i :: 0 <= i < |r| ==> r[i].path == dropped[i].path && r[i].name == dropped[i].name
  {
    seq(|dropped|, i requires 0 <= i < |dropped| => VideoFile(dropped[i].path, dropped[i].name, Idle, None))
  }

  // ---------------------------------------------------------------------
  // Updates addressed by index

  /** What an event does to the file it names. */
  datatype Update = Start | SetProgress(percent: real) | Complete | Fail

  function Apply(f: VideoFile, u: Update): VideoFile {
    match u
    case Start => f.(status := Converting, progress := Some(0))
    case SetProgress(p) => f.(progress := Some(Round(p)))
    case Complete => f.(status := Completed, progress := Some(CompletedProgress))
    case Fail => f.(status := Error)
  }

  /** `prev.map((f, i) => i === id ? { ...f, … } : f)`: only the file at
      `id` changes, keeping its path and name; an index outside the list
      changes nothing. */
  function UpdateAt(files: seq<VideoFile>, id: int, u: Update): (r: seq<VideoFile>)
    ensures |r| == |files|
    ensures forall i :: 0 <= i < |files| && i != id ==> r[i] == files[i]
    ensures !(0 <= id < |files|) ==> r == files
    ensures 0 <= id < |files| ==> r[id].path == files[id].path && r[id].name == files[id].name
    ensures 0 <= id < |files| && u.Start? ==> r[id].status == Converting && r[id].progress == Some(0)
    ensures 0 <= id < |files| && u.SetProgress? ==>
      r[id].status == files[id].status && r[id].progress == Some(Round(u.percent))
    ensures 0 <= id < |files| && u.Complete? ==>
      r[id].status == Completed && r[id].progress == Some(CompletedProgress)
    ensures 0 <= id < |files| && u.Fail? ==> r[id].status == Error && r[id].progress == files[id].progress
  {
    seq(|files|, i requires 0 <= i < |files| => if i == id then Apply(files[i], u) else files[i])
  }

  // ---------------------------------------------------------------------
  // Starting the conversion

  /** The request sent for the file at `index` with the current options. */
  function RequestFor(f: VideoFile, index: int, format: string, hwAccel: bool, codec: string,
                      resolution: string, bitrate: string): TranscodeRequest
  {
    TranscodeRequest(f.path, format, index, hwAccel, codec, resolution, bitrate)
  }

  /** The requests for the idle files of the list, in list order, each
      carrying its file's index as id. */
  function IdleRequests(files: seq<VideoFile>, format: string, hwAccel: bool, codec: string,
                        resolution: string, bitrate: string): (r: seq<TranscodeRequest>)
    ensures |r| <= |files|
  {
    if files == [] then []
    else
      var k := |files| - 1;
      IdleRequests(files[..k], format, hwAccel, codec, resolution, bitrate)
      + (if files[k].status == Idle then [RequestFor(files[k], k, format, hwAccel, codec, resolution, bitrate)] else [])
  }

  /** `q` is the request for the idle file at its id, with the options. */
  predicate NamesIdle(files: seq<VideoFile>, q: TranscodeRequest, format: string, hwAccel: bool, codec: string,
                      resolution: string, bitrate: string)
  {
    0 <= q.id < |files| && files[q.id].status == Idle
    && q == RequestFor(files[q.id], q.id, format, hwAccel, codec, resolution, bitrate)
  }

  /** Each request names an idle file by its index, with that file's path
      and the current options. */
  lemma {:induction false} IdleRequestsSound(files: seq<VideoFile>, format: string, hwAccel: bool, codec: string,
                                             resolution: string, bitrate: string)
    ensures forall q :: q in IdleRequests(files, format, hwAccel, codec, resolution, bitrate) ==>
      NamesIdle(files, q, format, hwAccel, codec, resolution, bitrate)
    decreases |files|
  {
    if files != [] {
      var k := |files| - 1;
      var init := files[..k];
      IdleRequestsSound(init, format, hwAccel, codec, resolution, bitrate);
      var p := IdleRequests(init, format, hwAccel, codec, resolution, bitrate);
      forall q | q in IdleRequests(files, format, hwAccel, codec, resolution, bitrate)
        ensures NamesIdle(files, q, format, hwAccel, codec, resolution, bitrate)
      {
        if q in p {
          assert NamesIdle(init, q, format, hwAccel, codec, resolution, bitrate);
          assert init[q.id] == files[q.id];
        }
      }
    }
  }

  /** Every idle file gets a request. */
  lemma {:induction false} IdleRequestsComplete(files: seq<VideoFile>, format: string, hwAccel: bool, codec: string,
                                                resolution: string, bitrate: string)
    ensures forall i :: 0 <= i < |files| && files[i].status == Idle ==>
      RequestFor(files[i], i, format, hwAccel, codec, resolution, bitrate)
        in IdleRequests(files, format, hwAccel, codec, resolution, bitrate)
    decreases |files|
  {
    if files != [] {
      var k := |files| - 1;
      var init := files[..k];
      IdleRequestsComplete(init, format, hwAccel, codec, resolution, bitrate);
      forall i | 0 <= i < k && files[i].status == Idle
        ensures RequestFor(files[i], i, format, hwAccel, codec, resolution, bitrate)
          in IdleRequests(files, format, hwAccel, codec, resolution, bitrate)
      {
        assert init[i] == files[i];
      }
    }
  }

  predicate IdsIncrease(r: seq<TranscodeRequest>) {
    forall j, l :: 0 <= j < l < |r| ==> r[j].id < r[l].id
  }

  /** The requests go out in list order: their ids increase. */
  lemma {:induction false} IdleRequestsOrdered(files: seq<VideoFile>, format: string, hwAccel: bool, codec: string,
                                               resolution: string, bitrate: string)
    ensures IdsIncrease(IdleRequests(files, format, hwAccel, codec, resolution, bitrate))
    decreases |files|
  {
    if files != [] {
      var k := |files| - 1;
      var init := files[..k];
      IdleRequestsOrdered(init, format, hwAccel, codec, resolution, bitrate);
      IdleRequestsSound(init, format, hwAccel, codec, resolution, bitrate);
      var p := IdleRequests(init, format, hwAccel, codec, resolution, bitrate);
      var r := IdleRequests(files, format, hwAccel, codec, resolution, bitrate);
      if files[k].status == Idle {
        var last := RequestFor(files[k], k, format, hwAccel, codec, resolution, bitrate);
        assert r == p + [last];
        forall j, l | 0 <= j < l < |r| ensures r[j].id < r[l].id {
          assert r[j] == p[j] && p[j] in p;
          if l < |p| {
            assert r[l] == p[l];
          } else {
            assert NamesIdle(init, p[j], format, hwAccel, codec, resolution, bitrate);
          }
        }
      } else {
        assert r == p;
      }
    }
  }

  /** The list after Start: every idle file converting from 0, the others
      as they were. */
  function Started(files: seq<VideoFile>): (r: seq<VideoFile>)
    ensures |r| == |files|
    ensures forall i :: 0 <= i < |files| && files[i].status == Idle ==>
      r[i] == files[i].(status := Converting, progress := Some(0))
    ensures forall i :: 0 <= i < |files| && files[i].status != Idle ==> r[i] == files[i]
  {
    seq(|files|, i requires 0 <= i < |files| => if files[i].status == Idle then Apply(files[i], Start) else files[i])
  }

  /** After Start no file is idle. */
  lemma StartedLeavesNoIdle(files: seq<VideoFile>)
    ensures forall i :: 0 <= i < |files| ==> Started(files)[i].status != Idle
  {
  }

  /** Events name a file by its index at the time it was sent, so removing
      an earlier file while a conversion runs sends later events to the
      wrong entry: the second file's completion (id 1) is lost, and the
      first file's completion (id 0) marks the second one done. */
  lemma RemovalRetargetsEvents(first: VideoFile, second: VideoFile)
    ensures var left := DropIndex([first, second], 0);
      && left == [second]
      && UpdateAt(left, 1, Complete) == left
      && UpdateAt(left, 0, Complete) == [second.(status := Completed, progress := Some(CompletedProgress))]
  {
    DropIndexSlices([first, second], 0);
    assert [first, second][1..] == [second];
  }

  // ---------------------------------------------------------------------
  // Which controls are available

  /** The Start button is disabled on an empty list or when every file is
      completed. */
  predicate StartDisabled(files: seq<VideoFile>) {
    |files| == 0 || forall i :: 0 <= i < |files| ==> files[i].status == Completed
  }

  /** A disabled Start button never holds back a request, but an enabled
      one may send none: a list with only converting or failed files. */
  lemma StartDisabledSendsNothing(files: seq<VideoFile>, format: string, hwAccel: bool, codec: string,
                                  resolution: string, bitrate: string)
    ensures StartDisabled(files) ==> IdleRequests(files, format, hwAccel, codec, resolution, bitrate) == []
  {
    IdleRequestsSound(files, format, hwAccel, codec, resolution, bitrate);
  }

  lemma EnabledStartMaySendNothing()
    ensures var files := [VideoFile("/v/a.mkv", "a.mkv", Error, None)];
      !StartDisabled(files) && IdleRequests(files, "mp4", true, "auto", "original", "") == []
  {
    var files := [VideoFile("/v/a.mkv", "a.mkv", Error, None)];
    assert files[..0] == [];
    assert IdleRequests(files, "mp4", true, "auto", "original", "")
      == IdleRequests(files[..0], "mp4", true, "auto", "original", "") + [];
  }

  /** The codec select is enabled for mp4, mov and mkv. */
  predicate CodecEnabled(format: string) {
    format in ["mp4", "mov", "mkv"]
  }

  /** The resolution select is disabled for mp3. */
  predicate ResolutionDisabled(format: string) {
    format in ["mp3"]
  }

  /** The bitrate field is disabled for gif. */
  predicate BitrateDisabled(format: string) {
    format in ["gif"]
  }

  /** The hardware acceleration box is shown on a Mac for mp4 and mov. */
  predicate HwAccelShown(isMac: bool, format: string) {
    isMac && format in ["mp4", "mov"]
  }

  /** The codec select is enabled exactly for the formats whose command
      may get a codec; for the others the chosen codec has no effect. */
  lemma CodecSelectMatchesHandler(req: TranscodeRequest, platform: string)
    ensures CodecEnabled(req.format) <==> IsContainer(req.format)
    ensures !CodecEnabled(req.format) ==> Calls(Plan(req, platform), IsCodec) == []
  {
    PlanCodecs(req, platform);
  }

  /** The hardware box is shown only for formats the handler may encode in
      hardware (mkv can reach the hardware path but never shows the box). */
  lemma HwAccelShownOnlyForContainers(isMac: bool, format: string)
    ensures HwAccelShown(isMac, format) ==> IsContainer(format)
    ensures HwAccelShown(true, format) <==> IsContainer(format) && format != "mkv"
  {
  }

  /** A disabled control keeps its value, and the request still carries it:
      a resolution picked before switching to mp3 still resizes, a bitrate
      typed before switching to gif still sets the rate. */
  lemma DisabledControlsStillApply(req: TranscodeRequest, platform: string)
    ensures ResolutionDisabled(req.format) && ResizeRequested(req) ==>
      Calls(Plan(req, platform), IsSize) == [Size(req.resolution)]
    ensures BitrateDisabled(req.format) && req.bitrate != "" ==>
      Calls(Plan(req, platform), IsBitrate) == [VideoBitrate(req.bitrate + "k")]
  {
    PlanCalls(req, platform, IsSize);
    PlanCalls(req, platform, IsBitrate);
  }

  // ---------------------------------------------------------------------
  // The window's state

  class ConverterWindow {
    var files: seq<VideoFile>
    var dragActive: bool
    var format: string
    var hwAccel: bool
    var codec: string
    var resolution: string
    var bitrate: string
    const isMac: bool

    constructor(isMac: bool)
      ensures this.isMac == isMac
      ensures files == [] && !dragActive && format == "mp4" && hwAccel
      ensures codec == "auto" && resolution == "original" && bitrate == ""
    {
      this.isMac := isMac;
      files, dragActive := [], false;
      format, hwAccel, codec, resolution, bitrate := "mp4", true, "auto", "original", "";
    }

    /** `handleDrag`: entering or moving over the zone highlights it,
        leaving clears it. */
    method HandleDrag(event: DragEvent)
      modifies this`dragActive
      ensures dragActive == if event.DragEnter? || event.DragOver? then true
                           else if event.DragLeave? then false else old(dragActive)
      ensures files == old(files)
    {
      if event.DragEnter? || event.DragOver? {
        dragActive := true;
      } else if event.DragLeave? {
        dragActive := false;
      }
    }

    /** `handleDrop`: the highlight goes; the dropped files are added after
        the existing ones, each idle. */
    method HandleDrop(dropped: seq<DroppedFile>)
      modifies this`dragActive, this`files
      ensures !dragActive
      ensures files == old(files) + Dropped(dropped)
      ensures format == old(format) && codec == old(codec) && resolution == old(resolution)
    {
      dragActive := false;
      if |dropped| > 0 {
        files := files + Dropped(dropped);
      }
    }

    /** `removeFile(index)`. */
    method RemoveFile(index: int)
      modifies this`files
      ensures files == DropIndex(old(files), index)
      ensures 0 <= index < |old(files)| ==> files == old(files)[..index] + old(files)[index + 1..]
      ensures !(0 <= index < |old(files)|) ==> files == old(files)
    {
      DropIndexSlices(files, index);
      files := DropIndex(files, index);
    }

    /** `startConversion`: one request per idle file, in list order, with
        this window's options and the file's index as id; each idle file
        is marked converting from 0. */
    method StartConversion() returns (sent: seq<TranscodeRequest>)
      modifies this`files
      ensures sent == IdleRequests(old(files), format, hwAccel, codec, resolution, bitrate)
      ensures files == Started(old(files))
      ensures format == old(format) && hwAccel == old(hwAccel) && codec == old(codec)
      ensures resolution == old(resolution) && bitrate == old(bitrate)
    {
      var started;
      sent, started := SendIdle(files, format, hwAccel, codec, resolution, bitrate);
      files := started;
    }

    /** `conversion-progress`: the file at `id` shows the rounded percentage. */
    method OnProgress(id: int, progress: real)
      modifies this`files
      ensures files == UpdateAt(old(files), id, SetProgress(progress))
      ensures dragActive == old(dragActive) && format == old(format)
    {
      files := UpdateAt(files, id, SetProgress(progress));
    }

    /** `conversion-complete`: the file at `id` is completed at 100. */
    method OnComplete(id: int)
      modifies this`files
      ensures files == UpdateAt(old(files), id, Complete)
      ensures dragActive == old(dragActive) && format == old(format)
    {
      files := UpdateAt(files, id, Complete);
    }

    /** `conversion-error`: the file at `id` has failed; the message is only
        logged. */
    method OnError(id: int, error: string)
      modifies this`files
      ensures files == UpdateAt(old(files), id, Fail)
      ensures dragActive == old(dragActive) && format == old(format)
    {
      files := UpdateAt(files, id, Fail);
    }
  }

  /** The `files.forEach` of `startConversion`: for each idle file, in
      order, a request is sent and the file is marked converting. */
  method SendIdle(snapshot: seq<VideoFile>, format: string, hwAccel: bool, codec: string,
                  resolution: string, bitrate: string) returns (sent: seq<TranscodeRequest>, files: seq<VideoFile>)
    ensures sent == IdleRequests(snapshot, format, hwAccel, codec, resolution, bitrate)
    ensures files == Started(snapshot)
  {
    sent, files := [], snapshot;
    var index := 0;
    while index < |snapshot|
      invariant 0 <= index <= |snapshot| && |files| == |snapshot|
      invariant sent == IdleRequests(snapshot[..index], format, hwAccel, codec, resolution, bitrate)
      invariant forall i :: 0 <= i < index ==> files[i] == Started(snapshot)[i]
      invariant forall i :: index <= i < |snapshot| ==> files[i] == snapshot[i]
    {
      var file := snapshot[index];
      assert snapshot[..index + 1][..index] == snapshot[..index];
      if file.status == Idle {
        sent := sent + [TranscodeRequest(file.path, format, index, hwAccel, codec, resolution, bitrate)];
        files := UpdateAt(files, index, Start);
      }
      index := index + 1;
    }
    assert snapshot[..index] == snapshot;
  }

  /** An example run, not a general property: into an empty list one file
      is dropped, started and reported complete; it ends completed at 100,
      and the Start button is then disabled. */
  method DropStartComplete(window: ConverterWindow, file: DroppedFile) returns (sent: seq<TranscodeRequest>)
    requires window.files == []
    modifies window`dragActive, window`files
    ensures |sent| == 1 && sent[0].id == 0 && sent[0].filePath == file.path
    ensures |window.files| == 1 && window.files[0].status == Completed
    ensures window.files[0].progress == Some(CompletedProgress)
    ensures StartDisabled(window.files)
  {
    window.HandleDrop([file]);
    sent := window.StartConversion();
    assert old(window.files) + Dropped([file]) == [VideoFile(file.path, file.name, Idle, None)];
    ghost var one := [VideoFile(file.path, file.name, Idle, None)];
    assert one[..0] == [];
    window.OnComplete(0);
  }
}
