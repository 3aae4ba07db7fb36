/** The flash-operation tracker of app/routers/flash.py: a dictionary of
    FlashStatus records keyed by flash id, filled by the two request routes
    and advanced by the background `do_flash` task and its progress
    callback. */
module Flash {
  import opened Wrappers
  import opened Text
  import opened Schemas
  import opened Config
  import opened Http
  import opened Scanner
  import opened Ota
  import opened Boards

  /** The arguments a request schedules `do_flash` with. */
  datatype FlashJob = FlashJob(flashId: string, firmwarePath: string, host: string, port: int, boardName: string)

  /** The reply to an accepted request, with the task it schedules. */
  datatype Started = Started(flashId: string, message: string, job: FlashJob)

  /** What `flash_from_build` finds on disk: whether the build directory
      exists, the `*.bin` files in it in glob order, and whether the given
      firmware path exists. */
  datatype Disk = Disk(buildDirPresent: bool, binFiles: seq<string>, pathPresent: bool)

  function StartedMessage(boardName: string): string {
    "Flash operation started for board '" + boardName + "'"
  }

  /** `BUILDS_DIR / flash_id / filename`, where an uploaded image is saved. */
  function UploadPath(buildsDir: string, flashId: string, filename: string): string {
    JoinPath(JoinPath(buildsDir, flashId), filename)
  }

  /** As written, the client's file name is joined as it is: an absolute
      name replaces the flash directory, so an upload named
      "/tmp/evil.bin" passes validation and is saved and flashed at
      "/tmp/evil.bin". */
  lemma AbsoluteUploadEscapes(buildsDir: string, flashId: string, filename: string, boardName: string, boards: map<string, Board>)
    requires boardName in boards
    ensures filename != [] && filename[0] == '/' ==> UploadPath(buildsDir, flashId, filename) == filename
    ensures UploadError("/tmp/evil.bin", boardName, boards).None?
    ensures UploadPath(buildsDir, flashId, "/tmp/evil.bin") == "/tmp/evil.bin"
  {
    assert EndsWith("/tmp/evil.bin", ".bin") by {
      assert "/tmp/evil.bin"[13 - 4..] == ".bin";
    }
  }

  /** The evidently intended save path: only the last component of the
      client's file name is kept, so the image stays in its own
      directory. */
  function ContainedUploadPath(buildsDir: string, flashId: string, filename: string): string {
    JoinPath(JoinPath(buildsDir, flashId), BaseName(filename))
  }

  /** For an accepted `.bin` name, the contained path is one plain component
      under `BUILDS_DIR / flash_id`: no separator, not "." or "..", and
      still a `.bin` name. */
  lemma ContainedUploadPathSpec(buildsDir: string, flashId: string, filename: string)
    requires flashId != [] && flashId[0] != '/'
    requires EndsWith(filename, ".bin")
    ensures var n := BaseName(filename);
      && ContainedUploadPath(buildsDir, flashId, filename) == buildsDir + "/" + flashId + "/" + n
      && (forall i :: 0 <= i < |n| ==> n[i] != '/')
      && EndsWith(n, ".bin") && n != "." && n != ".."
  {
    var n := BaseName(filename);
    if |n| < 4 {
      assert false;
    }
    assert n[|n| - 4..] == filename[|filename| - 4..];
  }

  /** The task for a registered board: its host (or the DDNS host) and its
      OTA port. */
  function JobFor(flashId: string, path: string, boardName: string, board: Board, ddnsHost: string): FlashJob {
    FlashJob(flashId, path, HostOf(board, ddnsHost), BoardPorts(board.id).ota, boardName)
  }

  // ---------------------------------------------------------------- validation

  /** The rejection of `POST /flash/upload`, if any: the name must end in
      `.bin` (checked first) and the board must be registered. */
  function UploadError(filename: string, boardName: string, boards: map<string, Board>): (e: Option<HttpError>)
    ensures e.None? <==> EndsWith(filename, ".bin") && boardName in boards
    ensures e.Some? && !EndsWith(filename, ".bin") ==> e.value == HttpError(400, "Only .bin firmware files are supported")
    ensures e.Some? && EndsWith(filename, ".bin") ==> e.value == NotFound(boardName)
  {
    if !EndsWith(filename, ".bin") then Some(HttpError(400, "Only .bin firmware files are supported"))
    else if boardName !in boards then Some(NotFound(boardName))
    else None
  }

  /** The image `POST /flash/from-build` will flash, or its rejection. A
      build id, when given, wins over a firmware path; its directory must
      exist and hold a `.bin`, and the first one found is used. */
  function ResolveFirmware(req: FlashRequest, boards: map<string, Board>, disk: Disk): (r: Result<string, HttpError>)
    ensures r.Ok? <==>
      (Truthy(req.buildId) || Truthy(req.firmwarePath)) && req.boardName in boards
      && (if Truthy(req.buildId) then disk.buildDirPresent && disk.binFiles != [] else disk.pathPresent)
    ensures r.Ok? && Truthy(req.buildId) ==> r.value == disk.binFiles[0]
    ensures r.Ok? && !Truthy(req.buildId) ==> r.value == req.firmwarePath.value
    ensures r.Err? ==> (r.error.status == 400 <==> !Truthy(req.buildId) && !Truthy(req.firmwarePath))
    ensures r.Err? && r.error.status != 400 ==> r.error.status == 404
    ensures r.Err? && (Truthy(req.buildId) || Truthy(req.firmwarePath)) && req.boardName !in boards ==>
      r.error == NotFound(req.boardName)
  {
    if !Truthy(req.buildId) && !Truthy(req.firmwarePath) then
      Err(HttpError(400, "Either build_id or firmware_path must be provided"))
    else if req.boardName !in boards then Err(NotFound(req.boardName))
    else if Truthy(req.buildId) then
      if !disk.buildDirPresent then Err(HttpError(404, "Build '" + req.buildId.value + "' not found"))
      else if disk.binFiles == [] then Err(HttpError(404, "No firmware binary found in build '" + req.buildId.value + "'"))
      else Ok(disk.binFiles[0])
    else if !disk.pathPresent then Err(HttpError(404, "Firmware file not found: " + req.firmwarePath.value))
    else Ok(req.firmwarePath.value)
  }

  // ---------------------------------------------------------------- do_flash

  /** How the call to `flash_firmware` ended: it returned an upload (whose
      reports are the callback invocations), or it raised after reporting
      `reports`. */
  datatype EngineRun = Returned(upload: Upload) | Raised(reports: seq<Progress>, error: string)

  function RunReports(run: EngineRun): seq<Progress> {
    match run
    case Returned(u) => u.reports
    case Raised(rs, _) => rs
  }

  /** The record after the progress callback has run on each of `rs`. */
  function Reported(st: FlashStatus, rs: seq<Progress>): FlashStatus
    decreases |rs|
  {
    if rs == [] then st
    else
      var last := rs[|rs| - 1];
      Reported(st, rs[..|rs| - 1]).(progress := last.percent, message := Some(last.message))
  }

  /** The callback touches only progress and message, and the last report
      wins. */
  lemma {:induction false} ReportedSpec(st: FlashStatus, rs: seq<Progress>)
    ensures var s := Reported(st, rs);
      && s.flashId == st.flashId && s.boardName == st.boardName && s.status == st.status
      && (rs == [] ==> s == st)
      && (rs != [] ==> s.progress == rs[|rs| - 1].percent && s.message == Some(rs[|rs| - 1].message))
    decreases |rs|
  {
    if rs != [] {
      ReportedSpec(st, rs[..|rs| - 1]);
    }
  }

  /** The record of an operation once `do_flash` has finished with it. */
  function Finish(st: FlashStatus, run: EngineRun): FlashStatus {
    var s := Reported(st.(status := Uploading), RunReports(run));
    match run
    case Returned(u) =>
      if u.success then s.(status := FlashSuccess, progress := 100, message := Some(u.message))
      else s.(status := FlashFailed, message := Some(u.message))
    case Raised(_, e) => s.(status := FlashFailed, message := Some(e))
  }

  /** A finished operation is a success exactly when the engine returned
      success, and then it is at 100%; otherwise it failed, keeping the last
      reported progress (or the one it started with). Either way it carries
      the engine's message or the exception text. */
  lemma FinishSpec(st: FlashStatus, run: EngineRun)
    ensures var f := Finish(st, run);
      var rs := RunReports(run);
      && f.flashId == st.flashId && f.boardName == st.boardName
      && (f.status == FlashSuccess <==> run.Returned? && run.upload.success)
      && (f.status != FlashSuccess ==> f.status == FlashFailed)
      && (f.status == FlashSuccess ==> f.progress == 100)
      && (f.status == FlashFailed ==> f.progress == (if rs == [] then st.progress else rs[|rs| - 1].percent))
      && f.message == Some(if run.Returned? then run.upload.message else run.error)
  {
    ReportedSpec(st.(status := Uploading), RunReports(run));
  }

  /** `do_flash` gives `flash_firmware` no web credentials, so the fallback
      never runs: a fresh operation succeeds exactly when the file is there
      and the OTA port answers 200, and a failed one ends at 0, 10 or 50
      percent, never at 100. */
  lemma NoFallbackOutcome(st: FlashStatus, path: string, present: bool, fileSize: int, port: int,
                          primary: Outcome, fallback: Outcome)
    requires st.progress == 0
    ensures var f := Finish(st, Returned(FlashFirmware(path, present, fileSize, port, primary, None, None, None, fallback)));
      && (f.status == FlashSuccess <==> present && primary.Response? && primary.status == 200)
      && (f.status == FlashSuccess ==> f.progress == 100)
      && (f.status != FlashSuccess ==> f.status == FlashFailed && f.progress in {0, 10, 50})
  {
    var u := FlashFirmware(path, present, fileSize, port, primary, None, None, None, fallback);
    FlashFirmwareSpec(path, present, fileSize, port, primary, None, None, None, fallback);
    FinishSpec(st, Returned(u));
    if present {
      FlashFirmwareNoFallbackPercents(path, fileSize, port, primary, None, None, None, fallback);
      assert Percents(u.reports)[|u.reports| - 1] == u.reports[|u.reports| - 1].percent;
    }
  }

  // ---------------------------------------------------------------- the tracker

  class FlashTracker {
    /** `flash_operations`. */
    var operations: map<string, FlashStatus>

    constructor()
      ensures operations == map[]
    {
      operations := map[];
    }

    /** `POST /flash/upload`: a valid request records a pending operation
        under `flashId` and schedules the flash of the saved file; nothing
        else in the tracker changes. */
    method UploadFirmware(filename: string, boardName: string, boards: map<string, Board>,
                          flashId: string, buildsDir: string, ddnsHost: string)
      returns (r: Result<Started, HttpError>)
      modifies this
      ensures var e := UploadError(filename, boardName, boards);
        && (e.Some? ==> r == Err(e.value) && operations == old(operations))
        && (e.None? ==>
              operations == old(operations)[flashId := NewFlashStatus(flashId, boardName, FlashPending)]
              && r == Ok(Started(flashId, StartedMessage(boardName),
                                 JobFor(flashId, UploadPath(buildsDir, flashId, filename), boardName,
                                        boards[boardName], ddnsHost))))
    {
      var e := UploadError(filename, boardName, boards);
      if e.Some? {
        return Err(e.value);
      }
      operations := operations[flashId := NewFlashStatus(flashId, boardName, FlashPending)];
      var job := JobFor(flashId, UploadPath(buildsDir, flashId, filename), boardName, boards[boardName], ddnsHost);
      r := Ok(Started(flashId, StartedMessage(boardName), job));
    }

    /** `POST /flash/from-build`: like an upload, with the image found by
        ResolveFirmware. */
    method FlashFromBuild(req: FlashRequest, boards: map<string, Board>, disk: Disk, flashId: string, ddnsHost: string)
      returns (r: Result<Started, HttpError>)
      modifies this
      ensures var f := ResolveFirmware(req, boards, disk);
        && (f.Err? ==> r == Err(f.error) && operations == old(operations))
        && (f.Ok? ==>
              operations == old(operations)[flashId := NewFlashStatus(flashId, req.boardName, FlashPending)]
              && r == Ok(Started(flashId, StartedMessage(req.boardName),
                                 JobFor(flashId, f.value, req.boardName, boards[req.boardName], ddnsHost))))
    {
      var f := ResolveFirmware(req, boards, disk);
      if f.Err? {
        return Err(f.error);
      }
      operations := operations[flashId := NewFlashStatus(flashId, req.boardName, FlashPending)];
      var job := JobFor(flashId, f.value, req.boardName, boards[req.boardName], ddnsHost);
      r := Ok(Started(flashId, StartedMessage(req.boardName), job));
    }

    /** `do_flash`: the operation turns uploading, each report of the engine
        overwrites its progress and message, and the engine's result settles
        it. Other operations are untouched. */
    method DoFlash(flashId: string, run: EngineRun)
      requires flashId in operations
      modifies this
      ensures operations == old(operations)[flashId := Finish(old(operations)[flashId], run)]
    {
      var start := operations[flashId].(status := Uploading);
      operations := operations[flashId := start];
      var reports := RunReports(run);
      for i := 0 to |reports|
        invariant operations == old(operations)[flashId := Reported(start, reports[..i])]
      {
        var p := reports[i];
        assert reports[..i + 1][..i] == reports[..i];
        operations := operations[flashId := operations[flashId].(progress := p.percent)];
        operations := operations[flashId := operations[flashId].(message := Some(p.message))];
      }
      assert reports[..|reports|] == reports;
      match run {
        case Returned(u) =>
          if u.success {
            operations := operations[flashId := operations[flashId].(status := FlashSuccess)];
            operations := operations[flashId := operations[flashId].(progress := 100)];
            operations := operations[flashId := operations[flashId].(message := Some(u.message))];
          } else {
            operations := operations[flashId := operations[flashId].(status := FlashFailed)];
            operations := operations[flashId := operations[flashId].(message := Some(u.message))];
          }
        case Raised(_, e) =>
          operations := operations[flashId := operations[flashId].(status := FlashFailed)];
          operations := operations[flashId := operations[flashId].(message := Some(e))];
      }
    }

    /** `GET /flash/status/{flash_id}`. */
    function GetFlashStatus(flashId: string): (r: Result<FlashStatus, HttpError>)
      reads this
      ensures r.Ok? <==> flashId in operations
      ensures r.Ok? ==> r.value == operations[flashId]
      ensures r.Err? ==> r.error == HttpError(404, "Flash operation '" + flashId + "' not found")
    {
      if flashId !in operations then Err(HttpError(404, "Flash operation '" + flashId + "' not found"))
      else Ok(operations[flashId])
    }
  }

  /** An upload followed by its `do_flash` leaves the new operation settled
      by Finish from a pending record at 0%: with the engine of this
      repository it ends succeeded at 100% or failed at 0, 10 or 50. */
  method UploadThenFlash(t: FlashTracker, filename: string, boardName: string, boards: map<string, Board>,
                         flashId: string, buildsDir: string, ddnsHost: string,
                         present: bool, fileSize: int, primary: Outcome, fallback: Outcome)
    returns (r: Result<Started, HttpError>)
    modifies t
    ensures r.Ok? <==> UploadError(filename, boardName, boards).None?
    ensures r.Ok? ==> flashId in t.operations && t.operations[flashId].boardName == boardName
    ensures r.Ok? ==> var st := t.operations[flashId];
      && (st.status == FlashSuccess ==> st.progress == 100)
      && (st.status != FlashSuccess ==> st.status == FlashFailed && st.progress in {0, 10, 50})
    ensures r.Err? ==> t.operations == old(t.operations)
  {
    r := t.UploadFirmware(filename, boardName, boards, flashId, buildsDir, ddnsHost);
    if r.Ok? {
      var job := r.value.job;
      var pending := t.operations[flashId];
      var u := FlashFirmware(job.firmwarePath, present, fileSize, job.port, primary, None, None, None, fallback);
      t.DoFlash(flashId, Returned(u));
      NoFallbackOutcome(pending, job.firmwarePath, present, fileSize, job.port, primary, fallback);
      FinishSpec(pending, Returned(u));
    }
  }
}
