/** The build-operation tracker of app/routers/build.py: the three upload
    routes (ESPHome YAML, Arduino sketch, PlatformIO archive) validate the
    file name and record a pending build, and the background driver moves
    the record through building to success or failure. */
module Build {
  import opened Wrappers
  import opened Text
  import opened Schemas
  import opened Boards

  // ---------------------------------------------------------------- requests

  /** The file names each route accepts. */
  predicate Accepted(kind: ProjectType, filename: string) {
    match kind
    case EspHome => EndsWith(filename, ".yaml") || EndsWith(filename, ".yml")
    case Arduino => EndsWith(filename, ".ino")
    case PlatformIO => EndsWith(filename, ".zip")
  }

  function RejectDetail(kind: ProjectType): string {
    match kind
    case EspHome => "Only YAML files are supported for ESPHome builds"
    case Arduino => "Only .ino files are supported for Arduino builds"
    case PlatformIO => "Only .zip project archives are supported for PlatformIO builds"
  }

  function StartedMessage(kind: ProjectType): string {
    match kind
    case EspHome => "ESPHome build started"
    case Arduino => "Arduino build started"
    case PlatformIO => "PlatformIO build started"
  }

  /** `filename.replace(".ino", "")`, the Arduino sketch directory as the
      route computes it. */
  function SketchName(filename: string): (n: string) {
    ReplaceAll(filename, ".ino", "")
  }

  /** For a sketch whose stem does not itself contain `.ino`, the name is
      the stem. */
  lemma SketchNameOfPlainStem(stem: string)
    requires !Contains(stem, ".ino")
    ensures SketchName(stem + ".ino") == stem
  {
    RemoveInoSuffix(stem);
  }

  /** Every occurrence is removed, not only the extension: "x.ino.ino"
      gives "x", whose directory expects a sketch called "x.ino". */
  lemma SketchNameDropsInnerOccurrence()
    ensures SketchName("x.ino.ino") == "x"
    ensures SketchName("x.ino.ino") + ".ino" != "x.ino.ino"
  {
    var f, g, h := "x.ino.ino", ".ino.ino", ".ino";
    assert h[..4] == h && h[4..] == [];
    assert ReplaceAll(h, ".ino", "") == [];
    assert g[..4] == h && g[4..] == h;
    assert ReplaceAll(g, ".ino", "") == [];
    assert f[..4] != h && f[1..] == g;
    assert ReplaceAll(f, ".ino", "") == "x" + ReplaceAll(g, ".ino", "");
  }

  /** The sketch directory named after the file's stem (`Path(filename).stem`),
      which is what the Arduino compile step checks the sketch against. */
  function SketchStem(filename: string): (n: string)
    requires EndsWith(filename, ".ino")
    ensures n + ".ino" == filename
  {
    filename[..|filename| - 4]
  }

  /** The stem and the route's name agree whenever the stem holds no `.ino`. */
  lemma SketchStemAgrees(filename: string)
    requires EndsWith(filename, ".ino") && !Contains(SketchStem(filename), ".ino")
    ensures SketchName(filename) == SketchStem(filename)
  {
    SketchNameOfPlainStem(SketchStem(filename));
  }

  /** The arguments a route schedules its driver with: the saved input
      (the YAML file, the sketch file or the extracted project directory)
      and the board type or PlatformIO environment. */
  datatype BuildJob = BuildJob(buildId: string, kind: ProjectType, input: string, target: Option<string>)

  /** The reply to an accepted upload, with the task it schedules. */
  datatype Started = Started(buildId: string, message: string, job: BuildJob)

  /** Where the route saves its input under `UPLOADS_DIR / build_id`,
      joining the parts as pathlib does. */
  function InputPath(kind: ProjectType, uploadsDir: string, buildId: string, filename: string): string {
    var dir := JoinPath(uploadsDir, buildId);
    match kind
    case EspHome => JoinPath(dir, filename)
    case Arduino => JoinPath(JoinPath(dir, SketchName(filename)), filename)
    case PlatformIO => dir
  }

  /** The sketch directory the Arduino route saves into is named after the
      file's stem whenever the stem holds no `.ino`, as the compile step
      requires. */
  lemma ArduinoInputUnderStem(uploadsDir: string, buildId: string, filename: string)
    requires EndsWith(filename, ".ino") && !Contains(SketchStem(filename), ".ino")
    ensures InputPath(Arduino, uploadsDir, buildId, filename)
      == JoinPath(JoinPath(JoinPath(uploadsDir, buildId), SketchStem(filename)), filename)
  {
    SketchStemAgrees(filename);
  }

  /** For "x.ino.ino" the route saves the sketch under directory "x", which
      is not the stem "x.ino" the compile step expects. */
  lemma ArduinoInputMisplaced(uploadsDir: string, buildId: string)
    ensures InputPath(Arduino, uploadsDir, buildId, "x.ino.ino") == JoinPath(JoinPath(JoinPath(uploadsDir, buildId), "x"), "x.ino.ino")
    ensures buildId != [] && buildId[0] != '/' ==>
      InputPath(Arduino, uploadsDir, buildId, "x.ino.ino") == uploadsDir + "/" + buildId + "/x/x.ino.ino"
    ensures EndsWith("x.ino.ino", ".ino") && SketchStem("x.ino.ino") == "x.ino"
  {
    SketchNameDropsInnerOccurrence();
    assert "x.ino.ino"[..9 - 4] == "x.ino";
    var d := JoinPath(uploadsDir, buildId);
    assert JoinPath(JoinPath(d, "x"), "x.ino.ino") == d + "/x" + "/x.ino.ino";
    assert d + "/x" + "/x.ino.ino" == d + "/x/x.ino.ino";
  }

  /** The client's file name is joined as it is: an absolute name replaces
      the upload directory, and the sketch ".ino", whose directory name is
      empty, is saved directly in `UPLOADS_DIR / build_id`. */
  lemma InputPathEdgeCases(uploadsDir: string, buildId: string, filename: string)
    ensures filename != [] && filename[0] == '/' ==>
      InputPath(EspHome, uploadsDir, buildId, filename) == filename &&
      InputPath(Arduino, uploadsDir, buildId, filename) == filename
    ensures InputPath(Arduino, uploadsDir, buildId, ".ino") == JoinPath(JoinPath(uploadsDir, buildId), ".ino")
  {
    var h := ".ino";
    assert h[..4] == h && h[4..] == [];
    assert SketchName(h) == [];
  }

  /** The form field's value, or its default: "esp32" for ESPHome,
      "esp32:esp32:esp32" for Arduino, and no environment for PlatformIO. */
  function TargetOf(kind: ProjectType, given: Option<string>): (t: Option<string>)
    ensures given.Some? ==> t == given
    ensures given.None? ==> (t.None? <==> kind.PlatformIO?)
    ensures given.None? && kind.EspHome? ==> t == Some("esp32")
    ensures given.None? && kind.Arduino? ==> t == Some("esp32:esp32:esp32")
  {
    match kind
    case EspHome => Some(given.GetOr("esp32"))
    case Arduino => Some(given.GetOr("esp32:esp32:esp32"))
    case PlatformIO => given
  }

  // ---------------------------------------------------------------- the driver

  /** How the compiler call (and the copy of its image) ended: it returned
      `(success, firmware_path, logs)`, or something raised. */
  datatype CompileRun = Compiled(success: bool, firmwarePath: Option<string>, logs: string) | CompileRaised(error: string)

  /** `BUILDS_DIR / build_id / "firmware.bin"`, where a built image is kept. */
  function OutputPath(buildsDir: string, buildId: string): string {
    JoinPath(JoinPath(buildsDir, buildId), "firmware.bin")
  }

  /** The record of build `buildId` once its driver has finished. */
  function Settle(st: BuildStatus, buildId: string, run: CompileRun, buildsDir: string): BuildStatus {
    var s := st.(status := Building);
    match run
    case Compiled(ok, fw, logs) =>
      if ok && Truthy(fw) then s.(status := BuildSuccess, firmwarePath := Some(OutputPath(buildsDir, buildId)), logs := Some(logs))
      else s.(status := BuildFailed, message := Some("Compilation failed"), logs := Some(logs))
    case CompileRaised(e) => s.(status := BuildFailed, message := Some(e))
  }

  /** A build succeeds exactly when the compiler reports success and names
      an image; it then records the copied image and the logs. A reported
      failure records "Compilation failed" and the logs; an exception records
      its text and touches neither the logs nor the image path. */
  lemma SettleSpec(st: BuildStatus, buildId: string, run: CompileRun, buildsDir: string)
    ensures var f := Settle(st, buildId, run, buildsDir);
      && f.buildId == st.buildId
      && (f.status == BuildSuccess <==> run.Compiled? && run.success && Truthy(run.firmwarePath))
      && (f.status != BuildSuccess ==> f.status == BuildFailed)
      && (f.status == BuildSuccess ==>
            f.firmwarePath == Some(OutputPath(buildsDir, buildId)) && f.logs == Some(run.logs) && f.message == st.message)
      && (run.Compiled? && f.status == BuildFailed ==>
            f.message == Some("Compilation failed") && f.logs == Some(run.logs) && f.firmwarePath == st.firmwarePath)
      && (run.CompileRaised? ==>
            f.status == BuildFailed && f.message == Some(run.error) && f.logs == st.logs && f.firmwarePath == st.firmwarePath)
  {
  }

  /** From a fresh pending record, a build ends with an image path exactly
      when it succeeded, with a message exactly when it failed, and with logs
      unless the driver raised. */
  lemma FreshBuildSettles(buildId: string, run: CompileRun, buildsDir: string)
    ensures var f := Settle(NewBuildStatus(buildId, BuildPending), buildId, run, buildsDir);
      && (f.firmwarePath.Some? <==> f.status == BuildSuccess)
      && (f.message.Some? <==> f.status == BuildFailed)
      && (f.logs.Some? <==> run.Compiled?)
  {
    SettleSpec(NewBuildStatus(buildId, BuildPending), buildId, run, buildsDir);
  }

  // ---------------------------------------------------------------- the tracker

  class BuildTracker {
    /** `build_operations`. */
    var operations: map<string, BuildStatus>

    constructor()
      ensures operations == map[]
    {
      operations := map[];
    }

    /** `POST /build/esphome`, `/build/arduino` and `/build/platformio`: an
        accepted file name records a pending build under `buildId` and
        schedules its driver; a rejected one changes nothing. */
    method StartBuild(kind: ProjectType, filename: string, target: Option<string>,
                      buildId: string, uploadsDir: string)
      returns (r: Result<Started, HttpError>)
      modifies this
      ensures !Accepted(kind, filename) ==>
        r == Err(HttpError(400, RejectDetail(kind))) && operations == old(operations)
      ensures Accepted(kind, filename) ==>
        operations == old(operations)[buildId := NewBuildStatus(buildId, BuildPending)]
        && r == Ok(Started(buildId, StartedMessage(kind),
                           BuildJob(buildId, kind, InputPath(kind, uploadsDir, buildId, filename), TargetOf(kind, target))))
    {
      if !Accepted(kind, filename) {
        return Err(HttpError(400, RejectDetail(kind)));
      }
      operations := operations[buildId := NewBuildStatus(buildId, BuildPending)];
      var job := BuildJob(buildId, kind, InputPath(kind, uploadsDir, buildId, filename), TargetOf(kind, target));
      r := Ok(Started(buildId, StartedMessage(kind), job));
    }

    /** `do_esphome_build`, `do_arduino_build` and `do_platformio_build`,
        which differ only in the compiler they call. */
    method DoBuild(buildId: string, run: CompileRun, buildsDir: string)
      requires buildId in operations
      modifies this
      ensures operations == old(operations)[buildId := Settle(old(operations)[buildId], buildId, run, buildsDir)]
    {
      operations := operations[buildId := operations[buildId].(status := Building)];
      match run {
        case Compiled(ok, fw, logs) =>
          if ok && Truthy(fw) {
            operations := operations[buildId := operations[buildId].(status := BuildSuccess)];
            operations := operations[buildId := operations[buildId].(firmwarePath := Some(OutputPath(buildsDir, buildId)))];
            operations := operations[buildId := operations[buildId].(logs := Some(logs))];
          } else {
            operations := operations[buildId := operations[buildId].(status := BuildFailed)];
            operations := operations[buildId := operations[buildId].(message := Some("Compilation failed"))];
            operations := operations[buildId := operations[buildId].(logs := Some(logs))];
          }
        case CompileRaised(e) =>
          operations := operations[buildId := operations[buildId].(status := BuildFailed)];
          operations := operations[buildId := operations[buildId].(message := Some(e))];
      }
    }

    function NotFoundBuild(buildId: string): HttpError {
      HttpError(404, "Build operation '" + buildId + "' not found")
    }

    /** `GET /build/status/{build_id}`. */
    function GetBuildStatus(buildId: string): (r: Result<BuildStatus, HttpError>)
      reads this
      ensures r.Ok? <==> buildId in operations
      ensures r.Ok? ==> r.value == operations[buildId]
      ensures r.Err? ==> r.error == NotFoundBuild(buildId)
    {
      if buildId !in operations then Err(NotFoundBuild(buildId)) else Ok(operations[buildId])
    }

    /** `GET /build/logs/{build_id}`: the id and the logs so far. */
    function GetBuildLogs(buildId: string): (r: Result<(string, Option<string>), HttpError>)
      reads this
      ensures r.Ok? <==> buildId in operations
      ensures r.Ok? ==> r.value == (buildId, operations[buildId].logs)
      ensures r.Err? ==> r.error == NotFoundBuild(buildId)
    {
      if buildId !in operations then Err(NotFoundBuild(buildId)) else Ok((buildId, operations[buildId].logs))
    }
  }
}
