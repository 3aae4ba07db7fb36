/** The records of app/models/schemas.py (board type, board create/update
    requests, flash and build status), plus the shape of a stored board and of
    a discovered sensor, which the services keep as plain dictionaries. */
module Schemas {
  import opened Wrappers

  // ---------------------------------------------------------------- enumerations

  datatype BoardType = Esp32 | Esp32S2 | Esp32S3 | Esp32C3 | Esp8266

  /** The default when a request gives no type. */
  const DefaultBoardType: BoardType := Esp32

  /** `BoardType.value`. */
  function BoardTypeValue(t: BoardType): string {
    match t
    case Esp32 => "esp32"
    case Esp32S2 => "esp32s2"
    case Esp32S3 => "esp32s3"
    case Esp32C3 => "esp32c3"
    case Esp8266 => "esp8266"
  }

  /** Request validation of a board type: only the five values are accepted. */
  function ParseBoardType(s: string): (r: Option<BoardType>)
    ensures r.Some? ==> BoardTypeValue(r.value) == s
  {
    if s == "esp32" then Some(Esp32)
    else if s == "esp32s2" then Some(Esp32S2)
    else if s == "esp32s3" then Some(Esp32S3)
    else if s == "esp32c3" then Some(Esp32C3)
    else if s == "esp8266" then Some(Esp8266)
    else None
  }

  lemma BoardTypeRoundTrip(t: BoardType)
    ensures ParseBoardType(BoardTypeValue(t)) == Some(t)
  {
  }

  datatype ProjectType = EspHome | Arduino | PlatformIO

  /** The `Literal` alphabet of `FlashStatus.status`. */
  datatype FlashState = FlashPending | Uploading | FlashSuccess | FlashFailed

  function FlashStateValue(s: FlashState): string {
    match s
    case FlashPending => "pending"
    case Uploading => "uploading"
    case FlashSuccess => "success"
    case FlashFailed => "failed"
  }

  function ParseFlashState(s: string): (r: Option<FlashState>)
    ensures r.Some? ==> FlashStateValue(r.value) == s
  {
    if s == "pending" then Some(FlashPending)
    else if s == "uploading" then Some(Uploading)
    else if s == "success" then Some(FlashSuccess)
    else if s == "failed" then Some(FlashFailed)
    else None
  }

  lemma FlashStateRoundTrip(s: FlashState)
    ensures ParseFlashState(FlashStateValue(s)) == Some(s)
  {
  }

  /** The `Literal` alphabet of `BuildStatus.status`. */
  datatype BuildState = BuildPending | Building | BuildSuccess | BuildFailed

  function BuildStateValue(s: BuildState): string {
    match s
    case BuildPending => "pending"
    case Building => "building"
    case BuildSuccess => "success"
    case BuildFailed => "failed"
  }

  function ParseBuildState(s: string): (r: Option<BuildState>)
    ensures r.Some? ==> BuildStateValue(r.value) == s
  {
    if s == "pending" then Some(BuildPending)
    else if s == "building" then Some(Building)
    else if s == "success" then Some(BuildSuccess)
    else if s == "failed" then Some(BuildFailed)
    else None
  }

  lemma BuildStateRoundTrip(s: BuildState)
    ensures ParseBuildState(BuildStateValue(s)) == Some(s)
  {
  }

  // ---------------------------------------------------------------- operation records

  datatype FlashStatus = FlashStatus(
    flashId: string, boardName: string, status: FlashState, progress: int, message: Option<string>)

  /** A flash status built from the required fields only: progress defaults
      to 0 and the message to None. */
  function NewFlashStatus(flashId: string, boardName: string, status: FlashState): (f: FlashStatus)
    ensures f.flashId == flashId && f.boardName == boardName && f.status == status
    ensures f.progress == 0 && f.message == None
  {
    FlashStatus(flashId, boardName, status, 0, None)
  }

  /** A body of `POST /flash/from-build`: a build id or a firmware path
      names the image. */
  datatype FlashRequest = FlashRequest(boardName: string, firmwarePath: Option<string>, buildId: Option<string>)

  datatype BuildStatus = BuildStatus(
    buildId: string, status: BuildState,
    message: Option<string>, firmwarePath: Option<string>, logs: Option<string>)

  /** A build status built from the required fields only: message,
      firmware_path and logs default to None. */
  function NewBuildStatus(buildId: string, status: BuildState): (b: BuildStatus)
    ensures b.buildId == buildId && b.status == status
    ensures b.message == None && b.firmwarePath == None && b.logs == None
  {
    BuildStatus(buildId, status, None, None, None)
  }

  // ---------------------------------------------------------------- boards

  /** A board id must lie in 1..99. */
  predicate ValidBoardId(id: int) { 1 <= id <= 99 }

  /** A request body of `POST /boards` before validation: the type is the
      raw string, absent when the client left it out. */
  datatype BoardCreateBody = BoardCreateBody(
    name: string, id: int, boardType: Option<string>,
    host: Option<string>, hostname: Option<string>, apiKey: Option<string>, macAddress: Option<string>)

  /** A validated `BoardCreate`. */
  datatype BoardCreate = BoardCreate(
    name: string, id: int, boardType: BoardType,
    host: Option<string>, hostname: Option<string>, apiKey: Option<string>, macAddress: Option<string>)

  /** Pydantic's validation of a `BoardCreate` body: the id bounds and the
      type enumeration; an absent type becomes esp32. */
  function ValidateBoardCreate(b: BoardCreateBody): (r: Result<BoardCreate, string>)
    ensures r.Ok? <==> ValidBoardId(b.id) && (b.boardType.None? || ParseBoardType(b.boardType.value).Some?)
    ensures r.Ok? ==> (r.value.name == b.name && r.value.id == b.id && r.value.host == b.host
      && r.value.hostname == b.hostname && r.value.apiKey == b.apiKey && r.value.macAddress == b.macAddress)
    ensures r.Ok? ==> r.value.boardType == (if b.boardType.None? then DefaultBoardType else ParseBoardType(b.boardType.value).value)
  {
    if !ValidBoardId(b.id) then Err("id must be between 1 and 99")
    else
      var t := if b.boardType.None? then Some(DefaultBoardType) else ParseBoardType(b.boardType.value);
      if t.None? then Err("type must be one of esp32, esp32s2, esp32s3, esp32c3, esp8266")
      else Ok(BoardCreate(b.name, b.id, t.value, b.host, b.hostname, b.apiKey, b.macAddress))
  }

  /** A body of `PUT /boards/{name}` before validation. */
  datatype BoardUpdateBody = BoardUpdateBody(
    name: Option<string>, boardType: Option<string>,
    host: Option<string>, hostname: Option<string>, apiKey: Option<string>, macAddress: Option<string>)

  /** A validated `BoardUpdate`: every field is optional and None means
      "leave unchanged". */
  datatype BoardUpdate = BoardUpdate(
    name: Option<string>, boardType: Option<BoardType>,
    host: Option<string>, hostname: Option<string>, apiKey: Option<string>, macAddress: Option<string>)

  /** Validation of a `BoardUpdate` body: only a given type is checked. */
  function ValidateBoardUpdate(b: BoardUpdateBody): (r: Result<BoardUpdate, string>)
    ensures r.Ok? <==> b.boardType.None? || ParseBoardType(b.boardType.value).Some?
    ensures r.Ok? ==> (r.value.name == b.name && r.value.host == b.host && r.value.hostname == b.hostname
      && r.value.apiKey == b.apiKey && r.value.macAddress == b.macAddress)
    ensures r.Ok? ==> (r.value.boardType.None? <==> b.boardType.None?)
    ensures r.Ok? && b.boardType.Some? ==> BoardTypeValue(r.value.boardType.value) == b.boardType.value
  {
    if b.boardType.None? then Ok(BoardUpdate(b.name, None, b.host, b.hostname, b.apiKey, b.macAddress))
    else
      var t := ParseBoardType(b.boardType.value);
      if t.None? then Err("type must be one of esp32, esp32s2, esp32s3, esp32c3, esp8266")
      else Ok(BoardUpdate(b.name, t, b.host, b.hostname, b.apiKey, b.macAddress))
  }

  /** One discovered sensor: `{"id", "name", "state", "unit"}`. */
  datatype Sensor = Sensor(id: string, name: string, state: string, unit: string)

  /** A board as the registry stores it (the value under its name in
      boards.yaml). `type` is kept as the stored string. */
  datatype Board = Board(
    id: int, boardType: string,
    host: Option<string>, hostname: Option<string>, apiKey: Option<string>, macAddress: Option<string>,
    webUsername: Option<string>, webPassword: Option<string>,
    lastSeen: Option<string>, sensors: seq<Sensor>, deviceInfo: map<string, string>)
}
