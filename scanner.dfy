/** The scanner of app/services/scanner.py with every network outcome taken
    as an input: the retrying TCP probe, the HTTP probe, MAC extraction from
    the web page, the per-board scan record, the scan of all boards with its
    status-log calls, and port-range discovery. */
module Scanner {
  import opened Wrappers
  import opened Text
  import opened Schemas
  import opened Config
  import opened Http
  import opened StatusLog

  // ---------------------------------------------------------------- probes

  /** `scan_board` tries to connect at most this many times. */
  const Attempts: nat := 2

  /** `scan_board`: `connects[k]` says whether connection attempt `k` would
      succeed. The loop stops at the first success; `tried` counts the
      attempts made. */
  method ScanBoard(connects: seq<bool>) returns (up: bool, tried: nat)
    requires |connects| == Attempts
    ensures 1 <= tried <= Attempts
    ensures up <==> exists k :: 0 <= k < Attempts && connects[k]
    ensures forall k :: 0 <= k < tried - 1 ==> !connects[k]
    ensures up ==> connects[tried - 1]
    ensures !up ==> tried == Attempts
  {
    for attempt := 0 to Attempts
      invariant forall k :: 0 <= k < attempt ==> !connects[k]
    {
      if connects[attempt] {
        return true, attempt + 1;
      }
    }
    return false, Attempts;
  }

  /** The statuses `scan_board_http` accepts as "the web server is up":
      an answer that asks for credentials counts as online. */
  predicate IsWebStatus(status: int) { status == 200 || status == 401 || status == 403 }

  /** `scan_board_http`: only the status line is looked at, and an exception
      before it means offline. */
  predicate WebProbeOnline(o: Outcome) {
    !o.NoResponse? && IsWebStatus(o.status)
  }

  /** Online exactly for a 200, 401 or 403 whose status line arrived; any
      other status (including other 2xx and redirects) and any exception
      before the status line mean offline. Once the status line arrived,
      neither the body nor a failure to read it changes the verdict. */
  lemma WebProbeOnlineSpec(o: Outcome)
    ensures WebProbeOnline(o) <==> (o.Response? || o.BodyLost?) && o.status in {200, 401, 403}
    ensures WebProbeOnline(Response(401, "")) && WebProbeOnline(Response(403, ""))
    ensures !WebProbeOnline(Response(204, "")) && !WebProbeOnline(Response(302, ""))
    ensures !o.NoResponse? ==> (WebProbeOnline(o) <==> WebProbeOnline(Response(o.status, "")))
  {
  }

  /** HTTP basic-auth credentials. */
  datatype Credentials = Credentials(user: string, password: string)

  /** `_make_basic_auth`: credentials exist only when both parts are given and
      non-empty. */
  function MakeBasicAuth(user: Option<string>, password: Option<string>): (a: Option<Credentials>)
    ensures a.Some? <==> Truthy(user) && Truthy(password)
    ensures a.Some? ==> a.value.user == user.value && a.value.password == password.value
  {
    if Truthy(user) && Truthy(password) then Some(Credentials(user.value, password.value)) else None
  }

  // ---------------------------------------------------------------- MAC addresses

  /** Length of `hh:hh:hh:hh:hh:hh`. */
  const MacLength: nat := 17

  predicate IsHexDigit(c: char) { '0' <= c <= '9' || 'a' <= c <= 'f' || 'A' <= c <= 'F' }

  /** `hh:hh:hh:hh:hh:hh` with hex digits of either case. */
  predicate IsMac(m: string) {
    && |m| == MacLength
    && IsHexDigit(m[0]) && IsHexDigit(m[1]) && m[2] == ':'
    && IsHexDigit(m[3]) && IsHexDigit(m[4]) && m[5] == ':'
    && IsHexDigit(m[6]) && IsHexDigit(m[7]) && m[8] == ':'
    && IsHexDigit(m[9]) && IsHexDigit(m[10]) && m[11] == ':'
    && IsHexDigit(m[12]) && IsHexDigit(m[13]) && m[14] == ':'
    && IsHexDigit(m[15]) && IsHexDigit(m[16])
  }

  /** The MAC pattern of `get_mac_address` matches at position `i`. */
  predicate IsMacAt(s: string, i: nat) {
    i + MacLength <= |s| && IsMac(s[i..i + MacLength])
  }

  /** `re.search` for the MAC pattern from position `i`: the pattern has a
      fixed length, so the leftmost match is the first position where it
      matches. */
  function FindMacFrom(s: string, i: nat): (r: Option<nat>)
    requires i <= |s|
    ensures r.Some? ==> i <= r.value && IsMacAt(s, r.value)
    ensures r.Some? ==> forall j :: i <= j < r.value ==> !IsMacAt(s, j)
    ensures r.None? ==> forall j :: i <= j ==> !IsMacAt(s, j)
    decreases |s| - i
  {
    if i + MacLength > |s| then None
    else if IsMacAt(s, i) then Some(i)
    else FindMacFrom(s, i + 1)
  }

  /** `get_mac_address`, given the outcome of the page request: the leftmost
      MAC of a 200 page, upper-cased; None for any other status, an exception
      or a page without one. */
  function GetMacAddress(page: Outcome): Option<string> {
    if page.Response? && page.status == 200 then
      match FindMacFrom(page.body, 0)
      case Some(i) => Some(Upper(page.body[i..i + MacLength]))
      case None => None
    else None
  }

  /** The MAC found is the upper-cased leftmost match of a 200 page, and one
      is found whenever such a page holds a match anywhere. */
  lemma GetMacAddressSpec(page: Outcome)
    ensures GetMacAddress(page).Some? <==>
      page.Response? && page.status == 200 && exists i: nat :: IsMacAt(page.body, i)
    ensures GetMacAddress(page).Some? ==> exists i: nat ::
      && IsMacAt(page.body, i)
      && (forall j :: 0 <= j < i ==> !IsMacAt(page.body, j))
      && GetMacAddress(page).value == Upper(page.body[i..i + MacLength])
  {
    if page.Response? && page.status == 200 {
      var r := FindMacFrom(page.body, 0);
      if r.Some? {
        assert IsMacAt(page.body, r.value);
      }
    }
  }

  /** A MAC found by the scanner still has the pattern's shape and holds no
      lower-case letter. */
  lemma GetMacAddressUpper(page: Outcome)
    requires GetMacAddress(page).Some?
    ensures IsMac(GetMacAddress(page).value)
    ensures forall k :: 0 <= k < MacLength ==> !('a' <= GetMacAddress(page).value[k] <= 'z')
  {
    var i := FindMacFrom(page.body, 0).value;
    UpperKeepsMac(page.body[i..i + MacLength]);
  }

  lemma UpperKeepsMac(m: string)
    requires IsMac(m)
    ensures IsMac(Upper(m))
  {
    var u := Upper(m);
    assert u[0] == UpperChar(m[0]) && u[1] == UpperChar(m[1]) && u[3] == UpperChar(m[3]);
    assert u[4] == UpperChar(m[4]) && u[6] == UpperChar(m[6]) && u[7] == UpperChar(m[7]);
  }

  // ---------------------------------------------------------------- one board

  /** What the sensor step of a scan produced. With the files as shown the
      import at its start raises, so it is always `StepRaised`. */
  datatype SensorStep =
    /** An exception before `discover_sensors` returned. */
    | StepRaised
    /** `discover_sensors` returned, then `get_device_info` raised. */
    | InfoRaised(sensors: seq<Sensor>)
    /** Both calls returned. */
    | Discovered(sensors: seq<Sensor>, info: map<string, string>)

  /** The outcomes of the requests `scan_single_board` may make: the OTA
      probe's result, the web probe, the API port connection, the page read
      for a MAC and the sensor step. Those it does not make are ignored. */
  datatype Probes = Probes(ota: bool, web: Outcome, apiOpen: bool, macPage: Outcome, sensorStep: SensorStep)

  /** A scan record. A board whose scan raised gets the short record, which
      has no probe fields. */
  datatype ScanResult =
    | Scanned(
        name: string, id: int, boardType: string, host: string, hostname: string, ports: Ports,
        online: bool, otaOnline: bool, webOnline: bool,
        /** `api_info`: None is `{}`, Some(b) is `{"api_available": b}`. */
        apiInfo: Option<bool>,
        macAddress: Option<string>, sensors: seq<Sensor>, deviceInfo: map<string, string>)
    | ScanFailed(
        name: string, id: int, boardType: string, host: string, hostname: string, ports: Ports,
        error: string)

  /** `result.get("online")` and its kin, with the defaults a missing key gives. */
  predicate IsOnline(r: ScanResult) { r.Scanned? && r.online }
  predicate OtaUp(r: ScanResult) { r.Scanned? && r.otaOnline }
  predicate WebUp(r: ScanResult) { r.Scanned? && r.webOnline }
  predicate ApiUp(r: ScanResult) { r.Scanned? && r.apiInfo == Some(true) }
  function ResultMac(r: ScanResult): Option<string> { if r.Scanned? then r.macAddress else None }
  function ResultSensors(r: ScanResult): seq<Sensor> { if r.Scanned? then r.sensors else [] }

  /** `board.get("host") or settings.DDNS_HOST`. */
  function HostOf(board: Board, ddnsHost: string): (h: string)
    ensures Truthy(board.host) ==> h == board.host.value
    ensures !Truthy(board.host) ==> h == ddnsHost
  {
    if Truthy(board.host) then board.host.value else ddnsHost
  }

  /** The sensors a scan reports: discovered ones replace the stored ones only
      when the web port is up, the step got that far and the list is
      non-empty. */
  function SensorsAfter(stored: seq<Sensor>, webOnline: bool, step: SensorStep): seq<Sensor> {
    if webOnline && !step.StepRaised? && step.sensors != [] then step.sensors else stored
  }

  /** The device info a scan reports, by the same rule. */
  function InfoAfter(stored: map<string, string>, webOnline: bool, step: SensorStep): map<string, string> {
    if webOnline && step.Discovered? && step.info != map[] then step.info else stored
  }

  /** `scan_single_board`. */
  function ScanSingleBoard(name: string, board: Board, ddnsHost: string, p: Probes): (r: ScanResult)
    ensures r.Scanned? && r.name == name && r.id == board.id && r.boardType == board.boardType
    ensures r.host == HostOf(board, ddnsHost) && r.ports == BoardPorts(board.id)
    ensures r.hostname == BoardHostname(name, board.id, board.hostname, ddnsHost)
    ensures r.otaOnline == p.ota && r.webOnline == WebProbeOnline(p.web)
    ensures r.online <==> r.otaOnline || r.webOnline
    // the API port is probed only when the OTA port answered
    ensures r.apiInfo.Some? <==> r.otaOnline
    ensures r.apiInfo.Some? ==> r.apiInfo.value == p.apiOpen
    // a stored MAC is kept; one is looked for only when none is stored and the web port is up
    ensures Truthy(board.macAddress) || !r.webOnline ==> r.macAddress == board.macAddress
    ensures !Truthy(board.macAddress) && r.webOnline ==> r.macAddress == GetMacAddress(p.macPage)
    // stored sensors and device info survive unless non-empty values were discovered
    ensures r.sensors != board.sensors ==> r.webOnline && r.sensors != [] && !p.sensorStep.StepRaised? && r.sensors == p.sensorStep.sensors
    ensures r.deviceInfo != board.deviceInfo ==> r.webOnline && r.deviceInfo != map[] && p.sensorStep.Discovered? && r.deviceInfo == p.sensorStep.info
    ensures p.sensorStep.StepRaised? ==> r.sensors == board.sensors && r.deviceInfo == board.deviceInfo
    // and non-empty discovered values are taken when the web port is up
    ensures r.webOnline && !p.sensorStep.StepRaised? && p.sensorStep.sensors != [] ==> r.sensors == p.sensorStep.sensors
    ensures r.webOnline && p.sensorStep.Discovered? && p.sensorStep.info != map[] ==> r.deviceInfo == p.sensorStep.info
  {
    var webOnline := WebProbeOnline(p.web);
    var mac := if !Truthy(board.macAddress) && webOnline then GetMacAddress(p.macPage) else board.macAddress;
    Scanned(
      name, board.id, board.boardType, HostOf(board, ddnsHost),
      BoardHostname(name, board.id, board.hostname, ddnsHost), BoardPorts(board.id),
      p.ota || webOnline, p.ota, webOnline,
      if p.ota then Some(p.apiOpen) else None,
      mac,
      SensorsAfter(board.sensors, webOnline, p.sensorStep),
      InfoAfter(board.deviceInfo, webOnline, p.sensorStep))
  }

  /** With the files as shown the sensor step always raises, so a scan
      reports the stored sensors and device info whatever the board serves. */
  lemma ScanKeepsStoredSensorsAsShown(name: string, board: Board, ddnsHost: string, p: Probes)
    requires p.sensorStep == StepRaised
    ensures ScanSingleBoard(name, board, ddnsHost, p).sensors == board.sensors
    ensures ScanSingleBoard(name, board, ddnsHost, p).deviceInfo == board.deviceInfo
  {
  }

  // ---------------------------------------------------------------- all boards

  /** How the scan task of one board ended: with the probes it saw, or with an
      exception whose text is `error`. */
  datatype TaskOutcome = Finished(probes: Probes) | Crashed(error: string)

  /** The entry `scan_all_boards` keeps for one board. */
  function ResultFor(name: string, board: Board, ddnsHost: string, t: TaskOutcome): ScanResult {
    match t
    case Finished(p) => ScanSingleBoard(name, board, ddnsHost, p)
    case Crashed(e) =>
      ScanFailed(name, board.id, board.boardType, HostOf(board, ddnsHost),
        BoardHostname(name, board.id, board.hostname, ddnsHost), BoardPorts(board.id), e)
  }

  /** Every entry names its board and carries its ports and hostname; a
      crashed scan gives the short record, which counts as offline. */
  lemma ResultForSpec(name: string, board: Board, ddnsHost: string, t: TaskOutcome)
    ensures var r := ResultFor(name, board, ddnsHost, t);
      && r.name == name && r.id == board.id && r.ports == BoardPorts(board.id)
      && r.hostname == BoardHostname(name, board.id, board.hostname, ddnsHost)
      && r.host == HostOf(board, ddnsHost)
      && (t.Crashed? ==> r.ScanFailed? && r.error == t.error && !IsOnline(r))
  {
  }

  /** The scan of `boards` (the registry's items in dict order): one result
      per board, in the boards' order. */
  function ScanResults(boards: seq<(string, Board)>, ddnsHost: string, ts: seq<TaskOutcome>): (rs: seq<ScanResult>)
    requires |ts| == |boards|
    ensures |rs| == |boards|
    ensures forall i :: 0 <= i < |boards| ==> rs[i] == ResultFor(boards[i].0, boards[i].1, ddnsHost, ts[i])
  {
    seq(|boards|, i requires 0 <= i < |boards| => ResultFor(boards[i].0, boards[i].1, ddnsHost, ts[i]))
  }

  function OkFail(b: bool): string { if b then "OK" else "FAIL" }

  /** The `details` text logged for a result. */
  function Details(r: ScanResult): string {
    "OTA:" + OkFail(OtaUp(r)) + " WEB:" + OkFail(WebUp(r)) + " API:" + OkFail(ApiUp(r))
  }

  function StatusWord(online: bool): string { if online then "online" else "offline" }

  /** The `log_status_change` call made for a result. */
  function LogCall(r: ScanResult, timestamp: string): Change {
    Change(r.name, StatusWord(IsOnline(r)), Details(r), timestamp)
  }

  /** The calls made for the results, in order; `timestamps[i]` is the clock
      reading of the i-th call. */
  function LogCalls(results: seq<ScanResult>, timestamps: seq<string>): (cs: seq<Change>)
    requires |timestamps| == |results|
    ensures |cs| == |results| && forall i :: 0 <= i < |results| ==> cs[i] == LogCall(results[i], timestamps[i])
  {
    seq(|results|, i requires 0 <= i < |results| => LogCall(results[i], timestamps[i]))
  }

  /** `scan_all_boards`, run sequentially in dict order: one result per board,
      then one status-log call per result. */
  method ScanAllBoards(boards: seq<(string, Board)>, ddnsHost: string, ts: seq<TaskOutcome>,
                       logger: StatusLogger, timestamps: seq<string>) returns (results: seq<ScanResult>)
    requires |ts| == |boards| && |timestamps| == |boards|
    modifies logger
    ensures results == ScanResults(boards, ddnsHost, ts)
    ensures logger.Data() == StepAll(old(logger.Data()), LogCalls(results, timestamps))
    ensures Consistent(old(logger.Data())) ==> Consistent(logger.Data())
  {
    results := [];
    for i := 0 to |boards|
      invariant |results| == i
      invariant forall k :: 0 <= k < i ==> results[k] == ResultFor(boards[k].0, boards[k].1, ddnsHost, ts[k])
    {
      results := results + [ResultFor(boards[i].0, boards[i].1, ddnsHost, ts[i])];
    }
    LogResults(results, logger, timestamps);
  }

  /** The logging loop of ScanAllBoards: one status change per result, in
      order. */
  method LogResults(results: seq<ScanResult>, logger: StatusLogger, timestamps: seq<string>)
    requires |timestamps| == |results|
    modifies logger
    ensures logger.Data() == StepAll(old(logger.Data()), LogCalls(results, timestamps))
    ensures Consistent(old(logger.Data())) ==> Consistent(logger.Data())
  {
    ghost var d0 := logger.Data();
    var calls := LogCalls(results, timestamps);
    for i := 0 to |results|
      invariant logger.Data() == StepAll(d0, calls[..i])
    {
      assert calls[..i + 1][..i] == calls[..i];
      var c := calls[i];
      var _ := logger.LogStatusChange(c.board, c.status, c.details, c.timestamp);
    }
    assert calls[..|results|] == calls;
    if Consistent(d0) {
      StepAllPreservesConsistent(d0, calls);
    }
  }

  /** After a scan of boards with distinct names, each board's last recorded
      status is its scanned online state. */
  lemma ScanRecordsStatus(boards: seq<(string, Board)>, ddnsHost: string, ts: seq<TaskOutcome>,
                          d: LogData, timestamps: seq<string>, i: nat)
    requires |ts| == |boards| && |timestamps| == |boards|
    requires forall p, q :: 0 <= p < q < |boards| ==> boards[p].0 != boards[q].0
    requires i < |boards|
    ensures var results := ScanResults(boards, ddnsHost, ts);
      LastStatusOf(StepAll(d, LogCalls(results, timestamps)).lastStatus, boards[i].0)
        == StatusWord(IsOnline(ResultFor(boards[i].0, boards[i].1, ddnsHost, ts[i])))
  {
    var results := ScanResults(boards, ddnsHost, ts);
    var cs := LogCalls(results, timestamps);
    assert forall p, q :: 0 <= p < q < |cs| ==> cs[p].board != cs[q].board by {
      forall p, q | 0 <= p < q < |cs| ensures cs[p].board != cs[q].board {
        assert cs[p].board == boards[p].0 && cs[q].board == boards[q].0;
      }
    }
    StepAllRecordsStatus(d, cs, i);
  }

  // ---------------------------------------------------------------- discovery

  /** `discover_boards_on_network` scans in batches of this many ports. */
  const BatchSize: nat := 20

  /** The default `port_range` (its end is exclusive). */
  const DefaultFirstPort: int := 8201
  const DefaultEndPort: int := 8299

  /** One board found by discovery. */
  datatype Found = Found(id: int, host: string, otaPort: int, webserverPort: int, apiPort: int, isNew: bool)

  /** `check_port` for a port that answered. */
  function Hit(host: string, port: int, known: set<int>): (f: Found)
    ensures f.otaPort == port && f.id == OtaPortOwner(port) && f.host == host
    ensures Ports(f.webserverPort, f.otaPort, f.apiPort) == BoardPorts(f.id)
    ensures f.isNew <==> f.id !in known
  {
    var id := port - 8200;
    Found(id, host, port, 8000 + id, 6000 + id, id !in known)
  }

  /** The hits among the ports `lo .. n-1`, in ascending port order;
      `reachable(p)` is the outcome of `scan_board` on port `p`. */
  function Hits(host: string, lo: int, n: int, reachable: int -> bool, known: set<int>): seq<Found>
    decreases n - lo
  {
    if n <= lo then []
    else Hits(host, lo, n - 1, reachable, known) + (if reachable(n - 1) then [Hit(host, n - 1, known)] else [])
  }

  /** `range(lo, hi)`. */
  function PortRange(lo: int, hi: int): (r: seq<int>)
    ensures |r| == (if hi > lo then hi - lo else 0)
    ensures forall k :: 0 <= k < |r| ==> r[k] == lo + k
  {
    if hi > lo then seq(hi - lo, k requires 0 <= k < hi - lo => lo + k) else []
  }

  function Min(a: int, b: int): int { if a <= b then a else b }

  /** `discover_boards_on_network` with `range(lo, hi, 20)` batches: returns
      the hits and the ports probed, in order. */
  method DiscoverBoardsOnNetwork(baseHost: Option<string>, ddnsHost: string, lo: int, hi: int,
                                 reachable: int -> bool, known: set<int>)
    returns (discovered: seq<Found>, probed: seq<int>)
    ensures var host := if Truthy(baseHost) then baseHost.value else ddnsHost;
      discovered == Hits(host, lo, hi, reachable, known)
    ensures probed == PortRange(lo, hi)
  {
    var host := if Truthy(baseHost) then baseHost.value else ddnsHost;
    discovered, probed := [], [];
    var batches := if hi > lo then (hi - lo + BatchSize - 1) / BatchSize else 0;
    for b := 0 to batches
      invariant discovered == Hits(host, lo, Min(lo + b * BatchSize, hi), reachable, known)
      invariant probed == PortRange(lo, Min(lo + b * BatchSize, hi))
    {
      var start := lo + b * BatchSize;
      var end := Min(start + BatchSize, hi);
      var batch := [];
      for port := start to end
        invariant discovered + batch == Hits(host, lo, port, reachable, known)
        invariant probed == PortRange(lo, port)
      {
        if reachable(port) {
          batch := batch + [Hit(host, port, known)];
        }
        probed := probed + [port];
      }
      discovered := discovered + batch;
    }
  }

  /** Every hit is a reachable port of the range, reported under its own id. */
  lemma {:induction false} HitsSound(host: string, lo: int, n: int, reachable: int -> bool, known: set<int>)
    ensures forall f :: f in Hits(host, lo, n, reachable, known) ==>
      lo <= f.otaPort < n && reachable(f.otaPort) && f == Hit(host, f.otaPort, known)
    decreases n - lo
  {
    if n > lo {
      HitsSound(host, lo, n - 1, reachable, known);
    }
  }

  /** Every reachable port of the range is reported. */
  lemma {:induction false} HitsComplete(host: string, lo: int, n: int, reachable: int -> bool, known: set<int>)
    ensures forall p :: lo <= p < n && reachable(p) ==> Hit(host, p, known) in Hits(host, lo, n, reachable, known)
    decreases n - lo
  {
    if n > lo {
      HitsComplete(host, lo, n - 1, reachable, known);
    }
  }

  predicate Ascending(hs: seq<Found>) {
    forall i, j :: 0 <= i < j < |hs| ==> hs[i].otaPort < hs[j].otaPort
  }

  /** Hits come in strictly ascending port order, so no port is reported twice. */
  lemma {:induction false} HitsAscending(host: string, lo: int, n: int, reachable: int -> bool, known: set<int>)
    ensures Ascending(Hits(host, lo, n, reachable, known))
    decreases n - lo
  {
    if n > lo {
      HitsAscending(host, lo, n - 1, reachable, known);
      HitsSound(host, lo, n - 1, reachable, known);
      var prev := Hits(host, lo, n - 1, reachable, known);
      if reachable(n - 1) {
        var hs := prev + [Hit(host, n - 1, known)];
        assert Hits(host, lo, n, reachable, known) == hs;
        forall i, j | 0 <= i < j < |hs| ensures hs[i].otaPort < hs[j].otaPort {
          assert hs[i] == prev[i] && prev[i] in prev;
          if j < |prev| {
            assert hs[j] == prev[j];
            assert prev[i].otaPort < prev[j].otaPort;
          } else {
            assert hs[j] == Hit(host, n - 1, known);
            assert prev[i].otaPort < n - 1;
          }
        }
      } else {
        assert Hits(host, lo, n, reachable, known) == prev;
      }
    }
  }

  /** With the default range the last port probed is 8298: port 8299, the OTA
      port of board 99, is never probed, and no hit has id 99. */
  lemma DefaultRangeSkipsLastBoard(host: string, reachable: int -> bool, known: set<int>)
    ensures var r := PortRange(DefaultFirstPort, DefaultEndPort);
      |r| == 98 && r[0] == 8201 && r[|r| - 1] == 8298 && 8299 !in r
    ensures forall f :: f in Hits(host, DefaultFirstPort, DefaultEndPort, reachable, known) ==> 1 <= f.id <= 98
  {
    HitsSound(host, DefaultFirstPort, DefaultEndPort, reachable, known);
  }
}
