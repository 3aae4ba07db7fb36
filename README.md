# Cactus Flasher control plane in Dafny

Cactus Flasher is a control plane for ESP32 boards. It keeps a registry of
boards in `boards.yaml`, scans them for liveness, discovers new boards and
their sensors, and compiles firmware (ESPHome, Arduino, PlatformIO). It then
flashes the images over the air, tracking every flash and build by id. Under
the FastAPI routing and the network and subprocess calls sit sequential
decision rules. This project models those rules and proves properties of
them. Every network, filesystem and clock outcome is a parameter.

Modules, one per component:

- `wrappers.dfy`: `Option` and `Result`.
- `text.dfy`: the Python string and integer operations the code relies on:
  `str(n)`, `f"{n:02d}"`, `startswith`/`endswith`, `strip`, ASCII
  `lower`/`upper`/`title`, `replace` and pathlib's `/` join.
- `config.dfy`: the port offsets of a board id and the derived hostname.
- `schemas.dfy`: the enumerations and request records and their validation,
  the flash and build status records, and the stored board and sensor shapes.
- `status_log.dfy`: the transition log (a class over the last-status map and
  the entry list), the log step proved against a pure `Step`, and the
  invariant that the log never repeats a board's status.
- `sensors.dfy`: `_parse_state_unit` and `parse_esphome_web_page`. The page
  parser's loops are methods proved against pass functions, with the regex
  `findall` results taken as input sequences.
- `http.dfy`: the outcome of one HTTP exchange (a response, no response, or
  a status line followed by a failure).
- `scanner.dfy`: the retrying TCP probe, the web probe predicate, basic-auth
  selection, leftmost MAC extraction, the single-board scan, the all-boards
  scan with status logging, and batched port discovery.
- `ota.dfy`: one upload attempt, `flash_firmware` with its web-port
  fallback, the chunked upload's byte and percent accounting, and
  `check_ota_available`.
- `boards.dfy`: the registry handlers (create, update, delete, scan merge,
  discovery with auto-registration, ping) as a class over the board map.
  Each handler is proved against a pure function.
- `flash.dfy`: the flash-operation tracker. It covers upload and
  from-build validation, the `do_flash` state machine and status lookup.
- `build.dfy`: the build-operation tracker. It covers extension checks, the
  shared `do_*_build` transition, status and log lookups, and the sketch
  name.

## Model

| member | source | states |
|---|---|---|
| Text.ZeroPad2TwoDigits | app/config.py:81 | `f"{id:02d}"` of an id in 0..99 is two decimal digits that read back as the id |
| Text.NatToStringRoundTrip | app/services/ota.py:78 | `str(n)` of a natural number is its decimal digits, which read back as n |
| Config.OtaPortOwner | app/services/scanner.py:237 | discovery's `port - 8200` is the id whose OTA port is `port` |
| Config.PortsDetermineId | app/config.py:84-90 | each port kind determines the id (one-to-one), and OtaPortOwner inverts the OTA port |
| Config.PortRangesDisjoint | app/config.py:84-90 | for ids 1..99 the three kinds fill 8001-8099, 8201-8299 and 6001-6099 and never collide across kinds |
| Config.StripFirstPrefix | app/config.py:76-80 | the short name is a suffix of the name |
| Config.StripFirstPrefixSpec | app/config.py:76-80 | exactly the first matching prefix is removed, and nothing when none matches |
| Config.CustomHostnameWins | app/config.py:73-74 | a non-empty custom hostname is returned verbatim; an empty one counts as absent |
| Config.SentinelExample | app/config.py:71-90 | "cactus-sentinel" with id 88 gets "sentinel-88.esp32gb.ddns.net" and ports 8088/8288/6088 |
| Config.SentinelShortName | app/config.py:77-80 | "cactus-sentinel" shortens to "sentinel" |
| Config.OnePrefixOnly | app/config.py:77-80 | only one prefix is removed ("esp32-esp-x" gives "esp-x"); a name without a prefix is kept |
| Config.DerivedHostnamesDistinct | app/config.py:81 | without a custom hostname, two different ids in 1..99 never share a derived hostname |
| Schemas.ParseBoardType | app/models/schemas.py:13-18 | only the five values are accepted, each naming its own type |
| Schemas.BoardTypeRoundTrip | app/models/schemas.py:13-18 | parsing a type's value gives the type back |
| Schemas.ParseFlashState | app/models/schemas.py:100 | only pending, uploading, success and failed are flash states |
| Schemas.FlashStateRoundTrip | app/models/schemas.py:100 | the flash-state alphabet round-trips |
| Schemas.ParseBuildState | app/models/schemas.py:84 | only pending, building, success and failed are build states |
| Schemas.BuildStateRoundTrip | app/models/schemas.py:84 | the build-state alphabet round-trips |
| Schemas.ValidateBoardCreate | app/models/schemas.py:39-45 | a create body validates iff its id is in 1..99 and its type (if given) is one of the five; an absent type becomes esp32 and all other fields pass through |
| Schemas.ValidateBoardUpdate | app/models/schemas.py:52-57 | an update body validates iff a given type is one of the five; absent fields stay absent |
| StatusLog.TakeLast | app/services/status_logger.py:75 | `s[-k:]` is a suffix: the last k elements when k > 0, everything when k == 0, and all but the first -k when k < 0 |
| StatusLog.TrimmedSpec | app/services/status_logger.py:78-81 | trimming keeps the newest `max_entries` entries and leaves a short log untouched |
| StatusLog.StepSpec | app/services/status_logger.py:32-58 | Step: a change is logged iff the status differs from the last known one (default "unknown"); then the map records it and the entry is appended last, keeping min(500, n + 1) of the newest entries; otherwise nothing changes |
| StatusLog.RepeatIsNoOp | app/services/status_logger.py:38-41 | repeating a status for a board changes nothing, whatever the details and time |
| StatusLog.ForBoard | app/services/status_logger.py:71-72 | the board filter keeps exactly the entries of that board |
| StatusLog.ForBoardConcat | app/services/status_logger.py:71-72 | filtering distributes over concatenation |
| StatusLog.StepPreservesConsistent | app/services/status_logger.py:43-55 | a step (append, map write, trim) keeps the invariant: per board, consecutive surviving entries differ in event and the newest is the recorded status |
| StatusLog.StepAllRepeatsNothing | app/services/status_logger.py:38-41 | a sequence of calls that all repeat the known statuses leaves the log unchanged |
| StatusLog.StepAllRecordsStatus | app/services/status_logger.py:38-52 | after calls for distinct boards, each board's last status is the one it was given |
| StatusLog.RescanAddsNothing | app/services/status_logger.py:38-41 | logging the same statuses for the same boards a second time adds nothing |
| StatusLog.StepAllPreservesConsistent | app/services/status_logger.py:32-58 | any sequence of calls keeps the invariant |
| StatusLog.RecentEntriesSpec | app/services/status_logger.py:61-75 | the result is the filtered log's last `limit` entries, newest first (all for limit 0, all but the oldest -limit for a negative limit), and only the asked board's when a board is given |
| StatusLog.StatusLogger.constructor | app/services/status_logger.py:14-23 | a missing log starts with no statuses and no entries, which is consistent |
| StatusLog.StatusLogger.Restore | app/services/status_logger.py:14-23 | a loaded log is taken as given |
| StatusLog.StatusLogger.LastStatuses | app/services/status_logger.py:26-29 | under the invariant, the map agrees with each board's newest entry |
| StatusLog.StatusLogger.TrimLog | app/services/status_logger.py:78-81 | the entries become the trimmed list; the map is untouched |
| StatusLog.StatusLogger.LogStatusChange | app/services/status_logger.py:32-58 | the new state and the returned flag are those of Step, and the invariant is preserved |
| Sensors.NumericEnd | app/services/sensors.py:201-211 | the end of the maximal `[\d.,-]` run from a position |
| Text.Strip | app/services/sensors.py:197 | `strip()` returns text with no whitespace at either end, and leaves already stripped text unchanged |
| Sensors.SpaceEnd | app/services/sensors.py:201-211 | the end of the maximal `\s*` run from a position: only whitespace is skipped and the next character is not whitespace |
| Sensors.KnownUnitIff | app/services/sensors.py:200-212 | a unit is accepted by some of the eleven patterns iff it is a listed symbol unit or a run of `[a-zA-Z/]` |
| Sensors.UnitPatternsShaped | app/services/sensors.py:200-212 | every accepted unit is non-empty, free of whitespace and does not start like a number |
| Sensors.FirstMatchSpec | app/services/sensors.py:214-217 | the pattern loop finds a match iff some pattern matches, and returns that pattern's groups |
| Sensors.ParseStateUnitIsFirstMatch | app/services/sensors.py:194-220 | the closed form computes what the pattern loop computes |
| Sensors.ParseStateUnitSound | app/services/sensors.py:194-220 | ParseStateUnit: "" gives ("", ""); otherwise either no unit and the stripped text, or a pattern-accepted split with a maximal non-empty numeric state |
| Sensors.ParseStateUnitComplete | app/services/sensors.py:200-217 | ParseStateUnit: whenever a pattern accepts a split of the stripped text, the result is that split |
| Sensors.ParseStateUnitNoMatch | app/services/sensors.py:219-220 | ParseStateUnit: with no accepted split the stripped text comes back with an empty unit |
| Sensors.ParseStateNonEmpty | app/services/sensors.py:197-220 | a non-blank text yields a non-empty state |
| Sensors.LetterUnitExample | app/services/sensors.py:190 | "22.5 C" gives ("22.5", "C") |
| Sensors.SymbolUnitExample | app/services/sensors.py:201 | "65%" gives ("65", "%") |
| Sensors.BareNumberExample | app/services/sensors.py:219-220 | "2" gives ("2", "") |
| Sensors.DisplayName | app/services/sensors.py:78 | the display name has the id's length |
| Sensors.DisplayNameChars | app/services/sensors.py:78 | a display name has a space exactly where the id has a space, dash or underscore, and no dash or underscore |
| Sensors.CollectMatchSensors | app/services/sensors.py:70-86 | the inner entity loop computes the entity sensors of one pattern's matches |
| Sensors.CollectEntitySensors | app/services/sensors.py:68-86 | the outer entity loop computes the entity pass |
| Sensors.CollectJsonSensors | app/services/sensors.py:92-105 | the JSON loop computes the JSON pass against the entity ids |
| Sensors.CollectTableSensors | app/services/sensors.py:109-131 | the table loop computes the table pass and the grown seen set |
| Sensors.ParseEsphomeWebPage | app/services/sensors.py:45-133 | the page parser computes PageSensors |
| Sensors.EntitySensorShaped | app/services/sensors.py:71-86 | a match contributes iff its stripped id and state are non-empty, and then carries the id's display name |
| Sensors.EntitySensorsSpec | app/services/sensors.py:70-86 | every contributing match is kept and every kept sensor comes from a match |
| Sensors.EntityPassSpec | app/services/sensors.py:68-86 | every entity sensor is well formed |
| Sensors.JsonSensorsFresh | app/services/sensors.py:92-96 | no JSON sensor reuses an entity id |
| Sensors.JsonSensorsNamed | app/services/sensors.py:98 | each JSON sensor carries its id's display name |
| Sensors.JsonSensorsCovers | app/services/sensors.py:92-105 | every JSON match whose stripped id is not an entity id yields its sensor |
| Sensors.JsonSensorsOnly | app/services/sensors.py:92-105 | every JSON sensor is the sensor of some match whose stripped id is not an entity id |
| Sensors.TablePassSeen | app/services/sensors.py:120-131 | the final seen set is the initial one plus the table ids |
| Sensors.TablePassFresh | app/services/sensors.py:119-131 | table sensors reuse no earlier id and have distinct ids |
| Sensors.TablePassCovers | app/services/sensors.py:119-131 | every accepted row's id ends up seen |
| Sensors.TablePassOnly | app/services/sensors.py:111-131 | every table sensor comes from a row |
| Sensors.TableRowShaped | app/services/sensors.py:112-130 | a table sensor is not a header row, has the lowered, underscored name as id and a present state |
| Sensors.TableSensorsShaped | app/services/sensors.py:111-131 | every table sensor is well formed |
| Sensors.PageSensorsSpec | app/services/sensors.py:45-133 | PageSensors: the entity sensors come first and are well formed, no later sensor reuses an entity id, and table sensors with distinct new ids close the list |
| Sensors.PageSensorsJson | app/services/sensors.py:88-105 | PageSensors: between the entity and the table sensors stand exactly the sensors of the JSON matches whose id no entity sensor took; each such match yields one and nothing else appears there |
| Sensors.JsonDuplicatesKept | app/services/sensors.py:92-105 | the seen set is not grown by JSON matches, so two JSON matches with one id both appear |
| Sensors.TableRowExample | app/services/sensors.py:109-131 | a row ("x", "2") gives sensor x with state 2 and no unit |
| Sensors.TableRepeatsJsonId | app/services/sensors.py:92-121 | a table row may repeat a JSON sensor's id, because JSON ids never enter the seen set |
| Scanner.ScanBoard | app/services/scanner.py:10-30 | up iff one of the two attempts connects; it stops at the first success, and fails only after both |
| Scanner.WebProbeOnlineSpec | app/services/scanner.py:33-41 | WebProbeOnline: online iff a status line 200, 401 or 403 arrives; the body, and a failure to read it, never change the verdict |
| Scanner.FindMacFrom | app/services/scanner.py:86-90 | the search returns the leftmost MAC position at or after the start, or none if there is none |
| Scanner.GetMacAddressSpec | app/services/scanner.py:67-95 | GetMacAddress: a MAC is found iff the page is a 200 response containing one, and it is the leftmost, upper-cased |
| Scanner.GetMacAddressUpper | app/services/scanner.py:92 | a returned MAC is well formed with no lower-case letter |
| Scanner.UpperKeepsMac | app/services/scanner.py:92 | upper-casing a MAC keeps it a MAC |
| Scanner.ScanSingleBoard | app/services/scanner.py:98-167 | online iff OTA or web answered; the API is probed iff OTA answered; a stored MAC survives, a missing one is looked up only when the web port answered; with the web port up, non-empty discovered sensors and device info replace the stored ones, and nothing else changes them |
| Scanner.ScanKeepsStoredSensorsAsShown | app/services/scanner.py:132-151 | with the sensor step raising, a scan reports the stored sensors and device info |
| Scanner.ResultForSpec | app/services/scanner.py:187-204 | each entry names its board and carries its host, hostname and ports; a crashed scan gives an offline record with the error text |
| Scanner.ScanAllBoards | app/services/scanner.py:170-222 | the results are ScanResults and the log is advanced by StepAll over their calls, keeping its invariant |
| Scanner.LogResults | app/services/scanner.py:206-220 | the logging loop applies Step per result in order and keeps the invariant |
| Scanner.ScanRecordsStatus | app/services/scanner.py:206-220 | after a scan of boards with distinct names, each board's last status is its scanned online state |
| Scanner.Hit | app/services/scanner.py:236-247 | a discovered entry has the port's owner id, its three ports and is new iff the id is unknown |
| Scanner.DiscoverBoardsOnNetwork | app/services/scanner.py:225-257 | the batched loops probe exactly the range in order and collect exactly the reachable ports' entries |
| Scanner.HitsSound | app/services/scanner.py:250-255 | every entry comes from a reachable port in range |
| Scanner.HitsComplete | app/services/scanner.py:250-255 | every reachable port in range gives an entry |
| Scanner.HitsAscending | app/services/scanner.py:250-255 | entries come in increasing port order |
| Scanner.DefaultRangeSkipsLastBoard | app/services/scanner.py:227-251 | the default range probes 8201-8298 (98 ports), so id 99 is never discovered |
| Ota.TryFlashToUrlSpec | app/services/ota.py:19-85 | TryFlashToUrl: an attempt succeeds iff the status is exactly 200; any other status gives "Flash failed: HTTP s - body"; an exception gives its labelled message |
| Ota.TryFlashToUrlPercents | app/services/ota.py:43-78 | reports are [10] without a connection, [10, 50] after a lost body or a non-200 status, [10, 50, 100] on 200 |
| Ota.FailureMessagesDistinct | app/services/ota.py:78-85 | the three exception messages and the HTTP failure message are told apart |
| Ota.FailureMessagesCarryLabel | app/services/ota.py:80-85 | each exception message carries the attempt's label |
| Ota.FlashFirmwareSpec | app/services/ota.py:88-174 | FlashFirmware: a missing file fails with no report; otherwise success iff the OTA port answers 200, or the fallback is enabled and the web port answers 200; messages as written |
| Ota.FlashFirmwareNoFallbackPercents | app/services/ota.py:134-174 | without the fallback the reports start at 0; a failure ends at 10 or 50 and never reports 100; a success reports 0, 10, 50, 100 |
| Ota.FallbackProgressGoesDown | app/services/ota.py:153-160 | the fallback's 5% report follows the primary's 10 and 50, so progress can go down |
| Ota.ReadLength | app/services/ota.py:203 | a read takes at most the remaining bytes, at most the chunk size, and something while bytes remain |
| Ota.ChunksSpec | app/services/ota.py:200-213 | every chunk is non-empty and within the chunk size, and the chunks add up to the file size |
| Ota.SenderReports | app/services/ota.py:204-213 | one report per chunk |
| Ota.FileSender | app/services/ota.py:200-213 | the sender loop produces the chunks and the reports, and sends their sum |
| Ota.SenderReportsAt | app/services/ota.py:204-213 | report k carries the bytes sent so far and their floor percentage |
| Ota.SenderReportsSpec | app/services/ota.py:200-213 | bytes sent are the running sums; percentages lie in 0..100, never decrease and end at 100 |
| Ota.PercentBounds | app/services/ota.py:206 | the percentage lies in 0..100 and is 100 when everything is sent |
| Ota.PercentMono | app/services/ota.py:206 | more bytes never give a lower percentage |
| Ota.FileSenderEnds | app/services/ota.py:200-213 | an empty file gets no report; otherwise the whole file is sent and the last report is 100 |
| Ota.FlashFirmwareChunkedSpec | app/services/ota.py:215-242 | FlashFirmwareChunked: a chunked upload succeeds iff a 200 status line arrives, and then the last report is 100 |
| Ota.CheckOtaAvailableSpec | app/services/ota.py:245-256 | CheckOtaAvailable: available iff a status line 200 or 405 arrives; the body, and a failure to read it, never change the verdict |
| Boards.CreateBoardSpec | app/routers/boards.py:194-228 | CreateBoard: creation succeeds iff the name and the id are both unused; it adds exactly the new record and keeps ids unique |
| Boards.ApplyUpdate | app/routers/boards.py:255-268 | each given (not None) field overwrites, others and the scan data stay |
| Boards.UpdateBoardSpec | app/routers/boards.py:231-273 | UpdateBoard: unknown names give 404, a rename onto another board gives 400; otherwise the board moves under its new name with the fields applied, others untouched, ids stay unique; an empty update changes nothing |
| Boards.DeleteBoardSpec | app/routers/boards.py:276-291 | DeleteBoard: delete succeeds iff the board exists and removes exactly it |
| Boards.MergeOneSpec | app/routers/boards.py:71-89 | MergeOne: merging a result touches only its board: config kept, a stored MAC never overwritten and a discovered one written where none is stored, last_seen set iff online, non-empty sensors written and empty ones ignored; it reports a change iff one of these three writes happens |
| Boards.MergeAllSpec | app/routers/boards.py:70-92 | MergeAll: the merge loop keeps the key set, leaves boards without results alone, changes the others only as their results allow (MAC only where none was stored, last_seen only to an online result's time, sensors only to a non-empty list) and reports no change only if nothing changed |
| Boards.MergeAllPersists | app/routers/boards.py:70-92 | MergeAll: the last result naming a registered board decides what is saved: an online result's time becomes its last_seen and a non-empty sensor list its sensors |
| Boards.MergeAllKeepsMac | app/routers/boards.py:77-79 | a registered board for which some result reported a MAC has a MAC after the merge |
| Boards.AutoRegisterSpec | app/routers/boards.py:121-133 | AutoRegisterAll: auto-registration adds exactly one `board-NN` record of type esp32 per new discovery and leaves other names alone |
| Boards.AutoRegisterCovers | app/routers/boards.py:124-133 | every new discovery's `board-NN` name is registered |
| Boards.AutoNameInjective | app/routers/boards.py:126 | two ids in 0..99 never share a `board-NN` name |
| Boards.AutoRegisterWritesEachHit | app/routers/boards.py:121-133 | with distinct ids in 0..99, each new discovery ends up with its own record (id, type esp32, nothing else) under its own name |
| Boards.AutoRegisterUniqueIds | app/routers/boards.py:121-133 | with the discovery's is-new flags and distinct ids, auto-registration keeps ids unique |
| Boards.AutoRegisterCanReplaceBoard | app/routers/boards.py:126-132 | an existing board named `board-NN` with another id is overwritten |
| Boards.PingAgreesWithScan | app/routers/boards.py:309-334 | from the same probe outcomes a ping and a scan agree on online, OTA, web and API, host, hostname and OTA port, and make the same status-log call |
| Boards.BoardRegistry.constructor | app/config.py:61-63 | the registry starts from the loaded boards |
| Boards.BoardRegistry.Create | app/routers/boards.py:194-228 | the registry becomes CreateBoard's map, or is unchanged with the duplicate-name or duplicate-id error |
| Boards.BoardRegistry.Update | app/routers/boards.py:231-273 | the registry becomes UpdateBoard's map, or the error is returned and nothing changes |
| Boards.BoardRegistry.Delete | app/routers/boards.py:276-291 | the registry becomes DeleteBoard's map, or 404 and nothing changes |
| Boards.BoardRegistry.MergeScanResults | app/routers/boards.py:70-92 | the merge loop computes MergeAll |
| Boards.BoardRegistry.ScanBoards | app/routers/boards.py:58-94 | the scan results are ScanResults in registry order, the log is stepped over them and the registry is merged |
| Boards.BoardRegistry.AutoRegister | app/routers/boards.py:121-135 | the registration loop computes AutoRegisterAll |
| Boards.BoardRegistry.Discover | app/routers/boards.py:107-142 | discovery over the default range against the known ids, the counts, and auto-registration only when asked |
| Boards.BoardRegistry.Ping | app/routers/boards.py:294-346 | unknown boards give 404; otherwise the reply, last_seen set iff online, and one log step |
| Boards.CountNewOf | app/routers/boards.py:140 | the loop counts the new discoveries |
| Boards.RegisteredCountIsNewBoards | app/routers/boards.py:133-140 | the number auto-registered equals `new_boards` |
| Flash.UploadError | app/routers/flash.py:26-40 | an upload is accepted iff the name ends in `.bin` and the board is registered; 400 is checked first, then 404 |
| Flash.AbsoluteUploadEscapes | app/routers/flash.py:43-50 | the client's file name is joined as it is: an absolute name replaces the flash directory, so "/tmp/evil.bin" passes validation and is saved (and later flashed) at "/tmp/evil.bin" |
| Flash.ContainedUploadPathSpec | app/routers/flash.py:46 | keeping only the name's last component, an accepted `.bin` name lands directly under `BUILDS_DIR / flash_id` as one plain component (no separator, not `.` or `..`, still `.bin`) |
| Flash.ResolveFirmware | app/routers/flash.py:121-161 | accepted iff a build id or path is given, the board exists and the build dir holds a `.bin` (first one used) or the path exists; the build id wins; 400 iff neither is given, 404 otherwise |
| Flash.ReportedSpec | app/routers/flash.py:90-92 | each callback overwrites only progress and message, and the last report wins |
| Flash.FinishSpec | app/routers/flash.py:88-112 | Finish: success iff the engine returned success, then at 100; otherwise failed with the last reported progress; the message is the engine's or the exception text |
| Flash.NoFallbackOutcome | app/routers/flash.py:95-100 | with no web credentials a fresh operation succeeds iff the file exists and the OTA port answers 200, and a failure ends at 0, 10 or 50 (the reports of app/services/ota.py:43-78), never 100 |
| Flash.FlashTracker.constructor | app/routers/flash.py:15 | no operations at start |
| Flash.FlashTracker.UploadFirmware | app/routers/flash.py:18-77 | a rejected upload changes nothing; an accepted one adds a pending op at 0 under the new id, others untouched, and schedules the board's host and OTA port |
| Flash.FlashTracker.FlashFromBuild | app/routers/flash.py:115-189 | the same for an image chosen by ResolveFirmware |
| Flash.FlashTracker.DoFlash | app/routers/flash.py:80-112 | only the operation's own record changes, to Finish of its old record |
| Flash.FlashTracker.GetFlashStatus | app/routers/flash.py:192-201 | a known id gives its record, an unknown one 404 |
| Flash.UploadThenFlash | app/routers/flash.py:53-112 | an accepted upload followed by its flash ends succeeded at 100 or failed at 0, 10 or 50 |
| Build.SketchNameOfPlainStem | app/routers/build.py:107 | for a stem free of `.ino`, the sketch name of `stem.ino` is the stem |
| Build.SketchNameDropsInnerOccurrence | app/routers/build.py:107 | every `.ino` is removed: "x.ino.ino" gives "x", which does not match the file name |
| Build.SketchStem | app/services/arduino.py:28-33 | the corrected sketch directory: the stem, to which `.ino` gives back the file name |
| Build.SketchStemAgrees | app/routers/build.py:107 | the stem and the route's name agree when the stem holds no `.ino` |
| Build.ArduinoInputUnderStem | app/routers/build.py:107-112 | the Arduino route saves the sketch at `UPLOADS_DIR / build_id / stem / filename` whenever the stem holds no `.ino` |
| Build.ArduinoInputMisplaced | app/routers/build.py:107-112 | for "x.ino.ino" the route saves the sketch at `UPLOADS_DIR / build_id / "x" / "x.ino.ino"`, while its stem is "x.ino" |
| Build.InputPathEdgeCases | app/routers/build.py:35-112 | as pathlib joins (lines 39 and 108-112): an absolute ESPHome or Arduino file name replaces the upload directory, and the sketch ".ino", whose directory name is empty, is saved directly under `UPLOADS_DIR / build_id` |
| Build.TargetOf | app/routers/build.py:23-177 | a given board type or environment is passed on; otherwise ESPHome gets "esp32", Arduino "esp32:esp32:esp32" and PlatformIO no environment |
| Build.SettleSpec | app/routers/build.py:64-88 | Settle: success iff the compiler reports success and names an image, recording the copied image and the logs; a reported failure records "Compilation failed" and the logs; an exception records its text only |
| Build.FreshBuildSettles | app/routers/build.py:45-88 | from a fresh record, an image path exists iff success, a message iff failure, and logs unless the driver raised |
| Build.BuildTracker.constructor | app/routers/build.py:17 | no operations at start |
| Build.BuildTracker.StartBuild | app/routers/build.py:20-220 | the three upload routes (lines 20-61, 91-144, 174-220): a rejected extension gives 400 and changes nothing; an accepted file adds a pending build under the new id, others untouched, and schedules the saved input (the Arduino sketch under `filename.replace(".ino", "")`) with its target |
| Build.BuildTracker.DoBuild | app/routers/build.py:64-88 | the ESPHome driver, which the Arduino (lines 147-171) and PlatformIO (lines 223-247) drivers mirror: only the build's own record changes, to Settle of its old record |
| Build.BuildTracker.GetBuildStatus | app/routers/build.py:250-260 | a known id gives its record, an unknown one 404 |
| Build.BuildTracker.GetBuildLogs | app/routers/build.py:263-276 | a known id gives its logs, an unknown one 404 |

## Left out

- Unicode: `strip()`, `lower()`, `upper()`, `title()` and the regex classes `\s` and `\d` are modelled on ASCII. Python treats them Unicode-aware, so e.g. `_parse_state_unit("22.5\u00a0C")` gives ("22.5", "C") there, while ParseStateUnit keeps the text whole. Likewise `"ß".title()` lengthens the text, so DisplayName's length claim holds only on ASCII ids.
- Scanner.MakeBasicAuth: the credentials are computed, but the probes they accompany are parameters, so no property ties them to a probe outcome.
- Board records always carry a `type`; a record read from boards.yaml without one (app/services/scanner.py:157 falls back to "esp32") is not represented.
- Network I/O (TCP connects, HTTP requests, SSE): every outcome is a parameter (`Outcome`, booleans, `reachable`).
- `_try_events_endpoint` (SSE parsing through `json.loads`): it is not modelled.
- Concurrency: `asyncio.gather` runs are modelled sequentially in dict order, and retry sleeps and timeouts are left out.
- The regex engine: the `findall` results of sensors.py and the MAC search are inputs. The unit patterns are stated in closed form (ASCII only).
- MD5 hashing of the image and the multipart body encoding.
- Ota.Percent: the percentage `int(bytes_sent / file_size * 100)` is modelled as integer floor. The float result can be one lower, so only bounds and monotonicity carry over.
- Clock readings and uuids are parameters (`timestamp`, `now`, `flashId`, `buildId`).
- YAML persistence, `Settings` and the environment: the log, the registry and the DDNS host are explicit state or parameters.
- `get_board_info` is a boolean "API port open".
- `list_boards`, `get_board`, `get_flash_history` and `list_builds` are read-only listings and are not modelled.
- Sensor discovery in `scan_single_board`: the import at scanner.py:136 always raises. The model keeps a general oracle (`SensorStep`), and `ScanKeepsStoredSensorsAsShown` states the as-shown result.
- The `SensorInfo` import at boards.py:7 and the `mac_address` reads at boards.py:223 and :267 fail as written. The model gives `BoardCreate`/`BoardUpdate` an optional MAC and models the intended handlers.
- Boards.BoardRegistry.Create: when several boards already use the id, the error names one of them, because the dict's iteration order is not modelled.
- Boards.BoardRegistry.ScanBoards requires `order` to list every registry key once; it stands for the dict's iteration order.
- The `try/except: pass` around status logging in scan_all_boards and ping_board is not modelled. The logger is assumed not to fail.
- Ota.FlashFirmwareChunked: how many reports precede a failed connection (`consumed`) is a parameter.
- Flash.UploadPath, Build.InputPath, Build.OutputPath: the parts are joined as pathlib's `/` joins POSIX paths (an absolute part replaces the base, an empty part is dropped), but the normalisation pathlib applies to the result (repeated separators, `.` components, a trailing separator) is not modelled. A `..` component is kept literally, as pathlib keeps it, and where `open` then resolves it is not modelled.
- Filesystem steps in flash.py and build.py (saving uploads, glob, copy, zip extraction): what glob and the path checks find is a parameter (`Disk`, the compile outcome). Saving an upload (app/routers/flash.py:43-50, app/routers/build.py:36-42) and extracting an archive (app/routers/build.py:193-201) are assumed to succeed; when they raise, the route creates no tracker entry, which UploadFirmware and StartBuild do not capture.
- The subprocess compilers (esphome.py, arduino.py, platformio.py) and app/auth.py are not part of this model.
- The code has no range check in `get_board_ports`, no clamping or monotonic enforcement of flash progress, and no status-log delete. None of these is added.
- Code and description disagree in two places, and the model follows the code:
  - the web probe counts 200, 401 and 403 as online;
  - an upload attempt succeeds only on exactly 200, not on any 2xx.

## Findings

| source | as written | input that shows it | evidently intended | confidence | as-written member | corrected member |
|---|---|---|---|---|---|---|
| app/routers/build.py:107 | the sketch directory is `filename.replace(".ino", "")`, which removes every `.ino` in the name | "x.ino.ino" gets directory "x". The Arduino compile step (app/services/arduino.py:28-33) then expects "x.ino" and rejects the sketch | the directory is the file's stem, so that the sketch is named after its directory | medium, not executed | Build.ArduinoInputMisplaced | Build.SketchStem |
| app/routers/flash.py:46 | the saved image's path is `BUILDS_DIR / flash_id / file.filename`, with the client's file name joined as it is | "/tmp/evil.bin" ends in `.bin`, so it is accepted, and pathlib's join discards the flash directory: the upload is written to, and flashed from, "/tmp/evil.bin" | only the name's last component is used, so the image stays in its own directory | medium, not executed | Flash.AbsoluteUploadEscapes | Flash.ContainedUploadPathSpec |
