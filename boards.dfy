/** The board registry of app/routers/boards.py: the `boards` mapping of
    boards.yaml as a map from board name to record, and the handlers that
    change it (create, update and rename, delete, merging scan results,
    auto-registering discovered boards, ping). Each handler is a method of
    `BoardRegistry` proved against a pure function of the old registry;
    writing the file back is not modelled. */
module Boards {
  import opened Wrappers
  import opened Text
  import opened Schemas
  import opened Config
  import opened Http
  import opened Scanner
  import opened StatusLog

  /** An `HTTPException`. */
  datatype HttpError = HttpError(status: int, detail: string)

  function NotFound(name: string): HttpError {
    HttpError(404, "Board '" + name + "' not found")
  }

  function AlreadyExists(name: string): HttpError {
    HttpError(400, "Board '" + name + "' already exists")
  }

  function IdTaken(id: int, owner: string): HttpError {
    HttpError(400, "Board ID " + IntToString(id) + " is already used by '" + owner + "'")
  }

  /** The ids in use. */
  function KnownIds(boards: map<string, Board>): set<int> {
    set n | n in boards :: boards[n].id
  }

  /** No two boards share an id. */
  ghost predicate UniqueIds(boards: map<string, Board>) {
    forall a, b :: a in boards && b in boards && a != b ==> boards[a].id != boards[b].id
  }

  /** The fields a user configures; a scan leaves them alone. */
  predicate SameConfig(a: Board, b: Board) {
    && a.id == b.id && a.boardType == b.boardType && a.host == b.host && a.hostname == b.hostname
    && a.apiKey == b.apiKey && a.webUsername == b.webUsername && a.webPassword == b.webPassword
    && a.deviceInfo == b.deviceInfo
  }

  // ---------------------------------------------------------------- create

  /** The record `create_board` stores: id, type, host and hostname always,
      `api_key` and `mac_address` only when given non-empty. */
  function NewBoardRecord(req: BoardCreate): (b: Board)
    ensures b.id == req.id && b.boardType == BoardTypeValue(req.boardType)
    ensures b.host == req.host && b.hostname == req.hostname
    ensures b.apiKey == (if Truthy(req.apiKey) then req.apiKey else None)
    ensures b.macAddress == (if Truthy(req.macAddress) then req.macAddress else None)
    ensures b.lastSeen == None && b.sensors == [] && b.deviceInfo == map[]
    ensures b.webUsername == None && b.webPassword == None
  {
    Board(req.id, BoardTypeValue(req.boardType), req.host, req.hostname,
      if Truthy(req.apiKey) then req.apiKey else None,
      if Truthy(req.macAddress) then req.macAddress else None,
      None, None, None, [], map[])
  }

  /** The registry after an accepted `create_board`, None when rejected. */
  function CreateBoard(boards: map<string, Board>, req: BoardCreate): Option<map<string, Board>> {
    if req.name in boards || req.id in KnownIds(boards) then None
    else Some(boards[req.name := NewBoardRecord(req)])
  }

  /** A create is accepted iff the name is new and no board has the id; it
      then adds exactly one key and changes no other board, and it keeps ids
      unique. */
  lemma CreateBoardSpec(boards: map<string, Board>, req: BoardCreate)
    ensures CreateBoard(boards, req).Some? <==>
      req.name !in boards && forall n :: n in boards ==> boards[n].id != req.id
    ensures CreateBoard(boards, req).Some? ==> var m := CreateBoard(boards, req).value;
      && m.Keys == boards.Keys + {req.name}
      && m[req.name] == NewBoardRecord(req)
      && (forall n :: n in boards ==> m[n] == boards[n])
      && (UniqueIds(boards) ==> UniqueIds(m))
  {
    if req.name !in boards && forall n :: n in boards ==> boards[n].id != req.id {
      assert req.id !in KnownIds(boards);
    }
  }

  // ---------------------------------------------------------------- update

  /** The fields of `board` with every non-None field of the update written;
      a rename is handled by `UpdateBoard`. Unlike create, an empty string is
      written too. */
  function ApplyUpdate(b: Board, u: BoardUpdate): (r: Board)
    ensures r.id == b.id && r.lastSeen == b.lastSeen && r.sensors == b.sensors && r.deviceInfo == b.deviceInfo
    ensures r.webUsername == b.webUsername && r.webPassword == b.webPassword
    ensures r.boardType == (if u.boardType.Some? then BoardTypeValue(u.boardType.value) else b.boardType)
    ensures r.host == (if u.host.Some? then u.host else b.host)
    ensures r.hostname == (if u.hostname.Some? then u.hostname else b.hostname)
    ensures r.apiKey == (if u.apiKey.Some? then u.apiKey else b.apiKey)
    ensures r.macAddress == (if u.macAddress.Some? then u.macAddress else b.macAddress)
  {
    var b1 := if u.boardType.Some? then b.(boardType := BoardTypeValue(u.boardType.value)) else b;
    var b2 := if u.host.Some? then b1.(host := u.host) else b1;
    var b3 := if u.hostname.Some? then b2.(hostname := u.hostname) else b2;
    var b4 := if u.apiKey.Some? then b3.(apiKey := u.apiKey) else b3;
    if u.macAddress.Some? then b4.(macAddress := u.macAddress) else b4
  }

  /** `update_board`: the new registry and the name the board ends up under. */
  function UpdateBoard(boards: map<string, Board>, name: string, u: BoardUpdate): Result<(map<string, Board>, string), HttpError> {
    if name !in boards then Err(NotFound(name))
    else if u.name.Some? && u.name.value != name && u.name.value in boards then Err(AlreadyExists(u.name.value))
    else
      var target := if u.name.Some? then u.name.value else name;
      Ok(((boards - {name})[target := ApplyUpdate(boards[name], u)], target))
  }

  /** Unknown names are rejected, as is a rename onto another existing board.
      Otherwise the board keeps its record, with the given fields rewritten,
      under its new name; the old key is gone and every other board is left
      as it was. An update without any field leaves the registry unchanged. */
  lemma UpdateBoardSpec(boards: map<string, Board>, name: string, u: BoardUpdate)
    ensures name !in boards ==> UpdateBoard(boards, name, u) == Err(NotFound(name))
    ensures name in boards && u.name.Some? && u.name.value != name && u.name.value in boards ==>
      UpdateBoard(boards, name, u) == Err(AlreadyExists(u.name.value))
    ensures UpdateBoard(boards, name, u).Ok? ==>
      var (m, target) := UpdateBoard(boards, name, u).value;
      && target == (if u.name.Some? then u.name.value else name)
      && m.Keys == boards.Keys - {name} + {target}
      && m[target] == ApplyUpdate(boards[name], u)
      && (forall n :: n in boards && n != name ==> n != target && m[n] == boards[n])
      && (UniqueIds(boards) ==> UniqueIds(m))
    ensures u == BoardUpdate(None, None, None, None, None, None) && name in boards ==>
      UpdateBoard(boards, name, u) == Ok((boards, name))
  {
    if u == BoardUpdate(None, None, None, None, None, None) && name in boards {
      assert ApplyUpdate(boards[name], u) == boards[name];
      assert (boards - {name})[name := boards[name]] == boards;
    }
  }

  // ---------------------------------------------------------------- delete

  function DeleteBoard(boards: map<string, Board>, name: string): Result<map<string, Board>, HttpError> {
    if name !in boards then Err(NotFound(name)) else Ok(boards - {name})
  }

  /** Delete removes exactly the named key and rejects an unknown one. */
  lemma DeleteBoardSpec(boards: map<string, Board>, name: string)
    ensures DeleteBoard(boards, name).Ok? <==> name in boards
    ensures DeleteBoard(boards, name).Ok? ==> var m := DeleteBoard(boards, name).value;
      m.Keys == boards.Keys - {name} && (forall n :: n in m ==> m[n] == boards[n])
  {
  }

  // ---------------------------------------------------------------- merging a scan

  /** One pass of the merge loop of `scan_boards` for result `r` at clock
      reading `now`: the registry after it and whether it changed anything. */
  function MergeOne(boards: map<string, Board>, r: ScanResult, now: string): (map<string, Board>, bool) {
    if r.name !in boards then (boards, false)
    else
      var b := boards[r.name];
      var setMac := Truthy(ResultMac(r)) && !Truthy(b.macAddress);
      var b1 := if setMac then b.(macAddress := ResultMac(r)) else b;
      var b2 := if IsOnline(r) then b1.(lastSeen := Some(now)) else b1;
      var b3 := if ResultSensors(r) != [] then b2.(sensors := ResultSensors(r)) else b2;
      (boards[r.name := b3], setMac || IsOnline(r) || ResultSensors(r) != [])
  }

  /** The merge loop over the first `n` results. */
  function MergeAll(boards: map<string, Board>, rs: seq<ScanResult>, now: seq<string>, n: nat): (map<string, Board>, bool)
    requires n <= |rs| && |now| == |rs|
    decreases n
  {
    if n == 0 then (boards, false)
    else
      var prev := MergeAll(boards, rs, now, n - 1);
      var step := MergeOne(prev.0, rs[n - 1], now[n - 1]);
      (step.0, prev.1 || step.1)
  }

  /** How a merge may change one record: a MAC only where none was stored,
      last_seen only to a clock reading of an online result, sensors only to
      a non-empty scanned list; nothing else. */
  ghost predicate MergedFrom(before: Board, after: Board, rs: seq<ScanResult>, now: seq<string>, name: string)
    requires |now| == |rs|
  {
    && SameConfig(before, after)
    && (Truthy(before.macAddress) ==> after.macAddress == before.macAddress)
    && (after.macAddress != before.macAddress ==> exists i :: 0 <= i < |rs| && rs[i].name == name && ResultMac(rs[i]) == after.macAddress)
    && (after.lastSeen != before.lastSeen ==> exists i :: 0 <= i < |rs| && rs[i].name == name && IsOnline(rs[i]) && after.lastSeen == Some(now[i]))
    && (after.sensors != before.sensors ==> exists i :: 0 <= i < |rs| && rs[i].name == name && ResultSensors(rs[i]) == after.sensors != [])
  }

  /** One step changes only the record the result names, and that one only
      as `MergedFrom` allows; when it reports no change the registry is the
      same. */
  lemma MergeOneSpec(boards: map<string, Board>, r: ScanResult, now: string)
    ensures var (m, changed) := MergeOne(boards, r, now);
      && m.Keys == boards.Keys
      && (forall n :: n in boards && n != r.name ==> m[n] == boards[n])
      && (!changed ==> m == boards)
      && (r.name in boards ==> var before, after := boards[r.name], m[r.name];
           && SameConfig(before, after)
           && (Truthy(before.macAddress) ==> after.macAddress == before.macAddress)
           && (after.macAddress != before.macAddress ==> after.macAddress == ResultMac(r))
           && (after.lastSeen != before.lastSeen ==> IsOnline(r) && after.lastSeen == Some(now))
           && (IsOnline(r) ==> after.lastSeen == Some(now))
           && (after.sensors != before.sensors ==> after.sensors == ResultSensors(r) != [])
           // and what it writes: a discovered MAC where none is stored, non-empty sensors
           && (Truthy(ResultMac(r)) && !Truthy(before.macAddress) ==> after.macAddress == ResultMac(r))
           && (ResultSensors(r) != [] ==> after.sensors == ResultSensors(r))
           && (changed <==> (Truthy(ResultMac(r)) && !Truthy(before.macAddress)) || IsOnline(r) || ResultSensors(r) != []))
  {
    if r.name in boards && !MergeOne(boards, r, now).1 {
      assert MergeOne(boards, r, now).0[r.name] == boards[r.name];
    }
  }

  /** The whole merge keeps the names, changes no board that no result
      names, changes the others only as `MergedFrom` allows, and leaves the
      registry as it was when it reports no change. */
  lemma {:induction false} MergeAllSpec(boards: map<string, Board>, rs: seq<ScanResult>, now: seq<string>, n: nat)
    requires n <= |rs| && |now| == |rs|
    ensures var (m, changed) := MergeAll(boards, rs, now, n);
      && m.Keys == boards.Keys
      && (forall k :: k in boards && (forall i :: 0 <= i < n ==> rs[i].name != k) ==> m[k] == boards[k])
      && (forall k :: k in boards ==> MergedFrom(boards[k], m[k], rs[..n], now[..n], k))
      && (!changed ==> m == boards)
    decreases n
  {
    if n > 0 {
      MergeAllSpec(boards, rs, now, n - 1);
      var prev := MergeAll(boards, rs, now, n - 1).0;
      MergeOneSpec(prev, rs[n - 1], now[n - 1]);
      var m := MergeAll(boards, rs, now, n).0;
      forall k | k in boards ensures MergedFrom(boards[k], m[k], rs[..n], now[..n], k) {
        MergedFromStep(boards[k], prev[k], m[k], rs, now, n, k);
      }
    }
  }

  /** One merge step keeps the names and touches only the board it names. */
  lemma MergeOneFrame(boards: map<string, Board>, r: ScanResult, now: string)
    ensures var m := MergeOne(boards, r, now).0;
      m.Keys == boards.Keys && forall k :: k in boards && k != r.name ==> m[k] == boards[k]
  {
  }

  /** What one merge step writes into the board it names. */
  lemma MergeOneWrites(boards: map<string, Board>, r: ScanResult, now: string)
    requires r.name in boards
    ensures var before, after := boards[r.name], MergeOne(boards, r, now).0[r.name];
      && (IsOnline(r) ==> after.lastSeen == Some(now))
      && (ResultSensors(r) != [] ==> after.sensors == ResultSensors(r))
      && (Truthy(ResultMac(r)) || Truthy(before.macAddress) ==> Truthy(after.macAddress))
  {
  }

  lemma {:induction false} MergeAllKeys(boards: map<string, Board>, rs: seq<ScanResult>, now: seq<string>, n: nat)
    requires n <= |rs| && |now| == |rs|
    ensures MergeAll(boards, rs, now, n).0.Keys == boards.Keys
    decreases n
  {
    if n > 0 {
      MergeAllKeys(boards, rs, now, n - 1);
      MergeOneFrame(MergeAll(boards, rs, now, n - 1).0, rs[n - 1], now[n - 1]);
    }
  }

  /** What the merge persists: for the last of the first `n` results that
      names a registered board, an online result's clock reading is its
      last_seen and a non-empty sensor list is its sensors. */
  lemma {:induction false} MergeAllPersists(boards: map<string, Board>, rs: seq<ScanResult>, now: seq<string>, n: nat)
    requires n <= |rs| && |now| == |rs|
    ensures var m := MergeAll(boards, rs, now, n).0;
      m.Keys == boards.Keys
      && forall i :: 0 <= i < n && rs[i].name in boards && LastNaming(rs, i, n) ==>
           && (IsOnline(rs[i]) ==> m[rs[i].name].lastSeen == Some(now[i]))
           && (ResultSensors(rs[i]) != [] ==> m[rs[i].name].sensors == ResultSensors(rs[i]))
    decreases n
  {
    MergeAllKeys(boards, rs, now, n);
    if n > 0 {
      MergeAllPersists(boards, rs, now, n - 1);
      var prev := MergeAll(boards, rs, now, n - 1).0;
      var r := rs[n - 1];
      MergeOneFrame(prev, r, now[n - 1]);
      if r.name in boards {
        MergeOneWrites(prev, r, now[n - 1]);
      }
      forall i | 0 <= i < n - 1 && rs[i].name in boards && LastNaming(rs, i, n)
        ensures LastNaming(rs, i, n - 1) && rs[i].name != r.name
      {
      }
    }
  }

  /** A board that some result reported a MAC for ends the merge with a MAC:
      the first one reported, or the one it already had. */
  lemma {:induction false} MergeAllKeepsMac(boards: map<string, Board>, rs: seq<ScanResult>, now: seq<string>, n: nat)
    requires n <= |rs| && |now| == |rs|
    ensures var m := MergeAll(boards, rs, now, n).0;
      m.Keys == boards.Keys
      && forall i :: 0 <= i < n && rs[i].name in boards && Truthy(ResultMac(rs[i])) ==>
           Truthy(m[rs[i].name].macAddress)
    decreases n
  {
    MergeAllKeys(boards, rs, now, n);
    if n > 0 {
      MergeAllKeepsMac(boards, rs, now, n - 1);
      var prev := MergeAll(boards, rs, now, n - 1).0;
      var r := rs[n - 1];
      MergeOneFrame(prev, r, now[n - 1]);
      if r.name in boards {
        MergeOneWrites(prev, r, now[n - 1]);
      }
    }
  }

  /** No result after `i` and before `n` names the board `rs[i]` names. */
  predicate LastNaming(rs: seq<ScanResult>, i: nat, n: nat)
    requires i < n <= |rs|
  {
    forall j :: i < j < n ==> rs[j].name != rs[i].name
  }

  /** `MergedFrom` over the first `n - 1` results extends by step `n`. */
  lemma MergedFromStep(before: Board, mid: Board, after: Board, rs: seq<ScanResult>, now: seq<string>, n: nat, name: string)
    requires 0 < n <= |rs| && |now| == |rs|
    requires MergedFrom(before, mid, rs[..n - 1], now[..n - 1], name)
    requires rs[n - 1].name != name ==> after == mid
    requires rs[n - 1].name == name ==>
      && SameConfig(mid, after)
      && (Truthy(mid.macAddress) ==> after.macAddress == mid.macAddress)
      && (after.macAddress != mid.macAddress ==> after.macAddress == ResultMac(rs[n - 1]))
      && (after.lastSeen != mid.lastSeen ==> IsOnline(rs[n - 1]) && after.lastSeen == Some(now[n - 1]))
      && (after.sensors != mid.sensors ==> after.sensors == ResultSensors(rs[n - 1]) != [])
    ensures MergedFrom(before, after, rs[..n], now[..n], name)
  {
    var rs', now' := rs[..n], now[..n];
    assert forall i :: 0 <= i < n - 1 ==> rs'[i] == rs[..n - 1][i] && now'[i] == now[..n - 1][i];
    assert rs'[n - 1] == rs[n - 1] && now'[n - 1] == now[n - 1];
    if rs[n - 1].name == name && after.macAddress != before.macAddress && after.macAddress != mid.macAddress {
      assert !Truthy(mid.macAddress);
    }
  }

  // ---------------------------------------------------------------- discovery

  /** `f"board-{id:02d}"`. */
  function AutoName(id: int): string { "board-" + ZeroPad2(id) }

  /** The record auto-registration writes. */
  function AutoBoard(id: int): Board {
    Board(id, "esp32", None, None, None, None, None, None, None, [], map[])
  }

  /** The auto-register loop over the first `n` hits: the registry and the
      names registered, in order. */
  function AutoRegisterAll(boards: map<string, Board>, hits: seq<Found>, n: nat): (map<string, Board>, seq<string>)
    requires n <= |hits|
    decreases n
  {
    if n == 0 then (boards, [])
    else
      var prev := AutoRegisterAll(boards, hits, n - 1);
      var h := hits[n - 1];
      if h.isNew then (prev.0[AutoName(h.id) := AutoBoard(h.id)], prev.1 + [AutoName(h.id)]) else prev
  }

  /** The number of hits with `is_new`. */
  function CountNew(hits: seq<Found>): nat
    decreases |hits|
  {
    if hits == [] then 0 else CountNew(hits[..|hits| - 1]) + (if hits[|hits| - 1].isNew then 1 else 0)
  }

  /** Auto-registration writes one key per new hit: `new_boards` counts the
      names registered, each registered name holds the hit's record (the last
      hit wins on a shared name), and boards under other names are unchanged. */
  lemma {:induction false} AutoRegisterSpec(boards: map<string, Board>, hits: seq<Found>, n: nat)
    requires n <= |hits|
    ensures var (m, names) := AutoRegisterAll(boards, hits, n);
      && |names| == CountNew(hits[..n])
      && m.Keys == boards.Keys + (set k | k in names)
      && (forall k :: k in boards && k !in names ==> m[k] == boards[k])
      && (forall k :: k in names ==> exists i :: 0 <= i < n && hits[i].isNew && k == AutoName(hits[i].id) && m[k] == AutoBoard(hits[i].id))
    decreases n
  {
    if n > 0 {
      AutoRegisterSpec(boards, hits, n - 1);
      assert hits[..n][..n - 1] == hits[..n - 1];
    }
  }

  /** With discovery's own `is_new` flags over distinct ids, auto-registration
      keeps ids unique. */
  lemma {:induction false} AutoRegisterUniqueIds(boards: map<string, Board>, hits: seq<Found>, n: nat)
    requires n <= |hits| && UniqueIds(boards)
    requires forall i :: 0 <= i < |hits| ==> (hits[i].isNew <==> hits[i].id !in KnownIds(boards))
    requires forall i, j :: 0 <= i < j < |hits| ==> hits[i].id != hits[j].id
    ensures UniqueIds(AutoRegisterAll(boards, hits, n).0)
    ensures forall k :: k in AutoRegisterAll(boards, hits, n).0 ==>
      var id := AutoRegisterAll(boards, hits, n).0[k].id;
      id in KnownIds(boards) || exists i :: 0 <= i < n && hits[i].isNew && hits[i].id == id
    decreases n
  {
    if n > 0 {
      AutoRegisterUniqueIds(boards, hits, n - 1);
      var prev := AutoRegisterAll(boards, hits, n - 1).0;
      var h := hits[n - 1];
      if h.isNew {
        var m := prev[AutoName(h.id) := AutoBoard(h.id)];
        forall k | k in prev && k != AutoName(h.id) ensures prev[k].id != h.id {
          var id := prev[k].id;
          if id in KnownIds(boards) {
          } else {
            var i :| 0 <= i < n - 1 && hits[i].isNew && hits[i].id == id;
          }
        }
      }
    }
  }

  /** Every new hit among the first `n` has its `board-NN` name registered. */
  lemma {:induction false} AutoRegisterCovers(boards: map<string, Board>, hits: seq<Found>, n: nat)
    requires n <= |hits|
    ensures var (m, names) := AutoRegisterAll(boards, hits, n);
      forall i :: 0 <= i < n && hits[i].isNew ==> AutoName(hits[i].id) in names && AutoName(hits[i].id) in m
    decreases n
  {
    if n > 0 {
      AutoRegisterCovers(boards, hits, n - 1);
    }
  }

  /** Two ids in 0..99 with the same `board-NN` name are equal. */
  lemma AutoNameInjective(a: int, b: int)
    requires 0 <= a <= 99 && 0 <= b <= 99 && AutoName(a) == AutoName(b)
    ensures a == b
  {
    assert AutoName(a)[6..] == ZeroPad2(a) && AutoName(b)[6..] == ZeroPad2(b);
    ZeroPad2TwoDigits(a);
    ZeroPad2TwoDigits(b);
  }

  /** With distinct ids in 0..99 (ports 8200..8299), every new hit ends up
      registered under its own `board-NN` name with its own record. */
  lemma {:induction false} AutoRegisterWritesEachHit(boards: map<string, Board>, hits: seq<Found>, n: nat)
    requires n <= |hits|
    requires forall i :: 0 <= i < n ==> 0 <= hits[i].id <= 99
    requires forall i, j :: 0 <= i < j < n ==> hits[i].id != hits[j].id
    ensures forall i :: 0 <= i < n && hits[i].isNew ==> AutoName(hits[i].id) in AutoRegisterAll(boards, hits, n).0
    ensures forall i :: 0 <= i < n && hits[i].isNew ==>
      AutoRegisterAll(boards, hits, n).0[AutoName(hits[i].id)] == AutoBoard(hits[i].id)
    decreases n
  {
    AutoRegisterCovers(boards, hits, n);
    if n > 0 {
      AutoRegisterWritesEachHit(boards, hits, n - 1);
      var h := hits[n - 1];
      forall i | 0 <= i < n - 1 && hits[i].isNew ensures AutoName(hits[i].id) != AutoName(h.id) {
        if AutoName(hits[i].id) == AutoName(h.id) {
          AutoNameInjective(hits[i].id, h.id);
        }
      }
    }
  }

  /** An existing board whose name has the form `board-NN` is replaced when a
      board with id NN is newly discovered: the write is unconditional. */
  lemma AutoRegisterCanReplaceBoard(boards: map<string, Board>, id: int)
    requires AutoName(id) in boards && boards[AutoName(id)].id != id
    ensures var hits := [Found(id, "", 8200 + id, 8000 + id, 6000 + id, true)];
      AutoRegisterAll(boards, hits, 1).0[AutoName(id)] == AutoBoard(id) != boards[AutoName(id)]
  {
  }

  // ---------------------------------------------------------------- ping

  /** The reply of `ping_board`. */
  datatype PingReply = PingReply(
    board: string, host: string, hostname: string, port: int,
    online: bool, otaOnline: bool, webOnline: bool, apiAvailable: bool, macAddress: Option<string>)

  /** The reply for a registered board given the probe outcomes: the API port
      is tried only when OTA is up. */
  function PingReplyFor(name: string, b: Board, ddnsHost: string, ota: bool, web: Outcome, apiOpen: bool): (r: PingReply)
    ensures r.online <==> ota || WebProbeOnline(web)
    ensures r.apiAvailable <==> ota && apiOpen
    ensures r.port == BoardPorts(b.id).ota && r.macAddress == b.macAddress
  {
    PingReply(name, HostOf(b, ddnsHost), BoardHostname(name, b.id, b.hostname, ddnsHost), BoardPorts(b.id).ota,
      ota || WebProbeOnline(web), ota, WebProbeOnline(web), ota && apiOpen, b.macAddress)
  }

  /** A ping judges a board as a scan does from the same probe outcomes:
      the same online, OTA, web and API verdicts, host, hostname and OTA
      port, so it logs the same status and details. */
  lemma PingAgreesWithScan(name: string, b: Board, ddnsHost: string, p: Probes, timestamp: string)
    ensures var r := PingReplyFor(name, b, ddnsHost, p.ota, p.web, p.apiOpen);
      var s := ScanSingleBoard(name, b, ddnsHost, p);
      && r.online == IsOnline(s) && r.otaOnline == OtaUp(s) && r.webOnline == WebUp(s)
      && r.apiAvailable == ApiUp(s)
      && r.host == s.host && r.hostname == s.hostname && r.port == s.ports.ota
      && PingLogCall(r, timestamp) == LogCall(s, timestamp)
  {
  }

  /** The log call of a ping. */
  function PingLogCall(r: PingReply, timestamp: string): Change {
    Change(r.board, StatusWord(r.online),
      "OTA:" + OkFail(r.otaOnline) + " WEB:" + OkFail(r.webOnline) + " API:" + OkFail(r.apiAvailable), timestamp)
  }

  /** `boards.items()`, in the dict order that `order` lists. */
  function Items(order: seq<string>, boards: map<string, Board>): (items: seq<(string, Board)>)
    requires forall i :: 0 <= i < |order| ==> order[i] in boards
    ensures |items| == |order| && forall i :: 0 <= i < |order| ==> items[i] == (order[i], boards[order[i]])
  {
    seq(|order|, i requires 0 <= i < |order| => (order[i], boards[order[i]]))
  }

  // ---------------------------------------------------------------- the registry

  class BoardRegistry {
    var boards: map<string, Board>

    /** A registry read from boards.yaml. */
    constructor (initial: map<string, Board>)
      ensures boards == initial
    {
      boards := initial;
    }

    /** `create_board`. */
    method Create(req: BoardCreate) returns (r: Result<string, HttpError>)
      modifies this
      ensures r.Ok? <==> CreateBoard(old(boards), req).Some?
      ensures r.Ok? ==> (boards == CreateBoard(old(boards), req).value
        && r.value == "Board '" + req.name + "' created successfully")
      ensures r.Err? ==> boards == old(boards)
      ensures req.name in old(boards) ==> r == Err(AlreadyExists(req.name))
      ensures req.name !in old(boards) && r.Err? ==>
        exists n :: n in old(boards) && old(boards)[n].id == req.id && r.error == IdTaken(req.id, n)
    {
      if req.name in boards {
        return Err(AlreadyExists(req.name));
      }
      if exists n :: n in boards && boards[n].id == req.id {
        var owner :| owner in boards && boards[owner].id == req.id;
        return Err(IdTaken(req.id, owner));
      }
      assert req.id !in KnownIds(boards);
      boards := boards[req.name := NewBoardRecord(req)];
      return Ok("Board '" + req.name + "' created successfully");
    }

    /** `update_board`. */
    method Update(name: string, u: BoardUpdate) returns (r: Result<string, HttpError>)
      modifies this
      ensures var s := UpdateBoard(old(boards), name, u);
        && (s.Err? ==> r == Err(s.error) && boards == old(boards))
        && (s.Ok? ==> r == Ok("Board '" + s.value.1 + "' updated successfully") && boards == s.value.0)
    {
      if name !in boards {
        return Err(NotFound(name));
      }
      var board := boards[name];
      var target := name;
      if u.name.Some? {
        if u.name.value != name && u.name.value in boards {
          return Err(AlreadyExists(u.name.value));
        }
        boards := boards - {name};
        target := u.name.value;
      }
      board := ApplyUpdate(board, u);
      boards := boards[target := board];
      assert u.name.None? ==> boards == (old(boards) - {name})[target := board];
      return Ok("Board '" + target + "' updated successfully");
    }

    /** `delete_board`. */
    method Delete(name: string) returns (r: Result<string, HttpError>)
      modifies this
      ensures var s := DeleteBoard(old(boards), name);
        && (s.Err? ==> r == Err(s.error) && boards == old(boards))
        && (s.Ok? ==> r == Ok("Board '" + name + "' deleted successfully") && boards == s.value)
    {
      if name !in boards {
        return Err(NotFound(name));
      }
      boards := boards - {name};
      return Ok("Board '" + name + "' deleted successfully");
    }

    /** The merge loop of `scan_boards`; `changed` says whether the file
        would be saved. */
    method MergeScanResults(rs: seq<ScanResult>, now: seq<string>) returns (changed: bool)
      requires |now| == |rs|
      modifies this
      ensures (boards, changed) == MergeAll(old(boards), rs, now, |rs|)
    {
      changed := false;
      for i := 0 to |rs|
        invariant (boards, changed) == MergeAll(old(boards), rs, now, i)
      {
        var r := rs[i];
        if r.name in boards {
          var b := boards[r.name];
          var touched := false;
          if Truthy(ResultMac(r)) && !Truthy(b.macAddress) {
            b := b.(macAddress := ResultMac(r));
            touched := true;
          }
          if IsOnline(r) {
            b := b.(lastSeen := Some(now[i]));
            touched := true;
          }
          if ResultSensors(r) != [] {
            b := b.(sensors := ResultSensors(r));
            touched := true;
          }
          boards := boards[r.name := b];
          changed := changed || touched;
        }
      }
    }

    /** `scan_boards`: scan every board in dict order (`order` lists the
        names), log the statuses, then merge the results. */
    method ScanBoards(order: seq<string>, ddnsHost: string, ts: seq<TaskOutcome>, logger: StatusLogger,
                      timestamps: seq<string>, now: seq<string>) returns (results: seq<ScanResult>, changed: bool)
      requires forall i :: 0 <= i < |order| ==> order[i] in boards
      requires forall n :: n in boards ==> n in order
      requires forall p, q :: 0 <= p < q < |order| ==> order[p] != order[q]
      requires |ts| == |order| && |timestamps| == |order| && |now| == |order|
      modifies this, logger
      ensures results == ScanResults(Items(order, old(boards)), ddnsHost, ts)
        && logger.Data() == StepAll(old(logger.Data()), LogCalls(results, timestamps))
        && (boards, changed) == MergeAll(old(boards), results, now, |results|)
    {
      results := ScanAllBoards(Items(order, boards), ddnsHost, ts, logger, timestamps);
      changed := MergeScanResults(results, now);
    }

    /** The auto-register loop of `discover_boards`. */
    method AutoRegister(hits: seq<Found>) returns (registered: seq<string>)
      modifies this
      ensures (boards, registered) == AutoRegisterAll(old(boards), hits, |hits|)
    {
      registered := [];
      for i := 0 to |hits|
        invariant (boards, registered) == AutoRegisterAll(old(boards), hits, i)
      {
        var h := hits[i];
        if h.isNew {
          var name := AutoName(h.id);
          boards := boards[name := AutoBoard(h.id)];
          registered := registered + [name];
        }
      }
    }

    /** `discover_boards`: probe the default port range of the DDNS host,
        then register new boards when asked. */
    method Discover(autoRegister: bool, ddnsHost: string, reachable: int -> bool)
      returns (discovered: seq<Found>, totalFound: nat, newBoards: nat, registered: seq<string>)
      modifies this
      ensures discovered == Hits(ddnsHost, DefaultFirstPort, DefaultEndPort, reachable, KnownIds(old(boards)))
      ensures totalFound == |discovered| && newBoards == CountNew(discovered)
      ensures autoRegister ==> (boards, registered) == AutoRegisterAll(old(boards), discovered, |discovered|)
      ensures !autoRegister ==> boards == old(boards) && registered == []
    {
      var known := KnownIds(boards);
      var probed;
      discovered, probed := DiscoverBoardsOnNetwork(Some(ddnsHost), ddnsHost, DefaultFirstPort, DefaultEndPort, reachable, known);
      registered := [];
      if autoRegister {
        registered := AutoRegister(discovered);
      }
      totalFound := |discovered|;
      newBoards := CountNewOf(discovered);
    }

    /** `ping_board`. */
    method Ping(name: string, ddnsHost: string, ota: bool, web: Outcome, apiOpen: bool, now: string,
                logger: StatusLogger, timestamp: string) returns (r: Result<PingReply, HttpError>)
      modifies this, logger
      ensures name !in old(boards) ==> (r == Err(NotFound(name)) && boards == old(boards)
        && logger.Data() == old(logger.Data()))
      ensures name in old(boards) ==> var reply := PingReplyFor(name, old(boards)[name], ddnsHost, ota, web, apiOpen);
        && r == Ok(reply)
        && boards == (if reply.online then old(boards)[name := old(boards)[name].(lastSeen := Some(now))] else old(boards))
        && logger.Data() == Step(old(logger.Data()), name, StatusWord(reply.online),
             PingLogCall(reply, timestamp).details, timestamp).0
    {
      if name !in boards {
        return Err(NotFound(name));
      }
      var reply := PingReplyFor(name, boards[name], ddnsHost, ota, web, apiOpen);
      if reply.online {
        boards := boards[name := boards[name].(lastSeen := Some(now))];
      }
      var c := PingLogCall(reply, timestamp);
      var _ := logger.LogStatusChange(c.board, c.status, c.details, c.timestamp);
      return Ok(reply);
    }
  }

  /** `sum(1 for b in discovered if b["is_new"])`. */
  method CountNewOf(hits: seq<Found>) returns (count: nat)
    ensures count == CountNew(hits)
  {
    count := 0;
    for i := 0 to |hits|
      invariant count == CountNew(hits[..i])
    {
      assert hits[..i + 1][..i] == hits[..i];
      if hits[i].isNew {
        count := count + 1;
      }
    }
    assert hits[..|hits|] == hits;
  }

  /** With auto-registration the number of names registered is `new_boards`. */
  lemma RegisteredCountIsNewBoards(boards: map<string, Board>, hits: seq<Found>)
    ensures |AutoRegisterAll(boards, hits, |hits|).1| == CountNew(hits)
  {
    AutoRegisterSpec(boards, hits, |hits|);
    assert hits[..|hits|] == hits;
  }
}
