/** OTA delivery of app/services/ota.py: how the outcome of each upload
    request becomes a success flag, a message and a series of progress
    reports; when the web-port fallback is tried; and the byte accounting of
    the chunked sender. File contents, the MD5 digest and the network are not
    modelled: the file's existence and size and each request's outcome are
    inputs. The progress callback is modelled by the list of reports it would
    receive. */
module Ota {
  import opened Wrappers
  import opened Text
  import opened Http

  /** `FlashProgress`. */
  datatype Progress = Progress(percent: int, bytesSent: int, totalBytes: int, message: string)

  /** What one upload produced: `(success, message)` and the reports made. */
  datatype Upload = Upload(success: bool, message: string, reports: seq<Progress>)

  function Percents(reports: seq<Progress>): (ps: seq<int>)
    ensures |ps| == |reports| && forall i :: 0 <= i < |reports| ==> ps[i] == reports[i].percent
  {
    seq(|reports|, i requires 0 <= i < |reports| => reports[i].percent)
  }

  const SuccessMessage: string := "Firmware flashed successfully"

  // ---------------------------------------------------------------- one URL

  /** The message `_try_flash_to_url` returns for an exception. */
  function FailureMessage(f: Failure, target: string): string {
    match f
    case ConnectError(reason) => "Connection failed (" + target + "): " + reason
    case Timeout => "Flash timed out (" + target + ")"
    case OtherError(reason) => "Flash failed (" + target + "): " + reason
  }

  /** `_try_flash_to_url`: 10% before the request, 50% once the board has
      answered, 100% only for status 200. The body is read before the status
      is examined, so an exception while reading it is a failure whatever the
      status. */
  function TryFlashToUrl(o: Outcome, fileSize: int, target: string): Upload {
    var connecting := Progress(10, 0, fileSize, "Connecting to board (" + target + ")...");
    var uploading := Progress(50, fileSize, fileSize, "Uploading firmware (" + target + ")...");
    match o
    case NoResponse(f) => Upload(false, FailureMessage(f, target), [connecting])
    case BodyLost(_, f) => Upload(false, FailureMessage(f, target), [connecting, uploading])
    case Response(status, body) =>
      if status == 200 then
        Upload(true, SuccessMessage,
          [connecting, uploading, Progress(100, fileSize, fileSize, "Flash successful! Board is rebooting...")])
      else
        Upload(false, "Flash failed: HTTP " + IntToString(status) + " - " + body, [connecting, uploading])
  }

  /** A single attempt succeeds exactly on status 200 with its body read; any
      other status reports the board's answer. */
  lemma TryFlashToUrlSpec(o: Outcome, fileSize: int, target: string)
    ensures TryFlashToUrl(o, fileSize, target).success <==> o.Response? && o.status == 200
    ensures o.Response? && o.status != 200 ==>
      TryFlashToUrl(o, fileSize, target).message == "Flash failed: HTTP " + IntToString(o.status) + " - " + o.body
    ensures !o.Response? ==> TryFlashToUrl(o, fileSize, target).message == FailureMessage(o.failure, target)
    ensures TryFlashToUrl(Response(204, ""), fileSize, target).success == false
  {
  }

  /** The progress percentages of one attempt, by outcome. */
  lemma TryFlashToUrlPercents(o: Outcome, fileSize: int, target: string)
    ensures var ps := Percents(TryFlashToUrl(o, fileSize, target).reports);
      && (o.NoResponse? ==> ps == [10])
      && (o.BodyLost? ==> ps == [10, 50])
      && (o.Response? ==> ps == if o.status == 200 then [10, 50, 100] else [10, 50])
  {
  }

  /** The three exception messages are told apart by their text, and none
      looks like an HTTP failure. */
  lemma FailureMessagesDistinct(target: string, r1: string, r2: string, status: int, body: string)
    ensures FailureMessage(ConnectError(r1), target) != FailureMessage(Timeout, target)
    ensures FailureMessage(ConnectError(r1), target) != FailureMessage(OtherError(r2), target)
    ensures FailureMessage(Timeout, target) != FailureMessage(OtherError(r2), target)
    ensures FailureMessage(OtherError(r2), target) != "Flash failed: HTTP " + IntToString(status) + " - " + body
  {
    var c, t, e := FailureMessage(ConnectError(r1), target), FailureMessage(Timeout, target), FailureMessage(OtherError(r2), target);
    assert c[0] == 'C' && t[0] == 'F' && e[0] == 'F';
    assert t[6] == 't' && e[6] == 'f';
    var h := "Flash failed: HTTP " + IntToString(status) + " - " + body;
    assert e[12] == ' ' && h[12] == ':';
  }

  /** Each exception message names the attempt's label right after its
      opening text. */
  lemma FailureMessagesCarryLabel(target: string, r: string)
    ensures FailureMessage(ConnectError(r), target)[19..19 + |target|] == target
    ensures FailureMessage(Timeout, target)[17..17 + |target|] == target
    ensures FailureMessage(OtherError(r), target)[14..14 + |target|] == target
  {
    var c, t, e := FailureMessage(ConnectError(r), target), FailureMessage(Timeout, target), FailureMessage(OtherError(r), target);
    assert c == "Connection failed (" + target + ("): " + r);
    assert t == "Flash timed out (" + target + ")";
    assert e == "Flash failed (" + target + ("): " + r);
  }

  // ---------------------------------------------------------------- with fallback

  /** `webserver_port and web_username and web_password`. */
  predicate FallbackEnabled(webPort: Option<int>, user: Option<string>, password: Option<string>) {
    webPort.Some? && webPort.value != 0 && Truthy(user) && Truthy(password)
  }

  /** `flash_firmware`: `present` and `fileSize` describe the file; `primary`
      and `fallback` are the outcomes of the OTA-port and web-port uploads. */
  function FlashFirmware(
    path: string, present: bool, fileSize: int, port: int, primary: Outcome,
    webPort: Option<int>, user: Option<string>, password: Option<string>, fallback: Outcome): Upload
  {
    if !present then Upload(false, "Firmware file not found: " + path, [])
    else
      var preparing := [Progress(0, 0, fileSize, "Preparing upload...")];
      var p := TryFlashToUrl(primary, fileSize, "OTA:" + IntToString(port));
      if p.success then Upload(true, p.message, preparing + p.reports)
      else if FallbackEnabled(webPort, user, password) then
        var switching := Progress(5, 0, fileSize,
          "OTA port failed, trying web_server port " + IntToString(webPort.value) + "...");
        var w := TryFlashToUrl(fallback, fileSize, "WEB:" + IntToString(webPort.value));
        var reports := preparing + p.reports + [switching] + w.reports;
        if w.success then Upload(true, w.message, reports)
        else Upload(false, "OTA failed: " + p.message + " | Web fallback failed: " + w.message, reports)
      else Upload(false, p.message, preparing + p.reports)
  }

  /** The overall outcome: a missing file fails before any report; otherwise
      the upload succeeds iff the OTA port answers 200, or it does not, the
      fallback is enabled and the web port answers 200. Without the fallback
      a failure returns the primary attempt's message unchanged; with it,
      both messages are joined. */
  lemma FlashFirmwareSpec(
    path: string, present: bool, fileSize: int, port: int, primary: Outcome,
    webPort: Option<int>, user: Option<string>, password: Option<string>, fallback: Outcome)
    ensures var u := FlashFirmware(path, present, fileSize, port, primary, webPort, user, password, fallback);
      var p := TryFlashToUrl(primary, fileSize, "OTA:" + IntToString(port));
      var primaryOk := primary.Response? && primary.status == 200;
      var fallbackOk := fallback.Response? && fallback.status == 200;
      && (!present ==> !u.success && u.message == "Firmware file not found: " + path && u.reports == [])
      && (present ==> (u.success <==> primaryOk || (FallbackEnabled(webPort, user, password) && fallbackOk)))
      && (present && !primaryOk && !FallbackEnabled(webPort, user, password) ==> u.message == p.message)
      && (present && !primaryOk && FallbackEnabled(webPort, user, password) && !fallbackOk ==>
            u.message == "OTA failed: " + p.message + " | Web fallback failed: "
              + TryFlashToUrl(fallback, fileSize, "WEB:" + IntToString(webPort.value)).message)
  {
    TryFlashToUrlSpec(primary, fileSize, "OTA:" + IntToString(port));
    if webPort.Some? {
      TryFlashToUrlSpec(fallback, fileSize, "WEB:" + IntToString(webPort.value));
    }
  }

  /** The reports start at 0%; without the fallback a failed upload ends at
      10% or 50% and never reaches 100%. */
  lemma FlashFirmwareNoFallbackPercents(
    path: string, fileSize: int, port: int, primary: Outcome,
    webPort: Option<int>, user: Option<string>, password: Option<string>, fallback: Outcome)
    requires !FallbackEnabled(webPort, user, password)
    ensures var u := FlashFirmware(path, true, fileSize, port, primary, webPort, user, password, fallback);
      var ps := Percents(u.reports);
      && |ps| >= 2 && ps[0] == 0
      && (!u.success ==> ps[|ps| - 1] in {10, 50} && 100 !in ps)
      && (u.success ==> ps == [0, 10, 50, 100])
  {
    var target := "OTA:" + IntToString(port);
    TryFlashToUrlPercents(primary, fileSize, target);
    var p := TryFlashToUrl(primary, fileSize, target);
    var preparing := [Progress(0, 0, fileSize, "Preparing upload...")];
    assert Percents(preparing + p.reports) == [0] + Percents(p.reports);
  }

  /** The fallback's 5% report comes after the primary's 10% or 50%, so the
      reported progress can go down. */
  lemma FallbackProgressGoesDown(path: string, fileSize: int, port: int, webPort: int, user: string, password: string,
                                 fallback: Outcome)
    requires webPort != 0 && user != "" && password != ""
    ensures var u := FlashFirmware(path, true, fileSize, port, Response(500, ""),
                                   Some(webPort), Some(user), Some(password), fallback);
      |u.reports| >= 4 && Percents(u.reports)[..4] == [0, 10, 50, 5]
  {
  }

  // ---------------------------------------------------------------- chunked upload

  /** Length of the next `f.read(chunkSize)` with `remaining` bytes left:
      a negative size reads to the end. */
  function ReadLength(remaining: nat, chunkSize: int): (n: nat)
    ensures n <= remaining
    ensures remaining > 0 && chunkSize != 0 ==> n > 0
    ensures chunkSize > 0 ==> n <= chunkSize
  {
    if chunkSize < 0 then remaining
    else if chunkSize < remaining then chunkSize else remaining
  }

  /** The lengths of the chunks `file_sender` reads from a file of `size`
      bytes; `read(0)` returns nothing, which ends the loop at once. */
  function Chunks(size: nat, chunkSize: int): seq<nat>
    decreases size
  {
    if size == 0 || chunkSize == 0 then []
    else var n := ReadLength(size, chunkSize); [n] + Chunks(size - n, chunkSize)
  }

  function Sum(cs: seq<nat>): nat
    decreases |cs|
  {
    if cs == [] then 0 else Sum(cs[..|cs| - 1]) + cs[|cs| - 1]
  }

  /** The chunks are non-empty, no larger than a positive chunk size, and
      together they are the whole file (unless the chunk size is 0). */
  lemma {:induction false} ChunksSpec(size: nat, chunkSize: int)
    ensures var cs := Chunks(size, chunkSize);
      && (forall k :: 0 <= k < |cs| ==> cs[k] > 0 && (chunkSize > 0 ==> cs[k] <= chunkSize))
      && Sum(cs) == (if chunkSize == 0 then 0 else size)
    decreases size
  {
    if size > 0 && chunkSize != 0 {
      var n := ReadLength(size, chunkSize);
      ChunksSpec(size - n, chunkSize);
      SumCons(n, Chunks(size - n, chunkSize));
    }
  }

  lemma {:induction false} SumCons(n: nat, cs: seq<nat>)
    ensures Sum([n] + cs) == n + Sum(cs)
    decreases |cs|
  {
    if cs != [] {
      var init := cs[..|cs| - 1];
      assert ([n] + cs)[..|cs|] == [n] + init;
      SumCons(n, init);
    }
  }

  /** `int((bytes_sent / file_size) * 100)`, taken as the floor of the exact
      quotient. */
  function Percent(sent: nat, size: nat): int
    requires size > 0
  {
    sent * 100 / size
  }

  /** The report made after a chunk, once `sent` bytes have gone out. */
  function SenderReport(sent: nat, size: nat): Progress
    requires size > 0
  {
    Progress(Percent(sent, size), sent, size, "Uploading: " + NatToString(sent) + "/" + NatToString(size) + " bytes")
  }

  /** The reports of `file_sender` after the chunks `cs`. */
  function SenderReports(cs: seq<nat>, size: nat): (rs: seq<Progress>)
    requires cs == [] || size > 0
    ensures |rs| == |cs|
    decreases |cs|
  {
    if cs == [] then [] else SenderReports(cs[..|cs| - 1], size) + [SenderReport(Sum(cs), size)]
  }

  /** `file_sender`, as a loop over the file: returns the bytes sent, the
      chunk lengths and the reports made. */
  method FileSender(size: nat, chunkSize: int) returns (sent: nat, chunks: seq<nat>, reports: seq<Progress>)
    ensures chunks == Chunks(size, chunkSize) && sent == Sum(chunks)
    ensures (chunks == [] || size > 0) && reports == SenderReports(chunks, size)
  {
    sent, chunks, reports := 0, [], [];
    while sent < size && chunkSize != 0
      invariant sent <= size && sent == Sum(chunks)
      invariant chunks + Chunks(size - sent, chunkSize) == Chunks(size, chunkSize)
      invariant (chunks == [] || size > 0) && reports == SenderReports(chunks, size)
      decreases size - sent
    {
      var n := ReadLength(size - sent, chunkSize);
      assert Chunks(size - sent, chunkSize) == [n] + Chunks(size - sent - n, chunkSize);
      assert (chunks + [n])[..|chunks|] == chunks;
      chunks := chunks + [n];
      sent := sent + n;
      reports := reports + [SenderReport(sent, size)];
    }
  }

  /** Report `k` is made after chunk `k`: it carries the bytes of the first
      `k + 1` chunks. */
  lemma {:induction false} SenderReportsAt(cs: seq<nat>, size: nat)
    requires cs == [] || size > 0
    ensures forall k :: 0 <= k < |cs| ==> SenderReports(cs, size)[k] == SenderReport(Sum(cs[..k + 1]), size)
    decreases |cs|
  {
    if cs != [] {
      var init := cs[..|cs| - 1];
      SenderReportsAt(init, size);
      assert cs[..|cs|] == cs;
      forall k | 0 <= k < |init| ensures SenderReports(cs, size)[k] == SenderReport(Sum(cs[..k + 1]), size) {
        assert cs[..k + 1] == init[..k + 1];
      }
    }
  }

  /** Running sums grow along the sequence. */
  lemma {:induction false} SumPrefixMono(cs: seq<nat>, i: nat, j: nat)
    requires i <= j <= |cs|
    ensures Sum(cs[..i]) <= Sum(cs[..j])
    decreases j - i
  {
    if i < j {
      SumPrefixMono(cs, i, j - 1);
      assert cs[..j][..j - 1] == cs[..j - 1];
    }
  }

  /** The reports of the sender: one per chunk, each carrying the running
      byte total, percentages within 0..100 that never decrease, and the last
      at 100% once the whole file is sent. */
  lemma SenderReportsSpec(cs: seq<nat>, size: nat)
    requires size > 0 && Sum(cs) <= size
    ensures var rs := SenderReports(cs, size);
      && (forall k :: 0 <= k < |rs| ==> rs[k].bytesSent == Sum(cs[..k + 1]) && rs[k].totalBytes == size)
      && (forall k :: 0 <= k < |rs| ==> 0 <= rs[k].percent <= 100)
      && (forall k :: 0 < k < |rs| ==> rs[k - 1].percent <= rs[k].percent)
      && (rs != [] && Sum(cs) == size ==> rs[|rs| - 1].percent == 100)
  {
    SenderReportsAt(cs, size);
    assert cs[..|cs|] == cs;
    var rs := SenderReports(cs, size);
    forall k | 0 <= k < |rs| ensures 0 <= rs[k].percent <= 100 {
      SumPrefixMono(cs, k + 1, |cs|);
      PercentBounds(Sum(cs[..k + 1]), size);
    }
    forall k | 0 < k < |rs| ensures rs[k - 1].percent <= rs[k].percent {
      SumPrefixMono(cs, k, k + 1);
      PercentMono(Sum(cs[..k]), Sum(cs[..k + 1]), size);
    }
    if rs != [] && Sum(cs) == size {
      PercentBounds(size, size);
    }
  }

  lemma PercentBounds(sent: nat, size: nat)
    requires 0 < size && sent <= size
    ensures 0 <= Percent(sent, size) <= 100
    ensures sent == size ==> Percent(sent, size) == 100
  {
    DivMono(sent * 100, size * 100, size);
    assert size * 100 / size == 100 by {
      DivExact(100, size);
    }
  }

  lemma PercentMono(a: nat, b: nat, size: nat)
    requires 0 < size && a <= b
    ensures Percent(a, size) <= Percent(b, size)
  {
    DivMono(a * 100, b * 100, size);
  }

  /** Floor division by a positive number is monotone. */
  lemma DivMono(x: nat, y: nat, d: nat)
    requires 0 < d && x <= y
    ensures x / d <= y / d
  {
    var qx: nat, qy: nat := x / d, y / d;
    var next: nat := qy + 1;
    assert x == d * qx + x % d && 0 <= x % d < d;
    assert y == d * qy + y % d && 0 <= y % d < d;
    assert d * next == d * qy + d;
    MulStrict(d, qx, next);
  }

  lemma MulMono(d: nat, a: nat, b: nat)
    requires a <= b
    ensures d * a <= d * b
  {
  }

  /** Multiplication by a natural number reflects strict order. */
  lemma MulStrict(d: nat, a: nat, b: nat)
    ensures d * a < d * b ==> a < b
  {
    if b <= a {
      MulMono(d, b, a);
    }
  }

  lemma DivExact(k: nat, d: nat)
    requires 0 < d
    ensures d * k / d == k
  {
    var q: nat := d * k / d;
    var q1: nat, k1: nat := q + 1, k + 1;
    assert d * k == d * q + (d * k) % d && 0 <= (d * k) % d < d;
    assert d * q1 == d * q + d && d * k1 == d * k + d;
    MulStrict(d, q, k1);
    MulStrict(d, k, q1);
  }

  /** The sender makes no report for an empty file, and reports from 1% of
      progress per chunk upwards otherwise, ending at 100%. */
  lemma FileSenderEnds(size: nat, chunkSize: int)
    requires chunkSize != 0
    ensures var cs := Chunks(size, chunkSize);
      && (size == 0 ==> cs == [])
      && (size > 0 ==> cs != [] && Sum(cs) == size && SenderReports(cs, size)[|cs| - 1].percent == 100)
  {
    ChunksSpec(size, chunkSize);
    if size > 0 {
      SenderReportsSpec(Chunks(size, chunkSize), size);
    }
  }

  /** The text of an exception as `str(e)` prints it; a timeout has none. */
  function FailureText(f: Failure): string {
    match f
    case ConnectError(reason) => reason
    case Timeout => ""
    case OtherError(reason) => reason
  }

  /** `flash_firmware_chunked`: the sender's reports go out while the request
      body is streamed (`consumed` is how many chunks were pulled before an
      exception without a response); the body of a 200 answer is never read. */
  function FlashFirmwareChunked(path: string, present: bool, size: nat, chunkSize: int, o: Outcome, consumed: nat): Upload
  {
    if !present then Upload(false, "Firmware file not found: " + path, [])
    else
      var cs := Chunks(size, chunkSize);
      ChunksNonEmpty(size, chunkSize);
      var all := SenderReports(cs, size);
      match o
      case NoResponse(f) =>
        Upload(false, "Flash failed: " + FailureText(f), all[..if consumed <= |all| then consumed else |all|])
      case BodyLost(status, f) =>
        if status == 200 then Upload(true, SuccessMessage, all + [Progress(100, size, size, "Flash successful!")])
        else Upload(false, "Flash failed: " + FailureText(f), all)
      case Response(status, body) =>
        if status == 200 then Upload(true, SuccessMessage, all + [Progress(100, size, size, "Flash successful!")])
        else Upload(false, "Flash failed: HTTP " + IntToString(status) + " - " + body, all)
  }

  lemma ChunksNonEmpty(size: nat, chunkSize: int)
    ensures Chunks(size, chunkSize) == [] || size > 0
  {
  }

  /** The chunked upload succeeds iff the status line says 200, in which case
      the last report is 100%. */
  lemma FlashFirmwareChunkedSpec(path: string, size: nat, chunkSize: int, o: Outcome, consumed: nat)
    ensures var u := FlashFirmwareChunked(path, true, size, chunkSize, o, consumed);
      && (u.success <==> !o.NoResponse? && o.status == 200)
      && (u.success ==> u.reports != [] && u.reports[|u.reports| - 1].percent == 100)
  {
  }

  /** `check_ota_available`: the update endpoint present when it answers 200,
      or 405 to a GET on a POST-only route; only the status line is used. */
  predicate CheckOtaAvailable(o: Outcome) {
    !o.NoResponse? && (o.status == 200 || o.status == 405)
  }

  /** Present exactly for a 200 or 405 whose status line arrived, whatever
      the body and whether reading it failed. */
  lemma CheckOtaAvailableSpec(o: Outcome)
    ensures CheckOtaAvailable(o) <==> (o.Response? || o.BodyLost?) && o.status in {200, 405}
    ensures !CheckOtaAvailable(Response(404, "")) && !CheckOtaAvailable(NoResponse(Timeout))
    ensures !o.NoResponse? ==> (CheckOtaAvailable(o) <==> CheckOtaAvailable(Response(o.status, "")))
  {
  }
}
