/** The board status log of app/services/status_logger.py: a map from board to
    its last recorded status and a list of transitions, capped at the newest
    500. A transition is recorded only when a board's status differs from the
    one stored for it. Loading and saving the YAML file is left to the caller:
    the logger object is the loaded document. */
module StatusLog {
  import opened Wrappers
  import opened Text

  /** Maximum number of entries kept after a change is logged. */
  const MaxEntries: int := 500

  /** Status assumed for a board that has never been logged. */
  const UnknownStatus: string := "unknown"

  datatype Entry = Entry(timestamp: string, boardName: string, event: string, details: string)

  /** The whole stored document: `{"last_status": ..., "logs": ...}`. */
  datatype LogData = LogData(lastStatus: map<string, string>, logs: seq<Entry>)

  function Min(a: int, b: int): int { if a <= b then a else b }

  /** `last_status.get(board, "unknown")`. */
  function LastStatusOf(last: map<string, string>, board: string): string {
    if board in last then last[board] else UnknownStatus
  }

  /** Python's `s[-k:]`: the last k items for k > 0, everything for k == 0
      (since -0 is 0), and everything but the first -k items for k < 0. */
  function TakeLast<T>(s: seq<T>, k: int): (r: seq<T>)
    ensures |r| <= |s| && r == s[|s| - |r|..]
    ensures k > 0 ==> |r| == Min(k, |s|)
    ensures k == 0 ==> r == s
    ensures k < 0 ==> |r| == |s| - Min(-k, |s|)
  {
    if k > 0 then (if k >= |s| then s else s[|s| - k..])
    else if k == 0 then s
    else s[Min(-k, |s|)..]
  }

  /** `trim_log`: keep the newest `maxEntries` entries when there are more. */
  function Trimmed(logs: seq<Entry>, maxEntries: int): seq<Entry> {
    if |logs| > maxEntries then TakeLast(logs, maxEntries) else logs
  }

  /** A trimmed log is a suffix of the log, so the entries it keeps are the
      newest ones in their original order; with a positive cap it holds
      exactly min(cap, n) of them, and a log within the cap is untouched. */
  lemma TrimmedSpec(logs: seq<Entry>, maxEntries: int)
    ensures |Trimmed(logs, maxEntries)| <= |logs|
    ensures Trimmed(logs, maxEntries) == logs[|logs| - |Trimmed(logs, maxEntries)|..]
    ensures maxEntries > 0 ==> |Trimmed(logs, maxEntries)| == Min(maxEntries, |logs|)
    ensures |logs| <= maxEntries ==> Trimmed(logs, maxEntries) == logs
  {
  }

  /** `log_status_change` on the loaded document: the new document and the
      returned flag. */
  function Step(d: LogData, board: string, status: string, details: string, timestamp: string): (LogData, bool) {
    if status == LastStatusOf(d.lastStatus, board) then (d, false)
    else
      (LogData(d.lastStatus[board := status],
               Trimmed(d.logs + [Entry(timestamp, board, status, details)], MaxEntries)),
       true)
  }

  /** What one call does: a repeated status changes nothing and returns
      False; any other status appends exactly one entry, records the status,
      returns True and leaves at most 500 entries, the newest ones. */
  lemma StepSpec(d: LogData, board: string, status: string, details: string, timestamp: string)
    ensures Step(d, board, status, details, timestamp).1 <==> status != LastStatusOf(d.lastStatus, board)
    ensures !Step(d, board, status, details, timestamp).1 ==> Step(d, board, status, details, timestamp).0 == d
    ensures Step(d, board, status, details, timestamp).1 ==>
      var d' := Step(d, board, status, details, timestamp).0;
      && d'.lastStatus == d.lastStatus[board := status]
      && |d'.logs| <= MaxEntries
      && |d'.logs| == Min(MaxEntries, |d.logs| + 1)
      && d'.logs == (d.logs + [Entry(timestamp, board, status, details)])[|d.logs| + 1 - |d'.logs|..]
      && d'.logs[|d'.logs| - 1] == Entry(timestamp, board, status, details)
  {
    TrimmedSpec(d.logs + [Entry(timestamp, board, status, details)], MaxEntries);
  }

  /** Logging the same status twice in a row records it once. */
  lemma RepeatIsNoOp(d: LogData, board: string, status: string, details: string, details': string, t: string, t': string)
    ensures var d1 := Step(d, board, status, details, t).0;
      Step(d1, board, status, details', t') == (d1, false)
  {
  }

  // ---------------------------------------------------------------- per-board view

  /** The entries of one board, in log order (the filter of `get_status_log`). */
  function ForBoard(logs: seq<Entry>, board: string): (r: seq<Entry>)
    ensures |r| <= |logs|
    ensures forall i :: 0 <= i < |r| ==> r[i].boardName == board
    ensures forall e :: e in r <==> e in logs && e.boardName == board
    decreases |logs|
  {
    if logs == [] then []
    else
      var init := ForBoard(logs[..|logs| - 1], board);
      var last := logs[|logs| - 1];
      assert logs == logs[..|logs| - 1] + [last];
      if last.boardName == board then init + [last] else init
  }

  lemma ForBoardAppend(logs: seq<Entry>, e: Entry, board: string)
    ensures ForBoard(logs + [e], board) == ForBoard(logs, board) + (if e.boardName == board then [e] else [])
  {
    assert (logs + [e])[..|logs|] == logs;
  }

  /** Filtering distributes over concatenation. */
  lemma {:induction false} ForBoardConcat(a: seq<Entry>, b: seq<Entry>, board: string)
    ensures ForBoard(a + b, board) == ForBoard(a, board) + ForBoard(b, board)
    decreases |b|
  {
    if b == [] {
      assert a + b == a;
    } else {
      var init := b[..|b| - 1];
      var x := b[|b| - 1];
      assert b == init + [x];
      assert a + b == (a + init) + [x];
      ForBoardConcat(a, init, board);
      ForBoardAppend(a + init, x, board);
      ForBoardAppend(init, x, board);
    }
  }

  /** The entries of a board in a suffix of the log are a suffix of its
      entries in the whole log. */
  lemma ForBoardSuffix(logs: seq<Entry>, k: nat, board: string) returns (j: nat)
    requires k <= |logs|
    ensures j <= |ForBoard(logs, board)| && ForBoard(logs[k..], board) == ForBoard(logs, board)[j..]
  {
    assert logs == logs[..k] + logs[k..];
    ForBoardConcat(logs[..k], logs[k..], board);
    j := |ForBoard(logs[..k], board)|;
  }

  /** No two consecutive entries carry the same event. */
  predicate NoRepeat(es: seq<Entry>) {
    forall i :: 0 <= i < |es| - 1 ==> es[i].event != es[i + 1].event
  }

  /** The dedup invariant for one board: consecutive surviving entries
      differ in event, and its newest surviving entry carries the status the
      map records for it. */
  ghost predicate ConsistentFor(d: LogData, board: string) {
    && NoRepeat(ForBoard(d.logs, board))
    && (ForBoard(d.logs, board) != [] ==>
          board in d.lastStatus && ForBoard(d.logs, board)[|ForBoard(d.logs, board)| - 1].event == d.lastStatus[board])
  }

  /** The dedup invariant, for every board. */
  ghost predicate Consistent(d: LogData) {
    forall board :: ConsistentFor(d, board)
  }

  lemma NoRepeatSuffix(es: seq<Entry>, j: nat)
    requires NoRepeat(es) && j <= |es|
    ensures NoRepeat(es[j..])
  {
    forall i | 0 <= i < |es[j..]| - 1 ensures es[j..][i].event != es[j..][i + 1].event {
      assert es[j..][i] == es[j + i] && es[j..][i + 1] == es[j + i + 1];
    }
  }

  lemma NoRepeatAppend(es: seq<Entry>, e: Entry)
    requires NoRepeat(es) && (es != [] ==> es[|es| - 1].event != e.event)
    ensures NoRepeat(es + [e])
  {
    forall i | 0 <= i < |es + [e]| - 1 ensures (es + [e])[i].event != (es + [e])[i + 1].event {
      if i < |es| - 1 {
        assert (es + [e])[i] == es[i] && (es + [e])[i + 1] == es[i + 1];
      }
    }
  }

  lemma ConsistentForSuffix(d: LogData, k: nat, board: string)
    requires ConsistentFor(d, board) && k <= |d.logs|
    ensures ConsistentFor(LogData(d.lastStatus, d.logs[k..]), board)
  {
    var whole := ForBoard(d.logs, board);
    var j := ForBoardSuffix(d.logs, k, board);
    NoRepeatSuffix(whole, j);
  }

  /** Dropping the oldest entries keeps the dedup invariant. */
  lemma ConsistentSuffix(d: LogData, k: nat)
    requires Consistent(d) && k <= |d.logs|
    ensures Consistent(LogData(d.lastStatus, d.logs[k..]))
  {
    forall board ensures ConsistentFor(LogData(d.lastStatus, d.logs[k..]), board) {
      ConsistentForSuffix(d, k, board);
    }
  }

  /** Appending a change of `board` to `status` and recording it keeps the
      invariant of every board `b`. */
  lemma ConsistentForAppend(d: LogData, board: string, e: Entry, b: string)
    requires ConsistentFor(d, b) && e.boardName == board
    requires e.event != LastStatusOf(d.lastStatus, board)
    ensures ConsistentFor(LogData(d.lastStatus[board := e.event], d.logs + [e]), b)
  {
    ForBoardAppend(d.logs, e, b);
    var before := ForBoard(d.logs, b);
    if b == board {
      NoRepeatAppend(before, e);
    }
  }

  /** Every call of `log_status_change` keeps the dedup invariant. */
  lemma StepPreservesConsistent(d: LogData, board: string, status: string, details: string, timestamp: string)
    requires Consistent(d)
    ensures Consistent(Step(d, board, status, details, timestamp).0)
  {
    if status != LastStatusOf(d.lastStatus, board) {
      var e := Entry(timestamp, board, status, details);
      var grown := LogData(d.lastStatus[board := status], d.logs + [e]);
      forall b ensures ConsistentFor(grown, b) {
        ConsistentForAppend(d, board, e, b);
      }
      var k := |grown.logs| - |Trimmed(grown.logs, MaxEntries)|;
      TrimmedSpec(grown.logs, MaxEntries);
      ConsistentSuffix(grown, k);
      assert Step(d, board, status, details, timestamp).0 == LogData(grown.lastStatus, grown.logs[k..]);
    }
  }

  // ---------------------------------------------------------------- a batch of calls

  /** One call of `log_status_change(board, status, details)` at `timestamp`. */
  datatype Change = Change(board: string, status: string, details: string, timestamp: string)

  /** The document after the calls in `cs`, made in order. */
  function StepAll(d: LogData, cs: seq<Change>): LogData
    decreases |cs|
  {
    if cs == [] then d
    else
      var c := cs[|cs| - 1];
      Step(StepAll(d, cs[..|cs| - 1]), c.board, c.status, c.details, c.timestamp).0
  }

  /** A batch that repeats every board's recorded status changes nothing. */
  lemma {:induction false} StepAllRepeatsNothing(d: LogData, cs: seq<Change>)
    requires forall i :: 0 <= i < |cs| ==> cs[i].status == LastStatusOf(d.lastStatus, cs[i].board)
    ensures StepAll(d, cs) == d
    decreases |cs|
  {
    if cs != [] {
      StepAllRepeatsNothing(d, cs[..|cs| - 1]);
    }
  }

  /** After a batch in which every board occurs once, each board's recorded
      status is the one the batch gave it. */
  lemma {:induction false} StepAllRecordsStatus(d: LogData, cs: seq<Change>, i: nat)
    requires forall p, q :: 0 <= p < q < |cs| ==> cs[p].board != cs[q].board
    requires i < |cs|
    ensures LastStatusOf(StepAll(d, cs).lastStatus, cs[i].board) == cs[i].status
    decreases |cs|
  {
    var init := cs[..|cs| - 1];
    var c := cs[|cs| - 1];
    var prev := StepAll(d, init);
    if i < |cs| - 1 {
      StepAllRecordsStatus(d, init, i);
      assert init[i] == cs[i];
      assert c.board != cs[i].board;
    }
  }

  /** Scanning twice while every board keeps its status adds no entry the
      second time. */
  lemma RescanAddsNothing(d: LogData, first: seq<Change>, second: seq<Change>)
    requires forall p, q :: 0 <= p < q < |first| ==> first[p].board != first[q].board
    requires |second| == |first|
    requires forall i :: 0 <= i < |first| ==> second[i].board == first[i].board && second[i].status == first[i].status
    ensures StepAll(StepAll(d, first), second) == StepAll(d, first)
  {
    var d1 := StepAll(d, first);
    forall i | 0 <= i < |second| ensures second[i].status == LastStatusOf(d1.lastStatus, second[i].board) {
      StepAllRecordsStatus(d, first, i);
    }
    StepAllRepeatsNothing(d1, second);
  }

  /** A batch keeps the dedup invariant. */
  lemma {:induction false} StepAllPreservesConsistent(d: LogData, cs: seq<Change>)
    requires Consistent(d)
    ensures Consistent(StepAll(d, cs))
    decreases |cs|
  {
    if cs != [] {
      var c := cs[|cs| - 1];
      StepAllPreservesConsistent(d, cs[..|cs| - 1]);
      StepPreservesConsistent(StepAll(d, cs[..|cs| - 1]), c.board, c.status, c.details, c.timestamp);
    }
  }

  // ---------------------------------------------------------------- reading the log

  function Reverse<T>(s: seq<T>): (r: seq<T>)
    ensures |r| == |s| && forall i :: 0 <= i < |s| ==> r[i] == s[|s| - 1 - i]
  {
    seq(|s|, i requires 0 <= i < |s| => s[|s| - 1 - i])
  }

  /** `get_status_log(limit, board_name)`: the entries of the named board (of
      all boards when no name, or an empty one, is given), `logs[-limit:]`,
      newest first. */
  function RecentEntries(logs: seq<Entry>, limit: int, board: Option<string>): seq<Entry> {
    var filtered := if Truthy(board) then ForBoard(logs, board.value) else logs;
    Reverse(TakeLast(filtered, limit))
  }

  /** The result lists the newest filtered entries, newest first: min(limit, n)
      of them for a positive limit, all n of them for limit 0, and all but
      the oldest -limit of them for a negative limit. */
  lemma RecentEntriesSpec(logs: seq<Entry>, limit: int, board: Option<string>)
    ensures var f := if Truthy(board) then ForBoard(logs, board.value) else logs;
      var r := RecentEntries(logs, limit, board);
      && |r| <= |f|
      && (forall i :: 0 <= i < |r| ==> r[i] == f[|f| - 1 - i])
      && (limit > 0 ==> |r| == Min(limit, |f|))
      && (limit == 0 ==> |r| == |f|)
      && (limit < 0 ==> |r| == |f| - Min(-limit, |f|))
      && (Truthy(board) ==> forall i :: 0 <= i < |r| ==> r[i].boardName == board.value)
  {
  }

  // ---------------------------------------------------------------- the stored document

  class StatusLogger {
    var lastStatus: map<string, string>
    var logs: seq<Entry>

    function Data(): LogData
      reads this
    {
      LogData(lastStatus, logs)
    }

    /** The document `_load_status_log` returns when there is no file. */
    constructor ()
      ensures Data() == LogData(map[], [])
      ensures Consistent(Data())
    {
      lastStatus := map[];
      logs := [];
    }

    /** A document read back from the file. */
    constructor Restore(d: LogData)
      ensures Data() == d
    {
      lastStatus := d.lastStatus;
      logs := d.logs;
    }

    /** `get_last_statuses`: under the invariant, the map agrees with each
        logged board's newest entry. */
    function LastStatuses(): (m: map<string, string>)
      reads this
      ensures Consistent(Data()) ==> forall board ::
        ForBoard(logs, board) != [] ==> board in m && m[board] == ForBoard(logs, board)[|ForBoard(logs, board)| - 1].event
    {
      assert forall board :: Consistent(Data()) && ForBoard(logs, board) != [] ==> ConsistentFor(Data(), board);
      lastStatus
    }

    /** `trim_log(data, max_entries)`. */
    method TrimLog(maxEntries: int)
      modifies this
      ensures logs == Trimmed(old(logs), maxEntries) && lastStatus == old(lastStatus)
    {
      if |logs| > maxEntries {
        logs := TakeLast(logs, maxEntries);
      }
    }

    /** `log_status_change`. */
    method LogStatusChange(board: string, status: string, details: string, timestamp: string) returns (changed: bool)
      modifies this
      ensures (Data(), changed) == Step(old(Data()), board, status, details, timestamp)
      ensures Consistent(old(Data())) ==> Consistent(Data())
    {
      ghost var before := Data();
      if Consistent(before) {
        StepPreservesConsistent(before, board, status, details, timestamp);
      }
      var oldStatus := LastStatusOf(lastStatus, board);
      if status == oldStatus {
        return false;
      }
      logs := logs + [Entry(timestamp, board, status, details)];
      lastStatus := lastStatus[board := status];
      TrimLog(MaxEntries);
      return true;
    }
  }
}
