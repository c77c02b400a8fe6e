/** The relay server's terminal dashboard, without the widgets: the bounded
    log buffer, the filter by contract id, the lines the log box shows, and the
    rows of the pending and recent relay tables built from the server state. */
module Dashboard {
  import opened Shared
  import Strings
  import Relay

  datatype Level = Info | Error | Warn | Debug

  datatype LogEntry = LogEntry(timestamp: string, message: string, relatedId: Option<string>, level: Level)

  /** Constructor options; an absent option is `None`. */
  datatype DashboardOptions = DashboardOptions(updateInterval: Option<nat>, maxLogs: Option<nat>)

  /** One row of a relay table: contract id, amount, third column. */
  datatype Row = Row(contractId: string, amount: string, third: string)

  /** `option || fallback`: an absent or zero option gives the fallback. */
  function OrDefault(option: Option<nat>, fallback: nat): (r: nat)
    ensures option.Some? && option.value != 0 ==> r == option.value
    ensures option.None? || option.value == 0 ==> r == fallback
  {
    if option.Some? && option.value != 0 then option.value else fallback
  }

  function LevelColor(level: Level): string
  {
    match level
    case Error => "{red-fg}"
    case Warn => "{yellow-fg}"
    case Info => "{green-fg}"
    case Debug => "{blue-fg}"
  }

  /** The text a log entry is shown as in the log box. */
  function RenderLine(entry: LogEntry): string
  {
    "{gray-fg}[" + entry.timestamp + "]{/gray-fg} " + LevelColor(entry.level) + entry.message + "{/}"
  }

  /** `logs.slice(-n)` for a positive `n`: the last `n` entries, or all of them. */
  function KeepLast<T>(s: seq<T>, n: nat): (r: seq<T>)
    requires n > 0
    ensures |r| <= n && |r| <= |s|
    ensures |s| <= n ==> r == s
    ensures r == s[|s| - |r|..]
  {
    if |s| > n then s[|s| - n..] else s
  }

  /** Appending to a buffer already within bound and trimming it keeps the new
      entry last and the survivors in order; only the oldest entry can go. */
  lemma AppendAndTrim<T>(s: seq<T>, x: T, n: nat)
    requires n > 0 && |s| <= n
    ensures var r := KeepLast(s + [x], n);
            |r| <= n && r[|r| - 1] == x && r[..|r| - 1] == s[|s| - (|r| - 1)..]
            && (|s| < n ==> r == s + [x])
  {
    var r := KeepLast(s + [x], n);
    assert (s + [x])[|s|] == x;
    if |s| == n {
      assert r == (s + [x])[1..];
      assert r[..|r| - 1] == s[1..];
    }
  }

  /** No filter is active: `!this.selectedId` (null or the empty string). */
  predicate NoFilter(selectedId: Option<string>)
  {
    selectedId.None? || selectedId.value == ""
  }

  /** The display test of `addLogEntry`. */
  predicate ShouldDisplay(selectedId: Option<string>, entry: LogEntry)
  {
    NoFilter(selectedId)
    || (entry.relatedId.Some? && entry.relatedId.value != "" && entry.relatedId == selectedId)
    || (selectedId.Some? && selectedId.value != "" && Strings.Contains(entry.message, selectedId.value))
  }

  /** A new entry is shown iff no filter is set, its related id is the filter,
      or its message mentions the filter. */
  lemma ShouldDisplayIff(selectedId: Option<string>, entry: LogEntry)
    ensures ShouldDisplay(selectedId, entry) <==>
              NoFilter(selectedId) || entry.relatedId == selectedId
              || Strings.Contains(entry.message, selectedId.value)
  {
  }

  /** The filter of `filterLogsByRelatedId`. */
  predicate MatchesId(entry: LogEntry, id: string)
  {
    entry.relatedId == Some(id) || Strings.Contains(entry.message, id)
  }

  function MatchingLogs(logs: seq<LogEntry>, id: string): (r: seq<LogEntry>)
    ensures forall e :: e in r <==> e in logs && MatchesId(e, id)
    ensures |r| <= |logs|
  {
    if logs == [] then []
    else if MatchesId(logs[0], id) then [logs[0]] + MatchingLogs(logs[1..], id)
    else MatchingLogs(logs[1..], id)
  }

  /** The filter keeps the original order: matching entries of an earlier
      part come before those of a later one. */
  lemma {:induction false} MatchingLogsAppend(p: seq<LogEntry>, q: seq<LogEntry>, id: string)
    ensures MatchingLogs(p + q, id) == MatchingLogs(p, id) + MatchingLogs(q, id)
  {
    if p == [] {
      assert p + q == q;
    } else {
      assert (p + q)[0] == p[0];
      assert (p + q)[1..] == p[1..] + q;
      MatchingLogsAppend(p[1..], q, id);
    }
  }

  function RenderAll(logs: seq<LogEntry>): (lines: seq<string>)
    ensures |lines| == |logs|
    ensures forall i :: 0 <= i < |logs| ==> lines[i] == RenderLine(logs[i])
  {
    seq(|logs|, i requires 0 <= i < |logs| => RenderLine(logs[i]))
  }

  /** `contractId.length > 34 ? contractId.substring(0, 31) + "..." : contractId`. */
  function ShortContractId(id: string): (r: string)
    ensures |r| <= 34
    ensures |id| <= 34 ==> r == id
    ensures |id| > 34 ==> |r| == 34 && r[..31] == id[..31] && r[31..] == "..."
  {
    if |id| > 34 then id[..31] + "..." else id
  }

  /** `preimage ? preimage.substring(0, 10) + "..." : "N/A"`. */
  function ShortPreimage(preimage: string): (r: string)
    ensures preimage == "" <==> r == "N/A"
    ensures preimage != "" ==> r == Strings.Prefix(preimage, 10) + "..." && |r| <= 13
  {
    if preimage == "" then "N/A" else Strings.Prefix(preimage, 10) + "..."
  }

  const NoPendingRow := Row("No pending relays", "", "")
  const NoCompletedRow := Row("No completed relays", "", "")
  const PendingStatus := "{yellow-fg}Pending Relay{/}"

  /** The row for one pending contract id; a cached record gives the amount. */
  function PendingRow(id: string, details: map<string, Option<ContractDetails>>): Row
  {
    if id in details && details[id].Some? then Row(ShortContractId(id), Strings.Decimal(details[id].value.amount), PendingStatus)
    else Row(ShortContractId(id), "Unknown", PendingStatus)
  }

  /** The pending table: one row per pending id, in order, or the placeholder. */
  function PendingRows(pending: seq<string>, details: map<string, Option<ContractDetails>>): (rows: seq<Row>)
    ensures pending == [] <==> rows == [NoPendingRow]
    ensures pending != [] ==> |rows| == |pending|
    ensures pending != [] ==> forall i :: 0 <= i < |pending| ==> rows[i] == PendingRow(pending[i], details)
  {
    if pending == [] then [NoPendingRow]
    else
      var rows := seq(|pending|, i requires 0 <= i < |pending| => PendingRow(pending[i], details));
      assert rows[0].amount != "";
      rows
  }

  /** The loop of `updatePendingRelaysTable`. */
  method BuildPendingRows(pending: seq<string>, details: map<string, Option<ContractDetails>>) returns (rows: seq<Row>)
    ensures rows == PendingRows(pending, details)
  {
    rows := [];
    for i := 0 to |pending|
      invariant |rows| == i
      invariant forall k :: 0 <= k < i ==> rows[k] == PendingRow(pending[k], details)
    {
      var id := pending[i];
      var cached := if id in details then details[id] else None;
      var shortId := if |id| > 34 then id[..31] + "..." else id;
      if cached.Some? {
        rows := rows + [Row(shortId, Strings.Decimal(cached.value.amount), PendingStatus)];
      } else {
        rows := rows + [Row(shortId, "Unknown", PendingStatus)];
      }
    }
    if |rows| == 0 {
      rows := [NoPendingRow];
    }
  }

  /** The request was completed: its cached record says withdrawn. */
  predicate IsCompleted(req: RelayRequest, details: map<string, Option<ContractDetails>>)
  {
    req.contractId in details && details[req.contractId].Some? && details[req.contractId].value.withdrawn
  }

  function RecentRow(req: RelayRequest, details: map<string, Option<ContractDetails>>): Row
    requires IsCompleted(req, details)
  {
    Row(ShortContractId(req.contractId), Strings.Decimal(details[req.contractId].value.amount), ShortPreimage(req.preimage))
  }

  /** The rows of the completed requests, in the order of `recentRequests`. */
  function CompletedRows(requests: seq<RelayRequest>, details: map<string, Option<ContractDetails>>): (rows: seq<Row>)
    ensures |rows| <= |requests|
    ensures (forall r :: r in requests ==> !IsCompleted(r, details)) <==> rows == []
    ensures forall row :: row in rows ==> exists r :: r in requests && IsCompleted(r, details) && row == RecentRow(r, details)
  {
    if requests == [] then []
    else
      var rest := CompletedRows(requests[1..], details);
      assert forall r :: r in requests[1..] ==> r in requests;
      if IsCompleted(requests[0], details) then [RecentRow(requests[0], details)] + rest else rest
  }

  /** The recent table: the completed requests' rows, or the placeholder. */
  function RecentRows(requests: seq<RelayRequest>, details: map<string, Option<ContractDetails>>): seq<Row>
  {
    var rows := CompletedRows(requests, details);
    if rows == [] then [NoCompletedRow] else rows
  }

  lemma {:induction false} CompletedRowsAppend(p: seq<RelayRequest>, q: seq<RelayRequest>,
                                              details: map<string, Option<ContractDetails>>)
    ensures CompletedRows(p + q, details) == CompletedRows(p, details) + CompletedRows(q, details)
  {
    if p == [] {
      assert p + q == q;
    } else {
      assert (p + q)[0] == p[0];
      assert (p + q)[1..] == p[1..] + q;
      CompletedRowsAppend(p[1..], q, details);
    }
  }

  /** The loop of `updateRecentRelaysTable`. */
  method BuildRecentRows(requests: seq<RelayRequest>, details: map<string, Option<ContractDetails>>) returns (rows: seq<Row>)
    ensures rows == RecentRows(requests, details)
  {
    rows := [];
    for i := 0 to |requests|
      invariant rows == CompletedRows(requests[..i], details)
    {
      var req := requests[i];
      var cached := if req.contractId in details then details[req.contractId] else None;
      CompletedRowsAppend(requests[..i], [req], details);
      assert requests[..i + 1] == requests[..i] + [req];
      if cached.Some? && cached.value.withdrawn {
        rows := rows + [RecentRow(req, details)];
      }
    }
    assert requests[..|requests|] == requests;
    if |rows| == 0 {
      rows := [NoCompletedRow];
    }
  }

  /** `RelayServerDashboard` without its widgets: `logBox` is the list of
      lines the log widget shows, the two tables the data last set on them. */
  class RelayServerDashboard {
    const server: Relay.RelayServer
    var updateInterval: nat
    var maxLogs: nat
    var logs: seq<LogEntry>
    var selectedId: Option<string>
    var logLabel: string
    var logBox: seq<string>
    var pendingTable: seq<Row>
    var recentTable: seq<Row>

    ghost predicate Valid()
      reads this
    {
      maxLogs > 0 && |logs| <= maxLogs
    }

    /** The constructor: option defaults, then the "Dashboard initialized"
        entry logged at time `now`. */
    constructor (server: Relay.RelayServer, options: DashboardOptions, now: string)
      ensures Valid()
      ensures this.server == server
      ensures updateInterval == OrDefault(options.updateInterval, 1000)
      ensures maxLogs == OrDefault(options.maxLogs, 100)
      ensures selectedId == None && logLabel == "Server Logs"
      ensures logs == [LogEntry(now, "Dashboard initialized", None, Info)]
      ensures logBox == [RenderLine(LogEntry(now, "Dashboard initialized", None, Info))]
      ensures pendingTable == [] && recentTable == []
    {
      this.server := server;
      updateInterval := OrDefault(options.updateInterval, 1000);
      maxLogs := OrDefault(options.maxLogs, 100);
      logs := [];
      selectedId := None;
      logLabel := "Server Logs";
      logBox := [];
      pendingTable := [];
      recentTable := [];
      new;
      // `addLogEntry("Dashboard initialized", "info")` with no filter set
      var entry := LogEntry(now, "Dashboard initialized", None, Info);
      logs := [entry];
      logBox := [RenderLine(entry)];
    }

    /** `addLogEntry`, with the timestamp as a parameter. */
    method AddLogEntry(message: string, level: Level, relatedId: Option<string>, timestamp: string)
      requires Valid()
      modifies this`logs, this`logBox
      ensures Valid()
      ensures logs == KeepLast(old(logs) + [LogEntry(timestamp, message, relatedId, level)], maxLogs)
      ensures logBox == if ShouldDisplay(selectedId, LogEntry(timestamp, message, relatedId, level))
                        then old(logBox) + [RenderLine(LogEntry(timestamp, message, relatedId, level))]
                        else old(logBox)
    {
      var entry := LogEntry(timestamp, message, relatedId, level);
      logs := logs + [entry];
      if |logs| > maxLogs {
        logs := logs[|logs| - maxLogs..];
      }
      if ShouldDisplay(selectedId, entry) {
        logBox := logBox + [RenderLine(entry)];
      }
    }

    /** `filterLogsByRelatedId`. */
    method FilterLogsByRelatedId(id: string)
      requires Valid()
      modifies this`selectedId, this`logLabel, this`logBox
      ensures Valid()
      ensures selectedId == Some(id)
      ensures logLabel == "Server Logs (Filtered by ID: " + id + ")"
      ensures MatchingLogs(logs, id) == [] ==> logBox == ["No logs found for ID: " + id]
      ensures MatchingLogs(logs, id) != [] ==> logBox == RenderAll(MatchingLogs(logs, id))
    {
      selectedId := Some(id);
      logLabel := "Server Logs (Filtered by ID: " + id + ")";
      var filtered := MatchingLogs(logs, id);
      if |filtered| == 0 {
        logBox := ["No logs found for ID: " + id];
      } else {
        var lines := [];
        for i := 0 to |filtered|
          invariant lines == RenderAll(filtered[..i])
        {
          lines := lines + [RenderLine(filtered[i])];
        }
        assert filtered[..|filtered|] == filtered;
        logBox := lines;
      }
    }

    /** `clearFilter`: no filter, and the last `maxLogs` entries shown again. */
    method ClearFilter()
      requires Valid()
      modifies this`selectedId, this`logLabel, this`logBox
      ensures Valid()
      ensures selectedId == None && logLabel == "Server Logs"
      ensures logBox == RenderAll(KeepLast(logs, maxLogs))
    {
      selectedId := None;
      logLabel := "Server Logs";
      var shown := KeepLast(logs, maxLogs);
      var lines := [];
      for i := 0 to |shown|
        invariant lines == RenderAll(shown[..i])
      {
        lines := lines + [RenderLine(shown[i])];
      }
      assert shown[..|shown|] == shown;
      logBox := lines;
    }

    /** `updatePendingRelaysTable`. */
    method UpdatePendingRelaysTable()
      modifies this`pendingTable
      ensures pendingTable == PendingRows(server.pendingContracts, server.contractDetails)
    {
      pendingTable := BuildPendingRows(server.pendingContracts, server.contractDetails);
    }

    /** `updateRecentRelaysTable`. */
    method UpdateRecentRelaysTable()
      modifies this`recentTable
      ensures recentTable == RecentRows(server.recentRequests, server.contractDetails)
    {
      recentTable := BuildRecentRows(server.recentRequests, server.contractDetails);
    }
  }
}
