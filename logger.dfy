/** The relay server's logger: the contract id it pulls out of a message, the
    message built from the arguments, the level each console method logs at,
    and where an entry goes (dashboard or console, and the file logger). */
module Logging {
  import opened Shared
  import Strings
  import Dashboard

  /** The five console methods the logger replaces. */
  datatype ConsoleMethod = LogCall | ErrorCall | WarnCall | InfoCall | DebugCall

  /** The level each method hands to the dashboard and to the file logger. */
  function LevelOf(m: ConsoleMethod): (level: Dashboard.Level)
    ensures m == LogCall || m == InfoCall <==> level == Dashboard.Info
    ensures m == ErrorCall <==> level == Dashboard.Error
    ensures m == WarnCall <==> level == Dashboard.Warn
    ensures m == DebugCall <==> level == Dashboard.Debug
  {
    match m
    case LogCall => Dashboard.Info
    case ErrorCall => Dashboard.Error
    case WarnCall => Dashboard.Warn
    case InfoCall => Dashboard.Info
    case DebugCall => Dashboard.Debug
  }

  /** The file logger is created at level "info": it keeps every level but debug. */
  predicate FileLoggerAccepts(level: Dashboard.Level)
  {
    level != Dashboard.Debug
  }

  // ---- extractRelatedId -------------------------------------------------

  /** Length of the run of hex digits that starts at `j`. */
  function HexRun(s: string, j: nat): (n: nat)
    requires j <= |s|
    ensures j + n <= |s|
    ensures forall k :: j <= k < j + n ==> Strings.IsHexDigit(s[k])
    ensures j + n == |s| || !Strings.IsHexDigit(s[j + n])
    decreases |s| - j
  {
    if j == |s| || !Strings.IsHexDigit(s[j]) then 0 else 1 + HexRun(s, j + 1)
  }

  /** `/0x[a-fA-F0-9]{40,}/` matches at index `i`. */
  predicate MatchesAt(s: string, i: nat)
  {
    i + 2 <= |s| && s[i] == '0' && s[i + 1] == 'x' && HexRun(s, i + 2) >= 40
  }

  /** The leftmost index at or after `from` where the pattern matches. */
  function FirstMatchFrom(s: string, from: nat): (r: Option<nat>)
    requires from <= |s|
    ensures r.Some? ==> from <= r.value < |s| && MatchesAt(s, r.value)
                        && forall j :: from <= j < r.value ==> !MatchesAt(s, j)
    ensures r.None? ==> forall j :: from <= j ==> !MatchesAt(s, j)
    decreases |s| - from
  {
    if from == |s| then None
    else if MatchesAt(s, from) then Some(from)
    else FirstMatchFrom(s, from + 1)
  }

  /** The text of the (greedy) match that starts at `i`. */
  function MatchText(s: string, i: nat): string
    requires MatchesAt(s, i)
  {
    s[i..i + 2 + HexRun(s, i + 2)]
  }

  /** `extractRelatedId`: the first match of the pattern, or none. */
  function ExtractRelatedId(message: string): (r: Option<string>)
    ensures r.None? <==> forall i :: !MatchesAt(message, i)
    ensures r.Some? ==> |r.value| >= 42 && r.value[..2] == "0x" && Strings.Contains(message, r.value)
    ensures r.Some? ==> forall k :: 2 <= k < |r.value| ==> Strings.IsHexDigit(r.value[k])
  {
    match FirstMatchFrom(message, 0)
    case None => None
    case Some(i) =>
      var id := MatchText(message, i);
      assert Strings.OccursAt(message, id, i);
      Some(id)
  }

  /** The match returned is the leftmost one, and it takes every hex digit
      that follows: the character after it is not a hex digit. */
  lemma ExtractedIsLeftmostAndMaximal(message: string)
    requires ExtractRelatedId(message).Some?
    ensures exists i: nat :: MatchesAt(message, i)
              && ExtractRelatedId(message) == Some(MatchText(message, i))
              && (forall j :: 0 <= j < i ==> !MatchesAt(message, j))
              && (i + |MatchText(message, i)| == |message|
                  || !Strings.IsHexDigit(message[i + |MatchText(message, i)|]))
  {
    var i := FirstMatchFrom(message, 0).value;
    assert ExtractRelatedId(message) == Some(MatchText(message, i));
  }

  /** A well-formed contract id: "0x" followed by at least 40 hex digits. */
  predicate IsContractId(id: string)
  {
    |id| >= 42 && id[..2] == "0x" && forall k :: 2 <= k < |id| ==> Strings.IsHexDigit(id[k])
  }

  lemma {:induction false} HexRunToEnd(s: string, j: nat)
    requires j <= |s|
    requires forall k :: j <= k < |s| ==> Strings.IsHexDigit(s[k])
    ensures HexRun(s, j) == |s| - j
    decreases |s| - j
  {
    if j < |s| {
      HexRunToEnd(s, j + 1);
    }
  }

  /** A message that is just a contract id relates to that id. */
  lemma ExtractBareContractId(id: string)
    requires IsContractId(id)
    ensures ExtractRelatedId(id) == Some(id)
  {
    assert id[0] == id[..2][0] && id[1] == id[..2][1];
    HexRunToEnd(id, 2);
    assert MatchesAt(id, 0);
    assert id[0..|id|] == id;
  }

  /** A message with a contract id after a text that holds no '0' relates to that id. */
  lemma ExtractAfterPlainText(prefix: string, id: string, suffix: string)
    requires '0' !in prefix
    requires IsContractId(id)
    requires suffix == [] || !Strings.IsHexDigit(suffix[0])
    ensures ExtractRelatedId(prefix + id + suffix) == Some(id)
  {
    var s := prefix + id + suffix;
    var p := |prefix|;
    forall j | 0 <= j < p ensures !MatchesAt(s, j) {
      assert s[j] == prefix[j];
    }
    assert s[p..p + |id|] == id;
    assert s[p] == id[0] == id[..2][0] && s[p + 1] == id[1] == id[..2][1];
    forall k | p + 2 <= k < p + |id| ensures Strings.IsHexDigit(s[k]) {
      assert s[k] == id[k - p];
    }
    HexRunPrefix(s, p + 2, p + |id|);
    assert MatchesAt(s, p);
    FirstMatchSkips(s, 0, p);
  }

  /** The hex run stops exactly where the hex digits stop. */
  lemma {:induction false} HexRunPrefix(s: string, j: nat, e: nat)
    requires j <= e <= |s|
    requires forall k :: j <= k < e ==> Strings.IsHexDigit(s[k])
    requires e == |s| || !Strings.IsHexDigit(s[e])
    ensures HexRun(s, j) == e - j
    decreases e - j
  {
    if j < e {
      HexRunPrefix(s, j + 1, e);
    }
  }

  lemma {:induction false} FirstMatchSkips(s: string, from: nat, p: nat)
    requires from <= p < |s|
    requires MatchesAt(s, p)
    requires forall j :: from <= j < p ==> !MatchesAt(s, j)
    ensures FirstMatchFrom(s, from) == Some(p)
    decreases p - from
  {
    if from < p {
      FirstMatchSkips(s, from + 1, p);
    }
  }

  // ---- formatMessage ----------------------------------------------------

  /** `formatMessage`, given each argument already turned into its string. */
  function FormatMessage(args: seq<string>): string
  {
    Strings.Join(args, " ")
  }

  /** The arguments appear in order, separated by one space each. */
  lemma {:induction false} FormatMessageAppend(args: seq<string>, a: string)
    ensures FormatMessage(args + [a]) == if args == [] then a else FormatMessage(args) + " " + a
    decreases |args|
  {
    if |args| >= 2 {
      assert (args + [a])[1..] == args[1..] + [a];
      assert (args + [a])[0] == args[0];
      FormatMessageAppend(args[1..], a);
    } else if |args| == 1 {
      assert args + [a] == [args[0], a];
      assert [args[0], a][1..] == [a];
      assert args == [args[0]];
      assert Strings.Join([args[0], a], " ") == args[0] + " " + Strings.Join([a], " ");
    }
  }

  lemma {:induction false} FormatMessageLength(args: seq<string>)
    requires args != []
    ensures |FormatMessage(args)| == SumLengths(args) + |args| - 1
    decreases |args|
  {
    if |args| > 1 {
      FormatMessageLength(args[1..]);
    }
  }

  function SumLengths(args: seq<string>): nat
  {
    if args == [] then 0 else |args[0]| + SumLengths(args[1..])
  }

  // ---- transports -------------------------------------------------------

  datatype Transport = RotatingFile | Console

  /** A record the file logger writes to one of its transports. */
  datatype Record = Record(transport: Transport, level: Dashboard.Level, message: string)

  /** A call that reached the original console method. */
  datatype ConsoleCall = ConsoleCall(call: ConsoleMethod, args: seq<string>)

  function Count(ts: seq<Transport>, t: Transport): (n: nat)
    ensures n <= |ts|
    ensures n == 0 <==> t !in ts
  {
    if ts == [] then 0 else (if ts[0] == t then 1 else 0) + Count(ts[1..], t)
  }

  /** `remove(consoleTransport)`. */
  function WithoutConsole(ts: seq<Transport>): (r: seq<Transport>)
    ensures Console !in r
    ensures forall t :: t in r <==> t in ts && t != Console
    ensures |r| <= |ts|
    ensures Console !in ts ==> r == ts
  {
    if ts == [] then []
    else if ts[0] == Console then WithoutConsole(ts[1..])
    else [ts[0]] + WithoutConsole(ts[1..])
  }

  /** Removing the console transport works piecewise, so the remaining
      transports keep their order. */
  lemma {:induction false} WithoutConsoleAppend(p: seq<Transport>, q: seq<Transport>)
    ensures WithoutConsole(p + q) == WithoutConsole(p) + WithoutConsole(q)
    decreases |p|
  {
    if p == [] {
      assert p + q == q;
    } else {
      assert (p + q)[0] == p[0];
      assert (p + q)[1..] == p[1..] + q;
      WithoutConsoleAppend(p[1..], q);
    }
  }

  /** Every other transport keeps its number of occurrences. */
  lemma {:induction false} WithoutConsoleKeepsCounts(ts: seq<Transport>, t: Transport)
    requires t != Console
    ensures Count(WithoutConsole(ts), t) == Count(ts, t)
    decreases |ts|
  {
    if ts != [] {
      WithoutConsoleKeepsCounts(ts[1..], t);
      if ts[0] != Console {
        var rest := WithoutConsole(ts[1..]);
        assert ([ts[0]] + rest)[1..] == rest;
      }
    }
  }

  /** The transports after `uninstall`: the console transport added only when absent. */
  function ConsoleRestored(ts: seq<Transport>): (r: seq<Transport>)
    ensures Console in r
    ensures forall t :: t in ts ==> t in r
    ensures Console in ts ==> r == ts
    ensures |ts| <= |r| <= |ts| + 1 && r[..|ts|] == ts
  {
    if Console in ts then ts else ts + [Console]
  }

  lemma {:induction false} CountAppend(ts: seq<Transport>, t: Transport, u: Transport)
    ensures Count(ts + [u], t) == Count(ts, t) + (if u == t then 1 else 0)
    decreases |ts|
  {
    if ts == [] {
      assert [u][1..] == [];
    } else {
      assert (ts + [u])[1..] == ts[1..] + [u];
      CountAppend(ts[1..], t, u);
    }
  }

  /** After `uninstall` the console transport is there, exactly once unless
      it was there more than once already. */
  lemma ConsoleRestoredOnce(ts: seq<Transport>)
    requires Count(ts, Console) <= 1
    ensures Count(ConsoleRestored(ts), Console) == 1
  {
    if Console !in ts {
      CountAppend(ts, Console, Console);
    }
  }

  /** The records one accepted message produces: one per transport, in order. */
  function Deliver(ts: seq<Transport>, level: Dashboard.Level, message: string): (r: seq<Record>)
    ensures |r| == |ts|
    ensures forall k :: 0 <= k < |ts| ==> r[k] == Record(ts[k], level, message)
  {
    seq(|ts|, k requires 0 <= k < |ts| => Record(ts[k], level, message))
  }

  /** `Logger`. `fileRecords` is what the file logger wrote, transport by
      transport; `consoleCalls` what reached the original console methods. */
  class Logger {
    var dashboard: Dashboard.RelayServerDashboard?
    var transports: seq<Transport>
    var records: seq<Record>
    var consoleCalls: seq<ConsoleCall>

    /** The rotating file transport is never removed. */
    ghost predicate Valid()
      reads this, dashboard
    {
      RotatingFile in transports && (dashboard != null ==> dashboard.Valid())
    }

    constructor ()
      ensures Valid()
      ensures dashboard == null && transports == [RotatingFile, Console]
      ensures records == [] && consoleCalls == []
    {
      dashboard := null;
      transports := [RotatingFile, Console];
      records := [];
      consoleCalls := [];
    }

    /** `setDashboard`: a dashboard takes the console transport away, none puts it back. */
    method SetDashboard(d: Dashboard.RelayServerDashboard?)
      requires Valid()
      requires d != null ==> d.Valid()
      modifies this`dashboard, this`transports
      ensures Valid()
      ensures dashboard == d
      ensures d != null ==> transports == WithoutConsole(old(transports))
      ensures d == null ==> transports == old(transports) + [Console]
    {
      dashboard := d;
      if d != null {
        transports := WithoutConsole(transports);
      } else {
        transports := transports + [Console];
      }
    }

    /** `log`, `error`, `warn`, `info` and `debug`: the message and its
        related id go to the dashboard when there is one, otherwise the
        arguments go to the original console; the file logger always gets the
        message and keeps it unless it is a debug one. */
    method Dispatch(m: ConsoleMethod, args: seq<string>, timestamp: string)
      requires Valid()
      modifies this`records, this`consoleCalls, dashboard
      ensures Valid()
      ensures dashboard != null ==>
                dashboard.selectedId == old(dashboard.selectedId) && dashboard.logLabel == old(dashboard.logLabel)
                && dashboard.maxLogs == old(dashboard.maxLogs) && dashboard.updateInterval == old(dashboard.updateInterval)
                && dashboard.pendingTable == old(dashboard.pendingTable)
                && dashboard.recentTable == old(dashboard.recentTable)
      ensures dashboard == old(dashboard) && transports == old(transports)
      ensures dashboard != null ==>
                dashboard.logs == Dashboard.KeepLast(old(dashboard.logs)
                  + [Dashboard.LogEntry(timestamp, FormatMessage(args), ExtractRelatedId(FormatMessage(args)), LevelOf(m))],
                  dashboard.maxLogs)
                && consoleCalls == old(consoleCalls)
      ensures dashboard != null ==>
                var entry := Dashboard.LogEntry(timestamp, FormatMessage(args), ExtractRelatedId(FormatMessage(args)), LevelOf(m));
                dashboard.logBox == if Dashboard.ShouldDisplay(dashboard.selectedId, entry)
                                    then old(dashboard.logBox) + [Dashboard.RenderLine(entry)]
                                    else old(dashboard.logBox)
      ensures dashboard == null ==> consoleCalls == old(consoleCalls) + [ConsoleCall(m, args)]
      ensures records == old(records)
                + (if FileLoggerAccepts(LevelOf(m)) then Deliver(transports, LevelOf(m), FormatMessage(args)) else [])
    {
      var message := FormatMessage(args);
      var relatedId := ExtractRelatedId(message);
      if dashboard != null {
        dashboard.AddLogEntry(message, LevelOf(m), relatedId, timestamp);
      } else {
        consoleCalls := consoleCalls + [ConsoleCall(m, args)];
      }
      if FileLoggerAccepts(LevelOf(m)) {
        records := records + Deliver(transports, LevelOf(m), message);
      }
    }

    /** The transport part of `uninstall`. */
    method Uninstall()
      requires Valid()
      modifies this`transports
      ensures Valid()
      ensures transports == ConsoleRestored(old(transports))
    {
      if Console !in transports {
        transports := transports + [Console];
      }
    }
  }

  /** Every delivered message reaches the rotating file, whether a dashboard
      is set or not; `Dispatch` delivers every message that is not a debug one. */
  lemma FileAlwaysWritten(ts: seq<Transport>, level: Dashboard.Level, message: string)
    requires RotatingFile in ts
    ensures Record(RotatingFile, level, message) in Deliver(ts, level, message)
  {
    var k :| 0 <= k < |ts| && ts[k] == RotatingFile;
    assert Deliver(ts, level, message)[k] == Record(RotatingFile, level, message);
  }

  /** With a dashboard set the console transport is gone, so the file logger
      writes to the file only. */
  lemma DashboardSilencesConsole(ts: seq<Transport>, level: Dashboard.Level, message: string)
    ensures Record(Console, level, message) !in Deliver(WithoutConsole(ts), level, message)
  {
  }
}
