/** `LogAnalyzer.parse_logs` of log_analyzer.py: which files of the log
    directory are read, where their data rows begin, and which rows are kept.
    A directory is modelled as its listing: each file's name with the lines
    `readlines` returns. Timestamps are kept as the text of the first field. */
module Analyzer {
  import opened Wrappers
  import opened Text
  import Logging
  import Timestamps

  /** One parsed row: `{timestamp, event_type, queue_length, logical_clock}`. */
  datatype Row = Row(timestamp: string, eventType: string, queueLength: int, logicalClock: int)

  /** A directory listing: file names, each with the file's lines. */
  type Listing = seq<(string, seq<string>)>

  /** `filename.startswith("machine_") and filename.endswith(".log")`. */
  predicate IsLogFileName(name: string)
  {
    StartsWith(name, "machine_") && EndsWith(name, ".log")
  }

  /** `int(filename.split("_")[1].split(".")[0])`; None where `int` raises. */
  function MachineIdOf(name: string): Option<int>
    requires IsLogFileName(name)
  {
    assert name[7] == '_' && name[7] in multiset(name);
    SplitCount(name, '_');
    ParseInt(Split(Split(name, '_')[1], '.')[0])
  }

  /** A row is kept when its stripped text has exactly four comma-separated
      fields, the first is a timestamp `strptime` accepts and the third and
      fourth parse as integers. */
  function ParseRow(line: string): Option<Row>
  {
    var parts := Split(Strip(line), ',');
    if |parts| != 4 || !Timestamps.StrptimeAccepts(parts[0]) then None
    else
      match (ParseInt(parts[2]), ParseInt(parts[3]))
      case (Some(q), Some(c)) => Some(Row(parts[0], parts[1], q, c))
      case _ => None
  }

  predicate IsHeader(line: string)
  {
    Strip(line) == Logging.Header
  }

  /** The position of the first element satisfying `p`, or `|xs|` when there is none. */
  function FirstWhere<T>(p: T -> bool, xs: seq<T>): (r: nat)
    ensures r <= |xs|
    ensures forall k :: 0 <= k < r ==> !p(xs[k])
    ensures r < |xs| ==> p(xs[r])
  {
    if xs == [] then 0
    else if p(xs[0]) then 0
    else 1 + FirstWhere(p, xs[1..])
  }

  /** The position of the first header line, or `|lines|` when there is none. */
  function FirstHeader(lines: seq<string>): (r: nat)
    ensures r <= |lines|
    ensures forall k :: 0 <= k < r ==> !IsHeader(lines[k])
    ensures r < |lines| ==> IsHeader(lines[r])
  {
    FirstWhere(IsHeader, lines)
  }

  /** `header_end`: the first header line, or 0 when there is none. */
  function HeaderIndex(lines: seq<string>): nat
  {
    var f := FirstHeader(lines);
    if f < |lines| then f else 0
  }

  /** An element satisfying `p` after two that do not is the first one. */
  lemma FirstWhereThird<T>(p: T -> bool, xs: seq<T>)
    requires |xs| >= 3 && !p(xs[0]) && !p(xs[1]) && p(xs[2])
    ensures FirstWhere(p, xs) == 2
  {
    assert xs[1..][0] == xs[1] && xs[1..][1..] == xs[2..] && xs[2..][0] == xs[2];
  }

  /** The first header line is the one position with no header before it. */
  lemma FirstHeaderAt(lines: seq<string>, i: nat)
    requires i <= |lines|
    requires forall k :: 0 <= k < i ==> !IsHeader(lines[k])
    requires i < |lines| ==> IsHeader(lines[i])
    ensures FirstHeader(lines) == i
  {
  }

  /** A file whose first header line is its third: `header_end` is 2. */
  lemma HeaderThirdLine(lines: seq<string>)
    requires |lines| >= 3 && !IsHeader(lines[0]) && !IsHeader(lines[1]) && IsHeader(lines[2])
    ensures HeaderIndex(lines) == 2
  {
    FirstWhereThird(IsHeader, lines);
  }

  /** `header_end` is the first header line when there is one, and 0 otherwise. */
  lemma HeaderIndexSpec(lines: seq<string>)
    ensures HeaderIndex(lines) == 0 || (HeaderIndex(lines) < |lines| && IsHeader(lines[HeaderIndex(lines)]))
    ensures forall k :: 0 <= k < HeaderIndex(lines) ==> !IsHeader(lines[k])
    ensures (exists k :: 0 <= k < |lines| && IsHeader(lines[k])) ==> IsHeader(lines[HeaderIndex(lines)])
  {
    if exists k :: 0 <= k < |lines| && IsHeader(lines[k]) {
      var k :| 0 <= k < |lines| && IsHeader(lines[k]);
      assert FirstHeader(lines) <= k;
    }
  }

  /** The header search loop of `parse_logs`, with its `break`. */
  method FindHeader(lines: seq<string>) returns (headerEnd: nat)
    ensures headerEnd == HeaderIndex(lines)
  {
    headerEnd := 0;
    for i := 0 to |lines|
      invariant headerEnd == 0
      invariant forall k :: 0 <= k < i ==> !IsHeader(lines[k])
    {
      if IsHeader(lines[i]) {
        headerEnd := i;
        FirstHeaderAt(lines, i);
        return;
      }
    }
    FirstHeaderAt(lines, |lines|);
  }

  /** The values of the present options, in order. */
  function Somes<T>(xs: seq<Option<T>>): (r: seq<T>)
    ensures |r| <= |xs|
  {
    if xs == [] then []
    else
      var init := Somes(xs[..|xs| - 1]);
      match xs[|xs| - 1]
      case Some(v) => init + [v]
      case None => init
  }

  /** `Somes` keeps exactly the present options, in order: an increasing
      choice of positions whose values are the result, missing none. */
  lemma {:induction false} SomesSelect<T>(xs: seq<Option<T>>) returns (pick: seq<nat>)
    ensures |pick| == |Somes(xs)|
    ensures forall k :: 0 <= k < |pick| ==> pick[k] < |xs| && xs[pick[k]] == Some(Somes(xs)[k])
    ensures forall k, m :: 0 <= k < m < |pick| ==> pick[k] < pick[m]
    ensures forall j :: 0 <= j < |xs| && xs[j].Some? ==> j in pick
  {
    if xs == [] {
      pick := [];
    } else {
      var n := |xs| - 1;
      var init := xs[..n];
      var p := SomesSelect(init);
      assert forall j :: 0 <= j < n ==> init[j] == xs[j];
      if xs[n].Some? {
        pick := p + [n];
        assert Somes(xs) == Somes(init) + [xs[n].value];
      } else {
        pick := p;
        assert Somes(xs) == Somes(init);
      }
    }
  }

  /** `f` applied to each element, in order. */
  function Map<A, B>(f: A -> B, xs: seq<A>): (r: seq<B>)
    ensures |r| == |xs|
    ensures forall k :: 0 <= k < |xs| ==> r[k] == f(xs[k])
  {
    if xs == [] then [] else Map(f, xs[..|xs| - 1]) + [f(xs[|xs| - 1])]
  }

  /** Each line's parse, position by position. */
  function Parses(lines: seq<string>): (r: seq<Option<Row>>)
    ensures |r| == |lines|
    ensures forall k :: 0 <= k < |lines| ==> r[k] == ParseRow(lines[k])
  {
    Map(ParseRow, lines)
  }

  /** The rows of `lines` that `ParseRow` keeps, in file order. */
  function KeptRows(lines: seq<string>): seq<Row>
  {
    Somes(Parses(lines))
  }

  /** Kept rows are exactly the parseable lines, in file order. */
  lemma KeptRowsSelect(lines: seq<string>) returns (pick: seq<nat>)
    ensures |pick| == |KeptRows(lines)|
    ensures forall k :: 0 <= k < |pick| ==> pick[k] < |lines| && ParseRow(lines[pick[k]]) == Some(KeptRows(lines)[k])
    ensures forall k, m :: 0 <= k < m < |pick| ==> pick[k] < pick[m]
    ensures forall j :: 0 <= j < |lines| && ParseRow(lines[j]).Some? ==> j in pick
  {
    pick := SomesSelect(Parses(lines));
  }

  /** The row loop of `parse_logs`: rows that fail to parse are skipped. */
  method ParseRows(dataLines: seq<string>) returns (parsed: seq<Row>)
    ensures parsed == KeptRows(dataLines)
  {
    parsed := [];
    for i := 0 to |dataLines|
      invariant parsed == Somes(Parses(dataLines[..i]))
    {
      assert dataLines[..i + 1][..i] == dataLines[..i];
      var row := ParseRow(dataLines[i]);
      ghost var ps := Parses(dataLines[..i + 1]);
      assert ps == Parses(dataLines[..i]) + [row];
      assert ps[..i] == Parses(dataLines[..i]);
      if row.Some? {
        parsed := parsed + [row.value];
      }
    }
    assert dataLines[..|dataLines|] == dataLines;
  }

  /** The rows of one file: None when nothing follows `header_end`, in which
      case the machine gets no entry. */
  function ParseLines(lines: seq<string>): Option<seq<Row>>
  {
    var h := HeaderIndex(lines);
    if h + 1 < |lines| then Some(KeptRows(lines[h + 1..])) else None
  }

  /** The effect of one directory entry on `log_data`; None when its name passes
      the filter but the machine id does not parse (the ValueError ends
      `parse_logs`). */
  function ParseEntry(data: map<int, seq<Row>>, name: string, lines: seq<string>): Option<map<int, seq<Row>>>
  {
    if !IsLogFileName(name) then Some(data)
    else
      match MachineIdOf(name)
      case None => None
      case Some(id) =>
        match ParseLines(lines)
        case None => Some(data)
        case Some(rows) => Some(data[id := rows])
  }

  /** `log_data` after `parse_logs`, and whether it ran to completion. */
  datatype Parsed = Parsed(data: map<int, seq<Row>>, complete: bool)

  function ParseListing(data: map<int, seq<Row>>, listing: Listing): Parsed
    decreases |listing|
  {
    if listing == [] then Parsed(data, true)
    else
      match ParseEntry(data, listing[0].0, listing[0].1)
      case None => Parsed(data, false)
      case Some(d) => ParseListing(d, listing[1..])
  }

  /** Taking the first entry of a listing that did not abort. */
  lemma ParseListingStep(data: map<int, seq<Row>>, listing: Listing, d: map<int, seq<Row>>)
    requires listing != [] && ParseEntry(data, listing[0].0, listing[0].1) == Some(d)
    ensures ParseListing(data, listing) == ParseListing(d, listing[1..])
  {
  }

  /** The entries of a listing whose names `parse_logs` takes as log files. */
  function LogEntriesOf(listing: Listing): (r: Listing)
    ensures |r| <= |listing|
    ensures forall k :: 0 <= k < |r| ==> IsLogFileName(r[k].0)
    decreases |listing|
  {
    if listing == [] then []
    else (if IsLogFileName(listing[0].0) then [listing[0]] else []) + LogEntriesOf(listing[1..])
  }

  /** Entries that are not `machine_*.log` files leave `log_data` as it was:
      `parse_logs` over a listing does what it does over its log files alone. */
  lemma {:induction false} OtherFilesIgnored(data: map<int, seq<Row>>, listing: Listing)
    ensures ParseListing(data, listing) == ParseListing(data, LogEntriesOf(listing))
    decreases |listing|
  {
    if listing != [] {
      var rest := LogEntriesOf(listing[1..]);
      if IsLogFileName(listing[0].0) {
        var kept := LogEntriesOf(listing);
        assert kept == [listing[0]] + rest;
        assert kept[0] == listing[0] && kept[1..] == rest;
        match ParseEntry(data, listing[0].0, listing[0].1)
        case None =>
        case Some(d) =>
          OtherFilesIgnored(d, listing[1..]);
      } else {
        assert LogEntriesOf(listing) == rest;
        OtherFilesIgnored(data, listing[1..]);
      }
    }
  }

  class LogAnalyzer {
    const logDir: string
    /** `log_data`: the parsed rows of each machine, by machine id. */
    var logData: map<int, seq<Row>>

    constructor (logDir: string := "logs")
      ensures this.logDir == logDir && logData == map[]
    {
      this.logDir := logDir;
      logData := map[];
    }

    /** `parse_logs` over a directory listing; `complete` is false when a machine
        id failed to parse, which aborts the remaining entries. */
    method ParseLogs(listing: Listing) returns (complete: bool)
      modifies this
      ensures Parsed(logData, complete) == ParseListing(old(logData), listing)
    {
      for n := 0 to |listing|
        invariant ParseListing(old(logData), listing) == ParseListing(logData, listing[n..])
      {
        assert listing[n..][1..] == listing[n + 1..];
        var (name, lines) := listing[n];
        if IsLogFileName(name) {
          var machineId := MachineIdOf(name);
          if machineId.None? {
            return false;
          }
          var headerEnd := FindHeader(lines);
          if headerEnd + 1 < |lines| {
            var parsed := ParseRows(lines[headerEnd + 1..]);
            logData := logData[machineId.value := parsed];
          }
        }
      }
      complete := true;
    }
  }
}
