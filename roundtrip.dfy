/** What the analyzer recovers from the files the machines write: every event
    row comes back field for field, every connection row is skipped, the
    header is found after the two preamble lines, file names give back their
    machine id, and the final logical clock in the report is the clock the
    machine ended with. */
module RoundTrip {
  import opened Wrappers
  import opened Text
  import Timestamps
  import opened Logging
  import opened Analyzer
  import Report
  import Machine

  /** `str(n)` is a comma-free, non-empty run of digits and a sign, ending in a digit. */
  lemma IntChars(n: int)
    ensures var t := IntToString(n);
      t != [] && IsDigit(t[|t| - 1]) && forall k :: 0 <= k < |t| ==> IsDigit(t[k]) || t[k] == '-'
  {
    var d := NatToString(if n < 0 then -n else n);
    assert d[|d| - 1] == IntToString(n)[|IntToString(n)| - 1];
  }

  lemma IntNoSep(n: int, sep: char)
    requires !IsDigit(sep) && sep != '-'
    ensures sep !in IntToString(n)
  {
    IntChars(n);
  }

  /** A line ending in a newline strips to the line without it, when that
      neither starts nor ends with whitespace. */
  lemma StripLine(body: string)
    requires body != [] && !IsSpace(body[0]) && !IsSpace(body[|body| - 1])
    ensures Strip(body + "\n") == body
  {
    StripTrailing(body, '\n');
    StripUntouched(body);
  }

  /** Four separator-free fields joined by the separator split back into themselves. */
  lemma SplitFour(a: string, b: string, c: string, d: string, sep: char)
    requires sep !in a && sep !in b && sep !in c && sep !in d
    ensures Split(a + [sep] + b + [sep] + c + [sep] + d, sep) == [a, b, c, d]
  {
    var tail3 := c + [sep] + d;
    var tail2 := b + [sep] + tail3;
    assert b + [sep] + c + [sep] + d == tail2;
    assert a + [sep] + b + [sep] + c + [sep] + d == a + [sep] + tail2;
    SplitNone(d, sep);
    SplitAfter(c, sep, d);
    assert Split(tail3, sep) == [c, d];
    SplitAfter(b, sep, tail3);
    assert Split(tail2, sep) == [b, c, d];
    SplitAfter(a, sep, tail2);
  }

  /** The stripped text of an event row is the row without its newline, split
      into its four fields. */
  lemma RecordFields(ts: string, event: string, queueLength: int, clock: int)
    requires Timestamps.IsStamp(ts) && ',' !in event
    ensures Split(Strip(RecordLine(ts, event, queueLength, clock)), ',')
      == [ts, event, IntToString(queueLength), IntToString(clock)]
  {
    Timestamps.StampChars(ts);
    var q := IntToString(queueLength);
    var c := IntToString(clock);
    IntChars(clock);
    IntNoSep(queueLength, ',');
    IntNoSep(clock, ',');
    var body := ts + [','] + event + [','] + q + [','] + c;
    assert RecordLine(ts, event, queueLength, clock) == body + "\n";
    assert body[0] == ts[0] && body[|body| - 1] == c[|c| - 1];
    StripLine(body);
    SplitFour(ts, event, q, c, ',');
  }

  /** An event row written by `log_record` parses back to exactly its fields. */
  lemma RecordRow(ts: string, event: string, queueLength: int, clock: int)
    requires Timestamps.IsStamp(ts) && ',' !in event
    ensures ParseRow(RecordLine(ts, event, queueLength, clock)) == Some(Row(ts, event, queueLength, clock))
  {
    Timestamps.StampChars(ts);
    RecordFields(ts, event, queueLength, clock);
    ParseIntRoundTrip(queueLength);
    ParseIntRoundTrip(clock);
  }

  /** A connection row, regrouped as its four comma-separated fields. */
  lemma ConnectionShape(ts: string, address: string, p: string, status: string)
    ensures ts + ",connection," + address + ":" + p + "," + status + "\n"
      == ts + [','] + "connection" + [','] + (address + ":" + p) + [','] + status + "\n"
  {
    assert ",connection," == [','] + "connection" + [','];
  }

  lemma ConnectionEnds(ts: string, mid: string, status: string)
    requires ts != [] && status != []
    ensures var body := ts + [','] + "connection" + [','] + mid + [','] + status;
      body[0] == ts[0] && body[|body| - 1] == status[|status| - 1]
  {
  }

  /** The stripped text of a connection row without its newline. */
  lemma ConnectionBody(ts: string, address: string, port: int, success: bool)
    requires Timestamps.IsStamp(ts)
    ensures Strip(ConnectionLine(ts, address, port, success))
      == ts + [','] + "connection" + [','] + (address + ":" + IntToString(port)) + [','] + (if success then "success" else "failed")
  {
    Timestamps.StampChars(ts);
    var status := if success then "success" else "failed";
    var mid := address + ":" + IntToString(port);
    var body := ts + [','] + "connection" + [','] + mid + [','] + status;
    ConnectionShape(ts, address, IntToString(port), status);
    ConnectionEnds(ts, mid, status);
    assert !IsSpace(status[|status| - 1]);
    StripLine(body);
  }

  /** A string with a ':' in it is not an integer. */
  lemma ColonNotInt(t: string, k: nat)
    requires k < |t| && t[k] == ':'
    ensures ParseInt(t).None?
  {
  }

  /** A line written by `log_connection` is never taken for a data row: either
      it has more than four fields, or its third field holds the ':' of the
      peer address, which `int` rejects. */
  lemma ConnectionSkipped(ts: string, address: string, port: int, success: bool)
    requires Timestamps.IsStamp(ts)
    ensures ParseRow(ConnectionLine(ts, address, port, success)).None?
  {
    Timestamps.StampChars(ts);
    ConnectionBody(ts, address, port, success);
    var p := IntToString(port);
    var mid := address + ":" + p;
    var status := if success then "success" else "failed";
    if ',' in address {
      MoreThanFourFields(ts, mid, status, address, p);
    } else {
      IntNoSep(port, ',');
      assert ',' !in mid;
      SplitFour(ts, "connection", mid, status, ',');
      assert mid[|address|] == ':';
      ColonNotInt(mid, |address|);
    }
  }

  /** A comma in the peer address adds fields beyond the four a row needs. */
  lemma MoreThanFourFields(ts: string, mid: string, status: string, address: string, p: string)
    requires mid == address + ":" + p && ',' in address
    ensures |Split(ts + [','] + "connection" + [','] + mid + [','] + status, ',')| > 4
  {
    var body := ts + [','] + "connection" + [','] + mid + [','] + status;
    SplitCount(body, ',');
    assert multiset(body)[','] >= 3 + multiset(mid)[','];
    assert multiset(mid)[','] >= multiset(address)[','];
    assert multiset(address)[','] > 0;
  }

  /** The row an entry contributes to the analysis, if any. */
  function RowOf(e: Entry): Option<Row>
  {
    match e
    case Record(ts, event, q, c) => Some(Row(ts, event, q, c))
    case Connection(_, _, _, _) => None
  }

  /** The event rows of a log, in order. */
  function RecordRows(entries: seq<Entry>): (r: seq<Row>)
    ensures |r| <= |entries|
  {
    if entries == [] then []
    else
      var e := entries[|entries| - 1];
      RecordRows(entries[..|entries| - 1]) + (if e.Record? then [Row(e.ts, e.event, e.queueLength, e.clock)] else [])
  }

  lemma EntryRow(e: Entry)
    requires WellFormedEntry(e)
    ensures ParseRow(EntryLine(e)) == RowOf(e)
  {
    match e
    case Record(ts, event, q, c) => RecordRow(ts, event, q, c);
    case Connection(ts, a, p, ok) => ConnectionSkipped(ts, a, p, ok);
  }

  /** Line by line, the analyzer's parse of a log is the row each entry contributes. */
  lemma EntryParses(entries: seq<Entry>)
    requires forall k :: 0 <= k < |entries| ==> WellFormedEntry(entries[k])
    ensures Parses(EntryLines(entries)) == Map(RowOf, entries)
  {
    forall k | 0 <= k < |entries|
      ensures Parses(EntryLines(entries))[k] == RowOf(entries[k])
    {
      EntryRow(entries[k]);
    }
  }

  /** Dropping the absent contributions leaves the event rows, in order. */
  lemma {:induction false} SomesRowOf(entries: seq<Entry>)
    ensures Somes(Map(RowOf, entries)) == RecordRows(entries)
  {
    if entries != [] {
      var n := |entries| - 1;
      SomesRowOf(entries[..n]);
      assert Map(RowOf, entries)[..n] == Map(RowOf, entries[..n]);
    }
  }

  /** The analyzer keeps exactly the event rows of a log, in order. */
  lemma EntryRows(entries: seq<Entry>)
    requires forall k :: 0 <= k < |entries| ==> WellFormedEntry(entries[k])
    ensures KeptRows(EntryLines(entries)) == RecordRows(entries)
  {
    EntryParses(entries);
    SomesRowOf(entries);
  }

  /** A line starting with 'M' is not the header. */
  lemma NotHeaderM(first: string)
    requires first != [] && first[0] == 'M' && !IsSpace(first[|first| - 1])
    ensures !IsHeader(first + "\n")
  {
    StripLine(first);
  }

  /** The first preamble line, `Machine {id} initialized with clock rate {rate}`, is not the header. */
  lemma GreetingNotHeader(id: string, rate: string)
    requires rate != [] && IsDigit(rate[|rate| - 1])
    ensures !IsHeader("Machine " + id + " initialized with clock rate " + rate + "\n")
  {
    var first := "Machine " + id + " initialized with clock rate " + rate;
    assert first[0] == 'M' && first[|first| - 1] == rate[|rate| - 1];
    NotHeaderM(first);
  }

  /** The blank second preamble line is not the header. */
  lemma BlankNotHeader()
    ensures !IsHeader("\n")
  {
    assert [] + "\n" == "\n";
    StripTrailing([], '\n');
  }

  /** The third preamble line is the header. */
  lemma HeaderLineIsHeader()
    ensures IsHeader(Header + "\n")
  {
    StripLine(Header);
  }

  lemma PreambleNotHeader(machineId: int, clockRate: int)
    ensures !IsHeader(HeaderLines(machineId, clockRate)[0]) && !IsHeader(HeaderLines(machineId, clockRate)[1])
    ensures IsHeader(HeaderLines(machineId, clockRate)[2])
  {
    IntChars(clockRate);
    GreetingNotHeader(IntToString(machineId), IntToString(clockRate));
    BlankNotHeader();
    HeaderLineIsHeader();
  }

  lemma HeaderThird(h: seq<string>, rest: seq<string>)
    requires |h| == 3 && !IsHeader(h[0]) && !IsHeader(h[1]) && IsHeader(h[2])
    ensures HeaderIndex(h + rest) == 2
  {
    var lines := h + rest;
    assert lines[0] == h[0] && lines[1] == h[1] && lines[2] == h[2];
    HeaderThirdLine(lines);
  }

  /** The header is the third line of every file a Logger writes. */
  lemma HeaderAtTwo(machineId: int, clockRate: int, entries: seq<Entry>)
    ensures HeaderIndex(LogLines(machineId, clockRate, entries)) == 2
  {
    PreambleNotHeader(machineId, clockRate);
    HeaderThird(HeaderLines(machineId, clockRate), EntryLines(entries));
  }

  /** A Logger's file parses back to its event rows; a file with nothing
      after the header gives the machine no entry. */
  lemma LogRoundTrip(machineId: int, clockRate: int, entries: seq<Entry>)
    requires forall k :: 0 <= k < |entries| ==> WellFormedEntry(entries[k])
    ensures ParseLines(LogLines(machineId, clockRate, entries))
      == if entries == [] then None else Some(RecordRows(entries))
  {
    var lines := LogLines(machineId, clockRate, entries);
    HeaderAtTwo(machineId, clockRate, entries);
    assert lines[3..] == EntryLines(entries);
    EntryRows(entries);
  }

  lemma FileNameShape(d: string)
    ensures "machine_" + d + ".log" == "machine" + ['_'] + (d + ['.'] + "log")
  {
    assert "machine_" == "machine" + ['_'];
    assert ".log" == ['.'] + "log";
  }

  /** `machine_{id}.log` passes the analyzer's file filter. */
  lemma FileNameFiltered(machineId: int)
    ensures IsLogFileName(LogFileName(machineId))
  {
    var name := LogFileName(machineId);
    assert name[..8] == "machine_";
    assert name[|name| - 4..] == ".log";
  }

  /** The digits of the id are the piece between the first '_' and the following '.'. */
  lemma FileNamePieces(d: string)
    requires '_' !in d && '.' !in d
    ensures var name := "machine" + ['_'] + (d + ['.'] + "log");
      |Split(name, '_')| >= 2 && Split(Split(name, '_')[1], '.')[0] == d
  {
    var rest := d + ['.'] + "log";
    SplitAfter("machine", '_', rest);
    assert '_' !in rest;
    SplitNone(rest, '_');
    SplitAfter(d, '.', "log");
  }

  /** `machine_{id}.log` passes the analyzer's file filter and gives back `id`. */
  lemma FileNameRoundTrip(machineId: int)
    ensures IsLogFileName(LogFileName(machineId))
    ensures MachineIdOf(LogFileName(machineId)) == Some(machineId)
  {
    var d := IntToString(machineId);
    FileNameFiltered(machineId);
    IntNoSep(machineId, '_');
    IntNoSep(machineId, '.');
    FileNameShape(d);
    FileNamePieces(d);
    ParseIntRoundTrip(machineId);
  }

  /** One Logger's file, taken by `parse_logs`, stores its event rows under its
      machine id, or nothing when the Logger recorded no event. */
  lemma LoggerFileEntry(data: map<int, seq<Row>>, machineId: int, clockRate: int, entries: seq<Entry>)
    requires forall k :: 0 <= k < |entries| ==> WellFormedEntry(entries[k])
    ensures ParseEntry(data, LogFileName(machineId), LogLines(machineId, clockRate, entries))
      == Some(if entries == [] then data else data[machineId := RecordRows(entries)])
  {
    FileNameRoundTrip(machineId);
    LogRoundTrip(machineId, clockRate, entries);
  }

  /** The directory a fleet of Loggers leaves behind: machine `ids[j]`, with
      clock rate `rates[j]`, wrote the events `logs[j]`. */
  function FleetListing(ids: seq<int>, rates: seq<int>, logs: seq<seq<Entry>>): Listing
    requires |rates| == |ids| && |logs| == |ids|
    decreases |ids|
  {
    if ids == [] then []
    else [(LogFileName(ids[0]), LogLines(ids[0], rates[0], logs[0]))] + FleetListing(ids[1..], rates[1..], logs[1..])
  }

  /** `log_data` once the files of `FleetListing(ids, _, logs)` are stored in
      turn: machines that logged nothing leave it as it was. */
  function Stored(data: map<int, seq<Row>>, ids: seq<int>, logs: seq<seq<Entry>>): map<int, seq<Row>>
    requires |logs| == |ids|
    decreases |ids|
  {
    if ids == [] then data
    else Stored(if logs[0] == [] then data else data[ids[0] := RecordRows(logs[0])], ids[1..], logs[1..])
  }

  lemma FleetListingSplit(ids: seq<int>, rates: seq<int>, logs: seq<seq<Entry>>)
    requires |rates| == |ids| && |logs| == |ids| && ids != []
    ensures FleetListing(ids, rates, logs)[0] == (LogFileName(ids[0]), LogLines(ids[0], rates[0], logs[0]))
    ensures FleetListing(ids, rates, logs)[1..] == FleetListing(ids[1..], rates[1..], logs[1..])
  {
    var head := (LogFileName(ids[0]), LogLines(ids[0], rates[0], logs[0]));
    var tail := FleetListing(ids[1..], rates[1..], logs[1..]);
    assert FleetListing(ids, rates, logs) == [head] + tail;
    assert ([head] + tail)[1..] == tail;
  }

  lemma {:induction false} ListingStored(data: map<int, seq<Row>>, ids: seq<int>, rates: seq<int>, logs: seq<seq<Entry>>)
    requires |rates| == |ids| && |logs| == |ids|
    requires forall j, k :: 0 <= j < |logs| && 0 <= k < |logs[j]| ==> WellFormedEntry(logs[j][k])
    ensures ParseListing(data, FleetListing(ids, rates, logs)) == Parsed(Stored(data, ids, logs), true)
    decreases |ids|
  {
    if ids != [] {
      var listing := FleetListing(ids, rates, logs);
      FleetListingSplit(ids, rates, logs);
      LoggerFileEntry(data, ids[0], rates[0], logs[0]);
      var d := if logs[0] == [] then data else data[ids[0] := RecordRows(logs[0])];
      ParseListingStep(data, listing, d);
      ListingStored(d, ids[1..], rates[1..], logs[1..]);
    }
  }

  /** With distinct ids, each machine that logged something ends up with its
      own rows. */
  lemma {:induction false} StoredRows(data: map<int, seq<Row>>, ids: seq<int>, logs: seq<seq<Entry>>)
    requires |logs| == |ids|
    requires forall a, b :: 0 <= a < b < |ids| ==> ids[a] != ids[b]
    ensures var m := Stored(data, ids, logs);
      forall j :: 0 <= j < |ids| && logs[j] != [] ==> ids[j] in m && m[ids[j]] == RecordRows(logs[j])
    decreases |ids|
  {
    if ids != [] {
      var d := if logs[0] == [] then data else data[ids[0] := RecordRows(logs[0])];
      StoredRows(d, ids[1..], logs[1..]);
      StoredKept(d, ids[1..], logs[1..]);
      var m := Stored(data, ids, logs);
      assert m == Stored(d, ids[1..], logs[1..]);
      forall j | 0 <= j < |ids| && logs[j] != []
        ensures ids[j] in m && m[ids[j]] == RecordRows(logs[j])
      {
        if j > 0 {
          assert ids[1..][j - 1] == ids[j] && logs[1..][j - 1] == logs[j];
        } else {
          assert ids[0] in d && d[ids[0]] == RecordRows(logs[0]);
          assert forall k :: 0 <= k < |ids| - 1 ==> ids[1..][k] != ids[0];
        }
      }
    }
  }

  /** The ids `log_data` holds afterwards: the old ones and those of machines
      that logged something. */
  lemma {:induction false} StoredKeys(data: map<int, seq<Row>>, ids: seq<int>, logs: seq<seq<Entry>>)
    requires |logs| == |ids|
    ensures var m := Stored(data, ids, logs);
      forall id :: id in m <==> id in data || exists j :: 0 <= j < |ids| && ids[j] == id && logs[j] != []
    decreases |ids|
  {
    if ids != [] {
      var d := if logs[0] == [] then data else data[ids[0] := RecordRows(logs[0])];
      StoredKeys(d, ids[1..], logs[1..]);
      var m := Stored(data, ids, logs);
      assert m == Stored(d, ids[1..], logs[1..]);
      forall id
        ensures id in m <==> id in data || exists j :: 0 <= j < |ids| && ids[j] == id && logs[j] != []
      {
        if id in d && id !in data {
          assert ids[0] == id && logs[0] != [];
        }
        if exists j :: 0 <= j < |ids| - 1 && ids[1..][j] == id && logs[1..][j] != [] {
          var j :| 0 <= j < |ids| - 1 && ids[1..][j] == id && logs[1..][j] != [];
          assert ids[j + 1] == id && logs[j + 1] != [];
        }
        if exists j :: 0 <= j < |ids| && ids[j] == id && logs[j] != [] {
          var j :| 0 <= j < |ids| && ids[j] == id && logs[j] != [];
          if j > 0 {
            assert ids[1..][j - 1] == id && logs[1..][j - 1] != [];
          }
        }
      }
    }
  }

  /** An id whose machine logged nothing keeps its old rows. */
  lemma {:induction false} StoredKept(data: map<int, seq<Row>>, ids: seq<int>, logs: seq<seq<Entry>>)
    requires |logs| == |ids|
    ensures var m := Stored(data, ids, logs);
      forall id :: id in data && (forall j :: 0 <= j < |ids| && ids[j] == id ==> logs[j] == []) ==> id in m && m[id] == data[id]
    decreases |ids|
  {
    if ids != [] {
      var d := if logs[0] == [] then data else data[ids[0] := RecordRows(logs[0])];
      StoredKept(d, ids[1..], logs[1..]);
      var m := Stored(data, ids, logs);
      assert m == Stored(d, ids[1..], logs[1..]);
      forall id | id in data && (forall j :: 0 <= j < |ids| && ids[j] == id ==> logs[j] == [])
        ensures id in m && m[id] == data[id]
      {
        if logs[0] != [] {
          assert ids[0] != id;
        }
        assert id in d && d[id] == data[id];
        assert forall j :: 0 <= j < |ids| - 1 && ids[1..][j] == id ==> logs[1..][j] == [];
      }
    }
  }

  /** `parse_logs` over the files of Loggers with distinct ids runs to
      completion. Every machine that logged something gets exactly its event
      rows. Machines that logged nothing, and ids without a file, keep what
      `log_data` held before. */
  lemma ListingRoundTrip(data: map<int, seq<Row>>, ids: seq<int>, rates: seq<int>, logs: seq<seq<Entry>>)
    requires |rates| == |ids| && |logs| == |ids|
    requires forall a, b :: 0 <= a < b < |ids| ==> ids[a] != ids[b]
    requires forall j, k :: 0 <= j < |logs| && 0 <= k < |logs[j]| ==> WellFormedEntry(logs[j][k])
    ensures var p := ParseListing(data, FleetListing(ids, rates, logs));
      && p.complete
      && (forall j :: 0 <= j < |ids| && logs[j] != [] ==> ids[j] in p.data && p.data[ids[j]] == RecordRows(logs[j]))
      && (forall id :: id in p.data <==> id in data || exists j :: 0 <= j < |ids| && ids[j] == id && logs[j] != [])
      && (forall id :: id in data && (forall j :: 0 <= j < |ids| && ids[j] == id ==> logs[j] == []) ==> p.data[id] == data[id])
  {
    ListingStored(data, ids, rates, logs);
    StoredRows(data, ids, logs);
    StoredKeys(data, ids, logs);
    StoredKept(data, ids, logs);
  }

  lemma RecordRowsClocks(entries: seq<Entry>)
    ensures Report.Clocks(RecordRows(entries)) == Machine.RecordClocks(entries)
  {
    if entries != [] {
      RecordRowsClocks(entries[..|entries| - 1]);
    }
  }

  /** The largest element of a strictly increasing sequence is its last. */
  lemma MaxOfIncreasing(xs: seq<int>)
    requires xs != [] && Machine.Increasing(xs)
    ensures Report.MaxOf(xs) == xs[|xs| - 1]
  {
  }

  /** What the analyzer reports for a machine state whose log is in step with
      its clock. */
  lemma ReportedClockOf(machineId: int, clockRate: int, s: Machine.VmState)
    requires Machine.Chronicle(s) && Machine.WellFormedLog(s.log)
    ensures var parsed := ParseLines(LogLines(machineId, clockRate, s.log));
      && (parsed.None? <==> s.log == [])
      && (parsed.Some? && parsed.value == [] ==> s.clock == 0)
      && (parsed.Some? && parsed.value != [] ==> Report.Summarize(parsed.value).value.finalClock == s.clock)
  {
    LogRoundTrip(machineId, clockRate, s.log);
    RecordRowsClocks(s.log);
    var cs := Machine.RecordClocks(s.log);
    if cs != [] {
      MaxOfIncreasing(cs);
    }
  }

  /** Over any trace from a fresh machine with Logger timestamps, the analyzer
      finds the machine exactly when it has logged something, and the final
      logical clock it reports for it is the clock the machine ended with. */
  lemma ReportedClock(machineId: int, clockRate: int, peers: seq<Machine.Peer>, steps: seq<Machine.Step>)
    requires forall k :: 0 <= k < |steps| ==> Machine.Fits(peers, steps[k]) && Timestamps.IsStamp(steps[k].ts)
    ensures var s := Machine.RunFrom(Machine.Start(Machine.Initial), peers, steps).state;
      var parsed := ParseLines(LogLines(machineId, clockRate, s.log));
      && (parsed.None? <==> s.log == [])
      && (parsed.Some? && parsed.value == [] ==> s.clock == 0)
      && (parsed.Some? && parsed.value != [] ==> Report.Summarize(parsed.value).value.finalClock == s.clock)
  {
    var t0 := Machine.Start(Machine.Initial);
    Machine.RunMonotone(t0, peers, steps);
    Machine.RunWellFormed(t0, peers, steps);
    ReportedClockOf(machineId, clockRate, Machine.RunFrom(t0, peers, steps).state);
  }
}
