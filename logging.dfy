/** The `Logger` of virtual_machine.py: one log file per machine, a three-line
    header followed by one comma-separated row per event or connection attempt.
    The file is modelled as the list of lines written to it. */
module Logging {
  import opened Text
  import Timestamps

  /** What one call of `log_record` or `log_connection` writes. */
  datatype Entry =
    | Record(ts: string, event: string, queueLength: int, clock: int)
    | Connection(ts: string, address: string, port: int, success: bool)

  /** The column header row. */
  const Header: string := "Time,Event,Queue Length,Logical Clock"

  /** `machine_{id}.log`, the name of a machine's log inside the `logs` directory. */
  function LogFileName(machineId: int): string
  {
    "machine_" + IntToString(machineId) + ".log"
  }

  /** `logs/machine_{id}.log`. */
  function LogPath(machineId: int): string
  {
    "logs/" + LogFileName(machineId)
  }

  /** The lines the constructor writes before any event. */
  function HeaderLines(machineId: int, clockRate: int): seq<string>
  {
    [ "Machine " + IntToString(machineId) + " initialized with clock rate " + IntToString(clockRate) + "\n",
      "\n",
      Header + "\n" ]
  }

  /** `{timestamp},{event},{queue_length},{logical_clock}`. */
  function RecordLine(ts: string, event: string, queueLength: int, clock: int): string
  {
    ts + "," + event + "," + IntToString(queueLength) + "," + IntToString(clock) + "\n"
  }

  /** `{timestamp},connection,{peer_address}:{peer_port},{success|failed}`. */
  function ConnectionLine(ts: string, address: string, port: int, success: bool): string
  {
    ts + ",connection," + address + ":" + IntToString(port) + "," + (if success then "success" else "failed") + "\n"
  }

  function EntryLine(e: Entry): string
  {
    match e
    case Record(ts, event, q, c) => RecordLine(ts, event, q, c)
    case Connection(ts, a, p, ok) => ConnectionLine(ts, a, p, ok)
  }

  /** An entry whose row the analyzer can split back into its fields. */
  predicate WellFormedEntry(e: Entry)
  {
    Timestamps.IsStamp(e.ts) && (e.Record? ==> ',' !in e.event)
  }

  /** The rows of a sequence of entries, one line per entry, in order. */
  function EntryLines(entries: seq<Entry>): (r: seq<string>)
    ensures |r| == |entries|
    ensures forall k :: 0 <= k < |entries| ==> r[k] == EntryLine(entries[k])
  {
    if entries == [] then []
    else EntryLines(entries[..|entries| - 1]) + [EntryLine(entries[|entries| - 1])]
  }

  /** The whole file of a machine that has logged `entries`. */
  function LogLines(machineId: int, clockRate: int, entries: seq<Entry>): seq<string>
  {
    HeaderLines(machineId, clockRate) + EntryLines(entries)
  }

  lemma EntryLinesAppend(entries: seq<Entry>, e: Entry)
    ensures EntryLines(entries + [e]) == EntryLines(entries) + [EntryLine(e)]
  {
    assert (entries + [e])[..|entries|] == entries;
  }

  class Logger {
    const machineId: int
    const logFile: string
    const clockRate: int
    /** The three lines written when the file is created. */
    const header: seq<string>
    /** The log file's content, line by line. */
    var lines: seq<string>
    /** The calls that produced the rows after the header. */
    ghost var entries: seq<Entry>

    ghost predicate Valid()
      reads this
    {
      lines == header + EntryLines(entries)
    }

    /** Creates (or truncates) `logs/machine_{id}.log` and writes the header. */
    constructor (machineId: int, clockRate: int)
      ensures Valid()
      ensures this.machineId == machineId && this.clockRate == clockRate
      ensures logFile == LogPath(machineId) && header == HeaderLines(machineId, clockRate)
      ensures entries == [] && lines == LogLines(machineId, clockRate, [])
    {
      this.machineId := machineId;
      this.clockRate := clockRate;
      logFile := LogPath(machineId);
      header := HeaderLines(machineId, clockRate);
      lines := HeaderLines(machineId, clockRate);
      entries := [];
    }

    /** `log_record`: appends one event row. */
    method LogRecord(event: string, queueLength: int, logicalClock: int, ts: string)
      requires Valid()
      modifies this
      ensures Valid()
      ensures entries == old(entries) + [Record(ts, event, queueLength, logicalClock)]
      ensures lines == old(lines) + [RecordLine(ts, event, queueLength, logicalClock)]
    {
      EntryLinesAppend(entries, Record(ts, event, queueLength, logicalClock));
      lines := lines + [RecordLine(ts, event, queueLength, logicalClock)];
      entries := entries + [Record(ts, event, queueLength, logicalClock)];
    }

    /** `log_connection`: appends one connection-status row. */
    method LogConnection(peerAddress: string, peerPort: int, success: bool, ts: string)
      requires Valid()
      modifies this
      ensures Valid()
      ensures entries == old(entries) + [Connection(ts, peerAddress, peerPort, success)]
      ensures lines == old(lines) + [ConnectionLine(ts, peerAddress, peerPort, success)]
    {
      EntryLinesAppend(entries, Connection(ts, peerAddress, peerPort, success));
      lines := lines + [ConnectionLine(ts, peerAddress, peerPort, success)];
      entries := entries + [Connection(ts, peerAddress, peerPort, success)];
    }
  }
}
