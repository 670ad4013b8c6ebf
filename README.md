# Logical-clock simulator: a verified model

The simulator runs a few virtual machines. Each one keeps a Lamport logical
clock, a FIFO queue of received clock values and a list of peers. On every
tick a machine does one of three things: it processes the oldest queued
value, it sends its clock to one peer or to all of them over UDP, or it
records an internal event. Every event is written to a
`logs/machine_{id}.log` file as one row of a comma-separated log. A separate
analyzer reads those files back. It keeps the data rows and reports, per
machine, the number of events, the count of each event type, the final
clock and the largest queue. It also reports the drift between the fastest
and the slowest clock. A controller builds the fleet's configuration
(ids, ports, clock rates, peer lists) and starts and stops the machines in
list order.

The model has these modules:

- `Wrappers`: `Option` and `Result`.
- `Text`: the Python string built-ins the code uses, with their laws:
  - `str.strip`, with Python's `isspace` characters;
  - `str.split` on one character, and its inverse `join`;
  - `str.startswith` and `str.endswith`;
  - `str(int)`, and `int(str)` with sign and surrounding whitespace.
- `Timestamps`: the `%Y-%m-%d %H:%M:%S.%f` format cut to milliseconds, as
  the Logger writes it. It also covers the subset of `strptime` inputs that
  has zero-padded ASCII fields and a single space, with calendar ranges and
  leap years.
- `Logging`: the `Logger` class, the row and file-name formats, and the
  file content as a sequence of lines.
- `Machine`: the `VirtualMachine` class, with methods proved against pure
  step functions. It also has bounded traces: the `run` and `receive`
  loops interleaved one loop body at a time, with the clock, log and FIFO
  invariants proved over every trace.
- `Analyzer`: the `LogAnalyzer` class and `parse_logs`. It covers the
  file-name filter, id extraction, header search and row parsing.
- `Report`: the integer statistics of `generate_report`.
- `RoundTrip`: the Logger's output read back by the analyzer:
  - file names map back to ids;
  - event rows parse back to their fields;
  - connection rows are dropped;
  - the reported final clock is the machine's clock.
- `Controller`: the `SimulationController` class, covering `__init__`,
  `initialize`, `start` and `stop`.

Where the tests differ from the code, the model follows the code:

- The tests expect a stream socket (`SOCK_STREAM`) with a JSON payload
  `{"logical_clock": n}` and a `queue.Queue` inbox
  (test_virtual_machine.py:5, 57, 60, 98-148). The code sends UDP datagrams
  whose payload is `str(clock)` and keeps the queue in a list. The model
  follows the code.
- The tests expect `simulation_duration` to default to 300
  (test_simulation_controller.py:24). The code's default, and the model's,
  is 60.

Two features of the code itself shape the model:

- Connection notices are written into the same log as event rows, in the
  comma-separated shape `ts,connection,addr:port,status`. The analyzer
  drops them because their third field is not an integer.
- The receive thread applies `max(clock, v) + 1` as soon as the datagram
  arrives. The tick that later processes `v` applies the rule a second
  time.

## Model

| member | source | states |
|---|---|---|
| Text.LStripSpec | log_analyzer.py:40 | `lstrip` leaves the suffix after the maximal run of leading whitespace: everything dropped is whitespace and the result does not start with whitespace |
| Text.RStripSpec | log_analyzer.py:40 | `rstrip` leaves the prefix before the maximal run of trailing whitespace: everything dropped is whitespace and the result does not end with whitespace |
| Text.StripKeeps | log_analyzer.py:29 | every non-whitespace character of a line survives `strip` |
| Text.StripUntouched | log_analyzer.py:29 | a line that neither starts nor ends with whitespace is its own strip |
| Text.StripTrailing | log_analyzer.py:40 | a trailing newline (any whitespace) makes no difference to the strip |
| Text.SplitCount | log_analyzer.py:40-41 | `split(sep)` gives exactly one more piece than there are separators |
| Text.SplitJoin | log_analyzer.py:40 | no piece of `split(sep)` contains the separator, and joining the pieces with it gives back the string |
| Text.SplitNone | log_analyzer.py:18 | a string without the separator splits into itself alone |
| Text.SplitAfter | log_analyzer.py:18 | splitting `a + sep + b` with `a` separator-free gives `a` followed by the pieces of `b` |
| Text.ParseInt | log_analyzer.py:55-56 | when `int(s)` succeeds, every character of `s` is whitespace, a sign or an ASCII digit |
| Text.NatToString | virtual_machine.py:54 | `str(n)` of a natural number is a non-empty run of ASCII digits with no leading zero |
| Text.ParseIntRoundTrip | virtual_machine.py:54-66 | `int(str(n)) == n` for every integer `n` |
| Text.DigitsRoundTrip | virtual_machine.py:54 | the decimal digits of a natural number read back as that number |
| Timestamps.PadValue | virtual_machine.py:21 | a zero-padded field of width `w` holding `n < 10^w` reads back as `n` |
| Timestamps.FormatIsStamp | virtual_machine.py:21 | every valid date and time formats to a 23-character Logger timestamp that `strptime` accepts, and every field reads back as its value |
| Timestamps.StampChars | log_analyzer.py:50-52 | a Logger timestamp is accepted by `strptime`, has no comma and neither starts nor ends with whitespace |
| Logging.EntryLines | virtual_machine.py:20-34 | the rows after the header are, position by position, the formatted record and connection rows |
| Logging.EntryLinesAppend | virtual_machine.py:23-24 | appending a row to the file adds exactly that line at the end |
| Logging.Logger.constructor | virtual_machine.py:11-18 | the file is `logs/machine_{id}.log` and starts with the greeting line, a blank line and the column header |
| Logging.Logger.LogRecord | virtual_machine.py:20-24 | appends exactly the `ts,event,queue_length,clock` row |
| Logging.Logger.LogConnection | virtual_machine.py:29-34 | appends exactly the `ts,connection,addr:port,status` row, with status `success` or `failed` |
| Machine.PayloadRoundTrip | virtual_machine.py:54-66 | the receiver's `int(data.decode())` of a sent datagram is the clock value that was sent |
| Machine.Advance | virtual_machine.py:67 | `max(clock, v) + 1` exceeds both the clock and `v`, and is one more than one of them |
| Machine.InternalEffect | virtual_machine.py:98-101 | an internal event raises the clock by exactly 1, keeps the queue and logs `internal` with the queue length and the new clock |
| Machine.ReceiveEffect | virtual_machine.py:64-69 | a decodable datagram `v` sets the clock above both the old clock and `v`, appends `v` itself at the back of the queue and logs the length after the append; an undecodable one changes nothing |
| Machine.ProcessEffect | virtual_machine.py:80-83 | processing removes the oldest queued value whatever its size, shrinks the queue by one, sets the clock to one more than the larger of the clock and that value, and logs the length after the pop |
| Machine.SendEffect | virtual_machine.py:52-60 | a delivered send advertises the clock before the increment, raises the clock by 1 and logs a send row then a success row; a failed send changes neither clock nor queue and logs only a failure row |
| Machine.BroadcastEffect | virtual_machine.py:94-97 | the broadcast sends in peer order, re-reading the clock: the peer at position `k` gets the start clock plus the successes before it, and the clock rises by the number of successes |
| Machine.BroadcastAllDelivered | virtual_machine.py:96-97 | with every send succeeding from clock `c`, peer `k` is sent `c + k`, the clock ends at `c + len(peers)` and each peer gets its own send row; the log grows by two rows per peer, and for peer `k` they are the `send` row with clock `c + k + 1` followed by the success row for that peer |
| Machine.BroadcastLogAll | virtual_machine.py:55-60 | with every send succeeding, the broadcast keeps the old log as a prefix and appends, for peer `k` in order, a `send` row with the current queue length and clock `c + k + 1`, then a success row naming that peer's address and port |
| Machine.BroadcastLogGrowth | virtual_machine.py:55-60 | with every send succeeding, the broadcast keeps the old log as a prefix and adds exactly two rows per peer |
| Machine.BroadcastLogRow | virtual_machine.py:55-60 | with every send succeeding, the two rows for peer `k` are its `send` row with clock `c + k + 1` and then its success row |
| Machine.BroadcastChronicle | virtual_machine.py:96-97 | a broadcast keeps the queue and keeps the logged clocks increasing and ending at the clock |
| Machine.BroadcastRows | virtual_machine.py:55-56 | a broadcast logs exactly one event row per successful send |
| Machine.TickEffect | virtual_machine.py:80-101 | a non-empty queue is always processed; otherwise action 1 sends to `peers[0]`, 2 to `peers[1]`, 3 to every peer and 4 to 10 are internal; the tick raises IndexError exactly when action 1 or 2 lacks that peer; the clock never decreases and stays put only when every attempted send failed |
| Machine.TickQueue | virtual_machine.py:80-81 | a tick changes the queue only by popping its front |
| Machine.ApplyQueue | virtual_machine.py:68-81 | one step of either thread keeps "processed values followed by queued values equals arrived values" |
| Machine.ApplyClock | virtual_machine.py:55-101 | one step of either thread never lowers the clock and keeps the log in step with it |
| Machine.RunMonotone | virtual_machine.py:55-101 | over any interleaving of receive and tick steps, the clock never decreases and the logged clocks stay strictly increasing and end at the current clock |
| Machine.RunFifo | virtual_machine.py:68-81 | over any interleaving, values are processed in exactly the order they arrived, independent of the values |
| Machine.RunWellFormed | virtual_machine.py:20-34 | over any interleaving with Logger timestamps, every row written has the shape the analyzer reads |
| Machine.VirtualMachine.constructor | virtual_machine.py:37-45 | clock 0, empty queue and peer list, and a fresh Logger whose file holds only the header |
| Machine.VirtualMachine.AddPeer | virtual_machine.py:49-50 | appends `(address, port)` to the peers |
| Machine.VirtualMachine.Send | virtual_machine.py:52-60 | the new clock, queue and log, and the datagram sent, are those of `SendStep` |
| Machine.VirtualMachine.Receive | virtual_machine.py:62-71 | the new state is that of `ReceiveStep`, and the datagram is accepted exactly when it decodes |
| Machine.VirtualMachine.SendToAll | virtual_machine.py:94-97 | the loop's final state and datagrams are those of `BroadcastStep` |
| Machine.VirtualMachine.Tick | virtual_machine.py:77-101 | the new state and datagrams are those of `TickStep`; a tick that raises leaves the state as it was |
| Analyzer.FirstHeader | log_analyzer.py:27-31 | the position of the first line whose stripped text is the column header; no earlier line is one |
| Analyzer.HeaderIndexSpec | log_analyzer.py:27-31 | `header_end` is the first header line when there is one, and 0 otherwise |
| Analyzer.FindHeader | log_analyzer.py:27-31 | the header-search loop with its `break` returns `HeaderIndex` |
| Analyzer.SomesSelect | log_analyzer.py:37-67 | the present options, in order, via an increasing choice of positions missing none |
| Analyzer.KeptRowsSelect | log_analyzer.py:37-67 | the kept rows are exactly the lines that parse, in file order; every other line is skipped |
| Analyzer.ParseRows | log_analyzer.py:37-67 | the row loop with its `try/except` yields `KeptRows` |
| Analyzer.LogAnalyzer.constructor | log_analyzer.py:8-10 | `log_dir` defaults to `logs` and `log_data` starts empty |
| Analyzer.LogAnalyzer.ParseLogs | log_analyzer.py:12-70 | `log_data` afterwards, and whether the loop completed, are those of `ParseListing`: filtered names only, a bad id aborts, a file with nothing after the header adds no entry |
| RoundTrip.RecordRow | log_analyzer.py:40-65 | a row written by `log_record` with a comma-free event parses back to exactly its timestamp, event, queue length and clock |
| RoundTrip.ConnectionSkipped | log_analyzer.py:40-56 | a `log_connection` row is never kept: it has more than four fields, or its third field has the `:` that `int` rejects |
| RoundTrip.MoreThanFourFields | log_analyzer.py:41 | a comma in a peer address gives a connection row more than four fields |
| RoundTrip.EntryRows | log_analyzer.py:37-67 | the analyzer keeps exactly the event rows of a Logger file, in order |
| RoundTrip.PreambleNotHeader | virtual_machine.py:16-18 | of the three lines the Logger writes first, only the third is the column header |
| RoundTrip.HeaderAtTwo | log_analyzer.py:27-31 | `header_end` is 2 for every Logger file |
| RoundTrip.LogRoundTrip | log_analyzer.py:33-70 | a Logger file parses back to its event rows, and a file with no rows gives the machine no entry |
| RoundTrip.FileNameRoundTrip | log_analyzer.py:16-18 | `machine_{id}.log` passes the filter and yields `id` |
| Analyzer.OtherFilesIgnored | log_analyzer.py:15-16 | entries whose names are not `machine_*.log` leave `log_data` and the outcome as they were: the parse of a listing equals the parse of its log files alone |
| RoundTrip.LoggerFileEntry | log_analyzer.py:15-70 | one Logger file stores its event rows under its machine id, or leaves `log_data` as it was when the Logger recorded nothing |
| RoundTrip.ListingStored | log_analyzer.py:15-70 | a directory of Logger files never aborts, and `log_data` afterwards is the result of storing each file in turn |
| RoundTrip.StoredRows | log_analyzer.py:70 | with distinct machine ids, every machine that logged something ends up holding exactly its own rows |
| RoundTrip.StoredKeys | log_analyzer.py:33-70 | the ids present afterwards are the old ones plus those of machines that logged something |
| RoundTrip.StoredKept | log_analyzer.py:33-70 | an id whose machine logged nothing keeps its old rows |
| RoundTrip.ListingRoundTrip | log_analyzer.py:12-70 | `parse_logs` over the files of Loggers with distinct ids completes; each machine that logged something gets exactly its event rows, and every other id keeps what `log_data` held |
| RoundTrip.RecordRowsClocks | log_analyzer.py:202 | the clock column of the kept rows is the clocks of the machine's event rows |
| RoundTrip.MaxOfIncreasing | log_analyzer.py:202 | the maximum of a strictly increasing clock column is its last value |
| RoundTrip.ReportedClock | log_analyzer.py:201-203 | over any run from a fresh machine, the machine has an entry exactly when it logged something, and the final logical clock reported is the clock it ended with |
| Report.MaxOf | log_analyzer.py:202 | `max()` of a non-empty column is one of its values and bounds them all |
| Report.BumpLookup | log_analyzer.py:196 | counting one more row raises the count of its type by one and no other |
| Report.EventCountsSpec | log_analyzer.py:196-198 | the per-type counts have distinct positive entries, one per event type present, each equal to that type's number of rows, and they sum to the total |
| Report.Summarize | log_analyzer.py:193-209 | defined exactly for non-empty logs; the total is the row count, and the final clock and maximum queue length are attained by some row and bound every row |
| Report.ClockDrift | log_analyzer.py:217-232 | the named machines attain the largest and smallest final clocks, every final clock lies between them, and the drift is at least 0 |
| Report.DriftZero | log_analyzer.py:231 | the drift is 0 exactly when all machines have the same final clock, so in particular for a single machine |
| Report.FinalClocks | log_analyzer.py:217-220 | one final clock per machine, namely its `logical_clock` maximum |
| Report.Analyze | log_analyzer.py:191-232 | fails exactly when there are no machines or some machine's log has no rows; otherwise every machine's summary, with the drift extremes attained by named machines and bounding all final clocks |
| Report.GenerateReport | log_analyzer.py:173-232 | parses only when `log_data` is empty, keeps existing data otherwise, and reports an id error, or the analysis |
| Controller.SimulationController.constructor | simulation_controller.py:8-24 | defaults of 3 machines, base port 5000 and 60 seconds; no machines yet and address `127.0.0.1` |
| Controller.SimulationController.Initialize | simulation_controller.py:29-56 | appends the constructed fleet after the existing machines, in config order |
| Controller.FleetMachines | simulation_controller.py:34-39 | machine `i` has id `i+1`, port `base_port+i`, the model address and a clock rate in 1..6; ports increase |
| Controller.FleetPeers | simulation_controller.py:42-46 | machine `i`'s peers are the other `n-1` machines' ports at the model address, in increasing order, never its own |
| Controller.SimulationController.Start | simulation_controller.py:60-76 | issues a start to every machine in list order, then the stop sweep |
| Controller.SimulationController.Stop | simulation_controller.py:78-83 | issues a stop to every machine in list order |
| Controller.SweepOrder | simulation_controller.py:65-66 | a sweep reaches the machines in list order |
| Controller.SweepOnce | simulation_controller.py:82-83 | a sweep reaches each machine exactly once and nothing else |
| Controller.LifecycleOrder | simulation_controller.py:60-83 | in a `start` run every start precedes every stop, each sweep in list order |
| Controller.LifecycleOnce | simulation_controller.py:60-83 | a `start` run starts and stops each machine exactly once and addresses no other |

## Left out

- Sockets are not modelled: binding, `sendto` and `recvfrom` are replaced by inputs. Whether a send succeeds is a boolean, and a received datagram is its decoded text. The 1024-byte read limit and undecodable byte sequences are not modelled.
- Threads, `time.sleep` and the endless loops are not modelled. One loop body is one atomic step, and a trace is a finite interleaving of such steps. The unsynchronised sharing of the clock and queue between the two threads inside one loop body is not modelled.
- `random.randint` is replaced by parameters: the action (1..10) and the clock rates (1..6).
- `datetime.now()` is replaced by a timestamp parameter, one per modelled operation, although the source reads the clock once per row.
- `Timestamps.StrptimeAccepts` is narrower than Python's `strptime`, which also accepts these forms:
  - unpadded fields;
  - any run of whitespace where the format has its space, for example two spaces or a tab;
  - non-ASCII decimal digits in the date and time fields.

  The model rejects all three. The parsed `datetime` value is kept as its text.
- `Text.ParseInt`: Python's `int` also accepts underscores between digits and non-ASCII digits, which the model rejects.
- `log_info`, every `print` and `os.makedirs` are not modelled: they are output only.
- File contents are sequences of lines, and a directory is a listing of names with their lines.
- pandas, matplotlib and the three plotting analyses are not modelled.
- The average queue length is a float and is not modelled.
- The report's text layout and the order `value_counts` lists the types in are not modelled. `Report.EventCounts` lists types in first-appearance order.
- `Report.ClockDrift` is weaker than the source: `max(final_clocks, key=...)` breaks ties by dictionary order, and the model states only that the named machine attains the extreme.
- The controller's signal handler and `sys.exit` are not modelled, nor is the `__main__` driver of each file.
- `Controller.SimulationController.Initialize` builds configuration records rather than `VirtualMachine` objects. The shown `VirtualMachine.__init__` has no `peer_addresses` parameter and no `start`/`stop`. `Start` and `Stop` record the calls they issue in a history.
- A file is modelled as the sequence of lines the Logger wrote. An event name or address containing a newline would split into more lines when read back, and that split is not modelled.
