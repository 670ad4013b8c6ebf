/** The `VirtualMachine` of virtual_machine.py: a Lamport logical clock, a FIFO
    queue of received clock values and a list of peers, changed by four kinds
    of event (internal, send, receive, process).

    Each loop body of the source (one iteration of `receive`, one tick of
    `run`) is one atomic step here. Its inputs are what the source obtains from
    the outside world: the received datagram as text, the drawn action
    (`random.randint(1, 10)`), whether each UDP send succeeds, and the
    timestamp written into the log rows. The pure functions below give the
    effect of each step on a `VmState`; the class methods are proved to
    have exactly that effect on the object's fields. */
module Machine {
  import opened Wrappers
  import opened Text
  import opened Logging
  import Timestamps

  /** An (address, port) pair. */
  type Peer = (string, int)

  /** A UDP datagram the machine sends: its destination and the clock value it
      carries, whose wire text is `Payload()`. */
  datatype Datagram = Datagram(address: string, port: int, message: int)
  {
    function Payload(): string
    {
      Encode(message)
    }
  }

  /** The part of a machine that its events change. */
  datatype VmState = VmState(clock: nat, queue: seq<int>, log: seq<Entry>)

  /** The new state after a step and the datagrams it sent, in order. */
  datatype Outcome = Outcome(state: VmState, sent: seq<Datagram>)

  /** A freshly constructed machine: clock 0, empty queue, nothing logged. */
  const Initial: VmState := VmState(0, [], [])

  /** The wire format: `str(clock).encode()`. */
  function Encode(clock: int): string
  {
    IntToString(clock)
  }

  /** Reading a datagram: `int(data.decode())`, None where `int` raises. */
  function Decode(data: string): Option<int>
  {
    ParseInt(data)
  }

  /** A receiver decodes exactly the value that was sent. */
  lemma PayloadRoundTrip(d: Datagram)
    ensures Decode(d.Payload()) == Some(d.message)
  {
    ParseIntRoundTrip(d.message);
  }

  function Max(a: nat, b: int): nat
  {
    if a >= b then a else b
  }

  /** `max(clock, incoming) + 1`: the least value above both the current clock
      and the incoming one (rule IR2 of Lamport's logical clocks). */
  function Advance(clock: nat, incoming: int): (r: nat)
    ensures r > clock && r > incoming
    ensures r == clock + 1 || r == incoming + 1
  {
    Max(clock, incoming) + 1
  }

  /** An internal event (actions 4 to 10 with an empty queue). */
  function InternalStep(s: VmState, ts: string): VmState
  {
    VmState(s.clock + 1, s.queue, s.log + [Record(ts, "internal", |s.queue|, s.clock + 1)])
  }

  /** One iteration of the `receive` loop on the datagram `data`. A datagram that
      does not decode raises inside the `try` and changes nothing. */
  function ReceiveStep(s: VmState, data: string, ts: string): VmState
  {
    match Decode(data)
    case None => s
    case Some(v) =>
      var q := s.queue + [v];
      var c := Advance(s.clock, v);
      VmState(c, q, s.log + [Record(ts, "receive", |q|, c)])
  }

  /** A tick with a non-empty queue: pop the oldest value and apply IR2 to it. */
  function ProcessStep(s: VmState, ts: string): VmState
    requires s.queue != []
  {
    var q := s.queue[1..];
    var c := Advance(s.clock, s.queue[0]);
    VmState(c, q, s.log + [Record(ts, "process", |q|, c)])
  }

  /** `send(message, peer)`: when the datagram goes out, the clock goes up by 1 and
      a send row and a successful connection row are logged; when `sendto`
      raises, only a failed connection row is logged. */
  function SendStep(s: VmState, message: int, peer: Peer, delivered: bool, ts: string): Outcome
  {
    if delivered then
      var c := s.clock + 1;
      Outcome(VmState(c, s.queue, s.log + [Record(ts, "send", |s.queue|, c), Connection(ts, peer.0, peer.1, true)]),
              [Datagram(peer.0, peer.1, message)])
    else
      Outcome(VmState(s.clock, s.queue, s.log + [Connection(ts, peer.0, peer.1, false)]), [])
  }

  /** Action 3: `for peer in peers: send(logical_clock, peer)`, the clock re-read
      before every send. `delivered[k]` says whether the send to `peers[k]` succeeds. */
  function BroadcastStep(s: VmState, peers: seq<Peer>, delivered: seq<bool>, ts: string): Outcome
    requires |delivered| == |peers|
    decreases |peers|
  {
    if peers == [] then Outcome(s, [])
    else
      var first := SendStep(s, s.clock, peers[0], delivered[0], ts);
      var rest := BroadcastStep(first.state, peers[1..], delivered[1..], ts);
      Outcome(rest.state, first.sent + rest.sent)
  }

  /** One tick of `run` after the sleep. None when action 1 or 2 indexes a peer
      that does not exist: the IndexError ends the `run` thread. */
  function TickStep(s: VmState, peers: seq<Peer>, action: int, delivered: seq<bool>, ts: string): Option<Outcome>
    requires 1 <= action <= 10 && |delivered| == |peers|
  {
    if s.queue != [] then Some(Outcome(ProcessStep(s, ts), []))
    else if action == 1 then
      if |peers| < 1 then None else Some(SendStep(s, s.clock, peers[0], delivered[0], ts))
    else if action == 2 then
      if |peers| < 2 then None else Some(SendStep(s, s.clock, peers[1], delivered[1], ts))
    else if action == 3 then Some(BroadcastStep(s, peers, delivered, ts))
    else Some(Outcome(InternalStep(s, ts), []))
  }

  /** The number of sends that succeed. */
  function Successes(delivered: seq<bool>): nat
  {
    if delivered == [] then 0 else (if delivered[0] then 1 else 0) + Successes(delivered[1..])
  }

  /** The clocks of the event rows in a log, in log order (connection rows carry none). */
  function RecordClocks(log: seq<Entry>): seq<int>
  {
    if log == [] then []
    else
      var e := log[|log| - 1];
      RecordClocks(log[..|log| - 1]) + (if e.Record? then [e.clock] else [])
  }

  predicate Increasing(xs: seq<int>)
  {
    forall i, j :: 0 <= i < j < |xs| ==> xs[i] < xs[j]
  }

  /** The log matches the clock: the event rows carry strictly increasing
      clocks, the last of them is the current clock, and a machine that has
      logged no event row still has clock 0. */
  predicate Chronicle(s: VmState)
  {
    var cs := RecordClocks(s.log);
    Increasing(cs) && (if cs == [] then s.clock == 0 else cs[|cs| - 1] == s.clock)
  }

  /** Every row the model writes keeps the shape the analyzer reads: Logger
      timestamps and comma-free event names. */
  predicate WellFormedLog(log: seq<Entry>)
  {
    forall k :: 0 <= k < |log| ==> WellFormedEntry(log[k])
  }

  lemma RecordClocksAppend(log: seq<Entry>, e: Entry)
    ensures RecordClocks(log + [e]) == RecordClocks(log) + (if e.Record? then [e.clock] else [])
  {
    assert (log + [e])[..|log|] == log;
  }

  /** Logging an event row carrying a clock above all earlier ones keeps the log increasing. */
  lemma ChronicleRecord(s: VmState, t: VmState, e: Entry)
    requires Chronicle(s) && e.Record? && t.log == s.log + [e] && e.clock == t.clock && t.clock > s.clock
    ensures Chronicle(t)
  {
    RecordClocksAppend(s.log, e);
  }

  /** `Advance` is rule IR2, `+ 1` is rule IR1; an internal event keeps the queue. */
  lemma InternalEffect(s: VmState, ts: string)
    ensures var t := InternalStep(s, ts);
      t.clock == s.clock + 1 && t.queue == s.queue && (Chronicle(s) ==> Chronicle(t)) &&
      t.log == s.log + [Record(ts, "internal", |s.queue|, t.clock)]
  {
    if Chronicle(s) {
      ChronicleRecord(s, InternalStep(s, ts), Record(ts, "internal", |s.queue|, s.clock + 1));
    }
  }

  /** Receiving a datagram that decodes to `v`: the clock passes both its old
      value and `v`, `v` itself (not the new clock) joins the back of the
      queue, and the row logs the queue length after the append. A datagram
      that does not decode changes nothing. */
  lemma ReceiveEffect(s: VmState, data: string, ts: string)
    ensures var t := ReceiveStep(s, data, ts);
      (Chronicle(s) ==> Chronicle(t)) &&
      match Decode(data)
      case None => t == s
      case Some(v) =>
        t.clock > s.clock && t.clock > v && (t.clock == s.clock + 1 || t.clock == v + 1) &&
        t.queue == s.queue + [v] &&
        t.log == s.log + [Record(ts, "receive", |t.queue|, t.clock)]
  {
    var t := ReceiveStep(s, data, ts);
    if Decode(data).Some? && Chronicle(s) {
      ChronicleRecord(s, t, t.log[|t.log| - 1]);
    }
  }

  /** Processing takes the oldest queued value (FIFO by arrival, whatever the
      values), shrinks the queue by one and logs the length after the pop. */
  lemma ProcessEffect(s: VmState, ts: string)
    requires s.queue != []
    ensures var t := ProcessStep(s, ts);
      (Chronicle(s) ==> Chronicle(t)) &&
      t.clock > s.clock && t.clock > s.queue[0] && (t.clock == s.clock + 1 || t.clock == s.queue[0] + 1) &&
      [s.queue[0]] + t.queue == s.queue && |t.queue| == |s.queue| - 1 &&
      t.log == s.log + [Record(ts, "process", |t.queue|, t.clock)]
  {
    var t := ProcessStep(s, ts);
    if Chronicle(s) {
      ChronicleRecord(s, t, t.log[|t.log| - 1]);
    }
    assert [s.queue[0]] + s.queue[1..] == s.queue;
  }

  /** A successful send advertises the clock from before the increment, then
      logs a send row with the new clock followed by a success row; a failed
      send leaves clock and queue alone and logs only a failure row. */
  lemma SendEffect(s: VmState, peer: Peer, delivered: bool, ts: string)
    ensures var o := SendStep(s, s.clock, peer, delivered, ts);
      (Chronicle(s) ==> Chronicle(o.state)) && o.state.queue == s.queue &&
      (delivered ==>
         o.state.clock == s.clock + 1 &&
         o.sent == [Datagram(peer.0, peer.1, s.clock)] &&
         o.state.log == s.log + [Record(ts, "send", |s.queue|, s.clock + 1), Connection(ts, peer.0, peer.1, true)]) &&
      (!delivered ==>
         o.state.clock == s.clock && o.sent == [] &&
         o.state.log == s.log + [Connection(ts, peer.0, peer.1, false)])
  {
    var o := SendStep(s, s.clock, peer, delivered, ts);
    if delivered {
      var mid := VmState(s.clock + 1, s.queue, s.log + [Record(ts, "send", |s.queue|, s.clock + 1)]);
      if Chronicle(s) {
        ChronicleRecord(s, mid, Record(ts, "send", |s.queue|, s.clock + 1));
      }
      assert o.state.log == mid.log + [Connection(ts, peer.0, peer.1, true)];
      RecordClocksAppend(mid.log, Connection(ts, peer.0, peer.1, true));
    } else {
      RecordClocksAppend(s.log, Connection(ts, peer.0, peer.1, false));
    }
  }

  /** A broadcast keeps the queue and keeps the log in step with the clock. */
  lemma {:induction false} BroadcastChronicle(s: VmState, peers: seq<Peer>, delivered: seq<bool>, ts: string)
    requires |delivered| == |peers|
    ensures var o := BroadcastStep(s, peers, delivered, ts);
      (Chronicle(s) ==> Chronicle(o.state)) && o.state.queue == s.queue
    decreases |peers|
  {
    if peers != [] {
      var first := SendStep(s, s.clock, peers[0], delivered[0], ts);
      SendEffect(s, peers[0], delivered[0], ts);
      BroadcastChronicle(first.state, peers[1..], delivered[1..], ts);
    }
  }

  /** The broadcast performs one send per peer in list order, each reading the
      clock the previous one left: the peer at position `k` is sent the
      starting clock plus the number of successful sends before it, and the
      clock ends up raised by the number of successful sends. */
  lemma BroadcastEffect(s: VmState, peers: seq<Peer>, delivered: seq<bool>, ts: string)
    requires |delivered| == |peers|
    ensures var o := BroadcastStep(s, peers, delivered, ts);
      o.state.clock == s.clock + Successes(delivered) &&
      |o.sent| == Successes(delivered) &&
      forall k :: 0 <= k < |peers| && delivered[k] ==>
        Successes(delivered[..k]) < |o.sent| &&
        o.sent[Successes(delivered[..k])] == Datagram(peers[k].0, peers[k].1, s.clock + Successes(delivered[..k]))
  {
    BroadcastCount(s, peers, delivered, ts);
    BroadcastSent(s, peers, delivered, ts);
  }

  /** The broadcast raises the clock by, and sends, one per successful send. */
  lemma {:induction false} BroadcastCount(s: VmState, peers: seq<Peer>, delivered: seq<bool>, ts: string)
    requires |delivered| == |peers|
    ensures var o := BroadcastStep(s, peers, delivered, ts);
      o.state.clock == s.clock + Successes(delivered) && |o.sent| == Successes(delivered)
    decreases |peers|
  {
    if peers != [] {
      var first := SendStep(s, s.clock, peers[0], delivered[0], ts);
      SendSent(s, peers[0], delivered[0], ts);
      BroadcastCount(first.state, peers[1..], delivered[1..], ts);
    }
  }

  /** The datagram of each successful send of a broadcast. */
  lemma {:induction false} BroadcastSent(s: VmState, peers: seq<Peer>, delivered: seq<bool>, ts: string)
    requires |delivered| == |peers|
    ensures var o := BroadcastStep(s, peers, delivered, ts);
      forall k :: 0 <= k < |peers| && delivered[k] ==>
        Successes(delivered[..k]) < |o.sent| &&
        o.sent[Successes(delivered[..k])] == Datagram(peers[k].0, peers[k].1, s.clock + Successes(delivered[..k]))
    decreases |peers|
  {
    if peers != [] {
      var first := SendStep(s, s.clock, peers[0], delivered[0], ts);
      SendSent(s, peers[0], delivered[0], ts);
      BroadcastSent(first.state, peers[1..], delivered[1..], ts);
      BroadcastCount(first.state, peers[1..], delivered[1..], ts);
      var rest := BroadcastStep(first.state, peers[1..], delivered[1..], ts);
      var o := BroadcastStep(s, peers, delivered, ts);
      var b := if delivered[0] then 1 else 0;
      assert o.sent == first.sent + rest.sent && |first.sent| == b && first.state.clock == s.clock + b;
      forall k | 0 <= k < |peers| && delivered[k]
        ensures Successes(delivered[..k]) < |o.sent|
        ensures o.sent[Successes(delivered[..k])] == Datagram(peers[k].0, peers[k].1, s.clock + Successes(delivered[..k]))
      {
        if k == 0 {
          assert delivered[..0] == [];
        } else {
          SuccessesShift(delivered, k);
          assert peers[1..][k - 1] == peers[k] && delivered[1..][k - 1] == delivered[k];
          var j := Successes(delivered[1..][..k - 1]);
          assert o.sent[b + j] == rest.sent[j];
        }
      }
    }
  }

  /** A broadcast to one more peer is the broadcast to the others followed by
      a send to that peer. */
  lemma {:induction false} BroadcastSnoc(s: VmState, peers: seq<Peer>, delivered: seq<bool>, p: Peer, d: bool, ts: string)
    requires |delivered| == |peers|
    ensures BroadcastStep(s, peers + [p], delivered + [d], ts) ==
      var mid := BroadcastStep(s, peers, delivered, ts);
      var last := SendStep(mid.state, mid.state.clock, p, d, ts);
      Outcome(last.state, mid.sent + last.sent)
    decreases |peers|
  {
    if peers == [] {
      assert [p][1..] == [] && [d][1..] == [];
    } else {
      var first := SendStep(s, s.clock, peers[0], delivered[0], ts);
      assert (peers + [p])[0] == peers[0] && (delivered + [d])[0] == delivered[0];
      assert (peers + [p])[1..] == peers[1..] + [p] && (delivered + [d])[1..] == delivered[1..] + [d];
      BroadcastSnoc(first.state, peers[1..], delivered[1..], p, d, ts);
      var mid := BroadcastStep(first.state, peers[1..], delivered[1..], ts);
      var last := SendStep(mid.state, mid.state.clock, p, d, ts);
      assert first.sent + (mid.sent + last.sent) == (first.sent + mid.sent) + last.sent;
    }
  }

  /** The clock and the datagrams of one send. */
  lemma SendSent(s: VmState, peer: Peer, delivered: bool, ts: string)
    ensures var o := SendStep(s, s.clock, peer, delivered, ts);
      o.state.clock == s.clock + (if delivered then 1 else 0) &&
      o.sent == (if delivered then [Datagram(peer.0, peer.1, s.clock)] else [])
  {
  }

  lemma SuccessesShift(delivered: seq<bool>, k: nat)
    requires 0 < k <= |delivered|
    ensures Successes(delivered[..k]) == (if delivered[0] then 1 else 0) + Successes(delivered[1..][..k - 1])
  {
    assert delivered[..k][1..] == delivered[1..][..k - 1];
  }

  /** With every send succeeding and the clock starting at `c`, the k-th peer is
      sent `c + k`, every peer gets its own send row, and the clock ends at
      `c + |peers|`. */
  lemma {:induction false} BroadcastAllDelivered(s: VmState, peers: seq<Peer>, delivered: seq<bool>, ts: string)
    requires |delivered| == |peers|
    requires forall k :: 0 <= k < |delivered| ==> delivered[k]
    ensures var o := BroadcastStep(s, peers, delivered, ts);
      o.state.clock == s.clock + |peers| && |o.sent| == |peers| &&
      (forall k :: 0 <= k < |peers| ==> o.sent[k] == Datagram(peers[k].0, peers[k].1, s.clock + k)) &&
      |RecordClocks(o.state.log)| == |RecordClocks(s.log)| + |peers|
    ensures var log := BroadcastStep(s, peers, delivered, ts).state.log;
      && |log| == |s.log| + 2 * |peers| && log[..|s.log|] == s.log
      && forall k :: 0 <= k < |peers| ==>
        && log[|s.log| + 2 * k] == Record(ts, "send", |s.queue|, s.clock + k + 1)
        && log[|s.log| + 2 * k + 1] == Connection(ts, peers[k].0, peers[k].1, true)
  {
    BroadcastLogAll(s, peers, delivered, ts);
    AllSuccesses(delivered);
    BroadcastEffect(s, peers, delivered, ts);
    forall k | 0 <= k < |peers| ensures Successes(delivered[..k]) == k {
      AllSuccesses(delivered[..k]);
    }
    BroadcastRows(s, peers, delivered, ts);
  }

  /** With every send succeeding, the broadcast keeps the log and appends two
      rows per peer. */
  lemma {:induction false} BroadcastLogGrowth(s: VmState, peers: seq<Peer>, delivered: seq<bool>, ts: string)
    requires |delivered| == |peers|
    requires forall k :: 0 <= k < |delivered| ==> delivered[k]
    ensures var log := BroadcastStep(s, peers, delivered, ts).state.log;
      |log| == |s.log| + 2 * |peers| && log[..|s.log|] == s.log
    decreases |peers|
  {
    if peers != [] {
      var n := |s.log|;
      var first := SendStep(s, s.clock, peers[0], delivered[0], ts);
      assert first.state.log == s.log + [Record(ts, "send", |s.queue|, s.clock + 1), Connection(ts, peers[0].0, peers[0].1, true)];
      BroadcastLogGrowth(first.state, peers[1..], delivered[1..], ts);
      var log := BroadcastStep(first.state, peers[1..], delivered[1..], ts).state.log;
      assert BroadcastStep(s, peers, delivered, ts).state.log == log;
      assert log[..n] == log[..n + 2][..n];
    }
  }

  /** With every send succeeding, the rows for peer `k`: its send row with the
      clock that send produced, then its success row. */
  lemma {:induction false} BroadcastLogRow(s: VmState, peers: seq<Peer>, delivered: seq<bool>, ts: string, k: nat)
    requires |delivered| == |peers| && k < |peers|
    requires forall m :: 0 <= m < |delivered| ==> delivered[m]
    ensures var log := BroadcastStep(s, peers, delivered, ts).state.log;
      && |s.log| + 2 * k + 1 < |log|
      && log[|s.log| + 2 * k] == Record(ts, "send", |s.queue|, s.clock + k + 1)
      && log[|s.log| + 2 * k + 1] == Connection(ts, peers[k].0, peers[k].1, true)
    decreases k
  {
    var n := |s.log|;
    var first := SendStep(s, s.clock, peers[0], delivered[0], ts);
    assert first.state.clock == s.clock + 1 && first.state.queue == s.queue;
    assert first.state.log == s.log + [Record(ts, "send", |s.queue|, s.clock + 1), Connection(ts, peers[0].0, peers[0].1, true)];
    var log := BroadcastStep(first.state, peers[1..], delivered[1..], ts).state.log;
    assert BroadcastStep(s, peers, delivered, ts).state.log == log;
    BroadcastLogGrowth(first.state, peers[1..], delivered[1..], ts);
    if k == 0 {
      assert log[n] == log[..n + 2][n] && log[n + 1] == log[..n + 2][n + 1];
    } else {
      BroadcastLogRow(first.state, peers[1..], delivered[1..], ts, k - 1);
      assert n + 2 * k == (n + 2) + 2 * (k - 1);
      assert peers[1..][k - 1] == peers[k];
    }
  }

  /** With every send succeeding, the broadcast appends, peer by peer, a send
      row carrying the clock that send produced, then that peer's success row. */
  lemma BroadcastLogAll(s: VmState, peers: seq<Peer>, delivered: seq<bool>, ts: string)
    requires |delivered| == |peers|
    requires forall k :: 0 <= k < |delivered| ==> delivered[k]
    ensures var log := BroadcastStep(s, peers, delivered, ts).state.log;
      && |log| == |s.log| + 2 * |peers| && log[..|s.log|] == s.log
      && forall k :: 0 <= k < |peers| ==>
        && log[|s.log| + 2 * k] == Record(ts, "send", |s.queue|, s.clock + k + 1)
        && log[|s.log| + 2 * k + 1] == Connection(ts, peers[k].0, peers[k].1, true)
  {
    BroadcastLogGrowth(s, peers, delivered, ts);
    var log := BroadcastStep(s, peers, delivered, ts).state.log;
    forall k | 0 <= k < |peers|
      ensures log[|s.log| + 2 * k] == Record(ts, "send", |s.queue|, s.clock + k + 1)
      ensures log[|s.log| + 2 * k + 1] == Connection(ts, peers[k].0, peers[k].1, true)
    {
      BroadcastLogRow(s, peers, delivered, ts, k);
    }
  }

  lemma {:induction false} AllSuccesses(delivered: seq<bool>)
    requires forall k :: 0 <= k < |delivered| ==> delivered[k]
    ensures Successes(delivered) == |delivered|
  {
    if delivered != [] {
      AllSuccesses(delivered[1..]);
    }
  }

  /** Each successful send of a broadcast logs its own event row. */
  lemma {:induction false} BroadcastRows(s: VmState, peers: seq<Peer>, delivered: seq<bool>, ts: string)
    requires |delivered| == |peers|
    ensures |RecordClocks(BroadcastStep(s, peers, delivered, ts).state.log)| == |RecordClocks(s.log)| + Successes(delivered)
    decreases |peers|
  {
    if peers != [] {
      var first := SendStep(s, s.clock, peers[0], delivered[0], ts);
      BroadcastRows(first.state, peers[1..], delivered[1..], ts);
      if delivered[0] {
        var mid := s.log + [Record(ts, "send", |s.queue|, s.clock + 1)];
        RecordClocksAppend(s.log, Record(ts, "send", |s.queue|, s.clock + 1));
        assert first.state.log == mid + [Connection(ts, peers[0].0, peers[0].1, true)];
        RecordClocksAppend(mid, Connection(ts, peers[0].0, peers[0].1, true));
      } else {
        RecordClocksAppend(s.log, Connection(ts, peers[0].0, peers[0].1, false));
      }
    }
  }

  /** Dispatch of one tick: a non-empty queue is always processed; otherwise
      action 1 sends to `peers[0]`, action 2 to `peers[1]` (each failing when
      that peer does not exist), action 3 to every peer, and actions 4 to 10
      are internal events. The clock never goes down, and it stays put only
      when every send the tick attempted failed. */
  lemma TickEffect(s: VmState, peers: seq<Peer>, action: int, delivered: seq<bool>, ts: string)
    requires 1 <= action <= 10 && |delivered| == |peers|
    ensures var r := TickStep(s, peers, action, delivered, ts);
      (r.None? <==> s.queue == [] && ((action == 1 && |peers| < 1) || (action == 2 && |peers| < 2))) &&
      (s.queue != [] ==> r == Some(Outcome(ProcessStep(s, ts), []))) &&
      (s.queue == [] && action == 1 && |peers| >= 1 ==> r == Some(SendStep(s, s.clock, peers[0], delivered[0], ts))) &&
      (s.queue == [] && action == 2 && |peers| >= 2 ==> r == Some(SendStep(s, s.clock, peers[1], delivered[1], ts))) &&
      (s.queue == [] && action == 3 ==> r == Some(BroadcastStep(s, peers, delivered, ts))) &&
      (s.queue == [] && action >= 4 ==> r == Some(Outcome(InternalStep(s, ts), []))) &&
      (r.Some? ==>
         (Chronicle(s) ==> Chronicle(r.value.state)) && r.value.state.clock >= s.clock &&
         (r.value.state.clock == s.clock <==>
            s.queue == [] &&
            ((action == 1 && !delivered[0]) || (action == 2 && !delivered[1]) ||
             (action == 3 && Successes(delivered) == 0))))
  {
    if s.queue != [] {
      ProcessEffect(s, ts);
    } else if action == 1 && |peers| >= 1 {
      SendEffect(s, peers[0], delivered[0], ts);
    } else if action == 2 && |peers| >= 2 {
      SendEffect(s, peers[1], delivered[1], ts);
    } else if action == 3 {
      BroadcastEffect(s, peers, delivered, ts);
      BroadcastChronicle(s, peers, delivered, ts);
    } else if action >= 4 {
      InternalEffect(s, ts);
    }
  }

  /** One atomic step of a running machine: a tick of the `run` loop, or one
      datagram taken by the `receive` loop. A sequence of them is one
      interleaving of the two threads at loop-body granularity. */
  datatype Step =
    | TickEvent(action: int, delivered: seq<bool>, ts: string)
    | Arrival(data: string, ts: string)

  predicate Fits(peers: seq<Peer>, st: Step)
  {
    st.TickEvent? ==> 1 <= st.action <= 10 && |st.delivered| == |peers|
  }

  /** A machine part-way through a trace: its state, every value that has
      entered its queue (in arrival order), the values its ticks have
      processed so far, and whether its `run` thread is still alive. */
  datatype Trace = Trace(state: VmState, arrived: seq<int>, consumed: seq<int>, ticking: bool)

  /** The trace of a machine that has not yet taken a step. */
  function Start(s: VmState): Trace
  {
    Trace(s, s.queue, [], true)
  }

  function Apply(t: Trace, peers: seq<Peer>, st: Step): Trace
    requires Fits(peers, st)
  {
    match st
    case Arrival(data, ts) => Trace(ReceiveStep(t.state, data, ts), t.arrived + Queued(st), t.consumed, t.ticking)
    case TickEvent(action, delivered, ts) =>
      if !t.ticking then t
      else match TickStep(t.state, peers, action, delivered, ts)
        case None => Trace(t.state, t.arrived, t.consumed, false)
        case Some(o) => Trace(o.state, t.arrived, t.consumed + (if t.state.queue != [] then [t.state.queue[0]] else []), true)
  }

  function RunFrom(t: Trace, peers: seq<Peer>, steps: seq<Step>): Trace
    requires forall k :: 0 <= k < |steps| ==> Fits(peers, steps[k])
    decreases |steps|
  {
    if steps == [] then t else RunFrom(Apply(t, peers, steps[0]), peers, steps[1..])
  }

  /** The value a step puts on the queue, if any. */
  function Queued(st: Step): seq<int>
  {
    if st.Arrival? && Decode(st.data).Some? then [Decode(st.data).value] else []
  }

  /** The queue effect of one tick that does not fail. */
  lemma TickQueue(s: VmState, peers: seq<Peer>, action: int, delivered: seq<bool>, ts: string)
    requires 1 <= action <= 10 && |delivered| == |peers|
    requires TickStep(s, peers, action, delivered, ts).Some?
    ensures var o := TickStep(s, peers, action, delivered, ts).value;
      (if s.queue != [] then [s.queue[0]] else []) + o.state.queue == s.queue
  {
    if s.queue != [] {
      ProcessEffect(s, ts);
    } else if action == 1 || action == 2 {
      SendEffect(s, peers[action - 1], delivered[action - 1], ts);
    } else if action == 3 {
      BroadcastChronicle(s, peers, delivered, ts);
    }
  }

  /** The queue is FIFO: what has been processed, followed by what is still
      queued, is everything that arrived, in arrival order. */
  predicate Fifo(t: Trace)
  {
    t.consumed + t.state.queue == t.arrived
  }

  lemma ApplyQueue(t: Trace, peers: seq<Peer>, st: Step)
    requires Fits(peers, st) && Fifo(t)
    ensures Fifo(Apply(t, peers, st))
  {
    match st
    case Arrival(data, ts) =>
      ReceiveEffect(t.state, data, ts);
    case TickEvent(action, delivered, ts) =>
      if t.ticking && TickStep(t.state, peers, action, delivered, ts).Some? {
        TickQueue(t.state, peers, action, delivered, ts);
      }
  }

  lemma ApplyClock(t: Trace, peers: seq<Peer>, st: Step)
    requires Fits(peers, st)
    ensures var u := Apply(t, peers, st);
      u.state.clock >= t.state.clock && (Chronicle(t.state) ==> Chronicle(u.state))
  {
    match st
    case Arrival(data, ts) =>
      ReceiveEffect(t.state, data, ts);
    case TickEvent(action, delivered, ts) =>
      if t.ticking {
        TickEffect(t.state, peers, action, delivered, ts);
      }
  }

  /** Over any trace the clock never decreases and the log stays in step with it. */
  lemma {:induction false} RunMonotone(t: Trace, peers: seq<Peer>, steps: seq<Step>)
    requires forall k :: 0 <= k < |steps| ==> Fits(peers, steps[k])
    ensures var u := RunFrom(t, peers, steps);
      u.state.clock >= t.state.clock && (Chronicle(t.state) ==> Chronicle(u.state))
    decreases |steps|
  {
    if steps != [] {
      ApplyClock(t, peers, steps[0]);
      RunMonotone(Apply(t, peers, steps[0]), peers, steps[1..]);
    }
  }

  /** The queue is FIFO over any trace, whatever the numeric values carried:
      values are processed in the order they arrived. */
  lemma {:induction false} RunFifo(t: Trace, peers: seq<Peer>, steps: seq<Step>)
    requires forall k :: 0 <= k < |steps| ==> Fits(peers, steps[k])
    requires Fifo(t)
    ensures Fifo(RunFrom(t, peers, steps))
    decreases |steps|
  {
    if steps != [] {
      ApplyQueue(t, peers, steps[0]);
      RunFifo(Apply(t, peers, steps[0]), peers, steps[1..]);
    }
  }

  /** The rows of every step of a trace are well formed when its timestamps are. */
  lemma {:induction false} RunWellFormed(t: Trace, peers: seq<Peer>, steps: seq<Step>)
    requires forall k :: 0 <= k < |steps| ==> Fits(peers, steps[k]) && Timestamps.IsStamp(steps[k].ts)
    requires WellFormedLog(t.state.log)
    ensures WellFormedLog(RunFrom(t, peers, steps).state.log)
    decreases |steps|
  {
    if steps != [] {
      ApplyWellFormed(t, peers, steps[0]);
      RunWellFormed(Apply(t, peers, steps[0]), peers, steps[1..]);
    }
  }

  lemma WellFormedAppend(log: seq<Entry>, extra: seq<Entry>)
    requires WellFormedLog(log) && WellFormedLog(extra)
    ensures WellFormedLog(log + extra)
  {
    forall k | 0 <= k < |log + extra| ensures WellFormedEntry((log + extra)[k]) {
      if k >= |log| { assert (log + extra)[k] == extra[k - |log|]; }
    }
  }

  lemma SendWellFormed(s: VmState, peer: Peer, delivered: bool, ts: string)
    requires Timestamps.IsStamp(ts) && WellFormedLog(s.log)
    ensures WellFormedLog(SendStep(s, s.clock, peer, delivered, ts).state.log)
  {
    if delivered {
      WellFormedAppend(s.log, [Record(ts, "send", |s.queue|, s.clock + 1), Connection(ts, peer.0, peer.1, true)]);
    } else {
      WellFormedAppend(s.log, [Connection(ts, peer.0, peer.1, false)]);
    }
  }

  lemma TickWellFormed(s: VmState, peers: seq<Peer>, action: int, delivered: seq<bool>, ts: string)
    requires 1 <= action <= 10 && |delivered| == |peers| && Timestamps.IsStamp(ts) && WellFormedLog(s.log)
    requires TickStep(s, peers, action, delivered, ts).Some?
    ensures WellFormedLog(TickStep(s, peers, action, delivered, ts).value.state.log)
  {
    if s.queue != [] {
      WellFormedAppend(s.log, [Record(ts, "process", |s.queue| - 1, Advance(s.clock, s.queue[0]))]);
    } else if action == 1 || action == 2 {
      SendWellFormed(s, peers[action - 1], delivered[action - 1], ts);
    } else if action == 3 {
      BroadcastWellFormed(s, peers, delivered, ts);
    } else {
      WellFormedAppend(s.log, [Record(ts, "internal", |s.queue|, s.clock + 1)]);
    }
  }

  lemma ApplyWellFormed(t: Trace, peers: seq<Peer>, st: Step)
    requires Fits(peers, st) && Timestamps.IsStamp(st.ts) && WellFormedLog(t.state.log)
    ensures WellFormedLog(Apply(t, peers, st).state.log)
  {
    match st
    case Arrival(data, ts) =>
      if Decode(data).Some? {
        var t1 := ReceiveStep(t.state, data, ts);
        WellFormedAppend(t.state.log, [t1.log[|t1.log| - 1]]);
      }
    case TickEvent(action, delivered, ts) =>
      if t.ticking && TickStep(t.state, peers, action, delivered, ts).Some? {
        TickWellFormed(t.state, peers, action, delivered, ts);
      }
  }

  lemma {:induction false} BroadcastWellFormed(s: VmState, peers: seq<Peer>, delivered: seq<bool>, ts: string)
    requires |delivered| == |peers| && Timestamps.IsStamp(ts) && WellFormedLog(s.log)
    ensures WellFormedLog(BroadcastStep(s, peers, delivered, ts).state.log)
    decreases |peers|
  {
    if peers != [] {
      SendWellFormed(s, peers[0], delivered[0], ts);
      BroadcastWellFormed(SendStep(s, s.clock, peers[0], delivered[0], ts).state, peers[1..], delivered[1..], ts);
    }
  }

  class VirtualMachine {
    const machineId: int
    const address: string
    const clockRate: int
    const port: int
    var peers: seq<Peer>
    var logicalClock: nat
    var messageQueue: seq<int>
    const logger: Logger

    ghost predicate Valid()
      reads this, logger
    {
      logger.Valid()
    }

    /** The fields that events change, as a value. */
    ghost function State(): VmState
      reads this, logger
    {
      VmState(logicalClock, messageQueue, logger.entries)
    }

    /** `VirtualMachine(machine_id, address, port, clock_rate)`; binding the
        UDP socket is not modelled. */
    constructor (machineId: int, address: string, port: int, clockRate: int)
      ensures Valid() && fresh(logger)
      ensures this.machineId == machineId && this.address == address
      ensures this.port == port && this.clockRate == clockRate
      ensures peers == [] && State() == Initial
      ensures logger.machineId == machineId && logger.clockRate == clockRate
      ensures logger.header == HeaderLines(machineId, clockRate) && logger.lines == LogLines(machineId, clockRate, [])
    {
      this.machineId := machineId;
      this.address := address;
      this.clockRate := clockRate;
      this.port := port;
      peers := [];
      logicalClock := 0;
      messageQueue := [];
      logger := new Logger(machineId, clockRate);
    }

    /** `add_peer`. */
    method AddPeer(address: string, port: int)
      modifies this`peers
      ensures peers == old(peers) + [(address, port)]
    {
      peers := peers + [(address, port)];
    }

    /** `send(message, dest_address, dest_port)`; `delivered` is whether
        `sendto` returns normally. Returns the datagram sent, if any. */
    method Send(message: int, destAddress: string, destPort: int, delivered: bool, ts: string)
      returns (sent: seq<Datagram>)
      requires Valid()
      modifies this`logicalClock, logger
      ensures Valid()
      ensures Outcome(State(), sent) == SendStep(old(State()), message, (destAddress, destPort), delivered, ts)
    {
      if delivered {
        sent := [Datagram(destAddress, destPort, message)];
        logicalClock := logicalClock + 1;
        logger.LogRecord("send", |messageQueue|, logicalClock, ts);
        logger.LogConnection(destAddress, destPort, true, ts);
      } else {
        sent := [];
        logger.LogConnection(destAddress, destPort, false, ts);
      }
    }

    /** One iteration of the `receive` loop on the datagram `data`. */
    method Receive(data: string, ts: string) returns (accepted: bool)
      requires Valid()
      modifies this`logicalClock, this`messageQueue, logger
      ensures Valid()
      ensures accepted == Decode(data).Some?
      ensures State() == ReceiveStep(old(State()), data, ts)
    {
      var decoded := Decode(data);
      if decoded.None? {
        return false;
      }
      var receivedTime := decoded.value;
      logicalClock := Max(logicalClock, receivedTime) + 1;
      messageQueue := messageQueue + [receivedTime];
      logger.LogRecord("receive", |messageQueue|, logicalClock, ts);
      accepted := true;
    }

    /** The body of action 3: `for peer in self.peers: self.send(self.logical_clock, ...)`. */
    method SendToAll(delivered: seq<bool>, ts: string) returns (sent: seq<Datagram>)
      requires Valid() && |delivered| == |peers|
      modifies this`logicalClock, logger
      ensures Valid()
      ensures Outcome(State(), sent) == BroadcastStep(old(State()), peers, delivered, ts)
    {
      ghost var start := State();
      sent := [];
      for i := 0 to |peers|
        invariant Valid()
        invariant Outcome(State(), sent) == BroadcastStep(start, peers[..i], delivered[..i], ts)
      {
        ghost var mid := BroadcastStep(start, peers[..i], delivered[..i], ts);
        assert peers[..i + 1] == peers[..i] + [peers[i]] && delivered[..i + 1] == delivered[..i] + [delivered[i]];
        BroadcastSnoc(start, peers[..i], delivered[..i], peers[i], delivered[i], ts);
        var peer := peers[i];
        ghost var last := SendStep(mid.state, mid.state.clock, peers[i], delivered[i], ts);
        var out := Send(logicalClock, peer.0, peer.1, delivered[i], ts);
        assert State() == last.state && out == last.sent;
        sent := sent + out;
        assert Outcome(State(), sent) == Outcome(last.state, mid.sent + last.sent);
      }
      assert peers[..|peers|] == peers && delivered[..|peers|] == delivered;
    }

    /** One tick of the `run` loop: `ok` is false when the tick raised
        IndexError (action 1 or 2 without that peer), which leaves the state as
        it was and ends the thread. */
    method Tick(action: int, delivered: seq<bool>, ts: string) returns (ok: bool, sent: seq<Datagram>)
      requires Valid() && 1 <= action <= 10 && |delivered| == |peers|
      modifies this`logicalClock, this`messageQueue, logger
      ensures Valid()
      ensures TickStep(old(State()), peers, action, delivered, ts) == if ok then Some(Outcome(State(), sent)) else None
      ensures !ok ==> State() == old(State())
    {
      if messageQueue != [] {
        var receivedTime := messageQueue[0];
        messageQueue := messageQueue[1..];
        logicalClock := Max(logicalClock, receivedTime) + 1;
        logger.LogRecord("process", |messageQueue|, logicalClock, ts);
        ok, sent := true, [];
      } else if action == 1 {
        if |peers| < 1 {
          return false, [];
        }
        var peer := peers[0];
        sent := Send(logicalClock, peer.0, peer.1, delivered[0], ts);
        ok := true;
      } else if action == 2 {
        if |peers| < 2 {
          return false, [];
        }
        var peer := peers[1];
        sent := Send(logicalClock, peer.0, peer.1, delivered[1], ts);
        ok := true;
      } else if action == 3 {
        sent := SendToAll(delivered, ts);
        ok := true;
      } else {
        logicalClock := logicalClock + 1;
        logger.LogRecord("internal", |messageQueue|, logicalClock, ts);
        ok, sent := true, [];
      }
    }
  }
}
