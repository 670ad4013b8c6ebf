/** The figures `generate_report` of log_analyzer.py writes: per machine the
    number of rows, the rows of each event type, the final logical clock and
    the largest queue length; across machines the largest and smallest final
    clock and the drift between them. */
module Report {
  import opened Wrappers
  import opened Analyzer

  /** The logical clock column. */
  function Clocks(rows: seq<Row>): (r: seq<int>)
    ensures |r| == |rows| && forall k :: 0 <= k < |rows| ==> r[k] == rows[k].logicalClock
  {
    seq(|rows|, k requires 0 <= k < |rows| => rows[k].logicalClock)
  }

  /** The queue length column. */
  function QueueLengths(rows: seq<Row>): (r: seq<int>)
    ensures |r| == |rows| && forall k :: 0 <= k < |rows| ==> r[k] == rows[k].queueLength
  {
    seq(|rows|, k requires 0 <= k < |rows| => rows[k].queueLength)
  }

  /** A column's `max()`: a value of the column that no value exceeds. */
  function MaxOf(xs: seq<int>): (m: int)
    requires xs != []
    ensures m in xs && forall k :: 0 <= k < |xs| ==> xs[k] <= m
  {
    if |xs| == 1 then xs[0]
    else
      var m := MaxOf(xs[..|xs| - 1]);
      assert forall k :: 0 <= k < |xs| - 1 ==> xs[..|xs| - 1][k] == xs[k];
      if xs[|xs| - 1] > m then xs[|xs| - 1] else m
  }

  /** The number of rows of event type `e`. */
  function CountOf(rows: seq<Row>, e: string): (n: nat)
    ensures n <= |rows|
  {
    if rows == [] then 0
    else CountOf(rows[..|rows| - 1], e) + (if rows[|rows| - 1].eventType == e then 1 else 0)
  }

  /** `value_counts()`: event types with their counts, in first-seen order. */
  type Tally = seq<(string, nat)>

  function Bump(t: Tally, e: string): Tally
  {
    if t == [] then [(e, 1)]
    else if t[0].0 == e then [(e, t[0].1 + 1)] + t[1..]
    else [t[0]] + Bump(t[1..], e)
  }

  function EventCounts(rows: seq<Row>): Tally
  {
    if rows == [] then [] else Bump(EventCounts(rows[..|rows| - 1]), rows[|rows| - 1].eventType)
  }

  /** The count a tally gives `e`, 0 when `e` is not in it. */
  function Lookup(t: Tally, e: string): nat
  {
    if t == [] then 0 else if t[0].0 == e then t[0].1 else Lookup(t[1..], e)
  }

  function Total(t: Tally): nat
  {
    if t == [] then 0 else t[0].1 + Total(t[1..])
  }

  /** The event types a tally holds. */
  function Keys(t: Tally): set<string>
  {
    if t == [] then {} else {t[0].0} + Keys(t[1..])
  }

  /** No event type is listed twice. */
  predicate DistinctKeys(t: Tally)
  {
    t == [] || (t[0].0 !in Keys(t[1..]) && DistinctKeys(t[1..]))
  }

  predicate Positive(t: Tally)
  {
    forall k :: 0 <= k < |t| ==> t[k].1 > 0
  }

  lemma {:induction false} BumpKeys(t: Tally, e: string)
    ensures Keys(Bump(t, e)) == Keys(t) + {e}
  {
    if t != [] && t[0].0 != e {
      BumpKeys(t[1..], e);
      assert Bump(t, e)[1..] == Bump(t[1..], e);
    } else if t != [] {
      assert Bump(t, e)[1..] == t[1..];
    }
  }

  lemma {:induction false} BumpDistinct(t: Tally, e: string)
    requires DistinctKeys(t)
    ensures DistinctKeys(Bump(t, e))
  {
    if t != [] && t[0].0 != e {
      BumpDistinct(t[1..], e);
      BumpKeys(t[1..], e);
      assert Bump(t, e)[1..] == Bump(t[1..], e);
    } else if t != [] {
      assert Bump(t, e)[1..] == t[1..];
    }
  }

  lemma {:induction false} BumpCounts(t: Tally, e: string)
    requires Positive(t)
    ensures Positive(Bump(t, e))
    ensures Total(Bump(t, e)) == Total(t) + 1
  {
    if t != [] && t[0].0 != e {
      BumpCounts(t[1..], e);
      assert Bump(t, e)[1..] == Bump(t[1..], e);
    } else if t != [] {
      assert Bump(t, e)[1..] == t[1..];
    }
  }

  lemma {:induction false} BumpLookup(t: Tally, e: string, x: string)
    requires DistinctKeys(t)
    ensures Lookup(Bump(t, e), x) == Lookup(t, x) + (if x == e then 1 else 0)
  {
    if t != [] && t[0].0 != e {
      BumpLookup(t[1..], e, x);
      assert Bump(t, e)[1..] == Bump(t[1..], e);
    } else if t != [] {
      assert Bump(t, e)[1..] == t[1..];
      if x != e {
        assert Lookup(Bump(t, e), x) == Lookup(t[1..], x);
      }
    }
  }

  /** The event types that occur in `rows`. */
  function EventTypes(rows: seq<Row>): set<string>
  {
    set k | 0 <= k < |rows| :: rows[k].eventType
  }

  lemma EventTypesSnoc(rows: seq<Row>)
    requires rows != []
    ensures EventTypes(rows) == EventTypes(rows[..|rows| - 1]) + {rows[|rows| - 1].eventType}
  {
    var init := rows[..|rows| - 1];
    forall x | x in EventTypes(rows)
      ensures x in EventTypes(init) + {rows[|rows| - 1].eventType}
    {
      var k :| 0 <= k < |rows| && rows[k].eventType == x;
      if k < |init| {
        assert init[k].eventType == x;
      }
    }
    forall x | x in EventTypes(init)
      ensures x in EventTypes(rows)
    {
      var k :| 0 <= k < |init| && init[k].eventType == x;
      assert rows[k].eventType == x;
    }
  }

  /** `value_counts` counts each event type exactly once: the keys are the
      event types that occur, each with its number of rows, and the counts sum
      to the number of rows. */
  lemma {:induction false} EventCountsSpec(rows: seq<Row>)
    ensures DistinctKeys(EventCounts(rows)) && Positive(EventCounts(rows))
    ensures Keys(EventCounts(rows)) == EventTypes(rows)
    ensures forall e :: Lookup(EventCounts(rows), e) == CountOf(rows, e)
    ensures Total(EventCounts(rows)) == |rows|
  {
    if rows != [] {
      var init := rows[..|rows| - 1];
      var e := rows[|rows| - 1].eventType;
      EventCountsSpec(init);
      BumpKeys(EventCounts(init), e);
      BumpDistinct(EventCounts(init), e);
      BumpCounts(EventCounts(init), e);
      forall x
        ensures Lookup(EventCounts(rows), x) == CountOf(rows, x)
      {
        BumpLookup(EventCounts(init), e, x);
      }
      EventTypesSnoc(rows);
    }
  }

  /** What the report states about one machine. */
  datatype Summary = Summary(totalEvents: nat, eventCounts: Tally, finalClock: int, maxQueueLength: int)

  /** One machine's figures; None for a machine with no rows, where the column
      lookups raise a KeyError. */
  function Summarize(rows: seq<Row>): (r: Option<Summary>)
    ensures r.Some? <==> rows != []
    ensures r.Some? ==> r.value.totalEvents == |rows| && r.value.eventCounts == EventCounts(rows)
    ensures r.Some? ==> exists k :: 0 <= k < |rows| && rows[k].logicalClock == r.value.finalClock
    ensures r.Some? ==> forall k :: 0 <= k < |rows| ==> rows[k].logicalClock <= r.value.finalClock
    ensures r.Some? ==> exists k :: 0 <= k < |rows| && rows[k].queueLength == r.value.maxQueueLength
    ensures r.Some? ==> forall k :: 0 <= k < |rows| ==> rows[k].queueLength <= r.value.maxQueueLength
  {
    if rows == [] then None
    else
      var c := MaxOf(Clocks(rows));
      var q := MaxOf(QueueLengths(rows));
      assert exists k :: 0 <= k < |rows| && Clocks(rows)[k] == c;
      assert exists k :: 0 <= k < |rows| && QueueLengths(rows)[k] == q;
      Some(Summary(|rows|, EventCounts(rows), c, q))
  }

  lemma SomeMember(ids: set<int>)
    requires ids != {}
    ensures exists k :: k in ids
  {
    if forall k :: k !in ids {
      assert false;
    }
  }

  /** The largest value over the machines `ids`. */
  ghost function MaxOver(m: map<int, int>, ids: set<int>): (r: int)
    requires ids != {} && ids <= m.Keys
    ensures (exists k :: k in ids && m[k] == r) && forall k :: k in ids ==> m[k] <= r
    decreases ids
  {
    SomeMember(ids);
    var k :| k in ids;
    if ids == {k} then m[k]
    else
      var r := MaxOver(m, ids - {k});
      if m[k] >= r then m[k] else r
  }

  /** The smallest value over the machines `ids`. */
  ghost function MinOver(m: map<int, int>, ids: set<int>): (r: int)
    requires ids != {} && ids <= m.Keys
    ensures (exists k :: k in ids && m[k] == r) && forall k :: k in ids ==> r <= m[k]
    decreases ids
  {
    SomeMember(ids);
    var k :| k in ids;
    if ids == {k} then m[k]
    else
      var r := MinOver(m, ids - {k});
      if m[k] <= r then m[k] else r
  }

  /** The global observations: the extreme final clocks, a machine holding
      each, and the drift between them. */
  datatype Drift = Drift(maxClock: int, maxMachine: int, minClock: int, minMachine: int)
  {
    function Spread(): int
    {
      maxClock - minClock
    }
  }

  ghost function ClockDrift(finals: map<int, int>): (d: Drift)
    requires finals != map[]
    ensures d.maxMachine in finals && finals[d.maxMachine] == d.maxClock
    ensures d.minMachine in finals && finals[d.minMachine] == d.minClock
    ensures forall id :: id in finals ==> d.minClock <= finals[id] <= d.maxClock
    ensures d.Spread() >= 0
  {
    assert finals.Keys != {} by {
      if forall id :: id !in finals {
        assert false;
      }
    }
    var hi := MaxOver(finals, finals.Keys);
    var lo := MinOver(finals, finals.Keys);
    var a :| a in finals && finals[a] == hi;
    var b :| b in finals && finals[b] == lo;
    Drift(hi, a, lo, b)
  }

  /** No drift exactly when every machine ends on the same clock. */
  lemma DriftZero(finals: map<int, int>)
    requires finals != map[]
    ensures ClockDrift(finals).Spread() == 0 <==> forall i, j :: i in finals && j in finals ==> finals[i] == finals[j]
  {
    var d := ClockDrift(finals);
    if forall i, j :: i in finals && j in finals ==> finals[i] == finals[j] {
      assert finals[d.maxMachine] == finals[d.minMachine];
    }
  }

  /** `final_clocks`: each machine's largest logical clock. */
  function FinalClocks(data: map<int, seq<Row>>): (r: map<int, int>)
    requires forall id :: id in data ==> data[id] != []
    ensures r.Keys == data.Keys
    ensures forall id :: id in data ==> r[id] == Summarize(data[id]).value.finalClock
  {
    map id | id in data :: MaxOf(Clocks(data[id]))
  }

  /** Why `generate_report` stops without a report: a file name whose machine
      id does not parse, a machine without rows, or no machines at all. */
  datatype ReportError = BadMachineId | EmptyLog | NoMachines

  datatype Analysis = Analysis(machines: map<int, Summary>, drift: Drift)

  ghost function Analyze(data: map<int, seq<Row>>): (r: Result<Analysis, ReportError>)
    ensures r.Err? <==> data == map[] || exists id :: id in data && data[id] == []
    ensures r.Ok? ==> r.value.machines.Keys == data.Keys
    ensures r.Ok? ==> forall id :: id in data ==> Summarize(data[id]) == Some(r.value.machines[id])
    ensures r.Ok? ==> forall id :: id in data ==>
      r.value.drift.minClock <= r.value.machines[id].finalClock <= r.value.drift.maxClock
    ensures r.Ok? ==> r.value.drift.maxMachine in data && r.value.drift.minMachine in data
    ensures r.Ok? ==> r.value.machines[r.value.drift.maxMachine].finalClock == r.value.drift.maxClock
    ensures r.Ok? ==> r.value.machines[r.value.drift.minMachine].finalClock == r.value.drift.minClock
  {
    if exists id :: id in data && data[id] == [] then Err(EmptyLog)
    else if data == map[] then Err(NoMachines)
    else
      var summaries := map id | id in data :: Summarize(data[id]).value;
      Ok(Analysis(summaries, ClockDrift(FinalClocks(data))))
  }

  /** `generate_report`: parse the directory unless data is already loaded,
      then analyze what is loaded. */
  method GenerateReport(analyzer: LogAnalyzer, listing: Listing) returns (ghost report: Result<Analysis, ReportError>)
    modifies analyzer
    ensures old(analyzer.logData) != map[] ==> analyzer.logData == old(analyzer.logData)
    ensures old(analyzer.logData) == map[] ==> analyzer.logData == ParseListing(map[], listing).data
    ensures report == if old(analyzer.logData) == map[] && !ParseListing(map[], listing).complete
      then Err(BadMachineId) else Analyze(analyzer.logData)
  {
    if analyzer.logData == map[] {
      var complete := analyzer.ParseLogs(listing);
      if !complete {
        report := Err(BadMachineId);
        return;
      }
    }
    report := Analyze(analyzer.logData);
  }
}
