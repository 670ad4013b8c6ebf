/** `SimulationController` of simulation_controller.py: the machine fleet it
    configures and the order in which it starts and stops the machines. Each
    machine is represented by the configuration the controller hands to the
    `VirtualMachine` it creates. */
module Controller {
  import Machine

  /** What `initialize` passes to `VirtualMachine`. */
  datatype MachineConfig = MachineConfig(machineId: int, address: string, port: int, clockRate: int, peers: seq<Machine.Peer>)

  /** A lifecycle call the controller issues to the machine at a position of
      `machines`. */
  datatype Phase = Started | Stopped
  datatype Call = Call(phase: Phase, machine: nat)

  /** How many times `range(n)` runs. */
  function Count(n: int): nat
  {
    if n < 0 then 0 else n
  }

  /** The first `m` peers of machine `i`: the ports of the other machines in
      increasing order, all at `addr`. */
  function PeerPrefix(addr: string, basePort: int, i: nat, m: nat): seq<Machine.Peer>
  {
    seq(m, k requires 0 <= k < m => (addr, basePort + (if k < i then k else k + 1)))
  }

  /** The fleet `initialize` configures for `n` machines with clock rates `rates`. */
  function Fleet(n: nat, basePort: int, addr: string, rates: seq<int>): seq<MachineConfig>
    requires |rates| == n
  {
    seq(n, i requires 0 <= i < n => MachineConfig(i + 1, addr, basePort + i, rates[i], PeerPrefix(addr, basePort, i, n - 1)))
  }

  /** Machine `i` is machine number `i + 1` on port `basePort + i`, at the
      shared address, with its drawn clock rate. */
  lemma FleetMachines(n: nat, basePort: int, addr: string, rates: seq<int>)
    requires |rates| == n && forall k :: 0 <= k < n ==> 1 <= rates[k] <= 6
    ensures var f := Fleet(n, basePort, addr, rates);
      && |f| == n
      && forall i :: 0 <= i < n ==>
        f[i].machineId == i + 1 && f[i].port == basePort + i && f[i].address == addr && 1 <= f[i].clockRate <= 6
    ensures forall i, j :: 0 <= i < j < n ==>
      Fleet(n, basePort, addr, rates)[i].port < Fleet(n, basePort, addr, rates)[j].port
  {
  }

  /** Every machine's peers are the other machines, each once, in fleet order:
      `n - 1` of them, all at the shared address, never the machine itself. */
  lemma FleetPeers(n: nat, basePort: int, addr: string, rates: seq<int>, i: nat)
    requires |rates| == n && i < n
    ensures var f := Fleet(n, basePort, addr, rates);
      var ps := f[i].peers;
      && |ps| == n - 1
      && (forall k :: 0 <= k < |ps| ==> ps[k].0 == addr && ps[k].1 != f[i].port)
      && (forall k, m :: 0 <= k < m < |ps| ==> ps[k].1 < ps[m].1)
      && (forall j :: 0 <= j < n && j != i ==> (addr, f[j].port) in ps)
      && (forall k :: 0 <= k < |ps| ==> exists j :: 0 <= j < n && j != i && ps[k].1 == f[j].port)
  {
    var f := Fleet(n, basePort, addr, rates);
    var ps := f[i].peers;
    assert ps == PeerPrefix(addr, basePort, i, n - 1) && f[i].port == basePort + i;
    PeerPrefixPorts(addr, basePort, i, n - 1);
    forall j | 0 <= j < n && j != i
      ensures (addr, f[j].port) in ps
    {
      var k := if j < i then j else j - 1;
      assert f[j].port == basePort + j;
      assert ps[k] == (addr, f[j].port);
    }
    forall k | 0 <= k < |ps|
      ensures exists j :: 0 <= j < n && j != i && ps[k].1 == f[j].port
    {
      var j := if k < i then k else k + 1;
      assert f[j].port == basePort + j;
      assert ps[k].1 == f[j].port;
    }
    assert |ps| == n - 1;
    assert forall k :: 0 <= k < |ps| ==> ps[k].0 == addr && ps[k].1 != f[i].port;
    assert forall k, m :: 0 <= k < m < |ps| ==> ps[k].1 < ps[m].1;
  }

  /** The peer list's entries, port by port. */
  lemma PeerPrefixPorts(addr: string, basePort: int, i: nat, m: nat)
    ensures var ps := PeerPrefix(addr, basePort, i, m);
      && |ps| == m
      && (forall k :: 0 <= k < m ==> ps[k] == (addr, basePort + (if k < i then k else k + 1)))
      && (forall k :: 0 <= k < m ==> ps[k].0 == addr && ps[k].1 != basePort + i)
      && (forall k, l :: 0 <= k < l < m ==> ps[k].1 < ps[l].1)
  {
  }

  class SimulationController {
    const numMachines: int
    const basePort: int
    const simulationDuration: int
    /** The machines created so far, in creation order. */
    var machines: seq<MachineConfig>
    const modelAddr: string
    /** The lifecycle calls issued to the machines so far. */
    var calls: seq<Call>

    constructor (numMachines: int := 3, basePort: int := 5000, simulationDuration: int := 60)
      ensures this.numMachines == numMachines && this.basePort == basePort
      ensures this.simulationDuration == simulationDuration
      ensures machines == [] && modelAddr == "127.0.0.1" && calls == []
    {
      this.numMachines := numMachines;
      this.basePort := basePort;
      this.simulationDuration := simulationDuration;
      machines := [];
      modelAddr := "127.0.0.1";
      calls := [];
    }

    /** `initialize`: one configuration per machine, then each machine's peer
        list; the new machines are appended to `machines`. `rates` are the
        clock rates the source draws with `random.randint(1, 6)`. */
    method Initialize(rates: seq<int>)
      requires |rates| == Count(numMachines) && forall k :: 0 <= k < |rates| ==> 1 <= rates[k] <= 6
      modifies this`machines
      ensures machines == old(machines) + Fleet(Count(numMachines), basePort, modelAddr, rates)
    {
      var n := Count(numMachines);
      var configs: seq<(int, int, int)> := [];
      for i := 0 to n
        invariant |configs| == i
        invariant forall k :: 0 <= k < i ==> configs[k] == (k + 1, basePort + k, rates[k])
      {
        configs := configs + [(i + 1, basePort + i, rates[i])];
      }
      ghost var fleet := Fleet(n, basePort, modelAddr, rates);
      for i := 0 to n
        invariant machines == old(machines) + fleet[..i]
      {
        var (machineId, port, clockRate) := configs[i];
        var peerAddresses: seq<Machine.Peer> := [];
        for j := 0 to n
          invariant peerAddresses == PeerPrefix(modelAddr, basePort, i, if j <= i then j else j - 1)
        {
          if i != j {
            var (_, peerPort, _) := configs[j];
            peerAddresses := peerAddresses + [(modelAddr, peerPort)];
          }
        }
        assert fleet[..i + 1] == fleet[..i] + [fleet[i]];
        machines := machines + [MachineConfig(machineId, modelAddr, port, clockRate, peerAddresses)];
      }
      assert fleet[..n] == fleet;
    }

    /** `start`: start every machine in list order, then `stop`. The wait of
        `simulation_duration` seconds between the two is not modelled. */
    method Start()
      modifies this`calls
      ensures calls == old(calls) + Sweep(Started, |machines|) + Sweep(Stopped, |machines|)
    {
      for k := 0 to |machines|
        invariant calls == old(calls) + Sweep(Started, k)
      {
        calls := calls + [Call(Started, k)];
      }
      Stop();
    }

    /** `stop`: stop every machine in list order. */
    method Stop()
      modifies this`calls
      ensures calls == old(calls) + Sweep(Stopped, |machines|)
    {
      for k := 0 to |machines|
        invariant calls == old(calls) + Sweep(Stopped, k)
      {
        calls := calls + [Call(Stopped, k)];
      }
    }
  }

  /** One call of `phase` to each of the first `n` machines, in list order. */
  function Sweep(phase: Phase, n: nat): (r: seq<Call>)
    ensures |r| == n
  {
    if n == 0 then [] else Sweep(phase, n - 1) + [Call(phase, n - 1)]
  }

  /** A sweep reaches the machines in list order. */
  lemma {:induction false} SweepOrder(phase: Phase, n: nat)
    ensures forall k :: 0 <= k < n ==> Sweep(phase, n)[k] == Call(phase, k)
  {
    if n > 0 {
      SweepOrder(phase, n - 1);
      assert Sweep(phase, n)[..n - 1] == Sweep(phase, n - 1);
    }
  }

  /** A sweep reaches each of the first `n` machines exactly once, and nothing else. */
  lemma {:induction false} SweepOnce(phase: Phase, n: nat)
    ensures forall c :: multiset(Sweep(phase, n))[c] == if c.phase == phase && c.machine < n then 1 else 0
  {
    if n > 0 {
      var init := Sweep(phase, n - 1);
      var last := Call(phase, n - 1);
      SweepOnce(phase, n - 1);
      assert Sweep(phase, n) == init + [last];
      assert multiset(Sweep(phase, n)) == multiset(init) + multiset{last};
      forall c
        ensures multiset(Sweep(phase, n))[c] == if c.phase == phase && c.machine < n then 1 else 0
      {
        assert multiset(Sweep(phase, n))[c] == multiset(init)[c] + (if c == last then 1 else 0);
      }
    }
  }

  /** A run of `start` on a fresh controller issues, in order, a start to
      each machine in list order and then a stop to each in list order, so
      every start comes before every stop. */
  lemma LifecycleOrder(n: nat)
    ensures var c := Sweep(Started, n) + Sweep(Stopped, n);
      && |c| == 2 * n
      && (forall k :: 0 <= k < n ==> c[k] == Call(Started, k) && c[n + k] == Call(Stopped, k))
      && (forall a, b :: 0 <= a < |c| && 0 <= b < |c| && c[a].phase == Started && c[b].phase == Stopped ==> a < b)
  {
    SweepOrder(Started, n);
    SweepOrder(Stopped, n);
    var s: seq<Call> := Sweep(Started, n);
    var t: seq<Call> := Sweep(Stopped, n);
    assert forall a :: n <= a < 2 * n ==> (s + t)[a] == t[a - n];
  }

  /** The same run starts each machine exactly once and stops each exactly
      once, and addresses no machine outside the list. */
  lemma LifecycleOnce(n: nat)
    ensures var c := Sweep(Started, n) + Sweep(Stopped, n);
      forall call :: multiset(c)[call] == if call.machine < n then 1 else 0
  {
    SweepOnce(Started, n);
    SweepOnce(Stopped, n);
    var s: seq<Call> := Sweep(Started, n);
    var t: seq<Call> := Sweep(Stopped, n);
    assert multiset(s + t) == multiset(s) + multiset(t);
  }
}
