// The list of network adapters: which of them are used, and the worker
// configurations made for those that are.
module Adapters {
  import opened Addresses

  datatype Adapter = Adapter(name: string, ip: IpAddress)

  datatype Entry = Entry(active: bool, adapter: Adapter)

  /** One worker's configuration; `port` is a 16-bit and `uid` an 8-bit number. */
  datatype WorkerConfig = WorkerConfig(receiver: bool, ip: IpAddress, port: nat, uid: nat, socket: int)

  const FIRST_PORT: nat := 65530

  function PortOf(pair: nat): nat {
    (FIRST_PORT + pair) % 0x1_0000
  }

  function UidOf(worker: nat): nat {
    worker % 0x100
  }

  /** The adapters in use, in list order. */
  function ActiveOf(entries: seq<Entry>): (r: seq<Adapter>)
    ensures |r| <= |entries|
    ensures forall a :: a in r <==> Entry(true, a) in entries
  {
    if entries == [] then []
    else
      var last := entries[|entries| - 1];
      ActiveOf(entries[..|entries| - 1]) + if last.active then [last.adapter] else []
  }

  /** What `configs` has to be for the adapters in use: a sender and a receiver
      for each, in order, on one address, port and socket. */
  ghost predicate PairsFor(used: seq<Adapter>, sockets: seq<int>, configs: seq<WorkerConfig>) {
    && |configs| == 2 * |used| && |used| <= |sockets|
    && forall k :: 0 <= k < |used| ==> PairAt(used[k], sockets[k], k, configs)
  }

  predicate PairAt(a: Adapter, socket: int, k: nat, configs: seq<WorkerConfig>)
    requires |configs| >= 2 * k + 2
  {
    && configs[2 * k] == WorkerConfig(false, a.ip, PortOf(k), UidOf(2 * k), socket)
    && configs[2 * k + 1] == WorkerConfig(true, a.ip, PortOf(k), UidOf(2 * k + 1), socket)
  }

  class NetworkAdapterList {
    var entries: seq<Entry>

    constructor (entries: seq<Entry>)
      ensures this.entries == entries
    {
      this.entries := entries;
    }

    /** An adapter is in use afterwards exactly when its name is among `names`. */
    method DeactivateEverythingBut(names: seq<string>)
      modifies this
      ensures |entries| == |old(entries)|
      ensures forall i :: 0 <= i < |entries| ==>
                entries[i] == Entry(old(entries)[i].adapter.name in names, old(entries)[i].adapter)
    {
      ghost var was := entries;
      for i := 0 to |entries|
        invariant |entries| == |was|
        invariant forall k :: 0 <= k < i ==> entries[k] == Entry(was[k].adapter.name in names, was[k].adapter)
        invariant entries[i..] == was[i..]
      {
        var hasName := false;
        for j := 0 to |names|
          invariant hasName <==> entries[i].adapter.name in names[..j]
        {
          if names[j] == entries[i].adapter.name {
            hasName := true;
          }
        }
        assert entries[i] == was[i..][0] && names[..|names|] == names;
        entries := entries[i := entries[i].(active := hasName)];
      }
    }

    /** `sockets` are what opening a socket gives for one adapter after the other. */
    method GenerateUdpConfigs(sockets: seq<int>) returns (configs: seq<WorkerConfig>)
      requires |sockets| >= |entries|
      ensures PairsFor(ActiveOf(entries), sockets, configs)
    {
      var port, uid := FIRST_PORT, 0;
      configs := [];
      for i := 0 to |entries|
        invariant var used := ActiveOf(entries[..i]);
                  PairsFor(used, sockets, configs) && port == FIRST_PORT + |used| && uid == 2 * |used|
      {
        assert entries[..i + 1][..i] == entries[..i];
        if entries[i].active {
          ghost var used := ActiveOf(entries[..i]);
          var ip := entries[i].adapter.ip;
          var sender := WorkerConfig(false, ip, port % 0x1_0000, uid % 0x100, 0);
          uid := uid + 1;
          var receiver := WorkerConfig(true, ip, port % 0x1_0000, uid % 0x100, 0);
          uid := uid + 1;
          sender := sender.(socket := sockets[|configs| / 2]);
          receiver := receiver.(socket := sender.socket);
          OnePairMore(used, entries[i].adapter, sockets, configs, sender, receiver);
          configs := configs + [sender, receiver];
          port := port + 1;
        }
      }
      assert entries[..|entries|] == entries;
    }

    method HasActivatedNetworkAdapters() returns (b: bool)
      ensures b <==> ActiveOf(entries) != []
      ensures b <==> exists i :: 0 <= i < |entries| && entries[i].active
    {
      for i := 0 to |entries|
        invariant forall k :: 0 <= k < i ==> !entries[k].active
      {
        if entries[i].active {
          assert Entry(true, entries[i].adapter) in entries;
          return true;
        }
      }
      NoneActive(entries);
      return false;
    }
  }

  lemma {:induction false} NoneActive(entries: seq<Entry>)
    requires forall i :: 0 <= i < |entries| ==> !entries[i].active
    ensures ActiveOf(entries) == []
  {
    if entries != [] {
      NoneActive(entries[..|entries| - 1]);
    }
  }

  lemma OnePairMore(used: seq<Adapter>, a: Adapter, sockets: seq<int>, configs: seq<WorkerConfig>,
                    sender: WorkerConfig, receiver: WorkerConfig)
    requires PairsFor(used, sockets, configs) && |used| < |sockets|
    requires PairAt(a, sockets[|used|], |used|, configs + [sender, receiver])
    ensures PairsFor(used + [a], sockets, configs + [sender, receiver])
  {
    var longer := configs + [sender, receiver];
    forall k | 0 <= k < |used| + 1
      ensures PairAt((used + [a])[k], sockets[k], k, longer)
    {
      if k < |used| {
        assert PairAt(used[k], sockets[k], k, configs);
        assert longer[2 * k] == configs[2 * k] && longer[2 * k + 1] == configs[2 * k + 1];
      }
    }
  }

  // ---------------------------------------------------------------- narrowing

  /** Two workers of different pairs never share a port. */
  predicate PortsDistinct(configs: seq<WorkerConfig>) {
    forall i, j :: 0 <= i < |configs| && 0 <= j < |configs| && i / 2 != j / 2 ==> configs[i].port != configs[j].port
  }

  predicate PortsUsable(configs: seq<WorkerConfig>) {
    forall i :: 0 <= i < |configs| ==> configs[i].port != 0
  }

  predicate UidsDistinct(configs: seq<WorkerConfig>) {
    forall i, j :: 0 <= i < j < |configs| ==> configs[i].uid != configs[j].uid
  }

  lemma ConfigAt(used: seq<Adapter>, sockets: seq<int>, configs: seq<WorkerConfig>, i: nat)
    requires PairsFor(used, sockets, configs) && i < |configs|
    ensures configs[i] == WorkerConfig(i % 2 == 1, used[i / 2].ip, PortOf(i / 2), UidOf(i), sockets[i / 2])
  {
    assert PairAt(used[i / 2], sockets[i / 2], i / 2, configs);
    assert i == 2 * (i / 2) + i % 2;
  }

  /** Senders and receivers alternate, two for each adapter in use, in list order;
      the ports of the first six adapters are 65530 to 65535, and then from 0; the
      ids count up from 0 to 255, again and again. */
  lemma WorkerInOrder(used: seq<Adapter>, sockets: seq<int>, configs: seq<WorkerConfig>, i: nat)
    requires PairsFor(used, sockets, configs) && i < |configs|
    ensures var c := configs[i];
            && (c.receiver <==> i % 2 == 1) && c.ip == used[i / 2].ip && c.socket == sockets[i / 2]
            && (i < 12 ==> c.port == 65530 + i / 2)
            && (12 <= i < 131072 ==> c.port == i / 2 - 6)
            && (i < 256 ==> c.uid == i)
  {
    ConfigAt(used, sockets, configs, i);
  }

  /** The ids start over after 256 workers, and the ports after 65536 adapters. */
  lemma WorkersRepeat(used: seq<Adapter>, sockets: seq<int>, configs: seq<WorkerConfig>, i: nat)
    requires PairsFor(used, sockets, configs)
    ensures i + 256 < |configs| ==> configs[i + 256].uid == configs[i].uid
    ensures i + 131072 < |configs| ==> configs[i + 131072].port == configs[i].port
  {
    if i + 256 < |configs| {
      ConfigAt(used, sockets, configs, i);
      ConfigAt(used, sockets, configs, i + 256);
      UidsRepeat(i);
    }
    if i + 131072 < |configs| {
      ConfigAt(used, sockets, configs, i);
      ConfigAt(used, sockets, configs, i + 131072);
      PortsRepeat(i);
    }
  }

  lemma UidsRepeat(i: nat)
    ensures UidOf(i + 256) == UidOf(i)
  {
  }

  lemma PortsRepeat(i: nat)
    ensures PortOf((i + 131072) / 2) == PortOf(i / 2)
  {
    assert (i + 131072) / 2 == i / 2 + 0x1_0000;
  }

  lemma ActiveOfOne(e: Entry)
    ensures ActiveOf([e]) == if e.active then [e.adapter] else []
  {
    assert [e][..0] == [];
  }

  /** Lists side by side have their adapters in use side by side. */
  lemma {:induction false} ActiveOfSum(a: seq<Entry>, b: seq<Entry>)
    ensures ActiveOf(a + b) == ActiveOf(a) + ActiveOf(b)
    decreases |b|
  {
    if b == [] {
      assert a + b == a;
    } else {
      var n := |b| - 1;
      var last := if b[n].active then [b[n].adapter] else [];
      ActiveOfSum(a, b[..n]);
      assert (a + b)[..|a| + n] == a + b[..n] && (a + b)[|a| + n] == b[n];
      assert ActiveOf(a + b) == ActiveOf(a + b[..n]) + last;
      assert ActiveOf(b) == ActiveOf(b[..n]) + last;
    }
  }

  /** Sixteen bits hold a port for each of 65536 pairs, and no more. */
  lemma PortsDistinctIff(used: seq<Adapter>, sockets: seq<int>, configs: seq<WorkerConfig>)
    requires PairsFor(used, sockets, configs)
    ensures PortsDistinct(configs) <==> |used| <= 0x1_0000
  {
    if |used| > 0x1_0000 {
      ConfigAt(used, sockets, configs, 0);
      ConfigAt(used, sockets, configs, 0x2_0000);
      assert configs[0].port == configs[0x2_0000].port;
    } else {
      forall i, j | 0 <= i < |configs| && 0 <= j < |configs| && i / 2 != j / 2
        ensures configs[i].port != configs[j].port
      {
        ConfigAt(used, sockets, configs, i);
        ConfigAt(used, sockets, configs, j);
        PortsDiffer(i / 2, j / 2);
      }
    }
  }

  lemma PortsDiffer(a: nat, b: nat)
    requires a < 0x1_0000 && b < 0x1_0000 && a != b
    ensures PortOf(a) != PortOf(b)
  {
  }

  /** The seventh adapter in use gets port 0. */
  lemma PortsUsableIff(used: seq<Adapter>, sockets: seq<int>, configs: seq<WorkerConfig>)
    requires PairsFor(used, sockets, configs)
    ensures PortsUsable(configs) <==> |used| <= 6
  {
    if |used| > 6 {
      ConfigAt(used, sockets, configs, 12);
    } else {
      forall i | 0 <= i < |configs|
        ensures configs[i].port != 0
      {
        ConfigAt(used, sockets, configs, i);
      }
    }
  }

  /** Eight bits hold an id for each worker of 128 pairs, and no more. */
  lemma UidsDistinctIff(used: seq<Adapter>, sockets: seq<int>, configs: seq<WorkerConfig>)
    requires PairsFor(used, sockets, configs)
    ensures UidsDistinct(configs) <==> |used| <= 128
  {
    if |used| > 128 {
      ConfigAt(used, sockets, configs, 0);
      ConfigAt(used, sockets, configs, 256);
    } else {
      forall i, j | 0 <= i < j < |configs|
        ensures configs[i].uid != configs[j].uid
      {
        ConfigAt(used, sockets, configs, i);
        ConfigAt(used, sockets, configs, j);
      }
    }
  }

  /** Only adapters whose name was given are in use afterwards, and all of them,
      each in its old place. */
  function Selected(entries: seq<Entry>, names: seq<string>): (r: seq<Adapter>) {
    if entries == [] then []
    else
      var last := entries[|entries| - 1].adapter;
      Selected(entries[..|entries| - 1], names) + if last.name in names then [last] else []
  }

  lemma {:induction false} ActiveAreSelected(before: seq<Entry>, after: seq<Entry>, names: seq<string>)
    requires |after| == |before|
    requires forall i :: 0 <= i < |after| ==> after[i] == Entry(before[i].adapter.name in names, before[i].adapter)
    ensures ActiveOf(after) == Selected(before, names)
    decreases |before|
  {
    if before != [] {
      var n := |before| - 1;
      ActiveAreSelected(before[..n], after[..n], names);
    }
  }

  /** Choosing adapters by name and generating the configurations. */
  method Configure(adapters: NetworkAdapterList, names: seq<string>, sockets: seq<int>)
    returns (configs: seq<WorkerConfig>)
    requires |sockets| >= |adapters.entries|
    modifies adapters
    ensures PairsFor(Selected(old(adapters.entries), names), sockets, configs)
  {
    adapters.DeactivateEverythingBut(names);
    ActiveAreSelected(old(adapters.entries), adapters.entries, names);
    configs := adapters.GenerateUdpConfigs(sockets);
  }
}
