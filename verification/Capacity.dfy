/** The resource limits a tenant is ordered with (calculateLimits in
    internal/controller/waldurcluster_controller.go) against what the VM orders later ask of it
    (buildOrderPayload in internal/controller/waldurmachine_controller.go). */
module Capacity {
  import opened Prelude

  const CONTROLLER_CORES := 4
  const CONTROLLER_RAM := 8 * 1024
  const LB_CORES := 2
  const LB_RAM := 4 * 1024
  const SYSTEM_DISK := 20 * 1024

  /** Ram in MiB. */
  datatype Flavor = Flavor(cores: nat, ram: nat)

  /** Disk sizes in GiB. */
  datatype NodeGroup = NodeGroup(flavor: string, count: nat, dataDisk: Option<nat>, vsanDisk: Option<nat>)

  /** Ram and storage in MiB. */
  datatype Limits = Limits(cores: nat, ram: nat, storage: nat)

  /** What the flavor lookup finds; a name it fails on is absent. */
  type Catalog = map<string, Flavor>

  /** One quantity, per node of a group. */
  type PerNode = NodeGroup -> nat

  /** The share of the three controllers and the load balancer. */
  const RESERVED := Limits(3 * CONTROLLER_CORES + LB_CORES, 3 * CONTROLLER_RAM + LB_RAM, (3 + 1) * SYSTEM_DISK)

  function InMiB(size: Option<nat>): nat {
    if size.Some? then size.value * 1024 else 0
  }

  predicate Resolves(catalog: Catalog, groups: seq<NodeGroup>) {
    forall g :: g in groups ==> g.flavor in catalog
  }

  function CoresOf(catalog: Catalog): PerNode {
    (g: NodeGroup) => if g.flavor in catalog then catalog[g.flavor].cores else 0
  }

  function RamOf(catalog: Catalog): PerNode {
    (g: NodeGroup) => if g.flavor in catalog then catalog[g.flavor].ram else 0
  }

  function StorageOf(): PerNode {
    (g: NodeGroup) => SYSTEM_DISK + InMiB(g.dataDisk) + InMiB(g.vsanDisk)
  }

  /** The sum over the nodes of all groups. */
  function Total(per: PerNode, groups: seq<NodeGroup>): nat {
    if groups == [] then 0
    else Total(per, groups[..|groups| - 1]) + groups[|groups| - 1].count * per(groups[|groups| - 1])
  }

  function LimitsOf(catalog: Catalog, groups: seq<NodeGroup>): Limits {
    Limits(RESERVED.cores + Total(CoresOf(catalog), groups),
           RESERVED.ram + Total(RamOf(catalog), groups),
           RESERVED.storage + Total(StorageOf(), groups))
  }

  lemma TotalOfMore(per: PerNode, groups: seq<NodeGroup>, i: nat)
    requires i < |groups|
    ensures Total(per, groups[..i + 1]) == Total(per, groups[..i]) + groups[i].count * per(groups[i])
  {
    assert groups[..i + 1][..i] == groups[..i];
  }

  lemma ThreeParts(n: nat, a: nat, b: nat, c: nat)
    ensures n * (a + b + c) == n * a + n * b + n * c
  {}

  /** What one group adds to the three sums, written the way the loop adds it. */
  lemma GroupAdds(catalog: Catalog, groups: seq<NodeGroup>, i: nat)
    requires i < |groups| && groups[i].flavor in catalog
    ensures var g := groups[i];
            && Total(CoresOf(catalog), groups[..i + 1]) == Total(CoresOf(catalog), groups[..i]) + g.count * catalog[g.flavor].cores
            && Total(RamOf(catalog), groups[..i + 1]) == Total(RamOf(catalog), groups[..i]) + g.count * catalog[g.flavor].ram
            && Total(StorageOf(), groups[..i + 1])
               == Total(StorageOf(), groups[..i]) + (g.count * SYSTEM_DISK + g.count * InMiB(g.dataDisk) + g.count * InMiB(g.vsanDisk))
  {
    TotalOfMore(CoresOf(catalog), groups, i);
    TotalOfMore(RamOf(catalog), groups, i);
    TotalOfMore(StorageOf(), groups, i);
    ThreeParts(groups[i].count, SYSTEM_DISK, InMiB(groups[i].dataDisk), InMiB(groups[i].vsanDisk));
  }

  /** The storage part of one iteration. */
  method AddDisks(before: nat, g: NodeGroup) returns (storage: nat)
    ensures storage == before + (g.count * SYSTEM_DISK + g.count * InMiB(g.dataDisk) + g.count * InMiB(g.vsanDisk))
  {
    storage := before + g.count * SYSTEM_DISK;
    if g.dataDisk.Some? {
      storage := storage + g.count * (g.dataDisk.value * 1024);
    }
    if g.vsanDisk.Some? {
      storage := storage + g.count * (g.vsanDisk.value * 1024);
    }
  }

  /** calculateLimits: the sum over the groups on top of the reserved share, or an error when some
      flavor cannot be found. */
  method CalculateLimits(catalog: Catalog, groups: seq<NodeGroup>) returns (limits: Option<Limits>)
    ensures limits.Some? <==> Resolves(catalog, groups)
    ensures limits.Some? ==> limits.value == LimitsOf(catalog, groups)
  {
    var cores: nat := 3 * CONTROLLER_CORES + LB_CORES;
    var ram: nat := 3 * CONTROLLER_RAM + LB_RAM;
    var storage: nat := (3 + 1) * SYSTEM_DISK;
    var i := 0;
    while i < |groups|
      invariant i <= |groups| && Resolves(catalog, groups[..i])
      invariant cores == RESERVED.cores + Total(CoresOf(catalog), groups[..i])
      invariant ram == RESERVED.ram + Total(RamOf(catalog), groups[..i])
      invariant storage == RESERVED.storage + Total(StorageOf(), groups[..i])
    {
      var g := groups[i];
      if g.flavor !in catalog {
        return None;
      }
      GroupAdds(catalog, groups, i);
      cores := cores + g.count * catalog[g.flavor].cores;
      ram := ram + g.count * catalog[g.flavor].ram;
      storage := AddDisks(storage, g);
      i := i + 1;
    }
    assert groups[..|groups|] == groups;
    return Some(Limits(cores, ram, storage));
  }

  // ----- the sum does not depend on how the groups are written down -----

  lemma {:induction false} TotalOfConcat(per: PerNode, a: seq<NodeGroup>, b: seq<NodeGroup>)
    ensures Total(per, a + b) == Total(per, a) + Total(per, b)
    decreases |b|
  {
    if b == [] {
      assert a + b == a;
    } else {
      assert (a + b)[..|a + b| - 1] == a + b[..|b| - 1];
      TotalOfConcat(per, a, b[..|b| - 1]);
    }
  }

  lemma TotalAround(per: PerNode, before: seq<NodeGroup>, g: NodeGroup, after: seq<NodeGroup>)
    ensures Total(per, before + ([g] + after)) == Total(per, before + after) + g.count * per(g)
  {
    TotalOfConcat(per, before, after);
    TotalOfConcat(per, [g], after);
    TotalOfConcat(per, before, [g] + after);
    assert [g][..0] == [];
  }

  lemma SameRest<T>(front: seq<T>, last: T, before: seq<T>, after: seq<T>)
    requires multiset(front + ([last] + [])) == multiset(before + ([last] + after))
    ensures multiset(front) == multiset(before + after)
  {
    assert multiset(front + ([last] + [])) == multiset(front) + multiset{last};
    assert multiset(before + ([last] + after)) == multiset(before + after) + multiset{last};
    assert multiset(front) == (multiset(front) + multiset{last}) - multiset{last};
    assert multiset(before + after) == (multiset(before + after) + multiset{last}) - multiset{last};
  }

  /** The first place of an element both lists have. */
  lemma Occurs<T>(front: seq<T>, last: T, b: seq<T>) returns (i: nat)
    requires multiset(front + ([last] + [])) == multiset(b)
    ensures i < |b| && b[i] == last && b == b[..i] + ([last] + b[i + 1..])
    ensures multiset(front) == multiset(b[..i] + b[i + 1..])
  {
    assert last in multiset(front + ([last] + []));
    i :| 0 <= i < |b| && b[i] == last;
    assert b == b[..i] + ([last] + b[i + 1..]);
    SameRest(front, last, b[..i], b[i + 1..]);
  }

  /** Reordering the groups changes nothing. */
  lemma {:induction false} TotalPermutes(per: PerNode, a: seq<NodeGroup>, b: seq<NodeGroup>)
    requires multiset(a) == multiset(b)
    ensures Total(per, a) == Total(per, b)
    decreases |a|
  {
    if a == [] {
      assert |multiset(b)| == 0;
    } else {
      var last, front := a[|a| - 1], a[..|a| - 1];
      assert a == front + ([last] + []) && front + [] == front;
      var i := Occurs(front, last, b);
      TotalPermutes(per, front, b[..i] + b[i + 1..]);
      TotalAround(per, front, last, []);
      TotalAround(per, b[..i], last, b[i + 1..]);
    }
  }

  /** The limits of a datacenter do not depend on the order its node groups are listed in. */
  lemma LimitsPermute(catalog: Catalog, a: seq<NodeGroup>, b: seq<NodeGroup>)
    requires multiset(a) == multiset(b)
    ensures LimitsOf(catalog, a) == LimitsOf(catalog, b)
  {
    TotalPermutes(CoresOf(catalog), a, b);
    TotalPermutes(RamOf(catalog), a, b);
    TotalPermutes(StorageOf(), a, b);
  }

  lemma Distribute(a: nat, b: nat, c: nat)
    ensures (a + b) * c == a * c + b * c
  {}

  lemma TotalSplits(per: PerNode, before: seq<NodeGroup>, g: NodeGroup, after: seq<NodeGroup>, n: nat)
    requires n <= g.count && per(g.(count := n)) == per(g) == per(g.(count := g.count - n))
    ensures Total(per, before + ([g.(count := n)] + ([g.(count := g.count - n)] + after)))
         == Total(per, before + ([g] + after))
  {
    var g1, g2 := g.(count := n), g.(count := g.count - n);
    TotalAround(per, before, g, after);
    TotalAround(per, before, g1, [g2] + after);
    TotalAround(per, before, g2, after);
    SplitProduct(n, g.count, per(g));
  }

  lemma SplitProduct(n: nat, k: nat, x: nat)
    requires n <= k
    ensures n * x + (k - n) * x == k * x
  {
    Distribute(n, k - n, x);
  }

  /** Nor on whether some nodes of a group are listed as a group of their own. */
  lemma LimitsSplit(catalog: Catalog, before: seq<NodeGroup>, g: NodeGroup, after: seq<NodeGroup>, n: nat)
    requires n <= g.count
    ensures LimitsOf(catalog, before + ([g.(count := n)] + ([g.(count := g.count - n)] + after)))
         == LimitsOf(catalog, before + ([g] + after))
  {
    TotalSplits(CoresOf(catalog), before, g, after, n);
    TotalSplits(RamOf(catalog), before, g, after, n);
    TotalSplits(StorageOf(), before, g, after, n);
  }

  // ----- what VM orders ask for -----

  /** The sizes of a WaldurMachine, in GiB; the vSAN size is never part of an order. */
  datatype Sizes = Sizes(flavor: string, systemDisk: Option<nat>, dataDisk: Option<nat>, vsanDisk: Option<nat>)

  /** The system disk of a machine. An order without a size leaves the choice, `fallback` MiB, to the
      backend. */
  function SystemDisk(m: Sizes, fallback: nat): nat {
    if m.systemDisk.Some? then m.systemDisk.value * 1024 else fallback
  }

  /** What the order of a machine takes from the tenant. */
  function Ordered(catalog: Catalog, m: Sizes, fallback: nat): Limits
    requires m.flavor in catalog
  {
    Limits(catalog[m.flavor].cores, catalog[m.flavor].ram, SystemDisk(m, fallback) + InMiB(m.dataDisk))
  }

  /** The nodes of group `i` among machines assigned to groups. */
  function CountIn(group: seq<nat>, i: nat): nat {
    if group == [] then 0 else CountIn(group[..|group| - 1], i) + (if group[|group| - 1] == i then 1 else 0)
  }

  function Sum(amounts: seq<nat>): nat {
    if amounts == [] then 0 else Sum(amounts[..|amounts| - 1]) + amounts[|amounts| - 1]
  }

  /** Taking one node out of a group takes its share out of the total. */
  lemma OneLess(per: PerNode, groups: seq<NodeGroup>, i: nat)
    requires i < |groups| && groups[i].count > 0
    requires per(groups[i].(count := groups[i].count - 1)) == per(groups[i])
    ensures Total(per, groups) == Total(per, groups[i := groups[i].(count := groups[i].count - 1)]) + per(groups[i])
  {
    var g, fewer := groups[i], groups[i].(count := groups[i].count - 1);
    var before, after := groups[..i], groups[i + 1..];
    assert groups == before + ([g] + after) && groups[i := fewer] == before + ([fewer] + after);
    TotalAround(per, before, g, after);
    TotalAround(per, before, fewer, after);
    Distribute(g.count - 1, 1, per(g));
  }

  /** `per` looks at what the nodes are like, not at how many there are. */
  ghost predicate IgnoresCount(per: PerNode) {
    forall g: NodeGroup, n: nat :: per(g.(count := n)) == per(g)
  }

  lemma SharesIgnoreCount(catalog: Catalog)
    ensures IgnoresCount(CoresOf(catalog)) && IgnoresCount(RamOf(catalog)) && IgnoresCount(StorageOf())
  {}

  predicate WithinShare(per: PerNode, groups: seq<NodeGroup>, amounts: seq<nat>, group: seq<nat>, k: nat)
    requires k < |group| == |amounts|
  {
    group[k] < |groups| && amounts[k] <= per(groups[group[k]])
  }

  /** Machines in groups that are not overfull, each within the share of its group, stay within the
      total of the groups. */
  lemma {:induction false} SharesSuffice(per: PerNode, groups: seq<NodeGroup>, amounts: seq<nat>, group: seq<nat>)
    requires IgnoresCount(per) && |amounts| == |group|
    requires forall k :: 0 <= k < |group| ==> WithinShare(per, groups, amounts, group, k)
    requires forall i :: 0 <= i < |groups| ==> CountIn(group, i) <= groups[i].count
    ensures Sum(amounts) <= Total(per, groups)
    decreases |group|
  {
    if group != [] {
      var n := |group| - 1;
      assert WithinShare(per, groups, amounts, group, n);
      var i := group[n];
      assert CountIn(group, i) == CountIn(group[..n], i) + 1;
      var fewer := groups[i := groups[i].(count := groups[i].count - 1)];
      OneLess(per, groups, i);
      forall k | 0 <= k < n ensures WithinShare(per, fewer, amounts[..n], group[..n], k) {
        assert WithinShare(per, groups, amounts, group, k);
      }
      forall j | 0 <= j < |fewer| ensures CountIn(group[..n], j) <= fewer[j].count {
        assert CountIn(group, j) <= groups[j].count;
      }
      SharesSuffice(per, fewer, amounts[..n], group[..n]);
    }
  }

  /** Machine `k` belongs to group `group[k]`: same flavor, a data disk no larger than the group's, a
      system disk of at most 20 GiB; and no group has more machines than its count. */
  ghost predicate Assigned(machines: seq<Sizes>, group: seq<nat>, groups: seq<NodeGroup>, fallback: nat) {
    && |group| == |machines|
    && (forall k :: 0 <= k < |machines| ==> group[k] < |groups| && Fits(machines[k], groups[group[k]], fallback))
    && (forall i :: 0 <= i < |groups| ==> CountIn(group, i) <= groups[i].count)
  }

  predicate Fits(m: Sizes, g: NodeGroup, fallback: nat) {
    m.flavor == g.flavor && SystemDisk(m, fallback) <= SYSTEM_DISK && InMiB(m.dataDisk) <= InMiB(g.dataDisk)
  }

  /** The demand of the machines, quantity by quantity. */
  function Demand(catalog: Catalog, machines: seq<Sizes>, fallback: nat): Limits
    requires forall m :: m in machines ==> m.flavor in catalog
  {
    Limits(Sum(seq(|machines|, i requires 0 <= i < |machines| => Ordered(catalog, machines[i], fallback).cores)),
           Sum(seq(|machines|, i requires 0 <= i < |machines| => Ordered(catalog, machines[i], fallback).ram)),
           Sum(seq(|machines|, i requires 0 <= i < |machines| => Ordered(catalog, machines[i], fallback).storage)))
  }

  /** The machines of the node groups never ask for more than the limits, with the reserved share
      left to the controllers and the load balancer. */
  lemma LimitsCoverDemand(catalog: Catalog, groups: seq<NodeGroup>, machines: seq<Sizes>, group: seq<nat>, fallback: nat)
    requires Resolves(catalog, groups) && Assigned(machines, group, groups, fallback)
    ensures forall m :: m in machines ==> m.flavor in catalog
    ensures var (demand, limits) := (Demand(catalog, machines, fallback), LimitsOf(catalog, groups));
            && demand.cores + RESERVED.cores <= limits.cores
            && demand.ram + RESERVED.ram <= limits.ram
            && demand.storage + RESERVED.storage <= limits.storage
  {
    var cores := seq(|machines|, i requires 0 <= i < |machines| => Ordered(catalog, machines[i], fallback).cores);
    var ram := seq(|machines|, i requires 0 <= i < |machines| => Ordered(catalog, machines[i], fallback).ram);
    var storage := seq(|machines|, i requires 0 <= i < |machines| => Ordered(catalog, machines[i], fallback).storage);
    forall k | 0 <= k < |machines|
      ensures && WithinShare(CoresOf(catalog), groups, cores, group, k)
              && WithinShare(RamOf(catalog), groups, ram, group, k)
              && WithinShare(StorageOf(), groups, storage, group, k)
    {
      assert Fits(machines[k], groups[group[k]], fallback);
    }
    SharesIgnoreCount(catalog);
    SharesSuffice(CoresOf(catalog), groups, cores, group);
    SharesSuffice(RamOf(catalog), groups, ram, group);
    SharesSuffice(StorageOf(), groups, storage, group);
  }

  // ----- the limits are not larger than they need be -----

  /** The machines of a group when all of them are there, each with a 20 GiB system disk and the group's
      data disk. */
  function NodesOf(g: NodeGroup): seq<Sizes> {
    seq(g.count, _ => NodeOf(g))
  }

  function NodeOf(g: NodeGroup): Sizes { Sizes(g.flavor, Some(20), g.dataDisk, g.vsanDisk) }

  function AllNodes(groups: seq<NodeGroup>): seq<Sizes> {
    if groups == [] then [] else AllNodes(groups[..|groups| - 1]) + NodesOf(groups[|groups| - 1])
  }

  function Plus(a: Limits, n: nat, b: Limits): Limits {
    Limits(a.cores + n * b.cores, a.ram + n * b.ram, a.storage + n * b.storage)
  }

  lemma DemandOneMore(catalog: Catalog, machines: seq<Sizes>, m: Sizes)
    requires m.flavor in catalog && forall x :: x in machines ==> x.flavor in catalog
    ensures Demand(catalog, machines + [m], 0) == Plus(Demand(catalog, machines, 0), 1, Ordered(catalog, m, 0))
  {
    var more := machines + [m];
    var cores := seq(|more|, i requires 0 <= i < |more| => Ordered(catalog, more[i], 0).cores);
    var ram := seq(|more|, i requires 0 <= i < |more| => Ordered(catalog, more[i], 0).ram);
    var storage := seq(|more|, i requires 0 <= i < |more| => Ordered(catalog, more[i], 0).storage);
    var n := |machines|;
    assert cores[..n] == seq(n, i requires 0 <= i < n => Ordered(catalog, machines[i], 0).cores);
    assert ram[..n] == seq(n, i requires 0 <= i < n => Ordered(catalog, machines[i], 0).ram);
    assert storage[..n] == seq(n, i requires 0 <= i < n => Ordered(catalog, machines[i], 0).storage);
  }

  lemma {:induction false} DemandOfMore(catalog: Catalog, machines: seq<Sizes>, m: Sizes, n: nat)
    requires m.flavor in catalog && forall x :: x in machines ==> x.flavor in catalog
    ensures Demand(catalog, machines + seq(n, _ => m), 0) == Plus(Demand(catalog, machines, 0), n, Ordered(catalog, m, 0))
  {
    if n == 0 {
      assert machines + seq(n, _ => m) == machines;
    } else {
      DemandOfMore(catalog, machines, m, n - 1);
      DemandOneMore(catalog, machines + seq(n - 1, _ => m), m);
      assert machines + seq(n, _ => m) == machines + seq(n - 1, _ => m) + [m];
      OneMore(n, Ordered(catalog, m, 0));
    }
  }

  lemma OneMore(n: nat, b: Limits)
    requires n > 0
    ensures n * b.cores == (n - 1) * b.cores + b.cores && n * b.ram == (n - 1) * b.ram + b.ram
    ensures n * b.storage == (n - 1) * b.storage + b.storage
  {
    Distribute(n - 1, 1, b.cores);
    Distribute(n - 1, 1, b.ram);
    Distribute(n - 1, 1, b.storage);
  }

  lemma {:induction false} NodesResolve(catalog: Catalog, groups: seq<NodeGroup>)
    requires Resolves(catalog, groups)
    ensures forall m :: m in AllNodes(groups) ==> m.flavor in catalog
  {
    if groups != [] {
      NodesResolve(catalog, groups[..|groups| - 1]);
    }
  }

  lemma {:induction false} NodesDemand(catalog: Catalog, groups: seq<NodeGroup>)
    requires Resolves(catalog, groups)
    ensures forall m :: m in AllNodes(groups) ==> m.flavor in catalog
    ensures var demand := Demand(catalog, AllNodes(groups), 0);
            && demand.cores == Total(CoresOf(catalog), groups) && demand.ram == Total(RamOf(catalog), groups)
            && demand.storage + Total(VsanOf(), groups) == Total(StorageOf(), groups)
  {
    NodesResolve(catalog, groups);
    if groups != [] {
      var g, front := groups[|groups| - 1], groups[..|groups| - 1];
      NodesDemand(catalog, front);
      DemandOfMore(catalog, AllNodes(front), NodeOf(g), g.count);
      ThreeParts(g.count, SYSTEM_DISK, InMiB(g.dataDisk), InMiB(g.vsanDisk));
      ThreeParts(g.count, SYSTEM_DISK, InMiB(g.dataDisk), 0);
    }
  }

  /** With every node there, the orders together ask for exactly the limits less what is set aside: 14
      cores, 28 GiB of ram and four 20 GiB disks for the three controllers and the load balancer, and
      the vSAN disks. */
  lemma {:induction false} FullClusterUsesLimits(catalog: Catalog, groups: seq<NodeGroup>)
    requires Resolves(catalog, groups)
    ensures forall m :: m in AllNodes(groups) ==> m.flavor in catalog
    ensures var (demand, limits) := (Demand(catalog, AllNodes(groups), 0), LimitsOf(catalog, groups));
            && limits.cores == demand.cores + 14
            && limits.ram == demand.ram + 28672
            && limits.storage == demand.storage + 81920 + Total(VsanOf(), groups)
  {
    NodesDemand(catalog, groups);
  }

  // ----- exactly which system disks fit -----

  function FullOf(system: nat): PerNode {
    (g: NodeGroup) => system + InMiB(g.dataDisk)
  }

  function One(): PerNode {
    (g: NodeGroup) => 1
  }

  function VsanOf(): PerNode {
    (g: NodeGroup) => InMiB(g.vsanDisk)
  }

  lemma {:induction false} StorageDifference(groups: seq<NodeGroup>, system: nat)
    ensures Total(StorageOf(), groups) + Total(One(), groups) * system
         == Total(FullOf(system), groups) + Total(One(), groups) * SYSTEM_DISK + Total(VsanOf(), groups)
  {
    if groups != [] {
      var g, front := groups[|groups| - 1], groups[..|groups| - 1];
      StorageDifference(front, system);
      ThreeParts(g.count, SYSTEM_DISK, InMiB(g.dataDisk), InMiB(g.vsanDisk));
      ThreeParts(g.count, system, InMiB(g.dataDisk), 0);
      Distribute(Total(One(), front), g.count, system);
      Distribute(Total(One(), front), g.count, SYSTEM_DISK);
    }
  }

  /** A cluster with every node there, its data disks and `system` MiB of system disk per node keeps
      out of the reserved storage exactly when the system disks, beyond the 20 GiB reckoned with,
      fit in the vSAN space no order ever asks for. */
  lemma {:induction false} FullClusterFitsExactly(catalog: Catalog, groups: seq<NodeGroup>, system: nat)
    ensures Total(FullOf(system), groups) + RESERVED.storage <= LimitsOf(catalog, groups).storage
            <==> Total(One(), groups) * system <= Total(One(), groups) * SYSTEM_DISK + Total(VsanOf(), groups)
  {
    StorageDifference(groups, system);
  }

  /** Without vSAN disks that leaves 20 GiB and no more. */
  lemma WithoutVsan(catalog: Catalog, groups: seq<NodeGroup>, system: nat)
    requires Total(VsanOf(), groups) == 0 && Total(One(), groups) > 0
    ensures Total(FullOf(system), groups) + RESERVED.storage <= LimitsOf(catalog, groups).storage <==> system <= SYSTEM_DISK
  {
    FullClusterFitsExactly(catalog, groups, system);
    Larger(Total(One(), groups), system, SYSTEM_DISK);
  }

  lemma Larger(n: nat, a: nat, b: nat)
    requires n > 0
    ensures n * a <= n * b <==> a <= b
  {
    if a <= b {
      Distribute(a, b - a, n);
    } else {
      Distribute(b, a - b, n);
    }
  }
}
