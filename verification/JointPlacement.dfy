/** A cluster and its machines together. A machine pass that finds its cluster reads the tenants
    stored there; the ledger `placed` keeps, for every VM order a machine got accepted, the tenant
    resource and the project it went through. */
module JointPlacement {
  import opened Prelude
  import opened Waldur
  import opened ApiTypes
  import opened MachineSpec
  import opened MachineProofs
  import opened MachineTheorems
  import opened ClusterSpec
  import CP = ClusterProofs
  import opened ClusterReadiness

  /** The tenant resource and the project of a VM order. */
  type Place = (Option<Uuid>, string)

  datatype Joint = Joint(cluster: ClusterWorld, machines: map<string, World>, placed: map<(string, Uuid), Place>)

  /** Each controller keeps its own view of the marketplace; steps of others, the other controllers'
      orders among them, are steps of that view. */
  datatype JointStep = ClusterMoves(c: ClusterStep) | MachineMoves(name: string, m: Step)

  ghost predicate LegalJoint(j: Joint, s: JointStep) {
    match s
    case ClusterMoves(c) => LegalCluster(j.cluster, c)
    case MachineMoves(name, m) =>
      && name in j.machines && Legal(j.machines[name], m)
      && (m.Reconcile? && m.o.lookup.Found? ==>
            j.cluster.stored.Some? && m.o.lookup.tenants == j.cluster.stored.value.status.tenants)
  }

  /** The place of the VM order a step gets accepted. */
  function PlaceOf(cfg: Config, w: World, s: Step): Option<(Uuid, Place)> {
    if s.Reconcile? && Accepted(cfg, w, s.o).Some? && Accepted(cfg, w, s.o).value.kind == Create
       && s.o.lookup.Found? && Placement(s.o.lookup.tenants, cfg.offering).Some?
    then Some((Accepted(cfg, w, s.o).value.id, Placement(s.o.lookup.tenants, cfg.offering).value))
    else None
  }

  /** The ledger after a step of one machine. */
  function Noted(placed: map<(string, Uuid), Place>, name: string, place: Option<(Uuid, Place)>): map<(string, Uuid), Place> {
    if place.Some? then placed[(name, place.value.0) := place.value.1] else placed
  }

  function DoJoint(cfgs: map<string, Config>, j: Joint, s: JointStep): Joint {
    match s
    case ClusterMoves(c) => j.(cluster := DoCluster(j.cluster, c))
    case MachineMoves(name, m) =>
      if name !in j.machines || name !in cfgs then j
      else
        var place := PlaceOf(cfgs[name], j.machines[name], m);
        j.(machines := j.machines[name := Do(cfgs[name], j.machines[name], m)],
           placed := Noted(j.placed, name, place))
  }

  function RunJoint(cfgs: map<string, Config>, j: Joint, steps: seq<JointStep>): Joint {
    if steps == [] then j else DoJoint(cfgs, RunJoint(cfgs, j, steps[..|steps| - 1]), steps[|steps| - 1])
  }

  ghost predicate LegalJointRun(cfgs: map<string, Config>, j: Joint, steps: seq<JointStep>) {
    forall i :: 0 <= i < |steps| ==> LegalJoint(RunJoint(cfgs, j, steps[..i]), steps[i])
  }

  ghost predicate InitJoint(cfgs: map<string, Config>, j: Joint) {
    && InitCluster(j.cluster) && j.placed == map[]
    && j.machines.Keys == cfgs.Keys && forall name :: name in j.machines ==> Init(j.machines[name])
  }

  // ----- the invariant -----

  function Creations(w: World): set<Uuid> {
    OrdersOf(w.market, MACHINE_SLOT, Create)
  }

  ghost predicate MachinesOk(cfgs: map<string, Config>, j: Joint) {
    && j.machines.Keys == cfgs.Keys
    && (forall name :: name in j.machines ==> Inv(j.machines[name]))
    && (forall name, id :: (name, id) in j.placed <==> name in j.machines && id in Creations(j.machines[name]))
  }

  /** The tenant an offering's VMs are placed with. */
  predicate PlacedWith(tenants: map<string, Tenant>, offering: string, place: Place) {
    && offering in tenants && place.0.Some?
    && tenants[offering].resource == place.0 && tenants[offering].project == Some(place.1)
  }

  ghost predicate PlacesOk(cfgs: map<string, Config>, j: Joint) {
    && (forall k :: k in j.placed ==> k.0 in cfgs && j.placed[k].0.Some?)
    && (j.cluster.stored.Some? ==>
          forall k :: k in j.placed ==> PlacedWith(j.cluster.stored.value.status.tenants, cfgs[k.0].offering, j.placed[k]))
    && (forall a, b :: a in j.placed && b in j.placed && cfgs[a.0].offering == cfgs[b.0].offering ==> j.placed[a] == j.placed[b])
  }

  /** An accepted order is a new creation, and it has a place. */
  lemma StepCreates(cfg: Config, w: World, s: Step)
    requires Inv(w) && Legal(w, s)
    ensures var place := PlaceOf(cfg, w, s);
            Creations(Do(cfg, w, s)) == Creations(w) + (if place.Some? then {place.value.0} else {})
  {
    match s
    case DeleteRequest =>
    case Others(market, kv) =>
      forall id | id in w.market.mine ensures OrderGrows(w.market.orders[id], market.orders[id]) {}
    case Reconcile(o) =>
      PassAdds(cfg, w, o);
      AddsCreations(w, Pass(cfg, w, o).0, Accepted(cfg, w, o));
  }

  lemma AddsCreations(w: World, w': World, a: Option<Acceptance>)
    requires Adds(w, w', a)
    ensures Creations(w') == Creations(w) + (if a.Some? && a.value.kind == Create then {a.value.id} else {})
  {
    var more := if a.Some? && a.value.kind == Create then {a.value.id} else {};
    forall id ensures id in Creations(w') <==> id in Creations(w) + more {}
  }

  /** The place of a new order is the stored tenant of the offering. */
  lemma PlaceIsTenant(cfg: Config, cluster: ClusterWorld, w: World, s: Step)
    requires CP.ClusterInv(cluster) && PlaceOf(cfg, w, s).Some?
    requires cluster.stored.Some? && s.o.lookup.tenants == cluster.stored.value.status.tenants
    ensures PlacedWith(cluster.stored.value.status.tenants, cfg.offering, PlaceOf(cfg, w, s).value.1)
  {}

  lemma MachinesMore(cfgs: map<string, Config>, j: Joint, name: string, w': World, place: Option<(Uuid, Place)>)
    requires MachinesOk(cfgs, j) && name in j.machines && Inv(w')
    requires Creations(w') == Creations(j.machines[name]) + (if place.Some? then {place.value.0} else {})
    ensures MachinesOk(cfgs, j.(machines := j.machines[name := w'], placed := Noted(j.placed, name, place)))
  {
    var machines, placed := j.machines[name := w'], Noted(j.placed, name, place);
    forall other, id ensures (other, id) in placed <==> other in machines && id in Creations(machines[other]) {
      assert (other, id) in j.placed <==> other in j.machines && id in Creations(j.machines[other]);
      if place.Some? {
        assert (other, id) == (name, place.value.0) <==> other == name && id == place.value.0;
      }
    }
  }

  lemma MachineStepInv(cfgs: map<string, Config>, j: Joint, name: string, m: Step)
    requires CP.ClusterInv(j.cluster) && MachinesOk(cfgs, j) && PlacesOk(cfgs, j) && LegalJoint(j, MachineMoves(name, m))
    ensures MachinesOk(cfgs, DoJoint(cfgs, j, MachineMoves(name, m)))
    ensures PlacesOk(cfgs, DoJoint(cfgs, j, MachineMoves(name, m)))
  {
    var cfg, w := cfgs[name], j.machines[name];
    DoInv(cfg, w, m);
    StepCreates(cfg, w, m);
    MachinesMore(cfgs, j, name, Do(cfg, w, m), PlaceOf(cfg, w, m));
    PlacesMore(cfgs, j, name, m);
  }

  lemma PlacesMore(cfgs: map<string, Config>, j: Joint, name: string, m: Step)
    requires CP.ClusterInv(j.cluster) && PlacesOk(cfgs, j) && LegalJoint(j, MachineMoves(name, m)) && name in cfgs
    ensures PlacesOk(cfgs, j.(placed := Noted(j.placed, name, PlaceOf(cfgs[name], j.machines[name], m))))
  {
    var place := PlaceOf(cfgs[name], j.machines[name], m);
    if place.Some? {
      PlaceIsTenant(cfgs[name], j.cluster, j.machines[name], m);
      PlacedMore(cfgs, j, name, place.value.0, place.value.1);
    }
  }

  lemma PlacedMore(cfgs: map<string, Config>, j: Joint, name: string, id: Uuid, place: Place)
    requires PlacesOk(cfgs, j) && name in cfgs && j.cluster.stored.Some?
    requires PlacedWith(j.cluster.stored.value.status.tenants, cfgs[name].offering, place)
    ensures PlacesOk(cfgs, j.(placed := j.placed[(name, id) := place]))
  {}

  lemma ClusterStepInv(cfgs: map<string, Config>, j: Joint, c: ClusterStep)
    requires CP.ClusterInv(j.cluster) && PlacesOk(cfgs, j) && LegalCluster(j.cluster, c)
    ensures PlacesOk(cfgs, j.(cluster := DoCluster(j.cluster, c)))
  {
    forall k | k in j.placed ensures KeepsPlacement(j.cluster, DoCluster(j.cluster, c), cfgs[k.0].offering) {
      StepKeepsPlacement(j.cluster, c, cfgs[k.0].offering);
    }
  }

  lemma {:induction false} RunJointInv(cfgs: map<string, Config>, j: Joint, steps: seq<JointStep>)
    requires InitJoint(cfgs, j) && LegalJointRun(cfgs, j, steps)
    ensures var end := RunJoint(cfgs, j, steps); CP.ClusterInv(end.cluster) && MachinesOk(cfgs, end) && PlacesOk(cfgs, end)
  {
    if steps == [] {
      StartsOk(cfgs, j);
    } else {
      var front, s := steps[..|steps| - 1], steps[|steps| - 1];
      forall i | 0 <= i < |front| ensures LegalJoint(RunJoint(cfgs, j, front[..i]), front[i]) {
        assert front[..i] == steps[..i];
      }
      RunJointInv(cfgs, j, front);
      var mid := RunJoint(cfgs, j, front);
      match s
      case ClusterMoves(c) =>
        CP.DoClusterInv(mid.cluster, c);
        ClusterStepInv(cfgs, mid, c);
      case MachineMoves(name, m) => MachineStepInv(cfgs, mid, name, m);
    }
  }

  lemma StartsOk(cfgs: map<string, Config>, j: Joint)
    requires InitJoint(cfgs, j)
    ensures CP.ClusterInv(j.cluster) && MachinesOk(cfgs, j) && PlacesOk(cfgs, j)
  {
    CP.RunClusterInv(j.cluster, []);
    forall name | name in j.machines ensures Inv(j.machines[name]) && Creations(j.machines[name]) == {} {
      assert Init(j.machines[name]);
    }
  }

  /** In every run, any two accepted VM orders of one offering, of whatever machines and lost or not,
      went through the same tenant resource and the same project. */
  lemma {:induction false} OnePlacePerOffering(cfgs: map<string, Config>, j: Joint, steps: seq<JointStep>, a: string, idA: Uuid, b: string, idB: Uuid)
    requires InitJoint(cfgs, j) && LegalJointRun(cfgs, j, steps)
    requires a in cfgs && b in cfgs && cfgs[a].offering == cfgs[b].offering
    requires a in RunJoint(cfgs, j, steps).machines && idA in Creations(RunJoint(cfgs, j, steps).machines[a])
    requires b in RunJoint(cfgs, j, steps).machines && idB in Creations(RunJoint(cfgs, j, steps).machines[b])
    ensures var placed := RunJoint(cfgs, j, steps).placed;
            && (a, idA) in placed && (b, idB) in placed
            && placed[(a, idA)] == placed[(b, idB)] && placed[(a, idA)].0.Some?
  {
    RunJointInv(cfgs, j, steps);
  }
}
