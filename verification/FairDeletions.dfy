/** The assumptions of the two deletion theorems can be met: for a machine and for a cluster, one
    whole behaviour in which something is there to delete, from the termination order over its
    completion to the object's end. */
module FairDeletions {
  import opened Prelude
  import opened Waldur
  import opened ApiTypes
  import opened MachineSpec
  import opened ClusterSpec
  import opened ClusterProofs
  import opened Deletion
  import MD = MachineDeletion
  import CD = ClusterDeletion

  const CREATION := Order(Create, "r", [Done], None)
  const TERMINATION := Order(Terminate, "r", [PENDING_PROVIDER], None)
  const TERMINATED := Order(Terminate, "r", [PENDING_PROVIDER, Done], None)

  const CREATION_RECORD := OrderRecord("c", Create, Done, Some("r"), None)
  const TERMINATION_RECORD := OrderRecord("t", Terminate, PENDING_PROVIDER, Some("r"), None)
  const TERMINATED_RECORD := OrderRecord("t", Terminate, Done, Some("r"), None)

  /** The marketplace before the termination is submitted, right after, and when it is done. */
  function Before(slot: string, projects: set<string>): Market {
    Market(map["c" := CREATION], map["c" := slot], projects)
  }

  function Requested(slot: string, projects: set<string>): Market {
    Market(map["c" := CREATION, "t" := TERMINATION], map["c" := slot, "t" := slot], projects)
  }

  function Completed(slot: string, projects: set<string>): Market {
    Market(map["c" := CREATION, "t" := TERMINATED], map["c" := slot, "t" := slot], projects)
  }

  lemma Submission(slot: string, projects: set<string>)
    ensures SubmitTermination(Before(slot, projects), slot, "r", Submitted("t", PENDING_PROVIDER))
         == (Requested(slot, projects), Some(TERMINATION_RECORD))
  {
    var m := AcceptTerminate(Before(slot, projects), slot, "r", "t", PENDING_PROVIDER);
    assert m.orders == Requested(slot, projects).orders && m.mine == Requested(slot, projects).mine;
  }

  lemma MarketSteps(slot: string, projects: set<string>)
    ensures Evolves(Requested(slot, projects), Completed(slot, projects))
    ensures Evolves(Completed(slot, projects), Completed(slot, projects))
  {
    assert TERMINATION.log <= TERMINATED.log;
    assert OrderGrows(TERMINATION, TERMINATED);
  }

  lemma MarketsSettled(slot: string, projects: set<string>)
    ensures MarketOk(Before(slot, projects))
    ensures forall settle: Uuid -> nat, i ::
              OrdersSettle(Before(slot, projects), settle, i) && OrdersSettle(Completed(slot, projects), settle, i)
    ensures OnlyBadFail(Before(slot, projects), {}) && OnlyBadFail(Completed(slot, projects), {})
  {}

  lemma SlotBefore(slot: string, projects: set<string>)
    ensures SlotOk(Slot(Some("r"), Some(CREATION_RECORD)), slot, Before(slot, projects), {"c"})
  {
    assert CreatedBy("c", slot, "r", Before(slot, projects), {"c"});
  }

  // ----- a machine -----

  function MachineStatusWith(rec: OrderRecord): MachineStatus {
    BLANK_MACHINE_STATUS.(resource := Some("r"), state := CoreCreating, order := Some(rec))
  }

  function MachineWorld(rec: Option<OrderRecord>, recorded: set<Uuid>, market: Market): World {
    World(if rec.None? then None else Some(MachineObject(true, true, None, MachineStatusWith(rec.value))),
          recorded, market, VaultState(map[], {}, {}))
  }

  /** Submit, poll, remove the finalizer, and nothing more. */
  function MachineAt(i: nat): World {
    if i == 0 then MachineWorld(Some(CREATION_RECORD), {"c"}, Before(MACHINE_SLOT, {}))
    else if i == 1 then MachineWorld(Some(TERMINATION_RECORD), {"c", "t"}, Completed(MACHINE_SLOT, {}))
    else if i == 2 then MachineWorld(Some(TERMINATED_RECORD), {"c", "t"}, Completed(MACHINE_SLOT, {}))
    else MachineWorld(None, {"c", "t"}, Completed(MACHINE_SLOT, {}))
  }

  function MachineReplies(i: nat): Replies {
    Replies(Applied, Waiting, ConfigMissing, None, false, Refused, None, false, false, Rejected,
            Some(None), None, None, Refused, Applied, Some(None), None,
            Submitted(if i == 0 then "t" else "u", PENDING_PROVIDER))
  }

  lemma MachineRound(cfg: Config, i: nat)
    ensures MD.Round(cfg, MachineAt(i), MachineReplies(i), MachineAt(i + 1))
  {
    if i == 0 {
      MachineSubmits(cfg);
    } else {
      MachinePolls(cfg, i);
    }
    MarketSteps(MACHINE_SLOT, {});
  }

  lemma MachineSubmits(cfg: Config)
    ensures var after := Pass(cfg, MachineAt(0), MachineReplies(0)).0;
            after.stored == MachineAt(1).stored && after.recorded == {"c", "t"} && after.market == Requested(MACHINE_SLOT, {})
  {
    Submission(MACHINE_SLOT, {});
    assert {"c"} + {"t"} == {"c", "t"};
  }

  lemma MachinePolls(cfg: Config, i: nat)
    requires i > 0
    ensures var after := Pass(cfg, MachineAt(i), MachineReplies(i)).0;
            after.stored == MachineAt(i + 1).stored && after.recorded == {"c", "t"} && after.market == Completed(MACHINE_SLOT, {})
  {
    assert {"c", "t"} + {"t"} == {"c", "t"};
  }

  lemma MachineStarts()
    ensures MD.Deleting(MachineAt(0))
  {
    SlotBefore(MACHINE_SLOT, {});
    MarketsSettled(MACHINE_SLOT, {});
  }

  lemma MachineCalls(i: nat)
    ensures MD.NeededCallsSucceed(MachineAt(i), MachineReplies(i)) && MD.StoppedBy(MachineReplies(i), 0, i)
    ensures MachineAt(i).market == Before(MACHINE_SLOT, {}) || MachineAt(i).market == Completed(MACHINE_SLOT, {})
  {}

  /** Some fair behaviour deletes a machine that has a VM. */
  lemma FairMachineDeletion(cfg: Config) returns (ws: nat -> World, os: nat -> Replies, settle: Uuid -> nat)
    ensures MD.Deleting(ws(0)) && ws(0).stored.Some? && ws(0).stored.value.status.resource.Some?
    ensures forall i: nat :: MD.FairRound(cfg, ws, os, settle, {}, 0, i)
    ensures ws(2).stored.Some? && ws(3).stored.None?
  {
    ws, os, settle := MachineAt, MachineReplies, (id: Uuid) => 0;
    MachineStarts();
    forall i: nat ensures MD.FairRound(cfg, ws, os, settle, {}, 0, i) {
      MachineRound(cfg, i);
      MachineCalls(i);
      MarketsSettled(MACHINE_SLOT, {});
    }
  }

  // ----- a cluster -----

  const TENANT := Tenant(CoreOK, Some("b"), "n", Some("r"), ResourceOK, Some("p"), Some(CREATION_RECORD))

  function ClusterWith(rec: Option<OrderRecord>, recorded: set<Uuid>, market: Market): ClusterWorld {
    ClusterWorld(["dc"],
                 if rec.None? then None
                 else Some(ClusterObject(true, true, None, ClusterStatus(None, None, map["dc" := TENANT.(order := rec)]))),
                 recorded, market)
  }

  function ClusterAt(i: nat): ClusterWorld {
    if i == 0 then ClusterWith(Some(CREATION_RECORD), {"c"}, Before("dc", {"p"}))
    else if i == 1 then ClusterWith(Some(TERMINATION_RECORD), {"c", "t"}, Completed("dc", {"p"}))
    else if i == 2 then ClusterWith(Some(TERMINATED_RECORD), {"c", "t"}, Completed("dc", {"p"}))
    else ClusterWith(None, {"c", "t"}, Completed("dc", {}))
  }

  function TenantRepliesAt(i: nat): TenantReplies {
    SILENCE.(order := Some(None), terminate := Submitted(if i == 0 then "t" else "u", PENDING_PROVIDER))
  }

  function ClusterRepliesAt(i: nat): CD.DeleteReplies {
    var visit := if i < 3 then ["dc"] else [];
    CD.DeleteReplies(
      ClusterReplies(Applied, true, [], map["dc" := TenantRepliesAt(i)], map["p" := ProjectCall(true, true, Applied)],
                     Applied, None, Refused),
      visit, visit)
  }

  lemma OneVisit(w: ClusterWorld, o: ClusterReplies)
    requires w.stored.Some?
    ensures VisitAllDeleting(w, o, ["dc"], 1)
         == VisitDeleting(Fold(w.stored.value.status.tenants, w.market), "dc", SlugReplies(o, "dc"))
  {
    assert VisitAllDeleting(w, o, ["dc"], 0) == Fold(w.stored.value.status.tenants, w.market);
  }

  lemma OneOrder(t: Tenant, id: Uuid)
    requires t.order.Some? && t.order.value.uuid == id
    ensures OrderIds(map["dc" := t]) == {id}
  {
    var tenants := map["dc" := t];
    assert tenants["dc"].order.value.uuid == id;
  }

  /** A deleting pass that found something unfinished only stores what its loop left. */
  lemma UnfinishedPass(w: ClusterWorld, d: CD.DeleteReplies, t: Tenant, market: Market)
    requires w.stored.Some? && w.stored.value.deleting && d.o.statusWrite.Applied? && d.visit == ["dc"]
    requires !AllFinished(w.stored.value.status.tenants)
    requires VisitDeleting(Fold(w.stored.value.status.tenants, w.market), "dc", SlugReplies(d.o, "dc")) == Fold(map["dc" := t], market)
    requires t.order.Some?
    ensures ClusterPass(w, d.o, d.visit, d.projectVisit).0
         == ClusterWorld(w.datacenters,
                         Some(w.stored.value.(status := w.stored.value.status.(tenants := map["dc" := t]))),
                         w.recorded + {t.order.value.uuid}, market)
  {
    OneVisit(w, d.o);
    OneOrder(t, t.order.value.uuid);
  }

  lemma Unfinished(rec: OrderRecord)
    requires rec.kind == Create || rec.state != Done
    ensures !AllFinished(map["dc" := TENANT.(order := Some(rec))])
  {
    var tenants := map["dc" := TENANT.(order := Some(rec))];
    assert !TenantFinished(tenants["dc"]);
  }

  lemma SubmitRound()
    ensures CD.Round(ClusterAt(0), ClusterRepliesAt(0), ClusterAt(1))
  {
    var w, d, t := ClusterAt(0), ClusterRepliesAt(0), TENANT.(order := Some(TERMINATION_RECORD));
    Submission("dc", {"p"});
    Unfinished(CREATION_RECORD);
    assert SlugReplies(d.o, "dc") == TenantRepliesAt(0);
    assert w.stored.value.status.tenants["dc" := t] == map["dc" := t];
    UnfinishedPass(w, d, t, Requested("dc", {"p"}));
    assert {"c"} + {"t"} == {"c", "t"};
    MarketSteps("dc", {"p"});
  }

  lemma PollRound()
    ensures CD.Round(ClusterAt(1), ClusterRepliesAt(1), ClusterAt(2))
  {
    var w, d, t := ClusterAt(1), ClusterRepliesAt(1), TENANT.(order := Some(TERMINATED_RECORD));
    Unfinished(TERMINATION_RECORD);
    assert SlugReplies(d.o, "dc") == TenantRepliesAt(1);
    assert RefreshOrder(w.market, TERMINATION_RECORD, Some(None)) == Some(TERMINATED_RECORD);
    assert w.stored.value.status.tenants["dc" := t] == map["dc" := t];
    UnfinishedPass(w, d, t, w.market);
    assert {"c", "t"} + {"t"} == {"c", "t"};
    MarketSteps("dc", {"p"});
  }

  lemma OneProject(o: ClusterReplies)
    requires ProjectReplies(o, "p") == ProjectCall(true, true, Applied)
    ensures DeleteProjects({"p"}, map["dc" := TENANT.(order := Some(TERMINATED_RECORD))], ["dc"], o) == ({}, true)
  {
    var tenants := map["dc" := TENANT.(order := Some(TERMINATED_RECORD))];
    assert {"p"} - {"p"} == {};
    assert ["dc"][1..] == [];
    assert DeleteProjects({}, tenants, [], o) == ({}, true);
  }

  /** A deleting pass that found everything finished ends the object. */
  lemma FinishedPass(w: ClusterWorld, d: CD.DeleteReplies, left: set<string>)
    requires w.stored.Some? && w.stored.value.deleting && d.o.statusWrite.Applied? && d.o.finalizerWrite.Applied?
    requires AllFinished(w.stored.value.status.tenants) && OrderIds(w.stored.value.status.tenants) <= w.recorded
    requires DeleteProjects(w.market.projects, w.stored.value.status.tenants, d.projectVisit, d.o) == (left, true)
    ensures ClusterPass(w, d.o, d.visit, d.projectVisit).0
         == ClusterWorld(w.datacenters, None, w.recorded, w.market.(projects := left))
  {
    FinishedUntouched(w, d.o, d.visit, |d.visit|);
    assert w.recorded + OrderIds(w.stored.value.status.tenants) == w.recorded;
  }

  lemma LastRound()
    ensures CD.Round(ClusterAt(2), ClusterRepliesAt(2), ClusterAt(3))
  {
    var w, d := ClusterAt(2), ClusterRepliesAt(2);
    var tenants := w.stored.value.status.tenants;
    assert TenantFinished(tenants["dc"]) && AllFinished(tenants);
    OneOrder(tenants["dc"], "t");
    assert "p" in d.o.projects;
    OneProject(d.o);
    FinishedPass(w, d, {});
    MarketSteps("dc", {});
  }

  lemma QuietRound(i: nat)
    requires i >= 3
    ensures CD.Round(ClusterAt(i), ClusterRepliesAt(i), ClusterAt(i + 1))
  {
    MarketSteps("dc", {});
  }

  lemma ClusterCalls(i: nat)
    ensures CD.NeededCallsSucceed(ClusterAt(i), ClusterRepliesAt(i))
  {
    var w, d := ClusterAt(i), ClusterRepliesAt(i);
    assert Elements(d.visit) == CD.TenantsOf(w).Keys;
    assert "p" in d.o.projects;
  }

  lemma ClusterStarts()
    ensures CD.Deleting(ClusterAt(0))
  {
    var w := ClusterAt(0);
    var tenants := w.stored.value.status.tenants;
    SlotBefore("dc", {"p"});
    MarketsSettled("dc", {"p"});
    forall slug ensures SlotOk(SlotAt(tenants, slug), slug, w.market, w.recorded) {
      if slug != "dc" {
        assert SlotAt(tenants, slug) == EMPTY_SLOT;
      }
    }
  }

  /** Some fair behaviour deletes a cluster that has a tenant and a project. */
  lemma FairClusterDeletion() returns (ws: nat -> ClusterWorld, ds: nat -> CD.DeleteReplies, settle: Uuid -> nat)
    ensures CD.Deleting(ws(0)) && CD.TenantsOf(ws(0)) != map[] && ws(0).market.projects == {"p"}
    ensures forall i: nat :: CD.FairRound(ws, ds, settle, {}, i)
    ensures ws(2).stored.Some? && ws(3).stored.None? && ws(3).market.projects == {}
  {
    ws, ds, settle := ClusterAt, ClusterRepliesAt, (id: Uuid) => 0;
    ClusterStarts();
    assert "dc" in CD.TenantsOf(ws(0));
    forall i: nat ensures CD.FairRound(ws, ds, settle, {}, i) {
      if i == 0 { SubmitRound(); } else if i == 1 { PollRound(); } else if i == 2 { LastRound(); } else { QuietRound(i); }
      ClusterCalls(i);
      MarketsSettled("dc", {"p"});
      MarketsSettled("dc", {});
    }
  }
}
