/** The invariant of the WaldurCluster controller: every tenant slot stays accurate through both
    loops, whatever the replies and the order in which Go visits the map. */
module ClusterProofs {
  import opened Prelude
  import opened Waldur
  import opened ApiTypes
  import opened ClusterSpec

  function SlotAt(tenants: map<string, Tenant>, slug: string): Slot {
    if slug in tenants then TenantSlot(tenants[slug]) else EMPTY_SLOT
  }

  ghost predicate TenantsOk(tenants: map<string, Tenant>, m: Market, recorded: set<Uuid>) {
    forall slug {:trigger SlotAt(tenants, slug)} :: SlotOk(SlotAt(tenants, slug), slug, m, recorded)
  }

  /** Every tenant has a resource uuid, and belongs to the spec. */
  predicate TenantsShape(tenants: map<string, Tenant>, datacenters: seq<string>) {
    forall slug :: slug in tenants ==> tenants[slug].resource.Some? && slug in datacenters
  }

  ghost predicate ClusterInv(w: ClusterWorld) {
    && MarketOk(w.market)
    && w.recorded <= w.market.mine.Keys
    && match w.stored
       case None => forall slug {:trigger SlotCleared(slug, w.market, w.recorded)} :: SlotCleared(slug, w.market, w.recorded)
       case Some(obj) =>
         && TenantsOk(obj.status.tenants, w.market, w.recorded)
         && TenantsShape(obj.status.tenants, w.datacenters)
         && (obj.deleting ==> obj.finalizer)
         && (!obj.finalizer ==> w.market.mine == map[])
  }

  // ----- the folds -----

  /** The orders recorded so far, and those the tenants in memory would record. */
  function Counted(recorded: set<Uuid>, tenants: map<string, Tenant>): set<Uuid> {
    recorded + OrderIds(tenants)
  }

  /** The state between two loop iterations: the tenants in memory are accurate once their orders
      count as recorded. */
  ghost predicate FoldOk(f: Fold, recorded: set<Uuid>, datacenters: seq<string>) {
    && MarketOk(f.market)
    && Counted(recorded, f.tenants) <= f.market.mine.Keys
    && TenantsOk(f.tenants, f.market, Counted(recorded, f.tenants))
    && TenantsShape(f.tenants, datacenters)
  }

  lemma OrderIdsUpdate(tenants: map<string, Tenant>, slug: string, t: Tenant)
    requires t.order.Some?
    ensures OrderIds(tenants[slug := t]) <= OrderIds(tenants) + {t.order.value.uuid}
    ensures t.order.value.uuid in OrderIds(tenants[slug := t])
    ensures forall id :: id in OrderIds(tenants) ==>
              id in OrderIds(tenants[slug := t])
              || (slug in tenants && tenants[slug].order.Some? && tenants[slug].order.value.uuid == id)
  {
    var after := tenants[slug := t];
    assert after[slug].order.value.uuid in OrderIds(after);
    forall id | id in OrderIds(tenants)
      ensures id in OrderIds(after) || (slug in tenants && tenants[slug].order.Some? && tenants[slug].order.value.uuid == id)
    {
      var k :| k in tenants && tenants[k].order.Some? && tenants[k].order.value.uuid == id;
      if k != slug {
        assert after[k].order.value.uuid == id;
      }
    }
  }

  lemma CountedUpdate(recorded: set<Uuid>, tenants: map<string, Tenant>, slug: string, t: Tenant)
    requires t.order.Some?
    requires slug in tenants && tenants[slug].order.Some? ==>
               tenants[slug].order.value.uuid in recorded || tenants[slug].order.value.uuid == t.order.value.uuid
    ensures Counted(recorded, tenants[slug := t]) == Counted(recorded, tenants) + {t.order.value.uuid}
  {
    OrderIdsUpdate(tenants, slug, t);
  }

  /** The slots a step does not touch only see the market grow and another slot's order recorded. */
  lemma OtherSlotsStep(f: Fold, recorded: set<Uuid>, slug: string, t: Tenant, market: Market, id: Uuid, k: string)
    requires MarketOk(f.market) && Counted(recorded, f.tenants) <= f.market.mine.Keys && TenantsOk(f.tenants, f.market, Counted(recorded, f.tenants))
    requires MarketOk(market) && Grows(f.market, market) && id in market.mine && market.mine[id] == slug && k != slug
    ensures SlotOk(SlotAt(f.tenants[slug := t], k), k, market, Counted(recorded, f.tenants) + {id})
  {
    var all := Counted(recorded, f.tenants);
    assert SlotAt(f.tenants[slug := t], k) == SlotAt(f.tenants, k);
    assert SlotOk(SlotAt(f.tenants, k), k, f.market, all);
    SlotOkGrows(SlotAt(f.tenants, k), k, f.market, market, all);
    SlotOkRecordedAgree(SlotAt(f.tenants, k), k, market, all, all + {id});
  }

  /** One slot changes, possibly with a newly recorded order. */
  lemma FoldStep(f: Fold, recorded: set<Uuid>, datacenters: seq<string>, slug: string, t: Tenant, market: Market)
    requires FoldOk(f, recorded, datacenters) && MarketOk(market) && Grows(f.market, market)
    requires t.order.Some? && t.resource.Some? && slug in datacenters
    requires t.order.value.uuid in market.mine && market.mine[t.order.value.uuid] == slug
    requires slug in f.tenants && f.tenants[slug].order.Some? ==>
               f.tenants[slug].order.value.uuid in recorded || f.tenants[slug].order.value.uuid == t.order.value.uuid
    requires SlotOk(TenantSlot(t), slug, market, Counted(recorded, f.tenants) + {t.order.value.uuid})
    ensures FoldOk(Fold(f.tenants[slug := t], market), recorded, datacenters)
  {
    StepBounds(f, recorded, datacenters, slug, t, market);
    var tenants', all := f.tenants[slug := t], Counted(recorded, f.tenants) + {t.order.value.uuid};
    forall k ensures SlotOk(SlotAt(tenants', k), k, market, all) {
      if k == slug {
        assert SlotAt(tenants', k) == TenantSlot(t);
      } else {
        OtherSlotsStep(f, recorded, slug, t, market, t.order.value.uuid, k);
      }
    }
  }

  lemma StepBounds(f: Fold, recorded: set<Uuid>, datacenters: seq<string>, slug: string, t: Tenant, market: Market)
    requires Counted(recorded, f.tenants) <= f.market.mine.Keys && TenantsShape(f.tenants, datacenters) && Grows(f.market, market)
    requires t.order.Some? && t.resource.Some? && slug in datacenters && t.order.value.uuid in market.mine
    requires slug in f.tenants && f.tenants[slug].order.Some? ==>
               f.tenants[slug].order.value.uuid in recorded || f.tenants[slug].order.value.uuid == t.order.value.uuid
    ensures Counted(recorded, f.tenants[slug := t]) == Counted(recorded, f.tenants) + {t.order.value.uuid}
    ensures Counted(recorded, f.tenants[slug := t]) <= market.mine.Keys
    ensures TenantsShape(f.tenants[slug := t], datacenters)
  {
    CountedUpdate(recorded, f.tenants, slug, t);
  }

  lemma FoldGrows(f: Fold, recorded: set<Uuid>, datacenters: seq<string>, market: Market)
    requires FoldOk(f, recorded, datacenters) && MarketOk(market) && Grows(f.market, market)
    ensures FoldOk(f.(market := market), recorded, datacenters)
  {
    forall k ensures SlotOk(SlotAt(f.tenants, k), k, market, Counted(recorded, f.tenants)) {
      SlotOkGrows(SlotAt(f.tenants, k), k, f.market, market, Counted(recorded, f.tenants));
    }
  }

  lemma RefreshTenantKeeps(m: Market, t: Tenant, o: TenantReplies, slug: string, recorded: set<Uuid>)
    requires MarketOk(m) && t.resource.Some? && SlotOk(TenantSlot(t), slug, m, recorded)
    ensures var t' := RefreshTenant(m, t, o).0;
            && SlotOk(TenantSlot(t'), slug, m, recorded)
            && t'.resource == t.resource && t'.project == t.project
            && t'.order.Some? && t.order.Some? && t'.order.value.uuid == t.order.value.uuid
            && t'.order.value.kind == t.order.value.kind
            && (IsOrderTerminal(t.order.value.state) ==> t'.order == t.order)
  {
    if RefreshOrder(m, t.order.value, o.order).Some? {
      SlotOkRefreshed(TenantSlot(t), slug, m, recorded, o.order);
    }
  }

  lemma RefreshFold(f: Fold, recorded: set<Uuid>, datacenters: seq<string>, slug: string, o: TenantReplies)
    requires FoldOk(f, recorded, datacenters) && slug in f.tenants
    ensures FoldOk(f.(tenants := f.tenants[slug := RefreshTenant(f.market, f.tenants[slug], o).0]), recorded, datacenters)
  {
    var t := f.tenants[slug];
    var all := Counted(recorded, f.tenants);
    assert SlotOk(SlotAt(f.tenants, slug), slug, f.market, all);
    RefreshTenantKeeps(f.market, t, o, slug, all);
    var t' := RefreshTenant(f.market, t, o).0;
    assert t.order.value.uuid in OrderIds(f.tenants);
    assert all + {t'.order.value.uuid} == all;
    FoldStep(f, recorded, datacenters, slug, t', f.market);
  }

  lemma VisitDatacenterOk(f: Fold, recorded: set<Uuid>, datacenters: seq<string>, slug: string, o: TenantReplies)
    requires FoldOk(f, recorded, datacenters) && slug in datacenters
    ensures FoldOk(VisitDatacenter(f, slug, o), recorded, datacenters)
    ensures Grows(f.market, VisitDatacenter(f, slug, o).market)
  {
    if slug in f.tenants {
      RefreshFold(f, recorded, datacenters, slug, o);
    } else {
      CreateTenantFold(f, recorded, datacenters, slug, o);
    }
  }

  /** The tenants and market after a creation attempt. */
  function WithCreated(f: Fold, slug: string, created: (Market, Option<Tenant>)): Fold {
    Fold(if created.1.Some? then f.tenants[slug := created.1.value] else f.tenants, created.0)
  }

  lemma CreateTenantFold(f: Fold, recorded: set<Uuid>, datacenters: seq<string>, slug: string, o: TenantReplies)
    requires FoldOk(f, recorded, datacenters) && slug in datacenters && slug !in f.tenants
    ensures FoldOk(WithCreated(f, slug, CreateTenant(f.market, slug, o)), recorded, datacenters)
    ensures Grows(f.market, CreateTenant(f.market, slug, o).0)
  {
    if o.customer {
      var m1 := f.market.(projects := f.market.projects + ProjectsGot(o.project));
      FoldGrows(f, recorded, datacenters, m1);
      if o.project.Project? && o.offering && o.limits {
        SubmitTenantFold(f.(market := m1), recorded, datacenters, slug, o);
        GrowsTransitive(f.market, m1, SubmitTenant(m1, slug, o).0);
      }
    }
  }

  /** An accepted create order, remembered in a new tenant or forgotten. */
  lemma SubmitTenantFold(f: Fold, recorded: set<Uuid>, datacenters: seq<string>, slug: string, o: TenantReplies)
    requires FoldOk(f, recorded, datacenters) && slug in datacenters && slug !in f.tenants && o.project.Project?
    ensures FoldOk(WithCreated(f, slug, SubmitTenant(f.market, slug, o)), recorded, datacenters)
    ensures Grows(f.market, SubmitTenant(f.market, slug, o).0)
  {
    var n := match o.create case Dropped(a) => a case Created(n, _, _) => Some(n) case Rejected => None;
    if n.Some? && n.value.id !in f.market.orders {
      var market := AcceptCreate(f.market, slug, n.value, None);
      SubmitGrows(f.market, n.value.id, Order(Create, n.value.resource, [n.value.first], None), slug);
      FoldGrows(f, recorded, datacenters, market);
      var tenant := SubmitTenant(f.market, slug, o).1;
      if tenant.Some? {
        assert SlotAt(f.tenants, slug) == EMPTY_SLOT;
        SlotOkCreated(slug, f.market, Counted(recorded, f.tenants), n.value, None, tenant.value.order.value.backend);
        FoldStep(f, recorded, datacenters, slug, tenant.value, market);
      }
    }
  }

  lemma {:induction false} VisitDatacentersOk(w: ClusterWorld, o: ClusterReplies, count: nat)
    requires ClusterInv(w) && w.stored.Some? && count <= |w.datacenters|
    ensures FoldOk(VisitDatacenters(w, o, count), w.recorded, w.datacenters)
    ensures Grows(w.market, VisitDatacenters(w, o, count).market)
  {
    if count == 0 {
      StoredIsRecorded(w);
    } else {
      VisitDatacentersOk(w, o, count - 1);
      var f := VisitDatacenters(w, o, count - 1);
      VisitDatacenterOk(f, w.recorded, w.datacenters, w.datacenters[count - 1], DatacenterReplies(o, count - 1));
      GrowsTransitive(w.market, f.market, VisitDatacenters(w, o, count).market);
    }
  }

  /** What the stored tenants say of their orders is already recorded. */
  lemma StoredIsRecorded(w: ClusterWorld)
    requires ClusterInv(w) && w.stored.Some?
    ensures OrderIds(w.stored.value.status.tenants) <= w.recorded
    ensures w.recorded + OrderIds(w.stored.value.status.tenants) == w.recorded
  {
    var tenants := w.stored.value.status.tenants;
    forall id | id in OrderIds(tenants) ensures id in w.recorded {
      var slug :| slug in tenants && tenants[slug].order.Some? && tenants[slug].order.value.uuid == id;
      assert SlotOk(SlotAt(tenants, slug), slug, w.market, w.recorded);
    }
  }

  lemma VisitDeletingOk(f: Fold, recorded: set<Uuid>, datacenters: seq<string>, slug: string, o: TenantReplies)
    requires FoldOk(f, recorded, datacenters)
    requires slug in f.tenants && f.tenants[slug].order.Some? ==> f.tenants[slug].order.value.uuid in recorded
    ensures FoldOk(VisitDeleting(f, slug, o), recorded, datacenters)
    ensures Grows(f.market, VisitDeleting(f, slug, o).market)
  {
    if slug in f.tenants {
      var t := f.tenants[slug];
      var all := Counted(recorded, f.tenants);
      assert SlotOk(SlotAt(f.tenants, slug), slug, f.market, all);
      if TerminationInFlight(TenantSlot(t)) {
        RefreshFold(f, recorded, datacenters, slug, o);
      } else if !TerminationDone(TenantSlot(t)) {
        TerminateFold(f, recorded, datacenters, slug, o);
      }
    }
  }

  lemma VisitDeletingKeepsProjects(f: Fold, slug: string, o: TenantReplies)
    ensures VisitDeleting(f, slug, o).market.projects == f.market.projects
  {}

  lemma TerminateFold(f: Fold, recorded: set<Uuid>, datacenters: seq<string>, slug: string, o: TenantReplies)
    requires FoldOk(f, recorded, datacenters) && slug in f.tenants
    requires f.tenants[slug].order.Some? ==> f.tenants[slug].order.value.uuid in recorded
    requires !TerminationInFlight(TenantSlot(f.tenants[slug])) && !TerminationDone(TenantSlot(f.tenants[slug]))
    ensures FoldOk(VisitDeleting(f, slug, o), recorded, datacenters)
    ensures Grows(f.market, VisitDeleting(f, slug, o).market)
  {
    var t := f.tenants[slug];
    var all := Counted(recorded, f.tenants);
    assert SlotOk(SlotAt(f.tenants, slug), slug, f.market, all);
    var (market, rec) := SubmitTermination(f.market, slug, t.resource.value, o.terminate);
    var n := match o.terminate case NoUuid(u) => u case Submitted(id, first) => Some((id, first));
    if n.Some? && n.value.0 !in f.market.orders {
      SubmitGrows(f.market, n.value.0, Order(Terminate, t.resource.value, [n.value.1], None), slug);
      FoldGrows(f, recorded, datacenters, market);
      if rec.Some? {
        SlotOkTerminating(TenantSlot(t), slug, f.market, all, n.value.0, n.value.1);
        FoldStep(f, recorded, datacenters, slug, t.(order := rec), market);
      }
    }
  }

  /** A tenant not visited yet is the stored one. */
  lemma {:induction false} UnvisitedUnchanged(w: ClusterWorld, o: ClusterReplies, visit: seq<string>, count: nat, slug: string)
    requires w.stored.Some? && count <= |visit| && slug !in visit[..count]
    ensures var f := VisitAllDeleting(w, o, visit, count);
            && (slug in f.tenants <==> slug in w.stored.value.status.tenants)
            && (slug in f.tenants ==> f.tenants[slug] == w.stored.value.status.tenants[slug])
  {
    if count > 0 {
      assert visit[..count] == visit[..count - 1] + [visit[count - 1]];
      UnvisitedUnchanged(w, o, visit, count - 1, slug);
    }
  }

  /** One iteration on top of the ones before it. */
  lemma VisitNextOk(w: ClusterWorld, f: Fold, slug: string, o: TenantReplies)
    requires ClusterInv(w) && w.stored.Some? && FoldOk(f, w.recorded, w.datacenters) && Grows(w.market, f.market)
    requires slug in f.tenants ==> slug in w.stored.value.status.tenants && f.tenants[slug] == w.stored.value.status.tenants[slug]
    ensures FoldOk(VisitDeleting(f, slug, o), w.recorded, w.datacenters)
    ensures Grows(w.market, VisitDeleting(f, slug, o).market)
    ensures VisitDeleting(f, slug, o).market.projects == f.market.projects
  {
    StoredIsRecorded(w);
    if slug in f.tenants && f.tenants[slug].order.Some? {
      assert f.tenants[slug].order.value.uuid in OrderIds(w.stored.value.status.tenants);
    }
    VisitDeletingOk(f, w.recorded, w.datacenters, slug, o);
    VisitDeletingKeepsProjects(f, slug, o);
    GrowsTransitive(w.market, f.market, VisitDeleting(f, slug, o).market);
  }

  lemma NothingVisitedOk(w: ClusterWorld)
    requires ClusterInv(w) && w.stored.Some?
    ensures FoldOk(Fold(w.stored.value.status.tenants, w.market), w.recorded, w.datacenters)
    ensures Grows(w.market, w.market)
  {
    StoredIsRecorded(w);
  }

  lemma {:induction false} VisitAllDeletingOk(w: ClusterWorld, o: ClusterReplies, visit: seq<string>, count: nat)
    requires ClusterInv(w) && w.stored.Some? && Distinct(visit) && count <= |visit|
    ensures FoldOk(VisitAllDeleting(w, o, visit, count), w.recorded, w.datacenters)
    ensures Grows(w.market, VisitAllDeleting(w, o, visit, count).market)
    ensures VisitAllDeleting(w, o, visit, count).market.projects == w.market.projects
  {
    if count == 0 {
      NothingVisitedOk(w);
    } else {
      VisitAllDeletingOk(w, o, visit, count - 1);
      UnvisitedUnchanged(w, o, visit, count - 1, visit[count - 1]);
      VisitNextOk(w, VisitAllDeleting(w, o, visit, count - 1), visit[count - 1], SlugReplies(o, visit[count - 1]));
    }
  }

  // ----- passes and runs -----

  lemma StoreClusterStatusInv(w: ClusterWorld, f: Fold, status: ClusterStatus, reply: WriteReply)
    requires ClusterInv(w) && w.stored.Some? && w.stored.value.finalizer
    requires FoldOk(f, w.recorded, w.datacenters) && Grows(w.market, f.market) && status.tenants == f.tenants
    ensures ClusterInv(StoreClusterStatus(w.(market := f.market), status, reply))
  {
    ClusterInvGrows(w, f.market);
  }

  lemma ClusterInvGrows(w: ClusterWorld, market: Market)
    requires ClusterInv(w) && MarketOk(market) && Grows(w.market, market)
    requires w.stored.Some? && !w.stored.value.finalizer ==> market.mine == map[]
    ensures ClusterInv(w.(market := market))
  {
    match w.stored
    case None =>
      forall slug ensures SlotCleared(slug, market, w.recorded) {
        SlotClearedGrows(slug, w.market, market, w.recorded);
      }
    case Some(obj) =>
      forall slug ensures SlotOk(SlotAt(obj.status.tenants, slug), slug, market, w.recorded) {
        SlotOkGrows(SlotAt(obj.status.tenants, slug), slug, w.market, market, w.recorded);
      }
  }

  /** When every stored tenant is finished, every slot is cleared, so the finalizer may go. */
  lemma FinishedIsCleared(w: ClusterWorld)
    requires ClusterInv(w) && w.stored.Some? && AllFinished(w.stored.value.status.tenants)
    ensures ClusterInv(w.(stored := None))
  {
    var tenants := w.stored.value.status.tenants;
    forall slug ensures SlotCleared(slug, w.market, w.recorded) {
      assert SlotOk(SlotAt(tenants, slug), slug, w.market, w.recorded);
      DoneSlotIsCleared(SlotAt(tenants, slug), slug, w.market, w.recorded);
    }
  }

  lemma {:induction false} FinishedUntouched(w: ClusterWorld, o: ClusterReplies, visit: seq<string>, count: nat)
    requires w.stored.Some? && AllFinished(w.stored.value.status.tenants) && count <= |visit|
    ensures VisitAllDeleting(w, o, visit, count) == Fold(w.stored.value.status.tenants, w.market)
  {
    if count > 0 {
      FinishedUntouched(w, o, visit, count - 1);
    }
  }

  lemma ClusterDeletePassInv(w: ClusterWorld, o: ClusterReplies, visit: seq<string>, projectVisit: seq<string>)
    requires ClusterInv(w) && w.stored.Some? && w.stored.value.deleting && Distinct(visit)
    ensures ClusterInv(ClusterDeletePass(w, o, visit, projectVisit).0)
  {
    var stored := w.stored.value.status;
    var f := VisitAllDeleting(w, o, visit, |visit|);
    VisitAllDeletingOk(w, o, visit, |visit|);
    StoreClusterStatusInv(w, f, stored.(tenants := f.tenants), o.statusWrite);
    if o.statusWrite.Applied? && AllFinished(stored.tenants) {
      FinishedUntouched(w, o, visit, |visit|);
      var w1 := StoreClusterStatus(w.(market := f.market), stored.(tenants := f.tenants), o.statusWrite);
      var left := DeleteProjects(f.market.projects, f.tenants, projectVisit, o).0;
      ClusterInvGrows(w1, w1.market.(projects := left));
      FinishedIsCleared(w1.(market := w1.market.(projects := left)));
    }
  }

  lemma ClusterLivePassInv(w: ClusterWorld, o: ClusterReplies)
    requires ClusterInv(w) && w.stored.Some? && w.stored.value.finalizer
    ensures ClusterInv(ClusterLivePass(w, o).0)
  {
    var f := VisitDatacenters(w, o, |w.datacenters|);
    VisitDatacentersOk(w, o, |w.datacenters|);
    StoreClusterStatusInv(w, f, WithClusterReady(w.stored.value.status.(tenants := f.tenants), w.datacenters), o.statusWrite);
  }

  lemma DoClusterInv(w: ClusterWorld, s: ClusterStep)
    requires ClusterInv(w) && LegalCluster(w, s)
    ensures ClusterInv(DoCluster(w, s))
    ensures DoCluster(w, s).datacenters == w.datacenters
  {
    match s
    case ReconcileCluster(o, visit, projectVisit) =>
      if w.stored.Some? {
        if w.stored.value.deleting {
          ClusterDeletePassInv(w, o, visit, projectVisit);
        } else if w.stored.value.finalizer {
          ClusterLivePassInv(w, o);
        }
      }
    case OtherOrders(market) => ClusterInvGrows(w, market);
    case DeleteCluster =>
      if w.stored.Some? && !w.stored.value.finalizer {
        forall slug ensures SlotCleared(slug, w.market, w.recorded) {}
      }
  }

  lemma {:induction false} RunClusterInv(w: ClusterWorld, steps: seq<ClusterStep>)
    requires InitCluster(w) && LegalClusterRun(w, steps)
    ensures ClusterInv(RunCluster(w, steps)) && RunCluster(w, steps).datacenters == w.datacenters
  {
    if steps == [] {
    } else {
      var front := steps[..|steps| - 1];
      LegalClusterPrefix(w, steps);
      RunClusterInv(w, front);
      DoClusterInv(RunCluster(w, front), steps[|steps| - 1]);
    }
  }

  lemma LegalClusterPrefix(w: ClusterWorld, steps: seq<ClusterStep>)
    requires steps != [] && LegalClusterRun(w, steps)
    ensures LegalClusterRun(w, steps[..|steps| - 1])
    ensures LegalCluster(RunCluster(w, steps[..|steps| - 1]), steps[|steps| - 1])
  {
    var front := steps[..|steps| - 1];
    forall i | 0 <= i < |front| ensures LegalCluster(RunCluster(w, front[..i]), front[i]) {
      assert front[..i] == steps[..i];
    }
  }
}
