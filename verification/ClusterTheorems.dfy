/** Theorems about whole runs of the WaldurCluster controller: no orphaned tenants, and records that
    never run ahead of the marketplace. */
module ClusterTheorems {
  import opened Prelude
  import opened Waldur
  import opened ApiTypes
  import opened ClusterSpec
  import opened ClusterProofs

  // ----- no orphans -----

  /** Once the WaldurCluster is gone, every tenant whose create order was ever recorded is
      terminated in the marketplace, and no recorded termination is still under way. */
  lemma {:induction false} NoOrphanTenants(w: ClusterWorld, steps: seq<ClusterStep>, slug: string, id: Uuid)
    requires InitCluster(w) && LegalClusterRun(w, steps) && RunCluster(w, steps).stored.None?
    ensures var end := RunCluster(w, steps);
            && (id in OrdersOf(end.market, slug, Create) ==>
                  || id in Lost(end.market, slug, Create, end.recorded)
                  || Released(end.market.orders[id].resource, end.market))
            && LiveTerminations(end.market, slug) <= Lost(end.market, slug, Terminate, end.recorded)
  {
    RunClusterInv(w, steps);
    var end := RunCluster(w, steps);
    assert SlotCleared(slug, end.market, end.recorded);
    if id in OrdersOf(end.market, slug, Create) && id in end.recorded {
      assert Known(id, slug, Create, end.market, end.recorded);
    }
    forall t | t in LiveTerminations(end.market, slug) ensures t !in end.recorded {
      if t in end.recorded {
        assert Known(t, slug, Terminate, end.market, end.recorded);
      }
    }
  }

  /** In every reachable state each tenant's record is accurate: it names a marketplace order of the
      same kind and resource, and a recorded terminal state is that order's final state. */
  lemma {:induction false} TenantRecordNeverAhead(w: ClusterWorld, steps: seq<ClusterStep>, slug: string)
    requires InitCluster(w) && LegalClusterRun(w, steps)
    ensures var end := RunCluster(w, steps);
            end.stored.Some? && slug in end.stored.value.status.tenants ==>
              var t := end.stored.value.status.tenants[slug];
              && t.resource.Some? && t.order.Some? && RecordOk(t.order.value, end.market)
              && (IsOrderTerminal(t.order.value.state) ==>
                    StateOf(end.market.orders[t.order.value.uuid]) == t.order.value.state)
              && |LiveTerminations(end.market, slug)| <= 1 + |Lost(end.market, slug, Terminate, end.recorded)|
  {
    RunClusterInv(w, steps);
    var end := RunCluster(w, steps);
    if end.stored.Some? && slug in end.stored.value.status.tenants {
      var tenants := end.stored.value.status.tenants;
      assert SlotOk(SlotAt(tenants, slug), slug, end.market, end.recorded);
      TerminationAccounting(SlotAt(tenants, slug), slug, end.market, end.recorded);
      if IsOrderTerminal(tenants[slug].order.value.state) {
        TerminalRecordIsFinal(tenants[slug].order.value, end.market);
      }
    }
  }

  // ----- what the loop keeps -----

  /** What a tenant never loses: its order's uuid while the object lives, its resource and project. */
  predicate SameTenant(t: Tenant, t': Tenant) {
    && t.order.Some? && t'.order.Some? && t'.order.value.uuid == t.order.value.uuid
    && t'.resource == t.resource && t'.project == t.project
  }

  lemma VisitKeepsTenant(f: Fold, recorded: set<Uuid>, datacenters: seq<string>, visited: string, o: TenantReplies, slug: string)
    requires FoldOk(f, recorded, datacenters) && slug in f.tenants
    ensures slug in VisitDatacenter(f, visited, o).tenants
    ensures SameTenant(f.tenants[slug], VisitDatacenter(f, visited, o).tenants[slug])
  {
    assert SlotOk(SlotAt(f.tenants, slug), slug, f.market, Counted(recorded, f.tenants));
    RefreshTenantKeeps(f.market, f.tenants[slug], o, slug, Counted(recorded, f.tenants));
  }

  /** The loop over the datacenters keeps every stored tenant. */
  lemma {:induction false} LoopKeepsTenant(w: ClusterWorld, o: ClusterReplies, count: nat, slug: string)
    requires ClusterInv(w) && w.stored.Some? && count <= |w.datacenters| && slug in w.stored.value.status.tenants
    ensures slug in VisitDatacenters(w, o, count).tenants
    ensures SameTenant(w.stored.value.status.tenants[slug], VisitDatacenters(w, o, count).tenants[slug])
  {
    if count == 0 {
      var tenants := w.stored.value.status.tenants;
      assert SlotOk(SlotAt(tenants, slug), slug, w.market, w.recorded);
    } else {
      LoopKeepsTenant(w, o, count - 1, slug);
      VisitDatacentersOk(w, o, count - 1);
      VisitKeepsTenant(VisitDatacenters(w, o, count - 1), w.recorded, w.datacenters,
                       w.datacenters[count - 1], DatacenterReplies(o, count - 1), slug);
    }
  }
}
