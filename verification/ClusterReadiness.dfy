/** What the cluster's Provisioned flag means, and where VM orders go. */
module ClusterReadiness {
  import opened Prelude
  import opened Waldur
  import opened ApiTypes
  import opened MachineSpec
  import opened ClusterSpec
  import opened ClusterProofs
  import opened ClusterTheorems

  // ----- readiness -----

  /** One OK tenant for each of the datacenters' slugs, which do not repeat. */
  predicate FullyProvisioned(datacenters: seq<string>, tenants: map<string, Tenant>) {
    && Distinct(datacenters)
    && tenants.Keys == Elements(datacenters)
    && forall slug :: slug in tenants ==> tenants[slug].state == CoreOK
  }

  /** Pigeonhole: comparing the sizes of the map and the list is enough, because tenants only ever
      exist for slugs of the list. */
  lemma ReadyExactly(status: ClusterStatus, datacenters: seq<string>)
    requires forall slug :: slug in status.tenants ==> slug in datacenters
    ensures var status' := WithClusterReady(status, datacenters);
            && status'.tenants == status.tenants
            && status'.provisioned == Some(FullyProvisioned(datacenters, status.tenants))
            && status'.ready.Some? && status'.ready.value.ok == FullyProvisioned(datacenters, status.tenants)
  {
    ElementsSize(datacenters);
    assert status.tenants.Keys <= Elements(datacenters);
    SubsetSize(status.tenants.Keys, Elements(datacenters));
    assert |status.tenants| == |status.tenants.Keys|;
  }

  ghost predicate ReadyInv(w: ClusterWorld) {
    w.stored.Some? && !w.stored.value.deleting && w.stored.value.status.provisioned.Some? ==>
      && w.stored.value.status.provisioned.value == FullyProvisioned(w.datacenters, w.stored.value.status.tenants)
      && w.stored.value.status.ready.Some?
      && w.stored.value.status.ready.value.ok == w.stored.value.status.provisioned.value
  }

  lemma StepReady(w: ClusterWorld, s: ClusterStep)
    requires ClusterInv(w) && ReadyInv(w) && LegalCluster(w, s)
    ensures ReadyInv(DoCluster(w, s))
  {
    if s.ReconcileCluster? && w.stored.Some? && !w.stored.value.deleting && w.stored.value.finalizer && s.o.owner {
      LivePassReady(w, s.o);
    } else {
      QuietStepReady(w, s);
    }
  }

  /** What a live pass leaves in the store: the status of before, or the tenants of the loop with the
      readiness made from them. */
  lemma LivePassStores(w: ClusterWorld, o: ClusterReplies)
    requires w.stored.Some?
    ensures var status := w.stored.value.status.(tenants := VisitDatacenters(w, o, |w.datacenters|).tenants);
            var w' := ClusterLivePass(w, o).0;
            && w'.stored.Some? && w'.stored.value.deleting == w.stored.value.deleting && w'.datacenters == w.datacenters
            && w'.stored.value.status == (if o.statusWrite.Refused? then w.stored.value.status else WithClusterReady(status, w.datacenters))
  {}

  lemma LivePassReady(w: ClusterWorld, o: ClusterReplies)
    requires ClusterInv(w) && ReadyInv(w) && w.stored.Some? && w.stored.value.finalizer
    ensures ReadyInv(ClusterLivePass(w, o).0)
  {
    VisitDatacentersOk(w, o, |w.datacenters|);
    LivePassStores(w, o);
    ReadyExactly(w.stored.value.status.(tenants := VisitDatacenters(w, o, |w.datacenters|).tenants), w.datacenters);
  }

  /** Every other step leaves the status alone, or concerns an object being deleted. */
  lemma QuietStepReady(w: ClusterWorld, s: ClusterStep)
    requires ReadyInv(w)
    requires s.ReconcileCluster? && w.stored.Some? ==> w.stored.value.deleting || !w.stored.value.finalizer || !s.o.owner
    ensures ReadyInv(DoCluster(w, s))
  {}

  /** In every reachable live state that has had a status write, Provisioned and Ready are true
      exactly when the slugs are distinct, each has its tenant, and every tenant is OK. Duplicate
      slugs therefore never become ready. */
  lemma {:induction false} ReadinessIsExact(w: ClusterWorld, steps: seq<ClusterStep>)
    requires InitCluster(w) && LegalClusterRun(w, steps)
    ensures ReadyInv(RunCluster(w, steps))
    ensures var end := RunCluster(w, steps);
            !Distinct(w.datacenters) && end.stored.Some? && !end.stored.value.deleting ==>
              end.stored.value.status.provisioned != Some(true)
  {
    RunClusterInv(w, steps);
    if steps == [] {
    } else {
      var front := steps[..|steps| - 1];
      LegalClusterPrefix(w, steps);
      ReadinessIsExact(w, front);
      RunClusterInv(w, front);
      StepReady(RunCluster(w, front), steps[|steps| - 1]);
    }
  }

  // ----- stable placement -----

  /** Deleting passes keep every tenant's resource and project as well. */
  lemma {:induction false} DeletingKeepsTenant(w: ClusterWorld, o: ClusterReplies, visit: seq<string>, count: nat, slug: string)
    requires ClusterInv(w) && w.stored.Some? && Distinct(visit) && count <= |visit|
    ensures var f, tenants := VisitAllDeleting(w, o, visit, count), w.stored.value.status.tenants;
            && (slug in f.tenants <==> slug in tenants)
            && (slug in tenants ==>
                  f.tenants[slug].resource == tenants[slug].resource && f.tenants[slug].project == tenants[slug].project)
  {
    if count > 0 {
      DeletingKeepsTenant(w, o, visit, count - 1, slug);
      VisitAllDeletingOk(w, o, visit, count - 1);
      VisitDeletingKeeps(VisitAllDeleting(w, o, visit, count - 1), w.recorded, w.datacenters,
                         visit[count - 1], SlugReplies(o, visit[count - 1]), slug);
    }
  }

  lemma VisitDeletingKeeps(f: Fold, recorded: set<Uuid>, datacenters: seq<string>, visited: string, o: TenantReplies, slug: string)
    requires FoldOk(f, recorded, datacenters)
    ensures var f' := VisitDeleting(f, visited, o);
            && f'.tenants.Keys == f.tenants.Keys
            && (slug in f.tenants ==>
                  f'.tenants[slug].resource == f.tenants[slug].resource && f'.tenants[slug].project == f.tenants[slug].project)
  {
    if visited in f.tenants {
      assert SlotOk(SlotAt(f.tenants, visited), visited, f.market, Counted(recorded, f.tenants));
      RefreshTenantKeeps(f.market, f.tenants[visited], o, visited, Counted(recorded, f.tenants));
    }
  }

  /** A stored tenant's slug, project and marketplace resource are write-once. */
  ghost predicate KeepsPlacement(w: ClusterWorld, w': ClusterWorld, slug: string) {
    && (w.stored.None? ==> w'.stored.None?)
    && (w.stored.Some? && slug in w.stored.value.status.tenants && w'.stored.Some? ==>
          && slug in w'.stored.value.status.tenants
          && w.stored.value.status.tenants[slug].resource.Some?
          && w'.stored.value.status.tenants[slug].resource == w.stored.value.status.tenants[slug].resource
          && w'.stored.value.status.tenants[slug].project == w.stored.value.status.tenants[slug].project)
  }

  lemma LiveKeepsPlacement(w: ClusterWorld, o: ClusterReplies, slug: string)
    requires ClusterInv(w) && w.stored.Some? && w.stored.value.finalizer
    ensures KeepsPlacement(w, ClusterLivePass(w, o).0, slug)
  {
    LivePassStores(w, o);
    if slug in w.stored.value.status.tenants {
      assert SlotOk(SlotAt(w.stored.value.status.tenants, slug), slug, w.market, w.recorded);
      LoopKeepsTenant(w, o, |w.datacenters|, slug);
    }
  }

  lemma DeletingKeepsPlacement(w: ClusterWorld, o: ClusterReplies, visit: seq<string>, projectVisit: seq<string>, slug: string)
    requires ClusterInv(w) && w.stored.Some? && w.stored.value.deleting && Distinct(visit)
    ensures KeepsPlacement(w, ClusterDeletePass(w, o, visit, projectVisit).0, slug)
  {
    if slug in w.stored.value.status.tenants {
      assert SlotOk(SlotAt(w.stored.value.status.tenants, slug), slug, w.market, w.recorded);
    }
    DeletingKeepsTenant(w, o, visit, |visit|, slug);
  }

  lemma QuietKeepsPlacement(w: ClusterWorld, s: ClusterStep, slug: string)
    requires ClusterInv(w)
    requires s.ReconcileCluster? && w.stored.Some? ==> !w.stored.value.deleting && (!w.stored.value.finalizer || !s.o.owner)
    ensures KeepsPlacement(w, DoCluster(w, s), slug)
  {
    if w.stored.Some? && slug in w.stored.value.status.tenants {
      assert SlotOk(SlotAt(w.stored.value.status.tenants, slug), slug, w.market, w.recorded);
    }
  }

  lemma StepKeepsPlacement(w: ClusterWorld, s: ClusterStep, slug: string)
    requires ClusterInv(w) && LegalCluster(w, s)
    ensures KeepsPlacement(w, DoCluster(w, s), slug)
  {
    if s.ReconcileCluster? && w.stored.Some? && w.stored.value.deleting {
      DeletingKeepsPlacement(w, s.o, s.visit, s.projectVisit, slug);
    } else if s.ReconcileCluster? && w.stored.Some? && w.stored.value.finalizer && s.o.owner {
      LiveKeepsPlacement(w, s.o, slug);
    } else {
      QuietKeepsPlacement(w, s, slug);
    }
  }

  lemma {:induction false} RunKeepsPlacement(w: ClusterWorld, steps: seq<ClusterStep>, i: nat, slug: string)
    requires InitCluster(w) && LegalClusterRun(w, steps) && i <= |steps|
    ensures KeepsPlacement(RunCluster(w, steps[..i]), RunCluster(w, steps), slug)
  {
    if i == |steps| {
      assert steps[..i] == steps;
      RunClusterInv(w, steps);
    } else {
      var front := steps[..|steps| - 1];
      assert front[..i] == steps[..i];
      LegalClusterPrefix(w, steps);
      RunKeepsPlacement(w, front, i, slug);
      RunClusterInv(w, front);
      StepKeepsPlacement(RunCluster(w, front), steps[|steps| - 1], slug);
    }
  }

  /** All VM orders of one offering go to the same place: any two machine passes that read the
      cluster at any two moments of its life and pass the readiness checks resolve the slug to the
      same tenant resource and project, and each read the tenant's resource state as OK. */
  lemma PlacementIsStable(w: ClusterWorld, steps: seq<ClusterStep>, i: nat, j: nat, offering: string)
    requires InitCluster(w) && LegalClusterRun(w, steps) && i <= j <= |steps|
    requires RunCluster(w, steps[..i]).stored.Some? && RunCluster(w, steps[..j]).stored.Some?
    requires Placement(RunCluster(w, steps[..i]).stored.value.status.tenants, offering).Some?
    requires Placement(RunCluster(w, steps[..j]).stored.value.status.tenants, offering).Some?
    ensures var early, late := RunCluster(w, steps[..i]).stored.value.status.tenants, RunCluster(w, steps[..j]).stored.value.status.tenants;
            && Placement(early, offering) == Placement(late, offering)
            && Placement(early, offering).value.0.Some?
            && early[offering].resourceState == ResourceOK && late[offering].resourceState == ResourceOK
  {
    var prefix := steps[..j];
    assert LegalClusterRun(w, prefix) by {
      forall k | 0 <= k < |prefix| ensures LegalCluster(RunCluster(w, prefix[..k]), prefix[k]) {
        assert prefix[..k] == steps[..k];
      }
    }
    assert prefix[..i] == steps[..i];
    RunKeepsPlacement(w, prefix, i, offering);
  }
}
