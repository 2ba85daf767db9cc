/** Which projects a cluster leaves behind, over its whole life. A project is got or created before
    the tenant's order, so it can be there without any tenant that names it. */
module ClusterProjectRuns {
  import opened Prelude
  import opened Waldur
  import opened ApiTypes
  import opened ClusterSpec
  import opened ClusterProofs
  import opened ClusterProjects

  /** The project one createTenant gets or creates, known to it or not. */
  function Got(o: TenantReplies): set<string> {
    if o.customer then ProjectsGot(o.project) else {}
  }

  /** The projects got by the first `count` iterations: createTenant runs for slugs without a tenant. */
  function LoopGot(w: ClusterWorld, o: ClusterReplies, count: nat): set<string>
    requires w.stored.Some? && count <= |w.datacenters|
  {
    if count == 0 then {}
    else LoopGot(w, o, count - 1)
         + (if w.datacenters[count - 1] in VisitDatacenters(w, o, count - 1).tenants then {}
            else Got(DatacenterReplies(o, count - 1)))
  }

  predicate Live(w: ClusterWorld) {
    w.stored.Some? && !w.stored.value.deleting
  }

  function StepGot(w: ClusterWorld, s: ClusterStep): set<string> {
    if s.ReconcileCluster? && Live(w) && w.stored.value.finalizer && s.o.owner then LoopGot(w, s.o, |w.datacenters|) else {}
  }

  function RunGot(w: ClusterWorld, steps: seq<ClusterStep>): set<string> {
    if steps == [] then {}
    else RunGot(w, steps[..|steps| - 1]) + StepGot(RunCluster(w, steps[..|steps| - 1]), steps[|steps| - 1])
  }

  /** The tenants stored when the object was last live: those deletion began with. */
  function LastLive(w: ClusterWorld, steps: seq<ClusterStep>): map<string, Tenant> {
    var end := RunCluster(w, steps);
    if Live(end) then end.stored.value.status.tenants
    else if steps == [] then map[] else LastLive(w, steps[..|steps| - 1])
  }

  // ----- one pass -----

  lemma CreateGets(m: Market, slug: string, o: TenantReplies)
    ensures CreateTenant(m, slug, o).0.projects == m.projects + Got(o)
  {}

  lemma {:induction false} LoopGets(w: ClusterWorld, o: ClusterReplies, count: nat)
    requires w.stored.Some? && count <= |w.datacenters|
    ensures VisitDatacenters(w, o, count).market.projects == w.market.projects + LoopGot(w, o, count)
  {
    if count > 0 {
      LoopGets(w, o, count - 1);
      CreateGets(VisitDatacenters(w, o, count - 1).market, w.datacenters[count - 1], DatacenterReplies(o, count - 1));
    }
  }

  /** A createTenant that fails behind its project leaves the project to nobody: because the next
      lookup fails, or because the reply that created it was lost. */
  lemma ProjectWithoutTenant(m: Market, slug: string, o: TenantReplies, p: string)
    requires o.customer && ((o.project == Project(Some(p)) && !o.offering) || o.project == ProjectError(Some(p)))
    ensures CreateTenant(m, slug, o) == (m.(projects := m.projects + {p}), None)
  {}

  // ----- runs -----

  /** Where a project is in the three phases of the object's life; `had` says that it was there at the
      start or was got since, `tenants` are those deletion began with. */
  ghost predicate Phase(end: ClusterWorld, project: string, had: bool, tenants: map<string, Tenant>) {
    if Live(end) then (project in end.market.projects <==> had) && tenants == end.stored.value.status.tenants
    else InDeletion(end, project, had, tenants)
  }

  /** An object that never got its finalizer has no tenant. */
  lemma NoFinalizerNoTenant(w: ClusterWorld)
    requires ClusterInv(w) && w.stored.Some? && !w.stored.value.finalizer
    ensures w.stored.value.status.tenants == map[]
  {
    var tenants := w.stored.value.status.tenants;
    forall slug ensures slug !in tenants {
      assert SlotOk(SlotAt(tenants, slug), slug, w.market, w.recorded);
    }
  }

  lemma LiveStepPhase(w: ClusterWorld, s: ClusterStep, project: string, had: bool)
    requires ClusterInv(w) && LegalCluster(w, s) && Live(w) && Phase(w, project, had, w.stored.value.status.tenants)
    requires s.OtherOrders? ==> (project in s.market.projects <==> project in w.market.projects)
    ensures var w' := DoCluster(w, s);
            Phase(w', project, had || project in StepGot(w, s),
                  if Live(w') then w'.stored.value.status.tenants else w.stored.value.status.tenants)
  {
    match s
    case OtherOrders(_) =>
    case DeleteCluster =>
      if !w.stored.value.finalizer {
        NoFinalizerNoTenant(w);
      }
    case ReconcileCluster(o, _, _) =>
      if w.stored.value.finalizer && o.owner {
        LoopGets(w, o, |w.datacenters|);
      }
  }

  lemma EndingStepPhase(w: ClusterWorld, s: ClusterStep, project: string, had: bool, tenants: map<string, Tenant>)
    requires ClusterInv(w) && LegalCluster(w, s) && !Live(w) && Phase(w, project, had, tenants)
    requires s.OtherOrders? ==> (project in s.market.projects <==> project in w.market.projects)
    ensures !Live(DoCluster(w, s)) && Phase(DoCluster(w, s), project, had, tenants)
  {
    DeletionStep(w, s, project, had, tenants);
  }

  lemma {:induction false} RunPhase(w: ClusterWorld, steps: seq<ClusterStep>, project: string)
    requires InitCluster(w) && LegalClusterRun(w, steps) && LeftAlone(w, steps, project)
    ensures Phase(RunCluster(w, steps), project, project in w.market.projects || project in RunGot(w, steps), LastLive(w, steps))
  {
    if steps != [] {
      var front, s := steps[..|steps| - 1], steps[|steps| - 1];
      LegalClusterPrefix(w, steps);
      LeftAlonePrefix(w, steps, project);
      RunPhase(w, front, project);
      RunClusterInv(w, front);
      var mid, had := RunCluster(w, front), project in w.market.projects || project in RunGot(w, front);
      if Live(mid) {
        LiveStepPhase(mid, s, project, had);
      } else {
        EndingStepPhase(mid, s, project, had, LastLive(w, front));
      }
    }
  }

  /** Once the object is gone, a project the others leave alone is there exactly when it was there at
      the start or this controller got or created it since, with or without learning so, and no
      tenant stored at the beginning of the deletion names it. */
  lemma {:induction false} ProjectsLeft(w: ClusterWorld, steps: seq<ClusterStep>, project: string)
    requires InitCluster(w) && LegalClusterRun(w, steps) && RunCluster(w, steps).stored.None? && LeftAlone(w, steps, project)
    ensures project in RunCluster(w, steps).market.projects <==>
              (project in w.market.projects || project in RunGot(w, steps)) && project !in ProjectsOf(LastLive(w, steps))
  {
    RunPhase(w, steps, project);
  }

  // ----- a project that is left behind -----

  const FRESH := ClusterWorld(["dc"], Some(ClusterObject(false, false, None, ClusterStatus(None, None, map[]))), {}, Market(map[], map[], {}))

  /** The customer and the project are found, the offering is not. */
  const NO_OFFERING := SILENCE.(customer := true, project := Project(Some("p")))

  const PASS := ReconcileCluster(
    ClusterReplies(Applied, true, [NO_OFFERING], map[], map[], Applied, None, Refused), [], [])

  /** Finalizer, a live pass, the deletion request, the deleting pass: the object is gone, and so is
      every trace of the project but the project itself. */
  lemma ProjectLeftBehind()
    ensures var steps := [PASS, PASS, DeleteCluster, PASS];
            && InitCluster(FRESH) && LegalClusterRun(FRESH, steps)
            && RunCluster(FRESH, steps).stored.None?
            && RunCluster(FRESH, steps).market == Market(map[], map[], {"p"})
  {
    FirstPass();
    var w1 := DoCluster(FRESH, PASS);
    LivePass(w1);
    var w2 := DoCluster(w1, PASS);
    var w3 := DoCluster(w2, DeleteCluster);
    LastPass(w3);
    var none: seq<ClusterStep> := [];
    OneMore(FRESH, none, PASS, FRESH);
    OneMore(FRESH, none + [PASS], PASS, w1);
    OneMore(FRESH, none + [PASS] + [PASS], DeleteCluster, w2);
    OneMore(FRESH, none + [PASS] + [PASS] + [DeleteCluster], PASS, w3);
    assert none + [PASS] + [PASS] + [DeleteCluster] + [PASS] == [PASS, PASS, DeleteCluster, PASS];
  }

  lemma FirstPass()
    ensures InitCluster(FRESH) && LegalCluster(FRESH, PASS)
    ensures DoCluster(FRESH, PASS) == FRESH.(stored := Some(FRESH.stored.value.(finalizer := true)))
  {
    assert Elements([]) == {};
  }

  /** A legal run with one more step. */
  lemma OneMore(w: ClusterWorld, steps: seq<ClusterStep>, s: ClusterStep, mid: ClusterWorld)
    requires LegalClusterRun(w, steps) && RunCluster(w, steps) == mid && LegalCluster(mid, s)
    ensures LegalClusterRun(w, steps + [s]) && RunCluster(w, steps + [s]) == DoCluster(mid, s)
  {
    var all := steps + [s];
    assert all[..|steps|] == steps;
    forall i | 0 <= i < |all| ensures LegalCluster(RunCluster(w, all[..i]), all[i]) {
      if i < |steps| {
        assert all[..i] == steps[..i];
      }
    }
  }

  lemma LivePass(w: ClusterWorld)
    requires w == FRESH.(stored := Some(FRESH.stored.value.(finalizer := true)))
    ensures var w' := DoCluster(w, PASS);
            && Live(w') && w'.stored.value.finalizer && w'.stored.value.status.tenants == map[]
            && w'.market == Market(map[], map[], {"p"}) && LegalCluster(w, PASS)
  {
    assert Elements([]) == {};
    assert DatacenterReplies(PASS.o, 0) == NO_OFFERING;
    ProjectWithoutTenant(w.market, "dc", NO_OFFERING, "p");
    assert VisitDatacenters(w, PASS.o, 0) == Fold(map[], w.market);
    assert VisitDatacenters(w, PASS.o, 1) == Fold(map[], w.market.(projects := {"p"}));
  }

  lemma LastPass(w: ClusterWorld)
    requires w.stored.Some? && w.stored.value.deleting && w.stored.value.status.tenants == map[]
    ensures LegalCluster(w, PASS)
    ensures DoCluster(w, PASS).stored.None? && DoCluster(w, PASS).market == w.market
  {
    assert Elements([]) == {};
  }
}
