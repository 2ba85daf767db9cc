/** Projects go last, and deleting them can be interrupted anywhere and resumed. */
module ClusterProjects {
  import opened Prelude
  import opened Waldur
  import opened ApiTypes
  import opened ClusterSpec
  import opened ClusterProofs
  import opened ClusterReadiness

  /** The projects the tenants name; two tenants may share one. */
  function ProjectsOf(tenants: map<string, Tenant>): set<string> {
    set slug | slug in tenants && tenants[slug].project.Some? :: tenants[slug].project.value
  }

  /** The projects of the tenants still to be visited. */
  function ProjectsAhead(tenants: map<string, Tenant>, visit: seq<string>): set<string> {
    set slug | slug in visit && slug in tenants && tenants[slug].project.Some? :: tenants[slug].project.value
  }

  /** Deleting projects removes nothing but the tenants' projects, and all of them on success. */
  lemma {:induction false} DeleteProjectsExact(projects: set<string>, tenants: map<string, Tenant>, visit: seq<string>, o: ClusterReplies)
    ensures var (left, ok) := DeleteProjects(projects, tenants, visit, o);
            && projects - ProjectsAhead(tenants, visit) <= left <= projects
            && (ok ==> left == projects - ProjectsAhead(tenants, visit))
  {
    if visit == [] {
    } else {
      var rest := visit[1..];
      assert visit == [visit[0]] + rest;
      if visit[0] !in tenants || tenants[visit[0]].project.None? {
        assert ProjectsAhead(tenants, visit) == ProjectsAhead(tenants, rest);
        DeleteProjectsExact(projects, tenants, rest, o);
      } else {
        var slug := tenants[visit[0]].project.value;
        assert ProjectsAhead(tenants, visit) == ProjectsAhead(tenants, rest) + {slug};
        var (left, ok) := DeleteProject(projects, slug, ProjectReplies(o, slug));
        DeleteProjectsExact(left, tenants, rest, o);
      }
    }
  }

  /** The loop stops at its first error: some tenant's project fails, those of the tenants before it are
      gone, its own may be, and every other one is as it was. */
  lemma {:induction false} DeleteProjectsStops(projects: set<string>, tenants: map<string, Tenant>, visit: seq<string>, o: ClusterReplies) returns (k: nat)
    requires !DeleteProjects(projects, tenants, visit, o).1
    ensures k < |visit| && visit[k] in tenants && tenants[visit[k]].project.Some?
    ensures var left, call := DeleteProjects(projects, tenants, visit, o).0, ProjectReplies(o, tenants[visit[k]].project.value);
            && (!call.listed || !call.hasUuid || call.destroy != Applied)
            && projects - ProjectsAhead(tenants, visit[..k + 1]) <= left <= projects - ProjectsAhead(tenants, visit[..k])
            && (!call.listed || !call.hasUuid || call.destroy.Refused? ==> left == projects - ProjectsAhead(tenants, visit[..k]))
  {
    var head, rest := visit[0], visit[1..];
    if head in tenants && tenants[head].project.Some? && !DeleteProject(projects, tenants[head].project.value, ProjectReplies(o, tenants[head].project.value)).1 {
      k := 0;
      assert visit[..1] == [head];
    } else {
      var left := if head in tenants && tenants[head].project.Some? then
                    DeleteProject(projects, tenants[head].project.value, ProjectReplies(o, tenants[head].project.value)).0
                  else projects;
      var i := DeleteProjectsStops(left, tenants, rest, o);
      k := i + 1;
      AheadOf(tenants, visit, i);
      AheadOf(tenants, visit, k);
    }
  }

  lemma AheadOf(tenants: map<string, Tenant>, visit: seq<string>, k: nat)
    requires visit != [] && k < |visit|
    ensures ProjectsAhead(tenants, visit[..k + 1])
         == ProjectsAhead(tenants, visit[1..][..k])
            + (if visit[0] in tenants && tenants[visit[0]].project.Some? then {tenants[visit[0]].project.value} else {})
  {
    assert visit[..k + 1] == [visit[0]] + visit[1..][..k];
  }

  lemma AllAhead(tenants: map<string, Tenant>, visit: seq<string>)
    requires Lists(visit, tenants.Keys)
    ensures ProjectsAhead(tenants, visit) == ProjectsOf(tenants)
  {
    assert forall slug :: slug in tenants <==> slug in Elements(visit);
  }

  /** One deleting pass: projects are touched only when every stored tenant is finished; then only
      the tenants' projects go, and all of them before the object does. */
  lemma DeletePassProjects(w: ClusterWorld, o: ClusterReplies, visit: seq<string>, projectVisit: seq<string>)
    requires ClusterInv(w) && w.stored.Some? && w.stored.value.deleting
    requires Lists(visit, w.stored.value.status.tenants.Keys) && Lists(projectVisit, w.stored.value.status.tenants.Keys)
    ensures var tenants := w.stored.value.status.tenants;
            var w' := ClusterDeletePass(w, o, visit, projectVisit).0;
            && w.market.projects - ProjectsOf(tenants) <= w'.market.projects <= w.market.projects
            && (w'.market.projects != w.market.projects || w'.stored.None? ==> AllFinished(tenants))
            && (w'.stored.None? ==> w'.market.projects == w.market.projects - ProjectsOf(tenants))
            && (w'.stored.Some? ==> w'.stored.value.deleting && ProjectsOf(w'.stored.value.status.tenants) == ProjectsOf(tenants))
  {
    var tenants := w.stored.value.status.tenants;
    VisitAllDeletingOk(w, o, visit, |visit|);
    SameProjects(w, o, visit);
    DeletePassEnding(w, o, visit, projectVisit);
    if AllFinished(tenants) {
      FinishedUntouched(w, o, visit, |visit|);
      DeleteProjectsExact(w.market.projects, tenants, projectVisit, o);
      AllAhead(tenants, projectVisit);
    }
  }

  /** The projects and the object after a deleting pass, in terms of its two loops. */
  lemma DeletePassEnding(w: ClusterWorld, o: ClusterReplies, visit: seq<string>, projectVisit: seq<string>)
    requires w.stored.Some? && w.stored.value.deleting
    ensures var tenants, f := w.stored.value.status.tenants, VisitAllDeleting(w, o, visit, |visit|);
            var deleted := DeleteProjects(f.market.projects, f.tenants, projectVisit, o);
            var w' := ClusterDeletePass(w, o, visit, projectVisit).0;
            && (w'.market.projects == f.market.projects || (AllFinished(tenants) && w'.market.projects == deleted.0))
            && (w'.stored.None? ==> AllFinished(tenants) && deleted.1 && w'.market.projects == deleted.0)
            && (w'.stored.Some? ==>
                  && w'.stored.value.deleting
                  && (w'.stored.value.status == w.stored.value.status || w'.stored.value.status.tenants == f.tenants))
  {}

  lemma SameProjects(w: ClusterWorld, o: ClusterReplies, visit: seq<string>)
    requires ClusterInv(w) && w.stored.Some? && Distinct(visit)
    ensures ProjectsOf(VisitAllDeleting(w, o, visit, |visit|).tenants) == ProjectsOf(w.stored.value.status.tenants)
  {
    var before, after := w.stored.value.status.tenants, VisitAllDeleting(w, o, visit, |visit|).tenants;
    forall slug ensures slug in before <==> slug in after
      ensures slug in before ==> before[slug].project == after[slug].project
    {
      DeletingKeepsTenant(w, o, visit, |visit|, slug);
    }
  }

  /** This controller destroys no project until every recorded tenant is released in the marketplace:
      a project goes away in a deleting pass of that kind, or others take it away. */
  lemma ProjectsGoLast(w: ClusterWorld, s: ClusterStep, project: string, slug: string)
    requires ClusterInv(w) && LegalCluster(w, s)
    requires project in w.market.projects && project !in DoCluster(w, s).market.projects
    ensures s.OtherOrders?
            || (&& w.stored.Some? && w.stored.value.deleting
                && AllFinished(w.stored.value.status.tenants) && project in ProjectsOf(w.stored.value.status.tenants)
                && SlotCleared(slug, w.market, w.recorded))
  {
    match s
    case OtherOrders(_) =>
    case DeleteCluster =>
    case ReconcileCluster(o, visit, projectVisit) =>
      if w.stored.Some? {
        if w.stored.value.deleting {
          DeletePassProjects(w, o, visit, projectVisit);
          assert SlotOk(SlotAt(w.stored.value.status.tenants, slug), slug, w.market, w.recorded);
          DoneSlotIsCleared(SlotAt(w.stored.value.status.tenants, slug), slug, w.market, w.recorded);
        } else if w.stored.value.finalizer && o.owner {
          LoopKeepsProjects(w, o, |w.datacenters|);
        }
      }
  }

  lemma {:induction false} LoopKeepsProjects(w: ClusterWorld, o: ClusterReplies, count: nat)
    requires w.stored.Some? && count <= |w.datacenters|
    ensures w.market.projects <= VisitDatacenters(w, o, count).market.projects
  {
    if count > 0 {
      LoopKeepsProjects(w, o, count - 1);
    }
  }

  /** The other parties neither create nor destroy this project during the run. */
  ghost predicate LeftAlone(w: ClusterWorld, steps: seq<ClusterStep>, project: string) {
    forall i :: 0 <= i < |steps| && steps[i].OtherOrders? ==>
      (project in steps[i].market.projects <==> project in RunCluster(w, steps[..i]).market.projects)
  }

  lemma LeftAlonePrefix(w: ClusterWorld, steps: seq<ClusterStep>, project: string)
    requires steps != [] && LeftAlone(w, steps, project)
    ensures LeftAlone(w, steps[..|steps| - 1], project)
    ensures steps[|steps| - 1].OtherOrders? ==>
              (project in steps[|steps| - 1].market.projects <==> project in RunCluster(w, steps[..|steps| - 1]).market.projects)
  {
    var front := steps[..|steps| - 1];
    forall i | 0 <= i < |front| && front[i].OtherOrders?
      ensures project in front[i].market.projects <==> project in RunCluster(w, front[..i]).market.projects
    {
      assert front[..i] == steps[..i] && front[i] == steps[i];
    }
  }

  /** A project in the deletion phase that began with these tenants: nobody but a tenant's project goes
      away, and at the end all of those are gone. */
  ghost predicate InDeletion(end: ClusterWorld, project: string, had: bool, tenants: map<string, Tenant>) {
    && (end.stored.Some? ==> end.stored.value.deleting && ProjectsOf(end.stored.value.status.tenants) == ProjectsOf(tenants))
    && (project in end.market.projects ==> had)
    && (had && project !in ProjectsOf(tenants) ==> project in end.market.projects)
    && (end.stored.None? ==> project !in end.market.projects || project !in ProjectsOf(tenants))
  }

  lemma DeletionStep(w: ClusterWorld, s: ClusterStep, project: string, had: bool, tenants: map<string, Tenant>)
    requires ClusterInv(w) && LegalCluster(w, s) && InDeletion(w, project, had, tenants)
    requires s.OtherOrders? ==> (project in s.market.projects <==> project in w.market.projects)
    ensures InDeletion(DoCluster(w, s), project, had, tenants)
  {
    if s.ReconcileCluster? && w.stored.Some? {
      DeletePassProjects(w, s.o, s.visit, s.projectVisit);
    }
  }

  /** The whole deletion phase, with any failures, restarts and steps of others in between: for every
      project the others leave alone, only a tenant's project may go missing, and once the object is
      gone exactly those have, shared or not. */
  lemma {:induction false} ProjectsRestartable(w: ClusterWorld, steps: seq<ClusterStep>, project: string)
    requires ClusterInv(w) && w.stored.Some? && w.stored.value.deleting && LegalClusterRun(w, steps)
    requires LeftAlone(w, steps, project)
    ensures ClusterInv(RunCluster(w, steps))
    ensures InDeletion(RunCluster(w, steps), project, project in w.market.projects, w.stored.value.status.tenants)
    ensures RunCluster(w, steps).stored.None? ==>
              (project in RunCluster(w, steps).market.projects <==>
                 project in w.market.projects && project !in ProjectsOf(w.stored.value.status.tenants))
  {
    if steps == [] {
    } else {
      var front, s := steps[..|steps| - 1], steps[|steps| - 1];
      LegalClusterPrefix(w, steps);
      LeftAlonePrefix(w, steps, project);
      ProjectsRestartable(w, front, project);
      DoClusterInv(RunCluster(w, front), s);
      DeletionStep(RunCluster(w, front), s, project, project in w.market.projects, w.stored.value.status.tenants);
    }
  }
}
