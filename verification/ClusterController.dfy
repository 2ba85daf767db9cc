/** The WaldurCluster controller as a program over stored objects: each method does what the Go
    function of the same name does, and is proved equal to its function in ClusterSpec. */
module ClusterController {
  import opened Prelude
  import opened Waldur
  import opened ApiTypes
  import opened MachineSpec
  import opened ClusterSpec
  import opened Clients

  /** A tenant in memory, changed in place through a pointer. */
  class OpenStackTenant {
    var tenant: Tenant

    constructor (t: Tenant)
      ensures tenant == t
    {
      tenant := t;
    }
  }

  /** The WaldurCluster in memory while a pass runs. */
  class WaldurCluster {
    var deleting: bool
    var finalizer: bool
    var endpoint: Option<string>
    var status: ClusterStatus

    constructor (obj: ClusterObject)
      ensures Object() == obj
    {
      deleting, finalizer, endpoint, status := obj.deleting, obj.finalizer, obj.endpoint, obj.status;
    }

    ghost function Object(): ClusterObject
      reads this
    {
      ClusterObject(deleting, finalizer, endpoint, status)
    }
  }

  /** The tenants part of a merge patch: tenants that differ from the snapshot are written, tenants
      the snapshot had and memory lacks are removed, all others keep what is stored. */
  function MergeTenants(base: map<string, Tenant>, memory: map<string, Tenant>, stored: map<string, Tenant>): map<string, Tenant> {
    map slug | slug in memory.Keys + stored.Keys && (Changed(base, memory, slug) || (slug in stored && !(slug in base && slug !in memory))) ::
      if Changed(base, memory, slug) then memory[slug] else stored[slug]
  }

  predicate Changed(base: map<string, Tenant>, memory: map<string, Tenant>, slug: string) {
    slug in memory && (slug !in base || base[slug] != memory[slug])
  }

  function MergeClusterStatus(base: ClusterStatus, memory: ClusterStatus, stored: ClusterStatus): ClusterStatus {
    ClusterStatus(
      if memory.ready != base.ready then memory.ready else stored.ready,
      if memory.provisioned != base.provisioned then memory.provisioned else stored.provisioned,
      MergeTenants(base.tenants, memory.tenants, stored.tenants))
  }

  lemma MergeOntoSnapshot(base: ClusterStatus, memory: ClusterStatus)
    ensures MergeClusterStatus(base, memory, base) == memory
  {
    assert MergeTenants(base.tenants, memory.tenants, base.tenants) == memory.tenants;
  }

  class ClusterApi {
    var cluster: Option<ClusterObject>
    ghost var recorded: set<Uuid>

    method Get() returns (c: WaldurCluster?)
      ensures c == null <==> cluster.None?
      ensures c != null ==> fresh(c) && c.Object() == cluster.value
    {
      if cluster.None? {
        return null;
      }
      c := new WaldurCluster(cluster.value);
    }

    /** Update of the main resource; the status is ignored, and an object being deleted goes away
        with its last finalizer. */
    method Update(c: WaldurCluster, reply: WriteReply) returns (ok: bool)
      requires cluster.Some? && c.deleting == cluster.value.deleting
      modifies this
      ensures recorded == old(recorded)
      ensures cluster == if reply.Refused? then old(cluster)
                         else if c.deleting && !c.finalizer then None
                         else Some(old(cluster).value.(finalizer := c.finalizer, endpoint := c.endpoint))
      ensures ok == reply.Applied?
    {
      if !reply.Refused? {
        if c.deleting && !c.finalizer {
          cluster := None;
        } else {
          cluster := Some(cluster.value.(finalizer := c.finalizer, endpoint := c.endpoint));
        }
      }
      ok := reply.Applied?;
    }

    /** Patch of the status subresource against the snapshot `base`. */
    method StatusPatch(base: ClusterStatus, c: WaldurCluster, reply: WriteReply) returns (ok: bool)
      requires cluster.Some?
      modifies this
      ensures cluster == if reply.Refused? then old(cluster)
                         else Some(old(cluster).value.(status := MergeClusterStatus(base, c.status, old(cluster).value.status)))
      ensures recorded == if reply.Refused? then old(recorded) else old(recorded) + OrderIds(cluster.value.status.tenants)
      ensures ok == reply.Applied?
    {
      if !reply.Refused? {
        cluster := Some(cluster.value.(status := MergeClusterStatus(base, c.status, cluster.value.status)));
        recorded := recorded + OrderIds(cluster.value.status.tenants);
      }
      ok := reply.Applied?;
    }
  }

  class ClusterReconciler {
    const datacenters: seq<string>
    const api: ClusterApi
    const waldur: WaldurClient

    constructor (datacenters: seq<string>, api: ClusterApi, waldur: WaldurClient)
      ensures this.datacenters == datacenters && this.api == api && this.waldur == waldur
    {
      this.datacenters, this.api, this.waldur := datacenters, api, waldur;
    }

    ghost function View(): ClusterWorld
      reads api, waldur
    {
      ClusterWorld(datacenters, api.cluster, api.recorded, waldur.View())
    }

    /** `visit` and `projectVisit` are the orders in which the loops over the tenants ran. */
    method Reconcile(o: ClusterReplies) returns (outcome: Outcome, ghost visit: seq<string>, ghost projectVisit: seq<string>)
      modifies api, waldur
      ensures old(api.cluster).Some? && old(api.cluster).value.deleting ==>
                && Lists(visit, old(api.cluster).value.status.tenants.Keys)
                && Lists(projectVisit, old(api.cluster).value.status.tenants.Keys)
      ensures (View(), outcome) == ClusterPass(old(View()), o, visit, projectVisit)
    {
      visit, projectVisit := [], [];
      var c := api.Get();
      if c == null {
        return Idle, visit, projectVisit;
      }
      if c.deleting {
        outcome, visit, projectVisit := ReconcileDelete(c, o);
        return;
      }
      if !c.finalizer {
        c.finalizer := true;
        var ok := api.Update(c, o.finalizerWrite);
        return if ok then Idle else Failure, visit, projectVisit;
      }
      if !o.owner {
        return Idle, visit, projectVisit;
      }
      outcome := ReconcileTenants(c, o);
    }

    method ReconcileTenants(c: WaldurCluster, o: ClusterReplies) returns (outcome: Outcome)
      requires api.cluster == Some(c.Object()) && !c.deleting
      modifies api, waldur, c
      ensures (View(), outcome) == ClusterLivePass(old(View()), o)
    {
      var base := c.status;
      var tenants := UpdateTenants(c.status.tenants, o);
      c.status := c.status.(tenants := tenants);
      SetReadyCondition(c);
      MergeOntoSnapshot(base, c.status);
      var stored := api.StatusPatch(base, c, o.statusWrite);
      if !stored {
        return Failure;
      }
      ReconcileControlPlaneEndpoint(c, o);
      var pending := PendingTenant(tenants);
      return if pending then Requeue(15) else Requeue(300);
    }

    /** The loop over the datacenters: refresh the tenant of a slug that has one, create it otherwise. */
    method UpdateTenants(stored: map<string, Tenant>, o: ClusterReplies) returns (tenants: map<string, Tenant>)
      requires api.cluster.Some? && api.cluster.value.status.tenants == stored
      modifies waldur
      ensures Fold(tenants, waldur.View()) == VisitDatacenters(old(View()), o, |datacenters|)
    {
      tenants := stored;
      for i := 0 to |datacenters|
        invariant Fold(tenants, waldur.View()) == VisitDatacenters(old(View()), o, i)
      {
        var slug := datacenters[i];
        if slug in tenants {
          var existing := new OpenStackTenant(tenants[slug]);
          var complete := RefreshTenant(existing, DatacenterReplies(o, i));
          tenants := tenants[slug := existing.tenant];
        } else {
          var tenant := CreateTenant(slug, DatacenterReplies(o, i));
          if tenant.Some? {
            tenants := tenants[slug := tenant.value];
          }
        }
      }
    }

    method SetReadyCondition(c: WaldurCluster)
      modifies c`status
      ensures c.status == WithClusterReady(old(c.status), datacenters)
    {
      var pending := PendingTenant(c.status.tenants);
      var erred := ErredTenant(c.status.tenants);
      if |c.status.tenants| < |datacenters| {
        c.status := c.status.(ready := Some(Ready(false, Provisioning)), provisioned := Some(false));
      } else if pending {
        c.status := c.status.(ready := Some(Ready(false, Provisioning)), provisioned := Some(false));
      } else if erred {
        c.status := c.status.(ready := Some(Ready(false, ProvisioningFailed)), provisioned := Some(false));
      } else {
        c.status := c.status.(ready := Some(Ready(true, Provisioned)), provisioned := Some(true));
      }
    }

    /** anyTenantPending: a scan of the map in any order. */
    method PendingTenant(tenants: map<string, Tenant>) returns (r: bool)
      ensures r == AnyTenantPending(tenants)
    {
      var todo := tenants.Keys;
      while todo != {}
        invariant todo <= tenants.Keys
        invariant forall slug :: slug in tenants && slug !in todo ==>
                    tenants[slug].state == CoreOK || tenants[slug].state == CoreErred
        decreases todo
      {
        var slug :| slug in todo;
        if tenants[slug].state != CoreOK && tenants[slug].state != CoreErred {
          return true;
        }
        todo := todo - {slug};
      }
      return false;
    }

    /** anyTenantErred */
    method ErredTenant(tenants: map<string, Tenant>) returns (r: bool)
      ensures r == AnyTenantErred(tenants)
    {
      var todo := tenants.Keys;
      while todo != {}
        invariant todo <= tenants.Keys
        invariant forall slug :: slug in tenants && slug !in todo ==> tenants[slug].state != CoreErred
        decreases todo
      {
        var slug :| slug in todo;
        if tenants[slug].state == CoreErred {
          return true;
        }
        todo := todo - {slug};
      }
      return false;
    }

    /** Updates the tenant in place, call by call; `complete` is false when a call failed. */
    method RefreshTenant(existing: OpenStackTenant, o: TenantReplies) returns (complete: bool)
      modifies existing
      ensures (existing.tenant, complete) == ClusterSpec.RefreshTenant(waldur.View(), old(existing.tenant), o)
    {
      if existing.tenant.order.Some? && !IsOrderTerminal(existing.tenant.order.value.state) {
        var rec := waldur.Refresh(existing.tenant.order.value, o.order);
        if rec.None? {
          return false;
        }
        existing.tenant := existing.tenant.(order := rec);
      }
      if existing.tenant.resource.None? && existing.tenant.order.Some? {
        existing.tenant := existing.tenant.(resource := existing.tenant.order.value.resource);
      }
      if existing.tenant.resource.None? {
        return true;
      }
      if o.resource.None? {
        return false;
      }
      if o.resource.value.state.Some? {
        existing.tenant := existing.tenant.(resourceState := o.resource.value.state.value);
      }
      if !o.resource.value.backend {
        return true;
      }
      if o.backend.None? {
        return false;
      }
      var refreshed := o.backend.value;
      if refreshed.state.Some? {
        existing.tenant := existing.tenant.(state := refreshed.state.value);
      }
      if refreshed.name.Some? {
        existing.tenant := existing.tenant.(name := refreshed.name.value);
      }
      existing.tenant := existing.tenant.(uuid := Some(o.backendUuid));
      return true;
    }

    /** getOrCreateProject: the slug of the project, which a failed call may have created unseen. */
    method GetOrCreateProject(reply: ProjectReply) returns (project: Option<Option<string>>)
      modifies waldur`projects
      ensures waldur.projects == old(waldur.projects) + ProjectsGot(reply)
      ensures project == if reply.Project? then Some(reply.slug) else None
    {
      match reply {
        case ProjectError(created) =>
          if created.Some? {
            waldur.projects := waldur.projects + {created.value};
          }
          return None;
        case Project(slug) =>
          if slug.Some? {
            waldur.projects := waldur.projects + {slug.value};
          }
          return Some(slug);
      }
    }

    method CreateTenant(slug: string, o: TenantReplies) returns (tenant: Option<Tenant>)
      modifies waldur
      ensures (waldur.View(), tenant) == ClusterSpec.CreateTenant(old(waldur.View()), slug, o)
    {
      if !o.customer {
        return None;
      }
      var got := GetOrCreateProject(o.project);
      if got.None? {
        return None;
      }
      var project := got.value;
      if !o.offering || !o.limits {
        return None;
      }
      var response := waldur.OrdersCreate(slug, None, o.create);
      if !response.Created201? {
        return None;
      }
      var order := response.order;
      var rec := OrderRecord(order.id, Create, order.first, Some(order.resource), None);
      var created := Tenant(CoreUnset, None, response.name, Some(order.resource), ResourceUnset, project, None);
      if response.backend.None? {
        created := created.(state := CoreCreating);
      } else {
        rec := rec.(backend := response.backend);
        if o.backend.None? {
          return None;
        }
        created := created.(uuid := response.backend, state := o.newState);
      }
      return Some(created.(order := Some(rec)));
    }

    /** Sets the endpoint once, when an address is found; its errors are only logged. */
    method ReconcileControlPlaneEndpoint(c: WaldurCluster, o: ClusterReplies)
      requires api.cluster == Some(c.Object()) && !c.deleting
      modifies api, c
      ensures View() == SetEndpoint(old(View()), o)
    {
      if c.endpoint.Some? {
        return;
      }
      if o.endpoint.None? {
        return;
      }
      c.endpoint := o.endpoint;
      var ok := api.Update(c, o.endpointWrite);
    }

    method ReconcileDelete(c: WaldurCluster, o: ClusterReplies) returns (outcome: Outcome, ghost visit: seq<string>, ghost projectVisit: seq<string>)
      requires api.cluster == Some(c.Object()) && c.deleting
      modifies api, waldur, c
      ensures Lists(visit, old(c.status.tenants).Keys) && Lists(projectVisit, old(c.status.tenants).Keys)
      ensures (View(), outcome) == ClusterDeletePass(old(View()), o, visit, projectVisit)
    {
      var base := c.status;
      var tenants, allDone;
      tenants, allDone, visit := TerminateTenants(c.status.tenants, o);
      projectVisit := visit;

      c.status := c.status.(tenants := tenants);
      MergeOntoSnapshot(base, c.status);
      var stored := api.StatusPatch(base, c, o.statusWrite);
      if !stored {
        return Failure, visit, projectVisit;
      }
      if !allDone {
        return Requeue(15), visit, projectVisit;
      }
      var ok;
      ok, projectVisit := DestroyProjects(tenants, o);
      if !ok {
        return Failure, visit, projectVisit;
      }
      c.finalizer := false;
      var removed := api.Update(c, o.finalizerWrite);
      return if removed then Idle else Failure, visit, projectVisit;
    }

    /** The deletion loop: every tenant once, in an order of the runtime's choosing. */
    method TerminateTenants(stored: map<string, Tenant>, o: ClusterReplies)
      returns (tenants: map<string, Tenant>, allDone: bool, ghost visit: seq<string>)
      requires api.cluster.Some? && api.cluster.value.status.tenants == stored
      modifies waldur
      ensures Lists(visit, stored.Keys) && tenants.Keys == stored.Keys
      ensures Fold(tenants, waldur.View()) == VisitAllDeleting(old(View()), o, visit, |visit|)
      ensures allDone == AllFinished(stored)
    {
      tenants, allDone, visit := stored, true, [];
      var todo := stored.Keys;
      while todo != {}
        invariant todo <= stored.Keys && tenants.Keys == stored.Keys
        invariant Lists(visit, stored.Keys - todo)
        invariant forall slug :: slug in todo ==> tenants[slug] == stored[slug]
        invariant Fold(tenants, waldur.View()) == VisitAllDeleting(old(View()), o, visit, |visit|)
        invariant allDone == forall slug :: slug in stored && slug !in todo ==> TenantFinished(stored[slug])
        decreases todo
      {
        var slug :| slug in todo;
        VisitOneMore(old(View()), o, visit, slug);
        ListOneMore(visit, stored.Keys - todo, slug);
        visit := visit + [slug];
        todo := todo - {slug};
        assert stored.Keys - todo == (stored.Keys - todo - {slug}) + {slug};
        var finished;
        tenants, finished := TerminateTenant(tenants, slug, o);
        allDone := allDone && finished;
      }
      assert stored.Keys - todo == stored.Keys;
    }

    /** One iteration of the deletion loop. */
    method TerminateTenant(tenants: map<string, Tenant>, slug: string, o: ClusterReplies) returns (tenants': map<string, Tenant>, finished: bool)
      requires slug in tenants
      modifies waldur
      ensures Fold(tenants', waldur.View()) == VisitDeleting(Fold(tenants, old(waldur.View())), slug, SlugReplies(o, slug))
      ensures finished == TenantFinished(tenants[slug])
      ensures tenants'.Keys == tenants.Keys && forall other :: other in tenants && other != slug ==> tenants'[other] == tenants[other]
    {
      tenants' := tenants;
      var tenant := new OpenStackTenant(tenants[slug]);
      if tenant.tenant.resource.None? {
        return tenants, true;
      }
      if tenant.tenant.order.Some? && tenant.tenant.order.value.kind == Terminate && !IsOrderTerminal(tenant.tenant.order.value.state) {
        var complete := RefreshTenant(tenant, SlugReplies(o, slug));
        return tenants[slug := tenant.tenant], false;
      }
      if tenant.tenant.order.Some? && tenant.tenant.order.value.kind == Terminate && tenant.tenant.order.value.state == Done {
        return tenants, true;
      }
      var order := waldur.SubmitTerminationOrder(slug, tenant.tenant.resource.value, SlugReplies(o, slug).terminate);
      if order.None? {
        return tenants, false;
      }
      tenant.tenant := tenant.tenant.(order := order);
      return tenants[slug := tenant.tenant], false;
    }

    /** The loop over the tenants' projects; stops at the first error. */
    method DestroyProjects(tenants: map<string, Tenant>, o: ClusterReplies) returns (ok: bool, ghost visit: seq<string>)
      modifies waldur`projects
      ensures Lists(visit, tenants.Keys)
      ensures (waldur.projects, ok) == DeleteProjects(old(waldur.projects), tenants, visit, o)
    {
      visit := [];
      var todo := tenants.Keys;
      while todo != {}
        invariant todo <= tenants.Keys
        invariant Lists(visit, tenants.Keys - todo)
        invariant DeleteProjects(old(waldur.projects), tenants, visit, o) == (waldur.projects, true)
        decreases todo
      {
        var slug :| slug in todo;
        ghost var rest := ListingExists(todo - {slug});
        ListOneMore(visit, tenants.Keys - todo, slug);
        DeleteOneMore(old(waldur.projects), tenants, visit, [slug], o);
        DeleteOneMore(old(waldur.projects), tenants, visit + [slug], rest, o);
        ListsAppend(visit + [slug], rest, tenants.Keys - todo + {slug}, todo - {slug});
        visit := visit + [slug];
        todo := todo - {slug};
        if tenants[slug].project.Some? {
          var deleted := DeleteProject(tenants[slug].project.value, ProjectReplies(o, tenants[slug].project.value));
          if !deleted {
            visit := visit + rest;
            return false, visit;
          }
        }
      }
      assert tenants.Keys - todo == tenants.Keys;
      return true, visit;
    }

    method DeleteProject(slug: string, call: ProjectCall) returns (ok: bool)
      modifies waldur`projects
      ensures (waldur.projects, ok) == ClusterSpec.DeleteProject(old(waldur.projects), slug, call)
    {
      if !call.listed {
        return false;
      }
      if slug !in waldur.projects {
        return true;
      }
      if !call.hasUuid {
        return false;
      }
      if !call.destroy.Refused? {
        waldur.projects := waldur.projects - {slug};
      }
      return call.destroy.Applied?;
    }
  }

  // ----- growing a visiting order -----

  lemma ListOneMore(visit: seq<string>, keys: set<string>, k: string)
    requires Lists(visit, keys) && k !in keys
    ensures Lists(visit + [k], keys + {k})
  {
    forall i, j | 0 <= i < j < |visit + [k]| ensures (visit + [k])[i] != (visit + [k])[j] {
      assert visit[i] in Elements(visit);
    }
  }

  lemma ListsAppend(a: seq<string>, b: seq<string>, keysA: set<string>, keysB: set<string>)
    requires Lists(a, keysA) && Lists(b, keysB) && keysA !! keysB
    ensures Lists(a + b, keysA + keysB)
  {
    forall i, j | 0 <= i < j < |a + b| ensures (a + b)[i] != (a + b)[j] {
      if i < |a| { assert a[i] in Elements(a); }
      if j >= |a| { assert b[j - |a|] in Elements(b); }
    }
  }

  lemma {:induction false} SamePrefix(w: ClusterWorld, o: ClusterReplies, a: seq<string>, b: seq<string>, count: nat)
    requires w.stored.Some? && count <= |a| && a <= b
    ensures VisitAllDeleting(w, o, a, count) == VisitAllDeleting(w, o, b, count)
  {
    if count > 0 {
      SamePrefix(w, o, a, b, count - 1);
    }
  }

  lemma VisitOneMore(w: ClusterWorld, o: ClusterReplies, visit: seq<string>, slug: string)
    requires w.stored.Some?
    ensures VisitAllDeleting(w, o, visit + [slug], |visit + [slug]|)
         == VisitDeleting(VisitAllDeleting(w, o, visit, |visit|), slug, SlugReplies(o, slug))
  {
    SamePrefix(w, o, visit, visit + [slug], |visit|);
  }

  lemma {:induction false} DeleteOneMore(projects: set<string>, tenants: map<string, Tenant>, a: seq<string>, b: seq<string>, o: ClusterReplies)
    ensures var (left, ok) := DeleteProjects(projects, tenants, a, o);
            DeleteProjects(projects, tenants, a + b, o) == if ok then DeleteProjects(left, tenants, b, o) else (left, false)
  {
    if a == [] {
      assert a + b == b;
    } else {
      assert (a + b)[1..] == a[1..] + b;
      if a[0] !in tenants || tenants[a[0]].project.None? {
        DeleteOneMore(projects, tenants, a[1..], b, o);
      } else {
        var p := tenants[a[0]].project.value;
        DeleteOneMore(ClusterSpec.DeleteProject(projects, p, ProjectReplies(o, p)).0, tenants, a[1..], b, o);
      }
    }
  }
}
