/** One pass of the WaldurCluster controller as a function of the stored object, the marketplace and
    the replies it receives (internal/controller/waldurcluster_controller.go). The methods in
    ClusterController.dfy are proved equal to these functions. */
module ClusterSpec {
  import opened Prelude
  import opened Waldur
  import opened ApiTypes
  import opened MachineSpec

  /** `datacenters` is the fixed spec: the offering slug of each datacenter, in order. */
  datatype ClusterWorld = ClusterWorld(
    datacenters: seq<string>, stored: Option<ClusterObject>, recorded: set<Uuid>, market: Market)

  /** Getting or creating the project: an error, behind which a project may have been created all the
      same, or the project found or created, which may lack a slug. */
  datatype ProjectReply = ProjectError(created: Option<string>) | Project(slug: Option<string>)

  /** State and name of the backend tenant, each possibly absent. */
  datatype BackendReply = BackendReply(state: Option<CoreState>, name: Option<string>)

  /** The replies that concern one tenant in one pass; `None` and `false` are failed calls.
      `backendUuid` is the uuid the resource query reports, `newUuid` the one in a 201. */
  datatype TenantReplies = TenantReplies(
    order: Option<Option<Uuid>>, resource: Option<ResourceReply>, backendUuid: Uuid, backend: Option<BackendReply>,
    customer: bool, project: ProjectReply, offering: bool, limits: bool,
    create: CreateReply, newState: CoreState, terminate: TerminateReply)

  /** Listing and destroying one project. */
  datatype ProjectCall = ProjectCall(listed: bool, hasUuid: bool, destroy: WriteReply)

  datatype ClusterReplies = ClusterReplies(
    finalizerWrite: WriteReply, owner: bool, datacenters: seq<TenantReplies>,
    tenants: map<string, TenantReplies>, projects: map<string, ProjectCall>,
    statusWrite: WriteReply, endpoint: Option<string>, endpointWrite: WriteReply)

  /** The replies to a caller nobody answers. */
  const SILENCE := TenantReplies(None, None, "0", None, false, ProjectError(None), false, false, Rejected, CoreUnset, NoUuid(None))

  function DatacenterReplies(o: ClusterReplies, i: nat): TenantReplies {
    if i < |o.datacenters| then o.datacenters[i] else SILENCE
  }

  function SlugReplies(o: ClusterReplies, slug: string): TenantReplies {
    if slug in o.tenants then o.tenants[slug] else SILENCE
  }

  function ProjectReplies(o: ClusterReplies, slug: string): ProjectCall {
    if slug in o.projects then o.projects[slug] else ProjectCall(false, false, Refused)
  }

  // ----- refreshTenant and createTenant -----

  /** The tenant after refreshTenant and whether it ran to the end. */
  function RefreshTenant(m: Market, t: Tenant, o: TenantReplies): (Tenant, bool) {
    if t.order.Some? && !IsOrderTerminal(t.order.value.state) then
      var rec := RefreshOrder(m, t.order.value, o.order);
      if rec.None? then (t, false) else RefreshBackend(t.(order := rec), o)
    else RefreshBackend(t, o)
  }

  function RefreshBackend(t: Tenant, o: TenantReplies): (Tenant, bool) {
    var t1 := if t.resource.None? && t.order.Some? then t.(resource := t.order.value.resource) else t;
    if t1.resource.None? then (t1, true)
    else if o.resource.None? then (t1, false)
    else
      var t2 := t1.(resourceState := WithResourceState(t1.resourceState, o.resource.value));
      if !o.resource.value.backend then (t2, true)
      else if o.backend.None? then (t2, false)
      else (WithBackend(t2, o), true)
  }

  function WithBackend(t: Tenant, o: TenantReplies): Tenant
    requires o.backend.Some?
  {
    t.(state := if o.backend.value.state.Some? then o.backend.value.state.value else t.state,
       name := if o.backend.value.name.Some? then o.backend.value.name.value else t.name,
       uuid := Some(o.backendUuid))
  }

  /** The project there is after the call, known or not. */
  function ProjectsGot(reply: ProjectReply): set<string> {
    var slug := match reply case ProjectError(created) => created case Project(found) => found;
    if slug.Some? then {slug.value} else {}
  }

  /** createTenant. Getting or creating the project comes before the order. */
  function CreateTenant(m: Market, slug: string, o: TenantReplies): (Market, Option<Tenant>) {
    if !o.customer then (m, None)
    else
      var m1 := m.(projects := m.projects + ProjectsGot(o.project));
      if o.project.ProjectError? || !o.offering || !o.limits then (m1, None) else SubmitTenant(m1, slug, o)
  }

  /** The order: an accepted one is forgotten when the backend tenant it already names cannot be read. */
  function SubmitTenant(m: Market, slug: string, o: TenantReplies): (Market, Option<Tenant>)
    requires o.project.Project?
  {
    match o.create
    case Rejected => (m, None)
    case Dropped(None) => (m, None)
    case Dropped(Some(n)) => (AcceptCreate(m, slug, n, None), None)
    case Created(n, backend, name) =>
      if n.id in m.orders then (m, None)
      else (AcceptCreate(m, slug, n, None), NewTenant(n, backend, name, o))
  }

  function NewTenant(n: NewOrder, backend: Option<Uuid>, name: string, o: TenantReplies): Option<Tenant>
    requires o.project.Project?
  {
    if backend.None? then
      Some(Tenant(CoreCreating, None, name, Some(n.resource), ResourceUnset, o.project.slug,
                  Some(OrderRecord(n.id, Create, n.first, Some(n.resource), None))))
    else if o.backend.None? then None
    else
      Some(Tenant(o.newState, backend, name, Some(n.resource), ResourceUnset, o.project.slug,
                  Some(OrderRecord(n.id, Create, n.first, Some(n.resource), backend))))
  }

  // ----- the loop over the datacenters -----

  /** The tenants map and the marketplace between two iterations of a loop. */
  datatype Fold = Fold(tenants: map<string, Tenant>, market: Market)

  function VisitDatacenter(f: Fold, slug: string, o: TenantReplies): Fold {
    if slug in f.tenants then f.(tenants := f.tenants[slug := RefreshTenant(f.market, f.tenants[slug], o).0])
    else
      var (market, tenant) := CreateTenant(f.market, slug, o);
      Fold(if tenant.Some? then f.tenants[slug := tenant.value] else f.tenants, market)
  }

  function VisitDatacenters(w: ClusterWorld, o: ClusterReplies, count: nat): Fold
    requires w.stored.Some? && count <= |w.datacenters|
  {
    if count == 0 then Fold(w.stored.value.status.tenants, w.market)
    else VisitDatacenter(VisitDatacenters(w, o, count - 1), w.datacenters[count - 1], DatacenterReplies(o, count - 1))
  }

  // ----- readiness -----

  predicate AnyTenantPending(tenants: map<string, Tenant>) {
    exists slug :: slug in tenants && tenants[slug].state != CoreOK && tenants[slug].state != CoreErred
  }

  predicate AnyTenantErred(tenants: map<string, Tenant>) {
    exists slug :: slug in tenants && tenants[slug].state == CoreErred
  }

  /** setReadyCondition compares only sizes, not slugs. */
  function WithClusterReady(status: ClusterStatus, datacenters: seq<string>): ClusterStatus {
    if |status.tenants| < |datacenters| || AnyTenantPending(status.tenants) then
      status.(ready := Some(Ready(false, Provisioning)), provisioned := Some(false))
    else if AnyTenantErred(status.tenants) then
      status.(ready := Some(Ready(false, ProvisioningFailed)), provisioned := Some(false))
    else
      status.(ready := Some(Ready(true, Provisioned)), provisioned := Some(true))
  }

  // ----- writes -----

  function OrderIds(tenants: map<string, Tenant>): set<Uuid> {
    set slug | slug in tenants && tenants[slug].order.Some? :: tenants[slug].order.value.uuid
  }

  function StoreClusterStatus(w: ClusterWorld, status: ClusterStatus, reply: WriteReply): ClusterWorld {
    if reply.Refused? || w.stored.None? then w
    else w.(stored := Some(w.stored.value.(status := status)), recorded := w.recorded + OrderIds(status.tenants))
  }

  function RemoveClusterFinalizer(w: ClusterWorld, reply: WriteReply): ClusterWorld {
    if reply.Refused? then w else w.(stored := None)
  }

  /** reconcileControlPlaneEndpoint: the endpoint is set once, from the address `o.endpoint`. */
  function SetEndpoint(w: ClusterWorld, o: ClusterReplies): ClusterWorld {
    if w.stored.None? || w.stored.value.endpoint.Some? || o.endpoint.None? || o.endpointWrite.Refused? then w
    else w.(stored := Some(w.stored.value.(endpoint := o.endpoint)))
  }

  // ----- the pass -----

  function ClusterPass(w: ClusterWorld, o: ClusterReplies, visit: seq<string>, projectVisit: seq<string>): (ClusterWorld, Outcome) {
    if w.stored.None? then (w, Idle)
    else if w.stored.value.deleting then ClusterDeletePass(w, o, visit, projectVisit)
    else if !w.stored.value.finalizer then
      (if o.finalizerWrite.Refused? then w else w.(stored := Some(w.stored.value.(finalizer := true))),
       if o.finalizerWrite.Applied? then Idle else Failure)
    else if !o.owner then (w, Idle)
    else ClusterLivePass(w, o)
  }

  function ClusterLivePass(w: ClusterWorld, o: ClusterReplies): (ClusterWorld, Outcome)
    requires w.stored.Some?
  {
    var f := VisitDatacenters(w, o, |w.datacenters|);
    var status := WithClusterReady(w.stored.value.status.(tenants := f.tenants), w.datacenters);
    var w1 := StoreClusterStatus(w.(market := f.market), status, o.statusWrite);
    if !o.statusWrite.Applied? then (w1, Failure)
    else (SetEndpoint(w1, o), if AnyTenantPending(f.tenants) then Requeue(15) else Requeue(300))
  }

  // ----- deletion -----

  /** One iteration of the deletion loop and whether this tenant is finished. */
  function VisitDeleting(f: Fold, slug: string, o: TenantReplies): Fold {
    if slug !in f.tenants || f.tenants[slug].resource.None? || TerminationDone(TenantSlot(f.tenants[slug])) then f
    else
      var t := f.tenants[slug];
      if TerminationInFlight(TenantSlot(t)) then f.(tenants := f.tenants[slug := RefreshTenant(f.market, t, o).0])
      else
        var (market, rec) := SubmitTermination(f.market, slug, t.resource.value, o.terminate);
        Fold(if rec.Some? then f.tenants[slug := t.(order := rec)] else f.tenants, market)
  }

  /** The deletion loop over a map, in the order `visit` Go happens to choose. */
  function VisitAllDeleting(w: ClusterWorld, o: ClusterReplies, visit: seq<string>, count: nat): Fold
    requires w.stored.Some? && count <= |visit|
  {
    if count == 0 then Fold(w.stored.value.status.tenants, w.market)
    else VisitDeleting(VisitAllDeleting(w, o, visit, count - 1), visit[count - 1], SlugReplies(o, visit[count - 1]))
  }

  predicate TenantFinished(t: Tenant) {
    t.resource.None? || TerminationDone(TenantSlot(t))
  }

  predicate AllFinished(tenants: map<string, Tenant>) {
    forall slug :: slug in tenants ==> TenantFinished(tenants[slug])
  }

  /** deleteProject: the projects left and whether the call succeeded. */
  function DeleteProject(projects: set<string>, slug: string, call: ProjectCall): (set<string>, bool) {
    if !call.listed then (projects, false)
    else if slug !in projects then (projects, true)
    else if !call.hasUuid then (projects, false)
    else (if call.destroy.Refused? then projects else projects - {slug}, call.destroy.Applied?)
  }

  /** The loop over the tenants' projects stops at the first error. */
  function DeleteProjects(projects: set<string>, tenants: map<string, Tenant>, visit: seq<string>, o: ClusterReplies): (set<string>, bool) {
    if visit == [] then (projects, true)
    else if visit[0] !in tenants || tenants[visit[0]].project.None? then DeleteProjects(projects, tenants, visit[1..], o)
    else
      var slug := tenants[visit[0]].project.value;
      var (left, ok) := DeleteProject(projects, slug, ProjectReplies(o, slug));
      if ok then DeleteProjects(left, tenants, visit[1..], o) else (left, false)
  }

  /** `visit` and `projectVisit` are the orders in which Go ranges over the tenants, first to
      terminate them and then to delete their projects. */
  function ClusterDeletePass(w: ClusterWorld, o: ClusterReplies, visit: seq<string>, projectVisit: seq<string>): (ClusterWorld, Outcome)
    requires w.stored.Some?
  {
    var stored := w.stored.value.status;
    var f := VisitAllDeleting(w, o, visit, |visit|);
    var w1 := StoreClusterStatus(w.(market := f.market), stored.(tenants := f.tenants), o.statusWrite);
    if !o.statusWrite.Applied? then (w1, Failure)
    else if !AllFinished(stored.tenants) then (w1, Requeue(15))
    else
      var (left, ok) := DeleteProjects(f.market.projects, f.tenants, projectVisit, o);
      var w2 := w1.(market := w1.market.(projects := left));
      if !ok then (w2, Failure)
      else (RemoveClusterFinalizer(w2, o.finalizerWrite), if o.finalizerWrite.Applied? then Idle else Failure)
  }

  // ----- runs -----

  datatype ClusterStep =
    | ReconcileCluster(o: ClusterReplies, visit: seq<string>, projectVisit: seq<string>)
    | OtherOrders(market: Market)
    | DeleteCluster

  ghost predicate LegalCluster(w: ClusterWorld, s: ClusterStep) {
    match s
    case ReconcileCluster(_, visit, projectVisit) =>
      w.stored.Some? ==>
        Lists(visit, w.stored.value.status.tenants.Keys) && Lists(projectVisit, w.stored.value.status.tenants.Keys)
    case OtherOrders(market) => Evolves(w.market, market)
    case DeleteCluster => true
  }

  function MarkClusterDeleted(w: ClusterWorld): ClusterWorld {
    if w.stored.None? then w
    else if w.stored.value.finalizer then w.(stored := Some(w.stored.value.(deleting := true)))
    else w.(stored := None)
  }

  function DoCluster(w: ClusterWorld, s: ClusterStep): ClusterWorld {
    match s
    case ReconcileCluster(o, visit, projectVisit) => ClusterPass(w, o, visit, projectVisit).0
    case OtherOrders(market) => w.(market := market)
    case DeleteCluster => MarkClusterDeleted(w)
  }

  function RunCluster(w: ClusterWorld, steps: seq<ClusterStep>): ClusterWorld {
    if steps == [] then w else DoCluster(RunCluster(w, steps[..|steps| - 1]), steps[|steps| - 1])
  }

  ghost predicate LegalClusterRun(w: ClusterWorld, steps: seq<ClusterStep>) {
    forall i :: 0 <= i < |steps| ==> LegalCluster(RunCluster(w, steps[..i]), steps[i])
  }

  /** A freshly created WaldurCluster. */
  ghost predicate InitCluster(w: ClusterWorld) {
    && w.stored == Some(ClusterObject(false, false, None, ClusterStatus(None, None, map[])))
    && w.recorded == {}
    && MarketOk(w.market) && w.market.mine == map[]
  }
}
