/** What a WaldurCluster's pass stores of the replies it received: the tenants tell what was reported,
    readiness follows from that, the endpoint is set once, and a pass that leaves work asks for the
    next one. */
module ClusterAnswers {
  import opened Prelude
  import opened Waldur
  import opened ApiTypes
  import opened MachineSpec
  import opened ClusterSpec
  import opened ClusterProofs
  import opened ClusterReadiness

  // ----- what a refresh learns -----

  /** The calls a refresh makes one after the other, each of them answered: the order while it is
      open, the marketplace resource, once the tenant knows it, and the backend tenant. */
  predicate OrderAnswered(t: Tenant, o: TenantReplies) {
    t.order.Some? && t.order.value.state.Pending? ==> o.order.Some?
  }

  /** The resource, which is taken over from the order. */
  function ResourceOf(t: Tenant): Option<Uuid> {
    if t.resource.None? && t.order.Some? then t.order.value.resource else t.resource
  }

  predicate ResourceAnswered(t: Tenant, o: TenantReplies) {
    OrderAnswered(t, o) && ResourceOf(t).Some? && o.resource.Some?
  }

  predicate BackendAnswered(t: Tenant, o: TenantReplies) {
    ResourceAnswered(t, o) && o.resource.value.backend && o.backend.Some?
  }

  /** The value reported in an answer, or the old one. */
  function Reported<T>(report: Option<T>, kept: T): T {
    if report.Some? then report.value else kept
  }

  /** Field by field, a refresh takes over what was reported in an answer and keeps what was not,
      however far it gets. */
  lemma RefreshFields(m: Market, t: Tenant, o: TenantReplies)
    requires t.order.Some? ==> t.order.value.uuid in m.orders
    ensures var t' := RefreshTenant(m, t, o).0;
            && t'.order == (if t.order.Some? && t.order.value.state.Pending? && o.order.Some? then
                              Some(t.order.value.(state := StateOf(m.orders[t.order.value.uuid]),
                                                  backend := if o.order.value.Some? then o.order.value else t.order.value.backend))
                            else t.order)
            && t'.resource == (if OrderAnswered(t, o) then ResourceOf(t) else t.resource)
            && t'.resourceState == (if ResourceAnswered(t, o) then Reported(o.resource.value.state, t.resourceState) else t.resourceState)
            && (if BackendAnswered(t, o) then
                  && t'.state == Reported(o.backend.value.state, t.state)
                  && t'.name == Reported(o.backend.value.name, t.name)
                  && t'.uuid == Some(o.backendUuid)
                else t'.state == t.state && t'.name == t.name && t'.uuid == t.uuid)
            && t'.project == t.project
  {}

  // ----- one visit per datacenter -----

  lemma VisitOthers(f: Fold, visited: string, o: TenantReplies, slug: string)
    requires visited != slug
    ensures var f' := VisitDatacenter(f, visited, o);
            && (slug in f'.tenants <==> slug in f.tenants)
            && (slug in f.tenants ==> f'.tenants[slug] == f.tenants[slug])
  {}

  /** When slugs do not repeat, the tenant of datacenter `i` is the stored one until its iteration, and
      stays what that iteration made of it. */
  lemma {:induction false} BeforeVisit(w: ClusterWorld, o: ClusterReplies, i: nat, k: nat)
    requires w.stored.Some? && Distinct(w.datacenters) && k <= i < |w.datacenters|
    ensures var f, slug, tenants := VisitDatacenters(w, o, k), w.datacenters[i], w.stored.value.status.tenants;
            && (slug in f.tenants <==> slug in tenants)
            && (slug in tenants ==> f.tenants[slug] == tenants[slug])
  {
    if k > 0 {
      BeforeVisit(w, o, i, k - 1);
      VisitOthers(VisitDatacenters(w, o, k - 1), w.datacenters[k - 1], DatacenterReplies(o, k - 1), w.datacenters[i]);
    }
  }

  lemma {:induction false} AfterVisit(w: ClusterWorld, o: ClusterReplies, i: nat, k: nat)
    requires w.stored.Some? && Distinct(w.datacenters) && i < k <= |w.datacenters|
    ensures var f, f', slug := VisitDatacenters(w, o, i + 1), VisitDatacenters(w, o, k), w.datacenters[i];
            && (slug in f'.tenants <==> slug in f.tenants)
            && (slug in f.tenants ==> f'.tenants[slug] == f.tenants[slug])
  {
    if k > i + 1 {
      AfterVisit(w, o, i, k - 1);
      VisitOthers(VisitDatacenters(w, o, k - 1), w.datacenters[k - 1], DatacenterReplies(o, k - 1), w.datacenters[i]);
    }
  }

  // ----- what the tenants tell -----

  /** createTenant gets a 201 for an order that is new: customer, project, offering and limits are
      there, and so is the backend tenant if the reply names one. */
  predicate Ordered(m: Market, o: TenantReplies) {
    && o.customer && o.project.Project? && o.offering && o.limits
    && o.create.Created? && o.create.order.id !in m.orders
    && (o.create.backend.Some? ==> o.backend.Some?)
  }

  /** The tenant of a new order. */
  function OrderedTenant(o: TenantReplies): Tenant
    requires o.create.Created? && o.project.Project?
  {
    var n := o.create.order;
    Tenant(if o.create.backend.Some? then o.newState else CoreCreating, o.create.backend, o.create.name,
           Some(n.resource), ResourceUnset, o.project.slug,
           Some(OrderRecord(n.id, Create, n.first, Some(n.resource), o.create.backend)))
  }

  /** The state datacenter `i`'s tenant has after the loop, if there is one: as reported to a known
      tenant, or else as before; for a new one CREATING, or what its backend tenant reported. */
  function Told(w: ClusterWorld, o: ClusterReplies, i: nat): Option<CoreState>
    requires w.stored.Some? && i < |w.datacenters|
  {
    var tenants, slug, r := w.stored.value.status.tenants, w.datacenters[i], DatacenterReplies(o, i);
    if slug in tenants then
      Some(if BackendAnswered(tenants[slug], r) then Reported(r.backend.value.state, tenants[slug].state) else tenants[slug].state)
    else if Ordered(VisitDatacenters(w, o, i).market, r) then
      Some(if r.create.backend.Some? then r.newState else CoreCreating)
    else None
  }

  lemma CreateTenantExactly(m: Market, slug: string, o: TenantReplies)
    ensures CreateTenant(m, slug, o).1 == if Ordered(m, o) then Some(OrderedTenant(o)) else None
  {}

  /** After the loop, a slug that had no tenant has one exactly when its order came through, and it is
      the tenant of that order, in the project the call named. */
  lemma NewTenantExactly(w: ClusterWorld, o: ClusterReplies, i: nat)
    requires w.stored.Some? && Distinct(w.datacenters) && i < |w.datacenters|
    requires w.datacenters[i] !in w.stored.value.status.tenants
    ensures var end, slug, r := VisitDatacenters(w, o, |w.datacenters|).tenants, w.datacenters[i], DatacenterReplies(o, i);
            if Ordered(VisitDatacenters(w, o, i).market, r) then slug in end && end[slug] == OrderedTenant(r) else slug !in end
  {
    BeforeVisit(w, o, i, i);
    CreateTenantExactly(VisitDatacenters(w, o, i).market, w.datacenters[i], DatacenterReplies(o, i));
    AfterVisit(w, o, i, |w.datacenters|);
  }

  /** A stored tenant's order is in the marketplace, and stays there during the loop. */
  lemma StoredOrderThere(w: ClusterWorld, o: ClusterReplies, i: nat, slug: string)
    requires ClusterInv(w) && w.stored.Some? && i <= |w.datacenters|
    requires slug in VisitDatacenters(w, o, i).tenants
    ensures var f := VisitDatacenters(w, o, i);
            && f.tenants[slug].resource.Some? && f.tenants[slug].order.Some?
            && f.tenants[slug].order.value.uuid in f.market.orders
  {
    VisitDatacentersOk(w, o, i);
    var f := VisitDatacenters(w, o, i);
    assert SlotOk(SlotAt(f.tenants, slug), slug, f.market, Counted(w.recorded, f.tenants));
  }

  /** After the loop, a stored tenant tells what its own iteration was told: state, name and uuid of an
      answered backend query, the resource state of an answered resource query, and otherwise what it
      told before. */
  lemma KnownTenantTells(w: ClusterWorld, o: ClusterReplies, i: nat)
    requires ClusterInv(w) && w.stored.Some? && Distinct(w.datacenters) && i < |w.datacenters|
    requires w.datacenters[i] in w.stored.value.status.tenants
    ensures var end, slug, r := VisitDatacenters(w, o, |w.datacenters|).tenants, w.datacenters[i], DatacenterReplies(o, i);
            && slug in end && Told(w, o, i) == Some(end[slug].state)
            && var t := w.stored.value.status.tenants[slug];
               && end[slug].resourceState == (if ResourceAnswered(t, r) then Reported(r.resource.value.state, t.resourceState) else t.resourceState)
               && end[slug].name == (if BackendAnswered(t, r) then Reported(r.backend.value.name, t.name) else t.name)
               && end[slug].uuid == (if BackendAnswered(t, r) then Some(r.backendUuid) else t.uuid)
               && end[slug].resource == t.resource && end[slug].project == t.project
  {
    BeforeVisit(w, o, i, i);
    StoredOrderThere(w, o, i, w.datacenters[i]);
    var f := VisitDatacenters(w, o, i);
    RefreshFields(f.market, f.tenants[w.datacenters[i]], DatacenterReplies(o, i));
    AfterVisit(w, o, i, |w.datacenters|);
  }

  lemma TenantsTell(w: ClusterWorld, o: ClusterReplies, i: nat)
    requires ClusterInv(w) && w.stored.Some? && Distinct(w.datacenters) && i < |w.datacenters|
    ensures var end, slug := VisitDatacenters(w, o, |w.datacenters|).tenants, w.datacenters[i];
            Told(w, o, i) == if slug in end then Some(end[slug].state) else None
  {
    if w.datacenters[i] in w.stored.value.status.tenants {
      KnownTenantTells(w, o, i);
    } else {
      NewTenantExactly(w, o, i);
    }
  }

  // ----- readiness -----

  function StateAt(tenants: map<string, Tenant>, slug: string): Option<CoreState> {
    if slug in tenants then Some(tenants[slug].state) else None
  }

  /** The states told to the list of slugs are those of the map: `told` lists them. */
  predicate TellsStates(told: seq<Option<CoreState>>, tenants: map<string, Tenant>, slugs: seq<string>) {
    && |told| == |slugs|
    && (forall i :: 0 <= i < |slugs| ==> told[i] == StateAt(tenants, slugs[i]))
    && forall slug :: slug in tenants ==> slug in slugs
  }

  /** Every datacenter has its own slug, and its tenant is told OK. */
  predicate AllToldOK(slugs: seq<string>, told: seq<Option<CoreState>>) {
    Distinct(slugs) && forall i :: 0 <= i < |told| ==> told[i] == Some(CoreOK)
  }

  /** Every datacenter has its own slug, its tenant is told OK or ERRED, and one is told ERRED. */
  predicate SomeToldErred(slugs: seq<string>, told: seq<Option<CoreState>>) {
    && Distinct(slugs)
    && (forall i :: 0 <= i < |told| ==> told[i] == Some(CoreOK) || told[i] == Some(CoreErred))
    && Some(CoreErred) in told
  }

  lemma EveryoneTold(told: seq<Option<CoreState>>, tenants: map<string, Tenant>, slugs: seq<string>)
    requires TellsStates(told, tenants, slugs)
    ensures (forall i :: 0 <= i < |told| ==> told[i].Some?) <==> tenants.Keys == Elements(slugs)
    ensures forall i :: 0 <= i < |told| && told[i].Some? ==> slugs[i] in tenants && told[i].value == tenants[slugs[i]].state
    ensures forall slug :: slug in tenants ==> Some(tenants[slug].state) in told
  {
    forall slug | slug in tenants ensures Some(tenants[slug].state) in told {
      var i :| 0 <= i < |slugs| && slugs[i] == slug;
      assert told[i] == Some(tenants[slug].state);
    }
    if forall i :: 0 <= i < |told| ==> told[i].Some? {
      forall slug | slug in slugs ensures slug in tenants {
        var i :| 0 <= i < |slugs| && slugs[i] == slug;
        assert told[i].Some?;
      }
      assert tenants.Keys == Elements(slugs);
    } else {
      var i :| 0 <= i < |told| && told[i].None?;
      assert slugs[i] in Elements(slugs);
    }
  }

  lemma ToldOKMeans(told: seq<Option<CoreState>>, tenants: map<string, Tenant>, slugs: seq<string>)
    requires TellsStates(told, tenants, slugs)
    ensures AllToldOK(slugs, told) <==> FullyProvisioned(slugs, tenants)
  {
    EveryoneTold(told, tenants, slugs);
  }

  /** Every tenant has come to an end, and one of them is ERRED. */
  predicate EndedErred(slugs: seq<string>, tenants: map<string, Tenant>) {
    && Distinct(slugs) && tenants.Keys == Elements(slugs)
    && (forall slug :: slug in tenants ==> tenants[slug].state == CoreOK || tenants[slug].state == CoreErred)
    && exists slug :: slug in tenants && tenants[slug].state == CoreErred
  }

  lemma ToldErredMeans(told: seq<Option<CoreState>>, tenants: map<string, Tenant>, slugs: seq<string>)
    requires TellsStates(told, tenants, slugs)
    ensures SomeToldErred(slugs, told) <==> EndedErred(slugs, tenants)
  {
    EveryoneTold(told, tenants, slugs);
  }

  function AllTold(w: ClusterWorld, o: ClusterReplies): seq<Option<CoreState>>
    requires w.stored.Some?
  {
    seq(|w.datacenters|, i requires 0 <= i < |w.datacenters| => Told(w, o, i))
  }

  lemma ToldIsListed(w: ClusterWorld, o: ClusterReplies)
    requires ClusterInv(w) && w.stored.Some? && Distinct(w.datacenters)
    ensures TellsStates(AllTold(w, o), VisitDatacenters(w, o, |w.datacenters|).tenants, w.datacenters)
  {
    VisitDatacentersOk(w, o, |w.datacenters|);
    forall i | 0 <= i < |w.datacenters|
      ensures AllTold(w, o)[i] == StateAt(VisitDatacenters(w, o, |w.datacenters|).tenants, w.datacenters[i])
    {
      TenantsTell(w, o, i);
    }
  }

  lemma ReasonExactly(status: ClusterStatus, datacenters: seq<string>)
    requires forall slug :: slug in status.tenants ==> slug in datacenters
    ensures var ready := WithClusterReady(status, datacenters).ready;
            ready.Some? && (ready.value.reason == ProvisioningFailed <==> EndedErred(datacenters, status.tenants))
  {
    ElementsSize(datacenters);
    assert status.tenants.Keys <= Elements(datacenters);
    SubsetSize(status.tenants.Keys, Elements(datacenters));
    assert |status.tenants| == |status.tenants.Keys|;
  }

  lemma OkMeansProvisioned(status: ClusterStatus, datacenters: seq<string>)
    ensures var ready := WithClusterReady(status, datacenters).ready;
            ready.Some? && (ready.value.ok <==> ready.value.reason == Provisioned)
  {}

  /** A live pass whose status is stored announces the cluster exactly when every tenant is told OK, and
      says that it failed exactly when every tenant has come to an end and one is told ERRED. */
  lemma ReadinessFollowsReports(w: ClusterWorld, o: ClusterReplies)
    requires ClusterInv(w) && w.stored.Some? && w.stored.value.finalizer && !o.statusWrite.Refused?
    ensures var status := ClusterLivePass(w, o).0.stored.value.status;
            && status.provisioned == Some(AllToldOK(w.datacenters, AllTold(w, o)))
            && status.ready == Some(if AllToldOK(w.datacenters, AllTold(w, o)) then Ready(true, Provisioned)
                                    else if SomeToldErred(w.datacenters, AllTold(w, o)) then Ready(false, ProvisioningFailed)
                                    else Ready(false, Provisioning))
  {
    var status := w.stored.value.status.(tenants := VisitDatacenters(w, o, |w.datacenters|).tenants);
    VisitDatacentersOk(w, o, |w.datacenters|);
    LivePassStores(w, o);
    ReadyExactly(status, w.datacenters);
    if Distinct(w.datacenters) {
      ToldIsListed(w, o);
      ToldOKMeans(AllTold(w, o), status.tenants, w.datacenters);
      ToldErredMeans(AllTold(w, o), status.tenants, w.datacenters);
    }
    ReasonExactly(status, w.datacenters);
    OkMeansProvisioned(status, w.datacenters);
  }

  /** The backend state reported to datacenter `i`'s stored tenant. */
  function ReportedState(w: ClusterWorld, o: ClusterReplies, i: nat): Option<CoreState>
    requires w.stored.Some? && i < |w.datacenters|
  {
    var tenants, slug, r := w.stored.value.status.tenants, w.datacenters[i], DatacenterReplies(o, i);
    if slug in tenants && BackendAnswered(tenants[slug], r) then r.backend.value.state else None
  }

  /** When one was reported to every tenant: exactly when the slugs are distinct and every reported
      state is OK. */
  lemma ReadinessOfReported(w: ClusterWorld, o: ClusterReplies)
    requires ClusterInv(w) && w.stored.Some? && w.stored.value.finalizer && !o.statusWrite.Refused?
    requires forall i :: 0 <= i < |w.datacenters| ==> ReportedState(w, o, i).Some?
    ensures ClusterLivePass(w, o).0.stored.value.status.provisioned
         == Some(Distinct(w.datacenters) && forall i :: 0 <= i < |w.datacenters| ==> ReportedState(w, o, i) == Some(CoreOK))
  {
    ReadinessFollowsReports(w, o);
    forall i | 0 <= i < |w.datacenters| ensures AllTold(w, o)[i] == ReportedState(w, o, i) {}
  }

  // ----- what a deleting pass makes of the tenants -----

  predicate Unfinished(t: Tenant) {
    t.resource.Some? && !(t.order.Some? && t.order.value.kind == Terminate && t.order.value.state == Done)
  }

  predicate Terminating(t: Tenant) {
    t.order.Some? && t.order.value.kind == Terminate && t.order.value.state.Pending?
  }

  lemma DeletingOthers(f: Fold, visited: string, o: TenantReplies, slug: string)
    requires visited != slug
    ensures var f' := VisitDeleting(f, visited, o);
            && (slug in f'.tenants <==> slug in f.tenants)
            && (slug in f.tenants ==> f'.tenants[slug] == f.tenants[slug])
  {}

  lemma {:induction false} AfterDeleting(w: ClusterWorld, o: ClusterReplies, visit: seq<string>, i: nat, k: nat)
    requires w.stored.Some? && Distinct(visit) && i < k <= |visit|
    ensures var f, f', slug := VisitAllDeleting(w, o, visit, i + 1), VisitAllDeleting(w, o, visit, k), visit[i];
            && (slug in f'.tenants <==> slug in f.tenants)
            && (slug in f.tenants ==> f'.tenants[slug] == f.tenants[slug])
  {
    if k > i + 1 {
      AfterDeleting(w, o, visit, i, k - 1);
      DeletingOthers(VisitAllDeleting(w, o, visit, k - 1), visit[k - 1], SlugReplies(o, visit[k - 1]), visit[i]);
    }
  }

  lemma DeletingVisit(f: Fold, slug: string, o: TenantReplies)
    requires slug in f.tenants
    ensures var t, f' := f.tenants[slug], VisitDeleting(f, slug, o);
            slug in f'.tenants && f'.tenants[slug] ==
              if !Unfinished(t) then t
              else if Terminating(t) then RefreshTenant(f.market, t, o).0
              else if o.terminate.Submitted? && o.terminate.id !in f.market.orders then
                t.(order := Some(OrderRecord(o.terminate.id, Terminate, Pending("pending-provider"), t.resource, None)))
              else t
  {}

  /** After the deletion loop, in whatever order it ran, a finished tenant is as it was, one being
      terminated tells what the refresh was told, and any other one holds the record of its new
      termination order if a usable reply came, and is otherwise as it was. */
  lemma DeletingTenantTells(w: ClusterWorld, o: ClusterReplies, visit: seq<string>, i: nat)
    requires w.stored.Some? && Distinct(visit) && i < |visit| && visit[i] in w.stored.value.status.tenants
    ensures var m, slug, r := VisitAllDeleting(w, o, visit, i).market, visit[i], SlugReplies(o, visit[i]);
            var t, end := w.stored.value.status.tenants[slug], VisitAllDeleting(w, o, visit, |visit|).tenants;
            slug in end && end[slug] ==
              if !Unfinished(t) then t
              else if Terminating(t) then RefreshTenant(m, t, r).0
              else if r.terminate.Submitted? && r.terminate.id !in m.orders then
                t.(order := Some(OrderRecord(r.terminate.id, Terminate, Pending("pending-provider"), t.resource, None)))
              else t
  {
    assert visit[i] !in visit[..i];
    UnvisitedUnchanged(w, o, visit, i, visit[i]);
    DeletingVisit(VisitAllDeleting(w, o, visit, i), visit[i], SlugReplies(o, visit[i]));
    AfterDeleting(w, o, visit, i, |visit|);
  }

  /** And that is what is stored, while the object is there; nothing else of it changes. */
  lemma DeletingTenantsStored(w: ClusterWorld, o: ClusterReplies, visit: seq<string>, projectVisit: seq<string>)
    requires w.stored.Some? && w.stored.value.deleting
    ensures var obj, w' := w.stored.value, ClusterPass(w, o, visit, projectVisit).0;
            w'.stored.Some? ==>
              w'.stored.value == if o.statusWrite.Refused? then obj
                                 else obj.(status := obj.status.(tenants := VisitAllDeleting(w, o, visit, |visit|).tenants))
  {}

  // ----- the endpoint -----

  /** A pass sets the endpoint exactly when none is set, an address was found and both writes of the
      live pass went through, and to that address. */
  lemma EndpointExactly(w: ClusterWorld, o: ClusterReplies, visit: seq<string>, projectVisit: seq<string>)
    requires w.stored.Some? && ClusterPass(w, o, visit, projectVisit).0.stored.Some?
    ensures var obj := w.stored.value;
            ClusterPass(w, o, visit, projectVisit).0.stored.value.endpoint
            == if && !obj.deleting && obj.finalizer && o.owner && o.statusWrite == Applied
                  && obj.endpoint.None? && o.endpoint.Some? && !o.endpointWrite.Refused?
               then o.endpoint else obj.endpoint
  {}

  lemma StepKeepsEndpoint(w: ClusterWorld, s: ClusterStep)
    requires w.stored.Some? && w.stored.value.endpoint.Some?
    ensures DoCluster(w, s).stored.Some? ==> DoCluster(w, s).stored.value.endpoint == w.stored.value.endpoint
  {
    if s.ReconcileCluster? && DoCluster(w, s).stored.Some? {
      EndpointExactly(w, s.o, s.visit, s.projectVisit);
    }
  }

  lemma GoneStaysGone(w: ClusterWorld, s: ClusterStep)
    requires w.stored.None?
    ensures DoCluster(w, s).stored.None?
  {}

  /** Over any run an endpoint that is set never changes. */
  lemma {:induction false} EndpointIsWriteOnce(w: ClusterWorld, steps: seq<ClusterStep>)
    requires w.stored.Some? && w.stored.value.endpoint.Some?
    ensures var end := RunCluster(w, steps);
            end.stored.Some? ==> end.stored.value.endpoint == w.stored.value.endpoint
  {
    if steps != [] {
      var front, s := steps[..|steps| - 1], steps[|steps| - 1];
      EndpointIsWriteOnce(w, front);
      if RunCluster(w, front).stored.Some? {
        StepKeepsEndpoint(RunCluster(w, front), s);
      } else {
        GoneStaysGone(RunCluster(w, front), s);
      }
    }
  }

  // ----- when a pass comes again -----

  /** Reconcile returns without an error and without a requeue exactly when the object is not there or
      has just gone, when the finalizer has just been stored, or when the owner is awaited. */
  lemma ClusterIdleExactly(w: ClusterWorld, o: ClusterReplies, visit: seq<string>, projectVisit: seq<string>)
    ensures var (w', outcome) := ClusterPass(w, o, visit, projectVisit);
            outcome == Idle <==>
              || w.stored.None?
              || (w.stored.value.deleting && w'.stored.None? && o.finalizerWrite == Applied)
              || (!w.stored.value.deleting && !w.stored.value.finalizer && o.finalizerWrite == Applied)
              || (!w.stored.value.deleting && w.stored.value.finalizer && !o.owner)
  {}

  /** There is work left: the object is still there and being deleted, or it is live and has its owner. */
  predicate ClusterWorkLeft(w: ClusterWorld, o: ClusterReplies, w': ClusterWorld) {
    && w.stored.Some? && w'.stored.Some?
    && (w.stored.value.deleting || (w.stored.value.finalizer && o.owner))
  }

  /** Then the pass fails or asks for another one: after 300 seconds exactly when every tenant of the
      stored live cluster is OK or ERRED, after 15 otherwise. */
  lemma ClusterWorkIsResumed(w: ClusterWorld, o: ClusterReplies, visit: seq<string>, projectVisit: seq<string>)
    requires ClusterWorkLeft(w, o, ClusterPass(w, o, visit, projectVisit).0)
    ensures var (w', outcome) := ClusterPass(w, o, visit, projectVisit);
            && (outcome.Failure? || outcome == Requeue(15) || outcome == Requeue(300))
            && (outcome.Requeue? ==>
                  (outcome.seconds == 300 <==>
                     && !w.stored.value.deleting
                     && forall slug :: slug in w'.stored.value.status.tenants ==>
                          w'.stored.value.status.tenants[slug].state in {CoreOK, CoreErred}))
  {}

  /** A live pass fails only when its status is not stored or not known to be: the endpoint and the
      calls to Waldur never fail it. A deleting pass comes back after 15 seconds exactly when its status
      is written and some tenant was stored with a resource and no termination done. */
  lemma ClusterFailure(w: ClusterWorld, o: ClusterReplies, visit: seq<string>, projectVisit: seq<string>)
    requires w.stored.Some? && w.stored.value.finalizer
    ensures !w.stored.value.deleting && o.owner ==>
              (ClusterPass(w, o, visit, projectVisit).1.Failure? <==> o.statusWrite != Applied)
    ensures w.stored.value.deleting ==>
              (ClusterPass(w, o, visit, projectVisit).1 == Requeue(15) <==>
                && o.statusWrite == Applied
                && exists slug :: slug in w.stored.value.status.tenants && Unfinished(w.stored.value.status.tenants[slug]))
  {
    assert AllFinished(w.stored.value.status.tenants) <==>
           !(exists slug :: slug in w.stored.value.status.tenants && Unfinished(w.stored.value.status.tenants[slug]));
  }

  /** Over a run: no pass that leaves work ends without asking for the next. */
  lemma {:induction false} ClusterNeverForgotten(w: ClusterWorld, steps: seq<ClusterStep>)
    requires steps != [] && steps[|steps| - 1].ReconcileCluster?
    requires ClusterWorkLeft(RunCluster(w, steps[..|steps| - 1]), steps[|steps| - 1].o, RunCluster(w, steps))
    ensures var s := steps[|steps| - 1];
            ClusterPass(RunCluster(w, steps[..|steps| - 1]), s.o, s.visit, s.projectVisit).1 != Idle
  {
    var s := steps[|steps| - 1];
    ClusterWorkIsResumed(RunCluster(w, steps[..|steps| - 1]), s.o, s.visit, s.projectVisit);
  }
}
