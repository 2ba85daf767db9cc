/** Deleting a WaldurCluster always finishes: in every behaviour whose needed calls succeed, all
    tenants are terminated, the projects deleted and the finalizer removed after finitely many
    rounds, whatever order Go visits the tenants in. */
module ClusterDeletion {
  import opened Prelude
  import opened Waldur
  import opened ApiTypes
  import opened ClusterSpec
  import opened ClusterProofs
  import opened ClusterReadiness
  import opened Deletion

  datatype DeleteReplies = DeleteReplies(o: ClusterReplies, visit: seq<string>, projectVisit: seq<string>)

  function TenantsOf(w: ClusterWorld): map<string, Tenant> {
    if w.stored.None? then map[] else w.stored.value.status.tenants
  }

  /** The calls deletion depends on: the two writes, reading orders, usable replies to termination
      requests (with new and different uuids), and the project calls. */
  ghost predicate NeededCallsSucceed(w: ClusterWorld, d: DeleteReplies) {
    && d.o.statusWrite.Applied? && d.o.finalizerWrite.Applied?
    && Lists(d.visit, TenantsOf(w).Keys) && Lists(d.projectVisit, TenantsOf(w).Keys)
    && (forall slug :: slug in TenantsOf(w) ==> UsableReplies(w.market, SlugReplies(d.o, slug)))
    && (forall a, b :: a in TenantsOf(w) && b in TenantsOf(w) && a != b ==>
          SlugReplies(d.o, a).terminate.id != SlugReplies(d.o, b).terminate.id)
    && ProjectCallsSucceed(TenantsOf(w), d.o)
  }

  predicate ProjectCallsSucceed(tenants: map<string, Tenant>, o: ClusterReplies) {
    forall slug :: slug in tenants && tenants[slug].project.Some? ==>
      ProjectReplies(o, tenants[slug].project.value) == ProjectCall(true, true, Applied)
  }

  predicate UsableReplies(m: Market, o: TenantReplies) {
    o.order.Some? && o.terminate.Submitted? && o.terminate.id !in m.orders
  }

  ghost predicate Round(w: ClusterWorld, d: DeleteReplies, w': ClusterWorld) {
    var after := ClusterPass(w, d.o, d.visit, d.projectVisit).0;
    && w'.datacenters == after.datacenters && w'.stored == after.stored && w'.recorded == after.recorded
    && Evolves(after.market, w'.market)
  }

  ghost predicate FairRound(ws: nat -> ClusterWorld, ds: nat -> DeleteReplies, settle: Uuid -> nat, bad: set<Uuid>, i: nat) {
    && Round(ws(i), ds(i), ws(i + 1))
    && NeededCallsSucceed(ws(i), ds(i))
    && OrdersSettle(ws(i).market, settle, i)
    && OnlyBadFail(ws(i).market, bad)
  }

  ghost predicate Deleting(w: ClusterWorld) {
    ClusterInv(w) && (w.stored.Some? ==> w.stored.value.deleting)
  }

  // ----- one deleting pass, tenant by tenant -----

  /** What one pass does to one tenant when the needed calls succeed. */
  ghost predicate Stepped(m: Market, t: Tenant, m': Market, t': Tenant, o: TenantReplies) {
    if t.resource.None? || TerminationDone(TenantSlot(t)) then t' == t
    else if TerminationInFlight(TenantSlot(t)) then t'.order == RefreshOrder(m, t.order.value, o.order)
    else
      && o.terminate.Submitted?
      && t'.order == Some(OrderRecord(o.terminate.id, Terminate, PENDING_PROVIDER, t.resource, None))
      && o.terminate.id in m'.orders
  }

  /** During the loop the orders of before are as they were, and new ones belong to visited slugs. */
  ghost predicate OnlyVisitedSubmit(w: ClusterWorld, o: ClusterReplies, visited: seq<string>, m: Market) {
    && (forall id :: id in w.market.orders ==> id in m.orders && m.orders[id] == w.market.orders[id])
    && (forall id :: id in m.orders && id !in w.market.orders ==>
          exists slug :: slug in visited && SlugReplies(o, slug).terminate.Submitted? && SlugReplies(o, slug).terminate.id == id)
  }

  lemma {:induction false} LoopSubmits(w: ClusterWorld, d: DeleteReplies, count: nat)
    requires Deleting(w) && w.stored.Some? && NeededCallsSucceed(w, d) && count <= |d.visit|
    ensures OnlyVisitedSubmit(w, d.o, d.visit[..count], VisitAllDeleting(w, d.o, d.visit, count).market)
  {
    if count > 0 {
      LoopSubmits(w, d, count - 1);
      var slug := d.visit[count - 1];
      assert d.visit[..count] == d.visit[..count - 1] + [slug];
      assert slug in Elements(d.visit);
      assert UsableReplies(w.market, SlugReplies(d.o, slug));
      VisitSubmits(w, d.o, d.visit[..count - 1], VisitAllDeleting(w, d.o, d.visit, count - 1), slug);
    }
  }

  lemma VisitSubmits(w: ClusterWorld, o: ClusterReplies, visited: seq<string>, f: Fold, slug: string)
    requires OnlyVisitedSubmit(w, o, visited, f.market) && UsableReplies(w.market, SlugReplies(o, slug))
    ensures OnlyVisitedSubmit(w, o, visited + [slug], VisitDeleting(f, slug, SlugReplies(o, slug)).market)
  {
    var m := VisitDeleting(f, slug, SlugReplies(o, slug)).market;
    forall id | id in m.orders && id !in w.market.orders
      ensures exists s :: s in visited + [slug] && SlugReplies(o, s).terminate.Submitted? && SlugReplies(o, s).terminate.id == id
    {
      if id in f.market.orders {
        var s :| s in visited && SlugReplies(o, s).terminate.Submitted? && SlugReplies(o, s).terminate.id == id;
        assert s in visited + [slug];
      } else {
        assert slug in visited + [slug];
      }
    }
  }

  /** The new uuid of a slug is still unused when its turn comes. */
  lemma StillFresh(w: ClusterWorld, d: DeleteReplies, count: nat)
    requires Deleting(w) && w.stored.Some? && NeededCallsSucceed(w, d) && count < |d.visit|
    ensures d.visit[count] in TenantsOf(w)
    ensures UsableReplies(VisitAllDeleting(w, d.o, d.visit, count).market, SlugReplies(d.o, d.visit[count]))
  {
    var slug, m := d.visit[count], VisitAllDeleting(w, d.o, d.visit, count).market;
    LoopSubmits(w, d, count);
    assert slug in Elements(d.visit);
    assert UsableReplies(w.market, SlugReplies(d.o, slug));
    forall s | s in d.visit[..count] && SlugReplies(d.o, s).terminate.Submitted?
      ensures SlugReplies(d.o, s).terminate.id != SlugReplies(d.o, slug).terminate.id
    {
      assert s in Elements(d.visit);
    }
  }

  lemma {:induction false} LoopSteps(w: ClusterWorld, d: DeleteReplies, count: nat, slug: string)
    requires Deleting(w) && w.stored.Some? && NeededCallsSucceed(w, d) && count <= |d.visit|
    requires slug in d.visit[..count]
    ensures slug in TenantsOf(w) && slug in VisitAllDeleting(w, d.o, d.visit, count).tenants
    ensures var f := VisitAllDeleting(w, d.o, d.visit, count);
            Stepped(w.market, TenantsOf(w)[slug], f.market, f.tenants[slug], SlugReplies(d.o, slug))
  {
    var last := d.visit[count - 1];
    if slug == last {
      LastSteps(w, d, count);
    } else {
      assert d.visit[..count] == d.visit[..count - 1] + [last];
      LoopSteps(w, d, count - 1, slug);
      OthersStay(VisitAllDeleting(w, d.o, d.visit, count - 1), last, SlugReplies(d.o, last), slug);
    }
  }

  lemma LastSteps(w: ClusterWorld, d: DeleteReplies, count: nat)
    requires Deleting(w) && w.stored.Some? && NeededCallsSucceed(w, d) && 0 < count <= |d.visit|
    ensures var slug, f := d.visit[count - 1], VisitAllDeleting(w, d.o, d.visit, count);
            && slug in TenantsOf(w) && slug in f.tenants
            && Stepped(w.market, TenantsOf(w)[slug], f.market, f.tenants[slug], SlugReplies(d.o, slug))
  {
    var slug := d.visit[count - 1];
    StillFresh(w, d, count - 1);
    LoopSubmits(w, d, count - 1);
    assert slug !in d.visit[..count - 1];
    UnvisitedUnchanged(w, d.o, d.visit, count - 1, slug);
    TenantSteps(w.market, VisitAllDeleting(w, d.o, d.visit, count - 1), slug, SlugReplies(d.o, slug), w);
  }

  lemma OthersStay(f: Fold, visited: string, o: TenantReplies, slug: string)
    requires slug in f.tenants && slug != visited
    ensures slug in VisitDeleting(f, visited, o).tenants && VisitDeleting(f, visited, o).tenants[slug] == f.tenants[slug]
    ensures forall id :: id in f.market.orders ==> id in VisitDeleting(f, visited, o).market.orders
  {}

  lemma TenantSteps(m: Market, f: Fold, slug: string, o: TenantReplies, w: ClusterWorld)
    requires Deleting(w) && w.stored.Some? && w.market == m
    requires slug in f.tenants && slug in TenantsOf(w) && f.tenants[slug] == TenantsOf(w)[slug]
    requires UsableReplies(f.market, o)
    requires forall id :: id in m.orders ==> id in f.market.orders && f.market.orders[id] == m.orders[id]
    ensures slug in VisitDeleting(f, slug, o).tenants
    ensures Stepped(m, f.tenants[slug], VisitDeleting(f, slug, o).market, VisitDeleting(f, slug, o).tenants[slug], o)
  {
    assert SlotOk(SlotAt(TenantsOf(w), slug), slug, m, w.recorded);
  }

  // ----- behaviours -----

  /** A tenant of an object that is gone counts as done. */
  function SlotOf(w: ClusterWorld, slug: string): Slot {
    if slug !in TenantsOf(w) then Slot(None, Some(OrderRecord("0", Terminate, Done, None, None)))
    else TenantSlot(TenantsOf(w)[slug])
  }

  /** How a deleting pass ends: the tenants of the loop are stored, or everything was finished and
      the object may be gone. */
  lemma DeletePassEnds(w: ClusterWorld, d: DeleteReplies)
    requires w.stored.Some? && w.stored.value.deleting && d.o.statusWrite.Applied?
    ensures var f, after := VisitAllDeleting(w, d.o, d.visit, |d.visit|), ClusterPass(w, d.o, d.visit, d.projectVisit).0;
            && after.market.orders == f.market.orders
            && (after.stored.Some? ==> after.stored.value.status.tenants == f.tenants)
            && (after.stored.None? ==> AllFinished(TenantsOf(w)))
  {}

  lemma RoundKeepsDeleting(w: ClusterWorld, d: DeleteReplies, w': ClusterWorld)
    requires Deleting(w) && Round(w, d, w') && NeededCallsSucceed(w, d)
    ensures Deleting(w')
    ensures w'.stored.Some? ==> w.stored.Some?
  {
    DoClusterInv(w, ReconcileCluster(d.o, d.visit, d.projectVisit));
    var after := ClusterPass(w, d.o, d.visit, d.projectVisit).0;
    ClusterInvGrows(after, w'.market);
    assert w' == after.(market := w'.market);
  }

  lemma RoundKeepsTenants(w: ClusterWorld, d: DeleteReplies, w': ClusterWorld)
    requires Deleting(w) && Round(w, d, w') && NeededCallsSucceed(w, d)
    ensures forall id :: id in w.market.orders ==> id in w'.market.orders
    ensures w'.stored.Some? ==> w.stored.Some? && TenantsOf(w').Keys == TenantsOf(w).Keys
  {
    if w.stored.Some? {
      DeletePassEnds(w, d);
      VisitAllDeletingOk(w, d.o, d.visit, |d.visit|);
      var f := VisitAllDeleting(w, d.o, d.visit, |d.visit|);
      forall slug ensures slug in f.tenants <==> slug in TenantsOf(w) {
        DeletingKeepsTenant(w, d.o, d.visit, |d.visit|, slug);
      }
    }
  }

  /** The step of one tenant, seen as a round of the slot protocol. */
  lemma SteppedIsRound(t: Tenant, m: Market, visited: Market, t': Tenant, m': Market, o: TenantReplies)
    requires Stepped(m, t, visited, t', o) && UsableReplies(m, o) && t.resource.Some?
    requires t.order.Some? ==> RecordOk(t.order.value, m) && t.order.value.uuid in m.mine
    requires forall id :: id in m.orders || id in visited.orders ==> id in m'.orders
    ensures SlotRound(Moment(TenantSlot(t), m), Moment(TenantSlot(t'), m'), false)
  {}

  /** The step of one stored tenant in a pass after which the object is still there. */
  lemma TenantSlotRound(w: ClusterWorld, d: DeleteReplies, w': ClusterWorld, slug: string)
    requires Deleting(w) && Round(w, d, w') && NeededCallsSucceed(w, d)
    requires w.stored.Some? && w'.stored.Some? && slug in TenantsOf(w) && slug in TenantsOf(w')
    requires forall id :: id in w.market.orders ==> id in w'.market.orders
    ensures SlotRound(Moment(TenantSlot(TenantsOf(w)[slug]), w.market), Moment(TenantSlot(TenantsOf(w')[slug]), w'.market), false)
  {
    var f := VisitAllDeleting(w, d.o, d.visit, |d.visit|);
    DeletePassEnds(w, d);
    assert slug in Elements(d.visit) && d.visit[..|d.visit|] == d.visit;
    LoopSteps(w, d, |d.visit|, slug);
    assert SlotOk(SlotAt(TenantsOf(w), slug), slug, w.market, w.recorded);
    assert UsableReplies(w.market, SlugReplies(d.o, slug));
    SteppedIsRound(TenantsOf(w)[slug], w.market, f.market, f.tenants[slug], w'.market, SlugReplies(d.o, slug));
  }

  /** A cluster pass is one round of the slot protocol for every tenant at once. */
  lemma ClusterSlotRound(w: ClusterWorld, d: DeleteReplies, w': ClusterWorld, slug: string)
    requires Deleting(w) && Round(w, d, w') && NeededCallsSucceed(w, d)
    ensures SlotRound(Moment(SlotOf(w, slug), w.market), Moment(SlotOf(w', slug), w'.market), false)
  {
    RoundKeepsTenants(w, d, w');
    if slug in TenantsOf(w) {
      if w'.stored.Some? {
        TenantSlotRound(w, d, w', slug);
      } else {
        GoneIsFinished(w, d, w', slug);
      }
    }
  }

  /** The object only goes away in a pass that found every termination recorded as done. */
  lemma GoneIsFinished(w: ClusterWorld, d: DeleteReplies, w': ClusterWorld, slug: string)
    requires Deleting(w) && Round(w, d, w') && NeededCallsSucceed(w, d)
    requires w.stored.Some? && w'.stored.None? && slug in TenantsOf(w)
    ensures TerminationDone(SlotOf(w, slug))
  {
    DeletePassEnds(w, d);
    assert SlotOk(SlotAt(TenantsOf(w), slug), slug, w.market, w.recorded);
    assert TenantFinished(TenantsOf(w)[slug]);
  }

  lemma {:induction false} StaysDeleting(ws: nat -> ClusterWorld, ds: nat -> DeleteReplies, settle: Uuid -> nat, bad: set<Uuid>, i: nat)
    requires Deleting(ws(0))
    requires forall k: nat :: FairRound(ws, ds, settle, bad, k)
    ensures Deleting(ws(i))
    ensures ws(i).stored.Some? ==> TenantsOf(ws(i)).Keys == TenantsOf(ws(0)).Keys
  {
    if i > 0 {
      StaysDeleting(ws, ds, settle, bad, i - 1);
      assert FairRound(ws, ds, settle, bad, i - 1);
      RoundKeepsDeleting(ws(i - 1), ds(i - 1), ws(i));
      RoundKeepsTenants(ws(i - 1), ds(i - 1), ws(i));
    }
  }

  /** One tenant is done after finitely many rounds, and stays done. */
  lemma TenantTerminates(ws: nat -> ClusterWorld, ds: nat -> DeleteReplies, settle: Uuid -> nat, bad: set<Uuid>, slug: string) returns (n: nat)
    requires Deleting(ws(0))
    requires forall k: nat :: FairRound(ws, ds, settle, bad, k)
    ensures TerminationDone(SlotOf(ws(n), slug))
  {
    var ms := (i: nat) => Moment(SlotOf(ws(i), slug), ws(i).market);
    forall k: nat ensures RoundAt(ms, 0, k) {
      StaysDeleting(ws, ds, settle, bad, k);
      assert FairRound(ws, ds, settle, bad, k);
      ClusterSlotRound(ws(k), ds(k), ws(k + 1), slug);
    }
    forall k: nat ensures FairAt(ms, settle, bad, k) {
      assert FairRound(ws, ds, settle, bad, k);
    }
    n := SlotTerminates(ms, settle, bad, 0, 0);
  }

  lemma {:induction false} StaysDone(ws: nat -> ClusterWorld, ds: nat -> DeleteReplies, settle: Uuid -> nat, bad: set<Uuid>, slug: string, n: nat, later: nat)
    requires Deleting(ws(0)) && n <= later
    requires forall k: nat :: FairRound(ws, ds, settle, bad, k)
    requires TerminationDone(SlotOf(ws(n), slug))
    ensures TerminationDone(SlotOf(ws(later), slug))
    decreases later
  {
    if n < later {
      StaysDone(ws, ds, settle, bad, slug, n, later - 1);
      StaysDeleting(ws, ds, settle, bad, later - 1);
      assert FairRound(ws, ds, settle, bad, later - 1);
      ClusterSlotRound(ws(later - 1), ds(later - 1), ws(later), slug);
    }
  }

  /** A round by which all the given tenants are done. */
  lemma {:induction false} AllTerminate(ws: nat -> ClusterWorld, ds: nat -> DeleteReplies, settle: Uuid -> nat, bad: set<Uuid>, slugs: set<string>) returns (n: nat)
    requires Deleting(ws(0))
    requires forall k: nat :: FairRound(ws, ds, settle, bad, k)
    ensures forall slug :: slug in slugs ==> TerminationDone(SlotOf(ws(n), slug))
    decreases slugs
  {
    n := 0;
    if slugs != {} {
      var slug :| slug in slugs;
      var first := AllTerminate(ws, ds, settle, bad, slugs - {slug});
      var second := TenantTerminates(ws, ds, settle, bad, slug);
      n := if first < second then second else first;
      forall s | s in slugs ensures TerminationDone(SlotOf(ws(n), s)) {
        StaysDone(ws, ds, settle, bad, s, if s == slug then second else first, n);
      }
    }
  }

  lemma {:induction false} ProjectsDeleted(projects: set<string>, tenants: map<string, Tenant>, visit: seq<string>, o: ClusterReplies)
    requires ProjectCallsSucceed(tenants, o)
    ensures DeleteProjects(projects, tenants, visit, o).1
  {
    if visit != [] {
      if visit[0] !in tenants || tenants[visit[0]].project.None? {
        ProjectsDeleted(projects, tenants, visit[1..], o);
      } else {
        var p := tenants[visit[0]].project.value;
        ProjectsDeleted(DeleteProject(projects, p, ProjectReplies(o, p)).0, tenants, visit[1..], o);
      }
    }
  }

  /** Every fair deletion behaviour ends with the object gone. */
  lemma ClusterDeletionTerminates(ws: nat -> ClusterWorld, ds: nat -> DeleteReplies, settle: Uuid -> nat, bad: set<Uuid>) returns (n: nat)
    requires Deleting(ws(0))
    requires forall k: nat :: FairRound(ws, ds, settle, bad, k)
    ensures ws(n).stored.None?
  {
    n := AllTerminate(ws, ds, settle, bad, TenantsOf(ws(0)).Keys);
    StaysDeleting(ws, ds, settle, bad, n);
    assert FairRound(ws, ds, settle, bad, n);
    if ws(n).stored.Some? {
      LastRound(ws(n), ds(n), ws(n + 1));
      n := n + 1;
    }
  }

  /** Once every tenant is done, the next round deletes the projects and removes the finalizer. */
  lemma LastRound(w: ClusterWorld, d: DeleteReplies, w': ClusterWorld)
    requires Deleting(w) && w.stored.Some? && Round(w, d, w') && NeededCallsSucceed(w, d)
    requires forall slug :: slug in TenantsOf(w) ==> TerminationDone(SlotOf(w, slug))
    ensures w'.stored.None?
  {
    assert AllFinished(TenantsOf(w));
    FinishedUntouched(w, d.o, d.visit, |d.visit|);
    var f := VisitAllDeleting(w, d.o, d.visit, |d.visit|);
    ProjectsDeleted(f.market.projects, f.tenants, d.projectVisit, d.o);
  }
}
