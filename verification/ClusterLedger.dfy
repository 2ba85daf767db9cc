/** Exact accounting of the orders a WaldurCluster's passes get accepted, per offering slug and for
    both kinds of orders: which are lost, and how many there can be. */
module ClusterLedger {
  import opened Prelude
  import opened Waldur
  import opened ApiTypes
  import opened ClusterSpec
  import opened ClusterProofs

  // ----- the order of one iteration -----

  /** An order the marketplace accepted in one iteration of a loop; `remembered` says that the tenant in
      memory names it afterwards. */
  datatype Acceptance = Acceptance(kind: RequestType, slug: string, id: Uuid, remembered: bool)

  function New(m: Market, a: Acceptance): Option<Acceptance> {
    if a.id in m.orders then None else Some(a)
  }

  /** The create order of one iteration of the live loop: the slug has no tenant, everything before the
      order succeeds, and the order is accepted. It is forgotten when no reply arrives or the backend
      tenant the reply names cannot be read. */
  function Creation(f: Fold, slug: string, o: TenantReplies): Option<Acceptance> {
    if slug in f.tenants || !o.customer || o.project.ProjectError? || !o.offering || !o.limits then None
    else match o.create
      case Dropped(Some(n)) => New(f.market, Acceptance(Create, slug, n.id, false))
      case Created(n, backend, _) => New(f.market, Acceptance(Create, slug, n.id, backend.None? || o.backend.Some?))
      case _ => None
  }

  /** The termination order of one iteration of the deletion loop: the tenant has a resource and no
      termination in flight or done. It is forgotten when the reply carries no uuid. */
  function Termination(f: Fold, slug: string, o: TenantReplies): Option<Acceptance> {
    if slug !in f.tenants || TenantFinished(f.tenants[slug]) || TerminationInFlight(TenantSlot(f.tenants[slug])) then None
    else match o.terminate
      case NoUuid(Some((id, _))) => New(f.market, Acceptance(Terminate, slug, id, false))
      case Submitted(id, _) => New(f.market, Acceptance(Terminate, slug, id, true))
      case _ => None
  }

  /** The ledger and what memory would record, before and after an iteration that got `a` accepted. */
  ghost predicate Adds(f: Fold, f': Fold, recorded: set<Uuid>, a: Option<Acceptance>) {
    match a
    case None =>
      && f'.market.orders == f.market.orders && f'.market.mine == f.market.mine
      && Counted(recorded, f'.tenants) == Counted(recorded, f.tenants)
    case Some(Acceptance(kind, slug, id, remembered)) =>
      && id !in f.market.orders && id in f'.market.orders && f'.market.orders[id].kind == kind
      && f'.market.orders == f.market.orders[id := f'.market.orders[id]]
      && f'.market.mine == f.market.mine[id := slug]
      && Counted(recorded, f'.tenants) == Counted(recorded, f.tenants) + (if remembered then {id} else {})
  }

  lemma RefreshAdds(f: Fold, recorded: set<Uuid>, datacenters: seq<string>, slug: string, o: TenantReplies)
    requires FoldOk(f, recorded, datacenters) && slug in f.tenants
    ensures Adds(f, f.(tenants := f.tenants[slug := RefreshTenant(f.market, f.tenants[slug], o).0]), recorded, None)
  {
    var t := f.tenants[slug];
    assert SlotOk(SlotAt(f.tenants, slug), slug, f.market, Counted(recorded, f.tenants));
    RefreshTenantKeeps(f.market, t, o, slug, Counted(recorded, f.tenants));
    CountedUpdate(recorded, f.tenants, slug, RefreshTenant(f.market, t, o).0);
    assert t.order.value.uuid in OrderIds(f.tenants);
  }

  /** createTenant: the accepted order, and the tenant that names it unless it is forgotten. */
  lemma CreateTenantAdds(f: Fold, slug: string, o: TenantReplies)
    requires slug !in f.tenants
    ensures var (m', t) := CreateTenant(f.market, slug, o);
            match Creation(f, slug, o)
            case None => m'.orders == f.market.orders && m'.mine == f.market.mine && t.None?
            case Some(a) =>
              && a.kind == Create && a.slug == slug && a.id !in f.market.orders && a.id in m'.orders
              && m'.orders == f.market.orders[a.id := m'.orders[a.id]] && m'.orders[a.id].kind == Create
              && m'.mine == f.market.mine[a.id := slug]
              && (t.Some? <==> a.remembered) && (t.Some? ==> t.value.order.Some? && t.value.order.value.uuid == a.id)
  {}

  lemma CreationAdds(f: Fold, recorded: set<Uuid>, datacenters: seq<string>, slug: string, o: TenantReplies)
    requires FoldOk(f, recorded, datacenters)
    ensures Adds(f, VisitDatacenter(f, slug, o), recorded, Creation(f, slug, o))
  {
    if slug in f.tenants {
      RefreshAdds(f, recorded, datacenters, slug, o);
    } else {
      CreateTenantAdds(f, slug, o);
      var t := CreateTenant(f.market, slug, o).1;
      if t.Some? {
        CountedUpdate(recorded, f.tenants, slug, t.value);
      }
    }
  }

  /** submitTerminationOrder for a tenant whose current order is recorded. */
  lemma SubmissionAdds(f: Fold, recorded: set<Uuid>, slug: string, o: TenantReplies)
    requires slug in f.tenants && !TenantFinished(f.tenants[slug]) && !TerminationInFlight(TenantSlot(f.tenants[slug]))
    requires f.tenants[slug].order.Some? ==> f.tenants[slug].order.value.uuid in recorded
    ensures Adds(f, VisitDeleting(f, slug, o), recorded, Termination(f, slug, o))
  {
    var rec := SubmitTermination(f.market, slug, f.tenants[slug].resource.value, o.terminate).1;
    if rec.Some? {
      CountedUpdate(recorded, f.tenants, slug, f.tenants[slug].(order := rec));
    }
  }

  lemma TerminationAdds(f: Fold, recorded: set<Uuid>, datacenters: seq<string>, slug: string, o: TenantReplies)
    requires FoldOk(f, recorded, datacenters)
    requires slug in f.tenants && f.tenants[slug].order.Some? ==> f.tenants[slug].order.value.uuid in recorded
    ensures Adds(f, VisitDeleting(f, slug, o), recorded, Termination(f, slug, o))
  {
    if slug in f.tenants && !TenantFinished(f.tenants[slug]) {
      if TerminationInFlight(TenantSlot(f.tenants[slug])) {
        RefreshAdds(f, recorded, datacenters, slug, o);
      } else {
        SubmissionAdds(f, recorded, slug, o);
      }
    }
  }

  // ----- lost orders over a loop -----

  /** Orders of the slug that are known nowhere once the pass has ended with this status write. */
  function LostIn(f: Fold, slug: string, kind: RequestType, recorded: set<Uuid>, stored: bool): set<Uuid> {
    OrdersOf(f.market, slug, kind) - (if stored then Counted(recorded, f.tenants) else recorded)
  }

  /** The iteration loses its order: it is forgotten, or the status is not stored. */
  predicate Loses(a: Option<Acceptance>, slug: string, kind: RequestType, stored: bool) {
    a.Some? && a.value.slug == slug && a.value.kind == kind && !(a.value.remembered && stored)
  }

  /** Everything memory or the server records is in the ledger, and the ledger is about orders. */
  ghost predicate LedgerOk(f: Fold, recorded: set<Uuid>) {
    Counted(recorded, f.tenants) <= f.market.mine.Keys <= f.market.orders.Keys
  }

  lemma AddsNothing(f: Fold, f': Fold, recorded: set<Uuid>, slug: string, kind: RequestType, stored: bool)
    requires Adds(f, f', recorded, None)
    ensures LostIn(f', slug, kind, recorded, stored) == LostIn(f, slug, kind, recorded, stored)
  {}

  lemma AddsOrder(f: Fold, f': Fold, recorded: set<Uuid>, a: Acceptance, slug: string, kind: RequestType)
    requires LedgerOk(f, recorded) && Adds(f, f', recorded, Some(a))
    ensures a.id !in OrdersOf(f.market, slug, kind) && a.id !in Counted(recorded, f.tenants)
    ensures OrdersOf(f'.market, slug, kind)
         == OrdersOf(f.market, slug, kind) + (if a.slug == slug && a.kind == kind then {a.id} else {})
  {}

  /** What an iteration adds to the lost orders. */
  lemma AddsLost(f: Fold, f': Fold, recorded: set<Uuid>, a: Acceptance, slug: string, kind: RequestType, stored: bool)
    requires LedgerOk(f, recorded) && Adds(f, f', recorded, Some(a))
    ensures a.id !in LostIn(f, slug, kind, recorded, stored)
    ensures LostIn(f', slug, kind, recorded, stored)
         == LostIn(f, slug, kind, recorded, stored) + (if Loses(Some(a), slug, kind, stored) then {a.id} else {})
  {
    AddsOrder(f, f', recorded, a, slug, kind);
  }

  lemma AddsLoses(f: Fold, f': Fold, recorded: set<Uuid>, a: Option<Acceptance>, slug: string, kind: RequestType, stored: bool)
    requires LedgerOk(f, recorded) && Adds(f, f', recorded, a)
    ensures |LostIn(f', slug, kind, recorded, stored)|
         == |LostIn(f, slug, kind, recorded, stored)| + (if Loses(a, slug, kind, stored) then 1 else 0)
  {
    match a
    case None => AddsNothing(f, f', recorded, slug, kind, stored);
    case Some(acceptance) => AddsLost(f, f', recorded, acceptance, slug, kind, stored);
  }

  function Count(accepted: nat -> Option<Acceptance>, n: nat, slug: string, kind: RequestType, stored: bool): nat {
    if n == 0 then 0
    else Count(accepted, n - 1, slug, kind, stored) + (if Loses(accepted(n - 1), slug, kind, stored) then 1 else 0)
  }

  /** One iteration of a loop that goes through the folds `fs`. */
  ghost predicate Iteration(fs: nat -> Fold, accepted: nat -> Option<Acceptance>, recorded: set<Uuid>, k: nat) {
    LedgerOk(fs(k), recorded) && Adds(fs(k), fs(k + 1), recorded, accepted(k))
  }

  /** A size grows in iteration `k` exactly when that iteration loses its order. */
  predicate GrowsAt(size: nat -> nat, accepted: nat -> Option<Acceptance>, slug: string, kind: RequestType, stored: bool, k: nat) {
    size(k + 1) == size(k) + (if Loses(accepted(k), slug, kind, stored) then 1 else 0)
  }

  lemma {:induction false} GrowsByCount(size: nat -> nat, accepted: nat -> Option<Acceptance>, n: nat, slug: string, kind: RequestType, stored: bool)
    requires forall k :: 0 <= k < n ==> GrowsAt(size, accepted, slug, kind, stored, k)
    ensures size(n) == size(0) + Count(accepted, n, slug, kind, stored)
  {
    if n > 0 {
      GrowsByCount(size, accepted, n - 1, slug, kind, stored);
      assert GrowsAt(size, accepted, slug, kind, stored, n - 1);
    }
  }

  lemma {:induction false} LoopLoses(fs: nat -> Fold, accepted: nat -> Option<Acceptance>, n: nat, recorded: set<Uuid>,
                                     slug: string, kind: RequestType, stored: bool)
    requires forall k :: 0 <= k < n ==> Iteration(fs, accepted, recorded, k)
    ensures |LostIn(fs(n), slug, kind, recorded, stored)|
         == |LostIn(fs(0), slug, kind, recorded, stored)| + Count(accepted, n, slug, kind, stored)
  {
    var size: nat -> nat := k => |LostIn(fs(k), slug, kind, recorded, stored)|;
    forall k | 0 <= k < n ensures GrowsAt(size, accepted, slug, kind, stored, k) {
      assert Iteration(fs, accepted, recorded, k);
      AddsLoses(fs(k), fs(k + 1), recorded, accepted(k), slug, kind, stored);
    }
    GrowsByCount(size, accepted, n, slug, kind, stored);
  }

  // ----- passes -----

  /** The create orders of a live pass, iteration by iteration. */
  function CreationsOf(w: ClusterWorld, o: ClusterReplies): nat -> Option<Acceptance>
    requires w.stored.Some?
  {
    (k: nat) =>
      if k < |w.datacenters| then Creation(VisitDatacenters(w, o, k), w.datacenters[k], DatacenterReplies(o, k)) else None
  }

  /** The termination orders of a deleting pass. */
  function TerminationsOf(w: ClusterWorld, o: ClusterReplies, visit: seq<string>): nat -> Option<Acceptance>
    requires w.stored.Some?
  {
    (k: nat) =>
      if k < |visit| then Termination(VisitAllDeleting(w, o, visit, k), visit[k], SlugReplies(o, visit[k])) else None
  }

  /** The orders of the slug and kind that a step gets accepted and loses. */
  function StepFaults(w: ClusterWorld, s: ClusterStep, slug: string, kind: RequestType): nat {
    if !s.ReconcileCluster? || w.stored.None? then 0
    else if w.stored.value.deleting then
      Count(TerminationsOf(w, s.o, s.visit), |s.visit|, slug, kind, !s.o.statusWrite.Refused?)
    else if w.stored.value.finalizer && s.o.owner then
      Count(CreationsOf(w, s.o), |w.datacenters|, slug, kind, !s.o.statusWrite.Refused?)
    else 0
  }

  function RunFaults(w: ClusterWorld, steps: seq<ClusterStep>, slug: string, kind: RequestType): nat {
    if steps == [] then 0
    else
      var front := steps[..|steps| - 1];
      RunFaults(w, front, slug, kind) + StepFaults(RunCluster(w, front), steps[|steps| - 1], slug, kind)
  }

  function LostNow(w: ClusterWorld, slug: string, kind: RequestType): set<Uuid> {
    Lost(w.market, slug, kind, w.recorded)
  }

  /** Before the first iteration memory holds what is stored. */
  lemma LostAtStart(w: ClusterWorld, slug: string, kind: RequestType, stored: bool)
    requires ClusterInv(w) && w.stored.Some?
    ensures LostIn(Fold(w.stored.value.status.tenants, w.market), slug, kind, w.recorded, stored) == LostNow(w, slug, kind)
  {
    StoredIsRecorded(w);
  }

  lemma LivePassLedger(w: ClusterWorld, o: ClusterReplies, slug: string, kind: RequestType)
    requires w.stored.Some?
    ensures LostNow(ClusterLivePass(w, o).0, slug, kind)
         == LostIn(VisitDatacenters(w, o, |w.datacenters|), slug, kind, w.recorded, !o.statusWrite.Refused?)
  {}

  /** The folds of a live pass, and those of a deleting one, as the sequences a loop goes through. */
  function LiveFolds(w: ClusterWorld, o: ClusterReplies): nat -> Fold
    requires w.stored.Some?
  {
    (k: nat) => VisitDatacenters(w, o, if k <= |w.datacenters| then k else |w.datacenters|)
  }

  function DeletingFolds(w: ClusterWorld, o: ClusterReplies, visit: seq<string>): nat -> Fold
    requires w.stored.Some?
  {
    (k: nat) => VisitAllDeleting(w, o, visit, if k <= |visit| then k else |visit|)
  }

  lemma LiveAdds(w: ClusterWorld, o: ClusterReplies, k: nat)
    requires ClusterInv(w) && w.stored.Some? && k < |w.datacenters|
    ensures var f := VisitDatacenters(w, o, k);
            LedgerOk(f, w.recorded) && Adds(f, VisitDatacenters(w, o, k + 1), w.recorded, Creation(f, w.datacenters[k], DatacenterReplies(o, k)))
  {
    VisitDatacentersOk(w, o, k);
    CreationAdds(VisitDatacenters(w, o, k), w.recorded, w.datacenters, w.datacenters[k], DatacenterReplies(o, k));
  }

  lemma LiveIteration(w: ClusterWorld, o: ClusterReplies, k: nat)
    requires ClusterInv(w) && w.stored.Some? && k < |w.datacenters|
    ensures Iteration(LiveFolds(w, o), CreationsOf(w, o), w.recorded, k)
  {
    LiveAdds(w, o, k);
    assert LiveFolds(w, o)(k) == VisitDatacenters(w, o, k) && LiveFolds(w, o)(k + 1) == VisitDatacenters(w, o, k + 1);
  }

  lemma LivePassLoses(w: ClusterWorld, o: ClusterReplies, slug: string, kind: RequestType)
    requires ClusterInv(w) && w.stored.Some?
    ensures |LostNow(ClusterLivePass(w, o).0, slug, kind)|
         == |LostNow(w, slug, kind)| + Count(CreationsOf(w, o), |w.datacenters|, slug, kind, !o.statusWrite.Refused?)
  {
    var n, stored := |w.datacenters|, !o.statusWrite.Refused?;
    forall k | 0 <= k < n ensures Iteration(LiveFolds(w, o), CreationsOf(w, o), w.recorded, k) {
      LiveIteration(w, o, k);
    }
    LoopLoses(LiveFolds(w, o), CreationsOf(w, o), n, w.recorded, slug, kind, stored);
    LostAtStart(w, slug, kind, stored);
    LivePassLedger(w, o, slug, kind);
  }

  lemma DeletePassLedger(w: ClusterWorld, o: ClusterReplies, visit: seq<string>, projectVisit: seq<string>, slug: string, kind: RequestType)
    requires w.stored.Some?
    ensures LostNow(ClusterDeletePass(w, o, visit, projectVisit).0, slug, kind)
         == LostIn(VisitAllDeleting(w, o, visit, |visit|), slug, kind, w.recorded, !o.statusWrite.Refused?)
  {}

  /** The tenant an iteration visits is the stored one, and its order is recorded. */
  lemma VisitsRecorded(w: ClusterWorld, o: ClusterReplies, visit: seq<string>, k: nat)
    requires ClusterInv(w) && w.stored.Some? && Distinct(visit) && k < |visit|
    ensures var f := VisitAllDeleting(w, o, visit, k);
            visit[k] in f.tenants && f.tenants[visit[k]].order.Some? ==> f.tenants[visit[k]].order.value.uuid in w.recorded
  {
    var f, slug, tenants := VisitAllDeleting(w, o, visit, k), visit[k], w.stored.value.status.tenants;
    UnvisitedUnchanged(w, o, visit, k, slug);
    StoredIsRecorded(w);
    if slug in f.tenants && f.tenants[slug].order.Some? {
      assert tenants[slug].order.value.uuid in OrderIds(tenants);
    }
  }

  lemma DeletingAdds(w: ClusterWorld, o: ClusterReplies, visit: seq<string>, k: nat)
    requires ClusterInv(w) && w.stored.Some? && Distinct(visit) && k < |visit|
    ensures var f := VisitAllDeleting(w, o, visit, k);
            LedgerOk(f, w.recorded) && Adds(f, VisitAllDeleting(w, o, visit, k + 1), w.recorded, Termination(f, visit[k], SlugReplies(o, visit[k])))
  {
    VisitAllDeletingOk(w, o, visit, k);
    VisitsRecorded(w, o, visit, k);
    TerminationAdds(VisitAllDeleting(w, o, visit, k), w.recorded, w.datacenters, visit[k], SlugReplies(o, visit[k]));
  }

  lemma DeletingIteration(w: ClusterWorld, o: ClusterReplies, visit: seq<string>, k: nat)
    requires ClusterInv(w) && w.stored.Some? && Distinct(visit) && k < |visit|
    ensures Iteration(DeletingFolds(w, o, visit), TerminationsOf(w, o, visit), w.recorded, k)
  {
    DeletingAdds(w, o, visit, k);
    assert DeletingFolds(w, o, visit)(k) == VisitAllDeleting(w, o, visit, k);
    assert DeletingFolds(w, o, visit)(k + 1) == VisitAllDeleting(w, o, visit, k + 1);
  }

  lemma DeletePassLoses(w: ClusterWorld, o: ClusterReplies, visit: seq<string>, projectVisit: seq<string>, slug: string, kind: RequestType)
    requires ClusterInv(w) && w.stored.Some? && Distinct(visit)
    ensures |LostNow(ClusterDeletePass(w, o, visit, projectVisit).0, slug, kind)|
         == |LostNow(w, slug, kind)| + Count(TerminationsOf(w, o, visit), |visit|, slug, kind, !o.statusWrite.Refused?)
  {
    var n, stored := |visit|, !o.statusWrite.Refused?;
    forall k | 0 <= k < n ensures Iteration(DeletingFolds(w, o, visit), TerminationsOf(w, o, visit), w.recorded, k) {
      DeletingIteration(w, o, visit, k);
    }
    LoopLoses(DeletingFolds(w, o, visit), TerminationsOf(w, o, visit), n, w.recorded, slug, kind, stored);
    LostAtStart(w, slug, kind, stored);
    DeletePassLedger(w, o, visit, projectVisit, slug, kind);
  }

  // ----- runs -----

  lemma OthersLoseNothing(w: ClusterWorld, market: Market, slug: string, kind: RequestType)
    requires ClusterInv(w) && Evolves(w.market, market)
    ensures LostNow(w.(market := market), slug, kind) == LostNow(w, slug, kind)
  {
    forall id | id in w.market.mine ensures OrderGrows(w.market.orders[id], market.orders[id]) {}
  }

  lemma QuietStepLoses(w: ClusterWorld, s: ClusterStep, slug: string, kind: RequestType)
    requires s.DeleteCluster? || (s.ReconcileCluster? && (w.stored.None? || (!w.stored.value.deleting && (!w.stored.value.finalizer || !s.o.owner))))
    ensures LostNow(DoCluster(w, s), slug, kind) == LostNow(w, slug, kind) && StepFaults(w, s, slug, kind) == 0
  {}

  /** Every step loses exactly the orders it got accepted and did not store. */
  lemma StepLoses(w: ClusterWorld, s: ClusterStep, slug: string, kind: RequestType)
    requires ClusterInv(w) && LegalCluster(w, s)
    ensures |LostNow(DoCluster(w, s), slug, kind)| == |LostNow(w, slug, kind)| + StepFaults(w, s, slug, kind)
  {
    if s.OtherOrders? {
      OthersLoseNothing(w, s.market, slug, kind);
    } else if s.ReconcileCluster? && w.stored.Some? && w.stored.value.deleting {
      DeletePassLoses(w, s.o, s.visit, s.projectVisit, slug, kind);
    } else if s.ReconcileCluster? && w.stored.Some? && w.stored.value.finalizer && s.o.owner {
      LivePassLoses(w, s.o, slug, kind);
    } else {
      QuietStepLoses(w, s, slug, kind);
    }
  }

  /** Over a run the lost orders of a slug and kind are exactly as many as its faults. */
  lemma {:induction false} LostTenantsAreFaults(w: ClusterWorld, steps: seq<ClusterStep>, slug: string, kind: RequestType)
    requires InitCluster(w) && LegalClusterRun(w, steps)
    ensures |LostNow(RunCluster(w, steps), slug, kind)| == RunFaults(w, steps, slug, kind)
  {
    if steps == [] {
      assert LostNow(w, slug, kind) == {};
    } else {
      var front := steps[..|steps| - 1];
      LegalClusterPrefix(w, steps);
      LostTenantsAreFaults(w, front, slug, kind);
      RunClusterInv(w, front);
      StepLoses(RunCluster(w, front), steps[|steps| - 1], slug, kind);
    }
  }

  /** Per offering slug at most one tenant creation, plus one per fault; the faults are exactly the lost
      orders, and while the object exists the count is exact. */
  lemma {:induction false} AtMostOneTenant(w: ClusterWorld, steps: seq<ClusterStep>, slug: string)
    requires InitCluster(w) && LegalClusterRun(w, steps)
    ensures var end := RunCluster(w, steps);
            var creates, faults := OrdersOf(end.market, slug, Create), RunFaults(w, steps, slug, Create);
            && |creates| <= 1 + faults && |LostNow(end, slug, Create)| == faults
            && (end.stored.Some? ==> |creates| == faults + (if slug in end.stored.value.status.tenants then 1 else 0))
  {
    RunClusterInv(w, steps);
    LostTenantsAreFaults(w, steps, slug, Create);
    CountsCreations(RunCluster(w, steps), slug);
  }

  lemma CountsCreations(w: ClusterWorld, slug: string)
    requires ClusterInv(w)
    ensures |OrdersOf(w.market, slug, Create)| <= 1 + |LostNow(w, slug, Create)|
    ensures w.stored.Some? ==>
              |OrdersOf(w.market, slug, Create)|
              == |LostNow(w, slug, Create)| + (if slug in w.stored.value.status.tenants then 1 else 0)
  {
    match w.stored
    case Some(obj) =>
      assert SlotOk(SlotAt(obj.status.tenants, slug), slug, w.market, w.recorded);
      CreateAccounting(SlotAt(obj.status.tenants, slug), slug, w.market, w.recorded);
    case None =>
      assert SlotCleared(slug, w.market, w.recorded);
      ClearedAccounting(slug, w.market, w.recorded);
  }

  /** Open termination orders per slug: at most one plus the faults, and only lost ones once the object
      is gone. */
  lemma {:induction false} OpenTerminationsBounded(w: ClusterWorld, steps: seq<ClusterStep>, slug: string)
    requires InitCluster(w) && LegalClusterRun(w, steps)
    ensures var end := RunCluster(w, steps);
            && |LiveTerminations(end.market, slug)| <= 1 + RunFaults(w, steps, slug, Terminate)
            && (end.stored.None? ==> |LiveTerminations(end.market, slug)| <= RunFaults(w, steps, slug, Terminate))
  {
    RunClusterInv(w, steps);
    LostTenantsAreFaults(w, steps, slug, Terminate);
    CountsTerminations(RunCluster(w, steps), slug);
  }

  lemma CountsTerminations(w: ClusterWorld, slug: string)
    requires ClusterInv(w)
    ensures |LiveTerminations(w.market, slug)| <= |LostNow(w, slug, Terminate)| + (if w.stored.Some? then 1 else 0)
  {
    match w.stored
    case Some(obj) =>
      assert SlotOk(SlotAt(obj.status.tenants, slug), slug, w.market, w.recorded);
      TerminationAccounting(SlotAt(obj.status.tenants, slug), slug, w.market, w.recorded);
    case None =>
      assert SlotCleared(slug, w.market, w.recorded);
      var live, lost := LiveTerminations(w.market, slug), LostNow(w, slug, Terminate);
      forall t | t in live ensures t in lost {
        if t in w.recorded {
          assert Known(t, slug, Terminate, w.market, w.recorded);
        }
      }
      SubsetSize(live, lost);
  }
}
