/** Theorems about whole runs of the WaldurMachine controller: no orphaned VM, at most one VM per
    lost acknowledgement, records that never run ahead of the marketplace, disciplined termination. */
module MachineTheorems {
  import opened Prelude
  import opened Waldur
  import opened ApiTypes
  import opened MachineSpec
  import opened MachineProofs

  // ----- no orphans -----

  /** Once the object is gone, every create order whose record ever reached the API server has its
      resource terminated in the marketplace. The finalizer precedes the first order, and removal
      is decided from the stored status, so only orders that were never recorded can be left. */
  lemma {:induction false} NoOrphans(cfg: Config, w: World, steps: seq<Step>, id: Uuid)
    requires Init(w) && LegalRun(cfg, w, steps) && Run(cfg, w, steps).stored.None?
    requires id in OrdersOf(Run(cfg, w, steps).market, MACHINE_SLOT, Create)
    ensures var end := Run(cfg, w, steps);
            || id in Lost(end.market, MACHINE_SLOT, Create, end.recorded)
            || Released(end.market.orders[id].resource, end.market)
  {
    RunInv(cfg, w, steps);
    var end := Run(cfg, w, steps);
    if id in end.recorded {
      assert Known(id, MACHINE_SLOT, Create, end.market, end.recorded);
    }
  }

  // ----- what a pass adds to the ledger -----

  /** An order the marketplace accepted in a pass, and whether its record was stored in the same pass. */
  datatype Acceptance = Acceptance(kind: RequestType, id: Uuid, stored: bool)

  /** The order a pass gets accepted, if any. A create order needs the call to be made and a 201, or an
      acceptance whose reply was lost; the same for a termination. */
  function Accepted(cfg: Config, w: World, o: Replies): Option<Acceptance> {
    if OrdersVM(cfg, w, o) then
      match o.create
      case Dropped(Some(n)) => New(w, Acceptance(Create, n.id, false))
      case Created(n, _, _) => New(w, Acceptance(Create, n.id, !o.statusWrite.Refused?))
      case _ => None
    else if SubmitsTermination(w, o) then
      match o.terminate
      case NoUuid(Some((id, _))) => New(w, Acceptance(Terminate, id, false))
      case Submitted(id, _) => New(w, Acceptance(Terminate, id, !o.statusWrite.Refused?))
      case _ => None
    else None
  }

  function New(w: World, a: Acceptance): Option<Acceptance> {
    if a.id in w.market.orders then None else Some(a)
  }

  /** The orders, the ledger and the record after a pass that got `a` accepted. */
  ghost predicate Adds(w: World, w': World, a: Option<Acceptance>) {
    match a
    case None => w'.market.orders == w.market.orders && w'.market.mine == w.market.mine && w'.recorded == w.recorded
    case Some(Acceptance(kind, id, stored)) =>
      && id !in w.market.orders && id in w'.market.orders && w'.market.orders[id].kind == kind
      && w'.market.orders == w.market.orders[id := w'.market.orders[id]]
      && w'.market.mine == w.market.mine[id := MACHINE_SLOT]
      && w'.recorded == (if stored then w.recorded + {id} else w.recorded)
  }

  /** createVM: the ledger with the accepted order, which is also the one in the status if there is one. */
  lemma CreateVMAdds(cfg: Config, w: World, o: Replies)
    requires Creates(w, o)
    ensures var c := CreateVM(cfg, o.lookup.bootstrapNamed, o.lookup.tenants, w.market, w.vault, w.stored.value.status, o);
            match Accepted(cfg, w, o)
            case None => c.market == w.market && c.status == w.stored.value.status
            case Some(a) =>
              && a.kind == Create && a.id !in w.market.orders && a.id in c.market.orders
              && c.market == Submit(w.market, a.id, c.market.orders[a.id], MACHINE_SLOT)
              && c.market.orders[a.id].kind == Create
              && a.stored == (o.create.Created? && !o.statusWrite.Refused?)
              && (if o.create.Created? then c.status.state == CoreCreating && RecordedIn(c.status) == {a.id}
                  else c.status == w.stored.value.status)
  {}

  /** What the end of a pass records: the order of the status, when the status is written. */
  lemma FinishPassRecords(w: World, status: MachineStatus, o: Replies)
    requires Inv(w) && w.stored.Some?
    ensures var w' := FinishPass(w, status, o).0;
            && w'.market == w.market
            && (RecordedIn(status) <= w.recorded ==> w'.recorded == w.recorded)
            && (status.state != CoreOK ==>
                  w'.recorded == if o.statusWrite.Refused? then w.recorded else w.recorded + RecordedIn(status))
  {
    StoredIsRecorded(w);
  }

  lemma CreatingPassEnds(cfg: Config, w: World, o: Replies)
    requires Inv(w) && Creates(w, o)
    ensures var c := CreateVM(cfg, o.lookup.bootstrapNamed, o.lookup.tenants, w.market, w.vault, w.stored.value.status, o);
            var w' := Pass(cfg, w, o).0;
            && w'.market == c.market
            && (RecordedIn(c.status) == {} ==> w'.recorded == w.recorded)
            && (c.status.state == CoreCreating ==>
                  w'.recorded == if o.statusWrite.Refused? then w.recorded else w.recorded + RecordedIn(c.status))
  {
    CreateVMInv(cfg, o.lookup.bootstrapNamed, o.lookup.tenants, w, o);
    var c := CreateVM(cfg, o.lookup.bootstrapNamed, o.lookup.tenants, w.market, w.vault, w.stored.value.status, o);
    FinishPassRecords(w.(market := c.market, vault := c.vault), c.status, o);
  }

  lemma CreatingPassAdds(cfg: Config, w: World, o: Replies)
    requires Inv(w) && Creates(w, o)
    ensures Adds(w, Pass(cfg, w, o).0, Accepted(cfg, w, o))
  {
    CreateVMAdds(cfg, w, o);
    CreatingPassEnds(cfg, w, o);
  }

  lemma RefreshingPassAdds(cfg: Config, w: World, o: Replies)
    requires Inv(w) && w.stored.Some? && w.stored.value.finalizer && !w.stored.value.deleting && o.lookup.Found?
    requires w.stored.value.status.resource.Some?
    ensures Adds(w, Pass(cfg, w, o).0, None)
  {
    StoredIsRecorded(w);
    RefreshKeepsSlot(w.market, w.stored.value.status, w.recorded, o);
    FinishPassRecords(w, RefreshVM(w.market, w.stored.value.status, o).0, o);
  }

  lemma SubmittingPassAdds(cfg: Config, w: World, o: Replies)
    requires Inv(w) && SubmitsTermination(w, o)
    ensures Adds(w, Pass(cfg, w, o).0, Accepted(cfg, w, o))
  {}

  lemma OtherDeletingPassAdds(cfg: Config, w: World, o: Replies)
    requires Inv(w) && w.stored.Some? && w.stored.value.deleting && !SubmitsTermination(w, o)
    ensures Adds(w, Pass(cfg, w, o).0, None)
  {
    StoredIsRecorded(w);
    if w.stored.value.status.resource.Some? {
      RefreshKeepsSlot(w.market, w.stored.value.status, w.recorded, o);
    }
  }

  /** Every pass adds exactly the order it got accepted. */
  lemma {:induction false} PassAdds(cfg: Config, w: World, o: Replies)
    requires Inv(w)
    ensures Adds(w, Pass(cfg, w, o).0, Accepted(cfg, w, o))
  {
    if SubmitsTermination(w, o) {
      SubmittingPassAdds(cfg, w, o);
    } else if w.stored.Some? && w.stored.value.deleting {
      OtherDeletingPassAdds(cfg, w, o);
    } else if Creates(w, o) {
      CreatingPassAdds(cfg, w, o);
    } else if w.stored.Some? && w.stored.value.finalizer && o.lookup.Found? {
      RefreshingPassAdds(cfg, w, o);
    }
  }

  // ----- at most one creation -----

  /** The step gets an order of this kind accepted whose record is not stored: the reply was lost, or
      the status write was not stored. */
  predicate Faults(cfg: Config, w: World, s: Step, kind: RequestType) {
    s.Reconcile? && Accepted(cfg, w, s.o).Some? && Accepted(cfg, w, s.o).value.kind == kind && !Accepted(cfg, w, s.o).value.stored
  }

  function FaultCount(cfg: Config, w: World, steps: seq<Step>, kind: RequestType): nat {
    if steps == [] then 0
    else
      var front := steps[..|steps| - 1];
      FaultCount(cfg, w, front, kind) + (if Faults(cfg, Run(cfg, w, front), steps[|steps| - 1], kind) then 1 else 0)
  }

  function LostNow(w: World, kind: RequestType): set<Uuid> {
    Lost(w.market, MACHINE_SLOT, kind, w.recorded)
  }

  /** A pass loses exactly the order it got accepted without storing its record. */
  lemma {:induction false} PassLoses(cfg: Config, w: World, o: Replies, kind: RequestType)
    requires Inv(w)
    ensures LostNow(Pass(cfg, w, o).0, kind)
         == LostNow(w, kind) + (if Faults(cfg, w, Reconcile(o), kind) then {Accepted(cfg, w, o).value.id} else {})
    ensures Accepted(cfg, w, o).Some? ==> Accepted(cfg, w, o).value.id !in w.market.orders
  {
    PassAdds(cfg, w, o);
    LostFollows(w, Pass(cfg, w, o).0, Accepted(cfg, w, o), kind);
  }

  lemma LostFollows(w: World, w': World, a: Option<Acceptance>, kind: RequestType)
    requires Inv(w) && Adds(w, w', a)
    ensures LostNow(w', kind) == LostNow(w, kind) + (if a.Some? && a.value.kind == kind && !a.value.stored then {a.value.id} else {})
  {
    var now, was := LostNow(w', kind), LostNow(w, kind);
    forall id ensures id in now <==> id in was || (a.Some? && a.value.kind == kind && !a.value.stored && id == a.value.id) {
      assert id in w.market.mine ==> id in w.market.orders;
    }
  }

  lemma OthersLoseNothing(w: World, market: Market, vault: VaultState, kind: RequestType)
    requires Inv(w) && Evolves(w.market, market)
    ensures LostNow(w.(market := market, vault := vault), kind) == LostNow(w, kind)
  {
    forall id | id in w.market.mine ensures OrderGrows(w.market.orders[id], market.orders[id]) {}
  }

  lemma DeleteRequestLosesNothing(w: World, kind: RequestType)
    ensures LostNow(MarkDeleted(w), kind) == LostNow(w, kind)
  {}

  lemma StepLoses(cfg: Config, w: World, s: Step, kind: RequestType)
    requires Inv(w) && Legal(w, s)
    ensures |LostNow(Do(cfg, w, s), kind)| == |LostNow(w, kind)| + (if Faults(cfg, w, s, kind) then 1 else 0)
  {
    match s
    case Others(market, kv) => OthersLoseNothing(w, market, w.vault.(kv := kv), kind);
    case DeleteRequest => DeleteRequestLosesNothing(w, kind);
    case Reconcile(o) => PassLoses(cfg, w, o, kind);
  }

  /** Over a run the lost orders of a kind are exactly as many as its faults. */
  lemma {:induction false} LostAreFaults(cfg: Config, w: World, steps: seq<Step>, kind: RequestType)
    requires Init(w) && LegalRun(cfg, w, steps)
    ensures |LostNow(Run(cfg, w, steps), kind)| == FaultCount(cfg, w, steps, kind)
  {
    if steps == [] {
      assert LostNow(w, kind) == {};
    } else {
      var front, s := steps[..|steps| - 1], steps[|steps| - 1];
      LegalPrefix(cfg, w, steps);
      LostAreFaults(cfg, w, front, kind);
      RunInv(cfg, w, front);
      StepLoses(cfg, Run(cfg, w, front), s, kind);
    }
  }

  /** At most one VM per machine, plus one for each fault that lost a create order; while the object
      exists the count is exact: the recorded one and the faults. */
  lemma {:induction false} AtMostOneVM(cfg: Config, w: World, steps: seq<Step>)
    requires Init(w) && LegalRun(cfg, w, steps)
    ensures var end := Run(cfg, w, steps);
            var creates, faults := OrdersOf(end.market, MACHINE_SLOT, Create), FaultCount(cfg, w, steps, Create);
            && |creates| <= 1 + faults
            && |LostNow(end, Create)| == faults
            && (end.stored.Some? ==> |creates| == faults + (if end.stored.value.status.resource.Some? then 1 else 0))
  {
    RunInv(cfg, w, steps);
    LostAreFaults(cfg, w, steps, Create);
    var end := Run(cfg, w, steps);
    match end.stored
    case Some(obj) => CreateAccounting(MachineSlot(obj.status), MACHINE_SLOT, end.market, end.recorded);
    case None => ClearedAccounting(MACHINE_SLOT, end.market, end.recorded);
  }

  /** A create order that was ever recorded stays the one the object refers to. */
  lemma ResourceIsWriteOnce(cfg: Config, w: World, s: Step)
    requires Inv(w) && Legal(w, s) && w.stored.Some? && w.stored.value.status.resource.Some?
    ensures var w' := Do(cfg, w, s);
            w'.stored.Some? ==> w'.stored.value.status.resource == w.stored.value.status.resource
  {
    if s.Reconcile? && !w.stored.value.deleting {
      StoredIsRecorded(w);
    }
  }

  /** A pass that submits a create order successfully stores CREATING and never writes the ProviderID. */
  lemma CreationSkipsProviderID(cfg: Config, w: World, o: Replies)
    requires Inv(w) && w.stored.Some? && w.stored.value.finalizer && !w.stored.value.deleting
    requires w.stored.value.status.resource.None? && o.lookup.Found?
    requires CreateVM(cfg, o.lookup.bootstrapNamed, o.lookup.tenants, w.market, w.vault, w.stored.value.status, o).error.Success?
    ensures var w' := Pass(cfg, w, o).0;
            && w'.stored.Some? && w'.stored.value.providerID == w.stored.value.providerID
            && (!o.statusWrite.Refused? ==>
                  && w'.stored.value.status.state == CoreCreating
                  && o.create.Created?
                  && w'.stored.value.status.resource == Some(o.create.order.resource)
                  && o.create.order.id in w'.market.orders
                  && w'.market.orders[o.create.order.id].resource == o.create.order.resource)
  {}

  // ----- the record never runs ahead -----

  /** In every reachable state the stored order is a marketplace order of the same kind and
      resource, and a recorded terminal state is that order's final state. */
  lemma {:induction false} RecordNeverAhead(cfg: Config, w: World, steps: seq<Step>)
    requires Init(w) && LegalRun(cfg, w, steps)
    ensures var end := Run(cfg, w, steps);
            end.stored.Some? && end.stored.value.status.order.Some? ==>
              var rec := end.stored.value.status.order.value;
              && RecordOk(rec, end.market)
              && (IsOrderTerminal(rec.state) ==> StateOf(end.market.orders[rec.uuid]) == rec.state)
  {
    RunInv(cfg, w, steps);
    var end := Run(cfg, w, steps);
    if end.stored.Some? && end.stored.value.status.order.Some? {
      var rec := end.stored.value.status.order.value;
      if IsOrderTerminal(rec.state) {
        TerminalRecordIsFinal(rec, end.market);
      }
    }
  }

  /** A recorded terminal state is final: the record changes again only by being replaced with a
      new termination order, and even a refresh that fails halfway leaves it as it was. */
  lemma TerminalRecordStays(cfg: Config, w: World, s: Step)
    requires Inv(w) && Legal(w, s) && w.stored.Some? && w.stored.value.status.order.Some?
    requires IsOrderTerminal(w.stored.value.status.order.value.state)
    ensures var w' := Do(cfg, w, s);
            w'.stored.Some? ==>
              var order, order' := w.stored.value.status.order.value, w'.stored.value.status.order;
              && order'.Some?
              && (order'.value == order
                  || (order'.value.kind == Terminate && order'.value.state == PENDING_PROVIDER
                      && order'.value.uuid !in w.market.orders && order'.value.uuid in w'.market.orders))
  {
    if s.Reconcile? && !w.stored.value.deleting {
      StoredIsRecorded(w);
    }
  }

  // ----- gates -----

  /** What the runtime query of a pass must answer before a VM may be terminated: no runtime state, or
      one of the two states of a VM that does not run. */
  predicate ReportsStopped(runtime: Option<Option<string>>) {
    match runtime
    case None => false
    case Some(None) => true
    case Some(Some(state)) => state == "SHUTOFF" || state == "ERROR"
  }

  /** A recorded termination that is under way or done; one that ended Erred or Canceled is neither. */
  predicate TerminationRecorded(s: MachineStatus) {
    s.order.Some? && s.order.value.kind == Terminate && s.order.value.state != Erred && s.order.value.state != Canceled
  }

  lemma GatesMean(s: MachineStatus, runtime: Option<Option<string>>)
    ensures MayTerminate(s, runtime) <==> s.vmUuid.None? || ReportsStopped(runtime)
    ensures TerminationRecorded(s) <==> TerminationInFlight(MachineSlot(s)) || TerminationDone(MachineSlot(s))
  {}

  /** A termination order is accepted only while deleting, with no termination in flight or done, and
      after this very pass read SHUTOFF, ERROR or no runtime state, or no VM uuid was recorded. */
  lemma TerminationFollowsShutoff(cfg: Config, w: World, o: Replies, id: Uuid)
    requires Inv(w)
    requires id in OrdersOf(Pass(cfg, w, o).0.market, MACHINE_SLOT, Terminate)
    requires id !in OrdersOf(w.market, MACHINE_SLOT, Terminate)
    ensures w.stored.Some? && w.stored.value.deleting && id !in w.market.orders
    ensures w.stored.value.status.vmUuid.None? || ReportsStopped(o.runtime)
    ensures !TerminationRecorded(w.stored.value.status)
    ensures w.stored.value.status.resource == Some(Pass(cfg, w, o).0.market.orders[id].resource)
  {
    PassAdds(cfg, w, o);
    assert Accepted(cfg, w, o).Some? && Accepted(cfg, w, o).value.kind == Terminate;
    GatesMean(w.stored.value.status, o.runtime);
  }

  /** A create order is accepted only for a live object that carries the finalizer and has
      no resource, through a tenant that passed every readiness check. */
  lemma CreationFollowsGates(cfg: Config, w: World, o: Replies, id: Uuid)
    requires Inv(w)
    requires id in OrdersOf(Pass(cfg, w, o).0.market, MACHINE_SLOT, Create)
    requires id !in OrdersOf(w.market, MACHINE_SLOT, Create)
    ensures w.stored.Some? && !w.stored.value.deleting && w.stored.value.finalizer
    ensures w.stored.value.status.resource.None?
    ensures o.lookup.Found? && Placement(o.lookup.tenants, cfg.offering).Some?
  {
    PassAdds(cfg, w, o);
    assert Accepted(cfg, w, o).Some? && Accepted(cfg, w, o).value.kind == Create;
  }

  /** At most one live termination order, plus one for each fault that lost an acknowledgement;
      once the object is gone only lost ones can still be live. */
  lemma {:induction false} LiveTerminationsBounded(cfg: Config, w: World, steps: seq<Step>)
    requires Init(w) && LegalRun(cfg, w, steps)
    ensures var end := Run(cfg, w, steps);
            && |LiveTerminations(end.market, MACHINE_SLOT)| <= 1 + FaultCount(cfg, w, steps, Terminate)
            && (end.stored.None? ==>
                  LiveTerminations(end.market, MACHINE_SLOT) <= Lost(end.market, MACHINE_SLOT, Terminate, end.recorded))
  {
    RunInv(cfg, w, steps);
    LostAreFaults(cfg, w, steps, Terminate);
    var end := Run(cfg, w, steps);
    match end.stored
    case Some(obj) => TerminationAccounting(MachineSlot(obj.status), MACHINE_SLOT, end.market, end.recorded);
    case None =>
      var live, lost := LiveTerminations(end.market, MACHINE_SLOT), Lost(end.market, MACHINE_SLOT, Terminate, end.recorded);
      forall t | t in live ensures t in lost {
        if t in end.recorded { assert Known(t, MACHINE_SLOT, Terminate, end.market, end.recorded); }
      }
      SubsetSize(live, lost);
  }
}
