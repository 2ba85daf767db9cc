/** Deleting a WaldurMachine always finishes: in every behaviour whose needed calls succeed, the
    finalizer is removed after finitely many rounds. */
module MachineDeletion {
  import opened Prelude
  import opened Waldur
  import opened ApiTypes
  import opened MachineSpec
  import opened MachineProofs
  import opened MachineTheorems
  import opened Deletion

  /** The calls deletion depends on: status and finalizer writes, reading the order, and a usable
      reply to the termination request. Whatever else refreshVM asks may fail. */
  predicate NeededCallsSucceed(w: World, o: Replies) {
    && o.statusWrite.Applied? && o.finalizerWrite.Applied?
    && o.order.Some?
    && o.terminate.Submitted? && o.terminate.id !in w.market.orders
  }

  /** From round `offAt` on the VM no longer reports itself running. */
  predicate StoppedBy(o: Replies, offAt: nat, i: nat) {
    offAt <= i ==> o.runtime.Some? && (o.runtime.value.None? || o.runtime.value.value in {"SHUTOFF", "ERROR"})
  }

  /** One round: a pass, then any steps of others. */
  ghost predicate Round(cfg: Config, w: World, o: Replies, w': World) {
    var after := Pass(cfg, w, o).0;
    && w'.stored == after.stored && w'.recorded == after.recorded
    && Evolves(after.market, w'.market)
  }

  /** A fair deletion behaviour `ws` with replies `os`. */
  ghost predicate FairRound(cfg: Config, ws: nat -> World, os: nat -> Replies, settle: Uuid -> nat, bad: set<Uuid>, offAt: nat, i: nat) {
    && Round(cfg, ws(i), os(i), ws(i + 1))
    && NeededCallsSucceed(ws(i), os(i))
    && StoppedBy(os(i), offAt, i)
    && OrdersSettle(ws(i).market, settle, i)
    && OnlyBadFail(ws(i).market, bad)
  }

  ghost predicate Deleting(w: World) {
    && Inv(w)
    && (w.stored.Some? ==> w.stored.value.deleting)
  }

  /** An object that is gone counts as done. */
  function SlotOf(w: World): Slot {
    if w.stored.None? then Slot(None, Some(OrderRecord("0", Terminate, Done, None, None)))
    else MachineSlot(w.stored.value.status)
  }

  lemma DeletingPass(cfg: Config, w: World, o: Replies)
    requires Deleting(w)
    ensures var after := Pass(cfg, w, o).0;
            && (forall id :: id in w.market.orders ==> id in after.market.orders)
            && (after.stored.Some? ==> w.stored.Some? && after.stored.value.deleting)
  {
    if w.stored.Some? && w.stored.value.status.resource.Some? {
      SubmissionKeepsOrders(w.market, w.stored.value.status.resource.value, o.terminate);
    }
  }

  lemma SubmissionKeepsOrders(m: Market, resource: Uuid, reply: TerminateReply)
    ensures forall id :: id in m.orders ==> id in SubmitTermination(m, MACHINE_SLOT, resource, reply).0.orders
  {}

  lemma RoundKeepsDeleting(cfg: Config, w: World, o: Replies, w': World)
    requires Deleting(w) && Round(cfg, w, o, w')
    ensures Deleting(w')
    ensures forall id :: id in w.market.orders ==> id in w'.market.orders
    ensures w.stored.None? ==> w'.stored.None?
  {
    PassInv(cfg, w, o);
    DeletingPass(cfg, w, o);
    var after := Pass(cfg, w, o).0;
    InvGrows(after, w'.market, w'.vault);
    assert w' == after.(market := w'.market, vault := w'.vault);
  }

  lemma {:induction false} StaysDeleting(cfg: Config, ws: nat -> World, os: nat -> Replies, settle: Uuid -> nat, bad: set<Uuid>, offAt: nat, i: nat)
    requires Deleting(ws(0))
    requires forall k: nat :: FairRound(cfg, ws, os, settle, bad, offAt, k)
    ensures Deleting(ws(i))
  {
    if i > 0 {
      StaysDeleting(cfg, ws, os, settle, bad, offAt, i - 1);
      assert FairRound(cfg, ws, os, settle, bad, offAt, i - 1);
      RoundKeepsDeleting(cfg, ws(i - 1), os(i - 1), ws(i));
    }
  }

  lemma PollRefreshes(m: Market, status: MachineStatus, o: Replies)
    requires TerminationInFlight(MachineSlot(status)) && o.order.Some? && status.order.value.uuid in m.orders
    ensures RefreshVM(m, status, o).0.order == RefreshOrder(m, status.order.value, o.order)
  {}

  /** What a deleting pass does to the order record, given that the needed calls succeed. */
  lemma PassSlot(w: World, o: Replies)
    requires Deleting(w) && w.stored.Some? && w.stored.value.status.resource.Some? && NeededCallsSucceed(w, o)
    ensures var slot, w' := MachineSlot(w.stored.value.status), DeletePass(w, o).0;
            if TerminationDone(slot) then w'.stored.None?
            else if TerminationInFlight(slot) then
              w'.stored.Some? && w'.stored.value.status.order == RefreshOrder(w.market, slot.order.value, o.order)
            else if w.stored.value.status.vmUuid.Some? && !ReportsStopped(o.runtime) then w' == w
            else
              && w'.stored.Some? && o.terminate.id in w'.market.orders
              && w'.stored.value.status.order
                 == Some(OrderRecord(o.terminate.id, Terminate, PENDING_PROVIDER, slot.resource, None))
  {
    var status := w.stored.value.status;
    GatesMean(status, o.runtime);
    if TerminationInFlight(MachineSlot(status)) {
      PollRefreshes(w.market, status, o);
    }
  }

  /** A machine pass is one round of the slot protocol. */
  lemma MachineSlotRound(cfg: Config, w: World, o: Replies, w': World, offAt: nat, i: nat)
    requires Deleting(w) && Round(cfg, w, o, w') && NeededCallsSucceed(w, o) && StoppedBy(o, offAt, i)
    requires w.stored.Some? ==> w.stored.value.status.resource.Some?
    ensures SlotRound(Moment(SlotOf(w), w.market), Moment(SlotOf(w'), w'.market), i < offAt)
  {
    RoundKeepsDeleting(cfg, w, o, w');
    if w.stored.Some? {
      PassSlot(w, o);
    }
  }

  /** Every fair deletion behaviour ends with the object gone. */
  lemma MachineDeletionTerminates(cfg: Config, ws: nat -> World, os: nat -> Replies, settle: Uuid -> nat, bad: set<Uuid>, offAt: nat) returns (n: nat)
    requires Deleting(ws(0))
    requires forall k: nat :: FairRound(cfg, ws, os, settle, bad, offAt, k)
    ensures ws(n).stored.None?
  {
    assert FairRound(cfg, ws, os, settle, bad, offAt, 0);
    if ws(0).stored.None? {
      return 0;
    }
    if ws(0).stored.value.status.resource.None? {
      return 1;
    }
    var ms := (i: nat) => Moment(SlotOf(ws(i)), ws(i).market);
    forall k: nat ensures RoundAt(ms, offAt, k) {
      StaysDeleting(cfg, ws, os, settle, bad, offAt, k);
      KeepsResource(cfg, ws, os, settle, bad, offAt, k);
      assert FairRound(cfg, ws, os, settle, bad, offAt, k);
      MachineSlotRound(cfg, ws(k), os(k), ws(k + 1), offAt, k);
    }
    forall k: nat ensures FairAt(ms, settle, bad, k) {
      assert FairRound(cfg, ws, os, settle, bad, offAt, k);
    }
    n := SlotTerminates(ms, settle, bad, offAt, 0);
    assert FairRound(cfg, ws, os, settle, bad, offAt, n);
    StaysDeleting(cfg, ws, os, settle, bad, offAt, n);
    if ws(n).stored.Some? {
      n := n + 1;
    }
  }

  lemma {:induction false} KeepsResource(cfg: Config, ws: nat -> World, os: nat -> Replies, settle: Uuid -> nat, bad: set<Uuid>, offAt: nat, i: nat)
    requires Deleting(ws(0)) && ws(0).stored.Some? && ws(0).stored.value.status.resource.Some?
    requires forall k: nat :: FairRound(cfg, ws, os, settle, bad, offAt, k)
    ensures ws(i).stored.Some? ==> ws(i).stored.value.status.resource.Some?
  {
    if i > 0 {
      KeepsResource(cfg, ws, os, settle, bad, offAt, i - 1);
      StaysDeleting(cfg, ws, os, settle, bad, offAt, i - 1);
      assert FairRound(cfg, ws, os, settle, bad, offAt, i - 1);
      RoundKeepsDeleting(cfg, ws(i - 1), os(i - 1), ws(i));
      if ws(i - 1).stored.Some? {
        ResourceIsWriteOnce(cfg, ws(i - 1), Reconcile(os(i - 1)));
      }
    }
  }
}
