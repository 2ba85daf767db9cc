/** What holds over every run of the WaldurMachine controller, whatever the replies, failures,
    lost acknowledgements and steps of others. */
module MachineProofs {
  import opened Prelude
  import opened Waldur
  import opened ApiTypes
  import opened MachineSpec

  // ----- the invariant -----

  /** Nothing of the resource is known before an order is, and nothing of the order before the resource. */
  predicate StatusShape(s: MachineStatus) {
    s.resource.None? ==> s.order.None? && s.vmUuid.None? && s.state == CoreUnset && s.provisioned.None?
  }

  ghost predicate LedgerOk(m: Market, recorded: set<Uuid>) {
    && MarketOk(m)
    && recorded <= m.mine.Keys
    && (forall id :: id in m.mine ==> m.mine[id] == MACHINE_SLOT)
  }

  ghost predicate Inv(w: World) {
    && LedgerOk(w.market, w.recorded)
    && match w.stored
       case None => SlotCleared(MACHINE_SLOT, w.market, w.recorded)
       case Some(obj) =>
         && SlotOk(MachineSlot(obj.status), MACHINE_SLOT, w.market, w.recorded)
         && StatusShape(obj.status)
         && (obj.deleting ==> obj.finalizer)
         && (!obj.finalizer ==> w.market.mine == map[])
  }

  // ----- the parts of a pass -----

  /** The stored object stays accurate while the market moves on, recorded or not. */
  lemma InvGrows(w: World, market: Market, vault: VaultState)
    requires Inv(w) && LedgerOk(market, w.recorded) && Grows(w.market, market)
    requires w.stored.Some? && !w.stored.value.finalizer ==> market.mine == map[]
    ensures Inv(w.(market := market, vault := vault))
  {
    match w.stored
    case None => SlotClearedGrows(MACHINE_SLOT, w.market, market, w.recorded);
    case Some(obj) => SlotOkGrows(MachineSlot(obj.status), MACHINE_SLOT, w.market, market, w.recorded);
  }

  lemma StoreStatusInv(w: World, status: MachineStatus, reply: WriteReply)
    requires Inv(w) && w.stored.Some? && w.stored.value.finalizer && StatusShape(status)
    requires RecordedIn(status) <= w.market.mine.Keys
    requires SlotOk(MachineSlot(status), MACHINE_SLOT, w.market, w.recorded + RecordedIn(status))
    ensures Inv(StoreStatus(w, status, reply))
  {}

  lemma WriteStatusInv(w: World, status: MachineStatus, o: Replies)
    requires Inv(w) && w.stored.Some? && w.stored.value.finalizer && StatusShape(status)
    requires RecordedIn(status) <= w.market.mine.Keys
    requires SlotOk(MachineSlot(status), MACHINE_SLOT, w.market, w.recorded + RecordedIn(status))
    ensures Inv(WriteStatus(w, status, o).0)
  {
    StoreStatusInv(w, WithReady(status), o.statusWrite);
  }

  /** What the stored status says of its order is already recorded. */
  lemma StoredIsRecorded(w: World)
    requires Inv(w) && w.stored.Some?
    ensures RecordedIn(w.stored.value.status) <= w.recorded
    ensures w.recorded + RecordedIn(w.stored.value.status) == w.recorded
  {}

  lemma FinishPassInv(w: World, status: MachineStatus, o: Replies)
    requires Inv(w) && w.stored.Some? && w.stored.value.finalizer && StatusShape(status)
    requires RecordedIn(status) <= w.market.mine.Keys
    requires SlotOk(MachineSlot(status), MACHINE_SLOT, w.market, w.recorded + RecordedIn(status))
    ensures Inv(FinishPass(w, status, o).0)
  {
    if TakesProviderIDWrite(w.stored.value, status) {
      var w1 := StoreProviderID(w, status.vmUuid.value, o.specWrite);
      assert Inv(w1);
      if o.specWrite.Applied? {
        StoredIsRecorded(w1);
        WriteStatusInv(w1, w.stored.value.status, o);
      }
    } else {
      WriteStatusInv(w, status, o);
    }
  }

  lemma RefreshKeepsSlot(m: Market, status: MachineStatus, recorded: set<Uuid>, o: Replies)
    requires MarketOk(m) && status.resource.Some? && SlotOk(MachineSlot(status), MACHINE_SLOT, m, recorded)
    ensures var status' := RefreshVM(m, status, o).0;
            && SlotOk(MachineSlot(status'), MACHINE_SLOT, m, recorded)
            && status'.resource == status.resource
            && RecordedIn(status') == RecordedIn(status) && recorded + RecordedIn(status') == recorded
  {
    if RefreshOrder(m, status.order.value, o.order).Some? {
      SlotOkRefreshed(MachineSlot(status), MACHINE_SLOT, m, recorded, o.order);
    }
  }

  lemma AcceptCreateLedger(m: Market, recorded: set<Uuid>, n: NewOrder, secret: Option<string>)
    requires LedgerOk(m, recorded)
    ensures LedgerOk(AcceptCreate(m, MACHINE_SLOT, n, secret), recorded)
    ensures Grows(m, AcceptCreate(m, MACHINE_SLOT, n, secret))
  {
    if n.id !in m.orders {
      SubmitGrows(m, n.id, Order(Create, n.resource, [n.first], secret), MACHINE_SLOT);
    }
  }

  lemma AcceptTerminateLedger(m: Market, recorded: set<Uuid>, resource: Uuid, id: Uuid, first: OrderState)
    requires LedgerOk(m, recorded)
    ensures LedgerOk(AcceptTerminate(m, MACHINE_SLOT, resource, id, first), recorded)
    ensures Grows(m, AcceptTerminate(m, MACHINE_SLOT, resource, id, first))
  {
    if id !in m.orders {
      SubmitGrows(m, id, Order(Terminate, resource, [first], None), MACHINE_SLOT);
    }
  }

  lemma SubmitCreateInv(w: World, vault: VaultState, secret: Option<string>, o: Replies)
    requires Inv(w) && w.stored.Some? && w.stored.value.finalizer && w.stored.value.status.resource.None?
    ensures var c := SubmitCreate(w.market, vault, w.stored.value.status, secret, o);
            && Inv(w.(market := c.market, vault := c.vault))
            && StatusShape(c.status) && RecordedIn(c.status) <= c.market.mine.Keys
            && SlotOk(MachineSlot(c.status), MACHINE_SLOT, c.market, w.recorded + RecordedIn(c.status))
  {
    var c := SubmitCreate(w.market, vault, w.stored.value.status, secret, o);
    match o.create
    case Dropped(Some(n)) =>
      AcceptCreateLedger(w.market, w.recorded, n, secret);
      InvGrows(w, c.market, c.vault);
      assert w.recorded + RecordedIn(c.status) == w.recorded;
    case Created(n, backend, name) =>
      AcceptCreateLedger(w.market, w.recorded, n, secret);
      InvGrows(w, c.market, c.vault);
      if n.id !in w.market.orders {
        SlotOkCreated(MACHINE_SLOT, w.market, w.recorded, n, secret, None);
      } else {
        assert w.recorded + RecordedIn(c.status) == w.recorded;
      }
    case _ =>
      assert w.recorded + RecordedIn(c.status) == w.recorded;
  }

  lemma CreateVMInv(cfg: Config, named: bool, tenants: map<string, Tenant>, w: World, o: Replies)
    requires Inv(w) && w.stored.Some? && w.stored.value.finalizer && w.stored.value.status.resource.None?
    ensures var c := CreateVM(cfg, named, tenants, w.market, w.vault, w.stored.value.status, o);
            && Inv(w.(market := c.market, vault := c.vault))
            && StatusShape(c.status) && RecordedIn(c.status) <= c.market.mine.Keys
            && SlotOk(MachineSlot(c.status), MACHINE_SLOT, c.market, w.recorded + RecordedIn(c.status))
  {
    StoredIsRecorded(w);
    var (vault, userData) := BuildUserData(cfg, named, w.vault, o);
    if userData.Prepared? {
      SubmitCreateInv(w, vault, userData.secret, o);
    }
  }

  lemma DeletePassInv(w: World, o: Replies)
    requires Inv(w) && w.stored.Some? && w.stored.value.deleting
    ensures Inv(DeletePass(w, o).0)
  {
    var status := w.stored.value.status;
    var slot := MachineSlot(status);
    StoredIsRecorded(w);
    if status.resource.None? || TerminationDone(slot) {
      DoneSlotIsCleared(slot, MACHINE_SLOT, w.market, w.recorded);
    } else if TerminationInFlight(slot) {
      RefreshKeepsSlot(w.market, status, w.recorded, o);
      StoreStatusInv(w, RefreshVM(w.market, status, o).0, o.statusWrite);
    } else if MayTerminate(status, o.runtime) {
      var (market, rec) := SubmitTermination(w.market, MACHINE_SLOT, status.resource.value, o.terminate);
      if o.terminate.Submitted? {
        AcceptTerminateLedger(w.market, w.recorded, status.resource.value, o.terminate.id, o.terminate.first);
      } else if o.terminate.unknown.Some? {
        AcceptTerminateLedger(w.market, w.recorded, status.resource.value, o.terminate.unknown.value.0, o.terminate.unknown.value.1);
      }
      InvGrows(w, market, w.vault);
      if rec.Some? {
        SlotOkTerminating(slot, MACHINE_SLOT, w.market, w.recorded, o.terminate.id, o.terminate.first);
        StoreStatusInv(w.(market := market), status.(order := rec), o.statusWrite);
      }
    }
  }

  lemma CreatingPassInv(cfg: Config, w: World, named: bool, tenants: map<string, Tenant>, o: Replies)
    requires Inv(w) && w.stored.Some? && w.stored.value.finalizer && w.stored.value.status.resource.None?
    ensures Inv(LivePass(cfg, w, named, tenants, o).0)
  {
    CreateVMInv(cfg, named, tenants, w, o);
    var c := CreateVM(cfg, named, tenants, w.market, w.vault, w.stored.value.status, o);
    FinishPassInv(w.(market := c.market, vault := c.vault), c.status, o);
  }

  lemma RefreshingPassInv(cfg: Config, w: World, named: bool, tenants: map<string, Tenant>, o: Replies)
    requires Inv(w) && w.stored.Some? && w.stored.value.finalizer && w.stored.value.status.resource.Some?
    ensures Inv(LivePass(cfg, w, named, tenants, o).0)
  {
    StoredIsRecorded(w);
    RefreshKeepsSlot(w.market, w.stored.value.status, w.recorded, o);
    FinishPassInv(w, RefreshVM(w.market, w.stored.value.status, o).0, o);
  }

  lemma PassInv(cfg: Config, w: World, o: Replies)
    requires Inv(w)
    ensures Inv(Pass(cfg, w, o).0)
  {
    if w.stored.Some? {
      var obj := w.stored.value;
      if obj.deleting {
        DeletePassInv(w, o);
      } else if obj.finalizer && o.lookup.Found? {
        if obj.status.resource.None? {
          CreatingPassInv(cfg, w, o.lookup.bootstrapNamed, o.lookup.tenants, o);
        } else {
          RefreshingPassInv(cfg, w, o.lookup.bootstrapNamed, o.lookup.tenants, o);
        }
      }
    }
  }

  lemma DoInv(cfg: Config, w: World, s: Step)
    requires Inv(w) && Legal(w, s)
    ensures Inv(Do(cfg, w, s))
  {
    match s
    case Reconcile(o) => PassInv(cfg, w, o);
    case Others(market, kv) => InvGrows(w, market, w.vault.(kv := kv));
    case DeleteRequest =>
  }

  lemma {:induction false} RunInv(cfg: Config, w: World, steps: seq<Step>)
    requires Init(w) && LegalRun(cfg, w, steps)
    ensures Inv(Run(cfg, w, steps))
  {
    if steps == [] {
    } else {
      LegalPrefix(cfg, w, steps);
      var front := steps[..|steps| - 1];
      RunInv(cfg, w, front);
      DoInv(cfg, Run(cfg, w, front), steps[|steps| - 1]);
    }
  }

  lemma LegalPrefix(cfg: Config, w: World, steps: seq<Step>)
    requires steps != [] && LegalRun(cfg, w, steps)
    ensures LegalRun(cfg, w, steps[..|steps| - 1])
    ensures Legal(Run(cfg, w, steps[..|steps| - 1]), steps[|steps| - 1])
  {
    var front := steps[..|steps| - 1];
    forall i | 0 <= i < |front| ensures Legal(Run(cfg, w, front[..i]), front[i]) {
      assert front[..i] == steps[..i];
    }
  }
}
