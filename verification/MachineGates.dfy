/** Exactly when a WaldurMachine's pass sends an order, in terms of the stored object, Vault and the
    replies, and what it then leaves behind: terminations and the runtime state of the VM, creations
    on the three user-data paths. */
module MachineGates {
  import opened Prelude
  import opened Waldur
  import opened ApiTypes
  import opened MachineSpec
  import opened MachineProofs
  import opened MachineTheorems

  // ----- terminations -----

  /** A termination is due: the object is being deleted, its resource has no termination under way or
      done, and the VM does not run or was never known. */
  predicate MayEnd(w: World, runtime: Option<Option<string>>) {
    && w.stored.Some? && w.stored.value.deleting && w.stored.value.status.resource.Some?
    && !TerminationRecorded(w.stored.value.status)
    && (w.stored.value.status.vmUuid.None? || ReportsStopped(runtime))
  }

  /** The marketplace is willing to accept the termination `id`, whether or not its reply arrives. */
  predicate OffersTermination(o: Replies, id: Uuid, first: OrderState) {
    o.terminate == Submitted(id, first) || o.terminate == NoUuid(Some((id, first)))
  }

  /** It is accepted if and only if it is due. */
  lemma TerminationExactly(cfg: Config, w: World, o: Replies, id: Uuid, first: OrderState)
    requires Inv(w) && OffersTermination(o, id, first) && id !in w.market.orders
    ensures id in OrdersOf(Pass(cfg, w, o).0.market, MACHINE_SLOT, Terminate) <==> MayEnd(w, o.runtime)
    ensures MayEnd(w, o.runtime) ==>
              Pass(cfg, w, o).0.market.orders[id] == Order(Terminate, w.stored.value.status.resource.value, [first], None)
  {
    if MayEnd(w, o.runtime) {
      assert id in Pass(cfg, w, o).0.market.orders;
    } else if id in OrdersOf(Pass(cfg, w, o).0.market, MACHINE_SLOT, Terminate) {
      assert id !in OrdersOf(w.market, MACHINE_SLOT, Terminate);
      TerminationFollowsShutoff(cfg, w, o, id);
    }
  }

  /** With its reply and a stored status the object then holds the record, and nothing else changed. */
  lemma TerminationIsStored(cfg: Config, w: World, o: Replies)
    requires Inv(w) && MayEnd(w, o.runtime) && o.terminate.Submitted? && o.terminate.id !in w.market.orders
    ensures var obj := w.stored.value;
            var rec := OrderRecord(o.terminate.id, Terminate, Pending("pending-provider"), obj.status.resource, None);
            && Pass(cfg, w, o).0.stored
               == Some(if o.statusWrite.Refused? then obj else obj.(status := obj.status.(order := Some(rec))))
            && Pass(cfg, w, o).1 == (if o.statusWrite == Applied then Requeue(15) else Failure)
  {}

  /** A VM that is not reported stopped is stopped first: the pass changes nothing and comes again. */
  lemma RunningVMWaits(cfg: Config, w: World, o: Replies)
    requires w.stored.Some? && w.stored.value.deleting && w.stored.value.status.resource.Some?
    requires !TerminationRecorded(w.stored.value.status)
    requires w.stored.value.status.vmUuid.Some? && !ReportsStopped(o.runtime)
    ensures Pass(cfg, w, o) == (w, if o.runtime.None? || o.stop.None? then Failure else Requeue(15))
  {}

  /** Step `i` of a run got termination `id` accepted, and rightly so. */
  ghost predicate EndedAt(cfg: Config, w: World, steps: seq<Step>, id: Uuid, i: nat) {
    && i < |steps| && steps[i].Reconcile?
    && var before := Run(cfg, w, steps[..i]);
       var after := Run(cfg, w, steps[..i + 1]);
       && id !in before.market.orders && id in after.market.orders && MayEnd(before, steps[i].o.runtime)
       && before.stored.value.status.resource == Some(after.market.orders[id].resource)
  }

  lemma TerminationsStay(w: World, market: Market, vault: VaultState)
    requires Inv(w) && Evolves(w.market, market)
    ensures OrdersOf(market, MACHINE_SLOT, Terminate) == OrdersOf(w.market, MACHINE_SLOT, Terminate)
  {
    forall id | id in w.market.mine ensures OrderGrows(w.market.orders[id], market.orders[id]) {}
  }

  lemma NewTermination(cfg: Config, w: World, s: Step, id: Uuid)
    requires Inv(w) && Legal(w, s)
    requires id in OrdersOf(Do(cfg, w, s).market, MACHINE_SLOT, Terminate)
    requires id !in OrdersOf(w.market, MACHINE_SLOT, Terminate)
    ensures s.Reconcile? && id !in w.market.orders && MayEnd(w, s.o.runtime)
    ensures w.stored.value.status.resource == Some(Do(cfg, w, s).market.orders[id].resource)
  {
    match s
    case Others(market, kv) => TerminationsStay(w, market, w.vault.(kv := kv));
    case DeleteRequest =>
    case Reconcile(o) =>
      TerminationFollowsShutoff(cfg, w, o, id);
      assert SlotOk(MachineSlot(w.stored.value.status), MACHINE_SLOT, w.market, w.recorded);
  }

  lemma StillEnded(cfg: Config, w: World, steps: seq<Step>, id: Uuid, i: nat)
    requires steps != [] && EndedAt(cfg, w, steps[..|steps| - 1], id, i)
    ensures EndedAt(cfg, w, steps, id, i)
  {
    var front := steps[..|steps| - 1];
    assert front[..i] == steps[..i] && front[..i + 1] == steps[..i + 1];
  }

  /** Over a run every termination was due when it was accepted: the VM was reported stopped in that
      very pass, or was never known. */
  lemma {:induction false} TerminationsFollowShutoff(cfg: Config, w: World, steps: seq<Step>, id: Uuid)
    requires Init(w) && LegalRun(cfg, w, steps)
    requires id in OrdersOf(Run(cfg, w, steps).market, MACHINE_SLOT, Terminate)
    ensures exists i :: EndedAt(cfg, w, steps, id, i)
  {
    if steps != [] {
      var n := |steps| - 1;
      var front := steps[..n];
      LegalPrefix(cfg, w, steps);
      RunInv(cfg, w, front);
      if id in OrdersOf(Run(cfg, w, front).market, MACHINE_SLOT, Terminate) {
        TerminationsFollowShutoff(cfg, w, front, id);
        var i :| EndedAt(cfg, w, front, id, i);
        StillEnded(cfg, w, steps, id, i);
      } else {
        NewTermination(cfg, Run(cfg, w, front), steps[n], id);
        assert steps[..n + 1] == steps;
        assert EndedAt(cfg, w, steps, id, n);
      }
    }
  }

  /** And as long as every pass is told that the VM runs, or is told nothing, the object stays as it
      is and no termination is sent. */
  lemma {:induction false} RunningVMIsKept(cfg: Config, w: World, steps: seq<Step>)
    requires Inv(w) && LegalRun(cfg, w, steps)
    requires w.stored.Some? && w.stored.value.deleting && w.stored.value.status.resource.Some?
    requires !TerminationRecorded(w.stored.value.status) && w.stored.value.status.vmUuid.Some?
    requires forall i :: 0 <= i < |steps| && steps[i].Reconcile? ==> !ReportsStopped(steps[i].o.runtime)
    ensures var end := Run(cfg, w, steps);
            && Inv(end) && end.stored == w.stored
            && OrdersOf(end.market, MACHINE_SLOT, Terminate) == OrdersOf(w.market, MACHINE_SLOT, Terminate)
  {
    if steps != [] {
      var front, s := steps[..|steps| - 1], steps[|steps| - 1];
      LegalPrefix(cfg, w, steps);
      RunningVMIsKept(cfg, w, front);
      var mid := Run(cfg, w, front);
      DoInv(cfg, mid, s);
      match s
      case Others(market, kv) => TerminationsStay(mid, market, mid.vault.(kv := kv));
      case DeleteRequest =>
      case Reconcile(o) => RunningVMWaits(cfg, mid, o);
    }
  }

  // ----- creations -----

  /** Vault returns a secret_id that can be used: not empty, and never returned before. */
  predicate IssuesSecret(v: VaultState, o: Replies) {
    o.secret.Some? && o.secret.value != "" && o.secret.value !in v.issued
  }

  /** Without Vault the bootstrap data goes out as it is. */
  predicate PlainPath(cfg: Config, named: bool, o: Replies) {
    !cfg.vault && named && o.bootstrap.Some?
  }

  /** The Rancher agent needs no bootstrap data, only a secret_id and a user data that assembles. */
  predicate RancherPath(cfg: Config, v: VaultState, o: Replies) {
    cfg.vault && o.config.RancherConfig? && IssuesSecret(v, o) && o.merged
  }

  /** The first node of an RKE2 cluster has to write the join token, acknowledged. */
  predicate FirstNodePath(cfg: Config, named: bool, v: VaultState, o: Replies) {
    && cfg.vault && o.config.Rke2Config? && o.config.path !in v.kv
    && named && o.bootstrap.Some? && o.bootstrap.value.Some? && o.existsRead
    && o.tokenWrite == Applied && IssuesSecret(v, o) && o.merged
  }

  /** Every further node finds it there. */
  predicate NextNodePath(cfg: Config, named: bool, v: VaultState, o: Replies) {
    && cfg.vault && o.config.Rke2Config? && o.config.path in v.kv
    && named && o.bootstrap.Some? && o.bootstrap.value.Some? && o.existsRead
    && IssuesSecret(v, o) && o.merged
  }

  /** The tenant of the offering is there, OK, and has a project and a uuid. */
  predicate TenantReady(tenants: map<string, Tenant>, offering: string) {
    && offering in tenants && tenants[offering].resourceState == ResourceOK
    && tenants[offering].project.Some? && tenants[offering].uuid.Some?
  }

  /** A live object with the finalizer and its owner, but without a resource. */
  predicate Unprovisioned(w: World, o: Replies) {
    && w.stored.Some? && !w.stored.value.deleting && w.stored.value.finalizer
    && w.stored.value.status.resource.None? && o.lookup.Found?
  }

  predicate MayCreate(cfg: Config, w: World, o: Replies) {
    && Unprovisioned(w, o)
    && (|| PlainPath(cfg, o.lookup.bootstrapNamed, o)
        || RancherPath(cfg, w.vault, o)
        || FirstNodePath(cfg, o.lookup.bootstrapNamed, w.vault, o)
        || NextNodePath(cfg, o.lookup.bootstrapNamed, w.vault, o))
    && TenantReady(o.lookup.tenants, cfg.offering) && o.payloadLookups
  }

  /** The marketplace is willing to accept create order `n`, whether or not its reply arrives. */
  predicate OffersCreation(o: Replies, n: NewOrder) {
    o.create == Dropped(Some(n)) || (o.create.Created? && o.create.order == n)
  }

  lemma OrdersVMExactly(cfg: Config, w: World, o: Replies)
    ensures OrdersVM(cfg, w, o) <==> MayCreate(cfg, w, o)
    ensures MayCreate(cfg, w, o) ==> UserDataOf(cfg, w, o).1 == Prepared(if cfg.vault then o.secret else None)
  {}

  /** What an accepted create order carries: the resource, and with Vault the secret_id. */
  lemma CreatedOrder(cfg: Config, w: World, o: Replies, n: NewOrder)
    requires Inv(w) && MayCreate(cfg, w, o) && OffersCreation(o, n) && n.id !in w.market.orders
    ensures var m := Pass(cfg, w, o).0.market;
            && n.id in m.mine && m.mine[n.id] == MACHINE_SLOT && n.id in m.orders
            && m.orders[n.id] == Order(Create, n.resource, [n.first], if cfg.vault then o.secret else None)
  {
    OrdersVMExactly(cfg, w, o);
    CreatingPassEnds(cfg, w, o);
  }

  /** A create order is accepted if and only if the gates of one of the paths are open, the tenant is
      ready and the lookups succeed. */
  lemma CreationExactly(cfg: Config, w: World, o: Replies, n: NewOrder)
    requires Inv(w) && OffersCreation(o, n) && n.id !in w.market.orders
    ensures n.id in OrdersOf(Pass(cfg, w, o).0.market, MACHINE_SLOT, Create) <==> MayCreate(cfg, w, o)
  {
    if MayCreate(cfg, w, o) {
      CreatedOrder(cfg, w, o, n);
    } else if n.id in OrdersOf(Pass(cfg, w, o).0.market, MACHINE_SLOT, Create) {
      OrdersVMExactly(cfg, w, o);
      PassAdds(cfg, w, o);
    }
  }

  /** With a 201 and a stored status the object then holds the resource, CREATING and the record. */
  lemma CreationIsStored(cfg: Config, w: World, o: Replies)
    requires Inv(w) && MayCreate(cfg, w, o) && o.create.Created? && o.create.order.id !in w.market.orders
    ensures var obj, n := w.stored.value, o.create.order;
            var status := obj.status.(
              order := Some(OrderRecord(n.id, Create, n.first, Some(n.resource), None)),
              resource := Some(n.resource), state := CoreCreating, ready := Some(Ready(false, Provisioning)));
            && Pass(cfg, w, o).0.stored == Some(if o.statusWrite.Refused? then obj else obj.(status := status))
            && Pass(cfg, w, o).1 == (if o.statusWrite == Applied then Requeue(15) else Failure)
  {
    OrdersVMExactly(cfg, w, o);
  }

  /** A creation that is turned down, unanswered or not due leaves at most the Ready condition. */
  lemma NoCreationChangesReadyOnly(cfg: Config, w: World, o: Replies)
    requires Inv(w) && Unprovisioned(w, o)
    requires !MayCreate(cfg, w, o) || !o.create.Created? || o.create.order.id in w.market.orders
    ensures var obj, obj' := w.stored.value, Pass(cfg, w, o).0.stored;
            obj' == Some(obj) || obj' == Some(obj.(status := obj.status.(ready := Some(Ready(false, Provisioning)))))
  {
    OrdersVMExactly(cfg, w, o);
  }

  /** What a pass does to the key-value store: it writes the join token exactly for a node that gets
      that far and finds the path absent, unless the write is refused. */
  lemma TokenWrittenExactly(cfg: Config, w: World, o: Replies)
    ensures Pass(cfg, w, o).0.vault.kv
         == if && Unprovisioned(w, o) && cfg.vault && o.config.Rke2Config? && o.lookup.bootstrapNamed
               && o.bootstrap.Some? && o.bootstrap.value.Some? && o.existsRead
               && o.config.path !in w.vault.kv && !o.tokenWrite.Refused?
            then w.vault.kv[o.config.path := o.bootstrap.value.value] else w.vault.kv
  {}
}
