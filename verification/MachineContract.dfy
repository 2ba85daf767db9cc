/** The Cluster API machine contract: when ProviderID, VmUuid and Provisioned are stored, and how
    fast they come to agree. */
module MachineContract {
  import opened Prelude
  import opened Waldur
  import opened ApiTypes
  import opened MachineSpec
  import opened MachineProofs

  function ProviderID(v: Uuid): string { "waldur://" + v }

  /** Instance queries report one fixed uuid, and never OK without it. */
  predicate Honest(o: Replies, v: Uuid) {
    o.instance.Some? ==>
      && (o.instance.value.uuid.None? || o.instance.value.uuid == Some(v))
      && (o.instance.value.state == Some(CoreOK) ==> o.instance.value.uuid.Some?)
  }

  ghost predicate HonestRun(steps: seq<Step>, v: Uuid) {
    forall i :: 0 <= i < |steps| && steps[i].Reconcile? ==> Honest(steps[i].o, v)
  }

  predicate ContractInv(w: World, v: Uuid) {
    w.stored.Some? ==>
      var obj := w.stored.value;
      && (obj.status.vmUuid.Some? ==> obj.status.vmUuid.value == v)
      && (obj.providerID.Some? ==> obj.providerID.value == ProviderID(v))
      && (obj.status.provisioned.Some? ==> obj.status.provisioned.value)
      && (obj.status.state == CoreOK || obj.status.provisioned.Some? ==> obj.status.vmUuid.Some?)
      && (!obj.deleting && (obj.status.state == CoreOK || obj.status.provisioned.Some?) ==> obj.providerID.Some?)
  }

  lemma RefreshContract(m: Market, status: MachineStatus, o: Replies, v: Uuid)
    requires Honest(o, v)
    requires status.vmUuid.Some? ==> status.vmUuid.value == v
    requires status.provisioned.Some? ==> status.provisioned.value
    requires status.state == CoreOK || status.provisioned.Some? ==> status.vmUuid.Some?
    ensures var s := RefreshVM(m, status, o).0;
            && (s.vmUuid.Some? ==> s.vmUuid.value == v)
            && (s.provisioned.Some? ==> s.provisioned.value)
            && (s.state == CoreOK || s.provisioned.Some? ==> s.vmUuid.Some?)
            && (s.provisioned.Some? ==> s.state == CoreOK || status.provisioned.Some?)
            && (status.provisioned.Some? ==> s.provisioned.Some?)
            && s.resource == status.resource
  {}

  /** ProviderID and Provisioned, once stored, stay as they are. */
  predicate KeepsContract(w: World, w': World) {
    w.stored.Some? && w'.stored.Some? ==>
      && (w.stored.value.providerID.Some? ==> w'.stored.value.providerID == w.stored.value.providerID)
      && (w.stored.value.status.provisioned == Some(true) ==> w'.stored.value.status.provisioned == Some(true))
  }

  lemma FinishPassContract(w: World, status: MachineStatus, o: Replies, v: Uuid)
    requires w.stored.Some? && !w.stored.value.deleting && ContractInv(w, v)
    requires status.vmUuid.Some? ==> status.vmUuid.value == v
    requires status.provisioned.Some? ==> status.provisioned.value
    requires status.state == CoreOK || status.provisioned.Some? ==> status.vmUuid.Some?
    requires status.provisioned.Some? ==> status.state == CoreOK || w.stored.value.status.provisioned.Some?
    requires w.stored.value.status.provisioned.Some? ==> status.provisioned.Some?
    ensures ContractInv(FinishPass(w, status, o).0, v) && KeepsContract(w, FinishPass(w, status, o).0)
  {}

  lemma CreateVMContract(cfg: Config, named: bool, tenants: map<string, Tenant>, m: Market, v: VaultState, status: MachineStatus, o: Replies)
    ensures var c := CreateVM(cfg, named, tenants, m, v, status, o);
            && c.status.vmUuid == status.vmUuid && c.status.provisioned == status.provisioned
            && (c.status.state == status.state || c.status.state == CoreCreating)
  {}

  lemma DeletePassContract(w: World, o: Replies, v: Uuid)
    requires Inv(w) && w.stored.Some? && w.stored.value.deleting && ContractInv(w, v) && Honest(o, v)
    ensures ContractInv(DeletePass(w, o).0, v) && KeepsContract(w, DeletePass(w, o).0)
  {
    var status := w.stored.value.status;
    if status.resource.Some? && TerminationInFlight(MachineSlot(status)) {
      RefreshContract(w.market, status, o, v);
      StoreContract(w, RefreshVM(w.market, status, o).0, o.statusWrite, v);
    } else if status.resource.Some? && !TerminationDone(MachineSlot(status)) && MayTerminate(status, o.runtime) {
      var (market, rec) := SubmitTermination(w.market, MACHINE_SLOT, status.resource.value, o.terminate);
      if rec.Some? {
        StoreContract(w.(market := market), status.(order := rec), o.statusWrite, v);
      }
    }
  }

  /** A status write while deleting. */
  lemma StoreContract(w: World, s: MachineStatus, reply: WriteReply, v: Uuid)
    requires w.stored.Some? && w.stored.value.deleting && ContractInv(w, v)
    requires s.vmUuid.Some? ==> s.vmUuid.value == v
    requires s.provisioned.Some? ==> s.provisioned.value
    requires s.state == CoreOK || s.provisioned.Some? ==> s.vmUuid.Some?
    requires w.stored.value.status.provisioned.Some? ==> s.provisioned.Some?
    ensures ContractInv(StoreStatus(w, s, reply), v) && KeepsContract(w, StoreStatus(w, s, reply))
  {}

  lemma PassContract(cfg: Config, w: World, o: Replies, v: Uuid)
    requires Inv(w) && ContractInv(w, v) && Honest(o, v)
    ensures ContractInv(Pass(cfg, w, o).0, v) && KeepsContract(w, Pass(cfg, w, o).0)
  {
    if w.stored.Some? {
      var obj := w.stored.value;
      if obj.deleting {
        DeletePassContract(w, o, v);
      } else if obj.finalizer && o.lookup.Found? {
        if obj.status.resource.None? {
          CreateVMContract(cfg, o.lookup.bootstrapNamed, o.lookup.tenants, w.market, w.vault, obj.status, o);
          var c := CreateVM(cfg, o.lookup.bootstrapNamed, o.lookup.tenants, w.market, w.vault, obj.status, o);
          FinishPassContract(w.(market := c.market, vault := c.vault), c.status, o, v);
        } else {
          RefreshContract(w.market, obj.status, o, v);
          FinishPassContract(w, RefreshVM(w.market, obj.status, o).0, o, v);
        }
      }
    }
  }

  lemma {:induction false} StepContract(cfg: Config, w: World, s: Step, v: Uuid)
    requires Inv(w) && ContractInv(w, v) && (s.Reconcile? ==> Honest(s.o, v))
    ensures ContractInv(Do(cfg, w, s), v) && KeepsContract(w, Do(cfg, w, s))
  {
    if s.Reconcile? {
      PassContract(cfg, w, s.o, v);
    }
  }

  /** In every reachable state of a live machine, Provisioned is stored only together with the
      VmUuid and the ProviderID made from it: the ProviderID is written first. */
  lemma {:induction false} ProvisionedImpliesProviderID(cfg: Config, w: World, steps: seq<Step>, v: Uuid)
    requires Init(w) && LegalRun(cfg, w, steps) && HonestRun(steps, v)
    ensures ContractInv(Run(cfg, w, steps), v)
    ensures var end := Run(cfg, w, steps);
            end.stored.Some? && !end.stored.value.deleting && end.stored.value.status.provisioned == Some(true) ==>
              end.stored.value.status.vmUuid == Some(v) && end.stored.value.providerID == Some(ProviderID(v))
  {
    if steps == [] {
    } else {
      var front := steps[..|steps| - 1];
      LegalPrefix(cfg, w, steps);
      ProvisionedImpliesProviderID(cfg, w, front, v);
      RunInv(cfg, w, front);
      StepContract(cfg, Run(cfg, w, front), steps[|steps| - 1], v);
    }
  }

  /** A live object announces its VM, by Provisioned or by the state OK, only with a ProviderID. */
  predicate Announced(w: World) {
    w.stored.Some? && !w.stored.value.deleting ==>
      (w.stored.value.status.provisioned == Some(true) || w.stored.value.status.state == CoreOK ==> w.stored.value.providerID.Some?)
  }

  predicate LiveAndRecorded(w: World) {
    w.stored.Some? && !w.stored.value.deleting && w.stored.value.finalizer && w.stored.value.status.resource.Some?
  }

  /** refreshVM gets as far as the instance. */
  predicate InstanceRead(status: MachineStatus, o: Replies) {
    && (status.order.Some? && !IsOrderTerminal(status.order.value.state) ==> o.order.Some?)
    && o.resource.Some? && o.resource.value.backend && o.instance.Some?
  }

  /** The pass learns that the instance is OK while neither it nor the store knows a uuid. */
  predicate UuidlessOK(w: World, s: Step) {
    && s.Reconcile? && LiveAndRecorded(w) && s.o.lookup.Found?
    && w.stored.value.providerID.None? && w.stored.value.status.vmUuid.None?
    && InstanceRead(w.stored.value.status, s.o) && s.o.instance.value == InstanceReply(Some(CoreOK), None)
    && !s.o.statusWrite.Refused?
  }

  lemma RefreshAnnounces(w: World, o: Replies)
    requires Inv(w) && Announced(w) && LiveAndRecorded(w) && w.stored.value.providerID.None? && o.lookup.Found?
    ensures var s := RefreshVM(w.market, w.stored.value.status, o).0;
            && (s.state == CoreOK && s.vmUuid.None? && !o.statusWrite.Refused? <==> UuidlessOK(w, Reconcile(o)))
            && (s.provisioned == Some(true) ==> s.state == CoreOK)
  {}

  lemma RefreshingPassAnnounces(cfg: Config, w: World, o: Replies)
    requires Inv(w) && Announced(w) && LiveAndRecorded(w) && o.lookup.Found?
    ensures Announced(Pass(cfg, w, o).0) <==> !UuidlessOK(w, Reconcile(o))
  {
    if w.stored.value.providerID.None? {
      RefreshAnnounces(w, o);
    }
  }

  lemma CreatingPassAnnounces(cfg: Config, w: World, o: Replies)
    requires Inv(w) && Creates(w, o)
    ensures Announced(Pass(cfg, w, o).0)
  {
    CreateVMContract(cfg, o.lookup.bootstrapNamed, o.lookup.tenants, w.market, w.vault, w.stored.value.status, o);
  }

  /** Without the honesty assumption the order of the writes protects the announcement in every step
      but one kind: a pass that reads OK with no uuid known. */
  lemma AnnouncedExactly(cfg: Config, w: World, s: Step)
    requires Inv(w) && Legal(w, s) && Announced(w)
    ensures Announced(Do(cfg, w, s)) <==> !UuidlessOK(w, s)
  {
    if s.Reconcile? && LiveAndRecorded(w) && s.o.lookup.Found? {
      RefreshingPassAnnounces(cfg, w, s.o);
    } else if s.Reconcile? && Creates(w, s.o) {
      CreatingPassAnnounces(cfg, w, s.o);
    }
  }

  lemma StateInv(cfg: Config, w: World, steps: seq<Step>, i: nat)
    requires Init(w) && LegalRun(cfg, w, steps) && i < |steps|
    ensures Inv(Run(cfg, w, steps[..i])) && Legal(Run(cfg, w, steps[..i]), steps[i])
    ensures Run(cfg, w, steps[..i + 1]) == Do(cfg, Run(cfg, w, steps[..i]), steps[i])
  {
    var prefix := steps[..i];
    forall k | 0 <= k < i ensures Legal(Run(cfg, w, prefix[..k]), prefix[k]) {
      assert prefix[..k] == steps[..k];
    }
    RunInv(cfg, w, prefix);
    assert steps[..i + 1][..i] == prefix;
  }

  lemma {:induction false} AnnouncedUpTo(cfg: Config, w: World, steps: seq<Step>, i: nat)
    requires Init(w) && LegalRun(cfg, w, steps) && i <= |steps|
    requires forall k :: 0 <= k < i ==> !UuidlessOK(Run(cfg, w, steps[..k]), steps[k])
    ensures Announced(Run(cfg, w, steps[..i]))
  {
    if i > 0 {
      AnnouncedUpTo(cfg, w, steps, i - 1);
      StateInv(cfg, w, steps, i - 1);
      AnnouncedExactly(cfg, Run(cfg, w, steps[..i - 1]), steps[i - 1]);
    }
  }

  /** Over a whole run: every state keeps the announcement if and only if no pass reads OK with no
      uuid known. */
  lemma {:induction false} AnnouncedOverRuns(cfg: Config, w: World, steps: seq<Step>)
    requires Init(w) && LegalRun(cfg, w, steps)
    ensures (forall i :: 0 <= i <= |steps| ==> Announced(Run(cfg, w, steps[..i])))
            <==> (forall i :: 0 <= i < |steps| ==> !UuidlessOK(Run(cfg, w, steps[..i]), steps[i]))
  {
    if forall i :: 0 <= i < |steps| ==> !UuidlessOK(Run(cfg, w, steps[..i]), steps[i]) {
      forall i | 0 <= i <= |steps| ensures Announced(Run(cfg, w, steps[..i])) {
        AnnouncedUpTo(cfg, w, steps, i);
      }
    } else {
      var i :| 0 <= i < |steps| && UuidlessOK(Run(cfg, w, steps[..i]), steps[i]);
      StateInv(cfg, w, steps, i);
      if Announced(Run(cfg, w, steps[..i])) {
        AnnouncedExactly(cfg, Run(cfg, w, steps[..i]), steps[i]);
      }
      assert !Announced(Run(cfg, w, steps[..i])) || !Announced(Run(cfg, w, steps[..i + 1]));
    }
  }

  /** The failing side is not empty: an instance that reports OK without its uuid. */
  lemma UuidlessOKIsAnnounced(cfg: Config, w: World, o: Replies)
    requires Inv(w) && LiveAndRecorded(w) && o.lookup.Found?
    requires w.stored.value.status.vmUuid.None? && w.stored.value.providerID.None?
    requires o.order == Some(None) && o.resource == Some(ResourceReply(Some(ResourceOK), true))
    requires o.instance == Some(InstanceReply(Some(CoreOK), None)) && o.statusWrite == Applied
    ensures var obj := Pass(cfg, w, o).0.stored.value;
            obj.status.provisioned == Some(true) && obj.providerID.None?
  {}

  // ----- convergence -----

  /** The marketplace stably reports the instance OK with uuid `v`, and this pass meets no error. */
  predicate Stable(o: Replies, v: Uuid) {
    && o.lookup.Found? && o.order.Some?
    && o.resource.Some? && o.resource.value.backend
    && o.instance == Some(InstanceReply(Some(CoreOK), Some(v)))
    && o.specWrite.Applied? && o.statusWrite.Applied?
  }

  predicate Settled(w: World, v: Uuid) {
    && w.stored.Some? && !w.stored.value.deleting && w.stored.value.finalizer
    && w.stored.value.providerID == Some(ProviderID(v))
    && w.stored.value.status.resource.Some?
    && w.stored.value.status.state == CoreOK
    && w.stored.value.status.vmUuid == Some(v)
    && w.stored.value.status.provisioned == Some(true)
    && w.stored.value.status.ready == Some(Ready(true, Provisioned))
  }

  lemma FirstStablePass(cfg: Config, w: World, o: Replies, v: Uuid)
    requires Inv(w) && ContractInv(w, v) && LiveAndRecorded(w) && Stable(o, v)
    ensures var w' := Pass(cfg, w, o).0;
            && LiveAndRecorded(w') && ContractInv(w', v) && w'.stored.value.providerID == Some(ProviderID(v))
            && (w.stored.value.providerID.Some? ==> Settled(w', v))
  {
    PassContract(cfg, w, o, v);
  }

  /** Two error-free passes suffice, with any step of others in between: the first may spend itself
      on the ProviderID, whose write does not carry the status. */
  lemma {:induction false} TwoPassesSettle(cfg: Config, w: World, o1: Replies, between: Step, o2: Replies, v: Uuid)
    requires Inv(w) && ContractInv(w, v) && LiveAndRecorded(w) && Stable(o1, v) && Stable(o2, v)
    requires between.Others? && Legal(Pass(cfg, w, o1).0, between)
    ensures Settled(Pass(cfg, Do(cfg, Pass(cfg, w, o1).0, between), o2).0, v)
  {
    var w1 := Pass(cfg, w, o1).0;
    PassInv(cfg, w, o1);
    FirstStablePass(cfg, w, o1, v);
    DoInv(cfg, w1, between);
    FirstStablePass(cfg, Do(cfg, w1, between), o2, v);
  }

  /** So from any reachable recorded state of a live machine the next two error-free passes end in
      agreement: OK, VmUuid, ProviderID, Provisioned and Ready all stored. */
  lemma {:induction false} ReachableSettles(cfg: Config, w: World, steps: seq<Step>, o1: Replies, between: Step, o2: Replies, v: Uuid)
    requires Init(w) && LegalRun(cfg, w, steps) && HonestRun(steps, v) && LiveAndRecorded(Run(cfg, w, steps))
    requires Stable(o1, v) && Stable(o2, v)
    requires between.Others? && Legal(Pass(cfg, Run(cfg, w, steps), o1).0, between)
    ensures Settled(Pass(cfg, Do(cfg, Pass(cfg, Run(cfg, w, steps), o1).0, between), o2).0, v)
  {
    RunInv(cfg, w, steps);
    ProvisionedImpliesProviderID(cfg, w, steps, v);
    TwoPassesSettle(cfg, Run(cfg, w, steps), o1, between, o2, v);
  }

  /** One pass is not enough from a state without ProviderID. */
  lemma OnePassDoesNotSettle(cfg: Config, w: World, o: Replies, v: Uuid)
    requires Inv(w) && ContractInv(w, v) && LiveAndRecorded(w) && Stable(o, v) && w.stored.value.providerID.None?
    ensures !Settled(Pass(cfg, w, o).0, v)
  {}

  /** A settled machine whose order record is terminal is a fixed point: further passes change
      nothing at all and come back only every five minutes. */
  lemma SettledIsFixed(cfg: Config, w: World, o: Replies, v: Uuid)
    requires Inv(w) && Settled(w, v) && Stable(o, v)
    requires IsOrderTerminal(w.stored.value.status.order.value.state)
    requires WithResourceState(w.stored.value.status.resourceState, o.resource.value) == w.stored.value.status.resourceState
    ensures Pass(cfg, w, o) == (w, Requeue(300))
  {
    StoredIsRecorded(w);
  }
}
