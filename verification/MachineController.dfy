/** The WaldurMachine controller as a program over stored objects: each method does what the Go
    function of the same name does, step by step, and is proved equal to its function in
    MachineSpec. */
module MachineController {
  import opened Prelude
  import opened Waldur
  import opened ApiTypes
  import opened MachineSpec
  import opened Clients

  /** The object in memory while a pass runs. */
  class WaldurMachine {
    var deleting: bool
    var finalizer: bool
    var providerID: Option<string>
    var status: MachineStatus

    constructor (obj: MachineObject)
      ensures Object() == obj
    {
      deleting, finalizer, providerID, status := obj.deleting, obj.finalizer, obj.providerID, obj.status;
    }

    ghost function Object(): MachineObject
      reads this
    {
      MachineObject(deleting, finalizer, providerID, status)
    }
  }

  /** A merge patch of the status, field by field: what differs from the snapshot is written, the
      rest keeps its stored value. */
  function MergeStatus(base: MachineStatus, memory: MachineStatus, stored: MachineStatus): MachineStatus {
    MachineStatus(
      if memory.ready != base.ready then memory.ready else stored.ready,
      if memory.provisioned != base.provisioned then memory.provisioned else stored.provisioned,
      if memory.vmUuid != base.vmUuid then memory.vmUuid else stored.vmUuid,
      if memory.state != base.state then memory.state else stored.state,
      if memory.resource != base.resource then memory.resource else stored.resource,
      if memory.resourceState != base.resourceState then memory.resourceState else stored.resourceState,
      if memory.order != base.order then memory.order else stored.order)
  }

  class ApiServer {
    var machine: Option<MachineObject>
    ghost var recorded: set<Uuid>

    method Get() returns (m: WaldurMachine?)
      ensures m == null <==> machine.None?
      ensures m != null ==> fresh(m) && m.Object() == machine.value
    {
      if machine.None? {
        return null;
      }
      m := new WaldurMachine(machine.value);
    }

    /** Update of the main resource; the status is ignored, and an object being deleted goes away
        with its last finalizer. */
    method Update(m: WaldurMachine, reply: WriteReply) returns (ok: bool)
      requires machine.Some? && m.deleting == machine.value.deleting
      modifies this
      ensures recorded == old(recorded)
      ensures machine == if reply.Refused? then old(machine)
                         else if m.deleting && !m.finalizer then None
                         else Some(old(machine).value.(finalizer := m.finalizer, providerID := m.providerID))
      ensures ok == reply.Applied?
    {
      if !reply.Refused? {
        if m.deleting && !m.finalizer {
          machine := None;
        } else {
          machine := Some(machine.value.(finalizer := m.finalizer, providerID := m.providerID));
        }
      }
      ok := reply.Applied?;
    }

    /** Patch of the main resource. Only the ProviderID is stored; the reply overwrites the status
        in memory with the stored one. */
    method Patch(m: WaldurMachine, reply: WriteReply) returns (ok: bool)
      requires machine.Some?
      modifies this, m`status
      ensures recorded == old(recorded)
      ensures machine == if reply.Refused? then old(machine)
                         else Some(old(machine).value.(providerID := m.providerID))
      ensures ok == reply.Applied?
      ensures m.status == if ok then old(machine).value.status else old(m.status)
    {
      if !reply.Refused? {
        machine := Some(machine.value.(providerID := m.providerID));
      }
      ok := reply.Applied?;
      if ok {
        m.status := machine.value.status;
      }
    }

    /** Patch of the status subresource against the snapshot `base`. */
    method StatusPatch(base: MachineStatus, m: WaldurMachine, reply: WriteReply) returns (ok: bool)
      requires machine.Some?
      modifies this
      ensures machine == if reply.Refused? then old(machine)
                         else Some(old(machine).value.(status := MergeStatus(base, m.status, old(machine).value.status)))
      ensures recorded == if reply.Refused? then old(recorded) else old(recorded) + RecordedIn(machine.value.status)
      ensures ok == reply.Applied?
    {
      if !reply.Refused? {
        machine := Some(machine.value.(status := MergeStatus(base, m.status, machine.value.status)));
        recorded := recorded + RecordedIn(machine.value.status);
      }
      ok := reply.Applied?;
    }
  }

  class MachineReconciler {
    const cfg: Config
    const api: ApiServer
    const waldur: WaldurClient
    const vault: VaultClient

    constructor (cfg: Config, api: ApiServer, waldur: WaldurClient, vault: VaultClient)
      ensures this.cfg == cfg && this.api == api && this.waldur == waldur && this.vault == vault
    {
      this.cfg, this.api, this.waldur, this.vault := cfg, api, waldur, vault;
    }

    ghost function View(): World
      reads api, waldur, vault
    {
      World(api.machine, api.recorded, waldur.View(), vault.State())
    }

    method Reconcile(o: Replies) returns (outcome: Outcome)
      modifies api, waldur, vault
      ensures (View(), outcome) == Pass(cfg, old(View()), o)
    {
      var m := api.Get();
      if m == null {
        return Idle;
      }
      if m.deleting {
        outcome := ReconcileDelete(m, o);
        return;
      }
      if !m.finalizer {
        m.finalizer := true;
        var ok := api.Update(m, o.finalizerWrite);
        return if ok then Idle else Failure;
      }
      if o.lookup.Waiting? {
        return Idle;
      }
      if o.lookup.Unreachable? {
        return Failure;
      }

      var base := m.status;
      if m.status.resource.None? {
        var error := CreateVM(m, o.lookup.bootstrapNamed, o.lookup.tenants, o);
        if error.BootstrapNotReady? {
          return Requeue(10);
        }
      } else {
        var complete := RefreshVM(m, o);
      }
      outcome := FinishReconcile(m, base, o);
    }

    /** The end of a live pass: ProviderID, condition and status write. */
    method FinishReconcile(m: WaldurMachine, snapshot: MachineStatus, o: Replies) returns (outcome: Outcome)
      requires api.machine.Some? && !m.deleting && m.finalizer && api.machine.value.finalizer && !api.machine.value.deleting
      requires m.providerID == api.machine.value.providerID && snapshot == api.machine.value.status
      modifies api, m
      ensures (View(), outcome) == FinishPass(old(View()), old(m.status), o)
    {
      var base := snapshot;
      if m.status.state == CoreOK && m.providerID.None? && m.status.vmUuid.Some? {
        m.providerID := Some("waldur://" + m.status.vmUuid.value);
        var patched := api.Patch(m, o.specWrite);
        if !patched {
          return Failure;
        }
        base := m.status;
      }

      SetReadyCondition(m);
      var stored := api.StatusPatch(base, m, o.statusWrite);
      if !stored {
        return Failure;
      }
      return if m.status.state == CoreOK then Requeue(300) else Requeue(15);
    }

    method SetReadyCondition(m: WaldurMachine)
      modifies m
      ensures m.status == WithReady(old(m.status))
      ensures m.deleting == old(m.deleting) && m.finalizer == old(m.finalizer) && m.providerID == old(m.providerID)
    {
      match m.status.state {
        case CoreOK => m.status := m.status.(ready := Some(Ready(true, Provisioned)));
        case CoreErred => m.status := m.status.(ready := Some(Ready(false, ProvisioningFailed)));
        case _ => m.status := m.status.(ready := Some(Ready(false, Provisioning)));
      }
    }

    method CreateVM(m: WaldurMachine, bootstrapNamed: bool, tenants: map<string, Tenant>, o: Replies) returns (error: CreateError)
      modifies m`status, waldur, vault
      ensures CreateResult(waldur.View(), vault.State(), m.status, error)
           == MachineSpec.CreateVM(cfg, bootstrapNamed, tenants, old(waldur.View()), old(vault.State()), old(m.status), o)
    {
      var userData := PrepareUserData(bootstrapNamed, o);
      if userData.NotReady? {
        return BootstrapNotReady;
      }
      if userData.Unavailable? {
        return CreateFailed;
      }
      var payload := BuildOrderPayload(tenants, o);
      if !payload {
        return CreateFailed;
      }
      var response := waldur.OrdersCreate(MACHINE_SLOT, userData.secret, o.create);
      if response.TransportError? {
        return CreateFailed;
      }
      if response.BadStatus? {
        if userData.secret.Some? {
          vault.RevokeSecretID(userData.secret.value);
        }
        return CreateFailed;
      }
      var order := response.order;
      m.status := m.status.(order := Some(OrderRecord(order.id, Create, order.first, Some(order.resource), None)));
      m.status := m.status.(resource := Some(order.resource));
      m.status := m.status.(state := CoreCreating);
      return Success;
    }

    /** The readiness checks and lookups of buildOrderPayload; false is an error. */
    method BuildOrderPayload(tenants: map<string, Tenant>, o: Replies) returns (ok: bool)
      ensures ok <==> Placement(tenants, cfg.offering).Some? && o.payloadLookups
    {
      if cfg.offering !in tenants {
        return false;
      }
      var tenant := tenants[cfg.offering];
      if tenant.resourceState != ResourceOK {
        return false;
      }
      if tenant.project.None? {
        return false;
      }
      if tenant.uuid.None? {
        return false;
      }
      return o.payloadLookups;
    }

    method PrepareUserData(bootstrapNamed: bool, o: Replies) returns (userData: UserData)
      modifies vault
      ensures (vault.State(), userData) == BuildUserData(cfg, bootstrapNamed, old(vault.State()), o)
    {
      if cfg.vault {
        match o.config {
          case ConfigMissing =>
            return Unavailable;
          case RancherConfig =>
            userData := GenerateAndMerge(o);
          case Rke2Config(path) =>
            if !bootstrapNamed {
              return NotReady;
            }
            if o.bootstrap.None? {
              return Unavailable;
            }
            userData := BuildUserDataWithVault(path, o.bootstrap.value, o);
        }
      } else {
        if !bootstrapNamed {
          return NotReady;
        }
        return if o.bootstrap.None? then Unavailable else Prepared(None);
      }
    }

    method BuildUserDataWithVault(path: string, token: Option<string>, o: Replies) returns (userData: UserData)
      modifies vault
      ensures (vault.State(), userData) == Rke2UserData(old(vault.State()), path, token, o)
    {
      if token.None? {
        return Unavailable;
      }
      var present := vault.SecretExists(path, o.existsRead);
      if present.None? {
        return Unavailable;
      }
      if !present.value {
        var written := vault.WriteSecret(path, token.value, o.tokenWrite);
        if !written {
          return Unavailable;
        }
      }
      userData := GenerateAndMerge(o);
    }

    /** The end both user-data paths share: a secret_id, the merged cloud-init, and revocation when
        merging fails. */
    method GenerateAndMerge(o: Replies) returns (userData: UserData)
      modifies vault
      ensures (vault.State(), userData) == EmbedSecret(old(vault.State()), o)
    {
      var secret := vault.GenerateSecretID(o.secret);
      if secret.None? {
        return Unavailable;
      }
      if !o.merged {
        vault.RevokeSecretID(secret.value);
        return Unavailable;
      }
      return Prepared(secret);
    }

    /** Updates the status in place, call by call; `complete` is false when a call failed. */
    method RefreshVM(m: WaldurMachine, o: Replies) returns (complete: bool)
      modifies m`status
      ensures (m.status, complete) == MachineSpec.RefreshVM(waldur.View(), old(m.status), o)
    {
      if m.status.order.Some? && !IsOrderTerminal(m.status.order.value.state) {
        var rec := waldur.Refresh(m.status.order.value, o.order);
        if rec.None? {
          return false;
        }
        m.status := m.status.(order := rec);
      }
      if o.resource.None? {
        return false;
      }
      var resource := o.resource.value;
      if resource.state.Some? {
        m.status := m.status.(resourceState := resource.state.value);
      }
      if !resource.backend {
        return true;
      }
      if o.instance.None? {
        return false;
      }
      var instance := o.instance.value;
      if instance.state.Some? {
        m.status := m.status.(state := instance.state.value);
      }
      if instance.uuid.Some? {
        m.status := m.status.(vmUuid := instance.uuid);
      }
      if m.status.state == CoreOK {
        m.status := m.status.(provisioned := Some(true));
      }
      return true;
    }

    method DropFinalizer(m: WaldurMachine, o: Replies) returns (outcome: Outcome)
      requires api.machine.Some? && api.machine.value.deleting && m.deleting
      modifies api, m`finalizer
      ensures View() == RemoveFinalizer(old(View()), o.finalizerWrite)
      ensures outcome == if o.finalizerWrite.Applied? then Idle else Failure
    {
      m.finalizer := false;
      var ok := api.Update(m, o.finalizerWrite);
      return if ok then Idle else Failure;
    }

    method ReconcileDelete(m: WaldurMachine, o: Replies) returns (outcome: Outcome)
      requires api.machine == Some(m.Object()) && m.deleting
      modifies api, waldur, m
      ensures (View(), outcome) == DeletePass(old(View()), o)
    {
      if m.status.resource.None? {
        outcome := DropFinalizer(m, o);
        return;
      }
      var base := m.status;
      if m.status.order.Some? && m.status.order.value.kind == Terminate {
        if !IsOrderTerminal(m.status.order.value.state) {
          var complete := RefreshVM(m, o);
          var polled := api.StatusPatch(base, m, o.statusWrite);
          return if polled then Requeue(15) else Failure;
        }
        if m.status.order.value.state == Done {
          outcome := DropFinalizer(m, o);
          return;
        }
      }
      if m.status.vmUuid.Some? {
        if o.runtime.None? {
          return Failure;
        }
        if o.runtime.value.Some? && o.runtime.value.value != "SHUTOFF" && o.runtime.value.value != "ERROR" {
          return if o.stop.None? then Failure else Requeue(15);
        }
      }
      var order := waldur.SubmitTerminationOrder(MACHINE_SLOT, m.status.resource.value, o.terminate);
      if order.None? {
        return Requeue(15);
      }
      m.status := m.status.(order := order);
      var stored := api.StatusPatch(base, m, o.statusWrite);
      return if stored then Requeue(15) else Failure;
    }
  }
}
