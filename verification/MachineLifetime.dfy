/** One whole life of a WaldurMachine on the RKE2 path, from a fresh object over a settled one to its
    removal: the gates of creations and terminations can all be open, and what the theorems about runs
    are about does happen. */
module MachineLifetime {
  import opened Prelude
  import opened Waldur
  import opened ApiTypes
  import opened MachineSpec
  import opened MachineContract

  const CFG := Config("offering", true)
  const TENANT := Tenant(CoreOK, Some("backend"), "tenant", Some("resource"), ResourceOK, Some("project"), None)
  const VM := NewOrder("order", "vm", Pending("executing"))

  /** Every call answered, for the first node of a cluster. */
  const ANSWERS := Replies(
    Applied, Found(true, map["offering" := TENANT]), Rke2Config("path"), Some(Some("token")), true, Applied, Some("secret"), true, true,
    Created(VM, None, "vm"), Some(None), Some(ResourceReply(Some(ResourceOK), true)), Some(InstanceReply(Some(CoreOK), Some("uuid"))),
    Applied, Applied, None, None, NoUuid(None))

  const NOTHING := Market(map[], map[], {})
  const ORDER := Order(Create, "vm", [Pending("executing")], Some("secret"))
  const FINISHED := Order(Create, "vm", [Pending("executing"), Done], Some("secret"))
  const ORDERED := Market(map["order" := ORDER], map["order" := MACHINE_SLOT], {})
  const DELIVERED := Market(map["order" := FINISHED], map["order" := MACHINE_SLOT], {})

  const TERMINATION := Order(Terminate, "vm", [PENDING_PROVIDER], None)
  const TERMINATED := Order(Terminate, "vm", [PENDING_PROVIDER, Done], None)
  const ENDING := Market(map["order" := FINISHED, "end" := TERMINATION], map["order" := MACHINE_SLOT, "end" := MACHINE_SLOT], {})
  const ENDED := Market(map["order" := FINISHED, "end" := TERMINATED], map["order" := MACHINE_SLOT, "end" := MACHINE_SLOT], {})

  const VAULT := VaultState(map["path" := "token"], {"secret"}, {})

  const RECORD := OrderRecord("order", Create, Pending("executing"), Some("vm"), None)
  const CREATING := BLANK_MACHINE_STATUS.(order := Some(RECORD), resource := Some("vm"), state := CoreCreating,
                                          ready := Some(Ready(false, Provisioning)))
  const RUNNING := MachineStatus(Some(Ready(true, Provisioned)), Some(true), Some("uuid"), CoreOK, Some("vm"), ResourceOK,
                                 Some(RECORD.(state := Done)))

  const LAST_RECORD := OrderRecord("end", Terminate, PENDING_PROVIDER, Some("vm"), None)

  const FRESH := World(Some(MachineObject(false, false, None, BLANK_MACHINE_STATUS)), {}, NOTHING, VaultState(map[], {}, {}))

  /** The VM still runs, and is stopped; then it is off, and the termination is accepted. */
  const STOPPING := ANSWERS.(runtime := Some(Some("ACTIVE")), stop := Some(202))
  const TERMINATING := ANSWERS.(runtime := Some(Some("SHUTOFF")), terminate := Submitted("end", PENDING_PROVIDER))

  /** Finalizer, creation, the order finishes, ProviderID, status; deletion, stop, termination, the
      order finishes, poll, finalizer. */
  const STEPS := [
    Reconcile(ANSWERS), Reconcile(ANSWERS), Others(DELIVERED, VAULT.kv), Reconcile(ANSWERS), Reconcile(ANSWERS),
    DeleteRequest, Reconcile(STOPPING), Reconcile(TERMINATING), Others(ENDED, VAULT.kv), Reconcile(ANSWERS), Reconcile(ANSWERS)]

  function Running(deleting: bool, status: MachineStatus): Option<MachineObject> {
    Some(MachineObject(deleting, true, Some("waldur://uuid"), status))
  }

  function At(i: nat): World {
    match i
    case 0 => FRESH
    case 1 => FRESH.(stored := Some(MachineObject(false, true, None, BLANK_MACHINE_STATUS)))
    case 2 => World(Some(MachineObject(false, true, None, CREATING)), {"order"}, ORDERED, VAULT)
    case 3 => World(Some(MachineObject(false, true, None, CREATING)), {"order"}, DELIVERED, VAULT)
    case 4 => World(Running(false, CREATING), {"order"}, DELIVERED, VAULT)
    case 5 => World(Running(false, RUNNING), {"order"}, DELIVERED, VAULT)
    case 6 => World(Running(true, RUNNING), {"order"}, DELIVERED, VAULT)
    case 7 => At(6)
    case 8 => World(Running(true, RUNNING.(order := Some(LAST_RECORD))), {"order", "end"}, ENDING, VAULT)
    case 9 => World(Running(true, RUNNING.(order := Some(LAST_RECORD))), {"order", "end"}, ENDED, VAULT)
    case 10 => World(Running(true, RUNNING.(order := Some(LAST_RECORD.(state := Done)))), {"order", "end"}, ENDED, VAULT)
    case _ => World(None, {"order", "end"}, ENDED, VAULT)
  }

  lemma CreatingStep()
    ensures Pass(CFG, At(1), ANSWERS).0 == At(2)
  {
    assert AcceptCreate(NOTHING, MACHINE_SLOT, VM, Some("secret")) == ORDERED;
    assert VaultState(map[]["path" := "token"], {} + {"secret"}, {}) == VAULT;
    assert {} + RecordedIn(CREATING) == {"order"};
  }

  lemma DeliveryStep()
    ensures Evolves(ORDERED, DELIVERED)
  {
    assert ORDER.log <= FINISHED.log;
    assert OrderGrows(ORDER, FINISHED);
  }

  lemma ProviderIDStep()
    ensures Pass(CFG, At(3), ANSWERS).0 == At(4)
  {
    assert "waldur://" + "uuid" == "waldur://uuid";
    assert {"order"} + RecordedIn(CREATING) == {"order"};
  }

  lemma SettlingStep()
    ensures Pass(CFG, At(4), ANSWERS) == (At(5), Requeue(300))
  {
    assert {"order"} + RecordedIn(RUNNING) == {"order"};
  }

  lemma StoppingStep()
    ensures Pass(CFG, At(6), STOPPING) == (At(7), Requeue(15))
  {
    assert "ACTIVE"[0] == 'A' && "SHUTOFF"[0] == 'S' && "ERROR"[0] == 'E';
  }

  lemma TerminatingStep()
    ensures Pass(CFG, At(7), TERMINATING).0 == At(8)
  {
    assert AcceptTerminate(DELIVERED, MACHINE_SLOT, "vm", "end", PENDING_PROVIDER) == ENDING;
    assert {"order"} + RecordedIn(RUNNING.(order := Some(LAST_RECORD))) == {"order", "end"};
  }

  lemma EndStep()
    ensures Evolves(ENDING, ENDED)
  {
    assert TERMINATION.log <= TERMINATED.log;
    assert OrderGrows(TERMINATION, TERMINATED);
  }

  lemma PollingStep()
    ensures Pass(CFG, At(9), ANSWERS).0 == At(10)
  {
    assert {"order", "end"} + RecordedIn(RUNNING.(order := Some(LAST_RECORD))) == {"order", "end"};
  }

  lemma StepLeads(i: nat)
    requires i < |STEPS|
    ensures Legal(At(i), STEPS[i]) && Do(CFG, At(i), STEPS[i]) == At(i + 1)
  {
    if i < 5 {
      CreationLeads(i);
    } else {
      DeletionLeads(i);
    }
  }

  lemma CreationLeads(i: nat)
    requires i < 5
    ensures Legal(At(i), STEPS[i]) && Do(CFG, At(i), STEPS[i]) == At(i + 1)
  {
    match i
    case 0 =>
    case 1 => CreatingStep();
    case 2 => DeliveryStep();
    case 3 => ProviderIDStep();
    case 4 => SettlingStep();
  }

  lemma DeletionLeads(i: nat)
    requires 5 <= i < |STEPS|
    ensures Legal(At(i), STEPS[i]) && Do(CFG, At(i), STEPS[i]) == At(i + 1)
  {
    match i
    case 5 =>
    case 6 => StoppingStep();
    case 7 => TerminatingStep();
    case 8 => EndStep();
    case 9 => PollingStep();
    case 10 =>
  }

  lemma {:induction false} RunLeads(i: nat)
    requires i <= |STEPS|
    ensures Run(CFG, FRESH, STEPS[..i]) == At(i)
  {
    if i > 0 {
      RunLeads(i - 1);
      StepLeads(i - 1);
      assert STEPS[..i][..i - 1] == STEPS[..i - 1];
    }
  }

  lemma RunIsLegal()
    ensures LegalRun(CFG, FRESH, STEPS)
  {
    forall i | 0 <= i < |STEPS| ensures Legal(Run(CFG, FRESH, STEPS[..i]), STEPS[i]) {
      RunLeads(i);
      StepLeads(i);
    }
  }

  lemma Settles()
    ensures Settled(At(5), "uuid")
    ensures At(5).stored.value.status.order == Some(OrderRecord("order", Create, Done, Some("vm"), None))
    ensures At(5).market.orders == map["order" := Order(Create, "vm", [Pending("executing"), Done], Some("secret"))]
    ensures At(5).vault.kv == map["path" := "token"]
  {
    assert ProviderID("uuid") == "waldur://uuid";
  }

  /** The run is legal and comes by a settled state, with the order done, carrying the secret_id, and
      the join token in Vault. */
  lemma {:induction false} ProvisioningReachable()
    ensures Init(FRESH) && LegalRun(CFG, FRESH, STEPS)
    ensures var mid := Run(CFG, FRESH, STEPS[..5]);
            && Settled(mid, "uuid") && mid.stored.value.status.order == Some(OrderRecord("order", Create, Done, Some("vm"), None))
            && mid.market.orders == map["order" := Order(Create, "vm", [Pending("executing"), Done], Some("secret"))]
            && mid.vault.kv == map["path" := "token"]
  {
    RunIsLegal();
    RunLeads(5);
    Settles();
  }

  /** It ends with the object gone and the VM terminated, by an order sent after the VM was stopped. */
  lemma {:induction false} RemovalReachable()
    ensures Run(CFG, FRESH, STEPS[..7]).market == Run(CFG, FRESH, STEPS[..5]).market
    ensures Run(CFG, FRESH, STEPS).stored.None?
    ensures OrdersOf(Run(CFG, FRESH, STEPS).market, MACHINE_SLOT, Terminate) == {"end"}
    ensures Released("vm", Run(CFG, FRESH, STEPS).market)
  {
    RunLeads(5);
    RunLeads(7);
    RunLeads(|STEPS|);
    assert STEPS[..|STEPS|] == STEPS;
    assert TerminatedBy("end", "vm", ENDED);
  }
}
