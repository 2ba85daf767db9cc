/** One pass of the WaldurMachine controller as a function of the stored object, the marketplace,
    Vault and the replies the pass receives (internal/controller/waldurmachine_controller.go).
    The methods in MachineController.dfy are proved equal to these functions; the theorems about
    whole runs are in MachineProofs.dfy. */
module MachineSpec {
  import opened Prelude
  import opened Waldur
  import opened ApiTypes

  const MACHINE_SLOT := "vm"

  /** `offering` is the machine's offering slug; `vault` says whether a Vault client is configured. */
  datatype Config = Config(offering: string, vault: bool)

  /** The key-value store and, as a ledger, the secret_ids returned to this controller and those it
      has tried to revoke. */
  datatype VaultState = VaultState(kv: map<string, string>, issued: set<string>, revoked: set<string>)

  /** `recorded` is a ledger: every order uuid that has reached the stored status. */
  datatype World = World(stored: Option<MachineObject>, recorded: set<Uuid>, market: Market, vault: VaultState)

  /** Finding the owner Machine, its Cluster and the WaldurCluster: the reference or label is not
      there yet, a read failed, or all were found. */
  datatype OwnerLookup =
    | Waiting
    | Unreachable
    | Found(bootstrapNamed: bool, tenants: map<string, Tenant>)

  datatype ConfigReply = ConfigMissing | RancherConfig | Rke2Config(path: string)

  /** State and uuid the instance query reported, each possibly absent. */
  datatype InstanceReply = InstanceReply(state: Option<CoreState>, uuid: Option<Uuid>)

  /** Everything outside the controller that decides the course of one pass. A `None` reply is a
      failed call. `bootstrap` is the bootstrap secret together with what stripping it gives:
      `Some(None)` when stripping fails. */
  datatype Replies = Replies(
    finalizerWrite: WriteReply,
    lookup: OwnerLookup,
    config: ConfigReply,
    bootstrap: Option<Option<string>>,
    existsRead: bool,
    tokenWrite: WriteReply,
    secret: Option<string>,
    merged: bool,
    payloadLookups: bool,
    create: CreateReply,
    order: Option<Option<Uuid>>,
    resource: Option<ResourceReply>,
    instance: Option<InstanceReply>,
    specWrite: WriteReply,
    statusWrite: WriteReply,
    runtime: Option<Option<string>>,
    stop: Option<nat>,
    terminate: TerminateReply)

  /** What Reconcile returns: done for now, an error, or a requeue after so many seconds. */
  datatype Outcome = Idle | Failure | Requeue(seconds: nat)

  // ----- user data and credentials -----

  datatype UserData = NotReady | Unavailable | Prepared(secret: Option<string>)

  function IssueSecret(v: VaultState, reply: Option<string>): (VaultState, Option<string>) {
    if reply.None? || reply.value == "" || reply.value in v.issued then (v, None)
    else (v.(issued := v.issued + {reply.value}), reply)
  }

  /** Generate a secret_id and embed it; when assembling the user data fails, try to revoke it. */
  function EmbedSecret(v: VaultState, o: Replies): (VaultState, UserData) {
    var (v1, secret) := IssueSecret(v, o.secret);
    if secret.None? then (v1, Unavailable)
    else if !o.merged then (v1.(revoked := v1.revoked + {secret.value}), Unavailable)
    else (v1, Prepared(secret))
  }

  /** buildUserDataWithVault: first store the join token unless the path already exists. */
  function Rke2UserData(v: VaultState, path: string, token: Option<string>, o: Replies): (VaultState, UserData) {
    if token.None? || !o.existsRead then (v, Unavailable)
    else if path in v.kv then EmbedSecret(v, o)
    else
      var v1 := if o.tokenWrite.Refused? then v else v.(kv := v.kv[path := token.value]);
      if o.tokenWrite.Applied? then EmbedSecret(v1, o) else (v1, Unavailable)
  }

  /** The user-data part of createVM. */
  function BuildUserData(cfg: Config, bootstrapNamed: bool, v: VaultState, o: Replies): (VaultState, UserData) {
    if !cfg.vault then
      (v, if !bootstrapNamed then NotReady else if o.bootstrap.None? then Unavailable else Prepared(None))
    else match o.config
      case ConfigMissing => (v, Unavailable)
      case RancherConfig => EmbedSecret(v, o)
      case Rke2Config(path) =>
        if !bootstrapNamed then (v, NotReady)
        else if o.bootstrap.None? then (v, Unavailable)
        else Rke2UserData(v, path, o.bootstrap.value, o)
  }

  /** The tenant part of buildOrderPayload: the marketplace resource and project a VM order goes
      through, or None when one of the four readiness checks fails. */
  function Placement(tenants: map<string, Tenant>, offering: string): Option<(Option<Uuid>, string)> {
    if offering !in tenants then None
    else
      var t := tenants[offering];
      if t.resourceState != ResourceOK || t.project.None? || t.uuid.None? then None
      else Some((t.resource, t.project.value))
  }

  // ----- createVM and refreshVM -----

  datatype CreateError = Success | BootstrapNotReady | CreateFailed

  datatype CreateResult = CreateResult(market: Market, vault: VaultState, status: MachineStatus, error: CreateError)

  function SubmitCreate(m: Market, v: VaultState, status: MachineStatus, secret: Option<string>, o: Replies): CreateResult {
    match o.create
    case Dropped(None) => CreateResult(m, v, status, CreateFailed)
    case Dropped(Some(n)) => CreateResult(AcceptCreate(m, MACHINE_SLOT, n, secret), v, status, CreateFailed)
    case Rejected => RejectedCreate(m, v, status, secret)
    case Created(n, backend, name) =>
      if n.id in m.orders then RejectedCreate(m, v, status, secret)
      else CreateResult(AcceptCreate(m, MACHINE_SLOT, n, secret), v,
                        status.(order := Some(OrderRecord(n.id, Create, n.first, Some(n.resource), None)),
                                resource := Some(n.resource), state := CoreCreating),
                        Success)
  }

  function RejectedCreate(m: Market, v: VaultState, status: MachineStatus, secret: Option<string>): CreateResult {
    CreateResult(m, if secret.Some? then v.(revoked := v.revoked + {secret.value}) else v, status, CreateFailed)
  }

  function CreateVM(cfg: Config, bootstrapNamed: bool, tenants: map<string, Tenant>,
                    m: Market, v: VaultState, status: MachineStatus, o: Replies): CreateResult {
    var (v1, userData) := BuildUserData(cfg, bootstrapNamed, v, o);
    match userData
    case NotReady => CreateResult(m, v1, status, BootstrapNotReady)
    case Unavailable => CreateResult(m, v1, status, CreateFailed)
    case Prepared(secret) =>
      if Placement(tenants, cfg.offering).None? || !o.payloadLookups then CreateResult(m, v1, status, CreateFailed)
      else SubmitCreate(m, v1, status, secret, o)
  }

  /** The status after refreshVM and whether it ran to the end; a failed call leaves what was
      learnt before it. */
  function RefreshVM(m: Market, status: MachineStatus, o: Replies): (MachineStatus, bool) {
    if status.order.Some? && !IsOrderTerminal(status.order.value.state) then
      var rec := RefreshOrder(m, status.order.value, o.order);
      if rec.None? then (status, false) else RefreshInstance(status.(order := rec), o)
    else RefreshInstance(status, o)
  }

  function RefreshInstance(status: MachineStatus, o: Replies): (MachineStatus, bool) {
    if o.resource.None? then (status, false)
    else
      var s1 := status.(resourceState := WithResourceState(status.resourceState, o.resource.value));
      if !o.resource.value.backend then (s1, true)
      else if o.instance.None? then (s1, false)
      else (WithInstance(s1, o.instance.value), true)
  }

  function WithInstance(status: MachineStatus, i: InstanceReply): MachineStatus {
    var state := if i.state.Some? then i.state.value else status.state;
    status.(state := state,
            vmUuid := if i.uuid.Some? then i.uuid else status.vmUuid,
            provisioned := if state == CoreOK then Some(true) else status.provisioned)
  }

  // ----- writes to the API server -----

  function WithReady(status: MachineStatus): MachineStatus {
    status.(ready := Some(match status.state
                          case CoreOK => Ready(true, Provisioned)
                          case CoreErred => Ready(false, ProvisioningFailed)
                          case _ => Ready(false, Provisioning)))
  }

  function RecordedIn(status: MachineStatus): set<Uuid> {
    if status.order.Some? then {status.order.value.uuid} else {}
  }

  /** A status patch. The snapshot it is computed against equals the stored status, so the merge
      stores the status in memory (MergePatch.PatchStoresEverything). */
  function StoreStatus(w: World, status: MachineStatus, reply: WriteReply): World {
    if reply.Refused? || w.stored.None? then w
    else w.(stored := Some(w.stored.value.(status := status)), recorded := w.recorded + RecordedIn(status))
  }

  /** A write to the main resource: the status subresource makes the server ignore the status. */
  function StoreProviderID(w: World, id: Uuid, reply: WriteReply): World {
    if reply.Refused? || w.stored.None? then w
    else w.(stored := Some(w.stored.value.(providerID := Some("waldur://" + id))))
  }

  function StoreFinalizer(w: World, reply: WriteReply): World {
    if reply.Refused? || w.stored.None? then w
    else w.(stored := Some(w.stored.value.(finalizer := true)))
  }

  /** Removing the last finalizer of an object being deleted removes the object. */
  function RemoveFinalizer(w: World, reply: WriteReply): World {
    if reply.Refused? then w else w.(stored := None)
  }

  // ----- the pass -----

  function Pass(cfg: Config, w: World, o: Replies): (World, Outcome) {
    if w.stored.None? then (w, Idle)
    else if w.stored.value.deleting then DeletePass(w, o)
    else if !w.stored.value.finalizer then
      (StoreFinalizer(w, o.finalizerWrite), if o.finalizerWrite.Applied? then Idle else Failure)
    else match o.lookup
      case Waiting => (w, Idle)
      case Unreachable => (w, Failure)
      case Found(bootstrapNamed, tenants) => LivePass(cfg, w, bootstrapNamed, tenants, o)
  }

  function LivePass(cfg: Config, w: World, bootstrapNamed: bool, tenants: map<string, Tenant>, o: Replies): (World, Outcome)
    requires w.stored.Some?
  {
    var status := w.stored.value.status;
    if status.resource.None? then
      var c := CreateVM(cfg, bootstrapNamed, tenants, w.market, w.vault, status, o);
      var w1 := w.(market := c.market, vault := c.vault);
      if c.error.BootstrapNotReady? then (w1, Requeue(10)) else FinishPass(w1, c.status, o)
    else FinishPass(w, RefreshVM(w.market, status, o).0, o)
  }

  predicate TakesProviderIDWrite(obj: MachineObject, status: MachineStatus) {
    status.state == CoreOK && obj.providerID.None? && status.vmUuid.Some?
  }

  /** The end of a live pass: the ProviderID write, after which the status is the stored one again,
      then the Ready condition and the status write. */
  function FinishPass(w: World, status: MachineStatus, o: Replies): (World, Outcome)
    requires w.stored.Some?
  {
    if TakesProviderIDWrite(w.stored.value, status) then
      var w1 := StoreProviderID(w, status.vmUuid.value, o.specWrite);
      if !o.specWrite.Applied? then (w1, Failure) else WriteStatus(w1, w.stored.value.status, o)
    else WriteStatus(w, status, o)
  }

  function WriteStatus(w: World, status: MachineStatus, o: Replies): (World, Outcome) {
    (StoreStatus(w, WithReady(status), o.statusWrite),
     if !o.statusWrite.Applied? then Failure else if status.state == CoreOK then Requeue(300) else Requeue(15))
  }

  /** The VM may be terminated: it has no recorded uuid, or the runtime state read in this pass is
      absent, SHUTOFF or ERROR. */
  predicate MayTerminate(status: MachineStatus, runtime: Option<Option<string>>) {
    || status.vmUuid.None?
    || (runtime.Some? && (runtime.value.None? || runtime.value.value == "SHUTOFF" || runtime.value.value == "ERROR"))
  }

  function DeletePass(w: World, o: Replies): (World, Outcome)
    requires w.stored.Some?
  {
    var status := w.stored.value.status;
    var removal := (RemoveFinalizer(w, o.finalizerWrite), if o.finalizerWrite.Applied? then Idle else Failure);
    if status.resource.None? then removal
    else if TerminationInFlight(MachineSlot(status)) then
      (StoreStatus(w, RefreshVM(w.market, status, o).0, o.statusWrite),
       if o.statusWrite.Applied? then Requeue(15) else Failure)
    else if TerminationDone(MachineSlot(status)) then removal
    else if !MayTerminate(status, o.runtime) then
      (w, if o.runtime.None? || o.stop.None? then Failure else Requeue(15))
    else
      var (market, rec) := SubmitTermination(w.market, MACHINE_SLOT, status.resource.value, o.terminate);
      var w1 := w.(market := market);
      if rec.None? then (w1, Requeue(15))
      else (StoreStatus(w1, status.(order := rec), o.statusWrite), if o.statusWrite.Applied? then Requeue(15) else Failure)
  }

  // ----- the calls a pass makes -----

  /** Whether the pass reaches createVM, and the user data it then builds. */
  predicate Creates(w: World, o: Replies) {
    && w.stored.Some? && !w.stored.value.deleting && w.stored.value.finalizer
    && w.stored.value.status.resource.None? && o.lookup.Found?
  }

  function UserDataOf(cfg: Config, w: World, o: Replies): (VaultState, UserData)
    requires Creates(w, o)
  {
    BuildUserData(cfg, o.lookup.bootstrapNamed, w.vault, o)
  }

  /** The order payload cannot be built: a readiness check or a lookup fails. */
  predicate PayloadFails(cfg: Config, o: Replies)
    requires o.lookup.Found?
  {
    Placement(o.lookup.tenants, cfg.offering).None? || !o.payloadLookups
  }

  /** The pass sends a create order. */
  predicate OrdersVM(cfg: Config, w: World, o: Replies) {
    Creates(w, o) && UserDataOf(cfg, w, o).1.Prepared? && !PayloadFails(cfg, o)
  }

  /** The pass sends a termination request. */
  predicate SubmitsTermination(w: World, o: Replies) {
    && w.stored.Some? && w.stored.value.deleting && w.stored.value.status.resource.Some?
    && !TerminationInFlight(MachineSlot(w.stored.value.status)) && !TerminationDone(MachineSlot(w.stored.value.status))
    && MayTerminate(w.stored.value.status, o.runtime)
  }

  // ----- runs -----

  /** A pass, a step of everybody else (marketplace orders and the shared key-value store move on),
      or a user's request to delete the object. */
  datatype Step = Reconcile(o: Replies) | Others(market: Market, kv: map<string, string>) | DeleteRequest

  ghost predicate Legal(w: World, s: Step) {
    s.Others? ==> Evolves(w.market, s.market)
  }

  function MarkDeleted(w: World): World {
    if w.stored.None? then w
    else if w.stored.value.finalizer then w.(stored := Some(w.stored.value.(deleting := true)))
    else w.(stored := None)
  }

  function Do(cfg: Config, w: World, s: Step): World {
    match s
    case Reconcile(o) => Pass(cfg, w, o).0
    case Others(market, kv) => w.(market := market, vault := w.vault.(kv := kv))
    case DeleteRequest => MarkDeleted(w)
  }

  function Run(cfg: Config, w: World, steps: seq<Step>): World {
    if steps == [] then w else Do(cfg, Run(cfg, w, steps[..|steps| - 1]), steps[|steps| - 1])
  }

  ghost predicate LegalRun(cfg: Config, w: World, steps: seq<Step>) {
    forall i :: 0 <= i < |steps| ==> Legal(Run(cfg, w, steps[..i]), steps[i])
  }

  /** A freshly created WaldurMachine, before any pass has seen it. */
  ghost predicate Init(w: World) {
    && w.stored == Some(MachineObject(false, false, None, BLANK_MACHINE_STATUS))
    && w.recorded == {}
    && MarketOk(w.market) && w.market.mine == map[]
    && w.vault.issued == {} && w.vault.revoked == {}
    && (forall id :: id in w.market.orders ==> w.market.orders[id].secret == None)
  }
}
