/** The status documents determine the statuses: reading a document back gives the status it was
    written for. So a status patch stores not just some status with the right document, but the merged
    one. */
module StatusDocuments {
  import opened Prelude
  import opened Waldur
  import opened ApiTypes
  import opened MergePatch
  import opened StatusPatches
  import MC = MachineController
  import CC = ClusterController

  // ----- reading members -----

  /** A string member; one that is left out is empty. */
  function ReadText(j: Option<Json>): string {
    match j
    case Some(Leaf(text)) => text
    case _ => ""
  }

  function ReadMaybe(j: Option<Json>): Option<string> {
    match j
    case Some(Leaf(text)) => Some(text)
    case _ => None
  }

  function ReadUuid(j: Option<Json>): Option<Uuid> {
    match j
    case Some(Leaf(text)) => if text == "" then None else Some(text)
    case _ => None
  }

  function ReadCore(text: string): CoreState {
    if text == "" then CoreUnset
    else if text == "CREATING" then CoreCreating
    else if text == "OK" then CoreOK
    else if text == "ERRED" then CoreErred
    else CoreOther(text)
  }

  function ReadResource(text: string): ResourceState {
    if text == "" then ResourceUnset else if text == "OK" then ResourceOK else ResourceOther(text)
  }

  function ReadOrderState(text: string): OrderState {
    if text == "done" then Done
    else if text == "erred" then Erred
    else if text == "canceled" then Canceled
    else Pending(text)
  }

  function ReadReady(j: Option<Json>): Option<Ready> {
    if j == ConditionsJson(Some(Ready(true, Provisioned))) then Some(Ready(true, Provisioned))
    else if j == ConditionsJson(Some(Ready(true, Provisioning))) then Some(Ready(true, Provisioning))
    else if j == ConditionsJson(Some(Ready(true, ProvisioningFailed))) then Some(Ready(true, ProvisioningFailed))
    else if j == ConditionsJson(Some(Ready(false, Provisioned))) then Some(Ready(false, Provisioned))
    else if j == ConditionsJson(Some(Ready(false, Provisioning))) then Some(Ready(false, Provisioning))
    else if j == ConditionsJson(Some(Ready(false, ProvisioningFailed))) then Some(Ready(false, ProvisioningFailed))
    else None
  }

  function ReadProvisioned(j: Option<Json>): Option<bool> {
    match j
    case Some(Obj(fields)) =>
      if AtKey(fields, "provisioned") == Some(Leaf("true")) then Some(true)
      else if AtKey(fields, "provisioned") == Some(Leaf("false")) then Some(false)
      else None
    case _ => None
  }

  function ReadOrder(j: Option<Json>): Option<OrderRecord> {
    match j
    case Some(Obj(fields)) =>
      var uuid := ReadUuid(AtKey(fields, "uuid"));
      if uuid.None? then None
      else
        Some(OrderRecord(uuid.value,
                         if ReadText(AtKey(fields, "type")) == "Create" then Create else Terminate,
                         ReadOrderState(ReadText(AtKey(fields, "state"))),
                         ReadUuid(AtKey(fields, "marketplaceResourceUuid")),
                         ReadUuid(AtKey(fields, "resourceUuid"))))
    case _ => None
  }

  // ----- states the code knows by name are written by name -----

  predicate CanonicalCore(s: CoreState) {
    s.CoreOther? ==> s.code !in {"", "CREATING", "OK", "ERRED"}
  }

  predicate CanonicalResource(s: ResourceState) {
    s.ResourceOther? ==> s.code !in {"", "OK"}
  }

  predicate CanonicalOrder(o: Option<OrderRecord>) {
    o.Some? && o.value.state.Pending? ==> o.value.state.phase !in {"done", "erred", "canceled"}
  }

  predicate CanonicalMachine(s: MachineStatus) {
    Canonical(s) && CanonicalOrder(s.order)
  }

  predicate CanonicalTenant(t: Tenant) {
    CanonicalCore(t.state) && CanonicalResource(t.resourceState) && CanonicalOrder(t.order)
  }

  predicate CanonicalCluster(s: ClusterStatus) {
    forall slug :: slug in s.tenants ==> CanonicalTenant(s.tenants[slug])
  }

  // ----- members read back -----

  lemma TextsReadBack(core: CoreState, resource: ResourceState, name: string)
    ensures CanonicalCore(core) ==> ReadCore(ReadText(Text(CoreText(core)))) == core
    ensures CanonicalResource(resource) ==> ReadResource(ReadText(Text(ResourceText(resource)))) == resource
    ensures ReadText(Text(name)) == name
  {}

  lemma MaybesReadBack(uuid: Option<Uuid>, project: Option<string>)
    ensures ReadUuid(Maybe(uuid)) == uuid
    ensures ReadMaybe(Maybe(project)) == project
  {}

  lemma HeadReadsBack(ready: Option<Ready>, provisioned: Option<bool>)
    ensures ReadReady(ConditionsJson(ready)) == ready
    ensures ReadProvisioned(InitializationJson(provisioned)) == provisioned
  {
    var again := ReadReady(ConditionsJson(ready));
    if ready.Some? {
      assert ConditionsJson(again) == ConditionsJson(ready);
      ReadyText(again, ready);
    }
  }

  function OrderMember(o: OrderRecord, k: string): Option<Json> {
    if k == "uuid" then Text(o.uuid)
    else if k == "type" then Text(if o.kind.Create? then "Create" else "Terminate")
    else if k == "state" then Text(OrderText(o.state))
    else if k == "marketplaceResourceUuid" then Maybe(o.resource)
    else if k == "resourceUuid" then Maybe(o.backend)
    else None
  }

  lemma OrderMembers(o: OrderRecord, k: string)
    ensures OrderJson(Some(o)).Some? && OrderJson(Some(o)).value.Obj?
    ensures AtKey(OrderJson(Some(o)).value.fields, k) == OrderMember(o, k)
  {
    var f0 := Put(map[], "uuid", Text(o.uuid));
    var f1 := Put(f0, "type", Text(if o.kind.Create? then "Create" else "Terminate"));
    var f2 := Put(f1, "state", Text(OrderText(o.state)));
    var f3 := Put(f2, "marketplaceResourceUuid", Maybe(o.resource));
    PutAt(map[], "uuid", Text(o.uuid), k);
    PutAt(f0, "type", Text(if o.kind.Create? then "Create" else "Terminate"), k);
    PutAt(f1, "state", Text(OrderText(o.state)), k);
    PutAt(f2, "marketplaceResourceUuid", Maybe(o.resource), k);
    PutAt(f3, "resourceUuid", Maybe(o.backend), k);
    assert OrderJson(Some(o)).value.fields == Put(f3, "resourceUuid", Maybe(o.backend));
  }

  lemma OrderReadsBack(o: Option<OrderRecord>)
    requires CanonicalOrder(o)
    ensures ReadOrder(OrderJson(o)) == o
  {
    if o.Some? {
      OrderMembers(o.value, "uuid");
      OrderMembers(o.value, "type");
      OrderMembers(o.value, "state");
      OrderMembers(o.value, "marketplaceResourceUuid");
      OrderMembers(o.value, "resourceUuid");
      MaybesReadBack(o.value.resource, None);
      MaybesReadBack(o.value.backend, None);
    }
  }

  // ----- machines -----

  function ReadMachine(j: Json): MachineStatus
    requires j.Obj?
  {
    MachineStatus(
      ReadReady(Member(j, "conditions")), ReadProvisioned(Member(j, "initialization")), ReadUuid(Member(j, "vmUuid")),
      ReadCore(ReadText(Member(j, "state"))), ReadUuid(Member(j, "marketplaceResourceUuid")),
      ReadResource(ReadText(Member(j, "marketplaceResourceState"))), ReadOrder(Member(j, "order")))
  }

  lemma MachineReadsBack(s: MachineStatus)
    requires CanonicalMachine(s)
    ensures ReadMachine(MachineJson(s)) == s
  {
    MachineMembers(s, "conditions");
    MachineMembers(s, "initialization");
    MachineMembers(s, "vmUuid");
    MachineMembers(s, "state");
    MachineMembers(s, "marketplaceResourceUuid");
    MachineMembers(s, "marketplaceResourceState");
    MachineMembers(s, "order");
    HeadReadsBack(s.ready, s.provisioned);
    TextsReadBack(s.state, s.resourceState, "");
    MaybesReadBack(s.vmUuid, None);
    MaybesReadBack(s.resource, None);
    OrderReadsBack(s.order);
  }

  /** Different statuses of a machine have different documents. */
  lemma MachineDocumentsDiffer(a: MachineStatus, b: MachineStatus)
    requires CanonicalMachine(a) && CanonicalMachine(b)
    ensures MachineJson(a) == MachineJson(b) <==> a == b
  {
    MachineReadsBack(a);
    MachineReadsBack(b);
  }

  /** The server, reading its document after a status patch, holds the merged status. */
  lemma {:induction false} MachinePatchReads(base: MachineStatus, memory: MachineStatus, stored: MachineStatus)
    requires CanonicalMachine(base) && CanonicalMachine(memory) && CanonicalMachine(stored)
    requires stored.order == base.order || memory.order == base.order
    ensures Apply(Some(MachineJson(stored)), Diff(MachineJson(base), MachineJson(memory))).Obj?
    ensures ReadMachine(Apply(Some(MachineJson(stored)), Diff(MachineJson(base), MachineJson(memory))))
         == MC.MergeStatus(base, memory, stored)
  {
    MachinePatch(base, memory, stored);
    MachineReadsBack(MC.MergeStatus(base, memory, stored));
  }

  // ----- tenants and clusters -----

  function TenantMember(t: Tenant, k: string): Option<Json> {
    if k == "state" then Text(CoreText(t.state))
    else if k == "uuid" then Maybe(t.uuid)
    else if k == "name" then Text(t.name)
    else if k == "marketplaceResourceUuid" then Maybe(t.resource)
    else if k == "marketplaceResourceState" then Text(ResourceText(t.resourceState))
    else if k == "projectSlug" then Maybe(t.project)
    else if k == "order" then OrderJson(t.order)
    else None
  }

  lemma TenantMembers(t: Tenant, k: string)
    ensures Member(TenantJson(t), k) == TenantMember(t, k)
  {
    var f0 := Put(map[], "state", Text(CoreText(t.state)));
    var f1 := Put(f0, "uuid", Maybe(t.uuid));
    var f2 := Put(f1, "name", Text(t.name));
    var f3 := Put(f2, "marketplaceResourceUuid", Maybe(t.resource));
    var f4 := Put(f3, "marketplaceResourceState", Text(ResourceText(t.resourceState)));
    var f5 := Put(f4, "projectSlug", Maybe(t.project));
    PutAt(map[], "state", Text(CoreText(t.state)), k);
    PutAt(f0, "uuid", Maybe(t.uuid), k);
    PutAt(f1, "name", Text(t.name), k);
    PutAt(f2, "marketplaceResourceUuid", Maybe(t.resource), k);
    PutAt(f3, "marketplaceResourceState", Text(ResourceText(t.resourceState)), k);
    PutAt(f4, "projectSlug", Maybe(t.project), k);
    PutAt(f5, "order", OrderJson(t.order), k);
    assert TenantJson(t).fields == Put(f5, "order", OrderJson(t.order));
  }

  function ReadTenant(j: Json): Tenant {
    if j.Obj? then
      Tenant(ReadCore(ReadText(Member(j, "state"))), ReadUuid(Member(j, "uuid")), ReadText(Member(j, "name")),
             ReadUuid(Member(j, "marketplaceResourceUuid")), ReadResource(ReadText(Member(j, "marketplaceResourceState"))),
             ReadMaybe(Member(j, "projectSlug")), ReadOrder(Member(j, "order")))
    else Tenant(CoreUnset, None, "", None, ResourceUnset, None, None)
  }

  lemma TenantReadsBack(t: Tenant)
    requires CanonicalTenant(t)
    ensures ReadTenant(TenantJson(t)) == t
  {
    TenantMembers(t, "state");
    TenantMembers(t, "uuid");
    TenantMembers(t, "name");
    TenantMembers(t, "marketplaceResourceUuid");
    TenantMembers(t, "marketplaceResourceState");
    TenantMembers(t, "projectSlug");
    TenantMembers(t, "order");
    TextsReadBack(t.state, t.resourceState, t.name);
    MaybesReadBack(t.uuid, t.project);
    MaybesReadBack(t.resource, None);
    OrderReadsBack(t.order);
  }

  function ReadTenants(j: Option<Json>): map<string, Tenant> {
    match j
    case Some(Obj(fields)) => map slug | slug in fields :: ReadTenant(fields[slug])
    case _ => map[]
  }

  lemma TenantsReadBack(tenants: map<string, Tenant>)
    requires forall slug :: slug in tenants ==> CanonicalTenant(tenants[slug])
    ensures ReadTenants(TenantsJson(tenants)) == tenants
  {
    forall slug | slug in tenants ensures ReadTenant(TenantJson(tenants[slug])) == tenants[slug] {
      TenantReadsBack(tenants[slug]);
    }
    assert ReadTenants(TenantsJson(tenants)) == tenants;
  }

  function ReadCluster(j: Json): ClusterStatus
    requires j.Obj?
  {
    ClusterStatus(ReadReady(Member(j, "conditions")), ReadProvisioned(Member(j, "initialization")), ReadTenants(Member(j, "tenants")))
  }

  function ClusterMember(s: ClusterStatus, k: string): Option<Json> {
    if k == "conditions" then ConditionsJson(s.ready)
    else if k == "initialization" then InitializationJson(s.provisioned)
    else if k == "tenants" then TenantsJson(s.tenants)
    else None
  }

  lemma ClusterMembers(s: ClusterStatus, k: string)
    ensures Member(ClusterJson(s), k) == ClusterMember(s, k)
  {
    var f0 := Put(map[], "conditions", ConditionsJson(s.ready));
    var f1 := Put(f0, "initialization", InitializationJson(s.provisioned));
    PutAt(map[], "conditions", ConditionsJson(s.ready), k);
    PutAt(f0, "initialization", InitializationJson(s.provisioned), k);
    PutAt(f1, "tenants", TenantsJson(s.tenants), k);
    assert ClusterJson(s).fields == Put(f1, "tenants", TenantsJson(s.tenants));
  }

  lemma ClusterReadsBack(s: ClusterStatus)
    requires CanonicalCluster(s)
    ensures ReadCluster(ClusterJson(s)) == s
  {
    ClusterMembers(s, "conditions");
    ClusterMembers(s, "initialization");
    ClusterMembers(s, "tenants");
    HeadReadsBack(s.ready, s.provisioned);
    TenantsReadBack(s.tenants);
  }

  /** Different statuses of a cluster have different documents. */
  lemma ClusterDocumentsDiffer(a: ClusterStatus, b: ClusterStatus)
    requires CanonicalCluster(a) && CanonicalCluster(b)
    ensures ClusterJson(a) == ClusterJson(b) <==> a == b
  {
    ClusterReadsBack(a);
    ClusterReadsBack(b);
  }

  /** The server, reading its document after a cluster's status patch, holds the status in memory. */
  lemma ClusterPatchReads(base: ClusterStatus, memory: ClusterStatus)
    requires CanonicalCluster(memory)
    ensures Apply(Some(ClusterJson(base)), Diff(ClusterJson(base), ClusterJson(memory))).Obj?
    ensures ReadCluster(Apply(Some(ClusterJson(base)), Diff(ClusterJson(base), ClusterJson(memory)))) == memory
    ensures CC.MergeClusterStatus(base, memory, base) == memory
  {
    CC.MergeOntoSnapshot(base, memory);
    ClusterPatchStoresEverything(base, memory);
    ClusterReadsBack(memory);
  }
}
