/** The generated deep copies of the status types (api/v1beta2/zz_generated.deepcopy.go), with the
    pointers, slices and maps they go through. The merge patches rest on the snapshot sharing
    nothing with the object a pass changes in place. */
module DeepCopy {
  import opened Prelude
  import opened Waldur
  import opened ApiTypes
  import opened MergePatch

  // ----- memory -----

  class StringCell {
    var value: string
    constructor (s: string)
      ensures value == s
    {
      value := s;
    }
  }

  class BoolCell {
    var value: bool
    constructor (b: bool)
      ensures value == b
    {
      value := b;
    }
  }

  class WaldurOrder {
    var uuid: string
    var kind: RequestType
    var state: OrderState
    var resource: string
    var resourceUuid: StringCell?

    constructor (uuid: string, kind: RequestType, state: OrderState, resource: string, resourceUuid: StringCell?)
      ensures this.uuid == uuid && this.kind == kind && this.state == state
      ensures this.resource == resource && this.resourceUuid == resourceUuid
    {
      this.uuid, this.kind, this.state, this.resource, this.resourceUuid := uuid, kind, state, resource, resourceUuid;
    }
  }

  class Initialization {
    var provisioned: BoolCell?
    constructor (p: BoolCell?)
      ensures provisioned == p
    {
      provisioned := p;
    }
  }

  /** A struct value: assigning it copies the pointers, not what they point to. */
  datatype OpenStackTenant = OpenStackTenant(
    state: CoreState, uuid: StringCell?, name: string, resource: string,
    resourceState: ResourceState, project: StringCell?, order: WaldurOrder?)

  /** A Go map is a reference to its entries. */
  class TenantMap {
    var entries: map<string, OpenStackTenant>
    constructor (entries: map<string, OpenStackTenant>)
      ensures this.entries == entries
    {
      this.entries := entries;
    }
  }

  class WaldurClusterStatus {
    var conditions: array?<Ready>
    var initialization: Initialization?
    var tenants: TenantMap?
    constructor (conditions: array?<Ready>, initialization: Initialization?, tenants: TenantMap?)
      ensures this.conditions == conditions && this.initialization == initialization && this.tenants == tenants
    {
      this.conditions, this.initialization, this.tenants := conditions, initialization, tenants;
    }
  }

  class WaldurMachineStatus {
    var conditions: array?<Ready>
    var initialization: Initialization?
    var vmUuid: StringCell?
    var state: CoreState
    var resource: string
    var resourceState: ResourceState
    var order: WaldurOrder?
    constructor (conditions: array?<Ready>, initialization: Initialization?, vmUuid: StringCell?, state: CoreState,
                 resource: string, resourceState: ResourceState, order: WaldurOrder?)
      ensures this.conditions == conditions && this.initialization == initialization && this.vmUuid == vmUuid
      ensures this.state == state && this.resource == resource && this.resourceState == resourceState && this.order == order
    {
      this.conditions, this.initialization, this.vmUuid := conditions, initialization, vmUuid;
      this.state, this.resource, this.resourceState, this.order := state, resource, resourceState, order;
    }
  }

  // ----- the value a structure stands for, and the cells it reaches -----

  datatype OrderValue = OrderValue(uuid: string, kind: RequestType, state: OrderState, resource: string, resourceUuid: Option<string>)

  datatype TenantValue = TenantValue(
    state: CoreState, uuid: Option<string>, name: string, resource: string,
    resourceState: ResourceState, project: Option<string>, order: Option<OrderValue>)

  datatype ClusterValue = ClusterValue(
    conditions: Option<seq<Ready>>, initialization: Option<Option<bool>>, tenants: Option<map<string, TenantValue>>)

  datatype MachineValue = MachineValue(
    conditions: Option<seq<Ready>>, initialization: Option<Option<bool>>, vmUuid: Option<string>, state: CoreState,
    resource: string, resourceState: ResourceState, order: Option<OrderValue>)

  function At(c: StringCell?): Option<string>
    reads c
  {
    if c == null then None else Some(c.value)
  }

  function Reach(c: object?): set<object> {
    if c == null then {} else {c}
  }

  function OrderAt(o: WaldurOrder?): Option<OrderValue>
    reads OrderReach(o)
  {
    if o == null then None
    else Some(OrderValue(o.uuid, o.kind, o.state, o.resource, At(o.resourceUuid)))
  }

  function OrderReach(o: WaldurOrder?): set<object>
    reads o
  {
    if o == null then {} else {o} + Reach(o.resourceUuid)
  }

  function InitializationAt(i: Initialization?): Option<Option<bool>>
    reads InitializationReach(i)
  {
    if i == null then None
    else Some(if i.provisioned == null then None else Some(i.provisioned.value))
  }

  function InitializationReach(i: Initialization?): set<object>
    reads i
  {
    if i == null then {} else {i} + Reach(i.provisioned)
  }

  function ConditionsAt(a: array?<Ready>): Option<seq<Ready>>
    reads a
  {
    if a == null then None else Some(a[..])
  }

  function TenantAt(t: OpenStackTenant): TenantValue
    reads TenantReach(t)
  {
    TenantValue(t.state, At(t.uuid), t.name, t.resource, t.resourceState, At(t.project), OrderAt(t.order))
  }

  function TenantReach(t: OpenStackTenant): set<object>
    reads t.order
  {
    Reach(t.uuid) + Reach(t.project) + OrderReach(t.order)
  }

  ghost function EntriesReach(m: map<string, OpenStackTenant>): set<object>
    reads *
  {
    set k, o | k in m && o in TenantReach(m[k]) :: o
  }

  ghost function EntriesAt(m: map<string, OpenStackTenant>): map<string, TenantValue>
    reads *
  {
    map k | k in m :: TenantAt(m[k])
  }

  ghost function TenantsReach(m: TenantMap?): set<object>
    reads *
  {
    if m == null then {} else {m} + EntriesReach(m.entries)
  }

  ghost function TenantsAt(m: TenantMap?): Option<map<string, TenantValue>>
    reads *
  {
    if m == null then None else Some(EntriesAt(m.entries))
  }

  // ----- deep copies -----

  method CopyString(c: StringCell?) returns (r: StringCell?)
    ensures fresh(Reach(r)) && At(r) == At(c)
  {
    if c == null {
      return null;
    }
    r := new StringCell(c.value);
  }

  method CopyOrder(o: WaldurOrder?) returns (r: WaldurOrder?)
    ensures fresh(OrderReach(r)) && OrderAt(r) == OrderAt(o)
  {
    if o == null {
      return null;
    }
    var resourceUuid := CopyString(o.resourceUuid);
    r := new WaldurOrder(o.uuid, o.kind, o.state, o.resource, resourceUuid);
  }

  method CopyInitialization(i: Initialization?) returns (r: Initialization?)
    ensures fresh(InitializationReach(r)) && InitializationAt(r) == InitializationAt(i)
  {
    if i == null {
      return null;
    }
    var p: BoolCell? := null;
    if i.provisioned != null {
      p := new BoolCell(i.provisioned.value);
    }
    r := new Initialization(p);
  }

  method CopyConditions(a: array?<Ready>) returns (r: array?<Ready>)
    ensures fresh(Reach(r)) && ConditionsAt(r) == ConditionsAt(a)
  {
    if a == null {
      return null;
    }
    r := new Ready[a.Length](_ => Ready(false, Provisioning));
    for i := 0 to a.Length
      invariant r[..i] == a[..i]
    {
      r[i] := a[i];
    }
    assert r[..] == r[..a.Length] && a[..] == a[..a.Length];
  }

  method CopyTenant(t: OpenStackTenant) returns (r: OpenStackTenant)
    ensures fresh(TenantReach(r)) && TenantAt(r) == TenantAt(t)
  {
    r := t;
    var uuid := CopyString(t.uuid);
    var project := CopyString(t.project);
    var order := CopyOrder(t.order);
    r := r.(uuid := uuid, project := project, order := order);
  }

  /** Entries whose cells are disjoint from each other: no change through one shows in another. */
  ghost predicate Separate(m: map<string, OpenStackTenant>)
    reads *
  {
    forall j, k :: j in m && k in m && j != k ==> TenantReach(m[j]) !! TenantReach(m[k])
  }

  ghost predicate Disjoint(cells: map<string, set<object>>) {
    forall j, k :: j in cells && k in cells && j != k ==> cells[j] !! cells[k]
  }

  lemma StillDisjoint(cells: map<string, set<object>>, k: string, added: set<object>)
    requires Disjoint(cells) && forall j :: j in cells ==> cells[j] !! added
    ensures Disjoint(cells[k := added])
  {}

  /** One iteration: copies the entry for `k`; those copied before are as they were. */
  method CopyNext(m: map<string, OpenStackTenant>, r: map<string, OpenStackTenant>, k: string) returns (t: OpenStackTenant)
    requires k in m && forall j :: j in r ==> j in m && TenantAt(r[j]) == TenantAt(m[j])
    ensures fresh(TenantReach(t)) && TenantAt(t) == TenantAt(m[k])
    ensures forall j :: j in r ==> TenantReach(r[j]) == old(TenantReach(r[j])) && TenantAt(r[j]) == TenantAt(m[j])
  {
    t := CopyTenant(m[k]);
    forall j | j in r ensures TenantReach(r[j]) == old(TenantReach(r[j])) && TenantAt(r[j]) == TenantAt(m[j]) {
      assert TenantAt(r[j]) == old(TenantAt(r[j]));
      assert TenantAt(m[j]) == old(TenantAt(m[j]));
    }
  }

  method CopyEntries(m: map<string, OpenStackTenant>) returns (r: map<string, OpenStackTenant>)
    ensures r.Keys == m.Keys && forall k :: k in r ==> fresh(TenantReach(r[k])) && TenantAt(r[k]) == TenantAt(m[k])
    ensures Separate(r)
  {
    r := map[];
    var todo := m.Keys;
    ghost var cells: map<string, set<object>> := map[];
    while todo != {}
      invariant todo <= m.Keys && r.Keys == cells.Keys == m.Keys - todo
      invariant Disjoint(cells)
      invariant forall k :: k in r ==> TenantReach(r[k]) == cells[k] && fresh(cells[k]) && TenantAt(r[k]) == TenantAt(m[k])
      decreases todo
    {
      var k :| k in todo;
      var t := CopyNext(m, r, k);
      StillDisjoint(cells, k, TenantReach(t));
      cells := cells[k := TenantReach(t)];
      r := r[k := t];
      todo := todo - {k};
    }
  }

  method CopyTenants(m: TenantMap?) returns (r: TenantMap?)
    ensures fresh(TenantsReach(r)) && TenantsAt(r) == TenantsAt(m)
    ensures r != null ==> Separate(r.entries)
  {
    if m == null {
      return null;
    }
    var copied := CopyEntries(m.entries);
    label copied:
    r := new TenantMap(copied);
    forall k | k in copied
      ensures TenantReach(copied[k]) == old@copied(TenantReach(copied[k])) && TenantAt(copied[k]) == old@copied(TenantAt(copied[k]))
    {}
    assert EntriesAt(copied) == EntriesAt(m.entries);
  }

  // ----- whole statuses -----

  ghost function ClusterAt(s: WaldurClusterStatus): ClusterValue
    reads *
  {
    ClusterValue(ConditionsAt(s.conditions), InitializationAt(s.initialization), TenantsAt(s.tenants))
  }

  ghost function ClusterReach(s: WaldurClusterStatus): set<object>
    reads *
  {
    {s} + Reach(s.conditions) + InitializationReach(s.initialization) + TenantsReach(s.tenants)
  }

  ghost function MachineAt(s: WaldurMachineStatus): MachineValue
    reads *
  {
    MachineValue(ConditionsAt(s.conditions), InitializationAt(s.initialization), At(s.vmUuid), s.state,
                 s.resource, s.resourceState, OrderAt(s.order))
  }

  ghost function MachineReach(s: WaldurMachineStatus): set<object>
    reads *
  {
    {s} + Reach(s.conditions) + InitializationReach(s.initialization) + Reach(s.vmUuid) + OrderReach(s.order)
  }

  method CopyHead(a: array?<Ready>, i: Initialization?) returns (conditions: array?<Ready>, initialization: Initialization?)
    ensures fresh(Reach(conditions)) && fresh(InitializationReach(initialization))
    ensures ConditionsAt(conditions) == ConditionsAt(a) && InitializationAt(initialization) == InitializationAt(i)
    ensures ConditionsAt(a) == old(ConditionsAt(a)) && InitializationAt(i) == old(InitializationAt(i))
  {
    conditions := CopyConditions(a);
    initialization := CopyInitialization(i);
  }

  /** The parts of a cluster status, copied one after the other. */
  method CopyParts(s: WaldurClusterStatus) returns (conditions: array?<Ready>, initialization: Initialization?, tenants: TenantMap?)
    ensures fresh(Reach(conditions)) && fresh(InitializationReach(initialization)) && fresh(TenantsReach(tenants))
    ensures ConditionsAt(conditions) == old(ConditionsAt(s.conditions))
    ensures InitializationAt(initialization) == old(InitializationAt(s.initialization))
    ensures TenantsAt(tenants) == old(TenantsAt(s.tenants))
    ensures tenants != null ==> Separate(tenants.entries)
  {
    conditions, initialization := CopyHead(s.conditions, s.initialization);
    tenants := CopyTenants(s.tenants);
  }

  /** An equal status that shares no cell with this one. */
  method CopyCluster(s: WaldurClusterStatus) returns (r: WaldurClusterStatus)
    ensures fresh(ClusterReach(r)) && ClusterAt(r) == old(ClusterAt(s))
    ensures r.tenants != null ==> Separate(r.tenants.entries)
  {
    var conditions, initialization, tenants := CopyParts(s);
    r := NewCluster(conditions, initialization, tenants);
  }

  method NewCluster(conditions: array?<Ready>, initialization: Initialization?, tenants: TenantMap?) returns (r: WaldurClusterStatus)
    ensures fresh(r) && r.conditions == conditions && r.initialization == initialization && r.tenants == tenants
    ensures ConditionsAt(conditions) == old(ConditionsAt(conditions))
    ensures InitializationAt(initialization) == old(InitializationAt(initialization))
    ensures InitializationReach(initialization) == old(InitializationReach(initialization))
    ensures TenantsAt(tenants) == old(TenantsAt(tenants)) && TenantsReach(tenants) == old(TenantsReach(tenants))
    ensures tenants != null && old(Separate(tenants.entries)) ==> Separate(tenants.entries)
  {
    r := new WaldurClusterStatus(conditions, initialization, tenants);
    if tenants != null {
      forall k | k in tenants.entries
        ensures TenantReach(tenants.entries[k]) == old(TenantReach(tenants.entries[k]))
        ensures TenantAt(tenants.entries[k]) == old(TenantAt(tenants.entries[k]))
      {}
    }
  }

  method CopyMachine(s: WaldurMachineStatus) returns (r: WaldurMachineStatus)
    ensures fresh(MachineReach(r)) && MachineAt(r) == old(MachineAt(s))
  {
    var conditions := CopyConditions(s.conditions);
    var initialization := CopyInitialization(s.initialization);
    var vmUuid := CopyString(s.vmUuid);
    var order := CopyOrder(s.order);
    label copied:
    assert ConditionsAt(conditions) == old(ConditionsAt(s.conditions));
    assert InitializationAt(initialization) == old(InitializationAt(s.initialization));
    assert At(vmUuid) == old(At(s.vmUuid)) && OrderAt(order) == old(OrderAt(s.order));
    r := new WaldurMachineStatus(conditions, initialization, vmUuid, s.state, s.resource, s.resourceState, order);
    assert ConditionsAt(conditions) == old@copied(ConditionsAt(conditions));
    assert InitializationAt(initialization) == old@copied(InitializationAt(initialization));
    assert InitializationReach(initialization) == old@copied(InitializationReach(initialization));
    assert OrderAt(order) == old@copied(OrderAt(order)) && OrderReach(order) == old@copied(OrderReach(order));
  }

  // ----- refreshing in place -----

  function Refreshed(o: OrderValue, state: OrderState, resourceUuid: Option<string>): OrderValue {
    o.(state := state, resourceUuid := if resourceUuid.Some? then resourceUuid else o.resourceUuid)
  }

  /** refreshOrder: writes through the pointer. */
  method RefreshOrder(o: WaldurOrder, state: OrderState, resourceUuid: Option<string>)
    modifies o
    ensures fresh(OrderReach(o) - old(OrderReach(o)))
    ensures OrderAt(o) == Some(Refreshed(old(OrderAt(o)).value, state, resourceUuid))
  {
    o.state := state;
    if resourceUuid.Some? {
      o.resourceUuid := new StringCell(resourceUuid.value);
    }
  }

  /** The start of refreshVM within a pass: take the snapshot, then refresh the order of the object in
      memory. The snapshot keeps the old value, so the patch between the documents of the two,
      however a status is written as one, makes the stored document the new one. */
  method SnapshotThenRefreshMachine(s: WaldurMachineStatus, state: OrderState, resourceUuid: Option<string>, ghost encode: MachineValue -> Json)
    returns (base: WaldurMachineStatus)
    requires s.order != null
    requires forall v :: encode(v).Obj? && NullFree(encode(v))
    modifies s.order
    ensures MachineAt(base) == old(MachineAt(s))
    ensures MachineAt(s) == old(MachineAt(s)).(order := Some(Refreshed(old(OrderAt(s.order)).value, state, resourceUuid)))
    ensures Apply(Some(encode(old(MachineAt(s)))), Diff(encode(MachineAt(base)), encode(MachineAt(s)))) == encode(MachineAt(s))
  {
    base := CopyMachine(s);
    assert OrderAt(s.order) == old(OrderAt(s.order));
    RefreshMachine(base, s, state, resourceUuid);
    NullFreeArrives(encode(MachineAt(base)), encode(MachineAt(s)));
  }

  /** Refreshing one status leaves another it shares nothing with alone. */
  method RefreshMachine(base: WaldurMachineStatus, s: WaldurMachineStatus, state: OrderState, resourceUuid: Option<string>)
    requires s.order != null
    requires MachineReach(base) !! OrderReach(s.order)
    modifies s.order
    ensures MachineAt(base) == old(MachineAt(base))
    ensures MachineAt(s) == old(MachineAt(s)).(order := Some(Refreshed(old(OrderAt(s.order)).value, state, resourceUuid)))
  {
    RefreshOrder(s.order, state, resourceUuid);
    assert OrderAt(base.order) == old(OrderAt(base.order));
    assert InitializationAt(base.initialization) == old(InitializationAt(base.initialization));
    assert InitializationAt(s.initialization) == old(InitializationAt(s.initialization));
  }

  /** The same for the tenant of one slug: the copy of the map keeps its value, and of the map in
      memory only that tenant changes. */
  method SnapshotThenRefreshTenant(m: TenantMap, slug: string, state: OrderState, resourceUuid: Option<string>) returns (base: map<string, OpenStackTenant>)
    requires slug in m.entries && m.entries[slug].order != null && Separate(m.entries)
    modifies m.entries[slug].order
    ensures base.Keys == m.entries.Keys
    ensures forall k :: k in m.entries ==> TenantAt(base[k]) == old(TenantAt(m.entries[k]))
    ensures forall k :: k in m.entries && k != slug ==> TenantAt(m.entries[k]) == old(TenantAt(m.entries[k]))
    ensures OrderAt(m.entries[slug].order) == Some(Refreshed(old(OrderAt(m.entries[slug].order)).value, state, resourceUuid))
  {
    base := CopyEntries(m.entries);
    assert OrderAt(m.entries[slug].order) == old(OrderAt(m.entries[slug].order));
    forall k | k in m.entries ensures TenantAt(m.entries[k]) == old(TenantAt(m.entries[k])) {}
    RefreshTenant(base, m.entries, slug, state, resourceUuid);
  }

  method RefreshTenant(base: map<string, OpenStackTenant>, m: map<string, OpenStackTenant>, slug: string, state: OrderState, resourceUuid: Option<string>)
    requires slug in m && m[slug].order != null && Separate(m)
    requires forall k :: k in base ==> m[slug].order !in TenantReach(base[k])
    modifies m[slug].order
    ensures forall k :: k in base ==> TenantAt(base[k]) == old(TenantAt(base[k]))
    ensures forall k :: k in m && k != slug ==> TenantAt(m[k]) == old(TenantAt(m[k]))
    ensures OrderAt(m[slug].order) == Some(Refreshed(old(OrderAt(m[slug].order)).value, state, resourceUuid))
  {
    assert forall k :: k in m && k != slug ==> m[slug].order !in TenantReach(m[k]);
    RefreshOrder(m[slug].order, state, resourceUuid);
  }

  /** Copying the struct values without their pointers is not enough: the refresh then shows in the
      snapshot as well, and the patch between the two documents changes no stored one. */
  method ShallowThenRefresh(m: TenantMap, slug: string, state: OrderState, resourceUuid: Option<string>,
                            ghost encode: map<string, TenantValue> -> Json, ghost stored: Json)
    returns (base: TenantMap)
    requires slug in m.entries && m.entries[slug].order != null
    requires stored.Obj? && forall v :: encode(v).Obj?
    modifies m.entries[slug].order
    ensures base != m && base.entries == m.entries
    ensures OrderAt(m.entries[slug].order) == Some(Refreshed(old(OrderAt(m.entries[slug].order)).value, state, resourceUuid))
    ensures Apply(Some(stored), Diff(encode(EntriesAt(base.entries)), encode(EntriesAt(m.entries)))) == stored
  {
    base := new TenantMap(m.entries);
    RefreshOrder(m.entries[slug].order, state, resourceUuid);
    AliasedSnapshotWritesNothing(stored, encode(EntriesAt(m.entries)));
  }
}
