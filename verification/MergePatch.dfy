/** JSON merge patches (RFC 7396, section 2), the form in which both controllers write status: the
    patch is computed between a snapshot of the object and the object in memory
    (internal/controller/waldurcluster_controller.go, waldurmachine_controller.go). */
module MergePatch {
  import opened Prelude
  import opened Waldur
  import opened ApiTypes

  /** A value that is replaced as a whole: a string, number, boolean or list. */
  datatype Json = Null | Leaf(text: string) | Obj(fields: map<string, Json>)

  // ----- applying and computing a patch -----

  /** MergePatch of the RFC; `target` is None for a member that does not exist. */
  function Apply(target: Option<Json>, patch: Json): (result: Json)
    decreases patch
  {
    if !patch.Obj? then patch
    else
      var old_ := Fields(target);
      Obj(map k | k in old_.Keys + patch.fields.Keys && (k in patch.fields ==> patch.fields[k] != Null) ::
            if k in patch.fields then Apply(if k in old_ then Some(old_[k]) else None, patch.fields[k]) else old_[k])
  }

  function Fields(j: Option<Json>): map<string, Json> {
    if j.Some? && j.value.Obj? then j.value.fields else map[]
  }

  /** The patch from `a` to `b`: what is gone becomes null, what is new or of another kind is taken
      whole, objects are compared member by member. */
  function Diff(a: Json, b: Json): (patch: Json)
    requires a.Obj? && b.Obj?
    ensures patch.Obj?
    decreases b
  {
    Obj(map k | k in a.fields.Keys + b.fields.Keys && Changed(a.fields, b.fields, k) ::
          if k !in b.fields then Null
          else if k in a.fields && a.fields[k].Obj? && b.fields[k].Obj? then Diff(a.fields[k], b.fields[k])
          else b.fields[k])
  }

  /** Equal members are left out of the patch, and so are objects whose members are all equal. */
  predicate Changed(a: map<string, Json>, b: map<string, Json>, k: string) {
    k !in a || k !in b || a[k] != b[k]
  }

  // ----- what a patch can bring across -----

  predicate NullFree(j: Json)
    decreases j
  {
    match j
    case Null => false
    case Leaf(_) => true
    case Obj(fields) => forall k :: k in fields ==> NullFree(fields[k])
  }

  /** No null is new: a null means "remove", so it cannot be written. */
  predicate Expressible(a: Json, b: Json)
    requires a.Obj? && b.Obj?
    decreases b
  {
    forall k :: k in b.fields && Changed(a.fields, b.fields, k) ==>
      if k in a.fields && a.fields[k].Obj? && b.fields[k].Obj? then Expressible(a.fields[k], b.fields[k])
      else NullFree(b.fields[k])
  }

  /** A value taken whole arrives as it is exactly when it has no null, whatever was there that is
      not an object. */
  lemma {:induction false} WholeArrives(target: Option<Json>, b: Json)
    requires target.Some? ==> !(target.value.Obj? && b.Obj?)
    ensures b != Null ==> (Apply(target, b) == b <==> NullFree(b))
    decreases b
  {
    if b.Obj? {
      var got := Apply(target, b);
      assert Fields(target) == map[];
      forall k | k in b.fields && b.fields[k] != Null
        ensures k in got.fields && (got.fields[k] == b.fields[k] <==> NullFree(b.fields[k]))
      {
        WholeArrives(None, b.fields[k]);
      }
      if NullFree(b) {
        forall k | k in b.fields ensures k in got.fields && got.fields[k] == b.fields[k] {
          assert NullFree(b.fields[k]);
        }
        assert forall k :: k in got.fields ==> k in b.fields;
        assert got.fields == b.fields;
      } else {
        var k :| k in b.fields && !NullFree(b.fields[k]);
        assert k !in got.fields || got.fields[k] != b.fields[k];
      }
    }
  }

  /** Applying the difference gives the new document exactly when no null in it is new. */
  lemma {:induction false} PatchArrivesExactly(a: Json, b: Json)
    requires a.Obj? && b.Obj?
    ensures Apply(Some(a), Diff(a, b)) == b <==> Expressible(a, b)
    decreases b
  {
    var got := Apply(Some(a), Diff(a, b));
    forall k | k in b.fields && Changed(a.fields, b.fields, k)
      ensures k in got.fields && got.fields[k] == b.fields[k] <==> MemberExpressible(a.fields, b.fields, k)
    {
      MemberArrives(a, b, k);
    }
    assert forall k :: k in got.fields ==> k in b.fields;
    assert forall k :: k in b.fields && !Changed(a.fields, b.fields, k) ==> k in got.fields && got.fields[k] == b.fields[k];
    if Expressible(a, b) {
      assert forall k :: k in b.fields && Changed(a.fields, b.fields, k) ==> MemberExpressible(a.fields, b.fields, k);
      assert got.fields == b.fields;
    } else {
      var k :| k in b.fields && Changed(a.fields, b.fields, k) && !MemberExpressible(a.fields, b.fields, k);
      assert !(k in got.fields && got.fields[k] == b.fields[k]);
    }
  }

  predicate MemberExpressible(a: map<string, Json>, b: map<string, Json>, k: string)
    requires k in b
  {
    if k in a && a[k].Obj? && b[k].Obj? then Expressible(a[k], b[k]) else NullFree(b[k])
  }

  lemma {:induction false} MemberArrives(a: Json, b: Json, k: string)
    requires a.Obj? && b.Obj? && k in b.fields && Changed(a.fields, b.fields, k)
    ensures var got := Apply(Some(a), Diff(a, b));
            k in got.fields && got.fields[k] == b.fields[k] <==> MemberExpressible(a.fields, b.fields, k)
    decreases b, 0
  {
    var was := if k in a.fields then Some(a.fields[k]) else None;
    if was.Some? && was.value.Obj? && b.fields[k].Obj? {
      PatchArrivesExactly(was.value, b.fields[k]);
    } else {
      WholeArrives(was, b.fields[k]);
    }
  }

  lemma {:induction false} NullFreeExpressible(a: Json, b: Json)
    requires a.Obj? && b.Obj? && NullFree(b)
    ensures Expressible(a, b)
    decreases b
  {
    forall k | k in b.fields && Changed(a.fields, b.fields, k) ensures MemberExpressible(a.fields, b.fields, k) {
      if k in a.fields && a.fields[k].Obj? && b.fields[k].Obj? {
        NullFreeExpressible(a.fields[k], b.fields[k]);
      }
    }
  }

  /** A document without nulls always arrives. */
  lemma NullFreeArrives(a: Json, b: Json)
    requires a.Obj? && b.Obj? && NullFree(b)
    ensures Apply(Some(a), Diff(a, b)) == b
  {
    NullFreeExpressible(a, b);
    PatchArrivesExactly(a, b);
  }

  /** A snapshot that shares its contents with the object in memory equals it after every in-place
      change, and the patch against it is empty: nothing is written. */
  lemma AliasedSnapshotWritesNothing(stored: Json, memory: Json)
    requires stored.Obj? && memory.Obj?
    ensures Diff(memory, memory) == Obj(map[])
    ensures Apply(Some(stored), Diff(memory, memory)) == stored
  {
    assert Apply(Some(stored), Obj(map[])).fields == stored.fields;
  }

  // ----- status documents -----

  predicate NoNulls(fields: map<string, Json>) {
    NullFree(Obj(fields))
  }

  /** A member that is left out, or has a value without nulls. */
  predicate Present(value: Option<Json>) {
    value.Some? ==> NullFree(value.value)
  }

  /** Setting a member only when there is a value for it introduces no null. */
  function Put(fields: map<string, Json>, key: string, value: Option<Json>): (r: map<string, Json>)
    ensures NoNulls(fields) && Present(value) ==> NoNulls(r)
  {
    if value.Some? then fields[key := value.value] else fields
  }

  /** A string member that is left out when empty. */
  function Text(s: string): Option<Json> {
    if s == "" then None else Some(Leaf(s))
  }

  function Maybe(s: Option<string>): Option<Json> {
    if s.Some? then Some(Leaf(s.value)) else None
  }

  function CoreText(s: CoreState): string {
    match s
    case CoreUnset => ""
    case CoreCreating => "CREATING"
    case CoreOK => "OK"
    case CoreErred => "ERRED"
    case CoreOther(code) => code
  }

  function ResourceText(s: ResourceState): string {
    match s
    case ResourceUnset => ""
    case ResourceOK => "OK"
    case ResourceOther(code) => code
  }

  function OrderText(s: OrderState): string {
    match s
    case Pending(phase) => phase
    case Done => "done"
    case Erred => "erred"
    case Canceled => "canceled"
  }

  function OrderJson(o: Option<OrderRecord>): Option<Json> {
    if o.None? then None
    else
      var f0 := Put(map[], "uuid", Text(o.value.uuid));
      var f1 := Put(f0, "type", Text(if o.value.kind.Create? then "Create" else "Terminate"));
      var f2 := Put(f1, "state", Text(OrderText(o.value.state)));
      var f3 := Put(f2, "marketplaceResourceUuid", Maybe(o.value.resource));
      Some(Obj(Put(f3, "resourceUuid", Maybe(o.value.backend))))
  }

  /** The list of conditions is one value. */
  function ConditionsJson(ready: Option<Ready>): Option<Json> {
    if ready.None? then None
    else Some(Leaf((if ready.value.ok then "True/" else "False/") + (match ready.value.reason
                   case Provisioning => "Provisioning"
                   case Provisioned => "Provisioned"
                   case ProvisioningFailed => "ProvisioningFailed")))
  }

  function InitializationJson(provisioned: Option<bool>): Option<Json> {
    if provisioned.None? then None
    else Some(Obj(map["provisioned" := Leaf(if provisioned.value then "true" else "false")]))
  }

  function MachineJson(s: MachineStatus): (j: Json)
    ensures j.Obj?
  {
    var f0 := Put(map[], "conditions", ConditionsJson(s.ready));
    var f1 := Put(f0, "initialization", InitializationJson(s.provisioned));
    var f2 := Put(f1, "vmUuid", Maybe(s.vmUuid));
    var f3 := Put(f2, "state", Text(CoreText(s.state)));
    var f4 := Put(f3, "marketplaceResourceUuid", Maybe(s.resource));
    var f5 := Put(f4, "marketplaceResourceState", Text(ResourceText(s.resourceState)));
    Obj(Put(f5, "order", OrderJson(s.order)))
  }

  function TenantJson(t: Tenant): (j: Json)
    ensures j.Obj?
  {
    var f0 := Put(map[], "state", Text(CoreText(t.state)));
    var f1 := Put(f0, "uuid", Maybe(t.uuid));
    var f2 := Put(f1, "name", Text(t.name));
    var f3 := Put(f2, "marketplaceResourceUuid", Maybe(t.resource));
    var f4 := Put(f3, "marketplaceResourceState", Text(ResourceText(t.resourceState)));
    var f5 := Put(f4, "projectSlug", Maybe(t.project));
    Obj(Put(f5, "order", OrderJson(t.order)))
  }

  function TenantsJson(tenants: map<string, Tenant>): Option<Json> {
    if tenants == map[] then None else Some(Obj(map k | k in tenants :: TenantJson(tenants[k])))
  }

  function ClusterJson(s: ClusterStatus): (j: Json)
    ensures j.Obj?
  {
    var f0 := Put(map[], "conditions", ConditionsJson(s.ready));
    var f1 := Put(f0, "initialization", InitializationJson(s.provisioned));
    Obj(Put(f1, "tenants", TenantsJson(s.tenants)))
  }

  lemma OrderNullFree(o: Option<OrderRecord>)
    ensures Present(OrderJson(o))
  {}

  lemma HeadNullFree(ready: Option<Ready>, provisioned: Option<bool>)
    ensures Present(ConditionsJson(ready)) && Present(InitializationJson(provisioned))
  {}

  lemma LeavesNullFree(text: string, maybe: Option<string>)
    ensures Present(Text(text)) && Present(Maybe(maybe))
  {}

  /** Optional members are left out, never null. */
  lemma MachineNullFree(s: MachineStatus)
    ensures NoNulls(MachineJson(s).fields)
  {
    OrderNullFree(s.order);
    HeadNullFree(s.ready, s.provisioned);
    LeavesNullFree(CoreText(s.state), s.vmUuid);
    LeavesNullFree(ResourceText(s.resourceState), s.resource);
    assert NoNulls(map[]);
  }

  lemma TenantNullFree(t: Tenant)
    ensures NoNulls(TenantJson(t).fields)
  {
    OrderNullFree(t.order);
    LeavesNullFree(CoreText(t.state), t.uuid);
    LeavesNullFree(t.name, t.resource);
    LeavesNullFree(ResourceText(t.resourceState), t.project);
    assert NoNulls(map[]);
  }

  lemma TenantsNullFree(tenants: map<string, Tenant>)
    ensures Present(TenantsJson(tenants))
  {
    forall k | k in tenants ensures NullFree(TenantJson(tenants[k])) {
      TenantNullFree(tenants[k]);
    }
  }

  lemma ClusterNullFree(s: ClusterStatus)
    ensures NoNulls(ClusterJson(s).fields)
  {
    HeadNullFree(s.ready, s.provisioned);
    TenantsNullFree(s.tenants);
    assert NoNulls(map[]);
  }

  /** A patch of a machine's status against a snapshot of what is stored stores the status in memory,
      all of it. */
  lemma PatchStoresEverything(base: MachineStatus, memory: MachineStatus)
    ensures Apply(Some(MachineJson(base)), Diff(MachineJson(base), MachineJson(memory))) == MachineJson(memory)
  {
    MachineNullFree(memory);
    NullFreeArrives(MachineJson(base), MachineJson(memory));
  }

  /** The same for a cluster, tenants that are gone included. */
  lemma ClusterPatchStoresEverything(base: ClusterStatus, memory: ClusterStatus)
    ensures Apply(Some(ClusterJson(base)), Diff(ClusterJson(base), ClusterJson(memory))) == ClusterJson(memory)
  {
    ClusterNullFree(memory);
    NullFreeArrives(ClusterJson(base), ClusterJson(memory));
  }
}
