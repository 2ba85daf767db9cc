/** The status patches of the controllers, field by field in their programs, are the merge patches of
    the status documents. */
module StatusPatches {
  import opened Prelude
  import opened Waldur
  import opened ApiTypes
  import opened MergePatch
  import MC = MachineController
  import CC = ClusterController

  function Member(j: Json, k: string): Option<Json>
    requires j.Obj?
  {
    if k in j.fields then Some(j.fields[k]) else None
  }

  /** What a patch from `base` to `memory` makes of one stored member. */
  function Patched(stored: Option<Json>, base: Option<Json>, memory: Option<Json>): Option<Json> {
    if base == memory then stored
    else if memory.None? then None
    else if base.Some? && base.value.Obj? && memory.value.Obj? then Some(Apply(stored, Diff(base.value, memory.value)))
    else Some(Apply(stored, memory.value))
  }

  lemma PatchAt(stored: Json, base: Json, memory: Json, k: string)
    requires stored.Obj? && base.Obj? && memory.Obj? && Member(memory, k) != Some(Null)
    ensures Apply(Some(stored), Diff(base, memory)).Obj?
    ensures Member(Apply(Some(stored), Diff(base, memory)), k) == Patched(Member(stored, k), Member(base, k), Member(memory, k))
  {}

  // ----- the members of a machine's status -----

  /** The documents of the states the code knows by name differ from those of all others. */
  predicate Canonical(s: MachineStatus) {
    && (s.state.CoreOther? ==> s.state.code !in {"", "CREATING", "OK", "ERRED"})
    && (s.resourceState.ResourceOther? ==> s.resourceState.code !in {"", "OK"})
  }

  function MachineMember(s: MachineStatus, k: string): Option<Json> {
    if k == "conditions" then ConditionsJson(s.ready)
    else if k == "initialization" then InitializationJson(s.provisioned)
    else if k == "vmUuid" then Maybe(s.vmUuid)
    else if k == "state" then Text(CoreText(s.state))
    else if k == "marketplaceResourceUuid" then Maybe(s.resource)
    else if k == "marketplaceResourceState" then Text(ResourceText(s.resourceState))
    else if k == "order" then OrderJson(s.order)
    else None
  }

  function AtKey(fields: map<string, Json>, k: string): Option<Json> {
    if k in fields then Some(fields[k]) else None
  }

  lemma PutAt(fields: map<string, Json>, key: string, value: Option<Json>, k: string)
    ensures AtKey(Put(fields, key, value), k) == if k == key && value.Some? then value else AtKey(fields, k)
  {}

  lemma MachineMembers(s: MachineStatus, k: string)
    ensures Member(MachineJson(s), k) == MachineMember(s, k)
  {
    var f0 := Put(map[], "conditions", ConditionsJson(s.ready));
    var f1 := Put(f0, "initialization", InitializationJson(s.provisioned));
    var f2 := Put(f1, "vmUuid", Maybe(s.vmUuid));
    var f3 := Put(f2, "state", Text(CoreText(s.state)));
    var f4 := Put(f3, "marketplaceResourceUuid", Maybe(s.resource));
    var f5 := Put(f4, "marketplaceResourceState", Text(ResourceText(s.resourceState)));
    PutAt(map[], "conditions", ConditionsJson(s.ready), k);
    PutAt(f0, "initialization", InitializationJson(s.provisioned), k);
    PutAt(f1, "vmUuid", Maybe(s.vmUuid), k);
    PutAt(f2, "state", Text(CoreText(s.state)), k);
    PutAt(f3, "marketplaceResourceUuid", Maybe(s.resource), k);
    PutAt(f4, "marketplaceResourceState", Text(ResourceText(s.resourceState)), k);
    PutAt(f5, "order", OrderJson(s.order), k);
    assert MachineJson(s).fields == Put(f5, "order", OrderJson(s.order));
  }

  lemma MemberIsNotNull(s: MachineStatus, k: string)
    ensures MachineMember(s, k) != Some(Null)
  {}

  /** A member that is one value is taken from memory when it changed. */
  lemma LeafPatched(stored: Option<Json>, base: Option<Json>, memory: Option<Json>)
    requires memory.Some? ==> memory.value.Leaf?
    ensures Patched(stored, base, memory) == if base == memory then stored else memory
  {}

  lemma ReadyText(a: Option<Ready>, b: Option<Ready>)
    requires ConditionsJson(a) == ConditionsJson(b)
    ensures a == b
  {
    assert "True/"[0] == 'T' && "False/"[0] == 'F';
    if a.Some? && b.Some? {
      assert ConditionsJson(a).value.text[0] == (if a.value.ok then 'T' else 'F');
      assert ConditionsJson(b).value.text[0] == (if b.value.ok then 'T' else 'F');
      assert |"Provisioning"| == 12 && |"Provisioned"| == 11 && |"ProvisioningFailed"| == 18;
    }
  }

  lemma ProvisionedPatched(stored: Option<bool>, base: Option<bool>, memory: Option<bool>)
    ensures Patched(InitializationJson(stored), InitializationJson(base), InitializationJson(memory))
         == InitializationJson(if memory != base then memory else stored)
  {
    if base.Some? && memory.Some? && base != memory {
      var b, m := InitializationJson(base).value, InitializationJson(memory).value;
      assert b.fields["provisioned"] != m.fields["provisioned"];
      assert Diff(b, m).fields == map["provisioned" := m.fields["provisioned"]];
      assert Apply(InitializationJson(stored), Diff(b, m)).fields == m.fields;
    } else if memory.Some? && base.None? {
      assert Apply(InitializationJson(stored), InitializationJson(memory).value).fields == InitializationJson(memory).value.fields;
    }
  }

  /** The order arrives whole when the stored one is the snapshot's. */
  lemma OrderPatched(base: Option<OrderRecord>, memory: Option<OrderRecord>)
    ensures Patched(OrderJson(base), OrderJson(base), OrderJson(memory)) == OrderJson(memory)
  {
    if memory.Some? {
      OrderNullFree(memory);
      var m := OrderJson(memory).value;
      if base.Some? {
        NullFreeArrives(OrderJson(base).value, m);
      } else {
        WholeArrives(None, m);
      }
    }
  }

  lemma MemberPatched(base: MachineStatus, memory: MachineStatus, stored: MachineStatus, k: string)
    requires Canonical(base) && Canonical(memory)
    requires stored.order == base.order || memory.order == base.order
    ensures Patched(MachineMember(stored, k), MachineMember(base, k), MachineMember(memory, k))
         == MachineMember(MC.MergeStatus(base, memory, stored), k)
  {
    if k == "initialization" {
      ProvisionedPatched(stored.provisioned, base.provisioned, memory.provisioned);
    } else if k == "order" {
      if memory.order != base.order {
        OrderPatched(base.order, memory.order);
      }
    } else {
      LeafPatched(MachineMember(stored, k), MachineMember(base, k), MachineMember(memory, k));
      if k == "conditions" && ConditionsJson(base.ready) == ConditionsJson(memory.ready) {
        ReadyText(base.ready, memory.ready);
      }
    }
  }

  /** Writing a machine's status field by field is applying the merge patch to the stored document,
      whoever else changed other fields since; only a changed order needs the stored one to be the
      snapshot's, because its members are merged one by one. */
  lemma {:induction false} MachinePatch(base: MachineStatus, memory: MachineStatus, stored: MachineStatus)
    requires Canonical(base) && Canonical(memory)
    requires stored.order == base.order || memory.order == base.order
    ensures Apply(Some(MachineJson(stored)), Diff(MachineJson(base), MachineJson(memory)))
         == MachineJson(MC.MergeStatus(base, memory, stored))
  {
    var got, want := Apply(Some(MachineJson(stored)), Diff(MachineJson(base), MachineJson(memory))), MachineJson(MC.MergeStatus(base, memory, stored));
    forall k: string ensures Member(got, k) == Member(want, k) {
      MachineMembers(stored, k);
      MachineMembers(base, k);
      MachineMembers(memory, k);
      MemberIsNotNull(memory, k);
      MachineMembers(MC.MergeStatus(base, memory, stored), k);
      PatchAt(MachineJson(stored), MachineJson(base), MachineJson(memory), k);
      MemberPatched(base, memory, stored, k);
    }
    SameMembers(got, want);
  }

  lemma SameMembers(a: Json, b: Json)
    requires a.Obj? && b.Obj? && forall k: string :: Member(a, k) == Member(b, k)
    ensures a == b
  {
    forall k: string ensures k in a.fields <==> k in b.fields
      ensures k in a.fields ==> a.fields[k] == b.fields[k]
    {
      assert Member(a, k) == Member(b, k);
    }
    assert a.fields == b.fields;
  }

  /** A cluster's status, written onto the snapshot it was read from. */
  lemma ClusterPatch(base: ClusterStatus, memory: ClusterStatus)
    ensures Apply(Some(ClusterJson(base)), Diff(ClusterJson(base), ClusterJson(memory)))
         == ClusterJson(CC.MergeClusterStatus(base, memory, base))
  {
    CC.MergeOntoSnapshot(base, memory);
    ClusterPatchStoresEverything(base, memory);
  }
}
