/** The stored objects (api/v1beta2/waldurcluster_types.go, waldurmachine_types.go), without
    timestamps and messages. */
module ApiTypes {
  import opened Prelude
  import opened Waldur

  /** CoreStates of the Waldur client; `CoreUnset` is the empty string. */
  datatype CoreState = CoreUnset | CoreCreating | CoreOK | CoreErred | CoreOther(code: string)

  datatype ResourceState = ResourceUnset | ResourceOK | ResourceOther(code: string)

  datatype Reason = Provisioning | Provisioned | ProvisioningFailed

  /** The Ready condition: its status and reason. */
  datatype Ready = Ready(ok: bool, reason: Reason)

  /** OpenStackTenant: the tenant kept for one offering slug. */
  datatype Tenant = Tenant(
    state: CoreState, uuid: Option<Uuid>, name: string,
    resource: Option<Uuid>, resourceState: ResourceState,
    project: Option<string>, order: Option<OrderRecord>)

  datatype ClusterStatus = ClusterStatus(
    ready: Option<Ready>, provisioned: Option<bool>, tenants: map<string, Tenant>)

  datatype MachineStatus = MachineStatus(
    ready: Option<Ready>, provisioned: Option<bool>, vmUuid: Option<Uuid>, state: CoreState,
    resource: Option<Uuid>, resourceState: ResourceState, order: Option<OrderRecord>)

  const BLANK_MACHINE_STATUS := MachineStatus(None, None, None, CoreUnset, None, ResourceUnset, None)

  /** The parts of a stored WaldurMachine a pass reads or writes. */
  datatype MachineObject = MachineObject(
    deleting: bool, finalizer: bool, providerID: Option<string>, status: MachineStatus)

  /** The parts of a stored WaldurCluster a pass reads or writes. */
  datatype ClusterObject = ClusterObject(
    deleting: bool, finalizer: bool, endpoint: Option<string>, status: ClusterStatus)

  function TenantSlot(t: Tenant): Slot { Slot(t.resource, t.order) }

  function MachineSlot(s: MachineStatus): Slot { Slot(s.resource, s.order) }

  /** Answer to a marketplace resource query. `backend` is present only when both the scope URL
      and the backend uuid are. */
  datatype ResourceReply = ResourceReply(state: Option<ResourceState>, backend: bool)

  function WithResourceState(current: ResourceState, reply: ResourceReply): ResourceState {
    if reply.state.Some? then reply.state.value else current
  }
}
