/** The services the controllers call, as objects whose fields the calls change. Each call takes
    the reply the outside world gives it; what the call did to the service and what the controller
    gets to see are its contract. */
module Clients {
  import opened Prelude
  import opened Waldur
  import opened MachineSpec

  /** What the controller sees of a create order: no reply, a status other than 201, or the order. */
  datatype CreateResponse = TransportError | BadStatus | Created201(order: NewOrder, backend: Option<Uuid>, name: string)

  class WaldurClient {
    var orders: map<Uuid, Order>
    ghost var mine: map<Uuid, string>
    var projects: set<string>

    ghost function View(): Market
      reads this
    {
      Market(orders, mine, projects)
    }

    /** MarketplaceOrdersCreate */
    method OrdersCreate(slot: string, secret: Option<string>, reply: CreateReply) returns (r: CreateResponse)
      modifies this
      ensures View() ==
                match reply
                case Rejected => old(View())
                case Dropped(None) => old(View())
                case Dropped(Some(n)) => AcceptCreate(old(View()), slot, n, secret)
                case Created(n, _, _) => AcceptCreate(old(View()), slot, n, secret)
      ensures r == match reply
                   case Rejected => BadStatus
                   case Dropped(_) => TransportError
                   case Created(n, backend, name) => if n.id in old(orders) then BadStatus else Created201(n, backend, name)
    {
      match reply {
        case Rejected =>
          r := BadStatus;
        case Dropped(accepted) =>
          if accepted.Some? && accepted.value.id !in orders {
            Accept(accepted.value.id, Order(Create, accepted.value.resource, [accepted.value.first], secret), slot);
          }
          r := TransportError;
        case Created(n, backend, name) =>
          if n.id in orders {
            r := BadStatus;
          } else {
            Accept(n.id, Order(Create, n.resource, [n.first], secret), slot);
            r := Created201(n, backend, name);
          }
      }
    }

    method Accept(id: Uuid, order: Order, slot: string)
      modifies this
      ensures View() == Submit(old(View()), id, order, slot)
    {
      orders := orders[id := order];
      mine := mine[id := slot];
    }

    /** MarketplaceOrdersRetrieve: the order's current state and the backend uuid, if reported. */
    method OrdersRetrieve(id: Uuid, reply: Option<Option<Uuid>>) returns (r: Option<(OrderState, Option<Uuid>)>)
      ensures r == if reply.None? || id !in orders then None else Some((StateOf(orders[id]), reply.value))
    {
      if reply.None? || id !in orders {
        return None;
      }
      return Some((StateOf(orders[id]), reply.value));
    }

    /** MarketplaceResourcesTerminate: the uuid of the new order, when a usable reply carries one. */
    method ResourcesTerminate(slot: string, resource: Uuid, reply: TerminateReply) returns (r: Option<Uuid>)
      modifies this
      ensures View() == SubmitTermination(old(View()), slot, resource, reply).0
      ensures r.Some? <==> SubmitTermination(old(View()), slot, resource, reply).1.Some?
      ensures r.Some? ==> reply.Submitted? && r.value == reply.id
    {
      r := None;
      match reply {
        case NoUuid(unknown) =>
          if unknown.Some? && unknown.value.0 !in orders {
            Accept(unknown.value.0, Order(Terminate, resource, [unknown.value.1], None), slot);
          }
        case Submitted(id, first) =>
          if id !in orders {
            Accept(id, Order(Terminate, resource, [first], None), slot);
            r := Some(id);
          }
      }
    }

    /** submitTerminationOrder (waldur_helpers.go) */
    method SubmitTerminationOrder(slot: string, resource: Uuid, reply: TerminateReply) returns (rec: Option<OrderRecord>)
      modifies this
      ensures (View(), rec) == SubmitTermination(old(View()), slot, resource, reply)
    {
      var id := ResourcesTerminate(slot, resource, reply);
      if id.None? {
        return None;
      }
      return Some(OrderRecord(id.value, Terminate, PENDING_PROVIDER, Some(resource), None));
    }

    /** refreshOrder (waldur_helpers.go): None is an error, otherwise the updated record. */
    method Refresh(rec: OrderRecord, reply: Option<Option<Uuid>>) returns (r: Option<OrderRecord>)
      ensures r == RefreshOrder(View(), rec, reply)
    {
      var read := OrdersRetrieve(rec.uuid, reply);
      if read.None? {
        return None;
      }
      var updated := rec.(state := read.value.0);
      if read.value.1.Some? {
        updated := updated.(backend := read.value.1);
      }
      return Some(updated);
    }
  }

  class VaultClient {
    var kv: map<string, string>
    var issued: set<string>
    ghost var revoked: set<string>

    ghost function State(): VaultState
      reads this
    {
      VaultState(kv, issued, revoked)
    }

    method SecretExists(path: string, readable: bool) returns (r: Option<bool>)
      ensures r == if readable then Some(path in kv) else None
    {
      r := if readable then Some(path in kv) else None;
    }

    method WriteSecret(path: string, token: string, reply: WriteReply) returns (ok: bool)
      modifies this
      ensures State() == if reply.Refused? then old(State()) else old(State()).(kv := old(kv)[path := token])
      ensures ok == reply.Applied?
    {
      if !reply.Refused? {
        kv := kv[path := token];
      }
      ok := reply.Applied?;
    }

    method GenerateSecretID(reply: Option<string>) returns (r: Option<string>)
      modifies this
      ensures (State(), r) == IssueSecret(old(State()), reply)
    {
      if reply.None? || reply.value == "" || reply.value in issued {
        return None;
      }
      issued := issued + {reply.value};
      return reply;
    }

    method RevokeSecretID(secret: string)
      modifies this
      ensures State() == old(State()).(revoked := old(revoked) + {secret})
    {
      revoked := revoked + {secret};
    }
  }
}
