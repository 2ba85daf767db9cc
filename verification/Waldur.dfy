/** The marketplace as both controllers see it, and the order-record protocol they share
    (internal/controller/waldur_helpers.go).

    A controller tracks each cloud resource in a *slot* of its stored status: the marketplace
    resource uuid and the most recent order. A WaldurMachine has one slot, a WaldurCluster one
    per offering slug. This module states what a stored slot must say about the marketplace and
    shows that every step of the protocol keeps it. */
module Waldur {
  import opened Prelude

  datatype RequestType = Create | Terminate

  /** `Pending` stands for every state an order can still leave. */
  datatype OrderState = Pending(phase: string) | Done | Erred | Canceled

  const PENDING_PROVIDER := Pending("pending-provider")

  predicate IsOrderTerminal(state: OrderState) {
    state == Done || state == Erred || state == Canceled
  }

  /** WaldurOrder: the controller's stored record of an order. */
  datatype OrderRecord = OrderRecord(
    uuid: Uuid, kind: RequestType, state: OrderState,
    resource: Option<Uuid>, backend: Option<Uuid>)

  /** An order inside the marketplace, with every state it has been in and the single-use
      credential its user data carries, if any. */
  datatype Order = Order(kind: RequestType, resource: Uuid, log: seq<OrderState>, secret: Option<string>)

  /** `mine` is a ledger: the orders accepted from this object's controller, with the slot each
      was submitted for. The controller never reads it. */
  datatype Market = Market(orders: map<Uuid, Order>, mine: map<Uuid, string>, projects: set<string>)

  datatype Slot = Slot(resource: Option<Uuid>, order: Option<OrderRecord>)

  const EMPTY_SLOT := Slot(None, None)

  // ----- the marketplace -----

  /** Terminal states are absorbing: only the last logged state may be terminal. */
  ghost predicate WellFormedLog(log: seq<OrderState>) {
    && log != []
    && forall i :: 0 <= i < |log| - 1 ==> !IsOrderTerminal(log[i])
  }

  function StateOf(order: Order): OrderState {
    if order.log == [] then PENDING_PROVIDER else order.log[|order.log| - 1]
  }

  ghost predicate MarketOk(m: Market) {
    && (forall id :: id in m.orders ==> WellFormedLog(m.orders[id].log))
    && (forall id :: id in m.mine ==> id in m.orders)
  }

  ghost predicate OrderGrows(before: Order, after: Order) {
    && after.kind == before.kind
    && after.resource == before.resource
    && after.secret == before.secret
    && before.log <= after.log
    && (before.log != [] && IsOrderTerminal(StateOf(before)) ==> after.log == before.log)
  }

  /** Orders are never forgotten, and what joins the ledger is new. */
  ghost predicate Grows(m: Market, m': Market) {
    && (forall id :: id in m.orders ==> id in m'.orders && OrderGrows(m.orders[id], m'.orders[id]))
    && (forall id :: id in m.mine ==> id in m'.mine && m'.mine[id] == m.mine[id])
    && (forall id :: id in m'.mine && id !in m.mine ==> id !in m.orders)
  }

  /** A step of everybody else: orders advance, other parties submit orders of their own, and projects
      come and go. */
  ghost predicate Evolves(m: Market, m': Market) {
    && MarketOk(m')
    && Grows(m, m')
    && m'.mine == m.mine
    && (forall id :: id in m'.orders && id !in m.orders ==> m'.orders[id].secret == None)
  }

  function Submit(m: Market, id: Uuid, order: Order, slot: string): Market {
    m.(orders := m.orders[id := order], mine := m.mine[id := slot])
  }

  lemma SubmitGrows(m: Market, id: Uuid, order: Order, slot: string)
    requires MarketOk(m) && id !in m.orders && WellFormedLog(order.log)
    ensures MarketOk(Submit(m, id, order, slot)) && Grows(m, Submit(m, id, order, slot))
  {}

  lemma GrowsTransitive(a: Market, b: Market, c: Market)
    requires MarketOk(a) && Grows(a, b) && Grows(b, c)
    ensures Grows(a, c)
  {
    forall id | id in a.orders ensures id in c.orders && OrderGrows(a.orders[id], c.orders[id]) {
      assert OrderGrows(a.orders[id], b.orders[id]) && OrderGrows(b.orders[id], c.orders[id]);
      PrefixTransitive(a.orders[id].log, b.orders[id].log, c.orders[id].log);
    }
  }

  lemma PrefixTransitive<T>(a: seq<T>, b: seq<T>, c: seq<T>)
    requires a <= b <= c
    ensures a <= c
  {}

  // ----- replies of the three order calls -----

  /** An order the marketplace may accept: its new uuid, the resource, its first state. */
  datatype NewOrder = NewOrder(id: Uuid, resource: Uuid, first: OrderState)

  /** Reply to a create order: turned down (any status but 201), no reply at all (the order may
      have been accepted all the same), or a 201. */
  datatype CreateReply =
    | Rejected
    | Dropped(accepted: Option<NewOrder>)
    | Created(order: NewOrder, backend: Option<Uuid>, name: string)

  /** Reply to a termination request: `NoUuid` covers a transport error, a bad status and a reply
      without an order uuid; the marketplace may have accepted the order in any of them. */
  datatype TerminateReply =
    | NoUuid(unknown: Option<(Uuid, OrderState)>)
    | Submitted(id: Uuid, first: OrderState)

  /** The marketplace side of a create order. It never reuses a uuid: a reply that names a known
      order cannot occur, and counts as no acceptance. */
  function AcceptCreate(m: Market, slot: string, n: NewOrder, secret: Option<string>): Market {
    if n.id in m.orders then m
    else Submit(m, n.id, Order(Create, n.resource, [n.first], secret), slot)
  }

  function AcceptTerminate(m: Market, slot: string, resource: Uuid, id: Uuid, first: OrderState): Market {
    if id in m.orders then m
    else Submit(m, id, Order(Terminate, resource, [first], None), slot)
  }

  /** submitTerminationOrder: the marketplace effect and the record it returns. The record always
      says pending-provider, whatever state the new order is in. */
  function SubmitTermination(m: Market, slot: string, resource: Uuid, reply: TerminateReply): (Market, Option<OrderRecord>) {
    match reply
    case NoUuid(None) => (m, None)
    case NoUuid(Some((id, first))) => (AcceptTerminate(m, slot, resource, id, first), None)
    case Submitted(id, first) =>
      (AcceptTerminate(m, slot, resource, id, first),
       if id in m.orders then None
       else Some(OrderRecord(id, Terminate, PENDING_PROVIDER, Some(resource), None)))
  }

  /** refreshOrder: `reply` is None when the order cannot be read, otherwise the backend uuid it
      reports; the state read is the order's current one. */
  function RefreshOrder(m: Market, rec: OrderRecord, reply: Option<Option<Uuid>>): Option<OrderRecord> {
    if reply.None? || rec.uuid !in m.orders then None
    else Some(rec.(state := StateOf(m.orders[rec.uuid]),
                   backend := if reply.value.Some? then reply.value else rec.backend))
  }

  // ----- what a stored slot says about the marketplace -----

  /** Order `id` was accepted for `slot` and its record has reached the API server. */
  ghost predicate Known(id: Uuid, slot: string, kind: RequestType, m: Market, recorded: set<Uuid>) {
    id in m.mine && m.mine[id] == slot && id in m.orders && m.orders[id].kind == kind && id in recorded
  }

  /** The record names a marketplace order, and its state is one that order has been in; the
      one exception is the pending-provider a termination record starts with. */
  ghost predicate RecordOk(rec: OrderRecord, m: Market) {
    && rec.uuid in m.orders
    && m.orders[rec.uuid].kind == rec.kind
    && rec.resource == Some(m.orders[rec.uuid].resource)
    && (rec.state in m.orders[rec.uuid].log || (rec.kind == Terminate && rec.state == PENDING_PROVIDER))
  }

  /** `id` is the one create order ever recorded for the slot, and it made `resource`. */
  ghost predicate CreatedBy(id: Uuid, slot: string, resource: Uuid, m: Market, recorded: set<Uuid>) {
    && Known(id, slot, Create, m, recorded)
    && m.orders[id].resource == resource
    && forall other :: Known(other, slot, Create, m, recorded) ==> other == id
  }

  ghost predicate SlotOk(s: Slot, slot: string, m: Market, recorded: set<Uuid>) {
    match s.resource
    case None =>
      && s.order == None
      && (forall id :: id in m.mine && m.mine[id] == slot ==> id !in recorded)
    case Some(r) =>
      && s.order.Some?
      && RecordOk(s.order.value, m)
      && s.order.value.resource == Some(r)
      && Known(s.order.value.uuid, slot, s.order.value.kind, m, recorded)
      && (exists id :: CreatedBy(id, slot, r, m, recorded))
      && (forall t :: Known(t, slot, Terminate, m, recorded) ==>
            t == s.order.value.uuid || IsOrderTerminal(StateOf(m.orders[t])))
  }

  /** Some termination of the resource has completed in the marketplace. */
  ghost predicate Released(resource: Uuid, m: Market) {
    exists t :: t in m.orders && TerminatedBy(t, resource, m)
  }

  ghost predicate TerminatedBy(t: Uuid, resource: Uuid, m: Market)
    requires t in m.orders
  {
    m.orders[t].kind == Terminate && m.orders[t].resource == resource && StateOf(m.orders[t]) == Done
  }

  predicate TerminationDone(s: Slot) {
    s.order.Some? && s.order.value.kind == Terminate && s.order.value.state == Done
  }

  predicate TerminationInFlight(s: Slot) {
    s.order.Some? && s.order.value.kind == Terminate && !IsOrderTerminal(s.order.value.state)
  }

  // ----- the record never runs ahead of the marketplace -----

  /** A recorded terminal state is the order's final state in the marketplace. */
  lemma TerminalRecordIsFinal(rec: OrderRecord, m: Market)
    requires MarketOk(m) && RecordOk(rec, m) && IsOrderTerminal(rec.state)
    ensures StateOf(m.orders[rec.uuid]) == rec.state
  {
    var log := m.orders[rec.uuid].log;
    assert WellFormedLog(log);
    var i :| 0 <= i < |log| && log[i] == rec.state;
  }

  lemma RecordOkGrows(rec: OrderRecord, m: Market, m': Market)
    requires RecordOk(rec, m) && Grows(m, m')
    ensures RecordOk(rec, m')
  {
    var before, after := m.orders[rec.uuid], m'.orders[rec.uuid];
    assert OrderGrows(before, after);
    if rec.state in before.log {
      var i :| 0 <= i < |before.log| && before.log[i] == rec.state;
      assert after.log[i] == rec.state;
    }
  }

  lemma RefreshKeepsRecordOk(m: Market, rec: OrderRecord, reply: Option<Option<Uuid>>)
    requires MarketOk(m) && RecordOk(rec, m)
    ensures RefreshOrder(m, rec, reply).Some? ==>
              var rec' := RefreshOrder(m, rec, reply).value;
              && RecordOk(rec', m) && rec'.uuid == rec.uuid && rec'.kind == rec.kind && rec'.resource == rec.resource
              && (IsOrderTerminal(rec.state) ==> rec'.state == rec.state)
  {
    var log := m.orders[rec.uuid].log;
    assert WellFormedLog(log) && log[|log| - 1] in log;
    if IsOrderTerminal(rec.state) {
      TerminalRecordIsFinal(rec, m);
    }
  }

  // ----- every protocol step keeps the slot invariant -----

  /** The marketplace may move on, and further orders may be accepted without being recorded. */
  lemma SlotOkGrows(s: Slot, slot: string, m: Market, m': Market, recorded: set<Uuid>)
    requires MarketOk(m) && MarketOk(m') && Grows(m, m') && recorded <= m.mine.Keys
    requires SlotOk(s, slot, m, recorded)
    ensures SlotOk(s, slot, m', recorded)
  {
    forall id, kind ensures Known(id, slot, kind, m', recorded) <==> Known(id, slot, kind, m, recorded) {
      if id in recorded {
        assert id in m.orders && OrderGrows(m.orders[id], m'.orders[id]);
      }
    }
    if s.resource.Some? {
      RecordOkGrows(s.order.value, m, m');
      var id :| CreatedBy(id, slot, s.resource.value, m, recorded);
      assert OrderGrows(m.orders[id], m'.orders[id]);
      assert CreatedBy(id, slot, s.resource.value, m', recorded);
      forall t | Known(t, slot, Terminate, m', recorded)
        ensures t == s.order.value.uuid || IsOrderTerminal(StateOf(m'.orders[t]))
      {
        assert Known(t, slot, Terminate, m, recorded);
        assert OrderGrows(m.orders[t], m'.orders[t]);
        assert WellFormedLog(m.orders[t].log);
      }
    }
  }

  /** Only the recorded orders of the slot itself matter to it. */
  lemma SlotOkRecordedAgree(s: Slot, slot: string, m: Market, recorded: set<Uuid>, recorded': set<Uuid>)
    requires SlotOk(s, slot, m, recorded)
    requires forall id :: id in m.mine && m.mine[id] == slot ==> (id in recorded <==> id in recorded')
    ensures SlotOk(s, slot, m, recorded')
  {
    forall o, kind ensures Known(o, slot, kind, m, recorded') <==> Known(o, slot, kind, m, recorded) {}
    if s.resource.Some? {
      var c :| CreatedBy(c, slot, s.resource.value, m, recorded);
      assert CreatedBy(c, slot, s.resource.value, m, recorded');
    }
  }

  lemma SlotOkRefreshed(s: Slot, slot: string, m: Market, recorded: set<Uuid>, reply: Option<Option<Uuid>>)
    requires MarketOk(m) && SlotOk(s, slot, m, recorded) && s.order.Some?
    requires RefreshOrder(m, s.order.value, reply).Some?
    ensures SlotOk(s.(order := RefreshOrder(m, s.order.value, reply)), slot, m, recorded)
  {
    RefreshKeepsRecordOk(m, s.order.value, reply);
  }

  /** An accepted create order fills an empty slot. */
  lemma SlotOkCreated(slot: string, m: Market, recorded: set<Uuid>, n: NewOrder, secret: Option<string>, backend: Option<Uuid>)
    requires MarketOk(m) && recorded <= m.mine.Keys && n.id !in m.orders
    requires SlotOk(EMPTY_SLOT, slot, m, recorded)
    ensures SlotOk(Slot(Some(n.resource), Some(OrderRecord(n.id, Create, n.first, Some(n.resource), backend))),
                   slot, AcceptCreate(m, slot, n, secret), recorded + {n.id})
  {
    var m' := AcceptCreate(m, slot, n, secret);
    var recorded' := recorded + {n.id};
    forall id, kind | Known(id, slot, kind, m', recorded') ensures id == n.id {}
    assert m'.orders[n.id].log == [n.first];
    assert n.first in [n.first];
    assert CreatedBy(n.id, slot, n.resource, m', recorded');
  }

  /** A termination order may only replace a record that is not itself a termination in flight. */
  lemma SlotOkTerminating(s: Slot, slot: string, m: Market, recorded: set<Uuid>, id: Uuid, first: OrderState)
    requires MarketOk(m) && recorded <= m.mine.Keys && id !in m.orders
    requires SlotOk(s, slot, m, recorded) && s.resource.Some? && !TerminationInFlight(s)
    ensures SlotOk(s.(order := Some(OrderRecord(id, Terminate, PENDING_PROVIDER, s.resource, None))),
                   slot, AcceptTerminate(m, slot, s.resource.value, id, first), recorded + {id})
  {
    var r := s.resource.value;
    var m' := AcceptTerminate(m, slot, r, id, first);
    var recorded' := recorded + {id};
    var rec := s.order.value;
    var c :| CreatedBy(c, slot, r, m, recorded);
    forall other | Known(other, slot, Create, m', recorded') ensures other == c {
      assert Known(other, slot, Create, m, recorded);
    }
    assert CreatedBy(c, slot, r, m', recorded');
    forall t | Known(t, slot, Terminate, m', recorded') && t != id
      ensures IsOrderTerminal(StateOf(m'.orders[t]))
    {
      assert Known(t, slot, Terminate, m, recorded);
      if t == rec.uuid {
        TerminalRecordIsFinal(rec, m);
      }
    }
  }

  // ----- consequences -----

  /** Nothing recorded for the slot is left: its one recorded creation is released and every
      recorded termination has ended. */
  ghost predicate SlotCleared(slot: string, m: Market, recorded: set<Uuid>) {
    && (forall id :: Known(id, slot, Create, m, recorded) ==> Released(m.orders[id].resource, m))
    && (forall a, b :: Known(a, slot, Create, m, recorded) && Known(b, slot, Create, m, recorded) ==> a == b)
    && (forall t :: Known(t, slot, Terminate, m, recorded) ==> IsOrderTerminal(StateOf(m.orders[t])))
  }

  /** A slot that is empty or whose termination is recorded as done is cleared. */
  lemma DoneSlotIsCleared(s: Slot, slot: string, m: Market, recorded: set<Uuid>)
    requires MarketOk(m) && SlotOk(s, slot, m, recorded)
    requires s.resource.None? || TerminationDone(s)
    ensures SlotCleared(slot, m, recorded)
  {
    if s.resource.Some? {
      var rec := s.order.value;
      TerminalRecordIsFinal(rec, m);
      assert TerminatedBy(rec.uuid, s.resource.value, m);
    }
  }

  lemma SlotClearedGrows(slot: string, m: Market, m': Market, recorded: set<Uuid>)
    requires MarketOk(m) && MarketOk(m') && recorded <= m.mine.Keys && Grows(m, m') && SlotCleared(slot, m, recorded)
    ensures SlotCleared(slot, m', recorded)
  {
    forall id, kind | Known(id, slot, kind, m', recorded)
      ensures Known(id, slot, kind, m, recorded) && OrderGrows(m.orders[id], m'.orders[id])
    {}
    forall id | Known(id, slot, Create, m', recorded) ensures Released(m'.orders[id].resource, m') {
      assert Known(id, slot, Create, m, recorded) && OrderGrows(m.orders[id], m'.orders[id]);
      ReleasedGrows(m.orders[id].resource, m, m');
    }
    forall t | Known(t, slot, Terminate, m', recorded) ensures IsOrderTerminal(StateOf(m'.orders[t])) {
      assert Known(t, slot, Terminate, m, recorded) && OrderGrows(m.orders[t], m'.orders[t]);
      assert WellFormedLog(m.orders[t].log);
    }
  }

  lemma ReleasedGrows(resource: Uuid, m: Market, m': Market)
    requires MarketOk(m) && Grows(m, m') && Released(resource, m)
    ensures Released(resource, m')
  {
    var t :| t in m.orders && TerminatedBy(t, resource, m);
    assert WellFormedLog(m.orders[t].log);
    assert OrderGrows(m.orders[t], m'.orders[t]);
    assert TerminatedBy(t, resource, m');
  }

  /** The orders of one kind accepted for a slot. */
  function OrdersOf(m: Market, slot: string, kind: RequestType): set<Uuid> {
    set id | id in m.mine && m.mine[id] == slot && id in m.orders && m.orders[id].kind == kind
  }

  /** Accepted but never recorded by the API server. */
  function Lost(m: Market, slot: string, kind: RequestType, recorded: set<Uuid>): set<Uuid> {
    OrdersOf(m, slot, kind) - recorded
  }

  /** Exact accounting of create orders: the recorded one, if the slot is filled, and the lost ones. */
  lemma CreateAccounting(s: Slot, slot: string, m: Market, recorded: set<Uuid>)
    requires SlotOk(s, slot, m, recorded)
    ensures |OrdersOf(m, slot, Create)| == |Lost(m, slot, Create, recorded)| + (if s.resource.Some? then 1 else 0)
  {
    var all, lost := OrdersOf(m, slot, Create), Lost(m, slot, Create, recorded);
    if s.resource.Some? {
      var c :| CreatedBy(c, slot, s.resource.value, m, recorded);
      forall id | id in all && id !in lost ensures id == c {
        assert Known(id, slot, Create, m, recorded);
      }
      assert all == lost + {c} && c !in lost;
    } else {
      assert all == lost;
    }
  }

  /** After the object is gone: at most one create order that was not lost. */
  lemma ClearedAccounting(slot: string, m: Market, recorded: set<Uuid>)
    requires SlotCleared(slot, m, recorded)
    ensures |OrdersOf(m, slot, Create)| <= 1 + |Lost(m, slot, Create, recorded)|
  {
    var all, lost := OrdersOf(m, slot, Create), Lost(m, slot, Create, recorded);
    if all != lost {
      var c :| c in all && c !in lost;
      forall id | id in all && id !in lost ensures id == c {
        assert Known(id, slot, Create, m, recorded) && Known(c, slot, Create, m, recorded);
      }
      assert all == lost + {c};
    }
  }

  function LiveTerminations(m: Market, slot: string): set<Uuid> {
    set t | t in OrdersOf(m, slot, Terminate) && !IsOrderTerminal(StateOf(m.orders[t]))
  }

  /** At most one live termination order per slot beyond those whose record was lost. */
  lemma TerminationAccounting(s: Slot, slot: string, m: Market, recorded: set<Uuid>)
    requires SlotOk(s, slot, m, recorded)
    ensures |LiveTerminations(m, slot)| <= 1 + |Lost(m, slot, Terminate, recorded)|
  {
    var live, lost := LiveTerminations(m, slot), Lost(m, slot, Terminate, recorded);
    var current := if s.order.Some? then {s.order.value.uuid} else {};
    forall t | t in live ensures t in lost + current {
      if t in recorded { assert Known(t, slot, Terminate, m, recorded); }
    }
    SubsetSize(live, lost + current);
  }
}
