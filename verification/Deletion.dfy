/** Deletion terminates. A behaviour is an infinite sequence of rounds, each one pass followed by any
    steps of others. Three things are assumed of the outside: every order of this controller settles
    after finitely many rounds, only finitely many of its terminations end Erred or Canceled, and
    from some round on the VM reports itself stopped. The number of rounds is bounded by a
    lexicographic measure: (bad orders not submitted yet, stage, rounds left in the stage). */
module Deletion {
  import opened Prelude
  import opened Waldur

  /** A slot and the marketplace as one pass finds them. */
  datatype Moment = Moment(slot: Slot, market: Market)

  /** What one deletion round does to a slot: poll, wait for the VM, submit a termination, or nothing
      once the termination is recorded as done. */
  ghost predicate SlotRound(a: Moment, b: Moment, mayWait: bool) {
    && (forall id :: id in a.market.orders ==> id in b.market.orders)
    && if TerminationDone(a.slot) then TerminationDone(b.slot)
       else if TerminationInFlight(a.slot) then
         && a.slot.order.value.uuid in a.market.orders && a.slot.order.value.uuid in a.market.mine
         && a.market.orders[a.slot.order.value.uuid].kind == Terminate
         && b.slot.order.Some? && b.slot.order.value.kind == Terminate
         && b.slot.order.value.uuid == a.slot.order.value.uuid
         && b.slot.order.value.state == StateOf(a.market.orders[a.slot.order.value.uuid])
       else
         || (mayWait && b.slot == a.slot)
         || (&& b.slot.order.Some? && b.slot.order.value.kind == Terminate && b.slot.order.value.state == PENDING_PROVIDER
             && b.slot.order.value.uuid !in a.market.orders && b.slot.order.value.uuid in b.market.orders)
  }

  ghost predicate RoundAt(ms: nat -> Moment, offAt: nat, i: nat) {
    SlotRound(ms(i), ms(i + 1), i < offAt)
  }

  /** From round `settle(id)` on, the controller's own order `id` is in a terminal state. */
  ghost predicate OrdersSettle(m: Market, settle: Uuid -> nat, i: nat) {
    forall id :: id in m.mine && id in m.orders && settle(id) <= i ==> IsOrderTerminal(StateOf(m.orders[id]))
  }

  predicate FailedTermination(order: Order) {
    order.kind == Terminate && (StateOf(order) == Erred || StateOf(order) == Canceled)
  }

  /** Of the controller's own orders only those in `bad` ever fail as terminations. */
  ghost predicate OnlyBadFail(m: Market, bad: set<Uuid>) {
    forall id :: id in m.mine && id in m.orders && FailedTermination(m.orders[id]) ==> id in bad
  }

  ghost predicate FairAt(ms: nat -> Moment, settle: Uuid -> nat, bad: set<Uuid>, i: nat) {
    OrdersSettle(ms(i).market, settle, i) && OnlyBadFail(ms(i).market, bad)
  }

  function Stage(s: Slot, bad: set<Uuid>): nat {
    if TerminationDone(s) then 0
    else if TerminationInFlight(s) then (if s.order.value.uuid in bad then 3 else 1)
    else 2
  }

  function RoundsLeft(s: Slot, settle: Uuid -> nat, offAt: nat, i: nat): nat {
    var target := if TerminationInFlight(s) then settle(s.order.value.uuid) else offAt;
    if i < target then target - i else 0
  }

  function BadLeft(m: Market, bad: set<Uuid>): nat {
    |bad - m.orders.Keys|
  }

  lemma BadLeftShrinks(a: Market, b: Market, bad: set<Uuid>)
    requires forall id :: id in a.orders ==> id in b.orders
    ensures BadLeft(b, bad) <= BadLeft(a, bad)
    ensures (exists id :: id in bad && id !in a.orders && id in b.orders) ==> BadLeft(b, bad) < BadLeft(a, bad)
  {
    SubsetSize(bad - b.orders.Keys, bad - a.orders.Keys);
    if id :| id in bad && id !in a.orders && id in b.orders {
      assert id in bad - a.orders.Keys && id !in bad - b.orders.Keys;
    }
  }

  ghost predicate Decreases(a: Moment, b: Moment, settle: Uuid -> nat, bad: set<Uuid>, offAt: nat, i: nat) {
    && BadLeft(b.market, bad) <= BadLeft(a.market, bad)
    && (|| BadLeft(b.market, bad) < BadLeft(a.market, bad)
        || Stage(b.slot, bad) < Stage(a.slot, bad)
        || (Stage(b.slot, bad) == Stage(a.slot, bad)
            && RoundsLeft(b.slot, settle, offAt, i + 1) < RoundsLeft(a.slot, settle, offAt, i)))
  }

  /** Polling: the order is still open and closer to settling, or it is terminal; it fails only if it
      is one of the bad ones. */
  lemma PollDecreases(a: Moment, b: Moment, settle: Uuid -> nat, bad: set<Uuid>, offAt: nat, i: nat)
    requires SlotRound(a, b, i < offAt) && TerminationInFlight(a.slot)
    requires OrdersSettle(a.market, settle, i) && OnlyBadFail(a.market, bad)
    ensures Decreases(a, b, settle, bad, offAt, i)
  {
    BadLeftShrinks(a.market, b.market, bad);
    var id := a.slot.order.value.uuid;
    assert FailedTermination(a.market.orders[id]) ==> id in bad;
    assert settle(id) <= i ==> IsOrderTerminal(StateOf(a.market.orders[id]));
  }

  /** Waiting brings the VM closer to being off; a new order is good, or uses up a bad one. */
  lemma SubmitDecreases(a: Moment, b: Moment, settle: Uuid -> nat, bad: set<Uuid>, offAt: nat, i: nat)
    requires SlotRound(a, b, i < offAt) && !TerminationInFlight(a.slot) && !TerminationDone(a.slot)
    ensures Decreases(a, b, settle, bad, offAt, i)
  {
    BadLeftShrinks(a.market, b.market, bad);
    if b.slot != a.slot {
      assert TerminationInFlight(b.slot) && b.slot.order.value.uuid !in a.market.orders;
    }
  }

  /** Every round strictly decreases the measure until the termination is recorded as done. */
  lemma RoundDecreases(a: Moment, b: Moment, settle: Uuid -> nat, bad: set<Uuid>, offAt: nat, i: nat)
    requires SlotRound(a, b, i < offAt) && !TerminationDone(a.slot)
    requires OrdersSettle(a.market, settle, i) && OnlyBadFail(a.market, bad)
    ensures Decreases(a, b, settle, bad, offAt, i)
  {
    if TerminationInFlight(a.slot) {
      PollDecreases(a, b, settle, bad, offAt, i);
    } else {
      SubmitDecreases(a, b, settle, bad, offAt, i);
    }
  }

  lemma {:induction false} SlotTerminates(ms: nat -> Moment, settle: Uuid -> nat, bad: set<Uuid>, offAt: nat, i: nat) returns (n: nat)
    requires forall k: nat :: RoundAt(ms, offAt, k)
    requires forall k: nat :: FairAt(ms, settle, bad, k)
    ensures i <= n && TerminationDone(ms(n).slot)
    decreases BadLeft(ms(i).market, bad), Stage(ms(i).slot, bad), RoundsLeft(ms(i).slot, settle, offAt, i)
  {
    if TerminationDone(ms(i).slot) {
      return i;
    }
    assert RoundAt(ms, offAt, i) && FairAt(ms, settle, bad, i);
    RoundDecreases(ms(i), ms(i + 1), settle, bad, offAt, i);
    n := SlotTerminates(ms, settle, bad, offAt, i + 1);
  }
}
