/** Paper orders and their synthetic fills
    (src/constraint_scanner/trading/order_tracker.py, db/repositories/orders.py). */
module OrderStore {
  import opened Common
  import opened RiskPolicy
  import opened OrderBuilder

  datatype OrderStatus = PaperFilled

  /** An order row with the parts of its raw request that say why it was written. */
  datatype LiveOrder = LiveOrder(
    id: nat, opportunityId: int, marketId: int, tokenId: int, clientOrderId: string, venueOrderId: Option<string>,
    status: OrderStatus, side: Side, price: real, quantity: real, submittedAt: Instant, decision: RiskDecision,
    simulationRunId: string)

  datatype LiveFill = LiveFill(
    id: nat, orderId: nat, marketId: int, tokenId: int, venueFillId: string, filledAt: Instant, price: real, quantity: real,
    feeUsd: real, simulationRunId: string)

  datatype Store = Store(orders: seq<LiveOrder>, fills: seq<LiveFill>)

  const EMPTY_STORE := Store([], [])

  /** The hash behind fill ids: of the client order id and the position in the batch. */
  type FillHash = (string, nat) -> string

  /** What all rows written by one attempt share. */
  datatype Batch = Batch(opportunityId: int, decision: RiskDecision, simulationRunId: string, submittedAt: Instant)

  predicate HasClientId(orders: seq<LiveOrder>, clientOrderId: string) {
    exists i :: 0 <= i < |orders| && orders[i].clientOrderId == clientOrderId
  }

  predicate HasFillId(fills: seq<LiveFill>, venueFillId: string) {
    exists i :: 0 <= i < |fills| && fills[i].venueFillId == venueFillId
  }

  function OrderRow(id: nat, batch: Batch, r: OrderRequest): LiveOrder {
    LiveOrder(id, batch.opportunityId, r.marketId, r.tokenId, r.clientOrderId, None, PaperFilled, r.side, r.price, r.quantity,
              batch.submittedAt, batch.decision, batch.simulationRunId)
  }

  function FillRow(id: nat, orderId: nat, batch: Batch, r: OrderRequest, venueFillId: string): LiveFill {
    LiveFill(id, orderId, r.marketId, r.tokenId, venueFillId, batch.submittedAt, r.price, r.quantity, 0.0, batch.simulationRunId)
  }

  /** One order with its fill; none when either id is taken. */
  function PersistOne(fillHash: FillHash, store: Store, batch: Batch, r: OrderRequest, index: nat): Option<Store> {
    var fillId := fillHash(r.clientOrderId, index);
    if HasClientId(store.orders, r.clientOrderId) || HasFillId(store.fills, fillId) then None
    else
      Some(Store(store.orders + [OrderRow(|store.orders|, batch, r)],
                 store.fills + [FillRow(|store.fills|, |store.orders|, batch, r, fillId)]))
  }

  function PersistAll(fillHash: FillHash, store: Store, batch: Batch, requests: seq<OrderRequest>): Option<Store> {
    if requests == [] then Some(store)
    else
      var init := PersistAll(fillHash, store, batch, requests[..|requests| - 1]);
      if init.None? then None else PersistOne(fillHash, init.value, batch, requests[|requests| - 1], |requests|)
  }

  lemma {:induction false} ConflictSticks(fillHash: FillHash, store: Store, batch: Batch, requests: seq<OrderRequest>, n: nat)
    requires n <= |requests| && PersistAll(fillHash, store, batch, requests[..n]).None?
    ensures PersistAll(fillHash, store, batch, requests).None?
  {
    if n == |requests| {
      assert requests[..n] == requests;
    } else {
      assert requests[..|requests| - 1][..n] == requests[..n];
      ConflictSticks(fillHash, store, batch, requests[..|requests| - 1], n);
    }
  }

  class OrdersRepository {
    var orders: seq<LiveOrder>
    var fills: seq<LiveFill>

    constructor ()
      ensures View() == EMPTY_STORE
    {
      orders, fills := [], [];
    }

    function View(): Store
      reads this
    {
      Store(orders, fills)
    }

    /** Inserts the order under the next id; refused when its client order id is taken. */
    method CreateOrder(row: LiveOrder) returns (id: Option<nat>)
      modifies this
      ensures id.None? <==> HasClientId(old(orders), row.clientOrderId)
      ensures id.Some? ==> id.value == |old(orders)| && orders == old(orders) + [row.(id := id.value)]
      ensures id.None? ==> orders == old(orders)
      ensures fills == old(fills)
    {
      if HasClientId(orders, row.clientOrderId) {
        return None;
      }
      id := Some(|orders|);
      orders := orders + [row.(id := |orders|)];
    }

    method CreateFill(row: LiveFill) returns (id: Option<nat>)
      modifies this
      ensures id.None? <==> HasFillId(old(fills), row.venueFillId)
      ensures id.Some? ==> id.value == |old(fills)| && fills == old(fills) + [row.(id := id.value)]
      ensures id.None? ==> fills == old(fills)
      ensures orders == old(orders)
    {
      if HasFillId(fills, row.venueFillId) {
        return None;
      }
      id := Some(|fills|);
      fills := fills + [row.(id := |fills|)];
    }

    /** Takes back what a session wrote. */
    method Rollback(saved: Store)
      modifies this
      ensures View() == saved
    {
      orders, fills := saved.orders, saved.fills;
    }
  }

  class PaperOrderTracker {
    const repository: OrdersRepository
    const fillHash: FillHash

    constructor (repository: OrdersRepository, fillHash: FillHash)
      ensures this.repository == repository && this.fillHash == fillHash
    {
      this.repository, this.fillHash := repository, fillHash;
    }

    /** Writes an order and its fill per request. An id conflict raises, leaving what was written
        so far to the session's rollback. */
    method Persist(batch: Batch, requests: seq<OrderRequest>) returns (written: Option<nat>)
      modifies repository
      ensures var after := PersistAll(fillHash, old(repository.View()), batch, requests);
        && (written.Some? <==> after.Some?)
        && (after.Some? ==> repository.View() == after.value && written == Some(|requests|))
    {
      ghost var before := repository.View();
      for i := 0 to |requests|
        invariant PersistAll(fillHash, before, batch, requests[..i]) == Some(repository.View())
      {
        assert requests[..i + 1][..i] == requests[..i];
        ghost var store := repository.View();
        var r := requests[i];
        var fillId := fillHash(r.clientOrderId, i + 1);
        var orderId := repository.CreateOrder(OrderRow(0, batch, r));
        if orderId.None? {
          ConflictSticks(fillHash, before, batch, requests, i + 1);
          return None;
        }
        var id := repository.CreateFill(FillRow(0, orderId.value, batch, r, fillId));
        if id.None? {
          ConflictSticks(fillHash, before, batch, requests, i + 1);
          return None;
        }
        assert PersistOne(fillHash, store, batch, r, i + 1) == Some(repository.View());
      }
      assert requests[..|requests|] == requests;
      written := Some(|requests|);
    }
  }

  // ---------------------------------------------------------------- what a batch writes

  /** Orders and fills pair up by position, agree on what was traded, have no venue id and carry
      ids of their own. */
  ghost predicate WellFormed(store: Store) {
    && |store.orders| == |store.fills|
    && (forall i :: 0 <= i < |store.orders| ==> Paired(store.orders[i], store.fills[i], i))
    && (forall i, j :: 0 <= i < j < |store.orders| ==> store.orders[i].clientOrderId != store.orders[j].clientOrderId)
    && (forall i, j :: 0 <= i < j < |store.fills| ==> store.fills[i].venueFillId != store.fills[j].venueFillId)
  }

  predicate Paired(order: LiveOrder, fill: LiveFill, i: nat) {
    && order.id == fill.id == fill.orderId == i
    && order.marketId == fill.marketId && order.tokenId == fill.tokenId
    && order.price == fill.price && order.quantity == fill.quantity
    && order.simulationRunId == fill.simulationRunId
    && order.submittedAt == fill.filledAt
    && order.venueOrderId == None && order.status == PaperFilled && fill.feeUsd == 0.0
  }

  /** The fills recorded for an order. */
  function FillsOf(store: Store, orderId: nat): set<int> {
    set j | 0 <= j < |store.fills| && store.fills[j].orderId == orderId
  }

  lemma ExactlyOneFill(store: Store, i: nat)
    requires WellFormed(store) && i < |store.orders|
    ensures FillsOf(store, store.orders[i].id) == {i}
    ensures store.fills[i].price == store.orders[i].price && store.fills[i].quantity == store.orders[i].quantity
  {
    assert Paired(store.orders[i], store.fills[i], i);
    forall j | 0 <= j < |store.fills| ensures store.fills[j].orderId == j {
      assert Paired(store.orders[j], store.fills[j], j);
    }
  }

  /** The order is for what was requested, and says in which batch and why. */
  predicate OrderedAs(order: LiveOrder, batch: Batch, r: OrderRequest) {
    && order.clientOrderId == r.clientOrderId
    && order.marketId == r.marketId && order.tokenId == r.tokenId && order.side == r.side
    && order.price == r.price && order.quantity == r.quantity
    && order.opportunityId == batch.opportunityId && order.submittedAt == batch.submittedAt
    && order.decision == batch.decision && order.simulationRunId == batch.simulationRunId
  }

  /** A batch appends its requests, one order and one fill each, and keeps the store well formed. */
  lemma {:induction false} BatchAppends(fillHash: FillHash, store: Store, batch: Batch, requests: seq<OrderRequest>)
    requires WellFormed(store) && PersistAll(fillHash, store, batch, requests).Some?
    ensures var after := PersistAll(fillHash, store, batch, requests).value;
      && WellFormed(after)
      && |after.orders| == |store.orders| + |requests| == |after.fills|
      && after.orders[..|store.orders|] == store.orders && after.fills[..|store.fills|] == store.fills
      && (forall i :: 0 <= i < |requests| ==> after.orders[|store.orders| + i] == OrderRow(|store.orders| + i, batch, requests[i]))
      && (forall i :: 0 <= i < |requests| ==> OrderedAs(after.orders[|store.orders| + i], batch, requests[i]))
  {
    hide WellFormed, PersistOne;
    SameLength(store);
    if requests != [] {
      var n := |requests| - 1;
      BatchAppends(fillHash, store, batch, requests[..n]);
      var middle := PersistAll(fillHash, store, batch, requests[..n]).value;
      var after := PersistAll(fillHash, store, batch, requests).value;
      OneAppends(fillHash, middle, batch, requests[n], n + 1);
      assert after.orders[..|store.orders|] == middle.orders[..|store.orders|];
      assert after.fills[..|store.fills|] == middle.fills[..|store.fills|];
    }
  }

  lemma SameLength(store: Store)
    requires WellFormed(store)
    ensures |store.fills| == |store.orders|
  {
  }

  lemma OneAppends(fillHash: FillHash, store: Store, batch: Batch, r: OrderRequest, index: nat)
    requires WellFormed(store) && PersistOne(fillHash, store, batch, r, index).Some?
    ensures var after := PersistOne(fillHash, store, batch, r, index).value;
      && WellFormed(after)
      && after.orders == store.orders + [OrderRow(|store.orders|, batch, r)]
      && |after.fills| == |store.fills| + 1 && after.fills[..|store.fills|] == store.fills
  {
  }

  /** A batch that repeats a stored client order id is refused as a whole. */
  lemma {:induction false} RepeatedIdConflicts(fillHash: FillHash, store: Store, batch: Batch, requests: seq<OrderRequest>, i: nat)
    requires i < |requests| && HasClientId(store.orders, requests[i].clientOrderId)
    requires WellFormed(store)
    ensures PersistAll(fillHash, store, batch, requests).None?
  {
    var n := |requests| - 1;
    var init := PersistAll(fillHash, store, batch, requests[..n]);
    if init.Some? {
      if i < n {
        RepeatedIdConflicts(fillHash, store, batch, requests[..n], i);
      } else {
        BatchAppends(fillHash, store, batch, requests[..n]);
        var k :| 0 <= k < |store.orders| && store.orders[k].clientOrderId == requests[i].clientOrderId;
        assert init.value.orders[k] == store.orders[k];
      }
    }
  }
}
