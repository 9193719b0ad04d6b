/** The queue of orders waiting to reach the remote endpoint: an order that
    cannot be sent is appended to the stored queue, and a flush tries every
    queued order once and keeps those whose id was never sent. The network
    and the connectivity check are inputs. */
module SendOrder {
  import opened Models
  import opened Seqs
  import opened Storage

  /** What the POST to the endpoint produced: a response with its `ok`
      flag, or a thrown network error. */
  datatype ApiResponse = Responded(ok: bool) | NetworkError

  /** `sendOrderToApi`: true exactly for an ok response; a non-ok response
      and a network error both give false (nothing is thrown). */
  function SendOrderToApi(response: ApiResponse): (sent: bool)
    ensures sent <==> response == Responded(true)
  {
    match response
    case Responded(ok) => ok
    case NetworkError => false
  }

  /** The stored queue once an order is saved: a missing queue starts out
      empty, a queue that does not parse is left as it is (the error is
      caught and logged), otherwise the order goes at the end. */
  function Enqueued(pending: Slot<seq<Order>>, order: Order): (r: Slot<seq<Order>>)
    ensures pending.Corrupt? ==> r == pending
    ensures pending.Absent? ==> r == Present([order])
    ensures pending.Present? ==> r.Present? && |r.value| == |pending.value| + 1
    ensures pending.Present? ==> r.value[..|pending.value|] == pending.value && r.value[|pending.value|] == order
  {
    match pending
    case Absent => Present([order])
    case Corrupt => Corrupt
    case Present(orders) => Present(orders + [order])
  }

  /** The ids of the orders among the first `n` whose attempt succeeded, in
      queue order; `responses(i)` is what the attempt for the i-th order
      produced. */
  function SuccessfulIds(orders: seq<Order>, responses: nat -> ApiResponse, n: nat): seq<string>
    requires n <= |orders|
  {
    if n == 0 then []
    else
      SuccessfulIds(orders, responses, n - 1)
      + (if SendOrderToApi(responses(n - 1)) then [orders[n - 1].id] else [])
  }

  function NotIn(ids: seq<string>): Order -> bool {
    (o: Order) => o.id !in ids
  }

  /** The queue after a flush: the orders whose id is not among the
      successful ones, in queue order. */
  function Remaining(orders: seq<Order>, ids: seq<string>): seq<Order> {
    Filter(orders, NotIn(ids))
  }

  /** An id is recorded exactly when some attempted order with that id
      succeeded. */
  lemma {:induction false} SuccessfulIdsMembership(orders: seq<Order>, responses: nat -> ApiResponse, n: nat, id: string)
    requires n <= |orders|
    ensures id in SuccessfulIds(orders, responses, n) <==>
      exists i :: 0 <= i < n && orders[i].id == id && SendOrderToApi(responses(i))
  {
    if n > 0 {
      SuccessfulIdsMembership(orders, responses, n - 1, id);
    }
  }

  /** The queue left by a flush is a subsequence of the queue: it never grows
      and keeps the order. An order stays exactly when no order with its id
      was sent, so a failed order is dropped as well when another order
      with the same id went through. */
  lemma RemainingSpec(orders: seq<Order>, responses: nat -> ApiResponse, x: Order)
    ensures var left := Remaining(orders, SuccessfulIds(orders, responses, |orders|));
      && IsSubsequence(left, orders)
      && |left| <= |orders|
      && (x in left <==>
           x in orders && !exists i :: 0 <= i < |orders| && orders[i].id == x.id && SendOrderToApi(responses(i)))
  {
    var ids := SuccessfulIds(orders, responses, |orders|);
    FilterIsSubsequence(orders, NotIn(ids));
    FilterMembership(orders, NotIn(ids), x);
    SuccessfulIdsMembership(orders, responses, |orders|, x.id);
  }

  /** When every attempt succeeds the queue is emptied. */
  lemma AllSentEmpties(orders: seq<Order>, responses: nat -> ApiResponse)
    requires forall i :: 0 <= i < |orders| ==> SendOrderToApi(responses(i))
    ensures Remaining(orders, SuccessfulIds(orders, responses, |orders|)) == []
  {
    var ids := SuccessfulIds(orders, responses, |orders|);
    var left := Remaining(orders, ids);
    if left != [] {
      var x := left[0];
      FilterMembership(orders, NotIn(ids), x);
      var i :| 0 <= i < |orders| && orders[i] == x;
      SuccessfulIdsMembership(orders, responses, |orders|, x.id);
      assert false;
    }
  }

  /** When no attempt succeeds the queue stays as it was. */
  lemma NoneSentKeeps(orders: seq<Order>, responses: nat -> ApiResponse)
    requires forall i :: 0 <= i < |orders| ==> !SendOrderToApi(responses(i))
    ensures Remaining(orders, SuccessfulIds(orders, responses, |orders|)) == orders
  {
    var ids := SuccessfulIds(orders, responses, |orders|);
    forall i | 0 <= i < |orders| ensures NotIn(ids)(orders[i]) {
      SuccessfulIdsMembership(orders, responses, |orders|, orders[i].id);
    }
    FilterAll(orders, NotIn(ids));
  }

  /** `saveOrderLocally` */
  method SaveOrderLocally(store: KeyValueStore, order: Order)
    modifies store`pendingOrders
    ensures store.pendingOrders == Enqueued(old(store.pendingOrders), order)
  {
    match store.pendingOrders {
      case Absent =>
        store.pendingOrders := Present([order]);
      case Corrupt =>
        // JSON.parse throws; the error is caught and nothing is written
      case Present(orders) =>
        store.pendingOrders := Present(orders + [order]);
    }
  }

  /** `sendPendingOrders`. Nothing happens when nothing is stored, when the
      stored text does not parse, when the queue is empty or when the device
      is offline. Otherwise every queued order is attempted once, in queue
      order (`attempted` lists them), and the queue is rewritten to the
      orders whose id did not succeed. */
  method SendPendingOrders(store: KeyValueStore, isConnected: bool, responses: nat -> ApiResponse)
    returns (attempted: seq<Order>)
    modifies store`pendingOrders
    ensures !old(store.pendingOrders).Present? || old(store.pendingOrders).value == [] || !isConnected ==>
      store.pendingOrders == old(store.pendingOrders) && attempted == []
    ensures old(store.pendingOrders).Present? && old(store.pendingOrders).value != [] && isConnected ==>
      var orders := old(store.pendingOrders).value;
      && attempted == orders
      && store.pendingOrders == Present(Remaining(orders, SuccessfulIds(orders, responses, |orders|)))
  {
    attempted := [];
    if !store.pendingOrders.Present? {
      return;
    }
    var orders := store.pendingOrders.value;
    if |orders| == 0 || !isConnected {
      return;
    }
    var successfulOrders: seq<string> := [];
    for k := 0 to |orders|
      invariant attempted == orders[..k]
      invariant successfulOrders == SuccessfulIds(orders, responses, k)
    {
      var success := SendOrderToApi(responses(k));
      attempted := attempted + [orders[k]];
      if success {
        successfulOrders := successfulOrders + [orders[k].id];
      }
    }
    assert orders[..|orders|] == orders;
    store.pendingOrders := Present(Remaining(orders, successfulOrders));
  }

  /** `sendOrder`: connected and sent, nothing is queued; otherwise the order
      is saved to the queue, once. The connectivity listener it then
      installs is not modelled. */
  method SendOrder(store: KeyValueStore, order: Order, isConnected: bool, response: ApiResponse)
    returns (queued: bool)
    modifies store`pendingOrders
    ensures queued <==> !(isConnected && SendOrderToApi(response))
    ensures !queued ==> store.pendingOrders == old(store.pendingOrders)
    ensures queued ==> store.pendingOrders == Enqueued(old(store.pendingOrders), order)
  {
    if isConnected {
      var success := SendOrderToApi(response);
      if success {
        return false;
      }
    }
    SaveOrderLocally(store, order);
    queued := true;
  }
}
