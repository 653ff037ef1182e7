/** The order resolver's subscriptions and role declarations: which
    published events reach which subscriber, in what shape, and which roles
    each order operation declares for the guard. */
module OrderResolver {
  import opened Entities
  import opened Auth
  import Orders

  /** `pendingOrders` filter: the new order's restaurant owner is the subscriber. */
  predicate PendingOrdersFilter(ownerId: int, subscriber: User) {
    ownerId == subscriber.id
  }

  /** The subscriber is the order's driver, customer or restaurant owner. */
  predicate IsParty(order: Order, id: int) {
    order.driverId == Some(id) || order.customerId == Some(id) ||
    (order.restaurant.Some? && order.restaurant.value.ownerId == id)
  }

  /** `orderUpdates` filter: none of the three ids matches, or the update is
      for another order than the subscribed one, and the payload is dropped.
      Reading the owner id of a missing restaurant throws, which only happens
      once the driver and customer ids have both failed to match. */
  function OrderUpdatesFilter(order: Order, inputId: int, subscriber: User): (r: Eval<bool>)
    ensures r.Throws? <==> !IsParty(order, subscriber.id) && order.restaurant.None?
    ensures !IsParty(order, subscriber.id) ==> r != Value(true)
    ensures IsParty(order, subscriber.id) ==> r == Value(order.id == inputId)
  {
    if order.driverId != Some(subscriber.id) && order.customerId != Some(subscriber.id) &&
       (order.restaurant.None? || order.restaurant.value.ownerId != subscriber.id)
    then
      if order.restaurant.None? then Throws else Value(false)
    else
      Value(order.id == inputId)
  }

  /** A live subscription: its feed, the subscriber the guard attached to
      the connection, and for `orderUpdates` the subscribed order id. */
  datatype Subscription =
    | PendingOrders(user: User)
    | CookedOrders(user: User)
    | OrderUpdates(user: User, orderId: int)

  /** What one published event delivers to one subscription: nothing when
      the topic differs or the filter rejects (or throws on) the payload;
      otherwise the payload as reshaped by the feed's `resolve`. */
  function Deliver(sub: Subscription, event: Event): (r: Option<Order>)
    ensures r.Some? && sub.PendingOrders? ==>
              event.NewPendingOrder? && event.ownerId == sub.user.id && r.value == event.order
    ensures r.Some? && sub.CookedOrders? ==> event == NewCookedOrder(r.value)
    ensures r.Some? && sub.OrderUpdates? ==>
              event == NewOrderUpdate(r.value) && IsParty(r.value, sub.user.id) && r.value.id == sub.orderId
    ensures event.NewCookedOrder? && sub.CookedOrders? ==> r == Some(event.cooked)
  {
    match (sub, event)
    case (PendingOrders(user), NewPendingOrder(order, ownerId)) =>
      if PendingOrdersFilter(ownerId, user) then Some(order) else None
    case (CookedOrders(_), NewCookedOrder(order)) =>
      Some(order)
    case (OrderUpdates(user, orderId), NewOrderUpdate(order)) =>
      if OrderUpdatesFilter(order, orderId, user) == Value(true) then Some(order) else None
    case _ => None
  }

  /** What a subscription receives from a log of published events, in order. */
  function Feed(log: seq<Event>, sub: Subscription): (r: seq<Order>)
    ensures |r| <= |log|
    ensures forall k :: 0 <= k < |r| ==> exists e :: e in log && Deliver(sub, e) == Some(r[k])
  {
    if log == [] then []
    else
      (match Deliver(sub, log[0]) case Some(o) => [o] case None => []) + Feed(log[1..], sub)
  }

  /** Publishing more events extends every feed by what those events deliver. */
  lemma {:induction false} FeedAppend(a: seq<Event>, b: seq<Event>, sub: Subscription)
    ensures Feed(a + b, sub) == Feed(a, sub) + Feed(b, sub)
  {
    if a != [] {
      assert (a + b)[0] == a[0] && (a + b)[1..] == a[1..] + b;
      FeedAppend(a[1..], b, sub);
      var head := match Deliver(sub, a[0]) case Some(o) => [o] case None => [];
      assert Feed(a + b, sub) == head + Feed(a[1..] + b, sub);
      assert Feed(a, sub) == head + Feed(a[1..], sub);
    } else {
      assert a + b == b;
    }
  }

  /** A new pending order reaches a `pendingOrders` subscriber exactly when
      the subscriber owns the order's restaurant, and arrives as the order alone. */
  lemma PendingOrderReachesOnlyOwner(log: seq<Event>, order: Order, ownerId: int, user: User)
    ensures Feed(log + [NewPendingOrder(order, ownerId)], PendingOrders(user)) ==
            Feed(log, PendingOrders(user)) + (if ownerId == user.id then [order] else [])
  {
    FeedAppend(log, [NewPendingOrder(order, ownerId)], PendingOrders(user));
  }

  /** A published order update reaches an `orderUpdates` subscriber exactly
      when it is for the subscribed order and the subscriber is its driver,
      customer or restaurant owner; it then arrives as published. */
  lemma OrderUpdateReachesParty(log: seq<Event>, order: Order, user: User, orderId: int)
    ensures Feed(log + [NewOrderUpdate(order)], OrderUpdates(user, orderId)) ==
            Feed(log, OrderUpdates(user, orderId)) +
            (if IsParty(order, user.id) && order.id == orderId then [order] else [])
  {
    FeedAppend(log, [NewOrderUpdate(order)], OrderUpdates(user, orderId));
  }

  /** Every `cookedOrders` subscriber receives every cooked order: the feed
      does not depend on who subscribed. */
  lemma {:induction false} CookedOrdersBroadcast(log: seq<Event>, a: User, b: User)
    ensures Feed(log, CookedOrders(a)) == Feed(log, CookedOrders(b))
  {
    if log != [] {
      CookedOrdersBroadcast(log[1..], a, b);
    }
  }

  /** Everything an `orderUpdates` subscriber receives is an update of the
      order it subscribed to, for an order it is a party of. */
  lemma {:induction false} OrderUpdatesOnlyOwnOrder(log: seq<Event>, user: User, orderId: int)
    ensures forall k :: 0 <= k < |Feed(log, OrderUpdates(user, orderId))| ==>
              Feed(log, OrderUpdates(user, orderId))[k].id == orderId &&
              IsParty(Feed(log, OrderUpdates(user, orderId))[k], user.id) &&
              NewOrderUpdate(Feed(log, OrderUpdates(user, orderId))[k]) in log
  {
    if log != [] {
      OrderUpdatesOnlyOwnOrder(log[1..], user, orderId);
      var head := match Deliver(OrderUpdates(user, orderId), log[0]) case Some(o) => [o] case None => [];
      var feed := Feed(log, OrderUpdates(user, orderId));
      assert feed == head + Feed(log[1..], OrderUpdates(user, orderId));
      forall k | 0 <= k < |feed|
        ensures feed[k].id == orderId && IsParty(feed[k], user.id) && NewOrderUpdate(feed[k]) in log
      {
        if k >= |head| {
          assert feed[k] == Feed(log[1..], OrderUpdates(user, orderId))[k - |head|];
          assert NewOrderUpdate(feed[k]) in log[1..];
        }
      }
    }
  }

  /** The order resolver's operations. */
  datatype Operation =
    | CreateOrderOp | GetOrdersOp | GetOrderOp | EditOrderOp
    | PendingOrdersOp | CookedOrdersOp | OrderUpdatesOp

  /** The roles that may invoke each operation once signed in. */
  predicate Permits(op: Operation, role: Role) {
    match op
    case CreateOrderOp => role == Client
    case PendingOrdersOp => role == Owner
    case CookedOrdersOp => role == Delivery
    case _ => true
  }

  /** The `@Roles(...)` declaration on each operation. */
  function RequiredRoles(op: Operation): (r: Option<seq<AllowedRole>>)
    ensures r.Some? && |r.value| == 1
    ensures r.value == [Any] <==> forall role :: Permits(op, role)
  {
    match op
    case CreateOrderOp => assert !Permits(op, Owner); Some([Named(Client)])
    case GetOrdersOp => Some([Any])
    case GetOrderOp => Some([Any])
    case EditOrderOp => Some([Any])
    case PendingOrdersOp => assert !Permits(op, Client); Some([Named(Owner)])
    case CookedOrdersOp => assert !Permits(op, Client); Some([Named(Delivery)])
    case OrderUpdatesOp => Some([Any])
  }

  /** Through the guard, every order operation needs a token naming an
      existing user, and that user's role must be one the operation permits. */
  lemma GuardAdmitsExactlyPermittedRoles(op: Operation, token: Option<string>,
                                         verify: string -> Verification, findById: int -> Option<User>)
    ensures Decide(RequiredRoles(op), token, verify, findById) == Allow <==>
              Resolve(token, verify, findById).Principal? &&
              Permits(op, Resolve(token, verify, findById).user.role)
  {
    var roles := RequiredRoles(op).value;
    if Resolve(token, verify, findById).Principal? {
      var role := Resolve(token, verify, findById).user.role;
      assert Admits(roles, role) <==> Permits(op, role) by {
        match op
        case CreateOrderOp =>
          assert Named(role) in [Named(Client)] <==> role == Client;
        case PendingOrdersOp =>
          assert Named(role) in [Named(Owner)] <==> role == Owner;
        case CookedOrdersOp =>
          assert Named(role) in [Named(Delivery)] <==> role == Delivery;
        case _ =>
          assert Any in roles;
      }
    }
  }

  /** As `takeOrder` builds its update, the driver who just took an order
      with no earlier driver id is filtered out of that order's updates
      unless they are also its customer or owner. */
  lemma TakenUpdateAsWrittenMissesDriver(order: Order, driver: User)
    requires order.driverId.None? && order.customerId != Some(driver.id)
    requires order.restaurant.Some? && order.restaurant.value.ownerId != driver.id
    ensures Deliver(OrderUpdates(driver, order.id),
                     NewOrderUpdate(Orders.TakenPayloadAsWritten(order, driver))).None?
  {
  }

  /** With the relation id set alongside the relation, the new driver
      receives the update of the order they took. */
  lemma TakenUpdateReachesDriver(order: Order, driver: User)
    ensures Deliver(OrderUpdates(driver, order.id), NewOrderUpdate(Orders.TakenPayload(order, driver))) ==
            Some(Orders.TakenPayload(order, driver))
  {
  }

  /** Concretely: an order of customer 1 at a restaurant of owner 2 is taken
      by driver 3; as written, driver 3's subscription to that order gets nothing. */
  lemma TakenUpdateCounterexample()
    ensures var order := Order(7, Some(1), None, None, Some(Restaurant(5, "Pizza Place", 2, false, None)), [], 12, Cooked);
            var driver := User(3, "driver@example.com", "secret", Delivery);
            Deliver(OrderUpdates(driver, 7), NewOrderUpdate(Orders.TakenPayloadAsWritten(order, driver))).None? &&
            Deliver(OrderUpdates(driver, 7), NewOrderUpdate(Orders.TakenPayload(order, driver))).Some?
  {
  }
}
