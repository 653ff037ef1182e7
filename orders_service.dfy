/** The order service: pricing and saving a new order, role-scoped listing
    and lookup, role-checked status edits and driver assignment. The
    repositories are in-memory tables held by `OrderService`, and every
    `publish` appends to its event log. */
module Orders {
  import opened Entities
  import opened Pricing

  const RestaurantNotFound := "Restaurant not found"
  const DishNotFound := "Dish not found."
  const CouldNotCreateOrder := "Could not create order."
  const OrderNotFound := "Order not found."
  const CantSeeThat := "You cant see that"
  const CouldNotLoadOrder := "Could not load order."
  const CantSeeThis := "Can't see this."
  const CantDoThat := "You can't do that."
  const CouldNotEditOrder := "Could not edit order."
  const TakeOrderNotFound := "Order not found"
  const AlreadyHasDriver := "This order already has a driver"

  /** Whether `user` may see `order`. Each role looks only at its own field;
      an owner's check reads `order.restaurant.ownerId` and throws when the
      restaurant is gone. */
  function CanSeeOrder(user: User, order: Order): (r: Eval<bool>)
    ensures user.role == Client ==> r == Value(order.customerId == Some(user.id))
    ensures user.role == Delivery ==> r == Value(order.driverId == Some(user.id))
    ensures user.role == Owner ==> (r.Throws? <==> order.restaurant.None?)
    ensures user.role == Owner && order.restaurant.Some? ==> r == Value(order.restaurant.value.ownerId == user.id)
  {
    var canSee := true;
    var canSee := if user.role == Client && order.customerId != Some(user.id) then false else canSee;
    var canSee := if user.role == Delivery && order.driverId != Some(user.id) then false else canSee;
    if user.role == Owner && order.restaurant.None? then Throws
    else if user.role == Owner && order.restaurant.value.ownerId != user.id then Value(false)
    else Value(canSee)
  }

  /** The role table of `editOrder`: which target statuses a role may set. */
  function CanEdit(role: Role, status: OrderStatus): (r: bool)
    ensures role == Client ==> !r
    ensures role == Owner ==> (r <==> status == Cooking || status == Cooked)
    ensures role == Delivery ==> (r <==> status == PickedUp || status == Delivered)
  {
    var canEdit := role != Client;
    var canEdit := if role == Owner && status != Cooking && status != Cooked then false else canEdit;
    if role == Delivery && status != PickedUp && status != Delivered then false else canEdit
  }

  /** The checks `editOrder` runs on a found order, in their order:
      visibility first, then the role table. */
  function EditCheck(user: User, order: Order, status: OrderStatus): (r: Output<()>)
    ensures r == Ok(()) <==> CanSeeOrder(user, order) == Value(true) && CanEdit(user.role, status)
    ensures r == Err(CantSeeThis) <==> CanSeeOrder(user, order) == Value(false)
    ensures r == Err(CouldNotEditOrder) <==> CanSeeOrder(user, order).Throws?
    ensures r == Err(CantDoThat) <==> CanSeeOrder(user, order) == Value(true) && !CanEdit(user.role, status)
  {
    match CanSeeOrder(user, order)
    case Throws => Err(CouldNotEditOrder)
    case Value(canSee) =>
      if !canSee then Err(CantSeeThis)
      else if !CanEdit(user.role, status) then Err(CantDoThat)
      else Ok(())
  }

  /** The edit decision never looks at the order's current status. */
  lemma EditCheckIgnoresCurrentStatus(user: User, order: Order, current: OrderStatus, status: OrderStatus)
    ensures EditCheck(user, order.(status := current), status) == EditCheck(user, order, status)
  {
  }

  /** The events a permitted edit publishes: a cooked-order event when an
      owner sets `Cooked`, then always the order update. */
  function EditEvents(user: User, updated: Order): (r: seq<Event>)
    ensures |r| >= 1 && r[|r| - 1] == NewOrderUpdate(updated)
    ensures NewCookedOrder(updated) in r <==> user.role == Owner && updated.status == Cooked
    ensures |r| <= 2 && forall e :: e in r ==> e == NewCookedOrder(updated) || e == NewOrderUpdate(updated)
  {
    (if user.role == Owner && updated.status == Cooked then [NewCookedOrder(updated)] else []) +
    [NewOrderUpdate(updated)]
  }

  /** The update payload `{ ...order, driver }` exactly as `takeOrder` builds
      it: the relation is set, the `driverId` loaded with the order is kept. */
  function TakenPayloadAsWritten(order: Order, driver: User): (p: Order)
    ensures p.driver == Some(driver) && p.driverId == order.driverId
  {
    order.(driver := Some(driver))
  }

  /** The update payload with the relation id set along with the relation. */
  function TakenPayload(order: Order, driver: User): (p: Order)
    ensures DriverLinked(p) && p.driver == Some(driver)
    ensures p.id == order.id && p.customerId == order.customerId && p.restaurant == order.restaurant
  {
    order.(driver := Some(driver), driverId := Some(driver.id))
  }

  /** The saved line of a requested order line whose dish is `dish`. */
  function Snapshot(dish: Dish, line: OrderLine): OrderItem {
    OrderItem(dish, line.options)
  }

  /** The saved lines of requested lines whose dishes all exist. */
  function Snapshots(dishes: map<int, Dish>, lines: seq<OrderLine>): (r: seq<OrderItem>)
    requires forall k :: 0 <= k < |lines| ==> lines[k].dishId in dishes
    ensures |r| == |lines|
    ensures forall k :: 0 <= k < |lines| ==> r[k] == OrderItem(dishes[lines[k].dishId], lines[k].options)
  {
    if lines == [] then []
    else [Snapshot(dishes[lines[0].dishId], lines[0])] + Snapshots(dishes, lines[1..])
  }

  /** How many lines a scan got through: all of them, or those before the line that stopped it. */
  function Reached(scan: Scan, lines: seq<OrderLine>): nat {
    if scan.Priced? then |lines| else if scan.at <= |lines| then scan.at else |lines|
  }

  /** The outer loop from line `i` on, `total` being the sum of the lines before it. */
  function ScanFrom(dishes: map<int, Dish>, lines: seq<OrderLine>, i: nat, total: int): Scan
    requires i <= |lines|
    decreases |lines| - i
  {
    if i == |lines| then Priced(total)
    else if lines[i].dishId !in dishes then MissingDish(i)
    else
      match LineTotal(dishes[lines[i].dishId], lines[i].options)
      case Throws => Crashed(i)
      case Value(line) => ScanFrom(dishes, lines, i + 1, total + line)
  }

  /** The order items the outer loop saves from line `i` on. */
  function ItemsFrom(dishes: map<int, Dish>, lines: seq<OrderLine>, i: nat): seq<OrderItem>
    requires i <= |lines|
    decreases |lines| - i
  {
    if i == |lines| || lines[i].dishId !in dishes ||
       LineTotal(dishes[lines[i].dishId], lines[i].options).Throws? then []
    else [Snapshot(dishes[lines[i].dishId], lines[i])] + ItemsFrom(dishes, lines, i + 1)
  }

  /** After a priced prefix of `i` lines, the rest of the loop ends as the
      whole scan does. */
  lemma {:induction false} ScanFromRest(dishes: map<int, Dish>, lines: seq<OrderLine>, i: nat, total: int)
    requires i <= |lines| && ScanLines(dishes, lines[..i]) == Priced(total)
    ensures ScanFrom(dishes, lines, i, total) == ScanLines(dishes, lines)
    decreases |lines| - i
  {
    if i == |lines| {
      assert lines[..i] == lines;
    } else {
      if LinePriced(dishes, lines[i]) {
        var price := LineTotal(dishes[lines[i].dishId], lines[i].options).v;
        ScanExtends(dishes, lines, i, total);
        ScanFromRest(dishes, lines, i + 1, total + price);
      } else {
        ScanStopsAt(dishes, lines, i, total);
      }
    }
  }

  /** From line `i` on, the loop saves the items of the lines up to where
      its own scan stops, and all of their dishes exist. */
  lemma {:induction false} ItemsFromScan(dishes: map<int, Dish>, lines: seq<OrderLine>, i: nat, total: int)
    requires i <= |lines|
    ensures i <= Reached(ScanFrom(dishes, lines, i, total), lines)
    ensures forall k :: i <= k < Reached(ScanFrom(dishes, lines, i, total), lines) ==> lines[k].dishId in dishes
    ensures ItemsFrom(dishes, lines, i) == Snapshots(dishes, lines[i..Reached(ScanFrom(dishes, lines, i, total), lines)])
    decreases |lines| - i
  {
    var r := Reached(ScanFrom(dishes, lines, i, total), lines);
    if i == |lines| || lines[i].dishId !in dishes {
      assert lines[i..r] == [];
    } else {
      var price := LineTotal(dishes[lines[i].dishId], lines[i].options);
      if price.Throws? {
        assert lines[i..r] == [];
      } else {
        ItemsFromScan(dishes, lines, i + 1, total + price.v);
        assert lines[i..r][0] == lines[i] && lines[i..r][1..] == lines[i + 1..r];
      }
    }
  }

  /** What the outer loop computes is the reference scan, and the items it
      saves are those of the lines before the scan's stop. */
  lemma SaveLinesMeetsScan(dishes: map<int, Dish>, lines: seq<OrderLine>)
    ensures ScanFrom(dishes, lines, 0, 0) == ScanLines(dishes, lines)
    ensures forall k :: 0 <= k < Reached(ScanLines(dishes, lines), lines) ==> lines[k].dishId in dishes
    ensures ItemsFrom(dishes, lines, 0) == Snapshots(dishes, lines[..Reached(ScanLines(dishes, lines), lines)])
  {
    assert lines[..0] == [];
    ScanFromRest(dishes, lines, 0, 0);
    ItemsFromScan(dishes, lines, 0, 0);
    assert lines[0..Reached(ScanLines(dishes, lines), lines)] == lines[..Reached(ScanLines(dishes, lines), lines)];
  }

  /** An order stored for a restaurant refers to a restaurant of the table with the same owner. */
  predicate OwnedAsListed(restaurants: map<int, Restaurant>, r: Restaurant) {
    r.id in restaurants && restaurants[r.id].ownerId == r.ownerId
  }

  class OrderService {
    var orders: map<int, Order>
    var orderItems: seq<OrderItem>
    var restaurants: map<int, Restaurant>
    var dishes: map<int, Dish>
    var events: seq<Event>
    var nextOrderId: int

    /** Rows are keyed by their id, ids are issued below `nextOrderId`, a
        stored order's restaurant has its owner as listed in the restaurant
        table, and a stored driver relation agrees with its relation id. */
    ghost predicate Valid()
      reads this
    {
      && (forall id :: id in restaurants ==> restaurants[id].id == id)
      && (forall id :: id in orders ==> orders[id].id == id && id < nextOrderId)
      && (forall id :: id in orders ==> DriverLinked(orders[id]))
      && (forall id :: id in orders && orders[id].restaurant.Some? ==>
            OwnedAsListed(restaurants, orders[id].restaurant.value))
    }

    constructor (restaurants: map<int, Restaurant>, dishes: map<int, Dish>)
      requires forall id :: id in restaurants ==> restaurants[id].id == id
      ensures Valid()
      ensures this.restaurants == restaurants && this.dishes == dishes
      ensures orders == map[] && orderItems == [] && events == [] && nextOrderId == 1
    {
      this.restaurants := restaurants;
      this.dishes := dishes;
      orders := map[];
      orderItems := [];
      events := [];
      nextOrderId := 1;
    }

    /** `createOrder`: prices the requested lines, saves one order item per
        priced line as it goes, then saves the order and announces it to the
        restaurant's owner. */
    method CreateOrder(customer: User, restaurantId: int, lines: seq<OrderLine>) returns (out: Output<()>)
      requires Valid()
      modifies this`orders, this`orderItems, this`events, this`nextOrderId
      ensures Valid()
      ensures restaurantId !in restaurants ==>
                out == Err(RestaurantNotFound) && nextOrderId == old(nextOrderId) &&
                orders == old(orders) && orderItems == old(orderItems) && events == old(events)
      ensures restaurantId in restaurants && ScanLines(dishes, lines).MissingDish? ==>
                var at := ScanLines(dishes, lines).at;
                out == Err(DishNotFound) && nextOrderId == old(nextOrderId) &&
                orders == old(orders) && events == old(events) &&
                orderItems == old(orderItems) + Snapshots(dishes, lines[..at])
      ensures restaurantId in restaurants && ScanLines(dishes, lines).Crashed? ==>
                var at := ScanLines(dishes, lines).at;
                out == Err(CouldNotCreateOrder) && nextOrderId == old(nextOrderId) &&
                orders == old(orders) && events == old(events) &&
                orderItems == old(orderItems) + Snapshots(dishes, lines[..at])
      ensures restaurantId in restaurants && ScanLines(dishes, lines).Priced? ==>
                var restaurant := restaurants[restaurantId];
                var order := Order(old(nextOrderId), Some(customer.id), None, None, Some(restaurant),
                                   Snapshots(dishes, lines), SumOfLines(dishes, lines), Pending);
                out == Ok(()) && nextOrderId == old(nextOrderId) + 1 &&
                orders == old(orders)[old(nextOrderId) := order] &&
                orderItems == old(orderItems) + Snapshots(dishes, lines) &&
                events == old(events) + [NewPendingOrder(order, restaurant.ownerId)]
    {
      if restaurantId !in restaurants {
        return Err(RestaurantNotFound);
      }
      var restaurant := restaurants[restaurantId];
      var scan := SaveLines(lines);
      SaveLinesMeetsScan(dishes, lines);
      match scan
      case MissingDish(_) =>
        return Err(DishNotFound);
      case Crashed(_) =>
        return Err(CouldNotCreateOrder);
      case Priced(orderFinalPrice) =>
        assert lines[..|lines|] == lines;
        var order := SaveOrder(customer, restaurant, Snapshots(dishes, lines), orderFinalPrice);
        events := events + [NewPendingOrder(order, restaurant.ownerId)];
        return Ok(());
    }

    /** `orders.save(orders.create(...))` for a new order: a Pending order
        of `customer` at `restaurant` is stored under the next id. */
    method SaveOrder(customer: User, restaurant: Restaurant, items: seq<OrderItem>, total: int) returns (order: Order)
      requires Valid() && OwnedAsListed(restaurants, restaurant)
      modifies this`orders, this`nextOrderId
      ensures Valid()
      ensures order == Order(old(nextOrderId), Some(customer.id), None, None, Some(restaurant), items, total, Pending)
      ensures old(nextOrderId) !in old(orders)
      ensures orders == old(orders)[old(nextOrderId) := order] && nextOrderId == old(nextOrderId) + 1
    {
      order := Order(nextOrderId, Some(customer.id), None, None, Some(restaurant), items, total, Pending);
      orders := orders[nextOrderId := order];
      nextOrderId := nextOrderId + 1;
    }

    /** The outer loop of `createOrder`: looks up each line's dish, prices the
        line and saves its order item, stopping at the first missing dish or
        throwing lookup; the items saved before the stop stay saved. */
    method SaveLines(lines: seq<OrderLine>) returns (scan: Scan)
      modifies this`orderItems
      ensures scan == ScanFrom(dishes, lines, 0, 0)
      ensures orderItems == old(orderItems) + ItemsFrom(dishes, lines, 0)
    {
      var orderFinalPrice := 0;
      for i := 0 to |lines|
        invariant ScanFrom(dishes, lines, i, orderFinalPrice) == ScanFrom(dishes, lines, 0, 0)
        invariant orderItems + ItemsFrom(dishes, lines, i) == old(orderItems) + ItemsFrom(dishes, lines, 0)
      {
        var line := lines[i];
        if line.dishId !in dishes {
          return MissingDish(i);
        }
        var dish := dishes[line.dishId];
        if line.options.None? {
          return Crashed(i);
        }
        var dishPrice := PriceDish(dish, line.options.value);
        if dishPrice.Throws? {
          return Crashed(i);
        }
        assert ScanFrom(dishes, lines, i, orderFinalPrice) == ScanFrom(dishes, lines, i + 1, orderFinalPrice + dishPrice.v);
        assert ItemsFrom(dishes, lines, i) == [Snapshot(dish, line)] + ItemsFrom(dishes, lines, i + 1);
        orderFinalPrice := orderFinalPrice + dishPrice.v;
        var orderItem := Snapshot(dish, line);
        orderItems := orderItems + [orderItem];
      }
      return Priced(orderFinalPrice);
    }

    /** `getOrders`: a client gets their own orders whatever the status
        filter; a driver the orders assigned to them, and an owner the
        orders of the restaurants they own, both narrowed by the status
        filter when one is given. */
    method GetOrders(user: User, status: Option<OrderStatus>) returns (r: set<Order>)
      requires Valid()
      ensures user.role == Client ==>
                forall o :: o in r <==> o in orders.Values && o.customerId == Some(user.id)
      ensures user.role == Delivery ==>
                forall o :: o in r <==> o in orders.Values && o.driverId == Some(user.id) &&
                                        (status.Some? ==> o.status == status.value)
      ensures user.role == Owner ==>
                forall o :: o in r <==> o in orders.Values && o.restaurant.Some? &&
                                        o.restaurant.value.id in restaurants &&
                                        restaurants[o.restaurant.value.id].ownerId == user.id &&
                                        (status.Some? ==> o.status == status.value)
      ensures forall o :: o in r ==> o in orders.Values && CanSeeOrder(user, o) == Value(true)
    {
      match user.role
      case Client =>
        r := set o | o in orders.Values && o.customerId == Some(user.id);
      case Delivery =>
        r := set o | o in orders.Values && o.driverId == Some(user.id) &&
                     (status.Some? ==> o.status == status.value);
      case Owner =>
        var owned := set id | id in restaurants && restaurants[id].ownerId == user.id;
        r := set o | o in orders.Values && o.restaurant.Some? && o.restaurant.value.id in owned;
        if status.Some? {
          r := set o | o in r && o.status == status.value;
        }
      forall id | id in orders && orders[id] in r ensures CanSeeOrder(user, orders[id]) == Value(true) {
        assert orders[id].restaurant.Some? ==> OwnedAsListed(restaurants, orders[id].restaurant.value);
      }
    }

    /** `getOrder`: the order with that id, if the caller may see it. */
    method GetOrder(user: User, orderId: int) returns (out: Output<Order>)
      ensures orderId !in orders ==> out == Err(OrderNotFound)
      ensures orderId in orders ==>
                var o := orders[orderId];
                match CanSeeOrder(user, o)
                case Throws => out == Err(CouldNotLoadOrder)
                case Value(canSee) => out == if canSee then Ok(o) else Err(CantSeeThat)
      ensures out.Ok? <==> orderId in orders && CanSeeOrder(user, orders[orderId]) == Value(true)
    {
      if orderId !in orders {
        return Err(OrderNotFound);
      }
      var order := orders[orderId];
      var canSee := CanSeeOrder(user, order);
      if canSee.Throws? {
        return Err(CouldNotLoadOrder);
      }
      if !canSee.v {
        return Err(CantSeeThat);
      }
      return Ok(order);
    }

    /** `editOrder`: after the existence, visibility and role checks, only
        the status of the order changes, and the updated order is published. */
    method EditOrder(user: User, orderId: int, status: OrderStatus) returns (out: Output<()>)
      requires Valid()
      modifies this`orders, this`events
      ensures Valid()
      ensures orderId !in old(orders) ==>
                out == Err(OrderNotFound) && orders == old(orders) && events == old(events)
      ensures orderId in old(orders) ==>
                var o := old(orders)[orderId];
                out == EditCheck(user, o, status) &&
                (out.Err? ==> orders == old(orders) && events == old(events)) &&
                (out.Ok? ==> orders == old(orders)[orderId := o.(status := status)] &&
                             events == old(events) + EditEvents(user, o.(status := status)))
    {
      if orderId !in orders {
        return Err(OrderNotFound);
      }
      var order := orders[orderId];
      var canSee := CanSeeOrder(user, order);
      if canSee.Throws? {
        return Err(CouldNotEditOrder);
      }
      if !canSee.v {
        return Err(CantSeeThis);
      }
      var canEdit := true;
      if user.role == Client {
        canEdit := false;
      }
      if user.role == Owner && status != Cooking && status != Cooked {
        canEdit := false;
      }
      if user.role == Delivery && status != PickedUp && status != Delivered {
        canEdit := false;
      }
      if !canEdit {
        return Err(CantDoThat);
      }
      var newOrder := order.(status := status);
      orders := orders[orderId := newOrder];
      if user.role == Owner && status == Cooked {
        events := events + [NewCookedOrder(newOrder)];
      }
      events := events + [NewOrderUpdate(newOrder)];
      return Ok(());
    }

    /** `takeOrder`: assigns the driver to an order that has none, and
        publishes the order as loaded with its new driver spread over it;
        the published driver id is the one loaded, not the new driver's. */
    method TakeOrder(driver: User, orderId: int) returns (out: Output<()>)
      requires Valid()
      modifies this`orders, this`events
      ensures Valid()
      ensures orderId !in old(orders) ==>
                out == Err(TakeOrderNotFound) && orders == old(orders) && events == old(events)
      ensures orderId in old(orders) && old(orders)[orderId].driver.Some? ==>
                out == Err(AlreadyHasDriver) && orders == old(orders) && events == old(events)
      ensures orderId in old(orders) && old(orders)[orderId].driver.None? ==>
                var o := old(orders)[orderId];
                out == Ok(()) &&
                orders == old(orders)[orderId := o.(driver := Some(driver), driverId := Some(driver.id))] &&
                events == old(events) + [NewOrderUpdate(TakenPayloadAsWritten(o, driver))]
      ensures out.Ok? ==> orderId in orders && orders[orderId].driver == Some(driver)
    {
      if orderId !in orders {
        return Err(TakeOrderNotFound);
      }
      var order := orders[orderId];
      if order.driver.Some? {
        return Err(AlreadyHasDriver);
      }
      orders := orders[orderId := order.(driver := Some(driver), driverId := Some(driver.id))];
      events := events + [NewOrderUpdate(TakenPayloadAsWritten(order, driver))];
      return Ok(());
    }

    /** `takeOrder` as evidently intended: the same checks and the same
        stored row, but the published update carries the driver id along
        with the driver. */
    method TakeOrderCorrected(driver: User, orderId: int) returns (out: Output<()>)
      requires Valid()
      modifies this`orders, this`events
      ensures Valid()
      ensures orderId !in old(orders) ==>
                out == Err(TakeOrderNotFound) && orders == old(orders) && events == old(events)
      ensures orderId in old(orders) && old(orders)[orderId].driver.Some? ==>
                out == Err(AlreadyHasDriver) && orders == old(orders) && events == old(events)
      ensures orderId in old(orders) && old(orders)[orderId].driver.None? ==>
                var o := old(orders)[orderId];
                out == Ok(()) &&
                orders == old(orders)[orderId := o.(driver := Some(driver), driverId := Some(driver.id))] &&
                events == old(events) + [NewOrderUpdate(TakenPayload(o, driver))]
      ensures out.Ok? ==> orderId in orders && orders[orderId].driver == Some(driver)
      ensures out.Ok? ==> |events| > 0 && events[|events| - 1].NewOrderUpdate? &&
                          events[|events| - 1].updated.driverId == Some(driver.id)
    {
      if orderId !in orders {
        return Err(TakeOrderNotFound);
      }
      var order := orders[orderId];
      if order.driver.Some? {
        return Err(AlreadyHasDriver);
      }
      orders := orders[orderId := order.(driver := Some(driver), driverId := Some(driver.id))];
      events := events + [NewOrderUpdate(TakenPayload(order, driver))];
      return Ok(());
    }
  }

  /** The inner loop of `createOrder`: starting from the dish's price, adds
      the extra of each selected option; stops at the first lookup that throws. */
  method PriceDish(dish: Dish, selected: seq<ItemOption>) returns (r: Eval<int>)
    ensures r == LineTotal(dish, Some(selected))
  {
    var dishFinalPrice := dish.price;
    for j := 0 to |selected|
      invariant OptionsTotal(dish.options, selected[..j]) == Value(dishFinalPrice - dish.price)
    {
      var itemOption := selected[j];
      assert selected[..j + 1][..j] == selected[..j];
      if dish.options.None? {
        OptionsStopAtThrow(dish.options, selected, j + 1);
        return Throws;
      }
      var dishOption := MatchOption(dish.options.value, itemOption);
      if dishOption.Some? {
        if Truthy(dishOption.value.extra) {
          dishFinalPrice := dishFinalPrice + dishOption.value.extra.value;
        } else {
          if dishOption.value.choices.None? {
            OptionsStopAtThrow(dish.options, selected, j + 1);
            return Throws;
          }
          var dishOptionChoice := MatchChoice(dishOption.value.choices.value, itemOption);
          if dishOptionChoice.Some? && Truthy(dishOptionChoice.value.extra) {
            dishFinalPrice := dishFinalPrice + dishOptionChoice.value.extra.value;
          }
        }
      }
    }
    assert selected[..|selected|] == selected;
    return Value(dishFinalPrice);
  }

  /** Once a prefix of the selected options throws, the whole fold throws. */
  lemma {:induction false} OptionsStopAtThrow(dishOptions: Option<seq<DishOption>>, selected: seq<ItemOption>, n: nat)
    requires n <= |selected| && OptionsTotal(dishOptions, selected[..n]).Throws?
    ensures OptionsTotal(dishOptions, selected).Throws?
  {
    var k :| 0 <= k < n && OptionExtra(dishOptions, selected[..n][k]).Throws?;
    assert selected[..n][k] == selected[k];
  }

  /** A priced line after a priced prefix extends the prefix's total by its own. */
  lemma ScanExtends(dishes: map<int, Dish>, lines: seq<OrderLine>, i: nat, total: int)
    requires i < |lines| && ScanLines(dishes, lines[..i]) == Priced(total) && LinePriced(dishes, lines[i])
    ensures ScanLines(dishes, lines[..i + 1]) == Priced(total + LineTotal(dishes[lines[i].dishId], lines[i].options).v)
  {
    var prefix := lines[..i + 1];
    assert prefix[..i] == lines[..i] && prefix[i] == lines[i];
  }

  /** A line that does not price after a priced prefix stops the whole scan there. */
  lemma ScanStopsAt(dishes: map<int, Dish>, lines: seq<OrderLine>, i: nat, total: int)
    requires i < |lines| && ScanLines(dishes, lines[..i]) == Priced(total) && !LinePriced(dishes, lines[i])
    ensures ScanLines(dishes, lines) == if lines[i].dishId !in dishes then MissingDish(i) else Crashed(i)
  {
    assert lines[..i + 1][..i] == lines[..i];
    ScanStopsAtFailure(dishes, lines, i + 1);
  }
}
