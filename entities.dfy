/** Value shapes of the records the order workflow reads and writes, the
    outcome of a service call, and the entries of the publish/subscribe log. */
module Entities {

  datatype Option<+T> = None | Some(value: T)

  /** The `{ ok, error }` shape every service call returns: `Ok` carries the
      payload of a successful call, `Err` its fixed error message. */
  datatype Output<+T> = Ok(value: T) | Err(error: string)

  /** The value of a JavaScript expression that either yields a value or
      throws a TypeError because it read a property of `null`/`undefined`. */
  datatype Eval<+T> = Value(v: T) | Throws

  /** The three kinds of account. */
  datatype Role = Client | Owner | Delivery

  datatype User = User(id: int, email: string, password: string, role: Role)

  /** Order status; a new order starts at `Pending`. */
  datatype OrderStatus = Pending | Cooking | Cooked | PickedUp | Delivered

  /** One choice of a dish option, with its optional extra charge. */
  datatype DishChoice = DishChoice(name: string, extra: Option<int>)

  /** A dish option: a flat extra charge, or per-choice charges, or neither. */
  datatype DishOption = DishOption(name: string, choices: Option<seq<DishChoice>>, extra: Option<int>)

  /** A menu entry; `options` is a nullable JSON column. */
  datatype Dish = Dish(id: int, name: string, price: int, options: Option<seq<DishOption>>)

  /** A restaurant row; `promotedUntil` is a day number, `None` is SQL NULL. */
  datatype Restaurant = Restaurant(id: int, name: string, ownerId: int, isPromoted: bool, promotedUntil: Option<int>)

  /** One option as the customer selected it: the option's name and, for an
      option priced per choice, the name of the chosen value. */
  datatype ItemOption = ItemOption(name: string, choice: Option<string>)

  /** One requested line of a new order: a dish id and the selected options
      (`null` when the client sent none). */
  datatype OrderLine = OrderLine(dishId: int, options: Option<seq<ItemOption>>)

  /** A saved line of an order: the dish and the options exactly as submitted. */
  datatype OrderItem = OrderItem(dish: Dish, options: Option<seq<ItemOption>>)

  /** An order row as loaded with its eager relations. `driver` is the
      relation and `driverId` the relation id loaded beside it; the customer
      and restaurant are nullable because deleting them sets NULL. */
  datatype Order = Order(
    id: int,
    customerId: Option<int>,
    driver: Option<User>,
    driverId: Option<int>,
    restaurant: Option<Restaurant>,
    items: seq<OrderItem>,
    total: int,
    status: OrderStatus)

  /** A stored order's relation id agrees with its relation. */
  predicate DriverLinked(o: Order) {
    o.driverId == if o.driver.Some? then Some(o.driver.value.id) else None
  }

  /** One `publish(topic, payload)`: the constructor is the topic. */
  datatype Event =
    | NewPendingOrder(order: Order, ownerId: int)
    | NewCookedOrder(cooked: Order)
    | NewOrderUpdate(updated: Order)

  /** `Array.prototype.find` on a key, and a repository's `findOne` on a
      column: the first element whose key is `key`, if any. */
  function FindBy<T, K(==)>(s: seq<T>, keyOf: T -> K, key: K): (r: Option<T>)
    ensures r.None? <==> forall k :: 0 <= k < |s| ==> keyOf(s[k]) != key
    ensures r.Some? ==> exists k :: 0 <= k < |s| && s[k] == r.value && keyOf(s[k]) == key &&
                                    forall j :: 0 <= j < k ==> keyOf(s[j]) != key
  {
    if s == [] then None
    else if keyOf(s[0]) == key then Some(s[0])
    else
      var r := FindBy(s[1..], keyOf, key);
      if r.None? then r
      else
        FirstMatchShift(s, keyOf, key, r.value);
        r
  }

  /** A first match in the tail of `s`, whose head does not match, is a first match in `s`. */
  lemma FirstMatchShift<T, K>(s: seq<T>, keyOf: T -> K, key: K, x: T)
    requires |s| > 0 && keyOf(s[0]) != key
    requires exists k :: 0 <= k < |s[1..]| && s[1..][k] == x && keyOf(s[1..][k]) == key &&
                         forall j :: 0 <= j < k ==> keyOf(s[1..][j]) != key
    ensures exists k :: 0 <= k < |s| && s[k] == x && keyOf(s[k]) == key &&
                        forall j :: 0 <= j < k ==> keyOf(s[j]) != key
  {
    var k :| 0 <= k < |s[1..]| && s[1..][k] == x && keyOf(s[1..][k]) == key &&
             forall j :: 0 <= j < k ==> keyOf(s[1..][j]) != key;
    assert s[k + 1] == x;
    forall j | 0 <= j < k + 1 ensures keyOf(s[j]) != key {
      if j > 0 { assert s[j] == s[1..][j - 1]; }
    }
  }
}
