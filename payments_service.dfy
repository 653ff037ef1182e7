/** Promotion payments: an owner pays to promote one of their restaurants
    for a week, and a daily sweep ends the promotions whose week is over.
    Time is a whole number of days, passed in as `now`. */
module Payments {
  import opened Entities

  const PaymentRestaurantNotFound := "Restaurant not found."
  const NotAllowed := "You are not allowed to do this."

  /** How long a paid promotion lasts, in days. */
  const PromotionDays := 7

  /** A stored payment: the payment provider's transaction id, the paying
      owner and the promoted restaurant. */
  datatype Payment = Payment(transactionId: int, userId: int, restaurantId: int)

  /** The restaurant as a successful payment at `now` leaves it. */
  function Promote(r: Restaurant, now: int): (p: Restaurant)
    ensures p.isPromoted && p.promotedUntil == Some(now + PromotionDays)
    ensures p.id == r.id && p.name == r.name && p.ownerId == r.ownerId
  {
    r.(isPromoted := true, promotedUntil := Some(now + PromotionDays))
  }

  /** What the sweep selects: promoted, with an end date before `now`. A
      missing end date compares as unknown and is not selected. */
  predicate Expired(restaurant: Restaurant, now: int) {
    restaurant.isPromoted && restaurant.promotedUntil.Some? && restaurant.promotedUntil.value < now
  }

  /** A promotion the sweep would select stays selectable at every later
      time, and no restaurant the sweep has reset is selected again. */
  lemma ExpiryIsPermanent(restaurant: Restaurant, now: int, later: int)
    requires now <= later
    ensures Expired(restaurant, now) ==> Expired(restaurant, later)
    ensures !Expired(Unpromote(restaurant), later)
  {
  }

  /** The restaurant as the sweep leaves it when it is selected. */
  function Unpromote(r: Restaurant): (p: Restaurant)
    ensures !p.isPromoted && p.promotedUntil.None?
    ensures p.id == r.id && p.name == r.name && p.ownerId == r.ownerId
  {
    r.(isPromoted := false, promotedUntil := None)
  }

  /** The restaurant rows after one sweep at `now`. */
  function Swept(restaurants: seq<Restaurant>, now: int): (r: seq<Restaurant>)
    ensures |r| == |restaurants|
    ensures forall k :: 0 <= k < |r| ==> !Expired(r[k], now)
    ensures forall k :: 0 <= k < |r| && !Expired(restaurants[k], now) ==> r[k] == restaurants[k]
    ensures forall k :: 0 <= k < |r| && Expired(restaurants[k], now) ==> r[k] == Unpromote(restaurants[k])
  {
    seq(|restaurants|, k requires 0 <= k < |restaurants| =>
      if Expired(restaurants[k], now) then Unpromote(restaurants[k]) else restaurants[k])
  }

  /** `findOne(id)` on the restaurant rows: the first row with that id. */
  function RestaurantId(r: Restaurant): int { r.id }

  function RestaurantById(restaurants: seq<Restaurant>, id: int): (r: Option<Restaurant>)
    ensures r.None? <==> forall k :: 0 <= k < |restaurants| ==> restaurants[k].id != id
    ensures r.Some? ==> r.value in restaurants && r.value.id == id
  {
    FindBy(restaurants, RestaurantId, id)
  }

  /** No two restaurant rows share an id. */
  predicate IdsDistinct(restaurants: seq<Restaurant>) {
    forall i, j :: 0 <= i < j < |restaurants| ==> restaurants[i].id != restaurants[j].id
  }

  /** The payments whose user is `userId`, in stored order. */
  function PaymentsOf(payments: seq<Payment>, userId: int): (r: seq<Payment>)
    ensures |r| <= |payments|
    ensures forall k :: 0 <= k < |r| ==> r[k].userId == userId && r[k] in payments
    ensures forall k :: 0 <= k < |payments| && payments[k].userId == userId ==> payments[k] in r
    ensures forall p :: multiset(r)[p] == if p.userId == userId then multiset(payments)[p] else 0
  {
    if payments == [] then []
    else
      var last := |payments| - 1;
      var before := PaymentsOf(payments[..last], userId);
      assert forall k :: 0 <= k < last ==> payments[..last][k] == payments[k];
      assert payments == payments[..last] + [payments[last]];
      if payments[last].userId == userId then before + [payments[last]] else before
  }

  class PaymentService {
    var payments: seq<Payment>
    var restaurants: seq<Restaurant>

    ghost predicate Valid()
      reads this
    {
      IdsDistinct(restaurants)
    }

    constructor (restaurants: seq<Restaurant>)
      requires IdsDistinct(restaurants)
      ensures Valid() && this.restaurants == restaurants && payments == []
    {
      this.restaurants := restaurants;
      payments := [];
    }

    /** `createPayment`: an owner pays to promote their own restaurant. */
    method CreatePayment(owner: User, transactionId: int, restaurantId: int, now: int) returns (out: Output<()>)
      requires Valid()
      modifies this
      ensures Valid()
      ensures var found := RestaurantById(old(restaurants), restaurantId);
              (out.Ok? <==> found.Some? && found.value.ownerId == owner.id) &&
              (found.None? ==> out == Err(PaymentRestaurantNotFound)) &&
              (found.Some? && found.value.ownerId != owner.id ==> out == Err(NotAllowed))
      ensures out.Err? ==> payments == old(payments) && restaurants == old(restaurants)
      ensures out.Ok? ==>
                payments == old(payments) + [Payment(transactionId, owner.id, restaurantId)] &&
                |restaurants| == |old(restaurants)| &&
                forall k :: 0 <= k < |restaurants| ==>
                  restaurants[k] == if old(restaurants)[k].id == restaurantId
                                    then Promote(old(restaurants)[k], now) else old(restaurants)[k]
    {
      var found := RestaurantById(restaurants, restaurantId);
      if found.None? {
        return Err(PaymentRestaurantNotFound);
      }
      var restaurant := found.value;
      if restaurant.ownerId != owner.id {
        return Err(NotAllowed);
      }
      payments := payments + [Payment(transactionId, owner.id, restaurant.id)];
      restaurant := restaurant.(isPromoted := true);
      restaurant := restaurant.(promotedUntil := Some(now + PromotionDays));
      SaveRestaurant(restaurant);
      return Ok(());
    }

    /** `save` of a restaurant already stored: its row takes the new value. */
    method SaveRestaurant(restaurant: Restaurant)
      requires Valid()
      modifies this`restaurants
      ensures Valid()
      ensures |restaurants| == |old(restaurants)|
      ensures forall k :: 0 <= k < |restaurants| ==>
                restaurants[k] == if old(restaurants)[k].id == restaurant.id then restaurant else old(restaurants)[k]
    {
      for i := 0 to |restaurants|
        invariant |restaurants| == |old(restaurants)|
        invariant forall k :: 0 <= k < |restaurants| ==> restaurants[k].id == old(restaurants)[k].id
        invariant forall k :: 0 <= k < |restaurants| ==>
                    restaurants[k] == if k < i && old(restaurants)[k].id == restaurant.id then restaurant else old(restaurants)[k]
      {
        if restaurants[i].id == restaurant.id {
          restaurants := restaurants[i := restaurant];
        }
      }
    }

    /** `getPayments`: the caller's own payments. */
    method GetPayments(user: User) returns (r: seq<Payment>)
      ensures forall p :: p in r <==> p in payments && p.userId == user.id
    {
      r := PaymentsOf(payments, user.id);
    }

    /** `checkPromotedRestaurants`: every expired promotion is reset, one
        restaurant row at a time. */
    method CheckPromotedRestaurants(now: int)
      requires Valid()
      modifies this`restaurants
      ensures Valid()
      ensures restaurants == Swept(old(restaurants), now)
    {
      for i := 0 to |restaurants|
        invariant |restaurants| == |old(restaurants)|
        invariant restaurants[..i] == Swept(old(restaurants), now)[..i]
        invariant restaurants[i..] == old(restaurants)[i..]
      {
        var restaurant := restaurants[i];
        if Expired(restaurant, now) {
          restaurant := restaurant.(isPromoted := false);
          restaurant := restaurant.(promotedUntil := None);
          restaurants := restaurants[i := restaurant];
        }
      }
    }
  }

  /** A second sweep at the same time changes nothing. */
  lemma SweepIdempotent(restaurants: seq<Restaurant>, now: int)
    ensures Swept(Swept(restaurants, now), now) == Swept(restaurants, now)
  {
  }

  /** A freshly paid promotion survives every sweep up to its seventh day
      and ends at the first sweep after it. */
  lemma PromotionLastsAWeek(r: Restaurant, paidAt: int, now: int)
    ensures Expired(Promote(r, paidAt), now) <==> now > paidAt + PromotionDays
  {
  }
}
