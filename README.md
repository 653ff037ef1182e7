# Nuber Eats order core in Dafny

This project models the order-handling core of the Nuber Eats backend, a
NestJS/GraphQL food-delivery server with three kinds of user: clients who
order, restaurant owners who cook, and delivery drivers. It covers these
parts of the backend:

- **Order service.** Pricing a new order from its dishes and selected
  options, role-scoped order listing and lookup, status edits checked
  against a role table, and driver assignment.
- **Subscriptions.** The order resolver's subscription filters, which decide
  which published order events reach which subscriber. Its `@Roles`
  declarations are modelled too.
- **Authorization guard.** It runs before every resolver and decides from
  the declared roles, the request token and the user that token names.
- **Category repository.** Get-or-create, with trimming, lower-casing and
  slugging of the category name.
- **Promotion payments.** An owner pays to promote a restaurant for seven
  days, and a daily sweep ends expired promotions.
- **Account registration and login.**

Persistence is in-memory tables held by classes:
`Orders.OrderService`, `Categories.CategoryRepository`,
`Payments.PaymentService` and `Users.UsersService`. Publishing an event
appends it to `OrderService.events`. What a subscriber receives is computed
from that log by `OrderResolver.Feed`.

A few JavaScript behaviours the code relies on are written out:

- A number is falsy when it is absent or zero.
- Reading a field of `null` throws, and `Eval.Throws` stands for that. The
  enclosing `catch` turns it into the handler's fixed error message.
- `Array.prototype.find` returns the first match.

Token verification, token signing, password checking and the clock are
parameters.

Modules, one per file:

| module | file | models |
|---|---|---|
| `Entities` | `entities.dfy` | the entities: users and roles, dishes with options and choices, restaurants, orders and their items, published events |
| `Pricing` | `pricing.dfy` | the price fold of `createOrder`, as functions |
| `Orders` | `orders_service.dfy` | the order service |
| `OrderResolver` | `orders_resolver.dfy` | subscription filters and resolves, delivery of the event log, the `@Roles` table |
| `Auth` | `auth_guard.dfy` | the `canActivate` guard and the request context it writes to |
| `Categories` | `category_repository.dfy` | category get-or-create |
| `Payments` | `payments_service.dfy` | promotion payments and the expiry sweep |
| `Users` | `users_service.dfy` | registration and login |

## Model

| member | source | states |
|---|---|---|
| `Entities.FindBy` | src/orders/orders.service.ts:79-81 | `find` on a key gives nothing iff no element has the key; otherwise it gives an element with that key and no earlier element has it |
| `Pricing.OptionExtra` | src/orders/orders.service.ts:79-97 | a selected option throws iff the dish has no option list, or the matched option has a falsy extra and no choices; a truthy extra on the matched option is what it adds; when that extra is falsy, a truthy extra on the matched choice is what it adds; a nonzero amount comes from one of those two |
| `Pricing.OptionsTotal` | src/orders/orders.service.ts:77-98 | the extras of a line's selected options are added left to right; the fold throws iff one of the options throws |
| `Pricing.ScanLines` | src/orders/orders.service.ts:64-111 | the line loop prices every line iff every dish exists and every line prices; the total is then the sum of the line totals; otherwise it stops at the first missing dish or throwing line, and every line before that one priced |
| `Pricing.ScanStopsAtFailure` | src/orders/orders.service.ts:64-72 | once a prefix of the lines stops the loop, later lines make no difference to the outcome |
| `Pricing.UnknownOptionAddsNothing` | src/orders/orders.service.ts:79-83 | a selected option that names no option of the dish adds 0 and does not throw |
| `Pricing.DirectExtraIgnoresChoice` | src/orders/orders.service.ts:83-85 | a truthy extra on the matched option is added exactly, whatever choice was selected |
| `Pricing.UnknownChoiceAddsNothing` | src/orders/orders.service.ts:87-95 | with a falsy option extra, a selected choice the option does not list adds 0 |
| `Pricing.MatchedChoiceExtraAdded` | src/orders/orders.service.ts:87-95 | with a falsy option extra, the matched choice's truthy extra is what the option adds |
| `Pricing.MatchedChoiceFalsyExtraAddsNothing` | src/orders/orders.service.ts:87-95 | with a falsy option extra, a matched choice whose extra is falsy adds 0 and does not throw |
| `Pricing.LineTotal` | src/orders/orders.service.ts:74-98 | a line whose option list is `null` throws, and a line with no selected options costs the dish price |
| `Pricing.LineTotalThrows` | src/orders/orders.service.ts:74-98 | a line throws iff its option list is `null` or one of its selected options throws; otherwise it costs the dish price plus the options' extras |
| `Pricing.TwoLineScenario` | src/orders/orders.service.ts:64-100 | a 10-unit dish with a size choice worth 2, plus the same dish with an unknown option, totals 22 |
| `Orders.PriceDish` | src/orders/orders.service.ts:74-98 | the inner loop with its `dishFinalPrice` accumulator computes the line total, or throws exactly when the line total throws |
| `Orders.OrderService.SaveLines` | src/orders/orders.service.ts:64-111 | the outer loop ends as the line-by-line reference `Orders.ScanFrom` does from the first line with a zero total, and it appends exactly the items `Orders.ItemsFrom` lists: one per line it got through, holding the dish and the selected options |
| `Orders.ScanFromRest` | src/orders/orders.service.ts:64-111 | after a priced prefix of the lines, running the loop over the rest with the prefix's total ends exactly as the scan of all the lines does |
| `Orders.ItemsFromScan` | src/orders/orders.service.ts:64-111 | from any line on, the loop saves the items of exactly the lines up to where it stops, and each of those lines has an existing dish |
| `Orders.SaveLinesMeetsScan` | src/orders/orders.service.ts:64-111 | the loop's outcome is the reference scan `Pricing.ScanLines`, and the items it saves are the snapshots of the lines before the scan's stop |
| `Orders.ScanExtends` | src/orders/orders.service.ts:98-100 | a priced line after a priced prefix adds its own total to the prefix's |
| `Orders.ScanStopsAt` | src/orders/orders.service.ts:66-72 | a line after a priced prefix whose dish is missing, or whose price throws, stops the whole scan at that line with the matching outcome |
| `Orders.OrderService.CreateOrder` | src/orders/orders.service.ts:40-142 | a missing restaurant gives 'Restaurant not found' and writes nothing; a missing dish gives 'Dish not found.' and a throwing line gives 'Could not create order.', each saving no order and publishing nothing while the items saved for earlier lines stay saved; on success exactly one Pending order is saved with the customer, the restaurant, the saved items and the sum of the line totals, and one new-pending-order event carries the restaurant's owner id |
| `Orders.OrderService.SaveOrder` | src/orders/orders.service.ts:114-121 | a new Pending order of the customer at the restaurant, with the given items and total, is stored under a fresh id and nothing else in the order table changes |
| `Orders.Snapshots` | src/orders/orders.service.ts:103-110 | each saved order item holds its line's dish and the line's selected options |
| `Orders.CanSeeOrder` | src/orders/orders.service.ts:198-214 | a client sees an order iff it is the customer; a driver iff it is the driver; an owner iff it owns the order's restaurant, and the owner check throws when the restaurant is missing; no role looks at another role's field |
| `Orders.OrderService.GetOrders` | src/orders/orders.service.ts:146-195 | a client gets exactly its own orders, whatever the status filter; a driver gets the orders assigned to it, narrowed by the status filter; an owner gets the orders of the restaurants it owns, narrowed by the status filter; every order returned is one the caller may see |
| `Orders.OrderService.GetOrder` | src/orders/orders.service.ts:218-253 | gives 'Order not found.', 'You cant see that', 'Could not load order.' (the visibility check throws) or the order; it succeeds iff the order exists and the caller may see it |
| `Orders.CanEdit` | src/orders/orders.service.ts:277-296 | a client may never edit; an owner may set only Cooking or Cooked; a driver may set only PickedUp or Delivered |
| `Orders.EditCheck` | src/orders/orders.service.ts:262-302 | checks run in a fixed order: visibility first ("Can't see this.", or 'Could not edit order.' when the check throws), then the role table ("You can't do that."); it succeeds iff the caller may see the order and its role may set the status |
| `Orders.EditCheckIgnoresCurrentStatus` | src/orders/orders.service.ts:262-302 | the edit decision does not depend on the order's current status |
| `Orders.EditEvents` | src/orders/orders.service.ts:310-321 | a successful edit always publishes the updated order as an order update, last; it publishes a cooked-order event iff the editor is an owner and the new status is Cooked; it publishes nothing else, and at most these two events |
| `Orders.OrderService.EditOrder` | src/orders/orders.service.ts:256-331 | a missing order gives 'Order not found.'; otherwise the outcome is the edit check's; a failed edit writes and publishes nothing; a successful one changes only the order's status and publishes the edit events |
| `Orders.OrderService.TakeOrder` | src/orders/orders.service.ts:334-374 | a missing order gives 'Order not found'; an order that already has a driver gives 'This order already has a driver' and writes and publishes nothing; otherwise the stored order gets the driver and its id, so every later take of that order fails, and one order update is published: the order as loaded with the driver spread over it, its driver id still the loaded one |
| `Orders.OrderService.TakeOrderCorrected` | src/orders/orders.service.ts:334-374 | the same outcomes and stored order as `takeOrder`, but the published update carries the driver id along with the driver, so the new driver's id is in the update |
| `Orders.TakenPayloadAsWritten` | src/orders/orders.service.ts:362-364 | the update published as written carries the new driver but the order's old, empty driver id |
| `Orders.TakenPayload` | src/orders/orders.service.ts:362-364 | the corrected update carries the new driver together with the matching driver id; the order's id, customer and restaurant are kept |
| `OrderResolver.OrderUpdatesFilter` | src/orders/orders.resolver.ts:113-127 | an update passes only when the subscriber is the order's driver, customer or restaurant owner, and then iff it is the subscribed order; when none of those ids matches and the restaurant is missing, the filter throws |
| `OrderResolver.Deliver` | src/orders/orders.resolver.ts:87-128 | a pending-order subscriber receives only the inner order, and only when the event's owner id is its own; a cooked-order subscriber receives every cooked order unchanged; an order-update subscriber receives only updates of the subscribed order where it is a party |
| `OrderResolver.Feed` | src/orders/orders.resolver.ts:87-134 | a subscriber receives at most one order per published event, and each order it receives is what some published event delivers to it |
| `OrderResolver.FeedAppend` | src/orders/orders.resolver.ts:87-134 | publishing more events extends every subscriber's feed by exactly what the new events deliver |
| `OrderResolver.PendingOrderReachesOnlyOwner` | src/orders/orders.resolver.ts:90-94 | a new pending order reaches a pending-order subscriber iff the payload's owner id is the subscriber's id, and it arrives as the order alone |
| `OrderResolver.OrderUpdateReachesParty` | src/orders/orders.resolver.ts:113-127 | a published order update reaches an order-update subscriber, as published, iff it is for the subscribed order and the subscriber is its driver, customer or restaurant owner |
| `OrderResolver.CookedOrdersBroadcast` | src/orders/orders.resolver.ts:102-106 | the cooked-order feed is the same for every subscriber |
| `OrderResolver.OrderUpdatesOnlyOwnOrder` | src/orders/orders.resolver.ts:113-127 | everything an order-update subscriber receives was published as an update, is for the subscribed order, and is for an order it is a party of |
| `OrderResolver.RequiredRoles` | src/orders/orders.resolver.ts:36-129 | every order operation declares exactly one role, so none is public; it declares 'Any' iff every role may invoke it |
| `OrderResolver.GuardAdmitsExactlyPermittedRoles` | src/orders/orders.resolver.ts:36-129 | through the guard, createOrder admits only clients, pendingOrders only owners, cookedOrders only drivers, and getOrders, getOrder, editOrder and orderUpdates any signed-in user |
| `OrderResolver.TakenUpdateAsWrittenMissesDriver` | src/orders/orders.service.ts:362-364 | as written, the driver who takes an order with no earlier driver id gets nothing on its subscription to that order, unless it is also the customer or the owner |
| `OrderResolver.TakenUpdateReachesDriver` | src/orders/orders.service.ts:362-364 | with the driver id set alongside the driver, the new driver receives the update of the order it took |
| `OrderResolver.TakenUpdateCounterexample` | src/orders/orders.service.ts:362-364 | order 7 of customer 1 at owner 2's restaurant is taken by driver 3: the update as written does not reach driver 3, and the corrected update does |
| `Auth.Resolve` | src/auth/auth.guard.ts:36-46 | the token names a user iff it is present and non-empty, verifies to an object with an `id`, and that id finds a user, and the user named is the one found; verification raises iff a present token fails to verify |
| `Auth.AdmitsJoin` | src/auth/auth.guard.ts:48-52 | a joined role list admits exactly the roles that one of its parts admits |
| `Auth.WildcardAdmitsEveryRole` | src/auth/auth.guard.ts:48-52 | a role list holding 'Any' admits every role; one without it admits exactly the roles it names |
| `Auth.Decide` | src/auth/auth.guard.ts:23-58 | without declared roles the request is allowed; with roles and no token it is denied; with roles it is allowed iff the token names a user and the roles hold 'Any' or that user's role; a raising verification escapes the guard instead of denying |
| `Auth.CanActivate` | src/auth/auth.guard.ts:23-58 | the guard answers as `Auth.Decide`; when roles are declared and a user is found, that user is written to the request context even if the role check then denies; otherwise the context is left alone |
| `Categories.TrimStart` | src/restaurants/repositories/category.repository.ts:15 | the result is a suffix of the input, everything dropped is white space, and it does not start with white space |
| `Categories.TrimEnd` | src/restaurants/repositories/category.repository.ts:15 | the result is a prefix of the input, everything dropped is white space, and it does not end with white space |
| `Categories.TrimKeepsInfix` | src/restaurants/repositories/category.repository.ts:15 | `Categories.Trim` keeps a slice of the input with only white space cut on either side, and that slice neither starts nor ends with white space |
| `Categories.TrimTail` | src/restaurants/repositories/category.repository.ts:15 | trailing white space does not change the trimmed name |
| `Categories.LowerChar` | src/restaurants/repositories/category.repository.ts:15 | lower-casing leaves no upper-case ASCII letter and keeps white space as white space |
| `Categories.Lower` | src/restaurants/repositories/category.repository.ts:15 | lower-casing keeps the length and lower-cases each character |
| `Categories.CategoryName` | src/restaurants/repositories/category.repository.ts:15 | the stored name has no outer white space and no upper-case ASCII letter |
| `Categories.Slugify` | src/restaurants/repositories/category.repository.ts:17 | the slug has the name's length, every space becomes '-', every other character stays, and no space remains |
| `Categories.TrimPadding` | src/restaurants/repositories/category.repository.ts:15 | trimming a name padded with white space on either side gives the trimmed name |
| `Categories.PaddingIgnored` | src/restaurants/repositories/category.repository.ts:15 | names that differ only by outer white space are stored under the same name |
| `Categories.CaseIgnored` | src/restaurants/repositories/category.repository.ts:15 | names that differ only in letter case are stored under the same name |
| `Categories.FindOrInsert` | src/restaurants/repositories/category.repository.ts:20-27 | the category returned is the one stored under the slug; the table afterwards has exactly the old keys plus the slug, and every old entry is unchanged; a new slug gets the category `{slug, name}`; keying by slug is kept |
| `Categories.CategoryRepository.GetOrCreate` | src/restaurants/repositories/category.repository.ts:12-28 | an existing slug returns its category and leaves the table unchanged; a new slug adds exactly the category `{slug, normalised name}` and returns it |
| `Categories.GetOrCreateIdempotent` | src/restaurants/repositories/category.repository.ts:15-27 | a second get-or-create with a name of the same slug returns the first call's category and adds nothing |
| `Payments.Promote` | src/payments/payments.service.ts:57-61 | a paid restaurant is promoted until now plus 7 days, and keeps its id, name and owner |
| `Payments.PromotionLastsAWeek` | src/payments/payments.service.ts:57-61 | a promotion paid on day d is selected by a sweep on day t iff t > d + 7 |
| `Payments.RestaurantById` | src/payments/payments.service.ts:33 | the lookup by id finds nothing iff no restaurant has that id; otherwise it gives a stored restaurant with that id |
| `Payments.PaymentService.CreatePayment` | src/payments/payments.service.ts:28-70 | an unknown restaurant gives 'Restaurant not found.', and a caller who does not own the restaurant gives 'You are not allowed to do this.'; neither stores anything; on success exactly one payment {transaction, owner, restaurant} is appended and only that restaurant changes, to promoted until now + 7 |
| `Payments.PaymentService.SaveRestaurant` | src/payments/payments.service.ts:63 | saving a restaurant replaces the row with its id and no other row |
| `Payments.PaymentsOf` | src/payments/payments.service.ts:75 | every payment returned is a stored payment of that user, every stored payment of that user is returned, and each is returned as many times as it is stored |
| `Payments.PaymentService.GetPayments` | src/payments/payments.service.ts:73-86 | the caller gets exactly its own payments |
| `Payments.ExpiryIsPermanent` | src/payments/payments.service.ts:96-103 | a promotion the sweep would select stays selectable at every later time, and a restaurant the sweep has reset is never selected again |
| `Payments.Unpromote` | src/payments/payments.service.ts:102-103 | a swept restaurant is no longer promoted, has no end date, and keeps its id, name and owner |
| `Payments.Swept` | src/payments/payments.service.ts:95-106 | after a sweep no restaurant is promoted past its end date; every expired promotion is reset; every restaurant that is not promoted, or whose end date is not yet past, is unchanged |
| `Payments.PaymentService.CheckPromotedRestaurants` | src/payments/payments.service.ts:95-106 | the loop over the restaurants leaves exactly the swept table |
| `Payments.SweepIdempotent` | src/payments/payments.service.ts:95-106 | a second sweep at the same time changes nothing |
| `Users.UserByEmail` | src/users/users.service.ts:54 | the lookup by email finds nothing iff no user has that email; otherwise it gives a stored user with that email |
| `Users.UserByEmailUnique` | src/users/users.service.ts:34-38 | while emails are distinct, the user found by an email is the only user with that email |
| `Users.RegistrationKeepsEmailsDistinct` | src/users/users.service.ts:34-38 | adding a user whose email is not taken keeps all emails distinct |
| `Users.UsersService.CreateAccount` | src/users/users.service.ts:27-44 | a taken email gives 'There is a user with that email already' and leaves the table unchanged; a fresh email adds exactly one user with that email, password and role; emails stay pairwise distinct |
| `Users.UsersService.Login` | src/users/users.service.ts:48-84 | gives 'User not found' iff no user has the email; 'Wrong password' iff the user with the email fails the password check; otherwise the token signed from that user's id |

## Left out

- Token verification, token signing and password hashing are parameters of the guard and of login. The JWT service and middleware are not part of this model.
- The mail service is not part of this model.
- The PubSub instance is not modelled: no async iterators, no delivery order across subscribers, no concurrency. A publish is an append to the event log, and delivery applies each subscription's filter and resolve to that log.
- Database failures are not modelled: the in-memory tables never fail. So the catch-all messages are not produced: 'Could not get orders', 'Could not upate order.', 'Could not create payment.', 'Could not load payments.' and "Couldn't create account". Neither is login's catch, which returns the raised error itself.
- The only catch blocks modelled are the ones a `null` field read reaches: 'Could not create order.', 'Could not load order.' and 'Could not edit order.'.
- `OrderResolver.Deliver`: a throwing `orderUpdates` filter is modelled as the payload not being delivered. What the subscription transport does with the exception is not modelled.
- `Orders.OrderService.GetOrders`: the owner branch also passes `status` into the restaurants query, where the restaurant has no such column. The model keeps only the status filter applied afterwards to the collected orders.
- `Orders.OrderService.GetOrders`: results are sets of orders, so the database's row order is not modelled.
- Saves that are not awaited are modelled as finished before the handler returns: `restaurants.save` in `createPayment` and the `forEach` callbacks of `checkPromotedRestaurants`.
- `Payments.PaymentService.CheckPromotedRestaurants`: the query for expired promotions and the loop that resets them are one pass over the restaurant rows. The result is the same because each row's reset depends only on that row.
- `Payments.PaymentService`: the payment keeps the ids of the owner and the restaurant, not the loaded objects. It has no id of its own, so the generated primary key and timestamps of every stored row (src/common/entities/core.entity.ts) are not modelled.
- `Payments.PaymentsOf`: the order in which the query returns a user's payments is not modelled; the contract states which payments are returned and how many times each.
- Time is a whole number of days, passed as `now`. Time of day, `Date` arithmetic across month ends and the cron schedule are not modelled.
- Prices, extras and totals are unbounded integers. The source types them as JavaScript numbers (src/restaurants/entities/dish.entity.ts:17, 29, 45) and stores the total as a GraphQL `Float` (src/orders/entities/order.entity.ts:93-96). So floating-point rounding, overflow to infinity and fractional prices are not modelled, and `Pricing.Truthy` has no `NaN` case (a `NaN` extra would be falsy).
- `Categories.Lower`: lower-casing covers ASCII letters only. Other Unicode case mappings of `toLowerCase` are not modelled.
- `Categories.CategoryRepository`: the category keeps only its slug and name. Its id, cover image and restaurants are not modelled.
- The numeric `UserRole` enum against the string role names of `@Roles` is not reproduced. Roles are a three-valued datatype.
- `User.checkPassword` is not in the user entity and is a parameter of login.
- `Users.UsersService.Login` requires the store invariant: emails are distinct. The store keeps it because `CreateAccount` preserves it. Without it, `findOne` would return some user with the email.
- Dishes are looked up by id across all restaurants, as the code does (src/orders/orders.service.ts:66). The system's design resolves the dish against the chosen restaurant's menu instead. The model follows the code.
- `takeOrder` has no mutation in the order resolver, so it has no `@Roles` entry. The system's design gives it to drivers only. The model follows the code and has it as a service operation only.
- The restaurant, dish, payment and user resolvers are not modelled, apart from the guard they all run through.
- `Orders.OrderService.CreateOrder`: its two loops are the helper methods `Orders.PriceDish` (the options of one line) and `Orders.OrderService.SaveLines` (the lines). The order's save is the helper method `Orders.OrderService.SaveOrder`.

## Findings

| source | as written | input that shows it | evidently intended | confidence | as-written member | corrected member |
|---|---|---|---|---|---|---|
| src/orders/orders.service.ts:362-364 | `takeOrder` publishes `{ ...order, driver }`. The loaded order's `driverId` stays `null`, and the `orderUpdates` filter checks `driverId`. | Order 7 of customer 1 at a restaurant of owner 2, with no driver, taken by driver 3, who is subscribed to order 7's updates: the filter finds no matching id and drops the update. | The driver who takes the order receives the order update, with the driver id set alongside the driver. | medium, not executed | `OrderResolver.TakenUpdateCounterexample` | `Orders.TakenPayload` |
