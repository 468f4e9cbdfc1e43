# GrubDash dishes and orders controllers, modelled in Dafny

This project models the request-handling core of a small restaurant
ordering API built on Express.

- **Dishes controller.** POST /dishes, GET /dishes/:dishId and
  PUT /dishes/:dishId each run an ordered list of middleware. Each step
  either calls `next()` or calls `next({status, message})`. The last step
  changes the in-memory `dishes` array.
  - The checks are modelled as pure functions returning
    `Pass | Reject(status, message)`: `bodyDataHas`, `priceIsValidNumber`,
    `dishExists` and `idMatch`.
  - The three middleware arrays are modelled as lists of `Step` values.
    `Run` evaluates such a list and stops at the first rejection.
  - The shared array becomes the class `DishStore`, whose field `dishes` is
    a sequence of `Dish` records. `Create` appends to it. `Update` replaces
    four fields of the dish that the lookup found.
- **Orders controller.** Its only function is `list`. It filters the orders
  collection by an optional `dishId` route parameter. It is modelled as a
  pure function with lemmas about that filter. Its result is either the
  filtered orders or the TypeError that the callback throws when an order
  has no `dishes`.

Request bodies are JSON values (`JsValues.Value`).
- The model keeps JavaScript truthiness: `null`, `false`, `0` and `""` are
  falsy.
- Numbers are split into integers and non-integers by what
  `Number.isInteger` answers, so no floating point is involved.
- A body without `data` is `None`. The controller reads a missing `data` as
  `{}`.
- The id generator is a parameter, `freshId`. The caller must supply an id
  that no stored dish has. The seed data is the argument of the store's
  constructor.

Files: `js_values.dfy` (values, truthiness, string rendering),
`dishes_controller.dfy` (checks, pipelines, store) and
`orders_controller.dfy` (`list`).

## Model

| member | source | states |
|---|---|---|
| DishesController.Field | src/dishes/dishes.controller.js:15 | a body without `data` has no fields (the `= {}` default); otherwise a field is present exactly when it is a key of `data` |
| JsValues.Show | src/dishes/dishes.controller.js:75 | `String(v)` as `${id}` inserts it: strings verbatim, integers in decimal, arrays joined with commas, objects without an own `toString` key as "[object Object]" |
| DishesController.BodyDataHas | src/dishes/dishes.controller.js:13-24 | passes iff `data[p]` exists and is truthy; otherwise rejects with 400 and "Dish must include a <p>" |
| DishesController.PriceIsValidNumber | src/dishes/dishes.controller.js:26-35 | passes iff `price` is an integer greater than 0, and every passing price is also truthy; otherwise 400 with the fixed price message |
| DishesController.IdMatch | src/dishes/dishes.controller.js:67-77 | passes iff the body `id` is strictly equal to the route id or is falsy; a truthy, different `id` is rejected with 400 and a message naming both ids |
| DishesController.FindDish | src/dishes/dishes.controller.js:52 | returns the index of the FIRST dish whose id is the route id, or none exactly when no dish has it |
| DishesController.DishExists | src/dishes/dishes.controller.js:50-61 | passes iff some stored dish has the route id; otherwise 404 with "Dish does not exist: <dishId>" |
| DishesController.Run | src/dishes/dishes.controller.js:91-115 | runs a middleware list in order and stops at the first `next(err)`; every rejection it yields is a 400 or a 404 |
| DishesController.CreateSteps | src/dishes/dishes.controller.js:93-100 | the create middleware in source order: presence of name, description, price, image_url, then the price check |
| DishesController.ReadSteps | src/dishes/dishes.controller.js:101-104 | the read middleware: the existence lookup |
| DishesController.UpdateSteps | src/dishes/dishes.controller.js:105-114 | the update middleware in source order: existence lookup, id match, then the create checks |
| DishesController.RunFirstRejection | src/dishes/dishes.controller.js:91-115 | a pipeline passes iff every step passes; a rejection is the verdict of some step whose predecessors all passed |
| DishesController.RunAppend | src/dishes/dishes.controller.js:105-114 | running two step lists in sequence gives the first list's rejection, or else the second list's outcome |
| DishesController.CreatePrecedence | src/dishes/dishes.controller.js:93-100 | the create pipeline reports the first missing field in the order name, description, price, image_url, then a bad price; it passes iff name, description and image_url are truthy and price is a positive integer |
| DishesController.ZeroPriceIsMissing | src/dishes/dishes.controller.js:91-115 | with a price of 0, neither pipeline ever answers with the price-validity message; create answers "Dish must include a price" once name and description are truthy, and update does too once, in addition, the dish is found and the id matches |
| DishesController.UpdatePrecedence | src/dishes/dishes.controller.js:105-114 | on update, 404 for a missing dish beats the id mismatch, which beats the create checks in their order; a pass implies the dish was found |
| DishesController.ReadOutcome | src/dishes/dishes.controller.js:101-104 | the read pipeline passes when the dish exists and otherwise rejects with 404 |
| DishesController.UniqueLookup | src/dishes/dishes.controller.js:52 | when ids are unique, looking up a stored dish's id finds that dish |
| DishesController.DishStore.constructor | src/dishes/dishes.controller.js:4 | the store starts with the seed collection |
| DishesController.DishStore.List | src/dishes/dishes.controller.js:9-11 | GET /dishes returns the whole collection |
| DishesController.DishStore.Read | src/dishes/dishes.controller.js:63-65 | GET /dishes/:dishId replies 200 with the first dish having that id, or 404 with "Dish does not exist: <dishId>"; the store is not changed |
| DishesController.DishStore.Create | src/dishes/dishes.controller.js:37-48 | a rejection is replied and leaves the store unchanged; a pass appends exactly one dish with the fresh id and the four body fields verbatim, keeps every earlier dish, replies 201 with it, and keeps ids unique |
| DishesController.DishStore.Update | src/dishes/dishes.controller.js:79-89 | a rejection is replied and leaves the store unchanged; a pass overwrites name, description, price and image_url of the found dish with the body's values, keeps its id, the length and every other dish, replies 200 with it, and keeps ids unique |
| OrdersController.Selected | src/orders/orders.controller.js:14-15 | the filter callback: with a truthy `dishId`, `order.dishes.id == dishId`; otherwise every order is kept |
| OrdersController.List | src/orders/orders.controller.js:10-18 | with a truthy `dishId`, throws a TypeError iff some order's `dishes` is undefined or null; otherwise the result is no longer than the collection and every order in it satisfies the filter callback |
| OrdersController.ListAllWhenNoDishId | src/orders/orders.controller.js:14-15 | with a falsy `dishId`, the result is the whole collection in its original order |
| OrdersController.ListIsSubsequence | src/orders/orders.controller.js:12-16 | the result is an order-preserving subsequence of the collection |
| OrdersController.ListCounts | src/orders/orders.controller.js:14 | when nothing throws, each selected order occurs in the result as often as in the collection, and an unselected order does not occur |
| OrdersController.ListMembership | src/orders/orders.controller.js:14 | with a truthy `dishId`, an order is in the result iff it is in the collection and its `dishes.id` equals `dishId`; otherwise iff it is in the collection |
| OrdersController.ListIdempotent | src/orders/orders.controller.js:12-16 | filtering the result again with the same `dishId` gives the same result |

## Left out

- Express glue is not modelled: `req`, `res`, `next`, `res.json`, `res.status`, `res.locals` and route mounting. Replies are `Ok(status, dish)` or `Error(status, message)`. The `{data: …}` and `{error: …}` wrappers are omitted.
- Seed data is loaded with `require` (src/dishes/dishes.controller.js:4, src/orders/orders.controller.js:4). It becomes the store's constructor argument and the `orders` parameter of `List`.
- The id generator `nextId` is not part of this model. `DishStore.Create` takes its result as `freshId` and requires that no stored dish has that id.
- A `data` member that is `null` or a primitive is not modelled. With `null`, reading a property throws, and Express answers with a server error. `Envelope` only covers an object or a missing `data`.
- Dish records are values. In the source, `update` writes into the object that was found, which is also the object in the reply. A reply object that a caller kept from an earlier `read` would see a later update. The model does not capture that aliasing.
- JavaScript numbers are not modelled as doubles. Integers are unbounded, so precision loss above 2^53 does not appear. `Show` renders integers in plain decimal, but JavaScript switches to exponent notation from 1e21. A number with a fractional part carries its JavaScript rendering as text.
- JsValues.Show: an object with an own `toString` key, such as `{"toString":1}`, cannot be converted to a primitive, because JSON gives that key a non-callable value. Such an object, alone or inside an array, makes `${id}` (src/dishes/dishes.controller.js:75) and `price <= 0` (src/dishes/dishes.controller.js:28) throw a TypeError, and Express answers with a server error. The model does not model that throw. `Show` renders such an object as "[object Object]", so `IdMatch` rejects it with 400, and `PriceIsValidNumber` rejects such a price with the 400 price message. JavaScript's `<=` on non-numbers is not modelled otherwise. Every non-integer price is rejected without evaluating it.
- Loose equality `==` in the orders filter is modelled as equality of optional strings. Type coercion, such as a number against a string, is not modelled. Of an order, `list` reads only `dishes` and its `id`. `Order.id` is in the model only to tell orders apart.
- Orders have no validation, status lifecycle, create, update or delete in the modelled source. The source has no status enumeration, no "delivered is immutable" rule and no "delete only when pending" rule, so the model has none either.
- `list` in src/orders/orders.controller.js is not exported, so no route reaches it. The `nextId` import in that file is unused. The model covers `list` as written.
- `list` cannot change the orders collection: `OrdersController.List` is a function of the collection. `DishStore.Read` and `DishStore.List` have no `modifies` clause, so two reads with no update between them return identical data.
