# Grubdash order and dish controllers in Dafny

This project models the two controllers of the Grubdash Express API. They serve
`/orders` and `/dishes`. Each route is an array of middleware: validators,
then a handler. A validator reads the route id, the shared array, a field of
`req.body.data` or a value an earlier validator recorded in `res.locals`, and
then does one of three things:
- calls `next()`. The presence checks, the status check, the create price rule
  and the existence checks also record a value in `res.locals`; the array
  checks, the id checks and the update price rule record nothing;
- calls `next({ status, message })`;
- throws a TypeError. Every validator that destructures the body throws when
  the body is null or undefined or its `data` is null (a missing `data`
  defaults to `{}` and gives undefined fields). The status check also throws when
  the status is neither a string nor an array (it has no `includes`). The
  quantity check also throws when `dishes` is not an array (it has no `forEach`)
  and when a dish is null or undefined (reading its `quantity`).

The last element of the array is a handler. It answers with the shared in-memory
`orders` or `dishes` array, or changes that array: it pushes a record, overwrites
fields of the record found, or splices one out.

The files:
- `js.dfy` (module `Js`) covers the JavaScript semantics the controllers rely on:
  - request-body values (`Json`) and truthiness;
  - `String(n)` and `Number(s)` on integers;
  - the relational comparisons against a number literal, with conversion to number;
  - strict equality;
  - `String.prototype.includes`, `Array.prototype.findIndex` and `splice(start, 1)`.
- `middleware.dfy` (module `Middleware`) covers the shared shape:
  - a request;
  - the signals a middleware hands on;
  - an `Invocation`. Its `first` signal decides how the request goes on. Its `later` signals record every call to `next` after the first: the `next()` that follows `next(error)` in the validators that do not `return`, the further `next(error)` and final `next()` calls of the quantity check's `forEach` walk, and the `next(400)` that `destroy` makes after its 204;
  - the body destructuring `const { data: { f } = {} } = req.body`;
  - the generic presence check;
  - `RunChain`, the run of a route's validators in order, which stops at the first signal other than `next()`.
- `orders.dfy` (module `Orders`) and `dishes.dfy` (module `Dishes`) hold:
  - each controller's validators, as functions;
  - its exported arrays, as sequences of those functions;
  - lemmas on what each array accepts and rejects;
  - a store class. Its `seq` field is the shared array, and its methods are the handlers and the routes.

Records are datatypes. An in-place field update of the record found becomes
`orders[k := ...]` on the store's field. Ids are strings.

## Model

| member | source | states |
|---|---|---|
| Js.Truthy | src/orders/orders.controller.js:15 | a value is falsy exactly when it is undefined, null, false, 0 or the empty string; arrays and objects are truthy |
| Js.ToNumber | src/dishes/dishes.controller.js:75 | numbers convert to themselves, null to 0, undefined to NaN |
| Js.GreaterThan | src/dishes/dishes.controller.js:75 | `v > k` after conversion: for a number it is the plain comparison, for undefined it is false |
| Js.AtMost | src/dishes/dishes.controller.js:95 | `v <= k` after conversion: for a number it is the plain comparison, for undefined it is false |
| Js.StrictEqualsNumber | src/orders/orders.controller.js:209 | a string is never strictly equal to a number |
| Js.FindIndex | src/orders/orders.controller.js:209 | the result is -1 exactly when no element satisfies the predicate; otherwise it is the first index that does |
| Js.SpliceOne | src/orders/orders.controller.js:210 | removes the element at `start`; a negative start counts back from the end, so -1 removes the last element; a start past the end removes nothing |
| Middleware.BodyField | src/orders/orders.controller.js:12 | the destructuring throws exactly when the body is null or undefined or its `data` is null; a missing `data` defaults to `{}` and gives undefined fields |
| Middleware.CheckPresence | src/dishes/dishes.controller.js:14-29 | `next()` exactly when the field is truthy, a throw exactly when the body is unreadable, otherwise 400 with "<article> '<field>' property is required." |
| Middleware.RunChain | src/orders/orders.controller.js:219-243 | a chain that stops does so on a signal other than `next()` |
| Middleware.RunChainAppend | src/orders/orders.controller.js:219-243 | running two arrays of validators in a row is running the first and, only if it reached its end, the second from the locals it left; a stop in the first is the stop of the whole |
| Orders.OrderIndex | src/orders/orders.controller.js:149 | `find` by id: -1 exactly when no order has the id, otherwise the first order that has it |
| Orders.BodyHasDeliverProp | src/orders/orders.controller.js:11-25 | passes exactly when `deliverTo` is truthy and records it; otherwise 400 "A 'deliverTo' property is required." or a throw |
| Orders.BodyHasMobileNumber | src/orders/orders.controller.js:28-41 | passes exactly when `mobileNumber` is truthy and records it; otherwise 400 with the required message |
| Orders.BodyHasStatus | src/orders/orders.controller.js:44-57 | passes exactly when `status` is truthy and records it; otherwise 400 with the required message |
| Orders.DataStringIsValid | src/orders/orders.controller.js:60-79 | passes exactly when the status contains one of the four statuses (substring for a string, element for an array); throws for any other type; otherwise 400 with the status message |
| Orders.StatusContainingTokenAccepted | src/orders/orders.controller.js:63-67 | any string containing a valid status anywhere is accepted, "superpending" included |
| Orders.BodyHasDishesProp | src/orders/orders.controller.js:82-95 | passes exactly when `dishes` is truthy and records it; otherwise 400 with the required message |
| Orders.DishesArrayIsValid | src/orders/orders.controller.js:98-109 | on a readable body, first signal `next()` exactly when the recorded dishes are a non-empty array; otherwise 400 followed by a second `next()` |
| Orders.QuantityRejected | src/orders/orders.controller.js:117 | the quantity test rejects exactly what is not a positive number |
| Orders.FirstRejectedDish | src/orders/orders.controller.js:114-124 | -1 exactly when every dish has a positive numeric quantity; otherwise the first dish that has not |
| Orders.FirstQuantitySignal | src/orders/orders.controller.js:112-127 | the first call made while walking the dishes is `next()` exactly when no dish is rejected; otherwise it is the rejection of the first rejected dish |
| Orders.DishesArrayLengthIsValid | src/orders/orders.controller.js:112-127 | throws for a non-array; otherwise the first signal is `next()` or the 400 (or the throw) for the first dish without a positive numeric quantity, and the first and later signals together are exactly the calls the `forEach` walk makes (`QuantitySignals`, as `ForEachDish` computes them) |
| Orders.ForEachDish | src/orders/orders.controller.js:114-126 | the `forEach` loop makes exactly the calls `QuantitySignals` lists: one 400 per rejected dish in order, then `next()`; a null dish ends the walk with a throw |
| Orders.DataIdMatchesOrderId | src/orders/orders.controller.js:130-143 | on a readable body, passes exactly when the body id is undefined, null, "" or the route id; otherwise 400 naming the id, then a second `next()` |
| Orders.OrderExists | src/orders/orders.controller.js:146-160 | passes exactly when some order has the route id and records the first such order; otherwise 404 "Order id not found: <id>" |
| Orders.CreateChainAccepts | src/orders/orders.controller.js:222-229 | the create chain reaches `create` exactly when deliverTo and mobileNumber are truthy and dishes is a non-empty array of dishes with positive quantities; the locals then hold those three fields |
| Orders.CreateChainRejectsFirstBadDish | src/orders/orders.controller.js:222-229 | with valid fields and a non-empty dishes array, the create chain stops with the rejection of the first dish without a positive quantity |
| Orders.UpdateChainAccepts | src/orders/orders.controller.js:230-241 | the update chain reaches `update` exactly when the order exists and the body passes every check; an unknown id gives 404 before any body check |
| Orders.ReadChainPasses | src/orders/orders.controller.js:221 | `[orderExists]`, the validators of both the read and the delete route, passes exactly when the order exists and records the first order with the id; otherwise it stops with the 404 |
| Orders.UpdatedOrders | src/orders/orders.controller.js:170-179 | the order found takes the body's deliverTo, mobileNumber, status and dishes; its id, the length and every other order are unchanged |
| Orders.ReadAfterCreate | src/orders/orders.controller.js:189-200 | after a create with a fresh id, reading that id finds the new order, and every existing id finds the same order as before |
| Orders.ReadAfterUpdate | src/orders/orders.controller.js:170-186 | after an update, reading the route id finds the same position, now holding the order with the route id and the body's deliverTo, mobileNumber, status and dishes |
| Orders.DestroyIndex | src/orders/orders.controller.js:209 | comparing string ids with `Number(orderId)` matches no order: the index is always -1 |
| Orders.AfterDestroy | src/orders/orders.controller.js:203-217 | as written: deleting a pending order removes the last order of the array; a non-pending order leaves the array unchanged |
| Orders.DestroyRemovesTheLastOrder | src/orders/orders.controller.js:208-210 | deleting pending order "1" from ["1", "2"] keeps "1" and removes "2" |
| Orders.AfterDestroyIntended | src/orders/orders.controller.js:203-217 | deleting a pending order removes exactly the order found, so the length drops by one; a non-pending order leaves the array unchanged |
| Orders.IntendedDestroyRemovesExactlyThatOrder | src/orders/orders.controller.js:203-217 | with unique ids, no order with the deleted id remains, and every other order is kept |
| Orders.OrderStore.List | src/orders/orders.controller.js:165-167 | answers 200 with the whole array |
| Orders.OrderStore.ReadRoute | src/orders/orders.controller.js:182-186 | answers 200 with the first order having the route id, or the 404 when there is none |
| Orders.OrderStore.Create | src/orders/orders.controller.js:189-200 | an unreadable body throws and pushes nothing; otherwise appends exactly one order with the fresh id, the body's fields and status "out-for-delivery", and answers 201 with it; unique ids stay unique |
| Orders.OrderStore.Update | src/orders/orders.controller.js:170-179 | an unreadable body or a missing order throws and changes nothing; otherwise the array becomes `UpdatedOrders` and the answer is 200 with the updated order; unique ids stay unique |
| Orders.OrderStore.Destroy | src/orders/orders.controller.js:203-217 | as written: a pending order gives 204, removes the last order and is followed by a 400 signal; a non-pending order gives the 400 and changes nothing; an unreadable body or a missing order throws and changes nothing |
| Orders.OrderStore.DestroyIntended | src/orders/orders.controller.js:203-217 | a pending order gives 204 alone and is removed; a non-pending order gives the 400 and changes nothing; an unreadable body or a missing order throws and changes nothing |
| Orders.OrderStore.CreateRoute | src/orders/orders.controller.js:222-229 | a creatable body appends the new order; any other body leaves the array unchanged and answers with the signal the chain stopped on |
| Orders.OrderStore.UpdateRoute | src/orders/orders.controller.js:230-241 | an existing order and a valid body give the update; otherwise nothing changes, and an unknown id answers 404 |
| Orders.OrderStore.DeleteRoute | src/orders/orders.controller.js:242 | an unknown id answers 404; an unreadable body throws; otherwise the delete runs as intended (see Findings) |
| Dishes.DishIndex | src/dishes/dishes.controller.js:133 | `find` by id: -1 exactly when no dish has the id, otherwise the first dish that has it |
| Dishes.BodyHasName | src/dishes/dishes.controller.js:14-29 | passes exactly when `name` is truthy and records it; otherwise 400 "A 'name' property is required." or a throw |
| Dishes.BodyHasDescription | src/dishes/dishes.controller.js:34-47 | passes exactly when `description` is truthy and records it; otherwise 400 with the required message |
| Dishes.BodyHasPrice | src/dishes/dishes.controller.js:52-66 | passes exactly when `price` is truthy (so 0 fails) and records it; otherwise 400 "A 'price' property is required." |
| Dishes.BodyHasValidPrice | src/dishes/dishes.controller.js:71-85 | passes exactly when the body price is above -1 after conversion (for a number: at least 0) and records it; otherwise 400 "price cannot be less than 0." |
| Dishes.BodyHasValidPriceForUpdate | src/dishes/dishes.controller.js:90-105 | passes exactly when the recorded price is a number greater than 0; otherwise 400 "price must be an integer greater than $0." |
| Dishes.BodyHasImg | src/dishes/dishes.controller.js:110-124 | passes exactly when `image_url` is truthy and records it; otherwise 400 "An 'image_url' property is required." |
| Dishes.DishExists | src/dishes/dishes.controller.js:130-145 | passes exactly when some dish has the route id and records the first such dish; otherwise 404 "Dish id not found: <id>" |
| Dishes.DishIdMatchesDataId | src/dishes/dishes.controller.js:150-163 | on a readable body, passes exactly when the body id is "", the route id, null or undefined; otherwise 400 naming the id, then a second `next()` |
| Dishes.CreateChainAccepts | src/dishes/dishes.controller.js:226-233 | the create chain reaches `create` exactly when the four fields are truthy and the price is above -1; the locals then hold the four fields |
| Dishes.UpdateChainAccepts | src/dishes/dishes.controller.js:234-243 | the update chain reaches `update` exactly when the dish exists, the id matches, the four fields are truthy and the price is a positive number; an unknown id gives 404 first |
| Dishes.ReadChainPasses | src/dishes/dishes.controller.js:225 | `[dishExists]` passes exactly when the dish exists and records it, and otherwise stops with the 404 |
| Dishes.ZeroPriceIsMissing | src/dishes/dishes.controller.js:56 | price 0 stops both chains at the presence check with "A 'price' property is required.", before either price rule |
| Dishes.NegativePriceMessages | src/dishes/dishes.controller.js:71-105 | a negative price stops create with "price cannot be less than 0." and update with "price must be an integer greater than $0." |
| Dishes.NumericStringPrice | src/dishes/dishes.controller.js:75-95 | the price "5" passes the create rule but fails the update rule |
| Dishes.UpdatedDishes | src/dishes/dishes.controller.js:209-221 | the dish found takes the body's name, description, price and image_url; its id, the length and every other dish are unchanged |
| Dishes.ReadAfterCreate | src/dishes/dishes.controller.js:191-205 | after a create with a fresh id, reading that id finds the new dish, and every existing id finds the same dish as before |
| Dishes.ReadAfterUpdate | src/dishes/dishes.controller.js:209-221 | after an update, reading the route id finds the same position, now holding the body's fields |
| Dishes.DishStore.List | src/dishes/dishes.controller.js:172-176 | answers 200 with the whole array |
| Dishes.DishStore.ReadRoute | src/dishes/dishes.controller.js:180-187 | answers 200 with the dish `dishExists` recorded, the first with the route id, or the 404 |
| Dishes.DishStore.Create | src/dishes/dishes.controller.js:191-205 | an unreadable body throws and pushes nothing; otherwise appends exactly one dish with the fresh id and the body's four fields, and answers 201 with it; earlier dishes are unchanged and unique ids stay unique |
| Dishes.DishStore.Update | src/dishes/dishes.controller.js:209-221 | an unreadable body or a missing dish throws and changes nothing; otherwise the array becomes `UpdatedDishes` and the answer is 200 with the updated dish; unique ids stay unique |
| Dishes.DishStore.CreateRoute | src/dishes/dishes.controller.js:226-233 | a creatable body appends the new dish; any other body leaves the array unchanged and answers with the signal the chain stopped on |
| Dishes.DishStore.UpdateRoute | src/dishes/dishes.controller.js:234-243 | an existing dish and a valid body give the update; otherwise nothing changes, and an unknown id answers 404 |

The comment at src/dishes/dishes.controller.js:74 calls a price of 0 or more
valid, but a price of 0 never reaches that rule: 0 is falsy, so `bodyHasPrice`
rejects it first (`Dishes.ZeroPriceIsMissing`).

## Left out

- Express plumbing is not modelled: `res.json`, `res.status` and `res.sendStatus` become the `Reply` datatype. What Express does with a second `next()` call is not modelled either; the model keeps it in `later`.
- `nextId` (src/utils/nextId) is not part of this model. The handlers take the new id as a parameter that must not be in use.
- The data modules `orders-data` and `dishes-data` are not part of this model. The stores start from any sequence.
- The router files and the 405 `methodNotAllowed` handler are not part of this model.
- Numbers are integers. Floating-point prices and quantities are not modelled, and neither are NaN and Infinity as values in a body.
- Js.ToNumber: `Number(s)` reads only "", decimal digits and "-" followed by digits. Every other string is taken to be NaN; real JavaScript also reads blanks, "+", fractions, exponents and hex.
- Aliasing is not modelled. `res.locals.order` and `res.locals.matchingDish` point at the stored record, but no modelled handler reads them after the array changes.
- Concurrency is not modelled. The handlers run one request at a time.

## Findings

| source | as written | input that shows it | evidently intended | confidence | as-written member | corrected member |
|---|---|---|---|---|---|---|
| src/orders/orders.controller.js:209-210 | `findIndex` compares the string ids with `Number(orderId)`, finds nothing, and `splice(-1, 1)` removes the last order | orders "1" (pending) and "2" (preparing); delete order "1" | remove the order that was found | not executed | Orders.DestroyRemovesTheLastOrder | Orders.AfterDestroyIntended |
| src/orders/orders.controller.js:208-216 | after `sendStatus(204)` there is no `return`, so `next` is still called with the 400 | any pending order; delete it | answer 204 alone | not executed | Orders.OrderStore.Destroy | Orders.OrderStore.DestroyIntended |
