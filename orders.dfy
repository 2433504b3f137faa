/** The order controller: the validators over `req.body.data`, the arrays of
    middleware it exports, and the handlers that change the shared `orders`
    array. */
module Orders {
  import opened Js
  import opened Middleware

  /** An order as the `orders` array holds it. Ids are strings, both those of
      the initial data and those `nextId` hands out. */
  datatype Order = Order(id: string, deliverTo: Json, mobileNumber: Json, status: Json, dishes: Json)

  /** `res.locals` on the order routes. */
  datatype Locals = Locals(deliverTo: Json, mobileNumber: Json, status: Json, dishes: Json, order: Option<Order>)

  const NoLocals := Locals(Undefined, Undefined, Undefined, Undefined, None)

  const StatusMessage := "status property must be valid string: 'pending', 'preparing', 'out-for-delivery', or 'delivered'"
  const DishesArrayMessage := "invalid dishes property: dishes property must be non-empty array"
  const NotPendingMessage := "order cannot be deleted unless order status = 'pending'"

  predicate HasOrder(orders: seq<Order>, id: string)
  {
    exists i :: 0 <= i < |orders| && orders[i].id == id
  }

  predicate UniqueIds(orders: seq<Order>)
  {
    forall i, j :: 0 <= i < j < |orders| ==> orders[i].id != orders[j].id
  }

  /** `orders.find((order) => order.id === orderId)`, as an index. */
  function OrderIndex(orders: seq<Order>, id: string): (k: int)
    ensures -1 <= k < |orders|
    ensures k == -1 <==> !HasOrder(orders, id)
    ensures k >= 0 ==> orders[k].id == id && forall j :: 0 <= j < k ==> orders[j].id != id
  {
    FindIndex(orders, (o: Order) => o.id == id)
  }

  // ---------------------------------------------------------------------
  // Presence validators

  function BodyHasDeliverProp(req: Request, orders: seq<Order>, locals: Locals): (r: Invocation<Locals>)
    ensures PresenceOutcome(req.body, "deliverTo", RequiredMessage("A", "deliverTo"), r.first)
    ensures r.locals == if r.first == Next then locals.(deliverTo := BodyValue(req.body, "deliverTo")) else locals
    ensures r.later == []
  {
    var s := CheckPresence(req.body, "deliverTo", "A");
    Invocation(if s == Next then locals.(deliverTo := BodyValue(req.body, "deliverTo")) else locals, s, [])
  }

  function BodyHasMobileNumber(req: Request, orders: seq<Order>, locals: Locals): (r: Invocation<Locals>)
    ensures PresenceOutcome(req.body, "mobileNumber", RequiredMessage("A", "mobileNumber"), r.first)
    ensures r.locals == if r.first == Next then locals.(mobileNumber := BodyValue(req.body, "mobileNumber")) else locals
    ensures r.later == []
  {
    var s := CheckPresence(req.body, "mobileNumber", "A");
    Invocation(if s == Next then locals.(mobileNumber := BodyValue(req.body, "mobileNumber")) else locals, s, [])
  }

  function BodyHasStatus(req: Request, orders: seq<Order>, locals: Locals): (r: Invocation<Locals>)
    ensures PresenceOutcome(req.body, "status", RequiredMessage("A", "status"), r.first)
    ensures r.locals == if r.first == Next then locals.(status := BodyValue(req.body, "status")) else locals
    ensures r.later == []
  {
    var s := CheckPresence(req.body, "status", "A");
    Invocation(if s == Next then locals.(status := BodyValue(req.body, "status")) else locals, s, [])
  }

  function BodyHasDishesProp(req: Request, orders: seq<Order>, locals: Locals): (r: Invocation<Locals>)
    ensures PresenceOutcome(req.body, "dishes", RequiredMessage("A", "dishes"), r.first)
    ensures r.locals == if r.first == Next then locals.(dishes := BodyValue(req.body, "dishes")) else locals
    ensures r.later == []
  {
    var s := CheckPresence(req.body, "dishes", "A");
    Invocation(if s == Next then locals.(dishes := BodyValue(req.body, "dishes")) else locals, s, [])
  }

  // ---------------------------------------------------------------------
  // Status

  /** The loose status test: a string containing one of the four statuses
      anywhere, or (through `Array.prototype.includes`) an array holding one
      of them as an element. */
  predicate StatusAccepted(status: Json)
  {
    match status
    case Str(s) =>
      Includes(s, "pending") || Includes(s, "preparing") ||
      Includes(s, "out-for-delivery") || Includes(s, "delivered")
    case Arr(a) =>
      Str("pending") in a || Str("preparing") in a ||
      Str("out-for-delivery") in a || Str("delivered") in a
    case _ => false
  }

  /** `dataStringIsValid`. A status that is neither a string nor an array has
      no `includes` method, so the call throws. */
  function DataStringIsValid(req: Request, orders: seq<Order>, locals: Locals): (r: Invocation<Locals>)
    ensures r.first == Next <==> StatusAccepted(BodyValue(req.body, "status"))
    ensures r.first == Threw <==> !BodyValue(req.body, "status").Str? && !BodyValue(req.body, "status").Arr?
    ensures r.first.NextError? ==> r.first == NextError(400, StatusMessage)
    ensures r.locals == if r.first == Next then locals.(status := BodyValue(req.body, "status")) else locals
    ensures r.later == []
  {
    var status := BodyValue(req.body, "status");
    if !status.Str? && !status.Arr? then Invocation(locals, Threw, [])
    else if StatusAccepted(status) then Invocation(locals.(status := status), Next, [])
    else Invocation(locals, NextError(400, StatusMessage), [])
  }

  /** Any string that contains one of the four statuses passes, whatever
      surrounds it: "superpending" is accepted. */
  lemma StatusContainingTokenAccepted(pre: string, token: string, post: string)
    requires token in ["pending", "preparing", "out-for-delivery", "delivered"]
    ensures StatusAccepted(Str(pre + token + post))
    ensures StatusAccepted(Str("superpending"))
  {
    IncludesInfix(pre, token, post);
    IncludesInfix("super", "pending", "");
    assert "super" + "pending" + "" == "superpending";
  }

  // ---------------------------------------------------------------------
  // Dishes

  predicate NonEmptyArray(v: Json)
  {
    v.Arr? && |v.elems| > 0
  }

  /** `dishesArrayIsValid`, which tests the `dishes` recorded in the locals.
      After `next(error)` there is no `return`, so `next()` follows. */
  function DishesArrayIsValid(req: Request, orders: seq<Order>, locals: Locals): (r: Invocation<Locals>)
    ensures r.locals == locals
    ensures !Readable(req.body) ==> r.first == Threw && r.later == []
    ensures Readable(req.body) ==> (r.first == Next <==> NonEmptyArray(locals.dishes))
    ensures r.first.NextError? ==> r.first == NextError(400, DishesArrayMessage) && r.later == [Next]
    ensures r.first == Next ==> r.later == []
  {
    if !Readable(req.body) then Invocation(locals, Threw, [])
    else if !locals.dishes.Arr? || |locals.dishes.elems| == 0 then
      Invocation(locals, NextError(400, DishesArrayMessage), [Next])
    else Invocation(locals, Next, [])
  }

  const QuantityRule := " must have quantity property, quantity must be an integer, and it must not be equal to or less than 0"

  function QuantityMessage(id: Json): string
  {
    "dish " + ToJsString(id) + QuantityRule
  }

  /** `!quantity || quantity <= 0 || typeof quantity !== "number"`: for
      integer numbers, anything but a positive number. */
  predicate QuantityRejected(quantity: Json)
    ensures QuantityRejected(quantity) <==> !(quantity.Num? && quantity.n > 0)
  {
    !Truthy(quantity) || AtMost(quantity, 0) || !quantity.Num?
  }

  /** A dish whose `quantity` is a positive number. */
  predicate DishAccepted(dish: Json)
  {
    var q := Prop(dish, "quantity");
    q.Num? && q.n > 0
  }

  /** What the `forEach` callback does with a dish it does not accept:
      reading `quantity` of null or undefined throws; otherwise it calls
      `next` with a 400 that names the dish's id. */
  function Rejection(dish: Json): Signal
  {
    if dish.Undefined? || dish.Null? then Threw
    else NextError(400, QuantityMessage(Prop(dish, "id")))
  }

  /** The index of the first dish not accepted, or -1. */
  function FirstRejectedDish(dishes: seq<Json>): (k: int)
    ensures -1 <= k < |dishes|
    ensures k == -1 <==> forall i :: 0 <= i < |dishes| ==> DishAccepted(dishes[i])
    ensures k >= 0 ==> !DishAccepted(dishes[k]) && forall j :: 0 <= j < k ==> DishAccepted(dishes[j])
    decreases |dishes|
  {
    if dishes == [] then -1
    else if !DishAccepted(dishes[0]) then 0
    else
      var k := FirstRejectedDish(dishes[1..]);
      if k == -1 then -1 else k + 1
  }

  /** Every signal `dishesArrayLengthIsValid` gives for an array of dishes:
      one `next(error)` per rejected dish in order, then the unconditional
      `next()`; a throw ends the run. */
  function QuantitySignals(dishes: seq<Json>): (calls: seq<Signal>)
    ensures calls != []
    decreases |dishes|
  {
    if dishes == [] then [Next]
    else if dishes[0].Undefined? || dishes[0].Null? then [Threw]
    else
      (if DishAccepted(dishes[0]) then [] else [Rejection(dishes[0])])
      + QuantitySignals(dishes[1..])
  }

  /** The first signal is `next()` exactly when every dish has a positive
      numeric quantity, and otherwise the rejection of the first dish that
      has not. */
  lemma {:induction false} FirstQuantitySignal(dishes: seq<Json>)
    ensures var k := FirstRejectedDish(dishes);
      QuantitySignals(dishes)[0] == if k == -1 then Next else Rejection(dishes[k])
    decreases |dishes|
  {
    if dishes == [] {
      assert FirstRejectedDish(dishes) == -1;
    } else if !DishAccepted(dishes[0]) {
      assert FirstRejectedDish(dishes) == 0;
      if !dishes[0].Undefined? && !dishes[0].Null? {
        assert QuantitySignals(dishes) == [Rejection(dishes[0])] + QuantitySignals(dishes[1..]);
      }
    } else {
      var rest := dishes[1..];
      FirstQuantitySignal(rest);
      assert QuantitySignals(dishes) == QuantitySignals(rest);
      var k := FirstRejectedDish(rest);
      assert FirstRejectedDish(dishes) == if k == -1 then -1 else k + 1;
      assert k >= 0 ==> rest[k] == dishes[k + 1];
    }
  }

  /** `dishesArrayLengthIsValid`, which walks the body's `dishes` (not the
      locals') with `forEach`. A non-array has no `forEach`, so the call
      throws. */
  function DishesArrayLengthIsValid(req: Request, orders: seq<Order>, locals: Locals): (r: Invocation<Locals>)
    ensures r.locals == locals
    ensures !BodyValue(req.body, "dishes").Arr? ==> r.first == Threw && r.later == []
    ensures var dishes := BodyValue(req.body, "dishes");
      dishes.Arr? ==>
        var k := FirstRejectedDish(dishes.elems);
        r.first == if k == -1 then Next else Rejection(dishes.elems[k])
    ensures var dishes := BodyValue(req.body, "dishes");
      dishes.Arr? ==> [r.first] + r.later == QuantitySignals(dishes.elems)
  {
    var dishes := BodyValue(req.body, "dishes");
    if !dishes.Arr? then Invocation(locals, Threw, [])
    else
      var calls := QuantitySignals(dishes.elems);
      FirstQuantitySignal(dishes.elems);
      Invocation(locals, calls[0], calls[1..])
  }

  /** The `forEach` loop of `dishesArrayLengthIsValid`, call by call. */
  method ForEachDish(dishes: seq<Json>) returns (calls: seq<Signal>)
    ensures calls == QuantitySignals(dishes)
  {
    calls := [];
    var i := 0;
    while i < |dishes|
      invariant 0 <= i <= |dishes|
      invariant calls + QuantitySignals(dishes[i..]) == QuantitySignals(dishes)
    {
      var dish := dishes[i];
      assert dishes[i..][0] == dish && dishes[i..][1..] == dishes[i + 1..];
      if dish.Undefined? || dish.Null? {
        // reading `dish.quantity` throws out of the loop
        calls := calls + [Threw];
        return;
      }
      var quantity := Prop(dish, "quantity");
      if QuantityRejected(quantity) {
        calls := calls + [NextError(400, QuantityMessage(Prop(dish, "id")))];
      }
      i := i + 1;
    }
    calls := calls + [Next];
  }

  // ---------------------------------------------------------------------
  // Identity and existence

  /** `dataIdMatchesOrderId`. After `next(error)` there is no `return`, so
      `next()` follows. */
  function DataIdMatchesOrderId(req: Request, orders: seq<Order>, locals: Locals): (r: Invocation<Locals>)
    ensures r.locals == locals
    ensures !Readable(req.body) ==> r.first == Threw && r.later == []
    ensures Readable(req.body) ==> (r.first == Next <==> IdAccepted(BodyValue(req.body, "id"), req.routeId))
    ensures r.first.NextError? ==>
      r.first == NextError(400, "id " + ToJsString(BodyValue(req.body, "id")) + " must match orderId provided in parameters")
      && r.later == [Next]
    ensures r.first == Next ==> r.later == []
  {
    if !Readable(req.body) then Invocation(locals, Threw, [])
    else
      var id := BodyValue(req.body, "id");
      if id != Undefined && id != Null && id != Str("") && id != Str(req.routeId) then
        Invocation(locals, NextError(400, "id " + ToJsString(id) + " must match orderId provided in parameters"), [Next])
      else Invocation(locals, Next, [])
  }

  /** `orderExists`: attaches the first order with the route id, or 404. */
  function OrderExists(req: Request, orders: seq<Order>, locals: Locals): (r: Invocation<Locals>)
    ensures r.first == Next <==> HasOrder(orders, req.routeId)
    ensures r.first == Next ==>
      exists k :: 0 <= k < |orders| && orders[k].id == req.routeId &&
        (forall j :: 0 <= j < k ==> orders[j].id != req.routeId) &&
        r.locals == locals.(order := Some(orders[k]))
    ensures r.first != Next ==>
      r.first == NextError(404, "Order id not found: " + req.routeId) && r.locals == locals
    ensures r.later == []
  {
    var k := OrderIndex(orders, req.routeId);
    if k >= 0 then Invocation(locals.(order := Some(orders[k])), Next, [])
    else Invocation(locals, NextError(404, "Order id not found: " + req.routeId), [])
  }

  // ---------------------------------------------------------------------
  // The exported chains (their validators; the handler comes last)

  const CreateChain: seq<Step<Order, Locals>> :=
    [BodyHasDeliverProp, BodyHasMobileNumber, BodyHasDishesProp, DishesArrayIsValid, DishesArrayLengthIsValid]

  const UpdateChain: seq<Step<Order, Locals>> :=
    [OrderExists, DataIdMatchesOrderId, BodyHasDeliverProp, BodyHasMobileNumber, BodyHasDishesProp,
     BodyHasStatus, DataStringIsValid, DishesArrayIsValid, DishesArrayLengthIsValid]

  const ReadChain: seq<Step<Order, Locals>> := [OrderExists]

  const DeleteChain: seq<Step<Order, Locals>> := [OrderExists]

  /** A non-empty array of dishes, each with a positive numeric quantity. */
  predicate ValidDishes(v: Json)
  {
    NonEmptyArray(v) && forall i :: 0 <= i < |v.elems| ==> DishAccepted(v.elems[i])
  }

  /** What the create chain demands of a body. */
  predicate CreatableBody(body: Json)
  {
    TruthyField(body, "deliverTo") && TruthyField(body, "mobileNumber") && ValidDishes(BodyValue(body, "dishes"))
  }

  /** What the update chain demands of a body, once the order exists. */
  predicate UpdatableBody(body: Json, routeId: string)
  {
    && IdAccepted(BodyValue(body, "id"), routeId)
    && TruthyField(body, "deliverTo") && TruthyField(body, "mobileNumber") && TruthyField(body, "status")
    && StatusAccepted(BodyValue(body, "status"))
    && ValidDishes(BodyValue(body, "dishes"))
  }

  lemma {:induction false} CreateChainAccepts(req: Request, orders: seq<Order>)
    ensures RunChain(CreateChain, req, orders, NoLocals).Reached? <==> CreatableBody(req.body)
    ensures RunChain(CreateChain, req, orders, NoLocals).Reached? ==>
      RunChain(CreateChain, req, orders, NoLocals).locals ==
        NoLocals.(deliverTo := BodyValue(req.body, "deliverTo"),
                  mobileNumber := BodyValue(req.body, "mobileNumber"),
                  dishes := BodyValue(req.body, "dishes"))
  {
    var c := CreateChain;
    var i0 := BodyHasDeliverProp(req, orders, NoLocals);
    var i1 := BodyHasMobileNumber(req, orders, i0.locals);
    var i2 := BodyHasDishesProp(req, orders, i1.locals);
    var i3 := DishesArrayIsValid(req, orders, i2.locals);
    var i4 := DishesArrayLengthIsValid(req, orders, i3.locals);
    assert c[0..] == c;
    RunChainFrom(c, 0, req, orders, NoLocals);
    RunChainFrom(c, 1, req, orders, i0.locals);
    RunChainFrom(c, 2, req, orders, i1.locals);
    RunChainFrom(c, 3, req, orders, i2.locals);
    RunChainFrom(c, 4, req, orders, i3.locals);
    assert c[5..] == [];
  }

  /** With the fields present and a non-empty array of dishes, the create
      chain stops at the first dish without a positive numeric quantity, and
      the 400 names that dish's id. */
  lemma {:induction false} CreateChainRejectsFirstBadDish(req: Request, orders: seq<Order>)
    requires TruthyField(req.body, "deliverTo") && TruthyField(req.body, "mobileNumber")
    requires NonEmptyArray(BodyValue(req.body, "dishes"))
    requires FirstRejectedDish(BodyValue(req.body, "dishes").elems) >= 0
    ensures var dishes := BodyValue(req.body, "dishes").elems;
      RunChain(CreateChain, req, orders, NoLocals) == Stopped(Rejection(dishes[FirstRejectedDish(dishes)]))
  {
    var c := CreateChain;
    var i0 := BodyHasDeliverProp(req, orders, NoLocals);
    var i1 := BodyHasMobileNumber(req, orders, i0.locals);
    var i2 := BodyHasDishesProp(req, orders, i1.locals);
    var i3 := DishesArrayIsValid(req, orders, i2.locals);
    assert c[0..] == c;
    RunChainFrom(c, 0, req, orders, NoLocals);
    RunChainFrom(c, 1, req, orders, i0.locals);
    RunChainFrom(c, 2, req, orders, i1.locals);
    RunChainFrom(c, 3, req, orders, i2.locals);
    RunChainFrom(c, 4, req, orders, i3.locals);
  }

  lemma {:induction false} UpdateChainAccepts(req: Request, orders: seq<Order>)
    ensures RunChain(UpdateChain, req, orders, NoLocals).Reached? <==>
      HasOrder(orders, req.routeId) && UpdatableBody(req.body, req.routeId)
    ensures !HasOrder(orders, req.routeId) ==>
      RunChain(UpdateChain, req, orders, NoLocals) == Stopped(NextError(404, "Order id not found: " + req.routeId))
  {
    var c := UpdateChain;
    var i0 := OrderExists(req, orders, NoLocals);
    var i1 := DataIdMatchesOrderId(req, orders, i0.locals);
    var i2 := BodyHasDeliverProp(req, orders, i1.locals);
    var i3 := BodyHasMobileNumber(req, orders, i2.locals);
    var i4 := BodyHasDishesProp(req, orders, i3.locals);
    var i5 := BodyHasStatus(req, orders, i4.locals);
    var i6 := DataStringIsValid(req, orders, i5.locals);
    var i7 := DishesArrayIsValid(req, orders, i6.locals);
    var i8 := DishesArrayLengthIsValid(req, orders, i7.locals);
    assert c[0..] == c;
    RunChainFrom(c, 0, req, orders, NoLocals);
    RunChainFrom(c, 1, req, orders, i0.locals);
    RunChainFrom(c, 2, req, orders, i1.locals);
    RunChainFrom(c, 3, req, orders, i2.locals);
    RunChainFrom(c, 4, req, orders, i3.locals);
    RunChainFrom(c, 5, req, orders, i4.locals);
    RunChainFrom(c, 6, req, orders, i5.locals);
    RunChainFrom(c, 7, req, orders, i6.locals);
    RunChainFrom(c, 8, req, orders, i7.locals);
    assert c[9..] == [];
  }

  /** `[orderExists]`, the validators of both the read and the delete
      route (`DeleteChain` is the same sequence as `ReadChain`). */
  lemma {:induction false} ReadChainPasses(req: Request, orders: seq<Order>)
    ensures DeleteChain == ReadChain
    ensures RunChain(ReadChain, req, orders, NoLocals).Reached? <==> HasOrder(orders, req.routeId)
    ensures HasOrder(orders, req.routeId) ==>
      RunChain(ReadChain, req, orders, NoLocals).locals.order == Some(orders[OrderIndex(orders, req.routeId)])
    ensures !HasOrder(orders, req.routeId) ==>
      RunChain(ReadChain, req, orders, NoLocals) == Stopped(NextError(404, "Order id not found: " + req.routeId))
  {
    var c := ReadChain;
    assert c[0..] == c;
    RunChainFrom(c, 0, req, orders, NoLocals);
    assert c[1..] == [];
  }

  // ---------------------------------------------------------------------
  // What the handlers do to the collection

  /** The order `create` builds: the body's fields, the id `nextId()` gave,
      and the status "out-for-delivery" whatever the body says. */
  function NewOrder(id: string, body: Json): Order
  {
    Order(id, BodyValue(body, "deliverTo"), BodyValue(body, "mobileNumber"), Str("out-for-delivery"), BodyValue(body, "dishes"))
  }

  /** `update`: the first order with the route id takes the body's
      `deliverTo`, `mobileNumber`, `status` and `dishes`; its id and every
      other order stay as they were. */
  function UpdatedOrders(orders: seq<Order>, routeId: string, body: Json): (r: seq<Order>)
    requires HasOrder(orders, routeId)
    ensures |r| == |orders|
    ensures forall i :: 0 <= i < |orders| ==> r[i].id == orders[i].id
    ensures forall i :: 0 <= i < |orders| && i != OrderIndex(orders, routeId) ==> r[i] == orders[i]
    ensures var k := OrderIndex(orders, routeId);
      r[k] == Order(routeId, BodyValue(body, "deliverTo"), BodyValue(body, "mobileNumber"),
                    BodyValue(body, "status"), BodyValue(body, "dishes"))
  {
    var k := OrderIndex(orders, routeId);
    orders[k := orders[k].(deliverTo := BodyValue(body, "deliverTo"), mobileNumber := BodyValue(body, "mobileNumber"),
                           status := BodyValue(body, "status"), dishes := BodyValue(body, "dishes"))]
  }

  /** Reading back a created order: with a fresh id, the lookup by that id
      finds the new order at the end, and every earlier id still finds its
      old order. */
  lemma ReadAfterCreate(orders: seq<Order>, newId: string, body: Json, id: string)
    requires !HasOrder(orders, newId)
    ensures OrderIndex(orders + [NewOrder(newId, body)], newId) == |orders|
    ensures HasOrder(orders, id) ==> OrderIndex(orders + [NewOrder(newId, body)], id) == OrderIndex(orders, id)
  {
    var r := orders + [NewOrder(newId, body)];
    assert r[|orders|].id == newId;
    if HasOrder(orders, id) {
      var k := OrderIndex(orders, id);
      assert r[k] == orders[k];
    }
  }

  /** Reading back an updated order: the lookup by the route id lands on the
      same place, which now holds the body's fields. */
  lemma ReadAfterUpdate(orders: seq<Order>, routeId: string, body: Json)
    requires HasOrder(orders, routeId)
    ensures var r := UpdatedOrders(orders, routeId, body);
      OrderIndex(r, routeId) == OrderIndex(orders, routeId) &&
      r[OrderIndex(r, routeId)] ==
        Order(routeId, BodyValue(body, "deliverTo"), BodyValue(body, "mobileNumber"),
              BodyValue(body, "status"), BodyValue(body, "dishes"))
  {
    var r := UpdatedOrders(orders, routeId, body);
    var k := OrderIndex(orders, routeId);
    assert r[k].id == routeId;
    assert forall j :: 0 <= j < k ==> r[j].id == orders[j].id;
  }

  /** `orders.findIndex((order) => order.id === Number(orderId))`: a string id
      never equals a number, so no order matches. */
  function DestroyIndex(orders: seq<Order>, orderId: string): (k: int)
    ensures k == -1
  {
    FindIndex(orders, (o: Order) => StrictEqualsNumber(Str(o.id), NumberOf(orderId)))
  }

  predicate IsPending(order: Order)
  {
    order.status == Str("pending")
  }

  /** The collection after `destroy` as written: when the order found is
      pending, `splice(-1, 1)` takes out the LAST order, whichever that is. */
  function AfterDestroy(orders: seq<Order>, orderId: string): (r: seq<Order>)
    requires HasOrder(orders, orderId)
    ensures IsPending(orders[OrderIndex(orders, orderId)]) ==> r == orders[..|orders| - 1]
    ensures !IsPending(orders[OrderIndex(orders, orderId)]) ==> r == orders
  {
    if IsPending(orders[OrderIndex(orders, orderId)]) then SpliceOne(orders, DestroyIndex(orders, orderId))
    else orders
  }

  /** Deleting pending order "1" from ["1" pending, "2" preparing] removes
      order "2" and keeps "1". */
  lemma DestroyRemovesTheLastOrder()
    ensures var orders := [Order("1", Str("home"), Str("555"), Str("pending"), Arr([])),
                           Order("2", Str("work"), Str("556"), Str("preparing"), Arr([]))];
      orders[0].id == "1" && AfterDestroy(orders, "1") == [orders[0]] && HasOrder(AfterDestroy(orders, "1"), "1")
  {
    var orders := [Order("1", Str("home"), Str("555"), Str("pending"), Arr([])),
                   Order("2", Str("work"), Str("556"), Str("preparing"), Arr([]))];
    assert orders[0].id == "1";
    assert OrderIndex(orders, "1") == 0;
  }

  /** The evident intent of `destroy`: take out the order that was found. */
  function AfterDestroyIntended(orders: seq<Order>, orderId: string): (r: seq<Order>)
    requires HasOrder(orders, orderId)
    ensures var k := OrderIndex(orders, orderId);
      IsPending(orders[k]) ==> r == orders[..k] + orders[k + 1..] && |r| == |orders| - 1
    ensures !IsPending(orders[OrderIndex(orders, orderId)]) ==> r == orders
  {
    var k := OrderIndex(orders, orderId);
    if IsPending(orders[k]) then SpliceOne(orders, k) else orders
  }

  /** With unique ids, deleting a pending order leaves no order with its id
      and keeps every other order. */
  lemma {:induction false} IntendedDestroyRemovesExactlyThatOrder(orders: seq<Order>, orderId: string)
    requires UniqueIds(orders) && HasOrder(orders, orderId)
    requires IsPending(orders[OrderIndex(orders, orderId)])
    ensures !HasOrder(AfterDestroyIntended(orders, orderId), orderId)
    ensures forall o :: o in orders && o.id != orderId ==> o in AfterDestroyIntended(orders, orderId)
  {
    var k := OrderIndex(orders, orderId);
    var r := AfterDestroyIntended(orders, orderId);
    forall i | 0 <= i < |r| ensures r[i].id != orderId {
      if i < k { assert r[i] == orders[i]; } else { assert r[i] == orders[i + 1]; }
    }
    forall o | o in orders && o.id != orderId ensures o in r {
      var j :| 0 <= j < |orders| && orders[j] == o;
      if j < k { assert r[j] == o; } else { assert j != k; assert r[j - 1] == o; }
    }
  }

  // ---------------------------------------------------------------------
  // The shared collection and its handlers

  class OrderStore {
    var orders: seq<Order>

    constructor (initial: seq<Order>)
      ensures orders == initial
    {
      orders := initial;
    }

    /** `list`: the whole collection, unfiltered. */
    method List() returns (reply: Reply<Order>)
      ensures reply.Many? && reply.status == 200 && reply.items == orders
    {
      reply := Many(200, orders);
    }

    /** The read route, `[orderExists, read]`. */
    method ReadRoute(req: Request) returns (reply: Reply<Order>)
      ensures reply.One? <==> HasOrder(orders, req.routeId)
      ensures reply.One? ==> reply.status == 200 && reply.item == orders[OrderIndex(orders, req.routeId)]
      ensures !reply.One? ==> reply == Failed(NextError(404, "Order id not found: " + req.routeId))
    {
      var chain := RunChain(ReadChain, req, orders, NoLocals);
      ReadChainPasses(req, orders);
      if chain.Stopped? {
        reply := Failed(chain.signal);
        return;
      }
      var k := OrderIndex(orders, req.routeId);
      reply := One(200, orders[k]);
    }

    /** `create`: pushes one new order; `newId` is what `nextId()` returns,
      assumed unused. An unreadable body throws before anything is pushed. */
    method Create(req: Request, newId: string) returns (reply: Reply<Order>)
      requires !HasOrder(orders, newId)
      modifies this
      ensures !Readable(req.body) ==> orders == old(orders) && reply == Failed(Threw)
      ensures Readable(req.body) ==>
        orders == old(orders) + [NewOrder(newId, req.body)] && reply == One(201, NewOrder(newId, req.body))
      ensures old(UniqueIds(orders)) ==> UniqueIds(orders)
    {
      if !Readable(req.body) {
        reply := Failed(Threw);
        return;
      }
      var order := NewOrder(newId, req.body);
      orders := orders + [order];
      reply := One(201, order);
    }

    /** `update`: overwrites four fields of the order with the route id. An
      unreadable body throws at the destructuring, and a missing order at the
      first assignment; either way nothing changes. */
    method Update(req: Request) returns (reply: Reply<Order>)
      modifies this
      ensures !(Readable(req.body) && HasOrder(old(orders), req.routeId)) ==>
        orders == old(orders) && reply == Failed(Threw)
      ensures Readable(req.body) && HasOrder(old(orders), req.routeId) ==>
        orders == UpdatedOrders(old(orders), req.routeId, req.body) &&
        reply == One(200, orders[OrderIndex(old(orders), req.routeId)])
      ensures old(UniqueIds(orders)) ==> UniqueIds(orders)
    {
      var k := OrderIndex(orders, req.routeId);
      if !Readable(req.body) || k < 0 {
        reply := Failed(Threw);
        return;
      }
      var order := orders[k].(deliverTo := BodyValue(req.body, "deliverTo"),
                              mobileNumber := BodyValue(req.body, "mobileNumber"),
                              status := BodyValue(req.body, "status"),
                              dishes := BodyValue(req.body, "dishes"));
      orders := orders[k := order];
      reply := One(200, order);
    }

    /** `destroy` as written. After `sendStatus(204)` there is no `return`,
      so `next` is called with the 400 as well; that later signal is
      returned in `later`. */
    method Destroy(req: Request) returns (reply: Reply<Order>, later: seq<Signal>)
      modifies this
      ensures !(Readable(req.body) && HasOrder(old(orders), req.routeId)) ==>
        orders == old(orders) && reply == Failed(Threw) && later == []
      ensures Readable(req.body) && HasOrder(old(orders), req.routeId) ==>
        orders == AfterDestroy(old(orders), req.routeId)
      ensures Readable(req.body) && HasOrder(old(orders), req.routeId) &&
              IsPending(old(orders)[OrderIndex(old(orders), req.routeId)]) ==>
        reply == NoContent && later == [NextError(400, NotPendingMessage)] && |orders| == |old(orders)| - 1
      ensures Readable(req.body) && HasOrder(old(orders), req.routeId) &&
              !IsPending(old(orders)[OrderIndex(old(orders), req.routeId)]) ==>
        reply == Failed(NextError(400, NotPendingMessage)) && later == [] && orders == old(orders)
    {
      var k := OrderIndex(orders, req.routeId);
      // an unreadable body throws at the destructuring, a missing order when
      // its status is read
      if !Readable(req.body) || k < 0 {
        reply, later := Failed(Threw), [];
        return;
      }
      var matching := orders[k];
      if matching.status == Str("pending") {
        var index := DestroyIndex(orders, req.routeId);
        orders := SpliceOne(orders, index);
        reply, later := NoContent, [NextError(400, NotPendingMessage)];
      } else {
        reply, later := Failed(NextError(400, NotPendingMessage)), [];
      }
    }

    /** The evident intent of `destroy`: remove the order found and answer
      only once. */
    method DestroyIntended(req: Request) returns (reply: Reply<Order>)
      modifies this
      ensures old(UniqueIds(orders)) ==> UniqueIds(orders)
      ensures !(Readable(req.body) && HasOrder(old(orders), req.routeId)) ==>
        orders == old(orders) && reply == Failed(Threw)
      ensures Readable(req.body) && HasOrder(old(orders), req.routeId) ==>
        orders == AfterDestroyIntended(old(orders), req.routeId) &&
        reply == if IsPending(old(orders)[OrderIndex(old(orders), req.routeId)]) then NoContent
                 else Failed(NextError(400, NotPendingMessage))
    {
      var k := OrderIndex(orders, req.routeId);
      if !Readable(req.body) || k < 0 {
        reply := Failed(Threw);
        return;
      }
      if orders[k].status == Str("pending") {
        orders := SpliceOne(orders, k);
        reply := NoContent;
      } else {
        reply := Failed(NextError(400, NotPendingMessage));
      }
    }

    /** The create route: the create chain, then `create`. */
    method CreateRoute(req: Request, newId: string) returns (reply: Reply<Order>)
      requires !HasOrder(orders, newId)
      modifies this
      ensures CreatableBody(req.body) ==>
        orders == old(orders) + [NewOrder(newId, req.body)] && reply == One(201, NewOrder(newId, req.body))
      ensures !CreatableBody(req.body) ==>
        var chain := RunChain(CreateChain, req, old(orders), NoLocals);
        orders == old(orders) && chain.Stopped? && reply == Failed(chain.signal)
      ensures old(UniqueIds(orders)) ==> UniqueIds(orders)
    {
      var chain := RunChain(CreateChain, req, orders, NoLocals);
      CreateChainAccepts(req, orders);
      if chain.Stopped? {
        reply := Failed(chain.signal);
        return;
      }
      reply := Create(req, newId);
    }

    /** The update route: the update chain, then `update`. */
    method UpdateRoute(req: Request) returns (reply: Reply<Order>)
      modifies this
      ensures HasOrder(old(orders), req.routeId) && UpdatableBody(req.body, req.routeId) ==>
        orders == UpdatedOrders(old(orders), req.routeId, req.body) &&
        reply == One(200, orders[OrderIndex(old(orders), req.routeId)])
      ensures !(HasOrder(old(orders), req.routeId) && UpdatableBody(req.body, req.routeId)) ==>
        var chain := RunChain(UpdateChain, req, old(orders), NoLocals);
        orders == old(orders) && chain.Stopped? && reply == Failed(chain.signal)
      ensures !HasOrder(old(orders), req.routeId) ==>
        reply == Failed(NextError(404, "Order id not found: " + req.routeId))
      ensures old(UniqueIds(orders)) ==> UniqueIds(orders)
    {
      var chain := RunChain(UpdateChain, req, orders, NoLocals);
      UpdateChainAccepts(req, orders);
      if chain.Stopped? {
        reply := Failed(chain.signal);
        return;
      }
      reply := Update(req);
    }

    /** The delete route, `[orderExists, destroy]`, with `destroy` as
      intended: the order found is the one removed, and a pending order is
      answered with 204 alone. */
    method DeleteRoute(req: Request) returns (reply: Reply<Order>)
      modifies this
      ensures !HasOrder(old(orders), req.routeId) ==>
        orders == old(orders) && reply == Failed(NextError(404, "Order id not found: " + req.routeId))
      ensures HasOrder(old(orders), req.routeId) && !Readable(req.body) ==>
        orders == old(orders) && reply == Failed(Threw)
      ensures HasOrder(old(orders), req.routeId) && Readable(req.body) ==>
        orders == AfterDestroyIntended(old(orders), req.routeId) &&
        reply == (if IsPending(old(orders)[OrderIndex(old(orders), req.routeId)]) then NoContent
                  else Failed(NextError(400, NotPendingMessage)))
      ensures old(UniqueIds(orders)) ==> UniqueIds(orders)
    {
      var chain := RunChain(DeleteChain, req, orders, NoLocals);
      ReadChainPasses(req, orders);
      if chain.Stopped? {
        reply := Failed(chain.signal);
        return;
      }
      reply := DestroyIntended(req);
    }
  }
}
