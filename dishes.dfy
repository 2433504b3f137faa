/** The dish controller: the validators over `req.body.data`, the arrays of
    middleware it exports, and the handlers that change the shared `dishes`
    array. */
module Dishes {
  import opened Js
  import opened Middleware

  /** A dish as the `dishes` array holds it. */
  datatype Dish = Dish(id: string, name: Json, description: Json, price: Json, imageUrl: Json)

  /** `res.locals` on the dish routes. */
  datatype Locals = Locals(name: Json, description: Json, price: Json, imageUrl: Json, matchingDish: Option<Dish>)

  const NoLocals := Locals(Undefined, Undefined, Undefined, Undefined, None)

  const NegativePriceMessage := "price cannot be less than 0."
  const UpdatePriceMessage := "price must be an integer greater than $0."

  predicate HasDish(dishes: seq<Dish>, id: string)
  {
    exists i :: 0 <= i < |dishes| && dishes[i].id == id
  }

  predicate UniqueIds(dishes: seq<Dish>)
  {
    forall i, j :: 0 <= i < j < |dishes| ==> dishes[i].id != dishes[j].id
  }

  /** `dishes.find((dish) => dish.id === dishId)`, as an index. */
  function DishIndex(dishes: seq<Dish>, id: string): (k: int)
    ensures -1 <= k < |dishes|
    ensures k == -1 <==> !HasDish(dishes, id)
    ensures k >= 0 ==> dishes[k].id == id && forall j :: 0 <= j < k ==> dishes[j].id != id
  {
    FindIndex(dishes, (d: Dish) => d.id == id)
  }

  // ---------------------------------------------------------------------
  // Presence validators

  function BodyHasName(req: Request, dishes: seq<Dish>, locals: Locals): (r: Invocation<Locals>)
    ensures PresenceOutcome(req.body, "name", RequiredMessage("A", "name"), r.first)
    ensures r.locals == if r.first == Next then locals.(name := BodyValue(req.body, "name")) else locals
    ensures r.later == []
  {
    var s := CheckPresence(req.body, "name", "A");
    Invocation(if s == Next then locals.(name := BodyValue(req.body, "name")) else locals, s, [])
  }

  function BodyHasDescription(req: Request, dishes: seq<Dish>, locals: Locals): (r: Invocation<Locals>)
    ensures PresenceOutcome(req.body, "description", RequiredMessage("A", "description"), r.first)
    ensures r.locals == if r.first == Next then locals.(description := BodyValue(req.body, "description")) else locals
    ensures r.later == []
  {
    var s := CheckPresence(req.body, "description", "A");
    Invocation(if s == Next then locals.(description := BodyValue(req.body, "description")) else locals, s, [])
  }

  function BodyHasPrice(req: Request, dishes: seq<Dish>, locals: Locals): (r: Invocation<Locals>)
    ensures PresenceOutcome(req.body, "price", RequiredMessage("A", "price"), r.first)
    ensures r.locals == if r.first == Next then locals.(price := BodyValue(req.body, "price")) else locals
    ensures r.later == []
  {
    var s := CheckPresence(req.body, "price", "A");
    Invocation(if s == Next then locals.(price := BodyValue(req.body, "price")) else locals, s, [])
  }

  /** `bodyHasImg`, the one message with the article "An". */
  function BodyHasImg(req: Request, dishes: seq<Dish>, locals: Locals): (r: Invocation<Locals>)
    ensures PresenceOutcome(req.body, "image_url", RequiredMessage("An", "image_url"), r.first)
    ensures r.locals == if r.first == Next then locals.(imageUrl := BodyValue(req.body, "image_url")) else locals
    ensures r.later == []
  {
    var s := CheckPresence(req.body, "image_url", "An");
    Invocation(if s == Next then locals.(imageUrl := BodyValue(req.body, "image_url")) else locals, s, [])
  }

  // ---------------------------------------------------------------------
  // The two price rules

  /** `bodyHasValidPrice`, the create rule `price > -1` on the body's price,
      with JavaScript's conversion to number: a numeric string such as "5"
      passes, and so does 0, a missing price does not. */
  function BodyHasValidPrice(req: Request, dishes: seq<Dish>, locals: Locals): (r: Invocation<Locals>)
    ensures !Readable(req.body) ==> r.first == Threw
    ensures Readable(req.body) ==> (r.first == Next <==> GreaterThan(BodyValue(req.body, "price"), -1))
    ensures r.first.NextError? ==> r.first == NextError(400, NegativePriceMessage)
    ensures var price := BodyValue(req.body, "price");
      price.Num? ==> (r.first == Next <==> Readable(req.body) && price.n >= 0)
    ensures r.locals == if r.first == Next then locals.(price := BodyValue(req.body, "price")) else locals
    ensures r.later == []
  {
    if !Readable(req.body) then Invocation(locals, Threw, [])
    else
      var price := BodyValue(req.body, "price");
      if GreaterThan(price, -1) then Invocation(locals.(price := price), Next, [])
      else Invocation(locals, NextError(400, NegativePriceMessage), [])
  }

  /** `bodyHasValidPriceForUpdate`, the update rule on the price recorded in
      the locals: a number, and greater than 0. The body is destructured
      first, so an unreadable body throws. */
  function BodyHasValidPriceForUpdate(req: Request, dishes: seq<Dish>, locals: Locals): (r: Invocation<Locals>)
    ensures !Readable(req.body) ==> r.first == Threw
    ensures Readable(req.body) ==> (r.first == Next <==> locals.price.Num? && locals.price.n > 0)
    ensures r.first.NextError? ==> r.first == NextError(400, UpdatePriceMessage)
    ensures r.locals == locals
    ensures r.later == []
  {
    if !Readable(req.body) then Invocation(locals, Threw, [])
    else if AtMost(locals.price, 0) || !locals.price.Num? then Invocation(locals, NextError(400, UpdatePriceMessage), [])
    else Invocation(locals, Next, [])
  }

  // ---------------------------------------------------------------------
  // Identity and existence

  /** `dishExists`: attaches the first dish with the route id, or 404. */
  function DishExists(req: Request, dishes: seq<Dish>, locals: Locals): (r: Invocation<Locals>)
    ensures r.first == Next <==> HasDish(dishes, req.routeId)
    ensures r.first == Next ==>
      exists k :: 0 <= k < |dishes| && dishes[k].id == req.routeId &&
        (forall j :: 0 <= j < k ==> dishes[j].id != req.routeId) &&
        r.locals == locals.(matchingDish := Some(dishes[k]))
    ensures r.first != Next ==>
      r.first == NextError(404, "Dish id not found: " + req.routeId) && r.locals == locals
    ensures r.later == []
  {
    var k := DishIndex(dishes, req.routeId);
    if k >= 0 then Invocation(locals.(matchingDish := Some(dishes[k])), Next, [])
    else Invocation(locals, NextError(404, "Dish id not found: " + req.routeId), [])
  }

  /** `dishIdMatchesDataId`. After `next(error)` there is no `return`, so
      `next()` follows. */
  function DishIdMatchesDataId(req: Request, dishes: seq<Dish>, locals: Locals): (r: Invocation<Locals>)
    ensures r.locals == locals
    ensures !Readable(req.body) ==> r.first == Threw && r.later == []
    ensures Readable(req.body) ==> (r.first == Next <==> IdAccepted(BodyValue(req.body, "id"), req.routeId))
    ensures r.first.NextError? ==>
      r.first == NextError(400, "id " + ToJsString(BodyValue(req.body, "id")) + " must match dataId provided in parameters")
      && r.later == [Next]
    ensures r.first == Next ==> r.later == []
  {
    if !Readable(req.body) then Invocation(locals, Threw, [])
    else
      var id := BodyValue(req.body, "id");
      if id != Str("") && id != Str(req.routeId) && id != Null && id != Undefined then
        Invocation(locals, NextError(400, "id " + ToJsString(id) + " must match dataId provided in parameters"), [Next])
      else Invocation(locals, Next, [])
  }

  // ---------------------------------------------------------------------
  // The exported chains (their validators; the handler comes last)

  const CreateChain: seq<Step<Dish, Locals>> :=
    [BodyHasName, BodyHasDescription, BodyHasPrice, BodyHasValidPrice, BodyHasImg]

  const UpdateChain: seq<Step<Dish, Locals>> :=
    [DishExists, DishIdMatchesDataId, BodyHasName, BodyHasDescription, BodyHasPrice, BodyHasImg,
     BodyHasValidPriceForUpdate]

  const ReadChain: seq<Step<Dish, Locals>> := [DishExists]

  /** What the create chain demands of a body: four truthy fields and a
      price above -1. */
  predicate CreatableBody(body: Json)
  {
    && TruthyField(body, "name") && TruthyField(body, "description")
    && TruthyField(body, "price") && GreaterThan(BodyValue(body, "price"), -1)
    && TruthyField(body, "image_url")
  }

  /** What the update chain demands of a body, once the dish exists: an
      accepted id, four truthy fields and a positive number as price. */
  predicate UpdatableBody(body: Json, routeId: string)
  {
    && IdAccepted(BodyValue(body, "id"), routeId)
    && TruthyField(body, "name") && TruthyField(body, "description") && TruthyField(body, "image_url")
    && BodyValue(body, "price").Num? && BodyValue(body, "price").n > 0
  }

  /** The locals a request that passes the create or update chain has
      recorded. */
  function RecordedLocals(body: Json): Locals
  {
    NoLocals.(name := BodyValue(body, "name"), description := BodyValue(body, "description"),
              price := BodyValue(body, "price"), imageUrl := BodyValue(body, "image_url"))
  }

  lemma {:induction false} CreateChainAccepts(req: Request, dishes: seq<Dish>)
    ensures RunChain(CreateChain, req, dishes, NoLocals).Reached? <==> CreatableBody(req.body)
    ensures RunChain(CreateChain, req, dishes, NoLocals).Reached? ==>
      RunChain(CreateChain, req, dishes, NoLocals).locals == RecordedLocals(req.body)
  {
    var c := CreateChain;
    var i0 := BodyHasName(req, dishes, NoLocals);
    var i1 := BodyHasDescription(req, dishes, i0.locals);
    var i2 := BodyHasPrice(req, dishes, i1.locals);
    var i3 := BodyHasValidPrice(req, dishes, i2.locals);
    assert c[0..] == c;
    RunChainFrom(c, 0, req, dishes, NoLocals);
    RunChainFrom(c, 1, req, dishes, i0.locals);
    RunChainFrom(c, 2, req, dishes, i1.locals);
    RunChainFrom(c, 3, req, dishes, i2.locals);
    RunChainFrom(c, 4, req, dishes, i3.locals);
    assert c[5..] == [];
  }

  lemma {:induction false} UpdateChainAccepts(req: Request, dishes: seq<Dish>)
    ensures RunChain(UpdateChain, req, dishes, NoLocals).Reached? <==>
      HasDish(dishes, req.routeId) && UpdatableBody(req.body, req.routeId)
    ensures !HasDish(dishes, req.routeId) ==>
      RunChain(UpdateChain, req, dishes, NoLocals) == Stopped(NextError(404, "Dish id not found: " + req.routeId))
  {
    var c := UpdateChain;
    var i0 := DishExists(req, dishes, NoLocals);
    var i1 := DishIdMatchesDataId(req, dishes, i0.locals);
    var i2 := BodyHasName(req, dishes, i1.locals);
    var i3 := BodyHasDescription(req, dishes, i2.locals);
    var i4 := BodyHasPrice(req, dishes, i3.locals);
    var i5 := BodyHasImg(req, dishes, i4.locals);
    assert c[0..] == c;
    RunChainFrom(c, 0, req, dishes, NoLocals);
    RunChainFrom(c, 1, req, dishes, i0.locals);
    RunChainFrom(c, 2, req, dishes, i1.locals);
    RunChainFrom(c, 3, req, dishes, i2.locals);
    RunChainFrom(c, 4, req, dishes, i3.locals);
    RunChainFrom(c, 5, req, dishes, i4.locals);
    RunChainFrom(c, 6, req, dishes, i5.locals);
    assert c[7..] == [];
  }

  lemma {:induction false} ReadChainPasses(req: Request, dishes: seq<Dish>)
    ensures RunChain(ReadChain, req, dishes, NoLocals).Reached? <==> HasDish(dishes, req.routeId)
    ensures HasDish(dishes, req.routeId) ==>
      RunChain(ReadChain, req, dishes, NoLocals).locals.matchingDish == Some(dishes[DishIndex(dishes, req.routeId)])
    ensures !HasDish(dishes, req.routeId) ==>
      RunChain(ReadChain, req, dishes, NoLocals) == Stopped(NextError(404, "Dish id not found: " + req.routeId))
  {
    var c := ReadChain;
    assert c[0..] == c;
    RunChainFrom(c, 0, req, dishes, NoLocals);
    assert c[1..] == [];
  }

  // ---------------------------------------------------------------------
  // How the price rules play out along the chains

  /** A body whose name and description are present. */
  predicate NamedBody(body: Json)
  {
    TruthyField(body, "name") && TruthyField(body, "description")
  }

  /** Price 0 is falsy, so both chains stop at `bodyHasPrice` with the
      "required" message, before any price rule runs. */
  lemma {:induction false} ZeroPriceIsMissing(req: Request, dishes: seq<Dish>)
    requires NamedBody(req.body) && BodyValue(req.body, "price") == Num(0)
    ensures RunChain(CreateChain, req, dishes, NoLocals) == Stopped(NextError(400, RequiredMessage("A", "price")))
    ensures HasDish(dishes, req.routeId) && IdAccepted(BodyValue(req.body, "id"), req.routeId) ==>
      RunChain(UpdateChain, req, dishes, NoLocals) == Stopped(NextError(400, RequiredMessage("A", "price")))
  {
    var c := CreateChain;
    var i0 := BodyHasName(req, dishes, NoLocals);
    var i1 := BodyHasDescription(req, dishes, i0.locals);
    assert c[0..] == c;
    RunChainFrom(c, 0, req, dishes, NoLocals);
    RunChainFrom(c, 1, req, dishes, i0.locals);
    RunChainFrom(c, 2, req, dishes, i1.locals);
    var u := UpdateChain;
    var j0 := DishExists(req, dishes, NoLocals);
    var j1 := DishIdMatchesDataId(req, dishes, j0.locals);
    var j2 := BodyHasName(req, dishes, j1.locals);
    var j3 := BodyHasDescription(req, dishes, j2.locals);
    assert u[0..] == u;
    RunChainFrom(u, 0, req, dishes, NoLocals);
    RunChainFrom(u, 1, req, dishes, j0.locals);
    RunChainFrom(u, 2, req, dishes, j1.locals);
    RunChainFrom(u, 3, req, dishes, j2.locals);
    RunChainFrom(u, 4, req, dishes, j3.locals);
  }

  /** A negative price fails both rules, each with its own message: create
      stops at `bodyHasValidPrice`, update (with the other fields in order)
      at `bodyHasValidPriceForUpdate`. */
  lemma {:induction false} NegativePriceMessages(req: Request, dishes: seq<Dish>)
    requires NamedBody(req.body) && BodyValue(req.body, "price").Num? && BodyValue(req.body, "price").n < 0
    ensures RunChain(CreateChain, req, dishes, NoLocals) == Stopped(NextError(400, NegativePriceMessage))
    ensures HasDish(dishes, req.routeId) && IdAccepted(BodyValue(req.body, "id"), req.routeId) &&
            TruthyField(req.body, "image_url") ==>
      RunChain(UpdateChain, req, dishes, NoLocals) == Stopped(NextError(400, UpdatePriceMessage))
  {
    var c := CreateChain;
    var i0 := BodyHasName(req, dishes, NoLocals);
    var i1 := BodyHasDescription(req, dishes, i0.locals);
    var i2 := BodyHasPrice(req, dishes, i1.locals);
    assert c[0..] == c;
    RunChainFrom(c, 0, req, dishes, NoLocals);
    RunChainFrom(c, 1, req, dishes, i0.locals);
    RunChainFrom(c, 2, req, dishes, i1.locals);
    RunChainFrom(c, 3, req, dishes, i2.locals);
    var u := UpdateChain;
    var j0 := DishExists(req, dishes, NoLocals);
    var j1 := DishIdMatchesDataId(req, dishes, j0.locals);
    var j2 := BodyHasName(req, dishes, j1.locals);
    var j3 := BodyHasDescription(req, dishes, j2.locals);
    var j4 := BodyHasPrice(req, dishes, j3.locals);
    var j5 := BodyHasImg(req, dishes, j4.locals);
    assert u[0..] == u;
    RunChainFrom(u, 0, req, dishes, NoLocals);
    RunChainFrom(u, 1, req, dishes, j0.locals);
    RunChainFrom(u, 2, req, dishes, j1.locals);
    RunChainFrom(u, 3, req, dishes, j2.locals);
    RunChainFrom(u, 4, req, dishes, j3.locals);
    RunChainFrom(u, 5, req, dishes, j4.locals);
    RunChainFrom(u, 6, req, dishes, j5.locals);
  }

  /** The two rules disagree on a numeric string: price "5" is above -1 once
      converted, so create accepts it, but it is not a number, so update
      rejects it. */
  lemma NumericStringPrice()
    ensures GreaterThan(Str("5"), -1)
    ensures forall req: Request, dishes: seq<Dish>, locals: Locals
      | Readable(req.body) && locals.price == Str("5") ::
        BodyHasValidPriceForUpdate(req, dishes, locals).first == NextError(400, UpdatePriceMessage)
  {
    assert AllDigits("5");
    assert "5"[..0] == "";
  }

  // ---------------------------------------------------------------------
  // What the handlers do to the collection

  /** The dish `create` builds: the id `nextId()` gave and the body's four
      fields. */
  function NewDish(id: string, body: Json): Dish
  {
    Dish(id, BodyValue(body, "name"), BodyValue(body, "description"), BodyValue(body, "price"),
         BodyValue(body, "image_url"))
  }

  /** `update`: the first dish with the route id takes the body's `name`,
      `description`, `price` and `image_url`; its id and every other dish
      stay as they were. */
  function UpdatedDishes(dishes: seq<Dish>, routeId: string, body: Json): (r: seq<Dish>)
    requires HasDish(dishes, routeId)
    ensures |r| == |dishes|
    ensures forall i :: 0 <= i < |dishes| ==> r[i].id == dishes[i].id
    ensures forall i :: 0 <= i < |dishes| && i != DishIndex(dishes, routeId) ==> r[i] == dishes[i]
    ensures r[DishIndex(dishes, routeId)] == NewDish(routeId, body)
  {
    var k := DishIndex(dishes, routeId);
    dishes[k := dishes[k].(description := BodyValue(body, "description"), name := BodyValue(body, "name"),
                           price := BodyValue(body, "price"), imageUrl := BodyValue(body, "image_url"))]
  }

  /** Reading back a created dish: with a fresh id, the lookup by that id
      finds the new dish at the end, and every earlier id still finds its
      old dish. */
  lemma ReadAfterCreate(dishes: seq<Dish>, newId: string, body: Json, id: string)
    requires !HasDish(dishes, newId)
    ensures DishIndex(dishes + [NewDish(newId, body)], newId) == |dishes|
    ensures HasDish(dishes, id) ==> DishIndex(dishes + [NewDish(newId, body)], id) == DishIndex(dishes, id)
  {
    var r := dishes + [NewDish(newId, body)];
    assert r[|dishes|].id == newId;
    if HasDish(dishes, id) {
      var k := DishIndex(dishes, id);
      assert r[k] == dishes[k];
    }
  }

  /** Reading back an updated dish: the lookup by the route id lands on the
      same place, which now holds the body's fields. */
  lemma ReadAfterUpdate(dishes: seq<Dish>, routeId: string, body: Json)
    requires HasDish(dishes, routeId)
    ensures var r := UpdatedDishes(dishes, routeId, body);
      DishIndex(r, routeId) == DishIndex(dishes, routeId) && r[DishIndex(r, routeId)] == NewDish(routeId, body)
  {
    var r := UpdatedDishes(dishes, routeId, body);
    var k := DishIndex(dishes, routeId);
    assert r[k].id == routeId;
    assert forall j :: 0 <= j < k ==> r[j].id == dishes[j].id;
  }

  // ---------------------------------------------------------------------
  // The shared collection and its handlers

  class DishStore {
    var dishes: seq<Dish>

    constructor (initial: seq<Dish>)
      ensures dishes == initial
    {
      dishes := initial;
    }

    /** `list`: the whole collection. */
    method List() returns (reply: Reply<Dish>)
      ensures reply.Many? && reply.status == 200 && reply.items == dishes
    {
      reply := Many(200, dishes);
    }

    /** The read route, `[dishExists, read]`: `read` answers with the dish
      `dishExists` recorded. */
    method ReadRoute(req: Request) returns (reply: Reply<Dish>)
      ensures reply.One? <==> HasDish(dishes, req.routeId)
      ensures reply.One? ==> reply.status == 200 && reply.item == dishes[DishIndex(dishes, req.routeId)]
      ensures !reply.One? ==> reply == Failed(NextError(404, "Dish id not found: " + req.routeId))
    {
      var chain := RunChain(ReadChain, req, dishes, NoLocals);
      ReadChainPasses(req, dishes);
      if chain.Stopped? {
        reply := Failed(chain.signal);
        return;
      }
      reply := One(200, chain.locals.matchingDish.value);
    }

    /** `create`: pushes one new dish; `newId` is what `nextId()` returns,
      assumed unused. An unreadable body throws before anything is pushed. */
    method Create(req: Request, newId: string) returns (reply: Reply<Dish>)
      requires !HasDish(dishes, newId)
      modifies this
      ensures !Readable(req.body) ==> dishes == old(dishes) && reply == Failed(Threw)
      ensures Readable(req.body) ==>
        dishes == old(dishes) + [NewDish(newId, req.body)] && reply == One(201, NewDish(newId, req.body))
      ensures old(UniqueIds(dishes)) ==> UniqueIds(dishes)
    {
      if !Readable(req.body) {
        reply := Failed(Threw);
        return;
      }
      var dish := NewDish(newId, req.body);
      dishes := dishes + [dish];
      reply := One(201, dish);
    }

    /** `update`: overwrites four fields of the dish with the route id. An
      unreadable body throws at the destructuring, and a missing dish at the
      first assignment; either way nothing changes. */
    method Update(req: Request) returns (reply: Reply<Dish>)
      modifies this
      ensures !(Readable(req.body) && HasDish(old(dishes), req.routeId)) ==>
        dishes == old(dishes) && reply == Failed(Threw)
      ensures Readable(req.body) && HasDish(old(dishes), req.routeId) ==>
        dishes == UpdatedDishes(old(dishes), req.routeId, req.body) && reply == One(200, NewDish(req.routeId, req.body))
      ensures old(UniqueIds(dishes)) ==> UniqueIds(dishes)
    {
      var k := DishIndex(dishes, req.routeId);
      if !Readable(req.body) || k < 0 {
        reply := Failed(Threw);
        return;
      }
      var dish := dishes[k].(description := BodyValue(req.body, "description"),
                             name := BodyValue(req.body, "name"),
                             price := BodyValue(req.body, "price"),
                             imageUrl := BodyValue(req.body, "image_url"));
      dishes := dishes[k := dish];
      reply := One(200, dish);
    }

    /** The create route: the create chain, then `create`. */
    method CreateRoute(req: Request, newId: string) returns (reply: Reply<Dish>)
      requires !HasDish(dishes, newId)
      modifies this
      ensures CreatableBody(req.body) ==>
        dishes == old(dishes) + [NewDish(newId, req.body)] && reply == One(201, NewDish(newId, req.body))
      ensures !CreatableBody(req.body) ==>
        var chain := RunChain(CreateChain, req, old(dishes), NoLocals);
        dishes == old(dishes) && chain.Stopped? && reply == Failed(chain.signal)
      ensures old(UniqueIds(dishes)) ==> UniqueIds(dishes)
    {
      var chain := RunChain(CreateChain, req, dishes, NoLocals);
      CreateChainAccepts(req, dishes);
      if chain.Stopped? {
        reply := Failed(chain.signal);
        return;
      }
      reply := Create(req, newId);
    }

    /** The update route: the update chain, then `update`. */
    method UpdateRoute(req: Request) returns (reply: Reply<Dish>)
      modifies this
      ensures HasDish(old(dishes), req.routeId) && UpdatableBody(req.body, req.routeId) ==>
        dishes == UpdatedDishes(old(dishes), req.routeId, req.body) && reply == One(200, NewDish(req.routeId, req.body))
      ensures !(HasDish(old(dishes), req.routeId) && UpdatableBody(req.body, req.routeId)) ==>
        var chain := RunChain(UpdateChain, req, old(dishes), NoLocals);
        dishes == old(dishes) && chain.Stopped? && reply == Failed(chain.signal)
      ensures !HasDish(old(dishes), req.routeId) ==>
        reply == Failed(NextError(404, "Dish id not found: " + req.routeId))
      ensures old(UniqueIds(dishes)) ==> UniqueIds(dishes)
    {
      var chain := RunChain(UpdateChain, req, dishes, NoLocals);
      UpdateChainAccepts(req, dishes);
      if chain.Stopped? {
        reply := Failed(chain.signal);
        return;
      }
      reply := Update(req);
    }
  }
}
