/** The shape both controllers share: a request, the calls a middleware makes
    to `next`, the body destructuring every validator starts with, the
    presence check, and the exported arrays of middleware run in order. */
module Middleware {
  import opened Js

  /** What the controllers read from a request: the parsed body and the
      route parameter (`:orderId` or `:dishId`; unused on the collection
      routes). */
  datatype Request = Request(body: Json, routeId: string)

  /** One way a middleware hands control on: `next()`,
      `next({ status, message })`, or a TypeError thrown out of it. */
  datatype Signal = Next | NextError(status: nat, message: string) | Threw

  /** Running one middleware: the `res.locals` it leaves, the first signal
      it gives (which decides how the request goes on), and every signal it
      gives after that one. */
  datatype Invocation<L> = Invocation(locals: L, first: Signal, later: seq<Signal>)

  /** A validator, reading the request and the shared collection and
      updating the per-request locals. */
  type Step<!R, !L> = (Request, seq<R>, L) -> Invocation<L>

  /** Where a chain of validators leaves a request: at the terminal handler
      with the locals built up, or stopped by a signal other than `next()`. */
  datatype ChainResult<L> = Reached(locals: L) | Stopped(signal: Signal)

  /** The terminal handlers' answers: `res.json({ data })` with a status,
      `res.sendStatus(204)`, or the signal handed to the error handler. */
  datatype Reply<E> =
    | One(status: nat, item: E)
    | Many(status: nat, items: seq<E>)
    | NoContent
    | Failed(signal: Signal)

  /** Runs the validators in order; each one's first signal decides whether
      the next one runs. */
  function RunChain<R, L>(steps: seq<Step<R, L>>, req: Request, store: seq<R>, locals: L): (r: ChainResult<L>)
    ensures r.Stopped? ==> r.signal != Next
    decreases |steps|
  {
    if steps == [] then Reached(locals)
    else
      var inv := steps[0](req, store, locals);
      if inv.first == Next then RunChain(steps[1..], req, store, inv.locals)
      else Stopped(inv.first)
  }

  /** One step of the chain, from step `k` on. */
  lemma RunChainFrom<R, L>(steps: seq<Step<R, L>>, k: nat, req: Request, store: seq<R>, locals: L)
    requires k < |steps|
    ensures RunChain(steps[k..], req, store, locals) ==
      var inv := steps[k](req, store, locals);
      if inv.first == Next then RunChain(steps[k + 1..], req, store, inv.locals) else Stopped(inv.first)
  {
    assert steps[k..][1..] == steps[k + 1..];
  }

  /** Running two arrays of validators one after the other: the second runs
      from the locals the first leaves, and only when the first reached its
      end; a stop in the first is the stop of the whole. */
  lemma {:induction false} RunChainAppend<R, L>(s1: seq<Step<R, L>>, s2: seq<Step<R, L>>, req: Request, store: seq<R>, locals: L)
    ensures RunChain(s1 + s2, req, store, locals) ==
      match RunChain(s1, req, store, locals)
      case Reached(l) => RunChain(s2, req, store, l)
      case Stopped(x) => Stopped(x)
    decreases |s1|
  {
    if s1 == [] {
      assert s1 + s2 == s2;
    } else {
      assert (s1 + s2)[0] == s1[0];
      assert (s1 + s2)[1..] == s1[1..] + s2;
      var inv := s1[0](req, store, locals);
      if inv.first == Next {
        RunChainAppend(s1[1..], s2, req, store, inv.locals);
      }
    }
  }

  /** `const { data: { <field> } = {} } = req.body`: None when the
      destructuring throws, that is when the body is null or undefined or its
      `data` is null (a missing `data` defaults to `{}`). */
  function BodyField(body: Json, field: string): (r: Option<Json>)
    ensures r.None? <==> body.Undefined? || body.Null? || Prop(body, "data").Null?
    ensures Prop(body, "data").Undefined? && r.Some? ==> r.value == Undefined
    ensures Prop(body, "data").Obj? ==> r == Some(Prop(Prop(body, "data"), field))
  {
    if body.Undefined? || body.Null? then None
    else
      var data := Prop(body, "data");
      if data.Null? then None
      else if data.Undefined? then Some(Undefined)
      else Some(Prop(data, field))
  }

  /** The body can be destructured: no validator's first line throws. */
  predicate Readable(body: Json)
  {
    BodyField(body, "data").Some?
  }

  /** The value `data.<field>` destructures to, or undefined when the
      destructuring throws. */
  function BodyValue(body: Json, field: string): (v: Json)
    ensures !Readable(body) ==> v == Undefined
    ensures Readable(body) ==> BodyField(body, field) == Some(v)
  {
    match BodyField(body, field)
    case Some(v) => v
    case None => Undefined
  }

  /** The body's `data.<field>` is present and truthy (which implies that the
      body can be read). */
  predicate TruthyField(body: Json, field: string)
    ensures TruthyField(body, field) ==> Readable(body)
  {
    Truthy(BodyValue(body, field))
  }

  /** A body id the id-match validators let through: absent, null, empty,
      or the route parameter itself. */
  predicate IdAccepted(id: Json, routeId: string)
  {
    id in {Undefined, Null, Str(""), Str(routeId)}
  }

  function RequiredMessage(article: string, field: string): string
  {
    article + " '" + field + "' property is required."
  }

  /** What every `bodyHas<Field>` middleware must answer: `next()` exactly
      when the field is truthy, a throw exactly when the body cannot be
      destructured, and otherwise 400 with `message`. */
  predicate PresenceOutcome(body: Json, field: string, message: string, s: Signal)
  {
    && (s == Next <==> TruthyField(body, field))
    && (s == Threw <==> !Readable(body))
    && (s.NextError? ==> s == NextError(400, message))
  }

  /** The decision of every `bodyHas<Field>` middleware. */
  function CheckPresence(body: Json, field: string, article: string): (s: Signal)
    ensures PresenceOutcome(body, field, RequiredMessage(article, field), s)
  {
    match BodyField(body, field)
    case None => Threw
    case Some(v) => if Truthy(v) then Next else NextError(400, RequiredMessage(article, field))
  }
}
