/** The request context the budget router threads through its middleware,
    and the two middleware functions whose source is not part of this model
    (`authenticate` in middleware/auth and `handleInputErrors` in
    middleware/validations), reduced to the outcomes the routers rely on. */
module RequestContext {
  import opened Common
  import opened Models
  import opened Http

  /** What the middleware has attached to `req` so far: the authenticated
      user's id (`req.user.id`), the body, the resolved budget and expense,
      and the validation errors recorded by `run(req)`. */
  datatype Context = Context(
    user: int,
    body: RequestBody,
    budget: Option<Budget>,
    expense: Option<Expense>,
    errors: seq<FieldError>)

  /** A middleware either calls `next()` with the (possibly extended)
      context or answers the request itself. */
  datatype Step = Next(ctx: Context) | Halt(response: Response) {
    predicate IsFailure() {
      Halt?
    }

    function PropagateFailure(): Step
      requires Halt?
    {
      this
    }

    function Extract(): Context
      requires Next?
    {
      ctx
    }
  }

  const NotAuthorized := Response(401, ErrorObject("Not authorized"))

  /** `authenticate`: without a verified caller the request ends with 401;
      otherwise a fresh context for that caller. */
  function Authenticate(caller: Option<int>, body: RequestBody): (r: Step)
    ensures r.Halt? <==> caller.None?
    ensures r.Halt? ==> r.response == NotAuthorized
    ensures r.Next? ==> r.ctx == Context(caller.value, body, None, None, [])
  {
    match caller
    case None => Halt(NotAuthorized)
    case Some(id) => Next(Context(id, body, None, None, []))
  }

  /** What `handleInputErrors` answers for the errors recorded on a
      request: 400 with all of them, or nothing when there are none. */
  function InputErrorsResponse(errors: seq<FieldError>): (r: Option<Response>)
    ensures r.None? <==> errors == []
    ensures r.Some? ==> r.value == Response(400, ErrorList(errors))
  {
    if errors != [] then Some(Response(400, ErrorList(errors))) else None
  }

  /** `handleInputErrors` in the budget router's chain. */
  function HandleInputErrors(ctx: Context): (r: Step)
    ensures r.Next? <==> ctx.errors == []
    ensures r.Next? ==> r.ctx == ctx
    ensures r.Halt? ==> r.response == Response(400, ErrorList(ctx.errors))
  {
    match InputErrorsResponse(ctx.errors)
    case Some(resp) => Halt(resp)
    case None => Next(ctx)
  }
}
