/** middleware/budget.ts: the checks that resolve `:budgetId` and guard the
    budget body. Each takes the request context and either calls `next()`
    with it (extended where the source assigns `req.budget`) or answers. */
module BudgetMiddleware {
  import opened Common
  import opened Models
  import opened Http
  import opened Validation
  import opened RequestContext
  import opened Store

  const InvalidBudgetId := FieldError(InParams, "budgetId", "Invalid ID")
  const BudgetNotFound := Response(404, ErrorObject("Budget not found"))
  const ServerError := Response(500, ErrorObject("Server Error"))
  const AccessDenied := Response(401, ErrorObject("Access denied"))

  /** `param("budgetId").isInt().bail().custom(v => v > 0).bail()`: both
      checks share one message and `bail` stops after the first failure, so
      a bad id yields exactly one "Invalid ID". */
  function BudgetIdErrors(p: PathId): (r: seq<FieldError>)
    ensures r == [] <==> p.IntLiteral? && p.value > 0
    ensures r != [] ==> r == [InvalidBudgetId]
  {
    if !p.IntLiteral? then [InvalidBudgetId]
    else if p.value <= 0 then [InvalidBudgetId]
    else []
  }

  /** `validateBudgetId`: records the id errors, then answers 400 with every
      error recorded on the request if there is any; otherwise `next()`. */
  function ValidateBudgetId(ctx: Context, p: PathId): (r: Step)
    ensures r.Next? <==> ctx.errors == [] && p.IntLiteral? && p.value > 0
    ensures r.Next? ==> r.ctx == ctx
    ensures r.Halt? ==> r.response == Response(400, ErrorList(ctx.errors + BudgetIdErrors(p)))
  {
    var errors := ctx.errors + BudgetIdErrors(p);
    if errors != [] then Halt(Response(400, ErrorList(errors)))
    else Next(ctx.(errors := errors))
  }

  /** `validateBudgetExists`: a failing lookup answers 500, a missing budget
      404; otherwise `req.budget` becomes the stored row and `next()`. */
  function ValidateBudgetExists(ctx: Context, p: PathId, budgets: seq<Budget>, failing: bool): (r: Step)
    ensures failing ==> r == Halt(ServerError)
    ensures !failing && FindBudget(budgets, p).None? ==> r == Halt(BudgetNotFound)
    ensures r.Next? <==> !failing && FindBudget(budgets, p).Some?
    ensures r.Next? ==> r.ctx == ctx.(budget := r.ctx.budget)
    ensures r.Next? ==> r.ctx.budget.Some? && r.ctx.budget.value in budgets
                        && p.IntLiteral? && r.ctx.budget.value.id == p.value
  {
    if failing then Halt(ServerError)
    else match FindBudget(budgets, p)
      case None => Halt(BudgetNotFound)
      case Some(b) => Next(ctx.(budget := Some(b)))
  }

  /** The errors `validateBudgetInput` records. There is no `bail`, so each
      failing check adds its own message. */
  function BudgetInputErrors(body: RequestBody): (r: seq<FieldError>)
    ensures |r| == (if NotEmpty(body.name) then 0 else 1)
                 + (if NotEmpty(body.amount) then 0 else 1)
                 + (if IsNumeric(Submitted(body.amount)) then 0 else 1)
                 + (if ExceedsZero(body.amount, body.amountAboveZero) then 0 else 1)
    ensures forall e :: e in r ==> e.location == InBody && (e.path == "name" || e.path == "amount")
  {
    Rule(NotEmpty(body.name), InBody, "name", "Budget name is required")
    + Rule(NotEmpty(body.amount), InBody, "amount", "Amount is required ")
    + Rule(IsNumeric(Submitted(body.amount)), InBody, "amount", "Amount must be a number")
    + Rule(ExceedsZero(body.amount, body.amountAboveZero), InBody, "amount", "Amount must be greater than zero")
  }

  /** A body with neither field draws all four messages. */
  lemma EmptyBudgetBodyHasFourErrors(body: RequestBody)
    requires body.name.None? && body.amount.None?
    ensures |BudgetInputErrors(body)| == 4
  {
    assert !IsNumeric(Submitted(body.amount));
  }

  /** `validateBudgetInput`: records the body errors, then 400 with every
      recorded error if there is any; otherwise `next()`. */
  function ValidateBudgetInput(ctx: Context): (r: Step)
    ensures r.Next? <==> ctx.errors == [] && BudgetInputErrors(ctx.body) == []
    ensures r.Next? ==> r.ctx == ctx
    ensures r.Halt? ==> r.response == Response(400, ErrorList(ctx.errors + BudgetInputErrors(ctx.body)))
  {
    var errors := ctx.errors + BudgetInputErrors(ctx.body);
    if errors != [] then Halt(Response(400, ErrorList(errors)))
    else Next(ctx.(errors := errors))
  }

  /** Whatever passes `validateBudgetInput` carries a non-empty name and a
      positive numeric amount. */
  lemma AcceptedBudgetBody(body: RequestBody)
    requires BudgetInputErrors(body) == []
    ensures body.name.Some? && body.name.value != "" && body.amount.Some?
    ensures IsNumeric(body.amount.value) && DecimalAboveZero(body.amount.value)
  {
  }

  /** Amount text that is not decimal but that JavaScript reads as a
      positive number ("1e3") fails `isNumeric` only: the `> 0` check after
      it passes, so the body draws that one error. */
  lemma NonDecimalPositiveAmount(body: RequestBody)
    requires NotEmpty(body.name) && body.amount.Some? && body.amount.value != ""
    requires !IsNumeric(body.amount.value) && body.amountAboveZero
    ensures BudgetInputErrors(body) == [FieldError(InBody, "amount", "Amount must be a number")]
  {
  }

  /** `hasAccess`: `next()` exactly when the resolved budget is the
      caller's, otherwise 401 "Access denied". */
  function HasAccess(ctx: Context): (r: Step)
    requires ctx.budget.Some?
    ensures r.Next? <==> ctx.budget.value.userId == ctx.user
    ensures r.Next? ==> r.ctx == ctx
    ensures r.Halt? ==> r.response == AccessDenied
  {
    if ctx.budget.value.userId != ctx.user then Halt(AccessDenied) else Next(ctx)
  }
}
