/** middleware/expense.ts: the checks on `:expenseId` and on the expense
    body. Unlike their budget counterparts, the two validators only record
    errors and always call `next()`; a later `handleInputErrors` reads them. */
module ExpenseMiddleware {
  import opened Common
  import opened Models
  import opened Http
  import opened Validation
  import opened RequestContext
  import opened Store

  const InvalidExpenseId := FieldError(InParams, "expenseId", "Invalid ID")
  const ExpenseNotFound := Response(404, ErrorObject("Expense not found"))
  const ServerError := Response(500, ErrorObject("Server Error"))
  const InvalidAction := Response(403, ErrorObject("Invalid Action"))

  /** The errors `validateExpenseInput` records: the same four checks as the
      budget body, with its own name message, none bailing. */
  function ExpenseInputErrors(body: RequestBody): (r: seq<FieldError>)
    ensures |r| == (if NotEmpty(body.name) then 0 else 1)
                 + (if NotEmpty(body.amount) then 0 else 1)
                 + (if IsNumeric(Submitted(body.amount)) then 0 else 1)
                 + (if ExceedsZero(body.amount, body.amountAboveZero) then 0 else 1)
    ensures r == [] ==> body.name.Some? && body.amount.Some?
  {
    Rule(NotEmpty(body.name), InBody, "name", "Expense name is required")
    + Rule(NotEmpty(body.amount), InBody, "amount", "Amount is required ")
    + Rule(IsNumeric(Submitted(body.amount)), InBody, "amount", "Amount must be a number")
    + Rule(ExceedsZero(body.amount, body.amountAboveZero), InBody, "amount", "Amount must be greater than zero")
  }

  /** As for a budget, amount text that is not decimal but that JavaScript
      reads as positive (" 5") draws the `isNumeric` error alone. */
  lemma NonDecimalPositiveExpenseAmount(body: RequestBody)
    requires NotEmpty(body.name) && body.amount.Some? && body.amount.value != ""
    requires !IsNumeric(body.amount.value) && body.amountAboveZero
    ensures ExpenseInputErrors(body) == [FieldError(InBody, "amount", "Amount must be a number")]
  {
  }

  /** `validateExpenseInput`: always `next()`, with the body errors appended
      to those already recorded. */
  function ValidateExpenseInput(ctx: Context): (r: Step)
    ensures r.Next?
    ensures r.ctx == ctx.(errors := ctx.errors + ExpenseInputErrors(ctx.body))
  {
    Next(ctx.(errors := ctx.errors + ExpenseInputErrors(ctx.body)))
  }

  /** `param("expenseId").isInt().custom(v => v > 0)` without `bail`: text
      that is not an integer can fail both checks and so yield two errors. */
  function ExpenseIdErrors(p: PathId): (r: seq<FieldError>)
    ensures r == [] <==> p.IntLiteral? && p.value > 0
    ensures |r| <= 2
    ensures forall e :: e in r ==> e == InvalidExpenseId
    ensures p.OtherText? && !p.exceedsZero ==> |r| == 2
  {
    match p
    case IntLiteral(n) => Rule(n > 0, InParams, "expenseId", "Invalid ID")
    case OtherText(exceedsZero) =>
      Rule(false, InParams, "expenseId", "Invalid ID") + Rule(exceedsZero, InParams, "expenseId", "Invalid ID")
  }

  /** `validateExpenseId`: never answers; it records the id errors and
      calls `next()`. */
  function ValidateExpenseId(ctx: Context, p: PathId): (r: Step)
    ensures r.Next?
    ensures r.ctx == ctx.(errors := ctx.errors + ExpenseIdErrors(p))
  {
    Next(ctx.(errors := ctx.errors + ExpenseIdErrors(p)))
  }

  /** `validateExpenseExists`: 500 when the lookup fails, 404
      `{ error: "Expense not found" }` when there is no such row; otherwise
      `req.expense` becomes the stored row and `next()`. */
  function ValidateExpenseExists(ctx: Context, p: PathId, expenses: seq<Expense>, failing: bool): (r: Step)
    ensures failing ==> r == Halt(ServerError)
    ensures !failing && FindExpense(expenses, p).None? ==> r == Halt(ExpenseNotFound)
    ensures r.Next? <==> !failing && FindExpense(expenses, p).Some?
    ensures r.Next? ==> r.ctx == ctx.(expense := r.ctx.expense)
    ensures r.Next? ==> r.ctx.expense.Some? && r.ctx.expense.value in expenses
                        && p.IntLiteral? && r.ctx.expense.value.id == p.value
  {
    if failing then Halt(ServerError)
    else match FindExpense(expenses, p)
      case None => Halt(ExpenseNotFound)
      case Some(e) => Next(ctx.(expense := Some(e)))
  }

  /** `belongsToBudget`: `next()` exactly when the resolved expense hangs
      off the resolved budget, otherwise 403 "Invalid Action". */
  function BelongsToBudget(ctx: Context): (r: Step)
    requires ctx.budget.Some? && ctx.expense.Some?
    ensures r.Next? <==> ctx.budget.value.id == ctx.expense.value.budgetId
    ensures r.Next? ==> r.ctx == ctx
    ensures r.Halt? ==> r.response == InvalidAction
  {
    if ctx.budget.value.id != ctx.expense.value.budgetId then Halt(InvalidAction) else Next(ctx)
  }
}
