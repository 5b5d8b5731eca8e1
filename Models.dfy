/** The rows of the `budgets` and `expenses` tables (models/Budget.ts,
    models/Expense.ts), the request data the budget router reads, and the
    field merge that Sequelize's `update(req.body)` performs. */
module Models {
  import opened Common

  /** A budget row. `amount` (a DECIMAL column) is kept as the submitted
      decimal text; `createdAt` is the value of a monotone clock. */
  datatype Budget = Budget(id: int, name: string, amount: string, userId: int, createdAt: nat)

  /** An expense row; `budgetId` is the foreign key to its budget. */
  datatype Expense = Expense(id: int, name: string, amount: string, budgetId: int)

  /** A `:budgetId` or `:expenseId` path segment, as far as the validators
      can tell it apart: an integer literal accepted by `isInt()`, with its
      value, or any other text, with whether JavaScript's `text > 0` holds. */
  datatype PathId = IntLiteral(value: int) | OtherText(exceedsZero: bool)

  /** The JSON body of a budget or expense request. Each value is the text
      express-validator sees (a JSON number reads as its decimal text);
      `None` is a field the client did not send. `amountAboveZero` is what
      JavaScript's `amount > 0` gives for a sent amount that is not plain
      decimal text ("1e3", " 5", "0x10", "Infinity"): the model does not
      evaluate that coercion, as `PathId.OtherText` does not for ids. */
  datatype RequestBody = RequestBody(
    name: Option<string>,
    amount: Option<string>,
    userId: Option<int>,
    budgetId: Option<int>,
    amountAboveZero: bool)

  /** `budget.update(body)`: every attribute the body carries replaces the
      stored one, the foreign key `userId` included; the key and the
      creation time stay. */
  function MergeBudget(b: Budget, body: RequestBody): (r: Budget)
    ensures r.id == b.id && r.createdAt == b.createdAt
    ensures r.name == body.name.GetOr(b.name) && r.amount == body.amount.GetOr(b.amount)
    ensures r.userId == body.userId.GetOr(b.userId)
  {
    b.(name := body.name.GetOr(b.name),
       amount := body.amount.GetOr(b.amount),
       userId := body.userId.GetOr(b.userId))
  }

  /** `expense.update(body)`: the same merge for an expense, `budgetId`
      included. */
  function MergeExpense(e: Expense, body: RequestBody): (r: Expense)
    ensures r.id == e.id
    ensures r.name == body.name.GetOr(e.name) && r.amount == body.amount.GetOr(e.amount)
    ensures r.budgetId == body.budgetId.GetOr(e.budgetId)
  {
    e.(name := body.name.GetOr(e.name),
       amount := body.amount.GetOr(e.amount),
       budgetId := body.budgetId.GetOr(e.budgetId))
  }
}
