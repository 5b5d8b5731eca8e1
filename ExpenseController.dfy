/** controllers/ExpenseController.ts: the expense handlers. Each works on
    the budget or expense the middleware attached to the request. */
module ExpenseController {
  import opened Common
  import opened Models
  import opened Http
  import opened Store

  const ServerError := Response(500, ErrorObject("Server Error"))

  /** Expense ids are unique in a valid table. */
  lemma ExpenseIdsUnique(es: seq<Expense>, i: int, j: int)
    requires ExpensesAscending(es) && 0 <= i < |es| && 0 <= j < |es| && es[i].id == es[j].id
    ensures i == j
  {
    if i < j || j < i { assert false; }
  }

  /** `create`: inserts the body's expense with `budgetId` forced to the
      resolved budget, whatever the body says. A failing insert, or a body
      without a name or an amount (both NOT NULL), answers 500 and stores
      nothing. */
  method Create(db: Database, budget: Budget, body: RequestBody, failing: bool) returns (resp: Response)
    requires db.Valid()
    modifies db
    ensures db.Valid()
    ensures db.budgets == old(db.budgets) && db.nextBudgetId == old(db.nextBudgetId)
    ensures db.clock == old(db.clock)
    ensures failing || body.name.None? || body.amount.None? ==>
              resp == ServerError && db.expenses == old(db.expenses) && db.nextExpenseId == old(db.nextExpenseId)
    ensures !failing && body.name.Some? && body.amount.Some? ==>
              && resp == Response(201, JsonText("Expense created"))
              && db.expenses == old(db.expenses)
                   + [Expense(old(db.nextExpenseId), body.name.value, body.amount.value, budget.id)]
              && db.nextExpenseId == old(db.nextExpenseId) + 1
  {
    if failing || body.name.None? || body.amount.None? {
      return ServerError;
    }
    var expense := Expense(db.nextExpenseId, body.name.value, body.amount.value, 0);
    expense := expense.(budgetId := budget.id);
    db.expenses := db.expenses + [expense];
    db.nextExpenseId := db.nextExpenseId + 1;
    resp := Response(201, JsonText("Expense created"));
  }

  /** `getById`: the resolved expense, as it was resolved. */
  function GetById(expense: Expense): (r: Response)
    ensures r.status == OK && r.payload == ExpenseRecord(expense)
  {
    Response(OK, ExpenseRecord(expense))
  }

  /** `updateById`: merges the body into the resolved expense's row; no
      other row changes. */
  method UpdateById(db: Database, expense: Expense, body: RequestBody) returns (resp: Response)
    requires db.Valid() && expense in db.expenses
    modifies db
    ensures db.Valid()
    ensures resp == Response(OK, JsonText("Expense updated"))
    ensures |db.expenses| == |old(db.expenses)|
    ensures forall k :: 0 <= k < |db.expenses| ==>
              db.expenses[k] == if old(db.expenses[k]).id == expense.id
                                then MergeExpense(old(db.expenses[k]), body) else old(db.expenses[k])
    ensures db.budgets == old(db.budgets)
    ensures db.nextBudgetId == old(db.nextBudgetId) && db.nextExpenseId == old(db.nextExpenseId)
    ensures db.clock == old(db.clock)
  {
    var found := ExpenseIndex(db.expenses, expense.id);
    var i := found.value;
    forall k | 0 <= k < |db.expenses| && db.expenses[k].id == expense.id ensures k == i {
      ExpenseIdsUnique(db.expenses, k, i);
    }
    db.expenses := db.expenses[i := MergeExpense(db.expenses[i], body)];
    resp := Response(OK, JsonText("Expense updated"));
  }

  /** `deleteById`: removes the resolved expense and nothing else. */
  method DeleteById(db: Database, expense: Expense) returns (resp: Response)
    requires db.Valid()
    modifies db
    ensures db.Valid()
    ensures resp == Response(OK, JsonText("Expense deleted"))
    ensures forall e :: e in db.expenses <==> e in old(db.expenses) && e.id != expense.id
    ensures db.budgets == old(db.budgets)
    ensures db.nextBudgetId == old(db.nextBudgetId) && db.nextExpenseId == old(db.nextExpenseId)
    ensures db.clock == old(db.clock)
  {
    FilterExpensesAscending(db.expenses, (e: Expense) => e.id != expense.id);
    db.expenses := Filter(db.expenses, (e: Expense) => e.id != expense.id);
    resp := Response(OK, JsonText("Expense deleted"));
  }
}
