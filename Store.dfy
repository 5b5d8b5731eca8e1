/** The two resource tables and the queries the middleware and controllers
    run on them. Rows are kept in insertion order; ids come from a serial
    counter and `createdAt` from a monotone clock, so both ascend along the
    table. */
module Store {
  import opened Common
  import opened Models

  /** `Budget.findByPk(id)`. */
  function BudgetIndex(bs: seq<Budget>, id: int): Option<nat> {
    FindFirst(bs, (b: Budget) => b.id == id)
  }

  /** `Expense.findByPk(id)`. */
  function ExpenseIndex(es: seq<Expense>, id: int): Option<nat> {
    FindFirst(es, (e: Expense) => e.id == id)
  }

  /** `findByPk` on a path segment: only an integer literal names a key. */
  function FindBudget(bs: seq<Budget>, p: PathId): (r: Option<Budget>)
    ensures r.Some? ==> r.value in bs && p.IntLiteral? && r.value.id == p.value
    ensures r.None? <==> !p.IntLiteral? || forall b :: b in bs ==> b.id != p.value
  {
    if !p.IntLiteral? then None
    else match BudgetIndex(bs, p.value)
      case None => None
      case Some(i) => Some(bs[i])
  }

  /** As `FindBudget`, for expenses. */
  function FindExpense(es: seq<Expense>, p: PathId): (r: Option<Expense>)
    ensures r.Some? ==> r.value in es && p.IntLiteral? && r.value.id == p.value
    ensures r.None? <==> !p.IntLiteral? || forall e :: e in es ==> e.id != p.value
  {
    if !p.IntLiteral? then None
    else match ExpenseIndex(es, p.value)
      case None => None
      case Some(i) => Some(es[i])
  }

  /** `where: { userId }`. */
  function OwnedBy(bs: seq<Budget>, userId: int): seq<Budget> {
    Filter(bs, (b: Budget) => b.userId == userId)
  }

  /** The expenses whose foreign key is `budgetId` (`include: [Expense]`). */
  function ExpensesOf(es: seq<Expense>, budgetId: int): seq<Expense> {
    Filter(es, (e: Expense) => e.budgetId == budgetId)
  }

  /** Ids and creation times strictly ascend along the budgets table. */
  ghost predicate BudgetsAscending(bs: seq<Budget>) {
    forall i, j :: 0 <= i < j < |bs| ==> bs[i].id < bs[j].id && bs[i].createdAt < bs[j].createdAt
  }

  /** Ids strictly ascend along the expenses table. */
  ghost predicate ExpensesAscending(es: seq<Expense>) {
    forall i, j :: 0 <= i < j < |es| ==> es[i].id < es[j].id
  }

  /** An expense counts as the user's when its budget is theirs. */
  ghost predicate ExpenseOwnedBy(bs: seq<Budget>, e: Expense, userId: int) {
    exists b :: b in bs && b.id == e.budgetId && b.userId == userId
  }

  lemma {:induction false} FilterBudgetsAscending(bs: seq<Budget>, p: Budget -> bool)
    requires BudgetsAscending(bs)
    ensures BudgetsAscending(Filter(bs, p))
  {
    FilterKeepsOrder(bs, p, (a: Budget, b: Budget) => a.id < b.id && a.createdAt < b.createdAt);
  }

  lemma {:induction false} FilterExpensesAscending(es: seq<Expense>, p: Expense -> bool)
    requires ExpensesAscending(es)
    ensures ExpensesAscending(Filter(es, p))
  {
    FilterKeepsOrder(es, p, (a: Expense, b: Expense) => a.id < b.id);
  }

  /** A user's budgets keep the table's ascending order. */
  lemma OwnedByAscending(bs: seq<Budget>, userId: int)
    requires BudgetsAscending(bs)
    ensures BudgetsAscending(OwnedBy(bs, userId))
  {
    FilterBudgetsAscending(bs, (b: Budget) => b.userId == userId);
  }

  /** The database: the budgets and expenses tables with their serial
      counters and the clock that stamps `createdAt`. */
  class Database {
    var budgets: seq<Budget>
    var expenses: seq<Expense>
    var nextBudgetId: int
    var nextExpenseId: int
    var clock: nat

    ghost predicate Valid()
      reads this
    {
      && 0 < nextBudgetId && 0 < nextExpenseId
      && (forall b :: b in budgets ==> 0 < b.id < nextBudgetId && b.createdAt < clock)
      && (forall e :: e in expenses ==> 0 < e.id < nextExpenseId)
      && BudgetsAscending(budgets)
      && ExpensesAscending(expenses)
    }

    constructor ()
      ensures Valid() && budgets == [] && expenses == []
    {
      budgets, expenses := [], [];
      nextBudgetId, nextExpenseId, clock := 1, 1, 0;
    }
  }
}
