/** controllers/BudgetController.ts: the budget handlers. `getAll` and
    `getById` are queries on the tables; `create`, `updateById` and
    `deleteById` change the database. The resolved budget a handler works on
    is the one the middleware attached to the request. */
module BudgetController {
  import opened Common
  import opened Models
  import opened Http
  import opened Store

  /** `limit: 10`. */
  const PageSize: nat := 10

  const ServerErrorMessage := Response(500, MessageObject("Server Error"))

  /** The rows `getAll` asks for: the caller's budgets, newest `createdAt`
      first, at most a page. The table ascends in `createdAt`, so newest
      first is the reversed filter. */
  function NewestOwned(bs: seq<Budget>, userId: int): (r: seq<Budget>)
    ensures |r| <= PageSize
    ensures |r| == if |OwnedBy(bs, userId)| < PageSize then |OwnedBy(bs, userId)| else PageSize
    ensures forall b :: b in r ==> b in bs && b.userId == userId
  {
    var newestFirst := Reverse(OwnedBy(bs, userId));
    assert forall b :: b in newestFirst ==> b in OwnedBy(bs, userId) by {
      forall b | b in newestFirst ensures b in OwnedBy(bs, userId) {
        var i :| 0 <= i < |newestFirst| && newestFirst[i] == b;
        assert b == OwnedBy(bs, userId)[|newestFirst| - 1 - i];
      }
    }
    Take(newestFirst, PageSize)
  }

  /** Position `i` of the page is the budget `i` places from the end of the
      caller's filtered table. */
  lemma PageEntry(bs: seq<Budget>, userId: int, i: int)
    requires 0 <= i < |NewestOwned(bs, userId)|
    ensures i < |OwnedBy(bs, userId)|
    ensures NewestOwned(bs, userId)[i] == OwnedBy(bs, userId)[|OwnedBy(bs, userId)| - 1 - i]
  {
    var owned := OwnedBy(bs, userId);
    var newestFirst := Reverse(owned);
    assert NewestOwned(bs, userId) == Take(newestFirst, PageSize);
    assert newestFirst[i] == owned[|owned| - 1 - i];
  }

  /** The page is in strictly descending `createdAt` order. */
  lemma {:induction false} NewestOwnedDescending(bs: seq<Budget>, userId: int)
    requires BudgetsAscending(bs)
    ensures var r := NewestOwned(bs, userId);
            forall i, j :: 0 <= i < j < |r| ==> r[i].createdAt > r[j].createdAt
  {
    var owned := OwnedBy(bs, userId);
    OwnedByAscending(bs, userId);
    var r := NewestOwned(bs, userId);
    forall i, j | 0 <= i < j < |r| ensures r[i].createdAt > r[j].createdAt {
      PageEntry(bs, userId, i);
      PageEntry(bs, userId, j);
    }
  }

  /** Every budget of the caller close enough to the end of the table is
      on the page. */
  lemma RecentIsListed(bs: seq<Budget>, userId: int, k: int)
    requires 0 <= k < |OwnedBy(bs, userId)| && |OwnedBy(bs, userId)| - 1 - k < |NewestOwned(bs, userId)|
    ensures OwnedBy(bs, userId)[k] in NewestOwned(bs, userId)
  {
    var owned := OwnedBy(bs, userId);
    var r := NewestOwned(bs, userId);
    PageEntry(bs, userId, |owned| - 1 - k);
    assert r[|owned| - 1 - k] == owned[k];
  }

  /** A budget of the caller too far from the end of the table to be on the
      page is older than every budget on it. */
  lemma OlderThanPage(bs: seq<Budget>, userId: int, k: int)
    requires BudgetsAscending(bs)
    requires 0 <= k < |OwnedBy(bs, userId)| && |OwnedBy(bs, userId)| - 1 - k >= |NewestOwned(bs, userId)|
    ensures forall x :: x in NewestOwned(bs, userId) ==> OwnedBy(bs, userId)[k].createdAt < x.createdAt
  {
    var owned := OwnedBy(bs, userId);
    var r := NewestOwned(bs, userId);
    OwnedByAscending(bs, userId);
    forall x | x in r ensures owned[k].createdAt < x.createdAt {
      var i :| 0 <= i < |r| && r[i] == x;
      PageEntry(bs, userId, i);
      assert owned[k].createdAt < owned[|owned| - 1 - i].createdAt;
    }
  }

  /** Only a full page leaves out any of the caller's budgets, and every one
      it leaves out is older than every budget on the page. */
  lemma {:induction false} NewestOwnedKeepsNewest(bs: seq<Budget>, userId: int, b: Budget)
    requires BudgetsAscending(bs)
    requires b in bs && b.userId == userId && b !in NewestOwned(bs, userId)
    ensures |NewestOwned(bs, userId)| == PageSize
    ensures forall x :: x in NewestOwned(bs, userId) ==> b.createdAt < x.createdAt
  {
    var owned := OwnedBy(bs, userId);
    var r := NewestOwned(bs, userId);
    assert b in owned;
    var k :| 0 <= k < |owned| && owned[k] == b;
    assert |owned| - 1 - k >= |r| by {
      forall j | 0 <= j < |owned| && |owned| - 1 - j < |r| ensures owned[j] in r {
        RecentIsListed(bs, userId, j);
      }
    }
    OlderThanPage(bs, userId, k);
  }

  /** `getAll`: the caller's newest budgets, or 500 `{ message }` when the
      query fails. */
  function GetAll(bs: seq<Budget>, userId: int, failing: bool): (r: Response)
    ensures failing ==> r == ServerErrorMessage
    ensures !failing ==> r.status == OK && r.payload == BudgetList(NewestOwned(bs, userId))
    ensures r.payload.BudgetList? ==>
              |r.payload.budgets| <= PageSize
              && forall b :: b in r.payload.budgets ==> b in bs && b.userId == userId
  {
    if failing then ServerErrorMessage else Response(OK, BudgetList(NewestOwned(bs, userId)))
  }

  /** `create`: inserts the body's budget with `userId` forced to the
      caller, whatever the body says. A failing insert, or a body without a
      name or an amount (both NOT NULL), answers 500 and stores nothing. */
  method Create(db: Database, userId: int, body: RequestBody, failing: bool) returns (resp: Response)
    requires db.Valid()
    modifies db
    ensures db.Valid()
    ensures db.expenses == old(db.expenses) && db.nextExpenseId == old(db.nextExpenseId)
    ensures failing || body.name.None? || body.amount.None? ==>
              && resp == ServerErrorMessage && db.budgets == old(db.budgets)
              && db.nextBudgetId == old(db.nextBudgetId) && db.clock == old(db.clock)
    ensures !failing && body.name.Some? && body.amount.Some? ==>
              && resp == Response(201, JsonText("Budget created successfully"))
              && db.budgets == old(db.budgets)
                   + [Budget(old(db.nextBudgetId), body.name.value, body.amount.value, userId, old(db.clock))]
              && db.nextBudgetId == old(db.nextBudgetId) + 1 && db.clock == old(db.clock) + 1
  {
    if failing || body.name.None? || body.amount.None? {
      return ServerErrorMessage;
    }
    var budget := Budget(db.nextBudgetId, body.name.value, body.amount.value, 0, db.clock);
    budget := budget.(userId := userId);
    db.budgets := db.budgets + [budget];
    db.nextBudgetId := db.nextBudgetId + 1;
    db.clock := db.clock + 1;
    resp := Response(201, JsonText("Budget created successfully"));
  }

  /** `getById`: the resolved budget with exactly the expenses that point
      at it. */
  function GetById(budget: Budget, es: seq<Expense>): (r: Response)
    ensures r.status == OK && r.payload.BudgetWithExpenses? && r.payload.budget == budget
    ensures forall e :: e in r.payload.expenses <==> e in es && e.budgetId == budget.id
  {
    Response(OK, BudgetWithExpenses(budget, ExpensesOf(es, budget.id)))
  }

  /** Budget ids are unique in a valid table. */
  lemma BudgetIdsUnique(bs: seq<Budget>, i: int, j: int)
    requires BudgetsAscending(bs) && 0 <= i < |bs| && 0 <= j < |bs| && bs[i].id == bs[j].id
    ensures i == j
  {
    if i < j || j < i { assert false; }
  }

  /** `updateById`: merges the body into the resolved budget's row; no
      other row changes. */
  method UpdateById(db: Database, budget: Budget, body: RequestBody) returns (resp: Response)
    requires db.Valid() && budget in db.budgets
    modifies db
    ensures db.Valid()
    ensures resp == Response(OK, JsonText("Budget updated successfully"))
    ensures |db.budgets| == |old(db.budgets)|
    ensures forall k :: 0 <= k < |db.budgets| ==>
              db.budgets[k] == if old(db.budgets[k]).id == budget.id
                               then MergeBudget(old(db.budgets[k]), body) else old(db.budgets[k])
    ensures db.expenses == old(db.expenses)
    ensures db.nextBudgetId == old(db.nextBudgetId) && db.nextExpenseId == old(db.nextExpenseId)
    ensures db.clock == old(db.clock)
  {
    var found := BudgetIndex(db.budgets, budget.id);
    var i := found.value;
    forall k | 0 <= k < |db.budgets| && db.budgets[k].id == budget.id ensures k == i {
      BudgetIdsUnique(db.budgets, k, i);
    }
    db.budgets := db.budgets[i := MergeBudget(db.budgets[i], body)];
    resp := Response(OK, JsonText("Budget updated successfully"));
  }

  /** `deleteById`: removes the resolved budget and, through the cascading
      foreign key, every expense that points at it. Nothing else goes. */
  method DeleteById(db: Database, budget: Budget) returns (resp: Response)
    requires db.Valid()
    modifies db
    ensures db.Valid()
    ensures resp == Response(OK, JsonText("Budget deleted successfully"))
    ensures forall b :: b in db.budgets <==> b in old(db.budgets) && b.id != budget.id
    ensures forall e :: e in db.expenses <==> e in old(db.expenses) && e.budgetId != budget.id
    ensures db.nextBudgetId == old(db.nextBudgetId) && db.nextExpenseId == old(db.nextExpenseId)
    ensures db.clock == old(db.clock)
  {
    FilterBudgetsAscending(db.budgets, (b: Budget) => b.id != budget.id);
    FilterExpensesAscending(db.expenses, (e: Expense) => e.budgetId != budget.id);
    db.budgets := Filter(db.budgets, (b: Budget) => b.id != budget.id);
    db.expenses := Filter(db.expenses, (e: Expense) => e.budgetId != budget.id);
    resp := Response(OK, JsonText("Budget deleted successfully"));
  }
}
