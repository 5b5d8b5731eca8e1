/** routes/budgetRouter.ts: the order in which the middleware runs before
    each budget and expense handler. `authenticate` runs first for every
    route; the three `budgetId` param handlers run for every route with
    `:budgetId`, then the two `expenseId` param handlers for every route with
    `:expenseId`, then the route's own validators, then the controller.

    `belongsToBudget` exists in middleware/expense.ts but is not registered,
    so the chain as written is `Chain(..., withBelongsToBudget := false)`;
    `true` gives the chain with it registered after `validateExpenseExists`. */
module BudgetRouter {
  import opened Common
  import opened Models
  import opened Http
  import opened RequestContext
  import opened Store
  import opened BudgetMiddleware
  import opened ExpenseMiddleware
  import BudgetController
  import ExpenseController

  datatype Route =
    | ListBudgets                                            // GET /
    | CreateBudget                                           // POST /
    | GetBudget(budgetId: PathId)                            // GET /:budgetId
    | UpdateBudget(budgetId: PathId)                         // PUT /:budgetId
    | DeleteBudget(budgetId: PathId)                         // DELETE /:budgetId
    | CreateExpense(budgetId: PathId)                        // POST /:budgetId/expenses
    | GetExpense(budgetId: PathId, expenseId: PathId)        // GET /:budgetId/expenses/:expenseId
    | UpdateExpense(budgetId: PathId, expenseId: PathId)     // PUT /:budgetId/expenses/:expenseId
    | DeleteExpense(budgetId: PathId, expenseId: PathId)     // DELETE /:budgetId/expenses/:expenseId
  {
    predicate HasBudgetId() {
      !ListBudgets? && !CreateBudget?
    }

    predicate HasExpenseId() {
      GetExpense? || UpdateExpense? || DeleteExpense?
    }
  }

  /** A request: the identity `authenticate` verified (if any), the route
      with its path ids, and the body. */
  datatype Request = Request(caller: Option<int>, route: Route, body: RequestBody)

  /** The `budgetId` param handlers, in registration order, stopping at the
      first that answers. */
  function BudgetParamChain(ctx: Context, p: PathId, budgets: seq<Budget>, failing: bool): (r: Step)
    ensures ctx.errors != [] || !(p.IntLiteral? && p.value > 0) ==>
              r == Halt(Response(400, ErrorList(ctx.errors + BudgetIdErrors(p))))
    ensures r.Halt? && r.response.payload.ErrorList? ==> r.response.payload.errors == ctx.errors + BudgetIdErrors(p)
    ensures ctx.errors == [] && p.IntLiteral? && p.value > 0 && failing ==> r == Halt(BudgetMiddleware.ServerError)
    ensures ctx.errors == [] && p.IntLiteral? && p.value > 0 && !failing && FindBudget(budgets, p).None? ==>
              r == Halt(BudgetNotFound)
    ensures ctx.errors == [] && p.IntLiteral? && p.value > 0 && !failing
            && FindBudget(budgets, p).Some? && FindBudget(budgets, p).value.userId != ctx.user ==>
              r == Halt(AccessDenied)
    ensures r.Next? ==> && r.ctx == ctx.(budget := r.ctx.budget)
                        && r.ctx.budget.Some? && r.ctx.budget.value in budgets
                        && p.IntLiteral? && r.ctx.budget.value.id == p.value
                        && r.ctx.budget.value.userId == ctx.user
  {
    var c1 :- ValidateBudgetId(ctx, p);
    var c2 :- ValidateBudgetExists(c1, p, budgets, failing);
    HasAccess(c2)
  }

  /** The `expenseId` param handlers, and `belongsToBudget` after them when
      it is registered. */
  function ExpenseParamChain(ctx: Context, p: PathId, expenses: seq<Expense>, failing: bool, withBelongsToBudget: bool): (r: Step)
    requires ctx.budget.Some?
    ensures failing ==> r == Halt(ExpenseMiddleware.ServerError)
    ensures r.Halt? ==> r.response.payload.ErrorObject?
    ensures !failing && FindExpense(expenses, p).None? ==> r == Halt(ExpenseNotFound)
    ensures r.Next? ==> && r.ctx == ctx.(expense := r.ctx.expense, errors := ctx.errors + ExpenseIdErrors(p))
                        && r.ctx.expense.Some? && r.ctx.expense.value in expenses
                        && p.IntLiteral? && r.ctx.expense.value.id == p.value
    ensures withBelongsToBudget && r.Next? ==> r.ctx.expense.value.budgetId == ctx.budget.value.id
    ensures !withBelongsToBudget ==> (r.Next? <==> !failing && FindExpense(expenses, p).Some?)
  {
    var c1 := ValidateExpenseId(ctx, p).ctx;
    var c2 :- ValidateExpenseExists(c1, p, expenses, failing);
    if withBelongsToBudget then BelongsToBudget(c2) else Next(c2)
  }

  /** The route's own handlers before its controller: `validateBudgetInput`
      on `POST /` and `PUT /:budgetId`; `validateExpenseInput` then
      `handleInputErrors` on expense `POST` and `PUT`; `handleInputErrors`
      alone on expense `GET`; nothing on the other routes. */
  function RouteValidators(route: Route, ctx: Context): (r: Step)
    ensures route.ListBudgets? || route.GetBudget? || route.DeleteBudget? || route.DeleteExpense? ==> r == Next(ctx)
    ensures r.Next? ==> r.ctx == ctx
    ensures route.CreateBudget? || route.UpdateBudget? ==>
              && (r.Next? <==> ctx.errors == [] && BudgetInputErrors(ctx.body) == [])
              && (r.Halt? ==> r.response == Response(400, ErrorList(ctx.errors + BudgetInputErrors(ctx.body))))
    ensures route.CreateExpense? || route.UpdateExpense? ==>
              && (r.Next? <==> ctx.errors == [] && ExpenseInputErrors(ctx.body) == [])
              && (r.Halt? ==> r.response == Response(400, ErrorList(ctx.errors + ExpenseInputErrors(ctx.body))))
    ensures route.GetExpense? ==>
              && (r.Next? <==> ctx.errors == [])
              && (r.Halt? ==> r.response == Response(400, ErrorList(ctx.errors)))
  {
    match route
    case CreateBudget => ValidateBudgetInput(ctx)
    case UpdateBudget(_) => ValidateBudgetInput(ctx)
    case CreateExpense(_) => HandleInputErrors(ValidateExpenseInput(ctx).ctx)
    case UpdateExpense(_, _) => HandleInputErrors(ValidateExpenseInput(ctx).ctx)
    case GetExpense(_, _) => HandleInputErrors(ctx)
    case _ => Next(ctx)
  }

  /** Everything that runs before the controller. When it reaches the
      controller, the context holds the caller, the body, and the budget and
      expense the path names, the budget being the caller's. */
  function Chain(req: Request, budgets: seq<Budget>, expenses: seq<Expense>, failing: bool, withBelongsToBudget: bool): (r: Step)
    ensures req.caller.None? ==> r == Halt(NotAuthorized)
    ensures r.Next? ==> req.caller.Some? && r.ctx.user == req.caller.value && r.ctx.body == req.body
    ensures r.Next? && req.route.HasBudgetId() ==>
              && r.ctx.budget.Some? && r.ctx.budget.value in budgets
              && req.route.budgetId == IntLiteral(r.ctx.budget.value.id)
              && r.ctx.budget.value.userId == req.caller.value
    ensures r.Next? && req.route.HasExpenseId() ==>
              && r.ctx.expense.Some? && r.ctx.expense.value in expenses
              && req.route.expenseId == IntLiteral(r.ctx.expense.value.id)
    ensures r.Next? && req.route.HasExpenseId() && withBelongsToBudget ==>
              r.ctx.expense.value.budgetId == r.ctx.budget.value.id
    ensures r.Next? && (req.route.CreateBudget? || req.route.UpdateBudget?) ==> BudgetInputErrors(req.body) == []
    ensures r.Next? && (req.route.CreateExpense? || req.route.UpdateExpense?) ==> ExpenseInputErrors(req.body) == []
    ensures req.caller.Some? && req.route.ListBudgets? ==>
              r == Next(Context(req.caller.value, req.body, None, None, []))
    ensures req.caller.Some? && req.route.CreateBudget? ==>
              (r.Next? <==> BudgetInputErrors(req.body) == [])
              && (r.Halt? ==> r.response == Response(400, ErrorList(BudgetInputErrors(req.body))))
  {
    var c0 :- Authenticate(req.caller, req.body);
    assert [] + BudgetInputErrors(req.body) == BudgetInputErrors(req.body);
    var c1 :- if req.route.HasBudgetId() then BudgetParamChain(c0, req.route.budgetId, budgets, failing) else Next(c0);
    var c2 :- if req.route.HasExpenseId()
              then ExpenseParamChain(c1, req.route.expenseId, expenses, failing, withBelongsToBudget)
              else Next(c1);
    RouteValidators(req.route, c2)
  }

  /** On every route with `:budgetId` the answers come in a fixed order: a
      malformed id is 400 whatever the tables hold, then a failing lookup
      500, then a missing budget 404, then somebody else's budget 401. */
  lemma BudgetRoutePrecedence(req: Request, budgets: seq<Budget>, expenses: seq<Expense>, failing: bool, withBelongsToBudget: bool)
    requires req.caller.Some? && req.route.HasBudgetId()
    ensures var p := req.route.budgetId;
            var r := Chain(req, budgets, expenses, failing, withBelongsToBudget);
            && (!(p.IntLiteral? && p.value > 0) ==> r == Halt(Response(400, ErrorList([InvalidBudgetId]))))
            && (p.IntLiteral? && p.value > 0 && failing ==> r == Halt(BudgetMiddleware.ServerError))
            && (p.IntLiteral? && p.value > 0 && !failing && FindBudget(budgets, p).None? ==> r == Halt(BudgetNotFound))
            && (p.IntLiteral? && p.value > 0 && !failing && FindBudget(budgets, p).Some?
                  && FindBudget(budgets, p).value.userId != req.caller.value
                ==> r == Halt(AccessDenied))
  {
    var c0 := Authenticate(req.caller, req.body);
    assert c0 == Next(Context(req.caller.value, req.body, None, None, []));
    assert [] + BudgetIdErrors(req.route.budgetId) == BudgetIdErrors(req.route.budgetId);
  }

  /** `PUT /:budgetId` checks the id before the body: a bad id reports the
      id alone, and a body with no fields is then not looked at. */
  lemma UpdateBudgetChecksIdFirst(caller: int, p: PathId, body: RequestBody, budgets: seq<Budget>, expenses: seq<Expense>, failing: bool)
    requires !(p.IntLiteral? && p.value > 0)
    ensures Chain(Request(Some(caller), UpdateBudget(p), body), budgets, expenses, failing, false)
            == Halt(Response(400, ErrorList([InvalidBudgetId])))
  {
    BudgetRoutePrecedence(Request(Some(caller), UpdateBudget(p), body), budgets, expenses, failing, false);
  }

  /** The `expenseId` errors `validateExpenseId` records are never reported:
      an expense id that reaches `handleInputErrors` was found in a table
      whose ids are positive. */
  lemma ExpenseIdErrorsNeverReported(req: Request, budgets: seq<Budget>, expenses: seq<Expense>, failing: bool, withBelongsToBudget: bool)
    requires forall e :: e in expenses ==> e.id > 0
    ensures var r := Chain(req, budgets, expenses, failing, withBelongsToBudget);
            r.Halt? && r.response.payload.ErrorList? ==> InvalidExpenseId !in r.response.payload.errors
  {
    var r := Chain(req, budgets, expenses, failing, withBelongsToBudget);
    if req.caller.None? {
      return;
    }
    var c0 := Authenticate(req.caller, req.body).ctx;
    var s1 := if req.route.HasBudgetId() then BudgetParamChain(c0, req.route.budgetId, budgets, failing) else Next(c0);
    if s1.Halt? {
      assert r == s1;
      return;
    }
    var s2 := if req.route.HasExpenseId()
              then ExpenseParamChain(s1.ctx, req.route.expenseId, expenses, failing, withBelongsToBudget)
              else Next(s1.ctx);
    if s2.Halt? {
      assert r == s2;
      return;
    }
    assert s2.ctx.errors == [];
    assert r == RouteValidators(req.route, s2.ctx);
    ValidatorsReportBodyErrors(req.route, s2.ctx);
  }

  /** With nothing recorded before them, the route validators report only
      body errors. */
  lemma ValidatorsReportBodyErrors(route: Route, ctx: Context)
    requires ctx.errors == []
    ensures var r := RouteValidators(route, ctx);
            r.Halt? && r.response.payload.ErrorList? ==> forall e :: e in r.response.payload.errors ==> e.location == InBody
  {
    forall e | e in ExpenseInputErrors(ctx.body) ensures e.location == InBody {
    }
  }

  /** Wherever the checked chain (with `belongsToBudget`) lets an expense
      route through, the expense belongs to a budget of the caller. */
  lemma CheckedChainServesOnlyOwnExpenses(req: Request, budgets: seq<Budget>, expenses: seq<Expense>, failing: bool)
    requires req.route.HasExpenseId() && Chain(req, budgets, expenses, failing, true).Next?
    ensures ExpenseOwnedBy(budgets, Chain(req, budgets, expenses, failing, true).ctx.expense.value, req.caller.value)
  {
    var ctx := Chain(req, budgets, expenses, failing, true).ctx;
    assert ctx.budget.value in budgets && ctx.budget.value.id == ctx.expense.value.budgetId;
  }

  /** As registered, the chain hands user 7 the expense hanging off user 8's
      budget, as long as the path names a budget of user 7; with
      `belongsToBudget` the same request answers 403. */
  lemma CrossBudgetExpenseServed()
    ensures var budgets := [Budget(1, "Rent", "900", 7, 0), Budget(2, "Trip", "300", 8, 1)];
            var expenses := [Expense(1, "Hotel", "120", 2)];
            var req := Request(Some(7), GetExpense(IntLiteral(1), IntLiteral(1)), RequestBody(None, None, None, None, false));
            && Chain(req, budgets, expenses, false, false).Next?
            && Chain(req, budgets, expenses, false, false).ctx.expense == Some(expenses[0])
            && !ExpenseOwnedBy(budgets, expenses[0], 7)
            && Chain(req, budgets, expenses, false, true) == Halt(InvalidAction)
  {
    var budgets := [Budget(1, "Rent", "900", 7, 0), Budget(2, "Trip", "300", 8, 1)];
    var expenses := [Expense(1, "Hotel", "120", 2)];
    var req := Request(Some(7), GetExpense(IntLiteral(1), IntLiteral(1)), RequestBody(None, None, None, None, false));
    assert BudgetIndex(budgets, 1) == Some(0);
    assert ExpenseIndex(expenses, 1) == Some(0);
    var c1 := Context(7, req.body, Some(budgets[0]), None, []);
    assert BudgetParamChain(Context(7, req.body, None, None, []), IntLiteral(1), budgets, false) == Next(c1);
    var c2 := c1.(expense := Some(expenses[0]));
    assert ExpenseParamChain(c1, IntLiteral(1), expenses, false, false) == Next(c2);
    assert ExpenseParamChain(c1, IntLiteral(1), expenses, false, true) == Halt(InvalidAction);
    forall b | b in budgets && b.id == 2 ensures b.userId == 8 {}
  }

  /** Nothing that is not the caller's went: no budget of another user,
      and (when `checkExpenses`) no expense outside the caller's budgets. */
  ghost predicate KeepsOthers(oldBudgets: seq<Budget>, oldExpenses: seq<Expense>, budgets: seq<Budget>,
                              expenses: seq<Expense>, caller: int, checkExpenses: bool)
  {
    && (forall b :: b in oldBudgets && b.userId != caller ==> b in budgets)
    && (checkExpenses ==>
          forall e :: e in oldExpenses && !ExpenseOwnedBy(oldBudgets, e, caller) ==> e in expenses)
  }

  /** The router end to end: the chain, then the route's controller on the
      context the chain built. A request the chain answers changes nothing.
      The budgets of other users are never removed or replaced, and with
      `belongsToBudget` registered neither are expenses outside the
      caller's budgets. */
  method Serve(db: Database, req: Request, failing: bool, withBelongsToBudget: bool) returns (resp: Response)
    requires db.Valid()
    modifies db
    ensures db.Valid()
    ensures var r := Chain(req, old(db.budgets), old(db.expenses), failing, withBelongsToBudget);
            r.Halt? ==> resp == r.response && db.budgets == old(db.budgets) && db.expenses == old(db.expenses)
    ensures req.caller.None? ==> resp == NotAuthorized
    ensures req.caller.Some? ==>
              KeepsOthers(old(db.budgets), old(db.expenses), db.budgets, db.expenses, req.caller.value, withBelongsToBudget)
  {
    var step := Chain(req, db.budgets, db.expenses, failing, withBelongsToBudget);
    if step.Halt? {
      return step.response;
    }
    if req.route.HasExpenseId() || req.route.CreateExpense? {
      resp := ServeExpenseRoute(db, req.route, step.ctx, failing, withBelongsToBudget);
    } else {
      resp := ServeBudgetRoute(db, req.route, step.ctx, failing);
    }
  }

  /** The budget controllers, on a context the chain let through. */
  method ServeBudgetRoute(db: Database, route: Route, ctx: Context, failing: bool) returns (resp: Response)
    requires db.Valid() && !route.HasExpenseId() && !route.CreateExpense?
    requires route.HasBudgetId() ==> ctx.budget.Some? && ctx.budget.value in db.budgets && ctx.budget.value.userId == ctx.user
    modifies db
    ensures db.Valid()
    ensures KeepsOthers(old(db.budgets), old(db.expenses), db.budgets, db.expenses, ctx.user, true)
  {
    match route
    case ListBudgets =>
      resp := BudgetController.GetAll(db.budgets, ctx.user, failing);
    case CreateBudget =>
      resp := BudgetController.Create(db, ctx.user, ctx.body, failing);
    case GetBudget(_) =>
      resp := BudgetController.GetById(ctx.budget.value, db.expenses);
    case UpdateBudget(_) =>
      OnlyOwnRowHasId(db.budgets, ctx.budget.value, ctx.user);
      resp := BudgetController.UpdateById(db, ctx.budget.value, ctx.body);
    case DeleteBudget(_) =>
      OnlyOwnRowHasId(db.budgets, ctx.budget.value, ctx.user);
      resp := BudgetController.DeleteById(db, ctx.budget.value);
  }

  /** The expense controllers, on a context the chain let through. */
  method ServeExpenseRoute(db: Database, route: Route, ctx: Context, failing: bool, withBelongsToBudget: bool)
    returns (resp: Response)
    requires db.Valid() && (route.HasExpenseId() || route.CreateExpense?)
    requires ctx.budget.Some? && ctx.budget.value in db.budgets && ctx.budget.value.userId == ctx.user
    requires route.HasExpenseId() ==> ctx.expense.Some? && ctx.expense.value in db.expenses
    requires route.HasExpenseId() && withBelongsToBudget ==> ctx.expense.value.budgetId == ctx.budget.value.id
    modifies db
    ensures db.Valid()
    ensures db.budgets == old(db.budgets)
    ensures KeepsOthers(old(db.budgets), old(db.expenses), db.budgets, db.expenses, ctx.user, withBelongsToBudget)
  {
    match route
    case CreateExpense(_) =>
      resp := ExpenseController.Create(db, ctx.budget.value, ctx.body, failing);
    case GetExpense(_, _) =>
      resp := ExpenseController.GetById(ctx.expense.value);
    case UpdateExpense(_, _) =>
      OnlyOwnExpenseHasId(db.budgets, db.expenses, ctx, withBelongsToBudget);
      resp := ExpenseController.UpdateById(db, ctx.expense.value, ctx.body);
    case DeleteExpense(_, _) =>
      OnlyOwnExpenseHasId(db.budgets, db.expenses, ctx, withBelongsToBudget);
      resp := ExpenseController.DeleteById(db, ctx.expense.value);
  }

  /** In a valid table the only budget with the resolved budget's id is the
      resolved budget, which is the caller's. */
  lemma OnlyOwnRowHasId(bs: seq<Budget>, budget: Budget, caller: int)
    requires BudgetsAscending(bs) && budget in bs && budget.userId == caller
    ensures forall b :: b in bs && b.id == budget.id ==> b.userId == caller
  {
    forall b | b in bs && b.id == budget.id ensures b.userId == caller {
      var i :| 0 <= i < |bs| && bs[i] == b;
      var j :| 0 <= j < |bs| && bs[j] == budget;
      BudgetController.BudgetIdsUnique(bs, i, j);
    }
  }

  /** Likewise for the resolved expense, once it is known to hang off the
      caller's resolved budget. */
  lemma OnlyOwnExpenseHasId(bs: seq<Budget>, es: seq<Expense>, ctx: Context, withBelongsToBudget: bool)
    requires ExpensesAscending(es) && ctx.expense.Some? && ctx.expense.value in es
    requires withBelongsToBudget ==> && ctx.budget.Some? && ctx.budget.value in bs
                                     && ctx.budget.value.userId == ctx.user
                                     && ctx.expense.value.budgetId == ctx.budget.value.id
    ensures withBelongsToBudget ==>
              forall e :: e in es && e.id == ctx.expense.value.id ==> ExpenseOwnedBy(bs, e, ctx.user)
  {
    if withBelongsToBudget {
      forall e | e in es && e.id == ctx.expense.value.id ensures ExpenseOwnedBy(bs, e, ctx.user) {
        var i :| 0 <= i < |es| && es[i] == e;
        var j :| 0 <= j < |es| && es[j] == ctx.expense.value;
        ExpenseController.ExpenseIdsUnique(es, i, j);
        assert ctx.budget.value in bs;
      }
    }
  }
}
