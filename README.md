# CashTracker backend: account lifecycle and budget ownership chain

This Dafny project models the two rule-bearing parts of the CashTracker
REST backend, an Express and Sequelize API for personal budgets.

- **Account lifecycle.** The users table and the handlers of
  `AuthController` move an account through its states: sign-up
  (unconfirmed, holding a token), confirmation, login, forgot password,
  token check, reset, password change and password check. The model also
  covers the input rules that `authRouter` puts in front of each handler.
  `AuthController.Accounts` is a class whose `users` field each handler
  method reassigns.
- **Ownership chain and resource CRUD.** Two parts here:
  - The budget router runs, in a fixed order, `authenticate`, the
    `:budgetId` checks (`validateBudgetId`, `validateBudgetExists`,
    `hasAccess`), the `:expenseId` checks, and the per-route validators.
    This is modelled as short-circuiting functions over a request context
    (`RequestContext.Step`).
  - The budget and expense controllers then change the two tables, held by
    the class `Store.Database`.

Tables are sequences in insertion order:
- `findOne` and `findByPk` return the first match.
- Ids come from serial counters.
- `createdAt` comes from a monotone clock, so ids and creation times ascend
  along each table (`Store.Database.Valid`).

The model abstracts the following:
- **Storage failure.** A request's database calls either succeed or
  reject. The flag `failing` selects the rejecting run.
- **Functions the model does not look into.** Password hashing,
  verification and JWT signing form `AuthController.Crypto`. `isEmail` is a
  predicate parameter.
- **Generated tokens.** Each is a parameter with a freshness precondition
  (`AuthController.Unused`).
- **`authenticate`.** It becomes an optional caller id.

Mass assignment is modelled as the code does it:
- `Budget.create(req.body)`, `User.create(req.body)`, `budget.update(req.body)`
  and `expense.update(req.body)` take every attribute the body carries.
- The controllers then overwrite the owner on create (`userId`, `budgetId`,
  `password`, `token`).
- Updates merge `userId` or `budgetId` from the body (`Models.MergeBudget`,
  `Models.MergeExpense`).

Four places where the program's own files disagree with each other, or
where one of them leaves a gap; the model follows the code that runs:
- **`belongsToBudget`.** `belongsToBudget` is defined in
  src/middleware/expense.ts:69-80 to answer 403 for an expense outside the
  resolved budget. The param handlers for `:expenseId` in
  src/routes/budgetRouter.ts:26-27 do not include it. The budget chain
  therefore takes a flag `withBelongsToBudget`: `false` is the router as
  written, `true` is the router with the check registered after
  `validateExpenseExists`.
- **New accounts.** The `confirmed` column defaults to false
  (`@Default(false)`, src/models/User.ts:41-45). The sign-up body is handed
  to `User.create` whole (src/controllers/AuthController.ts:22), so
  `confirmed: true` in the body overrides that default. `AuthRouter.Serve`
  takes `bodyMayConfirm`: `true` is the code as written.
- **Expense not found.** src/tests/unit/middleware/expense.test.ts:31
  expects `{ message: "Expense not found" }`. The middleware answers
  `{ error: "Expense not found" }` (src/middleware/expense.ts:59-60), and so
  does the model.
- **Errors escaping.** The `findOne` at the top of `createAccount`
  (src/controllers/AuthController.ts:13-15) runs before the handler's `try`
  (line 21), so its failure is not turned into a 500 (see Left out).

Lengths are counted in Unicode scalar values (`|s|` on a Dafny `string`).
express-validator's `isLength` counts a surrogate pair as one character,
as the model does, but validator.js is not part of this model. Any other
adjustment it makes to the count, such as for variation selectors, is not
modelled.

## Model

| member | source | states |
|---|---|---|
| Models.MergeBudget | src/controllers/BudgetController.ts:50 | `update(body)` replaces exactly the attributes the body carries (name, amount, and the `userId` foreign key); id and `createdAt` stay |
| Models.MergeExpense | src/controllers/ExpenseController.ts:22 | the same merge for an expense, `budgetId` included; the id stays |
| Store.FindBudget | src/middleware/budget.ts:39-40 | a found budget is a stored row whose id is the path's integer; none is found exactly when the segment is not an integer literal or no row has that id |
| Store.FindExpense | src/middleware/expense.ts:56-57 | the same for expenses |
| Store.Database.constructor | src/models/Budget.ts:20-44 | an empty database satisfies the table invariants (positive ids below the counters, ascending ids and creation times) |
| RequestContext.Authenticate | src/routes/budgetRouter.ts:20 | without a verified caller the request ends with 401 "Not authorized"; otherwise a fresh context for that caller with nothing resolved and no errors |
| RequestContext.InputErrorsResponse | src/routes/authRouter.ts:19 | `handleInputErrors` answers 400 with every recorded error exactly when there is one |
| RequestContext.HandleInputErrors | src/routes/budgetRouter.ts:40 | `next()` exactly when no error was recorded, with the context unchanged; otherwise 400 with the recorded errors |
| BudgetMiddleware.BudgetIdErrors | src/middleware/budget.ts:19-26 | no error exactly for an integer > 0; because of `bail`, any bad id yields exactly one "Invalid ID" |
| BudgetMiddleware.ValidateBudgetId | src/middleware/budget.ts:14-32 | `next()` exactly when nothing was recorded and the id is an integer > 0; otherwise 400 with the recorded errors plus the id error |
| BudgetMiddleware.ValidateBudgetExists | src/middleware/budget.ts:33-51 | 500 "Server Error" on a failing lookup, 404 "Budget not found" on a missing row; otherwise `req.budget` is that stored row and nothing else in the context changes |
| BudgetMiddleware.BudgetInputErrors | src/middleware/budget.ts:58-66 | one error per failing check (name non-empty; amount non-empty, numeric, > 0), all in the body on `name` or `amount`; nothing bails, so `> 0` is judged on every amount: numerically on decimal text, by JavaScript's coercion on other text |
| BudgetMiddleware.EmptyBudgetBodyHasFourErrors | src/middleware/budget.ts:58-66 | a body with neither field draws four errors |
| BudgetMiddleware.ValidateBudgetInput | src/middleware/budget.ts:53-72 | `next()` exactly when no error was recorded and the body passes; otherwise 400 with all errors |
| BudgetMiddleware.AcceptedBudgetBody | src/middleware/budget.ts:58-71 | a body that passes carries a name and a numeric amount greater than zero |
| BudgetMiddleware.NonDecimalPositiveAmount | src/middleware/budget.ts:59-66 | amount text that is not decimal but that JavaScript reads as positive ("1e3") draws the single "Amount must be a number" |
| BudgetMiddleware.HasAccess | src/middleware/budget.ts:74-85 | `next()` if and only if the resolved budget's `userId` is the caller's id; otherwise 401 "Access denied" |
| ExpenseMiddleware.ExpenseInputErrors | src/middleware/expense.ts:19-30 | one error per failing check of the expense body, `> 0` judged as for a budget; no error implies both fields were sent |
| ExpenseMiddleware.NonDecimalPositiveExpenseAmount | src/middleware/expense.ts:23-30 | amount text that is not decimal but that JavaScript reads as positive (" 5") draws the single "Amount must be a number" |
| ExpenseMiddleware.ValidateExpenseInput | src/middleware/expense.ts:14-33 | always `next()`, with the body errors appended to those already recorded |
| ExpenseMiddleware.ExpenseIdErrors | src/middleware/expense.ts:40-45 | no error exactly for an integer > 0; without `bail`, text that is neither an integer nor > 0 yields two "Invalid ID" errors |
| ExpenseMiddleware.ValidateExpenseId | src/middleware/expense.ts:35-48 | never answers; always `next()` with the id errors appended |
| ExpenseMiddleware.ValidateExpenseExists | src/middleware/expense.ts:50-67 | 500 on a failing lookup, 404 `{ error: "Expense not found" }` on a missing row; otherwise `req.expense` is that stored row |
| ExpenseMiddleware.BelongsToBudget | src/middleware/expense.ts:69-80 | `next()` if and only if the resolved budget's id is the expense's `budgetId`; otherwise 403 "Invalid Action" |
| BudgetController.NewestOwned | src/controllers/BudgetController.ts:12-20 | at most 10 rows, exactly min(10, the caller's count), every one a stored budget of the caller |
| BudgetController.NewestOwnedDescending | src/controllers/BudgetController.ts:13 | the page is in strictly descending `createdAt` order |
| BudgetController.NewestOwnedKeepsNewest | src/controllers/BudgetController.ts:13-14 | a budget of the caller is left off only when the page is full, and then it is older than everything on the page |
| BudgetController.GetAll | src/controllers/BudgetController.ts:8-26 | 500 `{ message: "Server Error" }` on failure; otherwise 200 with the `NewestOwned` page: at most 10 budgets, all the caller's, newest first |
| BudgetController.Create | src/controllers/BudgetController.ts:28-39 | on success appends exactly one budget owned by the caller, overriding any `userId` in the body, with the next id and the current time, advancing both counters, and answers 201 "Budget created successfully"; a failing insert or a missing NOT NULL field stores nothing, leaves the counters, and answers 500 |
| BudgetController.GetById | src/controllers/BudgetController.ts:41-47 | the resolved budget with exactly the stored expenses whose `budgetId` is its id |
| BudgetController.UpdateById | src/controllers/BudgetController.ts:49-52 | only the row with the resolved id is merged with the body; every other row and the expenses table stay |
| BudgetController.DeleteById | src/controllers/BudgetController.ts:54-57 | the remaining budgets are exactly those with another id, and the remaining expenses exactly those pointing at another budget (cascade) |
| ExpenseController.Create | src/controllers/ExpenseController.ts:5-15 | on success appends one expense under the resolved budget, overriding any `budgetId` in the body, with the next id, answering 201 "Expense created"; on failure 500 `{ error: "Server Error" }`, nothing stored and the counter unchanged |
| ExpenseController.GetById | src/controllers/ExpenseController.ts:17-19 | 200 with the resolved expense unchanged |
| ExpenseController.UpdateById | src/controllers/ExpenseController.ts:21-24 | only the row with the resolved id is merged; answers "Expense updated" |
| ExpenseController.DeleteById | src/controllers/ExpenseController.ts:26-29 | the remaining expenses are exactly those with another id; answers "Expense deleted" |
| BudgetRouter.BudgetParamChain | src/routes/budgetRouter.ts:22-24 | 400, then 500, then 404, then 401, in that order of precedence; passing means the context holds the stored budget with the path's id, owned by the caller |
| BudgetRouter.ExpenseParamChain | src/routes/budgetRouter.ts:26-27 | 500 or 404 `ErrorObject`s only; as registered it passes exactly when the expense exists, whatever budget it hangs off; with `belongsToBudget` the expense's `budgetId` is the resolved budget's |
| BudgetRouter.RouteValidators | src/routes/budgetRouter.ts:30-54 | `POST /` and `PUT /:budgetId` pass exactly when nothing was recorded and the budget body has no error, otherwise 400 with all errors; expense `POST` and `PUT` the same with the expense body; expense `GET` passes exactly when nothing was recorded; `GET /`, `GET /:budgetId`, `DELETE /:budgetId` and expense `DELETE` run no validator; passing never changes the context |
| BudgetRouter.Chain | src/routes/budgetRouter.ts:20-54 | 401 first without a caller; `GET /` with a caller always reaches `getAll`; `POST /` reaches `create` exactly when the body passes, else 400 with its errors; a request that reaches create or update carries a body that passed its validator, the caller's own budget named by the path and the stored expense named by the path (tied to that budget only when `belongsToBudget` runs) |
| BudgetRouter.BudgetRoutePrecedence | src/routes/budgetRouter.ts:22-24 | on every `:budgetId` route a bad id is a 400 with the single "Invalid ID" whatever the tables hold; then failing storage 500, missing budget 404, foreign budget 401 |
| BudgetRouter.UpdateBudgetChecksIdFirst | src/routes/budgetRouter.ts:33 | `PUT /:budgetId` with a bad id reports only the id error, whatever the body |
| BudgetRouter.ExpenseIdErrorsNeverReported | src/routes/budgetRouter.ts:43-53 | when stored expense ids are positive, no 400 on any route ever contains the `expenseId` "Invalid ID" error |
| BudgetRouter.CheckedChainServesOnlyOwnExpenses | src/middleware/expense.ts:69-80 | with `belongsToBudget` registered, every expense an expense route reaches belongs to a budget of the caller |
| BudgetRouter.CrossBudgetExpenseServed | src/routes/budgetRouter.ts:26-27 | as registered, user 7 reaches user 8's expense through a path naming user 7's budget; with `belongsToBudget` the same request answers 403 |
| BudgetRouter.Serve | src/routes/budgetRouter.ts:18-56 | a request the chain answers leaves both tables unchanged; no budget of another user is ever removed or replaced; with `belongsToBudget` no expense outside the caller's budgets is either |
| BudgetRouter.ServeBudgetRoute | src/routes/budgetRouter.ts:30-34 | the budget controllers on a passed context keep every other user's budget and every expense outside the caller's budgets |
| BudgetRouter.ServeExpenseRoute | src/routes/budgetRouter.ts:37-54 | the expense controllers never touch the budgets table, and with `belongsToBudget` keep every expense outside the caller's budgets |
| AuthController.Accounts.constructor | src/models/User.ts:17-45 | an empty users table with the serial at 1 satisfies the table constraints |
| AuthController.Accounts.CreateAccount | src/controllers/AuthController.ts:9-42 | a taken email answers 409 and adds nobody; a failing insert answers 500 and adds nobody; otherwise exactly one user is appended with the next id, the hashed password, the generated token and `confirmed` from the body (false by default), answering 201 |
| AuthController.Accounts.ConfirmAccount | src/controllers/AuthController.ts:44-61 | an unknown token answers 401 "Invalid token" with the table unchanged; otherwise only the token's holder becomes confirmed and loses the token, after which no user holds it |
| AuthController.Accounts.Login | src/controllers/AuthController.ts:63-95 | writes nothing; unknown email 404, then unconfirmed 403, then failing verification 401, otherwise 200 with the JWT of the user's id |
| AuthController.Accounts.ForgotPassword | src/controllers/AuthController.ts:97-120 | unknown email 404 with the table unchanged; otherwise only that user's token is replaced by the generated one, nobody's confirmation changes |
| AuthController.Accounts.ValidateToken | src/controllers/AuthController.ts:122-137 | writes nothing; 404 "Invalid token" exactly when nobody holds the token, otherwise 200 |
| AuthController.Accounts.ResetPasswordWithToken | src/controllers/AuthController.ts:139-160 | unknown token 404 with the table unchanged; otherwise only the holder's password becomes the hash of the new one and the token is cleared, after which no user holds it |
| AuthController.Accounts.UpdateCurrentUserPassword | src/controllers/AuthController.ts:166-187 | a current password that fails verification answers 401 with the table unchanged; otherwise only the caller's password becomes the new hash; a caller without a row answers 500 |
| AuthController.Accounts.CheckPassword | src/controllers/AuthController.ts:189-205 | writes nothing; 200 "Password is correct" if and only if the password verifies against the caller's hash, otherwise 401 |
| AuthController.SignUpConfirmLogin | src/controllers/AuthController.ts:53-90 | a new account's login answers 403 until its token confirms it, and then answers 200 with its JWT |
| AuthController.DuplicateSignUp | src/controllers/AuthController.ts:13-37 | a second sign-up with the same email answers 409 "A user with this email already exists" and the table keeps one account |
| AuthController.SelfConfirmedLogin | src/controllers/AuthController.ts:22 | a sign-up whose body carries `confirmed: true` logs in at once, without confirmation |
| AuthRouter.CreateAccountErrors | src/routes/authRouter.ts:14-18 | one error per failing independent check (name, password length >= 8, email); none exactly when all pass |
| AuthRouter.ConfirmAccountErrors | src/routes/authRouter.ts:26-28 | no error exactly for a token of six characters; otherwise the single "Invalid token format" |
| AuthRouter.LoginErrors | src/routes/authRouter.ts:35-36 | one error per failing check of email and non-empty password |
| AuthRouter.ForgotPasswordErrors | src/routes/authRouter.ts:43 | no error exactly when the email is valid |
| AuthRouter.TokenErrors | src/routes/authRouter.ts:50-54 | two errors for an empty token, none for six characters, one otherwise, all on `token` |
| AuthRouter.ValidateTokenErrors | src/routes/authRouter.ts:49-57 | no error exactly for a six-character body token |
| AuthRouter.ResetPasswordErrors | src/routes/authRouter.ts:61-68 | no error exactly for a six-character path token and a new password of at least eight characters |
| AuthRouter.UpdatePasswordErrors | src/routes/authRouter.ts:78-83 | no error exactly when the current password is given and the new one has at least eight characters |
| AuthRouter.CheckPasswordErrors | src/routes/authRouter.ts:90 | no error exactly when the password is non-empty |
| AuthRouter.EmptyBodyErrors | src/routes/authRouter.ts:14-36 | an empty body draws three errors at create-account and two at login |
| AuthRouter.CreateAccountSingleError | src/routes/authRouter.ts:14-18 | with a name given, a short password alone or an invalid email alone yields exactly its own error |
| AuthRouter.Serve | src/routes/authRouter.ts:12-93 | `update-password` and `check-password` answer 401 before validating; any validation error answers 400 with all errors and leaves the table unchanged; a request that passes both has exactly its handler's outcome (`Handled`: answer and new table, as the `Accounts` method states) on the validated fields; login, token check and password check never write; at most one account is added, only by create-account; only confirm-account confirms an existing account; a new account is confirmed only when the body asks and `bodyMayConfirm` holds |
| AuthRouter.Dispatch | src/routes/authRouter.ts:20-92 | the handler of a validated request has exactly that handler's outcome, keeps the table constraints and changes confirmation only as `Serve` states |
| AuthRouter.SelfConfirmationIgnored | src/models/User.ts:41-45 | with the body's `confirmed` kept from `User.create`, a sign-up sending `confirmed: true` is created (201) and its login answers 403 "Account not confirmed" |

## Left out

- `authenticate` (middleware/auth) is not part of this model. Reading the `Authorization` header and verifying the JWT become an optional caller id, and the 500 a malformed JWT draws is not modelled.
- `handleInputErrors` (middleware/validations) is not part of this model. Only its outcome is modelled: 400 with every recorded error.
- Hashing, password verification, token generation and JWT signing (utils/auth, utils/token, utils/jwt) are not part of this model. They are function values or parameters. A generated token is assumed to be held by nobody, although a random six-digit token could collide.
- `isEmail` is a predicate parameter. Only `!isEmail("")` is assumed, by `AuthRouter.EmptyBodyErrors`.
- `GET /auth/user` (`AuthController.user`) only echoes the user that `authenticate` attached, so it is not modelled.
- `PUT /auth/update-profile` refers to `AuthController.updateProfile`, which does not exist, so it is not modelled.
- Rate limiting (config/limiter) is library configuration and is not modelled.
- Email sending and the test-only `globalThis` token capture are I/O and test scaffolding.
- Database connection, sync and seeding are not modelled.
- Storage failure is one flag per request. A run where a lookup succeeds and a later save fails is not modelled, for example `User.create` followed by a failing `save()`, which would leave a plaintext password stored.
- `AuthController.Accounts.CreateAccount`: the `findOne` of `createAccount` runs outside the `try`. The model does not model its failure, which in the code would escape the handler.
- Sequelize's coercion of non-integer path text in `findByPk` is not modelled. Such text finds no row in the model.
- `Store.FindBudget`, `Store.FindExpense`: the id column's integer width is not modelled. A path id such as `99999999999` passes `isInt` and `> 0`, and the database would reject it as out of range, a 500 from `validateBudgetExists` or `validateExpenseExists`. Path ids are unbounded in the model, so such an id finds no row and answers 404.
- DECIMAL amounts are kept as the submitted decimal text. The custom check `value > 0` runs on every amount, since nothing bails before it. On decimal text the model decides it numerically. On any other text, JavaScript's coercion to a number is not modelled: its result is the body's `amountAboveZero`.
- Column lengths (`STRING(50)`, `STRING(6)`, ...) are not enforced.
- Foreign-key constraints are not modelled. The database would refuse an update whose body moves a budget to a non-existent user, or an expense to a non-existent budget; the merge accepts it.
- `BudgetController.Create`, `ExpenseController.Create`: `Budget.create(req.body)` and `Expense.create(req.body)` insert the body's `userId` or `budgetId` before the controller overwrites it with the caller's or the resolved budget's id. A body naming no such row would fail the insert's foreign key and answer 500. Without foreign keys the model creates the row.
- Ids, `createdAt` and `updatedAt` sent in a body are not modelled. Rows always take the serial id and the clock.
- Deleting users (and that cascade) has no route and is not modelled.
- Concurrency between requests is not modelled.
- `BudgetRouter.Serve`: its contract states what a request may not touch, not every controller's response. The controllers' own contracts state those.

## Findings

| source | as written | input that shows it | evidently intended | confidence | as-written member | corrected member |
|---|---|---|---|---|---|---|
| src/routes/budgetRouter.ts:26-27 | `belongsToBudget` is never registered, so an expense route serves, updates or deletes any existing expense, whichever budget it hangs off, as long as the path's budget is the caller's | user 7 owns budget 1, user 8 owns budget 2, expense 1 belongs to budget 2; user 7 sends `GET /api/budgets/1/expenses/1` | 403 "Invalid Action" unless the expense's `budgetId` is the resolved budget's id (src/middleware/expense.ts:69-80) | high; not executed | BudgetRouter.CrossBudgetExpenseServed | BudgetRouter.CheckedChainServesOnlyOwnExpenses |
| src/controllers/AuthController.ts:22 | `User.create(req.body)` copies `confirmed` from the sign-up body, so an account can skip email confirmation | `POST /api/auth/create-account` with a name, a valid email, an 8-character password and `confirmed: true`, then `POST /api/auth/login` with the same credentials: 200 with a JWT | every new account starts unconfirmed and logs in only after confirm-account | medium; not executed | AuthController.SelfConfirmedLogin | AuthRouter.SelfConfirmationIgnored |
