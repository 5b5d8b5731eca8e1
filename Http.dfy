/** What a handler sends back: a status code and one of the JSON bodies the
    controllers and middleware produce. */
module Http {
  import opened Models

  /** Where express-validator found the offending value. */
  datatype Location = InBody | InParams

  /** One entry of the `errors` array of a 400 response. */
  datatype FieldError = FieldError(location: Location, path: string, msg: string)

  datatype Payload =
    | ErrorObject(error: string)          // { error: "..." }
    | MessageObject(message: string)      // { message: "..." }
    | ErrorList(errors: seq<FieldError>)  // { errors: [...] }
    | JsonText(text: string)              // a bare JSON string
    | BudgetList(budgets: seq<Budget>)
    | BudgetWithExpenses(budget: Budget, expenses: seq<Expense>)
    | ExpenseRecord(expense: Expense)

  datatype Response = Response(status: int, payload: Payload)

  /** `res.json(x)` without `res.status(...)` answers 200. */
  const OK := 200
}
