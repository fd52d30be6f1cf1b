/** The HTTP handlers (server/routes.ts) and the token check in front of the protected ones
    (server/middleware/auth.ts): how a validation outcome, a storage outcome and a password
    outcome become a status code and a response body. Every protected handler receives the
    user id that `Authenticate` produced. Password hashing, token signing and token
    verification are parameters; the fresh id `randomUUID()` would give and the clock are
    parameters of the handlers that use them. */
module Routes {
  import opened Wrappers
  import opened Calendar
  import opened Schema
  import opened Sequences
  import opened Grouping
  import opened Storage
  import opened Aggregation

  /** The JSON a handler sends back. */
  datatype Payload =
    | Message(text: string)
    | InvalidInput(errors: seq<string>)
    | Session(user: PublicUser, token: string)
    | Profile(user: PublicUser)
    | ExpenseRecord(expense: Expense)
    | ExpenseRecords(expenses: seq<Expense>)
    | BudgetRecord(budget: Budget)
    | BudgetRecords(budgets: seq<Budget>)
    | Summary(stats: StatsSummary)
    | Insights(analytics: AnalyticsSummary)

  datatype Response = Response(status: int, body: Payload)

  /** `const { password: _, ...userWithoutPassword } = user`: every field but the password. */
  function WithoutPassword(u: User): (p: PublicUser)
    ensures p.id == u.id && p.email == u.email && p.name == u.name && p.createdAt == u.createdAt
  {
    PublicUser(u.id, u.email, u.name, u.createdAt)
  }

  /** Two accounts look the same to a client exactly when they differ at most in their
      password: the response carries nothing of the password. */
  lemma PasswordOnlyHidden(u: User, v: User)
    ensures WithoutPassword(u) == WithoutPassword(v) <==> u.(password := v.password) == v
  {
  }

  // ---------------------------------------------------------------------------
  // The token check

  datatype Authentication = Authenticated(userId: string) | Rejected(response: Response)

  /** `authenticateToken`: no token cookie (or an empty one) is 401, a token `verify`
      refuses is 403, otherwise the request goes on as the user the token names. */
  function Authenticate(token: Option<string>, verify: string -> Option<string>): (a: Authentication)
    ensures a.Rejected? && a.response.status == 401 <==> token.None? || token.value == ""
    ensures a.Rejected? && a.response.status == 403 <==> token.Some? && token.value != "" && verify(token.value).None?
    ensures a.Authenticated? <==> token.Some? && token.value != "" && verify(token.value).Some?
    ensures a.Authenticated? ==> a.userId == verify(token.value).value
  {
    if token.None? || token.value == "" then Rejected(Response(401, Message("Authentication required")))
    else match verify(token.value)
      case None => Rejected(Response(403, Message("Invalid or expired token")))
      case Some(userId) => Authenticated(userId)
  }

  // ---------------------------------------------------------------------------
  // Accounts

  /** No two stored users share an email address. */
  ghost predicate UniqueEmails(users: map<string, User>)
  {
    forall a, b :: a in users && b in users && users[a].email == users[b].email ==> a == b
  }

  /** `POST /api/auth/register`: an invalid body is 400 with the failing fields; an email
      already in use is 400 and stores nothing; otherwise the user is stored with the hashed
      password and the response is 201 with the user, without the password, and a token. */
  method Register(store: MemStorage, body: Body, isEmail: string -> bool, hash: string -> string,
                  sign: string -> string, id: string, now: Date) returns (res: Response)
    requires store.Valid() && id !in store.users
    modifies store
    ensures store.Valid()
    ensures ParseRegister(body, isEmail).Err? ==>
      res == Response(400, InvalidInput(ParseRegister(body, isEmail).errors)) && unchanged(store)
    ensures ParseRegister(body, isEmail).Ok?
            && old(store.GetUserByEmail(ParseRegister(body, isEmail).value.email)).Some? ==>
      res == Response(400, Message("Email already in use")) && unchanged(store)
    ensures res.status == 201 <==>
      ParseRegister(body, isEmail).Ok?
      && forall u :: u in old(store.users).Values ==> u.email != ParseRegister(body, isEmail).value.email
    ensures res.status == 201 ==>
      var data := ParseRegister(body, isEmail).value;
      var u := User(id, data.email, hash(data.password), data.name, now);
      && res.body == Session(WithoutPassword(u), sign(id))
      && store.users == old(store.users)[id := u] && store.userOrder == old(store.userOrder) + [id]
      && store.expenses == old(store.expenses) && store.expenseOrder == old(store.expenseOrder)
      && store.budgets == old(store.budgets) && store.budgetOrder == old(store.budgetOrder)
    ensures old(UniqueEmails(store.users)) ==> UniqueEmails(store.users)
  {
    ghost var before := store.users;
    var parsed := ParseRegister(body, isEmail);
    if parsed.Err? {
      return Response(400, InvalidInput(parsed.errors));
    }
    var data := parsed.value;
    var existing := store.GetUserByEmail(data.email);
    if existing.Some? {
      return Response(400, Message("Email already in use"));
    }
    var user := store.CreateUser(NewUser(data.email, hash(data.password), data.name), id, now);
    res := Response(201, Session(WithoutPassword(user), sign(user.id)));
    if UniqueEmails(before) {
      AddingUnusedEmailKeepsUnique(before, id, user);
    }
  }

  lemma AddingUnusedEmailKeepsUnique(users: map<string, User>, id: string, u: User)
    requires UniqueEmails(users) && id !in users
    requires forall v :: v in users.Values ==> v.email != u.email
    ensures UniqueEmails(users[id := u])
  {
  }

  /** `POST /api/auth/login`: an invalid body is 400; an unknown email and a wrong password
      both give the same 401 and the same message, so a caller cannot tell which; otherwise
      200 with the user, without the password, and a token for the user's id. */
  function Login(store: MemStorage, body: Body, isEmail: string -> bool, compare: (string, string) -> bool,
                 sign: string -> string): (res: Response)
    reads store
    requires store.Valid()
    ensures ParseLogin(body, isEmail).Err? ==> res == Response(400, InvalidInput(ParseLogin(body, isEmail).errors))
    ensures res.status == 401 ==> res.body == Message("Invalid email or password")
    ensures ParseLogin(body, isEmail).Ok?
            && (forall u :: u in store.users.Values ==> u.email != ParseLogin(body, isEmail).value.email) ==>
      res.status == 401
    ensures res.status == 200 ==>
      exists u :: u in store.users.Values && u.email == ParseLogin(body, isEmail).value.email
        && compare(ParseLogin(body, isEmail).value.password, u.password)
        && res.body == Session(WithoutPassword(u), sign(u.id))
    ensures res.status in {200, 400, 401}
    ensures ParseLogin(body, isEmail).Ok? ==> res.status != 400
    ensures var p := ParseLogin(body, isEmail);
      p.Ok? && store.GetUserByEmail(p.value.email).Some?
      && !compare(p.value.password, store.GetUserByEmail(p.value.email).value.password) ==>
      res == Response(401, Message("Invalid email or password"))
    ensures var p := ParseLogin(body, isEmail);
      p.Ok? && store.GetUserByEmail(p.value.email).Some?
      && compare(p.value.password, store.GetUserByEmail(p.value.email).value.password) ==>
      var u := store.GetUserByEmail(p.value.email).value;
      res == Response(200, Session(WithoutPassword(u), sign(u.id)))
  {
    var parsed := ParseLogin(body, isEmail);
    if parsed.Err? then Response(400, InvalidInput(parsed.errors))
    else
      var user := store.GetUserByEmail(parsed.value.email);
      if user.None? then Response(401, Message("Invalid email or password"))
      else if !compare(parsed.value.password, user.value.password) then Response(401, Message("Invalid email or password"))
      else Response(200, Session(WithoutPassword(user.value), sign(user.value.id)))
  }

  /** A wrong password for a stored account gets exactly the response an address with no
      account gets: the login route does not reveal which addresses have accounts. */
  lemma WrongPasswordLooksLikeUnknownEmail(store: MemStorage, other: MemStorage, body: Body, isEmail: string -> bool,
                                           compare: (string, string) -> bool, sign: string -> string)
    requires store.Valid() && other.Valid() && ParseLogin(body, isEmail).Ok?
    requires var c := ParseLogin(body, isEmail).value;
      && store.GetUserByEmail(c.email).Some? && !compare(c.password, store.GetUserByEmail(c.email).value.password)
      && other.GetUserByEmail(c.email).None?
    ensures Login(store, body, isEmail, compare, sign) == Login(other, body, isEmail, compare, sign)
  {
  }

  /** `GET /api/auth/me`: the caller's own account, without the password, or 404. */
  function Me(store: MemStorage, userId: string): (res: Response)
    reads store
    ensures res.status == 404 <==> userId !in store.users
    ensures res.status == 200 <==> userId in store.users
    ensures res.status == 200 ==> res.body == Profile(WithoutPassword(store.users[userId]))
  {
    match store.GetUser(userId)
    case None => Response(404, Message("User not found"))
    case Some(u) => Response(200, Profile(WithoutPassword(u)))
  }

  // ---------------------------------------------------------------------------
  // Expenses

  /** `GET /api/expenses`: exactly the caller's expenses, newest first. */
  function ListExpenses(store: MemStorage, userId: string): (res: Response)
    reads store
    requires store.Valid()
    ensures res.status == 200 && res.body.ExpenseRecords?
    ensures forall e :: e in res.body.expenses <==> e in store.expenses.Values && e.userId == userId
    ensures multiset(res.body.expenses) == multiset(OwnExpenses(store, userId))
    ensures SortedDesc(res.body.expenses, ExpenseDateKey)
  {
    Response(200, ExpenseRecords(store.GetExpenses(userId)))
  }

  /** `GET /api/expenses/:id`: 404 unless the expense exists and is the caller's. */
  function ShowExpense(store: MemStorage, id: string, userId: string): (res: Response)
    reads store
    ensures res.status == 404 <==> id !in store.expenses || store.expenses[id].userId != userId
    ensures res.status != 404 ==> res == Response(200, ExpenseRecord(store.expenses[id]))
  {
    match store.GetExpense(id, userId)
    case None => Response(404, Message("Expense not found"))
    case Some(e) => Response(200, ExpenseRecord(e))
  }

  /** `POST /api/expenses`: 400 with the failing fields and nothing stored, or 201 with the
      new expense, owned by the caller. */
  method AddExpense(store: MemStorage, body: Body, userId: string, id: string, now: Date) returns (res: Response)
    requires store.Valid() && id !in store.expenses
    modifies store
    ensures store.Valid()
    ensures ParseExpense(body).Err? ==> res == Response(400, InvalidInput(ParseExpense(body).errors)) && unchanged(store)
    ensures ParseExpense(body).Ok? ==>
      var data := ParseExpense(body).value;
      var e := Expense(id, userId, data.title, data.amount, data.category, data.description, data.date, data.tags, now);
      && res == Response(201, ExpenseRecord(e))
      && store.expenses == old(store.expenses)[id := e] && store.expenseOrder == old(store.expenseOrder) + [id]
      && store.users == old(store.users) && store.userOrder == old(store.userOrder)
      && store.budgets == old(store.budgets) && store.budgetOrder == old(store.budgetOrder)
  {
    var parsed := ParseExpense(body);
    if parsed.Err? {
      return Response(400, InvalidInput(parsed.errors));
    }
    var e := store.CreateExpense(parsed.value, userId, id, now);
    res := Response(201, ExpenseRecord(e));
  }

  /** `PUT /api/expenses/:id`: 400 for an invalid body and 404 for an expense that is not
      the caller's, both changing nothing; otherwise 200 with the supplied fields replaced. */
  method EditExpense(store: MemStorage, body: Body, id: string, userId: string) returns (res: Response)
    requires store.Valid()
    modifies store
    ensures store.Valid()
    ensures ParseExpensePatch(body).Err? ==>
      res == Response(400, InvalidInput(ParseExpensePatch(body).errors)) && unchanged(store)
    ensures ParseExpensePatch(body).Ok? && old(store.GetExpense(id, userId)).None? ==>
      res == Response(404, Message("Expense not found")) && unchanged(store)
    ensures ParseExpensePatch(body).Ok? && old(store.GetExpense(id, userId)).Some? ==>
      var updated := ApplyExpensePatch(old(store.expenses[id]), ParseExpensePatch(body).value);
      && res == Response(200, ExpenseRecord(updated))
      && store.expenses == old(store.expenses)[id := updated] && store.expenseOrder == old(store.expenseOrder)
      && store.users == old(store.users) && store.userOrder == old(store.userOrder)
      && store.budgets == old(store.budgets) && store.budgetOrder == old(store.budgetOrder)
  {
    var parsed := ParseExpensePatch(body);
    if parsed.Err? {
      return Response(400, InvalidInput(parsed.errors));
    }
    var updated := store.UpdateExpense(id, userId, parsed.value);
    if updated.None? {
      return Response(404, Message("Expense not found"));
    }
    res := Response(200, ExpenseRecord(updated.value));
  }

  /** `DELETE /api/expenses/:id`: 404 and nothing removed unless the expense is the caller's. */
  method RemoveExpense(store: MemStorage, id: string, userId: string) returns (res: Response)
    requires store.Valid()
    modifies store
    ensures store.Valid()
    ensures res.status == 404 <==> old(store.GetExpense(id, userId)).None?
    ensures res.status == 404 ==> unchanged(store)
    ensures res.status != 404 ==>
      && res == Response(200, Message("Expense deleted successfully"))
      && store.expenses == old(store.expenses) - {id} && store.expenseOrder == Remove(old(store.expenseOrder), id)
      && store.users == old(store.users) && store.userOrder == old(store.userOrder)
      && store.budgets == old(store.budgets) && store.budgetOrder == old(store.budgetOrder)
  {
    var deleted := store.DeleteExpense(id, userId);
    if !deleted {
      return Response(404, Message("Expense not found"));
    }
    res := Response(200, Message("Expense deleted successfully"));
  }

  // ---------------------------------------------------------------------------
  // Summaries

  /** The caller's stored expenses, in insertion order. */
  function OwnExpenses(store: MemStorage, userId: string): seq<Expense>
    reads store
    requires store.Valid()
  {
    Filter(store.ExpenseList(), ExpenseOwnedBy, userId)
  }

  /** `GET /api/expenses/stats/summary`: the statistics of the caller's expenses. The totals
      are those of the caller's stored expenses, whatever order the listing puts them in. */
  method StatsSummaryHandler(store: MemStorage, userId: string, now: Date) returns (res: Response)
    requires store.Valid() && 1 <= now.month <= 12
    ensures res.status == 200 && res.body.Summary?
    ensures res.body.stats.totalSpent == SumBy(OwnExpenses(store, userId), ExpenseAmount)
    ensures res.body.stats.totalExpenses == |OwnExpenses(store, userId)|
    ensures SumBy(res.body.stats.categoryBreakdown, EntryTotal) == res.body.stats.totalSpent
    ensures res.body.stats.categoryBreakdown == Groups(store.GetExpenses(userId), ExpenseCategory, ExpenseAmount)
    ensures BreakdownOf(res.body.stats.categoryBreakdown, OwnExpenses(store, userId))
  {
    var expenses := store.GetExpenses(userId);
    var stats := Stats(expenses, now);
    SumByPermutation(expenses, OwnExpenses(store, userId), ExpenseAmount);
    PermutationSameLength(expenses, OwnExpenses(store, userId));
    BreakdownOfReordering(expenses, OwnExpenses(store, userId));
    res := Response(200, Summary(stats));
  }

  /** `GET /api/analytics/summary`: total, average and top category of the caller's expenses. */
  method AnalyticsSummaryHandler(store: MemStorage, userId: string) returns (res: Response)
    requires store.Valid()
    ensures res.status == 200 && res.body.Insights?
    ensures res.body.analytics.totalSpent == SumBy(OwnExpenses(store, userId), ExpenseAmount)
    ensures res.body.analytics.topCategory == "N/A" <==> OwnExpenses(store, userId) == []
    ensures AverageOver(res.body.analytics, OwnExpenses(store, userId))
    ensures OwnExpenses(store, userId) == [] ==> res.body.analytics.averageExpense == 0.0
    ensures res.body.analytics.topCategory == TopCategory(Groups(store.GetExpenses(userId), ExpenseCategory, ExpenseAmount))
    ensures IsLargestCategory(res.body.analytics.topCategory, OwnExpenses(store, userId))
  {
    var expenses := store.GetExpenses(userId);
    var analytics := Analytics(expenses);
    var own := OwnExpenses(store, userId);
    TopCategoryOfReordering(expenses, own);
    SumByPermutation(expenses, own, ExpenseAmount);
    PermutationSameLength(expenses, own);
    res := Response(200, Insights(analytics));
  }

  /** `averageExpense` is the mean amount of `es`: times their number, it gives the total. */
  predicate AverageOver(a: AnalyticsSummary, es: seq<Expense>)
  {
    es != [] ==> a.averageExpense == Mean(a.totalSpent, |es| as real)
  }

  // ---------------------------------------------------------------------------
  // Budgets

  /** The caller's stored budgets, in insertion order. */
  function OwnBudgets(store: MemStorage, userId: string): seq<Budget>
    reads store
    requires store.Valid()
  {
    Filter(store.BudgetList(), BudgetOwnedBy, userId)
  }

  /** `GET /api/budgets`: exactly the caller's budgets, latest month first. */
  function ListBudgets(store: MemStorage, userId: string): (res: Response)
    reads store
    requires store.Valid()
    ensures res.status == 200 && res.body.BudgetRecords?
    ensures forall b :: b in res.body.budgets <==> b in store.budgets.Values && b.userId == userId
    ensures multiset(res.body.budgets) == multiset(OwnBudgets(store, userId))
    ensures SortedDesc(res.body.budgets, BudgetMonthKey)
  {
    Response(200, BudgetRecords(store.GetBudgets(userId)))
  }

  /** `GET /api/budgets/:id`: 404 unless the budget exists and is the caller's. */
  function ShowBudget(store: MemStorage, id: string, userId: string): (res: Response)
    reads store
    ensures res.status == 404 <==> id !in store.budgets || store.budgets[id].userId != userId
    ensures res.status != 404 ==> res == Response(200, BudgetRecord(store.budgets[id]))
  {
    match store.GetBudget(id, userId)
    case None => Response(404, Message("Budget not found"))
    case Some(b) => Response(200, BudgetRecord(b))
  }

  /** `POST /api/budgets`: 400 with the failing fields and nothing stored, or 201 with the
      new budget, owned by the caller. */
  method AddBudget(store: MemStorage, body: Body, userId: string, id: string, now: Date) returns (res: Response)
    requires store.Valid() && id !in store.budgets
    modifies store
    ensures store.Valid()
    ensures ParseBudget(body).Err? ==> res == Response(400, InvalidInput(ParseBudget(body).errors)) && unchanged(store)
    ensures ParseBudget(body).Ok? ==>
      var data := ParseBudget(body).value;
      var b := Budget(id, userId, data.category, data.amount, data.month, now);
      && res == Response(201, BudgetRecord(b))
      && store.budgets == old(store.budgets)[id := b] && store.budgetOrder == old(store.budgetOrder) + [id]
      && store.users == old(store.users) && store.userOrder == old(store.userOrder)
      && store.expenses == old(store.expenses) && store.expenseOrder == old(store.expenseOrder)
  {
    var parsed := ParseBudget(body);
    if parsed.Err? {
      return Response(400, InvalidInput(parsed.errors));
    }
    var b := store.CreateBudget(parsed.value, userId, id, now);
    res := Response(201, BudgetRecord(b));
  }

  /** `PUT /api/budgets/:id`: 400 for an invalid body and 404 for a budget that is not the
      caller's, both changing nothing; otherwise 200 with the supplied fields replaced. */
  method EditBudget(store: MemStorage, body: Body, id: string, userId: string) returns (res: Response)
    requires store.Valid()
    modifies store
    ensures store.Valid()
    ensures ParseBudgetPatch(body).Err? ==>
      res == Response(400, InvalidInput(ParseBudgetPatch(body).errors)) && unchanged(store)
    ensures ParseBudgetPatch(body).Ok? && old(store.GetBudget(id, userId)).None? ==>
      res == Response(404, Message("Budget not found")) && unchanged(store)
    ensures ParseBudgetPatch(body).Ok? && old(store.GetBudget(id, userId)).Some? ==>
      var updated := ApplyBudgetPatch(old(store.budgets[id]), ParseBudgetPatch(body).value);
      && res == Response(200, BudgetRecord(updated))
      && store.budgets == old(store.budgets)[id := updated] && store.budgetOrder == old(store.budgetOrder)
      && store.users == old(store.users) && store.userOrder == old(store.userOrder)
      && store.expenses == old(store.expenses) && store.expenseOrder == old(store.expenseOrder)
  {
    var parsed := ParseBudgetPatch(body);
    if parsed.Err? {
      return Response(400, InvalidInput(parsed.errors));
    }
    var updated := store.UpdateBudget(id, userId, parsed.value);
    if updated.None? {
      return Response(404, Message("Budget not found"));
    }
    res := Response(200, BudgetRecord(updated.value));
  }

  /** `DELETE /api/budgets/:id`: 404 and nothing removed unless the budget is the caller's. */
  method RemoveBudget(store: MemStorage, id: string, userId: string) returns (res: Response)
    requires store.Valid()
    modifies store
    ensures store.Valid()
    ensures res.status == 404 <==> old(store.GetBudget(id, userId)).None?
    ensures res.status == 404 ==> unchanged(store)
    ensures res.status != 404 ==>
      && res == Response(200, Message("Budget deleted successfully"))
      && store.budgets == old(store.budgets) - {id} && store.budgetOrder == Remove(old(store.budgetOrder), id)
      && store.users == old(store.users) && store.userOrder == old(store.userOrder)
      && store.expenses == old(store.expenses) && store.expenseOrder == old(store.expenseOrder)
  {
    var deleted := store.DeleteBudget(id, userId);
    if !deleted {
      return Response(404, Message("Budget not found"));
    }
    res := Response(200, Message("Budget deleted successfully"));
  }
}
