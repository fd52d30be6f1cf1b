/** The in-memory store (server/storage.ts, `MemStorage`): three keyed maps of users,
    expenses and budgets. Every read, update and delete of an expense or a budget is
    scoped to its owning user; updates merge a partial record onto the stored one;
    listings are one user's records, newest first.

    A JavaScript `Map` iterates in insertion order, which decides both which user `find`
    returns and the order of records with equal dates after the (stable) sort, so each map
    is kept together with the order in which its keys were inserted. Fresh ids
    (`randomUUID()`) and the clock (`new Date()`) are parameters of the methods that use them. */
module Storage {
  import opened Wrappers
  import opened Calendar
  import opened Schema
  import opened Sequences

  /** `order` lists the keys of `m` once each, in insertion order, and every record is
      stored under its own id. */
  ghost predicate KeyedInOrder<V>(m: map<string, V>, order: seq<string>, id: V -> string)
  {
    && Distinct(order)
    && (forall k :: k in m <==> k in order)
    && (forall k :: k in m ==> id(m[k]) == k)
  }

  /** `Array.from(m.values())`. */
  function InOrder<V(==)>(m: map<string, V>, order: seq<string>): (r: seq<V>)
    requires forall k :: k in order ==> k in m
    ensures |r| == |order|
    ensures forall v :: v in r ==> v in m.Values
  {
    seq(|order|, i requires 0 <= i < |order| => m[order[i]])
  }

  lemma InOrderHoldsValues<V>(m: map<string, V>, order: seq<string>, id: V -> string)
    requires KeyedInOrder(m, order, id)
    ensures forall v :: v in InOrder(m, order) <==> v in m.Values
  {
    forall v | v in m.Values
      ensures v in InOrder(m, order)
    {
      var k :| k in m && m[k] == v;
      var i :| 0 <= i < |order| && order[i] == k;
      assert InOrder(m, order)[i] == v;
    }
  }

  /** `order` without `x`: what `Map.delete` does to the iteration order. */
  function Remove(s: seq<string>, x: string): (r: seq<string>)
    ensures forall k :: k in r <==> k in s && k != x
    ensures Distinct(s) ==> Distinct(r)
  {
    if s == [] then []
    else if s[0] == x then Remove(s[1..], x)
    else
      var rest := Remove(s[1..], x);
      assert forall k :: k in s <==> k == s[0] || k in s[1..];
      if Distinct(s) then
        assert s[0] !in s[1..] by {
          forall i | 0 <= i < |s[1..]| ensures s[1..][i] != s[0] { assert s[1..][i] == s[i + 1]; }
        }
        assert Distinct(s[1..]) by {
          forall i, j | 0 <= i < j < |s[1..]| ensures s[1..][i] != s[1..][j] { assert s[1..][i] == s[i + 1] && s[1..][j] == s[j + 1]; }
        }
        assert forall j :: 0 < j < |[s[0]] + rest| ==> ([s[0]] + rest)[j] in rest;
        [s[0]] + rest
      else
        [s[0]] + rest
  }

  function UserId(u: User): string { u.id }
  function ExpenseId(e: Expense): string { e.id }
  function BudgetId(b: Budget): string { b.id }

  predicate ExpenseOwnedBy(e: Expense, userId: string) { e.userId == userId }
  predicate BudgetOwnedBy(b: Budget, userId: string) { b.userId == userId }

  /** Sort keys: `new Date(e.date).getTime()` and `new Date(b.month).getTime()`. */
  function ExpenseDateKey(e: Expense): real { DateOrdinal(e.date) as real }
  function BudgetMonthKey(b: Budget): real { DateOrdinal(b.month) as real }

  /** `Array.from(users.values()).find(u => u.email === email)`: the first user, in
      insertion order, with that email. */
  function FindByEmail(us: seq<User>, email: string): (r: Option<User>)
    ensures r.None? <==> forall i :: 0 <= i < |us| ==> us[i].email != email
    ensures r.Some? ==> exists i :: 0 <= i < |us| && us[i] == r.value && r.value.email == email
                                    && forall j :: 0 <= j < i ==> us[j].email != email
  {
    if us == [] then None
    else if us[0].email == email then Some(us[0])
    else
      var r := FindByEmail(us[1..], email);
      assert forall i :: 0 < i < |us| ==> us[i] == us[1..][i - 1];
      r
  }

  /** `{ ...expense, ...expenseData }`: the supplied fields replace the stored ones. */
  function ApplyExpensePatch(e: Expense, p: ExpensePatch): (r: Expense)
    ensures r.id == e.id && r.userId == e.userId && r.createdAt == e.createdAt
    ensures p.title.Some? ==> r.title == p.title.value
    ensures p.title.None? ==> r.title == e.title
    ensures p.amount.Some? ==> r.amount == p.amount.value
    ensures p.amount.None? ==> r.amount == e.amount
    ensures p.category.Some? ==> r.category == p.category.value
    ensures p.category.None? ==> r.category == e.category
    ensures p.description.Some? ==> r.description == p.description.value
    ensures p.description.None? ==> r.description == e.description
    ensures p.date.Some? ==> r.date == p.date.value
    ensures p.date.None? ==> r.date == e.date
    ensures p.tags.Some? ==> r.tags == Some(p.tags.value)
    ensures p.tags.None? ==> r.tags == e.tags
  {
    Expense(
      e.id, e.userId,
      if p.title.Some? then p.title.value else e.title,
      if p.amount.Some? then p.amount.value else e.amount,
      if p.category.Some? then p.category.value else e.category,
      if p.description.Some? then p.description.value else e.description,
      if p.date.Some? then p.date.value else e.date,
      if p.tags.Some? then Some(p.tags.value) else e.tags,
      e.createdAt)
  }

  /** `{ ...budget, ...budgetData }`. */
  function ApplyBudgetPatch(b: Budget, p: BudgetPatch): (r: Budget)
    ensures r.id == b.id && r.userId == b.userId && r.createdAt == b.createdAt
    ensures p.category.Some? ==> r.category == p.category.value
    ensures p.category.None? ==> r.category == b.category
    ensures p.amount.Some? ==> r.amount == p.amount.value
    ensures p.amount.None? ==> r.amount == b.amount
    ensures p.month.Some? ==> r.month == p.month.value
    ensures p.month.None? ==> r.month == b.month
  {
    Budget(
      b.id, b.userId,
      if p.category.Some? then p.category.value else b.category,
      if p.amount.Some? then p.amount.value else b.amount,
      if p.month.Some? then p.month.value else b.month,
      b.createdAt)
  }

  /** Applying the same update twice is applying it once; the empty update changes nothing. */
  lemma PatchIdempotent(e: Expense, p: ExpensePatch, b: Budget, q: BudgetPatch)
    ensures ApplyExpensePatch(ApplyExpensePatch(e, p), p) == ApplyExpensePatch(e, p)
    ensures ApplyExpensePatch(e, ExpensePatch(None, None, None, None, None, None)) == e
    ensures ApplyBudgetPatch(ApplyBudgetPatch(b, q), q) == ApplyBudgetPatch(b, q)
    ensures ApplyBudgetPatch(b, BudgetPatch(None, None, None)) == b
  {
  }

  class MemStorage {
    var users: map<string, User>
    var userOrder: seq<string>
    var expenses: map<string, Expense>
    var expenseOrder: seq<string>
    var budgets: map<string, Budget>
    var budgetOrder: seq<string>

    ghost predicate Valid()
      reads this
    {
      && KeyedInOrder(users, userOrder, UserId)
      && KeyedInOrder(expenses, expenseOrder, ExpenseId)
      && KeyedInOrder(budgets, budgetOrder, BudgetId)
    }

    constructor ()
      ensures Valid()
      ensures users == map[] && expenses == map[] && budgets == map[]
      ensures userOrder == [] && expenseOrder == [] && budgetOrder == []
    {
      users, userOrder := map[], [];
      expenses, expenseOrder := map[], [];
      budgets, budgetOrder := map[], [];
    }

    function UserList(): seq<User>
      reads this
      requires Valid()
    {
      InOrder(users, userOrder)
    }

    function ExpenseList(): seq<Expense>
      reads this
      requires Valid()
    {
      InOrder(expenses, expenseOrder)
    }

    function BudgetList(): seq<Budget>
      reads this
      requires Valid()
    {
      InOrder(budgets, budgetOrder)
    }

    /** `users.get(id)` */
    function GetUser(id: string): (r: Option<User>)
      reads this
      ensures r.Some? <==> id in users
      ensures r.Some? ==> r.value == users[id]
    {
      if id in users then Some(users[id]) else None
    }

    /** The first user, in insertion order, registered with `email`; none if no user has it. */
    function GetUserByEmail(email: string): (r: Option<User>)
      reads this
      requires Valid()
      ensures r.None? <==> forall u :: u in users.Values ==> u.email != email
      ensures r.Some? ==> r.value in users.Values && r.value.email == email
    {
      InOrderHoldsValues(users, userOrder, UserId);
      FindByEmail(UserList(), email)
    }

    /** Stores a user under a fresh id. Email uniqueness is the caller's business. */
    method CreateUser(data: NewUser, id: string, now: Date) returns (u: User)
      requires Valid()
      requires id !in users
      modifies this
      ensures Valid()
      ensures u == User(id, data.email, data.password, data.name, now)
      ensures users == old(users)[id := u] && userOrder == old(userOrder) + [id]
      ensures expenses == old(expenses) && expenseOrder == old(expenseOrder)
      ensures budgets == old(budgets) && budgetOrder == old(budgetOrder)
      ensures GetUser(id) == Some(u)
    {
      u := User(id, data.email, data.password, data.name, now);
      users := users[id := u];
      userOrder := userOrder + [id];
    }

    /** One user's expenses, newest first; equal dates stay in insertion order. */
    function GetExpenses(userId: string): (r: seq<Expense>)
      reads this
      requires Valid()
      ensures forall e :: e in r <==> e in expenses.Values && e.userId == userId
      ensures multiset(r) == multiset(Filter(ExpenseList(), ExpenseOwnedBy, userId))
      ensures SortedDesc(r, ExpenseDateKey)
    {
      InOrderHoldsValues(expenses, expenseOrder, ExpenseId);
      SortDescMembers(Filter(ExpenseList(), ExpenseOwnedBy, userId), ExpenseDateKey);
      SortDesc(Filter(ExpenseList(), ExpenseOwnedBy, userId), ExpenseDateKey)
    }

    /** The expense stored under `id`, if it exists and belongs to `userId`. */
    function GetExpense(id: string, userId: string): (r: Option<Expense>)
      reads this
      ensures r.Some? <==> id in expenses && expenses[id].userId == userId
      ensures r.Some? ==> r.value == expenses[id]
    {
      if id in expenses && expenses[id].userId == userId then Some(expenses[id]) else None
    }

    method CreateExpense(data: NewExpense, userId: string, id: string, now: Date) returns (e: Expense)
      requires Valid()
      requires id !in expenses
      modifies this
      ensures Valid()
      ensures e == Expense(id, userId, data.title, data.amount, data.category, data.description, data.date, data.tags, now)
      ensures expenses == old(expenses)[id := e] && expenseOrder == old(expenseOrder) + [id]
      ensures users == old(users) && userOrder == old(userOrder)
      ensures budgets == old(budgets) && budgetOrder == old(budgetOrder)
      ensures GetExpense(id, userId) == Some(e)
      ensures forall other :: other != userId ==> GetExpense(id, other).None?
    {
      e := Expense(id, userId, data.title, data.amount, data.category, data.description, data.date, data.tags, now);
      expenses := expenses[id := e];
      expenseOrder := expenseOrder + [id];
    }

    method UpdateExpense(id: string, userId: string, patch: ExpensePatch) returns (r: Option<Expense>)
      requires Valid()
      modifies this
      ensures Valid()
      ensures old(GetExpense(id, userId)).None? ==> r.None? && unchanged(this)
      ensures old(GetExpense(id, userId)).Some? ==>
        && r == Some(ApplyExpensePatch(old(expenses[id]), patch))
        && expenses == old(expenses)[id := r.value]
        && expenseOrder == old(expenseOrder)
        && users == old(users) && userOrder == old(userOrder)
        && budgets == old(budgets) && budgetOrder == old(budgetOrder)
    {
      var existing := GetExpense(id, userId);
      if existing.None? {
        return None;
      }
      var updated := ApplyExpensePatch(existing.value, patch);
      expenses := expenses[id := updated];
      r := Some(updated);
    }

    method DeleteExpense(id: string, userId: string) returns (deleted: bool)
      requires Valid()
      modifies this
      ensures Valid()
      ensures deleted <==> old(GetExpense(id, userId)).Some?
      ensures !deleted ==> unchanged(this)
      ensures deleted ==>
        && expenses == old(expenses) - {id}
        && expenseOrder == Remove(old(expenseOrder), id)
        && users == old(users) && userOrder == old(userOrder)
        && budgets == old(budgets) && budgetOrder == old(budgetOrder)
      ensures GetExpense(id, userId).None?
    {
      var existing := GetExpense(id, userId);
      if existing.None? {
        return false;
      }
      expenses := expenses - {id};
      expenseOrder := Remove(expenseOrder, id);
      deleted := true;
    }

    /** One user's budgets, latest month first; equal months stay in insertion order. */
    function GetBudgets(userId: string): (r: seq<Budget>)
      reads this
      requires Valid()
      ensures forall b :: b in r <==> b in budgets.Values && b.userId == userId
      ensures multiset(r) == multiset(Filter(BudgetList(), BudgetOwnedBy, userId))
      ensures SortedDesc(r, BudgetMonthKey)
    {
      InOrderHoldsValues(budgets, budgetOrder, BudgetId);
      SortDescMembers(Filter(BudgetList(), BudgetOwnedBy, userId), BudgetMonthKey);
      SortDesc(Filter(BudgetList(), BudgetOwnedBy, userId), BudgetMonthKey)
    }

    function GetBudget(id: string, userId: string): (r: Option<Budget>)
      reads this
      ensures r.Some? <==> id in budgets && budgets[id].userId == userId
      ensures r.Some? ==> r.value == budgets[id]
    {
      if id in budgets && budgets[id].userId == userId then Some(budgets[id]) else None
    }

    method CreateBudget(data: NewBudget, userId: string, id: string, now: Date) returns (b: Budget)
      requires Valid()
      requires id !in budgets
      modifies this
      ensures Valid()
      ensures b == Budget(id, userId, data.category, data.amount, data.month, now)
      ensures budgets == old(budgets)[id := b] && budgetOrder == old(budgetOrder) + [id]
      ensures users == old(users) && userOrder == old(userOrder)
      ensures expenses == old(expenses) && expenseOrder == old(expenseOrder)
      ensures GetBudget(id, userId) == Some(b)
      ensures forall other :: other != userId ==> GetBudget(id, other).None?
    {
      b := Budget(id, userId, data.category, data.amount, data.month, now);
      budgets := budgets[id := b];
      budgetOrder := budgetOrder + [id];
    }

    method UpdateBudget(id: string, userId: string, patch: BudgetPatch) returns (r: Option<Budget>)
      requires Valid()
      modifies this
      ensures Valid()
      ensures old(GetBudget(id, userId)).None? ==> r.None? && unchanged(this)
      ensures old(GetBudget(id, userId)).Some? ==>
        && r == Some(ApplyBudgetPatch(old(budgets[id]), patch))
        && budgets == old(budgets)[id := r.value]
        && budgetOrder == old(budgetOrder)
        && users == old(users) && userOrder == old(userOrder)
        && expenses == old(expenses) && expenseOrder == old(expenseOrder)
    {
      var existing := GetBudget(id, userId);
      if existing.None? {
        return None;
      }
      var updated := ApplyBudgetPatch(existing.value, patch);
      budgets := budgets[id := updated];
      r := Some(updated);
    }

    method DeleteBudget(id: string, userId: string) returns (deleted: bool)
      requires Valid()
      modifies this
      ensures Valid()
      ensures deleted <==> old(GetBudget(id, userId)).Some?
      ensures !deleted ==> unchanged(this)
      ensures deleted ==>
        && budgets == old(budgets) - {id}
        && budgetOrder == Remove(old(budgetOrder), id)
        && users == old(users) && userOrder == old(userOrder)
        && expenses == old(expenses) && expenseOrder == old(expenseOrder)
      ensures GetBudget(id, userId).None?
    {
      var existing := GetBudget(id, userId);
      if existing.None? {
        return false;
      }
      budgets := budgets - {id};
      budgetOrder := Remove(budgetOrder, id);
      deleted := true;
    }
  }

  /** A caller's view of ownership: what one user creates, another can neither read,
      update nor delete, and the owner's second delete of a record reports false. */
  method OwnershipScenario(store: MemStorage, data: NewExpense, owner: string, intruder: string, id: string, now: Date)
    returns (seenByIntruder: Option<Expense>, updatedByIntruder: Option<Expense>, deletedByIntruder: bool,
             firstDelete: bool, secondDelete: bool)
    requires store.Valid() && id !in store.expenses && owner != intruder
    modifies store
    ensures seenByIntruder.None? && updatedByIntruder.None? && !deletedByIntruder
    ensures firstDelete && !secondDelete
  {
    var e := store.CreateExpense(data, owner, id, now);
    seenByIntruder := store.GetExpense(id, intruder);
    updatedByIntruder := store.UpdateExpense(id, intruder, ExpensePatch(Some("taken"), None, None, None, None, None));
    deletedByIntruder := store.DeleteExpense(id, intruder);
    assert store.GetExpense(id, owner) == Some(e);
    firstDelete := store.DeleteExpense(id, owner);
    secondDelete := store.DeleteExpense(id, owner);
  }
}
