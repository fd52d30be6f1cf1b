/** The shared data model and its request validators (shared/schema.ts): the closed
    category enumeration, the stored records, and the insert / partial / login /
    register schemas as parsers from a JSON request body to a typed payload or a list of
    the fields that failed. */
module Schema {
  import opened Wrappers
  import opened Calendar

  // ---------------------------------------------------------------------------
  // Categories

  datatype Category = Food | Transport | Entertainment | Utilities | Healthcare | Other

  /** The enumeration in declaration order. */
  const Categories: seq<Category> := [Food, Transport, Entertainment, Utilities, Healthcare, Other]

  const CategoryNames: seq<string> := ["Food", "Transport", "Entertainment", "Utilities", "Healthcare", "Other"]

  function CategoryName(c: Category): string
  {
    match c
    case Food => "Food"
    case Transport => "Transport"
    case Entertainment => "Entertainment"
    case Utilities => "Utilities"
    case Healthcare => "Healthcare"
    case Other => "Other"
  }

  /** `z.enum(categories)`: accepts exactly the six names, case-sensitively. */
  function ParseCategory(s: string): (r: Option<Category>)
    ensures r.Some? <==> s in CategoryNames
    ensures r.Some? ==> CategoryName(r.value) == s
  {
    if s == "Food" then Some(Food)
    else if s == "Transport" then Some(Transport)
    else if s == "Entertainment" then Some(Entertainment)
    else if s == "Utilities" then Some(Utilities)
    else if s == "Healthcare" then Some(Healthcare)
    else if s == "Other" then Some(Other)
    else None
  }

  /** The enumeration has exactly six members, each named once, and every name parses back. */
  lemma CategoryEnumeration(c: Category)
    ensures |Categories| == 6 && c in Categories
    ensures |CategoryNames| == 6
    ensures forall i :: 0 <= i < 6 ==> CategoryName(Categories[i]) == CategoryNames[i]
    ensures forall i, j :: 0 <= i < j < 6 ==> CategoryNames[i] != CategoryNames[j]
    ensures ParseCategory(CategoryName(c)) == Some(c)
  {
  }

  // ---------------------------------------------------------------------------
  // Records

  datatype User = User(id: string, email: string, password: string, name: string, createdAt: Date)

  /** A user as the auth routes return it: the password hash is left out. */
  datatype PublicUser = PublicUser(id: string, email: string, name: string, createdAt: Date)

  datatype Expense = Expense(
    id: string, userId: string, title: string, amount: real, category: Category,
    description: Option<string>, date: Date, tags: Option<seq<string>>, createdAt: Date)

  datatype Budget = Budget(
    id: string, userId: string, category: Category, amount: real, month: Date, createdAt: Date)

  /** Validated payloads. They have no `id`, `userId` or `createdAt`: the insert schemas omit them. */
  datatype NewUser = NewUser(email: string, password: string, name: string)

  datatype NewExpense = NewExpense(
    title: string, amount: real, category: Category, description: Option<string>,
    date: Date, tags: Option<seq<string>>)

  datatype NewBudget = NewBudget(category: Category, amount: real, month: Date)

  datatype Credentials = Credentials(email: string, password: string)

  /** Payloads of the partial schemas: a field is `Some` exactly when the body supplied it.
      `description` may be supplied as null, which is `Some(None)`. */
  datatype ExpensePatch = ExpensePatch(
    title: Option<string>, amount: Option<real>, category: Option<Category>,
    description: Option<Option<string>>, date: Option<Date>, tags: Option<seq<string>>)

  datatype BudgetPatch = BudgetPatch(category: Option<Category>, amount: Option<real>, month: Option<Date>)

  function ExpenseAmount(e: Expense): real { e.amount }
  function ExpenseCategory(e: Expense): Category { e.category }
  function ExpenseMonth(e: Expense): YearMonth { MonthOf(e.date) }

  /** Every amount is at least 0, as the expense validator demands of each one. */
  predicate NonNegativeAmounts(es: seq<Expense>)
  {
    forall e :: e in es ==> e.amount >= 0.0
  }

  // ---------------------------------------------------------------------------
  // Request bodies

  /** A JSON value of a request body. `JDate(d)` stands for any value that `z.coerce.date()`
      turns into the date `d`. */
  datatype Json = JNull | JBool(b: bool) | JNum(n: real) | JStr(s: string) | JArr(items: seq<Json>) | JDate(d: Date)

  type Body = map<string, Json>

  /** The outcome of one field's schema: absent from the body, present but rejected, or accepted. */
  datatype Field<X> = Missing | Invalid | Valid(value: X)

  /** The outcome of an object schema: the typed payload, or the names of the failing fields
      (the paths of zod's issues), in the schema's field order. */
  datatype Parsed<X> = Ok(value: X) | Err(errors: seq<string>)

  function Lookup<X>(body: Body, name: string, check: Json -> Option<X>): Field<X>
  {
    if name !in body then Missing
    else match check(body[name])
      case Some(v) => Valid(v)
      case None => Invalid
  }

  /** The issue a field contributes when its check fails. */
  function Issue(name: string, valid: bool): seq<string>
  {
    if valid then [] else [name]
  }

  /** The error a required field contributes. */
  function Required<X>(name: string, f: Field<X>): seq<string>
  {
    if f.Valid? then [] else [name]
  }

  /** The error an optional field contributes. */
  function Optional<X>(name: string, f: Field<X>): (e: seq<string>)
    ensures forall x :: x in e <==> x == name && f.Invalid?
  {
    if f.Invalid? then [name] else []
  }

  function ValueOr<X>(f: Field<X>, default: X): X
  {
    if f.Valid? then f.value else default
  }

  /** The value a partial schema supplies for `name`: the accepted value, if the body has one. */
  function SuppliedField<X>(body: Body, name: string, check: Json -> Option<X>): (v: Option<X>)
    ensures v.Some? <==> name in body && check(body[name]).Some?
    ensures v.Some? ==> check(body[name]) == Some(v.value)
  {
    if name in body then check(body[name]) else None
  }

  function Supplied<X>(f: Field<X>): Option<X>
  {
    if f.Valid? then Some(f.value) else None
  }

  /** A JavaScript string's `length`: the number of UTF-16 code units, two for each
      character outside the Basic Multilingual Plane. zod's `min` counts these. */
  function Utf16Length(s: string): (n: nat)
    ensures |s| <= n <= 2 * |s|
    ensures (forall i :: 0 <= i < |s| ==> s[i] as int < 0x1_0000) ==> n == |s|
  {
    if s == [] then 0
    else Utf16Length(s[..|s| - 1]) + (if s[|s| - 1] as int < 0x1_0000 then 1 else 2)
  }

  /** `z.string().min(1)` */
  function NonEmptyString(j: Json): (r: Option<string>)
    ensures r.Some? ==> j == JStr(r.value) && |r.value| >= 1
  {
    if j.JStr? && Utf16Length(j.s) >= 1 then Some(j.s) else None
  }

  /** `z.string().min(6)` */
  function Password(j: Json): (r: Option<string>)
    ensures r.Some? ==> j == JStr(r.value) && Utf16Length(r.value) >= 6
  {
    if j.JStr? && Utf16Length(j.s) >= 6 then Some(j.s) else None
  }

  /** `z.number().min(0)` */
  function NonNegativeNumber(j: Json): (r: Option<real>)
    ensures r.Some? ==> j == JNum(r.value) && r.value >= 0.0
  {
    if j.JNum? && j.n >= 0.0 then Some(j.n) else None
  }

  /** `z.enum(categories)` */
  function CategoryField(j: Json): (r: Option<Category>)
    ensures r.Some? ==> j == JStr(CategoryName(r.value))
  {
    if j.JStr? then ParseCategory(j.s) else None
  }

  /** `z.string().nullable()` (the optional description column) */
  function NullableString(j: Json): (r: Option<Option<string>>)
    ensures r.Some? ==> j == if r.value.Some? then JStr(r.value.value) else JNull
  {
    if j.JNull? then Some(None) else if j.JStr? then Some(Some(j.s)) else None
  }

  /** `z.coerce.date()` */
  function CoerceDate(j: Json): (r: Option<Date>)
    ensures r.Some? ==> j == JDate(r.value)
  {
    if j.JDate? then Some(j.d) else None
  }

  /** `z.array(z.string())` */
  function StringArray(j: Json): (r: Option<seq<string>>)
    ensures r.Some? ==> j.JArr? && |j.items| == |r.value| && forall i :: 0 <= i < |r.value| ==> j.items[i] == JStr(r.value[i])
  {
    if j.JArr? && forall i :: 0 <= i < |j.items| ==> j.items[i].JStr? then
      Some(seq(|j.items|, i requires 0 <= i < |j.items| && j.items[i].JStr? => j.items[i].s))
    else None
  }

  /** `z.string().email()`, with the address syntax left to `isEmail`. */
  function Email(j: Json, isEmail: string -> bool): (r: Option<string>)
    ensures r.Some? ==> j == JStr(r.value) && isEmail(r.value)
  {
    if j.JStr? && isEmail(j.s) then Some(j.s) else None
  }

  // ---------------------------------------------------------------------------
  // Object schemas

  /** The fields `insertExpenseSchema` reads; every other key of a body is stripped. */
  const ExpenseFields: set<string> := {"title", "amount", "category", "description", "date", "tags"}
  const BudgetFields: set<string> := {"category", "amount", "month"}

  predicate WellFormedExpense(e: NewExpense)
  {
    |e.title| >= 1 && e.amount >= 0.0
  }

  predicate WellFormedBudget(b: NewBudget)
  {
    b.amount >= 0.0
  }

  /** `insertExpenseSchema.parse(body)`. */
  function ParseExpense(body: Body): (r: Parsed<NewExpense>)
    ensures r.Ok? ==> WellFormedExpense(r.value)
    ensures r.Ok? ==> "title" in body && body["title"] == JStr(r.value.title)
    ensures r.Ok? ==> "amount" in body && body["amount"] == JNum(r.value.amount)
    ensures r.Ok? ==> "category" in body && body["category"] == JStr(CategoryName(r.value.category))
    ensures r.Ok? ==> "date" in body && body["date"] == JDate(r.value.date)
    ensures r.Err? ==> |r.errors| > 0 && forall f :: f in r.errors ==> f in ExpenseFields
    ensures ("amount" !in body || NonNegativeNumber(body["amount"]).None?) ==> r.Err? && "amount" in r.errors
    ensures ("category" !in body || CategoryField(body["category"]).None?) ==> r.Err? && "category" in r.errors
    ensures ("title" !in body || NonEmptyString(body["title"]).None?) ==> r.Err? && "title" in r.errors
    ensures ("date" !in body || CoerceDate(body["date"]).None?) ==> r.Err? && "date" in r.errors
    ensures "description" in body && NullableString(body["description"]).None? ==> r.Err? && "description" in r.errors
    ensures "tags" in body && StringArray(body["tags"]).None? ==> r.Err? && "tags" in r.errors
    ensures r.Ok? ==> r.value.description == if "description" in body then NullableString(body["description"]).value else None
    ensures r.Ok? ==> r.value.tags == if "tags" in body then StringArray(body["tags"]) else None
    ensures r.Ok? <==> ExpenseContentValid(body) && PatchDetailValid(body) && "date" in body
  {
    var errors := ExpenseContentErrors(body) + ExpenseDetailErrors(body);
    if errors == [] then
      Ok(NewExpense(NonEmptyString(body["title"]).value, NonNegativeNumber(body["amount"]).value,
                    CategoryField(body["category"]).value, ValueOr(Lookup(body, "description", NullableString), None),
                    CoerceDate(body["date"]).value, SuppliedField(body, "tags", StringArray)))
    else Err(errors)
  }

  /** The body has a title, an amount and a category, each passing its check. */
  predicate ExpenseContentValid(body: Body)
  {
    && "title" in body && NonEmptyString(body["title"]).Some?
    && "amount" in body && NonNegativeNumber(body["amount"]).Some?
    && "category" in body && CategoryField(body["category"]).Some?
  }

  /** The issues of the expense schema's title, amount and category fields, each required. */
  function ExpenseContentErrors(body: Body): (errors: seq<string>)
    ensures errors == [] <==> ExpenseContentValid(body)
    ensures forall f :: f in errors ==> f in ExpenseFields
    ensures ("title" !in body || NonEmptyString(body["title"]).None?) ==> "title" in errors
    ensures ("amount" !in body || NonNegativeNumber(body["amount"]).None?) ==> "amount" in errors
    ensures ("category" !in body || CategoryField(body["category"]).None?) ==> "category" in errors
  {
    Required("title", Lookup(body, "title", NonEmptyString)) + Required("amount", Lookup(body, "amount", NonNegativeNumber))
    + Required("category", Lookup(body, "category", CategoryField))
  }

  /** The issues of the expense schema's description, date and tags fields; only the date is
      required. */
  function ExpenseDetailErrors(body: Body): (errors: seq<string>)
    ensures errors == [] <==> PatchDetailValid(body) && "date" in body
    ensures forall f :: f in errors ==> f in ExpenseFields
    ensures "description" in body && NullableString(body["description"]).None? ==> "description" in errors
    ensures ("date" !in body || CoerceDate(body["date"]).None?) ==> "date" in errors
    ensures "tags" in body && StringArray(body["tags"]).None? ==> "tags" in errors
  {
    Optional("description", Lookup(body, "description", NullableString))
    + Required("date", Lookup(body, "date", CoerceDate)) + Optional("tags", Lookup(body, "tags", StringArray))
  }

  /** `insertExpenseSchema.partial().parse(body)`: every field optional, each checked when present. */
  function ParseExpensePatch(body: Body): (r: Parsed<ExpensePatch>)
    ensures r.Ok? <==> PatchContentValid(body) && PatchDetailValid(body)
    ensures r.Ok? && r.value.title.Some? ==>
      "title" in body && body["title"] == JStr(r.value.title.value) && |r.value.title.value| >= 1
    ensures r.Ok? && r.value.amount.Some? ==>
      "amount" in body && body["amount"] == JNum(r.value.amount.value) && r.value.amount.value >= 0.0
    ensures r.Ok? && r.value.category.Some? ==>
      "category" in body && body["category"] == JStr(CategoryName(r.value.category.value))
    ensures r.Ok? && r.value.description.Some? ==>
      "description" in body && NullableString(body["description"]) == r.value.description
    ensures r.Ok? && r.value.date.Some? ==> "date" in body && body["date"] == JDate(r.value.date.value)
    ensures r.Ok? && r.value.tags.Some? ==> "tags" in body && StringArray(body["tags"]) == r.value.tags
    ensures r.Err? ==> |r.errors| > 0 && forall f :: f in r.errors ==> f in ExpenseFields && f in body && FieldRejected(body, f)
    ensures "title" in body && NonEmptyString(body["title"]).None? ==> r.Err? && "title" in r.errors
    ensures "amount" in body && NonNegativeNumber(body["amount"]).None? ==> r.Err? && "amount" in r.errors
    ensures "category" in body && CategoryField(body["category"]).None? ==> r.Err? && "category" in r.errors
    ensures "description" in body && NullableString(body["description"]).None? ==> r.Err? && "description" in r.errors
    ensures "date" in body && CoerceDate(body["date"]).None? ==> r.Err? && "date" in r.errors
    ensures "tags" in body && StringArray(body["tags"]).None? ==> r.Err? && "tags" in r.errors
  {
    var errors := PatchErrors(body);
    if errors == [] then
      Ok(ExpensePatch(SuppliedField(body, "title", NonEmptyString), SuppliedField(body, "amount", NonNegativeNumber),
                      SuppliedField(body, "category", CategoryField), SuppliedField(body, "description", NullableString),
                      SuppliedField(body, "date", CoerceDate), SuppliedField(body, "tags", StringArray)))
    else Err(errors)
  }

  /** The expense field `f` of the body fails its check. */
  predicate FieldRejected(body: Body, f: string)
    requires f in body
  {
    if f == "title" then NonEmptyString(body[f]).None?
    else if f == "amount" then NonNegativeNumber(body[f]).None?
    else if f == "category" then CategoryField(body[f]).None?
    else if f == "description" then NullableString(body[f]).None?
    else if f == "date" then CoerceDate(body[f]).None?
    else if f == "tags" then StringArray(body[f]).None?
    else false
  }

  /** The title, amount and category of an update each pass their check where present. */
  predicate PatchContentValid(body: Body)
  {
    && ("title" !in body || NonEmptyString(body["title"]).Some?)
    && ("amount" !in body || NonNegativeNumber(body["amount"]).Some?)
    && ("category" !in body || CategoryField(body["category"]).Some?)
  }

  /** The description, date and tags of an update each pass their check where present. */
  predicate PatchDetailValid(body: Body)
  {
    && ("description" !in body || NullableString(body["description"]).Some?)
    && ("date" !in body || CoerceDate(body["date"]).Some?)
    && ("tags" !in body || StringArray(body["tags"]).Some?)
  }

  /** The issues of the partial expense schema: each field that is present and rejected, in
      the schema's field order. */
  function PatchErrors(body: Body): (errors: seq<string>)
    ensures errors == [] <==> PatchContentValid(body) && PatchDetailValid(body)
    ensures forall f :: f in errors ==> f in ExpenseFields && f in body && FieldRejected(body, f)
    ensures "title" in body && NonEmptyString(body["title"]).None? ==> "title" in errors
    ensures "amount" in body && NonNegativeNumber(body["amount"]).None? ==> "amount" in errors
    ensures "category" in body && CategoryField(body["category"]).None? ==> "category" in errors
    ensures "description" in body && NullableString(body["description"]).None? ==> "description" in errors
    ensures "date" in body && CoerceDate(body["date"]).None? ==> "date" in errors
    ensures "tags" in body && StringArray(body["tags"]).None? ==> "tags" in errors
  {
    PatchContentErrors(body) + PatchDetailErrors(body)
  }

  /** The issues of the title, amount and category fields. */
  function PatchContentErrors(body: Body): (errors: seq<string>)
    ensures errors == [] <==> PatchContentValid(body)
    ensures forall f :: f in errors ==> f in ExpenseFields && f in body && FieldRejected(body, f)
    ensures "title" in body && NonEmptyString(body["title"]).None? ==> "title" in errors
    ensures "amount" in body && NonNegativeNumber(body["amount"]).None? ==> "amount" in errors
    ensures "category" in body && CategoryField(body["category"]).None? ==> "category" in errors
  {
    Optional("title", Lookup(body, "title", NonEmptyString)) + Optional("amount", Lookup(body, "amount", NonNegativeNumber))
    + Optional("category", Lookup(body, "category", CategoryField))
  }

  /** The issues of the description, date and tags fields. */
  function PatchDetailErrors(body: Body): (errors: seq<string>)
    ensures errors == [] <==> PatchDetailValid(body)
    ensures forall f :: f in errors ==> f in ExpenseFields && f in body && FieldRejected(body, f)
    ensures "description" in body && NullableString(body["description"]).None? ==> "description" in errors
    ensures "date" in body && CoerceDate(body["date"]).None? ==> "date" in errors
    ensures "tags" in body && StringArray(body["tags"]).None? ==> "tags" in errors
  {
    Optional("description", Lookup(body, "description", NullableString))
    + Optional("date", Lookup(body, "date", CoerceDate)) + Optional("tags", Lookup(body, "tags", StringArray))
  }

  /** `insertBudgetSchema.parse(body)`. */
  function ParseBudget(body: Body): (r: Parsed<NewBudget>)
    ensures r.Ok? ==> WellFormedBudget(r.value)
    ensures r.Ok? ==> "amount" in body && body["amount"] == JNum(r.value.amount)
    ensures r.Ok? ==> "category" in body && body["category"] == JStr(CategoryName(r.value.category))
    ensures r.Ok? ==> "month" in body && body["month"] == JDate(r.value.month)
    ensures r.Err? ==> |r.errors| > 0 && forall f :: f in r.errors ==> f in BudgetFields
    ensures ("amount" !in body || NonNegativeNumber(body["amount"]).None?) ==> r.Err? && "amount" in r.errors
    ensures ("category" !in body || CategoryField(body["category"]).None?) ==> r.Err? && "category" in r.errors
    ensures ("month" !in body || CoerceDate(body["month"]).None?) ==> r.Err? && "month" in r.errors
    ensures r.Ok? <==> BudgetPatchValid(body) && "category" in body && "amount" in body && "month" in body
  {
    var category := Lookup(body, "category", CategoryField);
    var amount := Lookup(body, "amount", NonNegativeNumber);
    var month := Lookup(body, "month", CoerceDate);
    var errors := Required("category", category) + Required("amount", amount) + Required("month", month);
    if errors == [] then Ok(NewBudget(category.value, amount.value, month.value)) else Err(errors)
  }

  /** The category, amount and month of a budget update each pass their check where present. */
  predicate BudgetPatchValid(body: Body)
  {
    && ("category" !in body || CategoryField(body["category"]).Some?)
    && ("amount" !in body || NonNegativeNumber(body["amount"]).Some?)
    && ("month" !in body || CoerceDate(body["month"]).Some?)
  }

  /** The budget field `f` of the body fails its check. */
  predicate BudgetFieldRejected(body: Body, f: string)
    requires f in body
  {
    if f == "category" then CategoryField(body[f]).None?
    else if f == "amount" then NonNegativeNumber(body[f]).None?
    else if f == "month" then CoerceDate(body[f]).None?
    else false
  }

  /** `insertBudgetSchema.partial().parse(body)`. */
  function ParseBudgetPatch(body: Body): (r: Parsed<BudgetPatch>)
    ensures r.Ok? <==> BudgetPatchValid(body)
    ensures r.Ok? ==> (r.value.category.Some? <==> "category" in body) && (r.value.amount.Some? <==> "amount" in body)
    ensures r.Ok? ==> (r.value.month.Some? <==> "month" in body)
    ensures r.Ok? ==> (r.value.category.Some? ==> body["category"] == JStr(CategoryName(r.value.category.value)))
    ensures r.Ok? ==> (r.value.amount.Some? ==> body["amount"] == JNum(r.value.amount.value) && r.value.amount.value >= 0.0)
    ensures r.Ok? ==> (r.value.month.Some? ==> body["month"] == JDate(r.value.month.value))
    ensures r.Err? ==> |r.errors| > 0 && forall f :: f in r.errors ==> f in BudgetFields && f in body && BudgetFieldRejected(body, f)
    ensures "category" in body && CategoryField(body["category"]).None? ==> r.Err? && "category" in r.errors
    ensures "amount" in body && NonNegativeNumber(body["amount"]).None? ==> r.Err? && "amount" in r.errors
    ensures "month" in body && CoerceDate(body["month"]).None? ==> r.Err? && "month" in r.errors
  {
    var category := Lookup(body, "category", CategoryField);
    var amount := Lookup(body, "amount", NonNegativeNumber);
    var month := Lookup(body, "month", CoerceDate);
    var errors := Optional("category", category) + Optional("amount", amount) + Optional("month", month);
    if errors == [] then Ok(BudgetPatch(Supplied(category), Supplied(amount), Supplied(month))) else Err(errors)
  }

  /** The body carries an email address, a password of at least six UTF-16 code units, and
      a non-empty name, each as a string. */
  predicate ValidEmail(body: Body, isEmail: string -> bool)
  {
    "email" in body && Email(body["email"], isEmail).Some?
  }

  predicate ValidPassword(body: Body)
  {
    "password" in body && Password(body["password"]).Some?
  }

  predicate ValidName(body: Body)
  {
    "name" in body && NonEmptyString(body["name"]).Some?
  }

  /** `loginSchema.parse(body)`. */
  function ParseLogin(body: Body, isEmail: string -> bool): (r: Parsed<Credentials>)
    ensures r.Ok? <==> ValidEmail(body, isEmail) && ValidPassword(body)
    ensures r.Ok? ==> "email" in body && body["email"] == JStr(r.value.email)
    ensures r.Ok? ==> "password" in body && body["password"] == JStr(r.value.password)
    ensures r.Err? ==> |r.errors| > 0 && forall f :: f in r.errors ==> f in {"email", "password"}
    ensures r.Err? ==> ("email" in r.errors <==> !ValidEmail(body, isEmail))
    ensures r.Err? ==> ("password" in r.errors <==> !ValidPassword(body))
  {
    var errors := Issue("email", ValidEmail(body, isEmail)) + Issue("password", ValidPassword(body));
    if errors == [] then Ok(Credentials(body["email"].s, body["password"].s)) else Err(errors)
  }

  /** `registerSchema.parse(body)`: the user insert schema with email, password and name refined. */
  function ParseRegister(body: Body, isEmail: string -> bool): (r: Parsed<NewUser>)
    ensures r.Ok? <==> ValidEmail(body, isEmail) && ValidPassword(body) && ValidName(body)
    ensures r.Ok? ==> "email" in body && body["email"] == JStr(r.value.email)
    ensures r.Ok? ==> "password" in body && body["password"] == JStr(r.value.password)
    ensures r.Ok? ==> "name" in body && body["name"] == JStr(r.value.name)
    ensures r.Err? ==> |r.errors| > 0 && forall f :: f in r.errors ==> f in {"email", "password", "name"}
    ensures r.Err? ==> ("email" in r.errors <==> !ValidEmail(body, isEmail))
    ensures r.Err? ==> ("password" in r.errors <==> !ValidPassword(body))
    ensures r.Err? ==> ("name" in r.errors <==> !ValidName(body))
  {
    var errors := Issue("email", ValidEmail(body, isEmail)) + Issue("password", ValidPassword(body))
      + Issue("name", ValidName(body));
    if errors == [] then Ok(NewUser(body["email"].s, body["password"].s, body["name"].s)) else Err(errors)
  }

  // ---------------------------------------------------------------------------
  // Encoding, for the round trips

  function ExpenseBody(e: NewExpense): Body
  {
    var required := map["title" := JStr(e.title), "amount" := JNum(e.amount),
                        "category" := JStr(CategoryName(e.category)), "date" := JDate(e.date)];
    var withDescription := if e.description.Some? then required["description" := JStr(e.description.value)] else required;
    if e.tags.Some? then withDescription["tags" := JArr(seq(|e.tags.value|, i requires 0 <= i < |e.tags.value| => JStr(e.tags.value[i])))]
    else withDescription
  }

  function BudgetBody(b: NewBudget): Body
  {
    map["category" := JStr(CategoryName(b.category)), "amount" := JNum(b.amount), "month" := JDate(b.month)]
  }

  /** A list of tags, sent as a JSON array of strings, reads back as the same list. */
  lemma TagsRoundTrip(items: seq<Json>, ts: seq<string>)
    requires |items| == |ts| && forall i :: 0 <= i < |ts| ==> items[i] == JStr(ts[i])
    ensures StringArray(JArr(items)) == Some(ts)
  {
    assert seq(|items|, i requires 0 <= i < |items| && items[i].JStr? => items[i].s) == ts;
  }

  /** The nullable description column accepts an explicit `null`, and it parses exactly like
      a body without a description. */
  lemma NullDescriptionIsNoDescription(body: Body)
    requires "description" !in body
    ensures ParseExpense(body["description" := JNull]) == ParseExpense(body)
  {
    var b' := body["description" := JNull];
    assert forall f :: f in ExpenseFields && f != "description" ==>
      (f in b' <==> f in body) && (f in body ==> b'[f] == body[f]);
    assert Lookup(b', "title", NonEmptyString) == Lookup(body, "title", NonEmptyString);
    assert Lookup(b', "amount", NonNegativeNumber) == Lookup(body, "amount", NonNegativeNumber);
    assert Lookup(b', "category", CategoryField) == Lookup(body, "category", CategoryField);
    assert Lookup(b', "date", CoerceDate) == Lookup(body, "date", CoerceDate);
    assert Lookup(b', "tags", StringArray) == Lookup(body, "tags", StringArray);
    assert Lookup(b', "description", NullableString) == Valid(None);
    assert ExpenseContentErrors(b') == ExpenseContentErrors(body);
    assert ExpenseDetailErrors(b') == ExpenseDetailErrors(body);
  }

  /** Every well-formed expense payload, sent as a body that leaves out an absent
      description, is accepted exactly as sent. `NullDescriptionIsNoDescription` covers an
      absent description sent as `null`. */
  lemma ExpenseRoundTrip(e: NewExpense)
    requires WellFormedExpense(e)
    ensures ParseExpense(ExpenseBody(e)) == Ok(e)
  {
    var body := ExpenseBody(e);
    assert Lookup(body, "title", NonEmptyString) == Valid(e.title);
    assert Lookup(body, "amount", NonNegativeNumber) == Valid(e.amount);
    CategoryEnumeration(e.category);
    assert Lookup(body, "category", CategoryField) == Valid(e.category);
    assert Lookup(body, "date", CoerceDate) == Valid(e.date);
    if e.tags.Some? {
      TagsRoundTrip(body["tags"].items, e.tags.value);
      assert Lookup(body, "tags", StringArray) == Valid(e.tags.value);
    } else {
      assert Lookup(body, "tags", StringArray) == Missing;
    }
    if e.description.Some? {
      assert Lookup(body, "description", NullableString) == Valid(e.description);
    } else {
      assert Lookup(body, "description", NullableString) == Missing;
    }
  }

  lemma BudgetRoundTrip(b: NewBudget)
    requires WellFormedBudget(b)
    ensures ParseBudget(BudgetBody(b)) == Ok(b)
  {
    CategoryEnumeration(b.category);
  }

  /** A body cannot set identity or ownership: keys outside the schema (`id`, `userId`,
      `createdAt`, anything else) are stripped and do not affect the outcome. */
  lemma ExpenseIgnoresUnknownKeys(body: Body, k: string, v: Json)
    requires k !in ExpenseFields
    ensures ParseExpense(body[k := v]) == ParseExpense(body)
    ensures ParseExpensePatch(body[k := v]) == ParseExpensePatch(body)
  {
    var b' := body[k := v];
    assert forall f :: f in ExpenseFields ==> (f in b' <==> f in body) && (f in body ==> b'[f] == body[f]);
    assert Lookup(b', "title", NonEmptyString) == Lookup(body, "title", NonEmptyString);
    assert Lookup(b', "amount", NonNegativeNumber) == Lookup(body, "amount", NonNegativeNumber);
    assert Lookup(b', "category", CategoryField) == Lookup(body, "category", CategoryField);
    assert Lookup(b', "description", NullableString) == Lookup(body, "description", NullableString);
    assert Lookup(b', "date", CoerceDate) == Lookup(body, "date", CoerceDate);
    assert Lookup(b', "tags", StringArray) == Lookup(body, "tags", StringArray);
  }

  lemma BudgetIgnoresUnknownKeys(body: Body, k: string, v: Json)
    requires k !in BudgetFields
    ensures ParseBudget(body[k := v]) == ParseBudget(body)
    ensures ParseBudgetPatch(body[k := v]) == ParseBudgetPatch(body)
  {
    var b' := body[k := v];
    assert Lookup(b', "category", CategoryField) == Lookup(body, "category", CategoryField);
    assert Lookup(b', "amount", NonNegativeNumber) == Lookup(body, "amount", NonNegativeNumber);
    assert Lookup(b', "month", CoerceDate) == Lookup(body, "month", CoerceDate);
  }

  /** An accepted update supplies exactly the fields present in the body. */
  lemma PatchSuppliesPresentFields(body: Body)
    requires ParseExpensePatch(body).Ok?
    ensures var p := ParseExpensePatch(body).value;
      && (p.title.Some? <==> "title" in body) && (p.amount.Some? <==> "amount" in body)
      && (p.category.Some? <==> "category" in body) && (p.description.Some? <==> "description" in body)
      && (p.date.Some? <==> "date" in body) && (p.tags.Some? <==> "tags" in body)
  {
  }

  /** An update body that supplies no schema field is the empty patch, which changes nothing. */
  lemma EmptyPatchBody(body: Body)
    requires forall f :: f in ExpenseFields ==> f !in body
    ensures ParseExpensePatch(body) == Ok(ExpensePatch(None, None, None, None, None, None))
  {
  }

  /** Both auth schemas reject a password shorter than six UTF-16 code units, whatever else
      is sent. */
  lemma ShortPasswordRejected(body: Body, isEmail: string -> bool)
    requires "password" in body && body["password"].JStr? && Utf16Length(body["password"].s) < 6
    ensures ParseLogin(body, isEmail).Err? && "password" in ParseLogin(body, isEmail).errors
    ensures ParseRegister(body, isEmail).Err? && "password" in ParseRegister(body, isEmail).errors
  {
  }

  /** Length is counted as JavaScript counts it: three characters outside the Basic
      Multilingual Plane are six code units, enough for a password. */
  lemma AstralPasswordAccepted(body: Body, isEmail: string -> bool)
    requires "password" in body && body["password"] == JStr("\U{1F600}\U{1F601}\U{1F602}")
    ensures ValidPassword(body)
    ensures |body["password"].s| == 3
  {
    var p := body["password"].s;
    assert p[..2][..1][..0] == [] && p[..3][..2] == p[..2] && p[..2][..1] == p[..1] && p[..3] == p;
    assert Utf16Length(p[..1]) == 2;
    assert Utf16Length(p[..2]) == 4;
  }

  function LoginBody(c: Credentials): Body
  {
    map["email" := JStr(c.email), "password" := JStr(c.password)]
  }

  function RegisterBody(u: NewUser): Body
  {
    map["email" := JStr(u.email), "password" := JStr(u.password), "name" := JStr(u.name)]
  }

  /** Credentials with an address `isEmail` accepts and a password of at least six code
      units are accepted exactly as sent. */
  lemma LoginRoundTrip(c: Credentials, isEmail: string -> bool)
    requires isEmail(c.email) && Utf16Length(c.password) >= 6
    ensures ParseLogin(LoginBody(c), isEmail) == Ok(c)
  {
    assert ValidEmail(LoginBody(c), isEmail) && ValidPassword(LoginBody(c));
  }

  /** A sign-up with a valid address, a long enough password and a name is accepted exactly
      as sent. */
  lemma RegisterRoundTrip(u: NewUser, isEmail: string -> bool)
    requires isEmail(u.email) && Utf16Length(u.password) >= 6 && |u.name| >= 1
    ensures ParseRegister(RegisterBody(u), isEmail) == Ok(u)
  {
    assert ValidEmail(RegisterBody(u), isEmail) && ValidPassword(RegisterBody(u)) && ValidName(RegisterBody(u));
  }
}
