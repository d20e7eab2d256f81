/**
 * The row shapes of the three tables (`users`, `plans`, `sales`), their
 * insert shapes (the row without `id`), their partial-update shapes and the
 * column defaults the table definitions declare.
 *
 * `Option` stands for a property that may be missing: `None` is a SQL `NULL`
 * or JavaScript `null`/`undefined`, `Some(v)` a present value. Integer columns
 * are `int`.
 */
module Schema {
  import opened Wrappers

  // --------------------------------------------------------------------- users

  /** What `insertUserSchema` picks: a username and a password. */
  datatype InsertUser = InsertUser(username: string, password: string)

  /** A `users` row. `username` is declared unique; nothing in memory enforces it. */
  datatype User = User(id: string, username: string, password: string)

  /** The row `{ ...insertUser, id }`: the insert shape plus the generated id. */
  function UserRow(id: string, ins: InsertUser): (u: User)
    ensures u.id == id
    ensures UserInsert(u) == ins
  {
    User(id, ins.username, ins.password)
  }

  /** A row with its `id` omitted. */
  function UserInsert(u: User): (r: InsertUser)
    ensures r.username == u.username && r.password == u.password
  {
    InsertUser(u.username, u.password)
  }

  /** A user row is exactly its id together with its insert shape. */
  lemma UserRowRoundTrip(u: User)
    ensures UserRow(u.id, UserInsert(u)) == u
  {
  }

  // --------------------------------------------------------------------- plans

  const DefaultDiscount := 0
  const DefaultColorFrom := "blue-500"
  const DefaultColorTo := "purple-600"

  /**
   * A plan as an object. The table declares every column NOT NULL, but the
   * in-memory store builds plans without the two colour properties, so they
   * are optional here; `IsTableRow` is the table's own constraint.
   */
  datatype Plan = Plan(
    id: string,
    name: string,
    cashDiscount: int,
    installmentDiscount: int,
    subscriptionDiscount: int,
    colorFrom: Option<string>,
    colorTo: Option<string>)

  /** `insertPlanSchema`: the name is required; the columns with a default may be omitted. */
  datatype InsertPlan = InsertPlan(
    name: string,
    cashDiscount: Option<int>,
    installmentDiscount: Option<int>,
    subscriptionDiscount: Option<int>,
    colorFrom: Option<string>,
    colorTo: Option<string>)

  /** `Partial<InsertPlan>`: every property may be absent (`None`). There is no `id`. */
  datatype PlanPatch = PlanPatch(
    name: Option<string>,
    cashDiscount: Option<int>,
    installmentDiscount: Option<int>,
    subscriptionDiscount: Option<int>,
    colorFrom: Option<string>,
    colorTo: Option<string>)

  /** A plan that satisfies the table's NOT NULL constraints. */
  predicate IsTableRow(p: Plan) {
    p.colorFrom.Some? && p.colorTo.Some?
  }

  /** The row the `plans` table stores for an insert: each omitted column takes its declared default. */
  function PlanRow(id: string, ins: InsertPlan): (p: Plan)
    ensures p.id == id && p.name == ins.name
    ensures IsTableRow(p)
    ensures ins.cashDiscount == None ==> p.cashDiscount == 0
    ensures ins.installmentDiscount == None ==> p.installmentDiscount == 0
    ensures ins.subscriptionDiscount == None ==> p.subscriptionDiscount == 0
    ensures ins.colorFrom == None ==> p.colorFrom == Some("blue-500")
    ensures ins.colorTo == None ==> p.colorTo == Some("purple-600")
    ensures ins.cashDiscount.Some? ==> p.cashDiscount == ins.cashDiscount.value
    ensures ins.installmentDiscount.Some? ==> p.installmentDiscount == ins.installmentDiscount.value
    ensures ins.subscriptionDiscount.Some? ==> p.subscriptionDiscount == ins.subscriptionDiscount.value
    ensures ins.colorFrom.Some? ==> p.colorFrom == ins.colorFrom
    ensures ins.colorTo.Some? ==> p.colorTo == ins.colorTo
  {
    Plan(id, ins.name,
      ins.cashDiscount.GetOr(DefaultDiscount),
      ins.installmentDiscount.GetOr(DefaultDiscount),
      ins.subscriptionDiscount.GetOr(DefaultDiscount),
      Some(ins.colorFrom.GetOr(DefaultColorFrom)),
      Some(ins.colorTo.GetOr(DefaultColorTo)))
  }

  /** A plan with its `id` omitted, every other property carried over. */
  function PlanInsert(p: Plan): (r: InsertPlan)
    ensures r.name == p.name
    ensures r.cashDiscount == Some(p.cashDiscount) && r.installmentDiscount == Some(p.installmentDiscount)
    ensures r.subscriptionDiscount == Some(p.subscriptionDiscount)
    ensures r.colorFrom == p.colorFrom && r.colorTo == p.colorTo
  {
    InsertPlan(p.name, Some(p.cashDiscount), Some(p.installmentDiscount),
      Some(p.subscriptionDiscount), p.colorFrom, p.colorTo)
  }

  /** A table row is exactly its id together with its insert shape; the defaults only fill what is missing. */
  lemma PlanRowRoundTrip(p: Plan)
    requires IsTableRow(p)
    ensures PlanRow(p.id, PlanInsert(p)) == p
  {
  }

  // --------------------------------------------------------------------- sales

  /** A `sales` row: four required columns and eight nullable ones. */
  datatype Sale = Sale(
    id: string,
    billingType: string,
    customer: string,
    value: int,
    dueDate: string,
    description: Option<string>,
    daysAfterDueDateToRegistrationCancellation: Option<int>,
    externalReference: Option<string>,
    installmentCount: Option<int>,
    totalValue: Option<int>,
    installmentValue: Option<int>,
    discountValue: Option<int>,
    discountDueDateLimitDays: Option<int>)

  /** `insertSaleSchema`: a sale without its id; a nullable column may be omitted or null (`None`). */
  datatype InsertSale = InsertSale(
    billingType: string,
    customer: string,
    value: int,
    dueDate: string,
    description: Option<string>,
    daysAfterDueDateToRegistrationCancellation: Option<int>,
    externalReference: Option<string>,
    installmentCount: Option<int>,
    totalValue: Option<int>,
    installmentValue: Option<int>,
    discountValue: Option<int>,
    discountDueDateLimitDays: Option<int>)

  /**
   * `Partial<InsertSale>`: the outer `Option` says whether the property is
   * present; for a nullable column the inner one says whether it is `null`.
   */
  datatype SalePatch = SalePatch(
    billingType: Option<string>,
    customer: Option<string>,
    value: Option<int>,
    dueDate: Option<string>,
    description: Option<Option<string>>,
    daysAfterDueDateToRegistrationCancellation: Option<Option<int>>,
    externalReference: Option<Option<string>>,
    installmentCount: Option<Option<int>>,
    totalValue: Option<Option<int>>,
    installmentValue: Option<Option<int>>,
    discountValue: Option<Option<int>>,
    discountDueDateLimitDays: Option<Option<int>>)

  /**
   * The row for an insert: the four required properties are copied as given
   * and each omitted nullable property becomes null.
   */
  function SaleRow(id: string, ins: InsertSale): (s: Sale)
    ensures s.id == id
    ensures SaleInsert(s) == ins
  {
    Sale(id, ins.billingType, ins.customer, ins.value, ins.dueDate,
      ins.description, ins.daysAfterDueDateToRegistrationCancellation,
      ins.externalReference, ins.installmentCount, ins.totalValue,
      ins.installmentValue, ins.discountValue, ins.discountDueDateLimitDays)
  }

  /** A sale with its `id` omitted. */
  function SaleInsert(s: Sale): (r: InsertSale)
    ensures r.billingType == s.billingType && r.customer == s.customer
    ensures r.value == s.value && r.dueDate == s.dueDate
    ensures r.description == s.description && r.externalReference == s.externalReference
    ensures r.daysAfterDueDateToRegistrationCancellation == s.daysAfterDueDateToRegistrationCancellation
    ensures r.installmentCount == s.installmentCount && r.totalValue == s.totalValue
    ensures r.installmentValue == s.installmentValue && r.discountValue == s.discountValue
    ensures r.discountDueDateLimitDays == s.discountDueDateLimitDays
  {
    InsertSale(s.billingType, s.customer, s.value, s.dueDate,
      s.description, s.daysAfterDueDateToRegistrationCancellation,
      s.externalReference, s.installmentCount, s.totalValue,
      s.installmentValue, s.discountValue, s.discountDueDateLimitDays)
  }

  /** A sale row is exactly its id together with its insert shape. */
  lemma SaleRowRoundTrip(s: Sale)
    ensures SaleRow(s.id, SaleInsert(s)) == s
  {
  }
}
