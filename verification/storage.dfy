/**
 * `MemStorage`: the in-memory store behind the REST API. Three JavaScript
 * `Map`s (users, plans, sales) keyed by generated ids; every method runs to
 * completion before the next starts.
 */
module Storage {
  import opened Wrappers
  import opened Schema
  import opened JsMaps
  import Seqs

  /**
   * Stands in for `randomUUID()`: returns an id that is not in `taken`.
   * Callers rely on nothing else about it.
   */
  method RandomId(taken: seq<string>) returns (id: string)
    ensures id !in taken
  {
    var longest := 0;
    var i := 0;
    while i < |taken|
      invariant 0 <= i <= |taken| && 0 <= longest
      invariant forall j :: 0 <= j < i ==> |taken[j]| <= longest
    {
      if |taken[i]| > longest {
        longest := |taken[i]|;
      }
      i := i + 1;
    }
    id := seq(longest + 1, _ => 'u');
  }

  /**
   * The plan `createPlan` builds: the id, the name and the three discounts
   * (0 when omitted). It copies no colour, so the stored object has no
   * `colorFrom`/`colorTo` property, unlike the row the table would store.
   */
  function NewPlan(id: string, ins: InsertPlan): (p: Plan)
    ensures p == PlanRow(id, ins).(colorFrom := None, colorTo := None)
    ensures !IsTableRow(p)
  {
    Plan(id, ins.name,
      ins.cashDiscount.GetOr(0),
      ins.installmentDiscount.GetOr(0),
      ins.subscriptionDiscount.GetOr(0),
      None, None)
  }

  /** One of the plans the constructor seeds: built like `NewPlan`, without colours. */
  function SeedPlan(id: string, name: string, cash: int, installment: int, subscription: int): (p: Plan)
    ensures p == NewPlan(id, InsertPlan(name, Some(cash), Some(installment), Some(subscription), None, None))
  {
    Plan(id, name, cash, installment, subscription, None, None)
  }

  /** `{ ...existing, ...updates }` for plans: each property present in the patch wins; `id` is never in a patch. */
  function ApplyPlanPatch(p: Plan, u: PlanPatch): (r: Plan)
    ensures r.id == p.id
    ensures u.name.Some? ==> r.name == u.name.value
    ensures u.name.None? ==> r.name == p.name
    ensures u.cashDiscount.Some? ==> r.cashDiscount == u.cashDiscount.value
    ensures u.cashDiscount.None? ==> r.cashDiscount == p.cashDiscount
    ensures u.installmentDiscount.Some? ==> r.installmentDiscount == u.installmentDiscount.value
    ensures u.installmentDiscount.None? ==> r.installmentDiscount == p.installmentDiscount
    ensures u.subscriptionDiscount.Some? ==> r.subscriptionDiscount == u.subscriptionDiscount.value
    ensures u.subscriptionDiscount.None? ==> r.subscriptionDiscount == p.subscriptionDiscount
    ensures u.colorFrom.Some? ==> r.colorFrom == u.colorFrom
    ensures u.colorFrom.None? ==> r.colorFrom == p.colorFrom
    ensures u.colorTo.Some? ==> r.colorTo == u.colorTo
    ensures u.colorTo.None? ==> r.colorTo == p.colorTo
  {
    Plan(p.id,
      u.name.GetOr(p.name),
      u.cashDiscount.GetOr(p.cashDiscount),
      u.installmentDiscount.GetOr(p.installmentDiscount),
      u.subscriptionDiscount.GetOr(p.subscriptionDiscount),
      if u.colorFrom.Some? then u.colorFrom else p.colorFrom,
      if u.colorTo.Some? then u.colorTo else p.colorTo)
  }

  /** `{ ...existing, ...updates }` for sales: a present property wins, including an explicit `null`. */
  function ApplySalePatch(s: Sale, u: SalePatch): (r: Sale)
    ensures r.id == s.id
    ensures r.billingType == u.billingType.GetOr(s.billingType)
    ensures r.customer == u.customer.GetOr(s.customer)
    ensures r.value == u.value.GetOr(s.value)
    ensures r.dueDate == u.dueDate.GetOr(s.dueDate)
    ensures r.description == u.description.GetOr(s.description)
    ensures r.daysAfterDueDateToRegistrationCancellation
      == u.daysAfterDueDateToRegistrationCancellation.GetOr(s.daysAfterDueDateToRegistrationCancellation)
    ensures r.externalReference == u.externalReference.GetOr(s.externalReference)
    ensures r.installmentCount == u.installmentCount.GetOr(s.installmentCount)
    ensures r.totalValue == u.totalValue.GetOr(s.totalValue)
    ensures r.installmentValue == u.installmentValue.GetOr(s.installmentValue)
    ensures r.discountValue == u.discountValue.GetOr(s.discountValue)
    ensures r.discountDueDateLimitDays == u.discountDueDateLimitDays.GetOr(s.discountDueDateLimitDays)
  {
    s.(
      billingType := u.billingType.GetOr(s.billingType),
      customer := u.customer.GetOr(s.customer),
      value := u.value.GetOr(s.value),
      dueDate := u.dueDate.GetOr(s.dueDate),
      description := u.description.GetOr(s.description),
      daysAfterDueDateToRegistrationCancellation :=
        u.daysAfterDueDateToRegistrationCancellation.GetOr(s.daysAfterDueDateToRegistrationCancellation),
      externalReference := u.externalReference.GetOr(s.externalReference),
      installmentCount := u.installmentCount.GetOr(s.installmentCount),
      totalValue := u.totalValue.GetOr(s.totalValue),
      installmentValue := u.installmentValue.GetOr(s.installmentValue),
      discountValue := u.discountValue.GetOr(s.discountValue),
      discountDueDateLimitDays := u.discountDueDateLimitDays.GetOr(s.discountDueDateLimitDays))
  }

  /** Merging the same patch twice is the same as merging it once. */
  lemma PatchIdempotent(p: Plan, u: PlanPatch, s: Sale, v: SalePatch)
    ensures ApplyPlanPatch(ApplyPlanPatch(p, u), u) == ApplyPlanPatch(p, u)
    ensures ApplySalePatch(ApplySalePatch(s, v), v) == ApplySalePatch(s, v)
  {
  }

  /** A patch with no property changes nothing. */
  lemma EmptyPatchIsIdentity(p: Plan, s: Sale)
    ensures ApplyPlanPatch(p, PlanPatch(None, None, None, None, None, None)) == p
    ensures ApplySalePatch(s, SalePatch(None, None, None, None, None, None, None, None, None, None, None, None)) == s
  {
  }

  /** Every stored row's `id` property equals the key it is stored under. */
  ghost predicate IdsAreKeys(users: JsMap<User>, plans: JsMap<Plan>, sales: JsMap<Sale>) {
    && (forall k :: k in users.entries ==> users.entries[k].id == k)
    && (forall k :: k in plans.entries ==> plans.entries[k].id == k)
    && (forall k :: k in sales.entries ==> sales.entries[k].id == k)
  }

  /**
   * The plan map after `forEach` has set the first `i` of `seeds`: exactly
   * their ids, in order, each under its own id.
   */
  ghost predicate SeededUpTo(m: JsMap<Plan>, seeds: seq<Plan>, i: int) {
    && 0 <= i <= |seeds|
    && m.Valid()
    && |m.keys| == i
    && (forall j :: 0 <= j < i ==> m.keys[j] == seeds[j].id && m.entries[seeds[j].id] == seeds[j])
    && (forall k :: k in m.entries ==> m.entries[k].id == k)
  }

  /** One `forEach` step: setting the next seed, whose id is new, extends the seeded prefix. */
  lemma SeedStep(m: JsMap<Plan>, seeds: seq<Plan>, i: int)
    requires SeededUpTo(m, seeds, i) && i < |seeds|
    requires forall j :: 0 <= j < i ==> seeds[j].id != seeds[i].id
    ensures SeededUpTo(m.Set(seeds[i].id, seeds[i]), seeds, i + 1)
  {
    assert seeds[i].id !in m.keys by {
      forall j | 0 <= j < |m.keys| ensures m.keys[j] != seeds[i].id {
        assert m.keys[j] == seeds[j].id;
      }
    }
  }

  class MemStorage {
    var users: JsMap<User>
    var plans: JsMap<Plan>
    var sales: JsMap<Sale>

    ghost predicate Valid()
      reads this
    {
      users.Valid() && plans.Valid() && sales.Valid() && IdsAreKeys(users, plans, sales)
    }

    /** A fresh store: no users, no sales, and the Platinum, Gold and Bronze plans in that order. */
    constructor ()
      ensures Valid()
      ensures users.Values() == [] && sales.Values() == []
      ensures |plans.Values()| == 3
      ensures plans.Values()[0] == SeedPlan(plans.keys[0], "Platinum", 15, 10, 20)
      ensures plans.Values()[1] == SeedPlan(plans.keys[1], "Gold", 10, 7, 15)
      ensures plans.Values()[2] == SeedPlan(plans.keys[2], "Bronze", 5, 3, 10)
    {
      users := Empty();
      plans := Empty();
      sales := Empty();
      new;
      var id0 := RandomId([]);
      var id1 := RandomId([id0]);
      var id2 := RandomId([id0, id1]);
      var defaultPlans := [
        SeedPlan(id0, "Platinum", 15, 10, 20),
        SeedPlan(id1, "Gold", 10, 7, 15),
        SeedPlan(id2, "Bronze", 5, 3, 10)
      ];
      assert forall i, j :: 0 <= j < i < |defaultPlans| ==> defaultPlans[j].id != defaultPlans[i].id;
      for i := 0 to |defaultPlans|
        invariant users == Empty() && sales == Empty()
        invariant SeededUpTo(plans, defaultPlans, i)
      {
        SeedStep(plans, defaultPlans, i);
        plans := plans.Set(defaultPlans[i].id, defaultPlans[i]);
      }
    }

    /** `getUser(id)`: the user stored under `id`, if any. */
    function GetUser(id: string): (r: Option<User>)
      reads this
      requires Valid()
      ensures r.Some? <==> id in users.keys
      ensures r.Some? ==> r.value.id == id && r.value == users.entries[id]
    {
      users.Get(id)
    }

    /** `getUserByUsername(username)`: the first user in insertion order with that username. */
    method GetUserByUsername(username: string) returns (r: Option<User>)
      requires Valid()
      ensures r.None? <==> forall i :: 0 <= i < |users.keys| ==> users.Values()[i].username != username
      ensures r.Some? ==> exists i :: 0 <= i < |users.keys| && r.value == users.Values()[i]
                                && r.value.username == username
                                && (forall j :: 0 <= j < i ==> users.Values()[j].username != username)
    {
      var all := users.Values();
      var i := 0;
      while i < |all|
        invariant 0 <= i <= |all|
        invariant forall j :: 0 <= j < i ==> all[j].username != username
      {
        if all[i].username == username {
          return Some(all[i]);
        }
        i := i + 1;
      }
      return None;
    }

    /** `createUser(insertUser)`: stores the user under a new id and returns it. */
    method CreateUser(ins: InsertUser) returns (u: User)
      requires Valid()
      modifies this
      ensures Valid()
      ensures u == UserRow(u.id, ins)
      ensures u.id !in old(users.keys)
      ensures users == old(users).Set(u.id, u)
      ensures GetUser(u.id) == Some(u)
      ensures plans == old(plans) && sales == old(sales)
    {
      var id := RandomId(users.keys);
      u := UserRow(id, ins);
      users := users.Set(id, u);
    }

    /** `getPlans()`: every plan, in insertion order. */
    function GetPlans(): (r: seq<Plan>)
      reads this
      requires Valid()
      ensures |r| == |plans.keys|
      ensures forall i :: 0 <= i < |r| ==> r[i].id == plans.keys[i] && r[i] == plans.entries[plans.keys[i]]
    {
      plans.Values()
    }

    /** `getPlan(id)`: the plan stored under `id`, if any. */
    function GetPlan(id: string): (r: Option<Plan>)
      reads this
      requires Valid()
      ensures r.Some? <==> id in plans.keys
      ensures r.Some? ==> r.value.id == id && r.value == plans.entries[id]
    {
      plans.Get(id)
    }

    /** `createPlan(insertPlan)`: stores `NewPlan` under an id no plan had, at the end of the listing. */
    method CreatePlan(ins: InsertPlan) returns (p: Plan)
      requires Valid()
      modifies this
      ensures Valid()
      ensures p == NewPlan(p.id, ins)
      ensures p.id !in old(plans.keys)
      ensures plans == old(plans).Set(p.id, p)
      ensures GetPlan(p.id) == Some(p)
      ensures GetPlans() == old(GetPlans()) + [p]
      ensures users == old(users) && sales == old(sales)
    {
      var id := RandomId(plans.keys);
      p := NewPlan(id, ins);
      plans := plans.Set(id, p);
    }

    /** `updatePlan(id, updates)`: merges the patch into the plan under `id`; `None` and no change when there is none. */
    method UpdatePlan(id: string, updates: PlanPatch) returns (r: Option<Plan>)
      requires Valid()
      modifies this
      ensures Valid()
      ensures id !in old(plans.keys) ==> r == None && plans == old(plans)
      ensures id in old(plans.keys) ==>
        && r == Some(ApplyPlanPatch(old(plans.entries[id]), updates))
        && plans == old(plans).Set(id, r.value)
        && plans.keys == old(plans.keys)
        && GetPlan(id) == r
      ensures users == old(users) && sales == old(sales)
    {
      var existing := plans.Get(id);
      if existing.None? {
        return None;
      }
      var updated := ApplyPlanPatch(existing.value, updates);
      plans := plans.Set(id, updated);
      return Some(updated);
    }

    /** `deletePlan(id)`: removes the plan under `id`; true exactly when there was one. */
    method DeletePlan(id: string) returns (removed: bool)
      requires Valid()
      modifies this
      ensures Valid()
      ensures removed == (id in old(plans.keys))
      ensures plans == old(plans).Delete(id).0
      ensures GetPlan(id) == None
      ensures users == old(users) && sales == old(sales)
    {
      var result := plans.Delete(id);
      plans, removed := result.0, result.1;
    }

    /** `getSales()`: every sale, in insertion order. */
    function GetSales(): (r: seq<Sale>)
      reads this
      requires Valid()
      ensures |r| == |sales.keys|
      ensures forall i :: 0 <= i < |r| ==> r[i].id == sales.keys[i] && r[i] == sales.entries[sales.keys[i]]
    {
      sales.Values()
    }

    /** `getSale(id)`: the sale stored under `id`, if any. */
    function GetSale(id: string): (r: Option<Sale>)
      reads this
      requires Valid()
      ensures r.Some? <==> id in sales.keys
      ensures r.Some? ==> r.value.id == id && r.value == sales.entries[id]
    {
      sales.Get(id)
    }

    /** `createSale(insertSale)`: stores `SaleRow` under an id no sale had, at the end of the listing. */
    method CreateSale(ins: InsertSale) returns (s: Sale)
      requires Valid()
      modifies this
      ensures Valid()
      ensures s == SaleRow(s.id, ins)
      ensures s.id !in old(sales.keys)
      ensures sales == old(sales).Set(s.id, s)
      ensures GetSale(s.id) == Some(s)
      ensures GetSales() == old(GetSales()) + [s]
      ensures users == old(users) && plans == old(plans)
    {
      var id := RandomId(sales.keys);
      s := SaleRow(id, ins);
      sales := sales.Set(id, s);
    }

    /** `updateSale(id, updates)`: merges the patch into the sale under `id`; `None` and no change when there is none. */
    method UpdateSale(id: string, updates: SalePatch) returns (r: Option<Sale>)
      requires Valid()
      modifies this
      ensures Valid()
      ensures id !in old(sales.keys) ==> r == None && sales == old(sales)
      ensures id in old(sales.keys) ==>
        && r == Some(ApplySalePatch(old(sales.entries[id]), updates))
        && sales == old(sales).Set(id, r.value)
        && sales.keys == old(sales.keys)
        && GetSale(id) == r
      ensures users == old(users) && plans == old(plans)
    {
      var existing := sales.Get(id);
      if existing.None? {
        return None;
      }
      var updated := ApplySalePatch(existing.value, updates);
      sales := sales.Set(id, updated);
      return Some(updated);
    }

    /** `deleteSale(id)`: removes the sale under `id`; true exactly when there was one. */
    method DeleteSale(id: string) returns (removed: bool)
      requires Valid()
      modifies this
      ensures Valid()
      ensures removed == (id in old(sales.keys))
      ensures sales == old(sales).Delete(id).0
      ensures GetSale(id) == None
      ensures users == old(users) && plans == old(plans)
    {
      var result := sales.Delete(id);
      sales, removed := result.0, result.1;
    }
  }
}

/**
 * A caller's view of the store, using only the contracts above: a new plan
 * gets default discounts and a fresh id, a patch changes only what it names,
 * and deleting twice reports false the second time.
 */
module StorageClient {
  import opened Wrappers
  import opened Schema
  import opened Storage

  method PlanLifecycle() {
    var store := new MemStorage();
    assert |store.GetPlans()| == 3;
    var silver := store.CreatePlan(InsertPlan("Silver", Some(8), None, None, None, None));
    assert silver.cashDiscount == 8 && silver.installmentDiscount == 0 && silver.subscriptionDiscount == 0;
    assert |store.GetPlans()| == 4 && store.GetPlans()[3] == silver;
    var updated := store.UpdatePlan(silver.id, PlanPatch(None, None, Some(4), None, None, None));
    assert updated == Some(silver.(installmentDiscount := 4));
    assert store.GetPlans()[3] == updated.value;
    var first := store.DeletePlan(silver.id);
    var second := store.DeletePlan(silver.id);
    assert first && !second;
    var missing := store.UpdatePlan(silver.id, PlanPatch(Some("Gold"), None, None, None, None, None));
    assert missing == None;
  }

  /** The store does not enforce the unique plan name the table declares: a second "Gold" is accepted. */
  method DuplicatePlanName() {
    var store := new MemStorage();
    var gold := store.CreatePlan(InsertPlan("Gold", None, None, None, None, None));
    assert store.GetPlans()[1].name == "Gold" && store.GetPlans()[3].name == "Gold";
    assert store.GetPlans()[1].id != store.GetPlans()[3].id;
  }
}
