/**
 * The sales page: the plan-discount calculator, the save decision, editing
 * and resetting the dialog's form, and the search filter over the sales list.
 * React state setters become functions from the old page state to the new one.
 */
module Vendas {
  import opened Wrappers
  import opened Schema
  import opened Text
  import Seqs

  /** The dialog's `formData`: every property of a sale except the id, none of them null. */
  datatype SaleForm = SaleForm(
    billingType: string,
    customer: string,
    value: int,
    dueDate: string,
    description: string,
    daysAfterDueDateToRegistrationCancellation: int,
    externalReference: string,
    installmentCount: int,
    totalValue: int,
    installmentValue: int,
    discountValue: int,
    discountDueDateLimitDays: int)

  /** The form's initial and reset contents. */
  const DefaultForm := SaleForm("BOLETO", "", 0, "", "", 1, "", 1, 0, 0, 0, 1)

  /** The page's state: the form, the sale being edited (if any), the chosen plan name, the dialog and the search box. */
  datatype PageState = PageState(
    form: SaleForm,
    editingSale: Option<Sale>,
    selectedPlan: string,
    isDialogOpen: bool,
    searchTerm: string)

  // ------------------------------------------------------------------ discount

  /**
   * The percentage a plan grants: the cash discount for PIX and BOLETO and for
   * CREDIT_CARD in a single instalment, the instalment discount for CREDIT_CARD
   * in any other number of instalments, and nothing for any other billing type.
   */
  function DiscountPercent(billingType: string, installmentCount: int, plan: Plan): (r: int)
    ensures billingType == "PIX" || billingType == "BOLETO" ==> r == plan.cashDiscount
    ensures billingType == "CREDIT_CARD" && installmentCount == 1 ==> r == plan.cashDiscount
    ensures billingType == "CREDIT_CARD" && installmentCount != 1 ==> r == plan.installmentDiscount
    ensures billingType !in {"PIX", "BOLETO", "CREDIT_CARD"} ==> r == 0
  {
    if billingType == "PIX" || billingType == "BOLETO" then
      plan.cashDiscount
    else if billingType == "CREDIT_CARD" then
      if installmentCount == 1 then plan.cashDiscount else plan.installmentDiscount
    else
      0
  }

  /** Whatever the billing type, a plan whose discounts lie in 0..100 grants a percentage in 0..100. */
  lemma DiscountPercentInRange(billingType: string, installmentCount: int, plan: Plan)
    requires 0 <= plan.cashDiscount <= 100 && 0 <= plan.installmentDiscount <= 100
    ensures 0 <= DiscountPercent(billingType, installmentCount, plan) <= 100
  {
  }

  /**
   * `Math.round(value * (percent / 100))` in exact arithmetic: the integer
   * nearest to value * percent / 100, a tie going up (towards +infinity).
   */
  function DiscountAmount(value: int, percent: int): (d: int)
    ensures 100 * d - 50 <= value * percent < 100 * d + 50
  {
    (value * percent + 50) / 100
  }

  /** A non-negative value discounted by a percentage in 0..100 gives an amount between 0 and the value. */
  lemma DiscountWithinValue(value: int, percent: int)
    requires value >= 0 && 0 <= percent <= 100
    ensures 0 <= DiscountAmount(value, percent) <= value
  {
    var d := DiscountAmount(value, percent);
    var product := value * percent;
    ProductWithinHundredfold(value, percent);
    assert 100 * d - 50 <= product <= 100 * value;
    assert 0 <= product < 100 * d + 50;
  }

  /** The product of a non-negative value and a percentage in 0..100 lies between 0 and a hundred times the value. */
  lemma ProductWithinHundredfold(value: int, percent: int)
    requires value >= 0 && 0 <= percent <= 100
    ensures 0 <= value * percent <= 100 * value
  {
    assert value * percent + value * (100 - percent) == 100 * value;
    assert value * (100 - percent) >= 0;
  }

  /** `plans.find(p => p.name === name)`: the first plan with that name. */
  function FindPlan(plans: seq<Plan>, name: string): (r: Option<Plan>)
    ensures r.None? <==> forall i :: 0 <= i < |plans| ==> plans[i].name != name
    ensures r.Some? ==> exists i :: 0 <= i < |plans| && plans[i] == r.value
                                  && r.value.name == name
                                  && (forall j :: 0 <= j < i ==> plans[j].name != name)
  {
    if plans == [] then None
    else if plans[0].name == name then Some(plans[0])
    else
      var r := FindPlan(plans[1..], name);
      assert forall i :: 0 < i < |plans| ==> plans[i] == plans[1..][i - 1];
      r
  }

  /**
   * `calculateDiscount`: with a plan selected, a non-zero value and a plan of
   * that name, writes the plan's discount amount into `discountValue`;
   * otherwise the form stays as it is. No other property of the form changes.
   */
  function CalculateDiscount(form: SaleForm, selectedPlan: string, plans: seq<Plan>): (r: SaleForm)
    ensures r.(discountValue := form.discountValue) == form
    ensures selectedPlan == "" || form.value == 0 ==> r == form
    ensures (forall i :: 0 <= i < |plans| ==> plans[i].name != selectedPlan) ==> r == form
    ensures selectedPlan != "" && form.value != 0 && FindPlan(plans, selectedPlan).Some? ==>
      r.discountValue == DiscountAmount(form.value,
        DiscountPercent(form.billingType, form.installmentCount, FindPlan(plans, selectedPlan).value))
  {
    if selectedPlan == "" || form.value == 0 then form
    else
      match FindPlan(plans, selectedPlan)
      case None => form
      case Some(plan) =>
        var percent := DiscountPercent(form.billingType, form.installmentCount, plan);
        form.(discountValue := DiscountAmount(form.value, percent))
  }

  /** With a non-negative value and a plan whose discounts lie in 0..100, the calculated discount never exceeds the value. */
  lemma CalculatedDiscountBounded(form: SaleForm, selectedPlan: string, plans: seq<Plan>)
    requires form.value >= 0 && 0 <= form.discountValue <= form.value
    requires forall i :: 0 <= i < |plans| ==>
      0 <= plans[i].cashDiscount <= 100 && 0 <= plans[i].installmentDiscount <= 100
    ensures 0 <= CalculateDiscount(form, selectedPlan, plans).discountValue <= form.value
  {
    var found := FindPlan(plans, selectedPlan);
    if selectedPlan != "" && form.value != 0 && found.Some? {
      var plan := found.value;
      DiscountPercentInRange(form.billingType, form.installmentCount, plan);
      DiscountWithinValue(form.value, DiscountPercent(form.billingType, form.installmentCount, plan));
    }
  }

  // ---------------------------------------------------------------------- save

  /** What `handleSave` does: refuse the form, or send it to be created, or to update the sale with `id`. */
  datatype SaveAction = Reject | Create(data: SaleForm) | Update(id: string, data: SaleForm)

  /** `handleSave`: refuses a blank customer or an empty due date, otherwise updates the sale being edited or creates one. */
  function HandleSave(state: PageState): (r: SaveAction)
    ensures r.Reject? <==> IsBlank(state.form.customer) || state.form.dueDate == ""
    ensures r.Create? <==> !r.Reject? && state.editingSale.None?
    ensures r.Create? ==> r.data == state.form
    ensures r.Update? ==> state.editingSale.Some? && r.id == state.editingSale.value.id && r.data == state.form
  {
    TrimEmptyIffBlank(state.form.customer);
    if Trim(state.form.customer) == "" || state.form.dueDate == "" then Reject
    else if state.editingSale.Some? then Update(state.editingSale.value.id, state.form)
    else Create(state.form)
  }

  // ---------------------------------------------------------- edit and reset

  /** `x || fallback` on a nullable integer: null and 0 are both falsy. */
  function IntOr(x: Option<int>, fallback: int): (r: int)
    ensures x.Some? && x.value != 0 ==> r == x.value
    ensures x.None? || x.value == 0 ==> r == fallback
  {
    if x.Some? && x.value != 0 then x.value else fallback
  }

  /** `x || ""` on a nullable string. */
  function TextOr(x: Option<string>): (r: string)
    ensures x.Some? ==> r == x.value
    ensures x.None? ==> r == ""
  {
    x.GetOr("")
  }

  /**
   * `handleEdit(sale)`: records the sale, copies it into the form (a null or
   * zero optional property falls back to the form's default) and opens the
   * dialog. The chosen plan and the search term are untouched.
   */
  function HandleEdit(state: PageState, sale: Sale): (r: PageState)
    ensures r.editingSale == Some(sale) && r.isDialogOpen
    ensures r.selectedPlan == state.selectedPlan && r.searchTerm == state.searchTerm
    ensures r.form.billingType == sale.billingType && r.form.customer == sale.customer
    ensures r.form.value == sale.value && r.form.dueDate == sale.dueDate
    ensures r.form.description == TextOr(sale.description)
    ensures r.form.externalReference == TextOr(sale.externalReference)
    ensures r.form.daysAfterDueDateToRegistrationCancellation == IntOr(sale.daysAfterDueDateToRegistrationCancellation, 1)
    ensures r.form.installmentCount == IntOr(sale.installmentCount, 1)
    ensures r.form.totalValue == IntOr(sale.totalValue, 0)
    ensures r.form.installmentValue == IntOr(sale.installmentValue, 0)
    ensures r.form.discountValue == IntOr(sale.discountValue, 0)
    ensures r.form.discountDueDateLimitDays == IntOr(sale.discountDueDateLimitDays, 1)
  {
    state.(
      editingSale := Some(sale),
      form := SaleForm(
        sale.billingType, sale.customer, sale.value, sale.dueDate,
        TextOr(sale.description),
        IntOr(sale.daysAfterDueDateToRegistrationCancellation, 1),
        TextOr(sale.externalReference),
        IntOr(sale.installmentCount, 1),
        IntOr(sale.totalValue, 0),
        IntOr(sale.installmentValue, 0),
        IntOr(sale.discountValue, 0),
        IntOr(sale.discountDueDateLimitDays, 1)),
      isDialogOpen := true)
  }

  /** `resetForm`: forgets the sale being edited and restores the default form; nothing else changes. */
  function ResetForm(state: PageState): (r: PageState)
    ensures r.editingSale.None?
    ensures r.form.customer == "" && r.form.dueDate == "" && r.form.value == 0
    ensures r.form == DefaultForm
    ensures r.(form := state.form, editingSale := state.editingSale) == state
  {
    state.(editingSale := None, form := DefaultForm)
  }

  /** A freshly reset form cannot be saved: its customer and due date are empty. */
  lemma SaveAfterResetRejects(state: PageState)
    ensures HandleSave(ResetForm(state)) == Reject
  {
  }

  /** Saving right after editing a sale whose customer and due date are filled in updates that very sale. */
  lemma SaveAfterEditUpdates(state: PageState, sale: Sale)
    requires !IsBlank(sale.customer) && sale.dueDate != ""
    ensures HandleSave(HandleEdit(state, sale)) == Update(sale.id, HandleEdit(state, sale).form)
  {
  }

  // -------------------------------------------------------------------- search

  /**
   * The search predicate: the term occurs in the customer or the description
   * ignoring case, or occurs as written in the external reference.
   */
  predicate SaleMatches(s: Sale, term: string)
    ensures SaleMatches(s, term) <==>
      || Occurs(ToLower(s.customer), ToLower(term))
      || (s.description.Some? && Occurs(ToLower(s.description.value), ToLower(term)))
      || (s.externalReference.Some? && Occurs(s.externalReference.value, term))
    ensures term == "" ==> SaleMatches(s, term)
  {
    ContainsIffOccurs(ToLower(s.customer), ToLower(term));
    ContainsIffOccurs(ToLower(s.description.GetOr("")), ToLower(term));
    ContainsIffOccurs(s.externalReference.GetOr(""), term);
    || Contains(ToLower(s.customer), ToLower(term))
    || (s.description.Some? && Contains(ToLower(s.description.value), ToLower(term)))
    || (s.externalReference.Some? && Contains(s.externalReference.value, term))
  }

  /** `filteredSales`: the sales that match, in their original order. */
  function FilteredSales(sales: seq<Sale>, term: string): (r: seq<Sale>)
    ensures Seqs.Sublist(r, sales)
    ensures forall i :: 0 <= i < |r| ==> SaleMatches(r[i], term)
    ensures forall i :: 0 <= i < |sales| && SaleMatches(sales[i], term) ==> sales[i] in r
    ensures forall s :: multiset(r)[s] == if SaleMatches(s, term) then multiset(sales)[s] else 0
  {
    Seqs.FilterMembers(sales, (s: Sale) => SaleMatches(s, term));
    Seqs.Filter(sales, (s: Sale) => SaleMatches(s, term))
  }

  /** An empty search term shows every sale. */
  lemma EmptySearchKeepsAllSales(sales: seq<Sale>)
    ensures FilteredSales(sales, "") == sales
  {
    forall i | 0 <= i < |sales| ensures SaleMatches(sales[i], "") {
      ContainsEmpty(ToLower(sales[i].customer));
    }
    Seqs.FilterKeepsAll(sales, (s: Sale) => SaleMatches(s, ""));
  }
}
