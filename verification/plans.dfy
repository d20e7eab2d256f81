/**
 * The plans page: the plan dialog's form, the save decision, editing and
 * resetting, the colour palettes and the gradient class of a plan card.
 */
module Plans {
  import opened Wrappers
  import opened Schema
  import opened Text

  /**
   * The dialog's `formData`. The colours are optional because editing a plan
   * the store created copies its missing colour properties as `undefined`.
   */
  datatype PlanForm = PlanForm(
    name: string,
    cashDiscount: int,
    installmentDiscount: int,
    subscriptionDiscount: int,
    colorFrom: Option<string>,
    colorTo: Option<string>)

  /** The form's initial and reset contents: no name, no discounts, the blue-to-purple palette. */
  const DefaultForm := PlanForm("", 0, 0, 0, Some("blue-500"), Some("purple-600"))

  datatype PageState = PageState(form: PlanForm, editingPlan: Option<Plan>, isDialogOpen: bool)

  /** A colour palette offered in the dialog (its CSS gradient preview is not modelled). */
  datatype Palette = Palette(id: string, from: string, to: string, title: string)

  const Palettes: seq<Palette> := [
    Palette("platinum", "slate-400", "gray-600", "Platinum"),
    Palette("gold", "yellow-400", "orange-500", "Gold"),
    Palette("bronze", "orange-600", "amber-700", "Bronze"),
    Palette("blue-purple", "blue-500", "purple-600", "Azul/Roxo"),
    Palette("green-teal", "green-500", "teal-600", "Verde/Turquesa"),
    Palette("orange-red", "orange-500", "red-600", "Laranja/Vermelho"),
    Palette("pink-rose", "pink-500", "rose-600", "Rosa/Rosa Escuro"),
    Palette("indigo-blue", "indigo-500", "blue-600", "Índigo/Azul"),
    Palette("cyan-blue", "cyan-500", "blue-600", "Ciano/Azul"),
    Palette("purple-pink", "purple-500", "pink-600", "Roxo/Rosa"),
    Palette("emerald-green", "emerald-500", "green-600", "Esmeralda/Verde"),
    Palette("violet-purple", "violet-500", "purple-600", "Violeta/Roxo")
  ]

  // ---------------------------------------------------------------------- save

  /** What `handleSave` does: refuse the form, or send it to be created, or to update the plan with `id`. */
  datatype SaveAction = Reject | Create(data: PlanForm) | Update(id: string, data: PlanForm)

  /** `handleSave`: refuses a blank name, otherwise updates the plan being edited or creates one. */
  function HandleSave(state: PageState): (r: SaveAction)
    ensures r.Reject? <==> IsBlank(state.form.name)
    ensures r.Create? <==> !IsBlank(state.form.name) && state.editingPlan.None?
    ensures r.Create? ==> r.data == state.form
    ensures r.Update? ==> state.editingPlan.Some? && r.id == state.editingPlan.value.id && r.data == state.form
  {
    TrimEmptyIffBlank(state.form.name);
    if Trim(state.form.name) == "" then Reject
    else if state.editingPlan.Some? then Update(state.editingPlan.value.id, state.form)
    else Create(state.form)
  }

  // ---------------------------------------------------------- edit and reset

  /** `handleEdit(plan)`: records the plan, copies its six properties into the form and opens the dialog. */
  function HandleEdit(state: PageState, plan: Plan): (r: PageState)
    ensures r.editingPlan == Some(plan) && r.isDialogOpen
    ensures r.form.name == plan.name
    ensures r.form.cashDiscount == plan.cashDiscount
    ensures r.form.installmentDiscount == plan.installmentDiscount
    ensures r.form.subscriptionDiscount == plan.subscriptionDiscount
    ensures r.form.colorFrom == plan.colorFrom && r.form.colorTo == plan.colorTo
  {
    PageState(
      PlanForm(plan.name, plan.cashDiscount, plan.installmentDiscount,
        plan.subscriptionDiscount, plan.colorFrom, plan.colorTo),
      Some(plan),
      true)
  }

  /** `resetForm`: forgets the plan being edited and restores the default form; the dialog is untouched. */
  function ResetForm(state: PageState): (r: PageState)
    ensures r.editingPlan.None? && r.isDialogOpen == state.isDialogOpen
    ensures r.form.name == "" && r.form.cashDiscount == 0
    ensures r.form.installmentDiscount == 0 && r.form.subscriptionDiscount == 0
    ensures r.form.colorFrom == Some("blue-500") && r.form.colorTo == Some("purple-600")
  {
    state.(editingPlan := None, form := DefaultForm)
  }

  /** A freshly reset form cannot be saved, because its name is empty. */
  lemma SaveAfterResetRejects(state: PageState)
    ensures HandleSave(ResetForm(state)) == Reject
  {
  }

  /** Saving right after editing a plan with a non-blank name sends an update of that plan carrying all six of its properties. */
  lemma SaveAfterEditUpdates(state: PageState, plan: Plan)
    requires !IsBlank(plan.name)
    ensures HandleSave(HandleEdit(state, plan)) ==
      Update(plan.id, PlanForm(plan.name, plan.cashDiscount, plan.installmentDiscount,
        plan.subscriptionDiscount, plan.colorFrom, plan.colorTo))
  {
  }

  // ------------------------------------------------------------------ palettes

  /** Clicking a palette: both colours become the palette's pair; every other field stays. */
  function SelectPalette(form: PlanForm, p: Palette): (r: PlanForm)
    ensures r.colorFrom == Some(p.from) && r.colorTo == Some(p.to)
    ensures r.(colorFrom := form.colorFrom, colorTo := form.colorTo) == form
  {
    form.(colorFrom := Some(p.from), colorTo := Some(p.to))
  }

  /** A palette is drawn highlighted when both of its colours are the form's colours. */
  predicate IsHighlighted(form: PlanForm, p: Palette)
    ensures IsHighlighted(form, p) <==> SelectPalette(form, p) == form
  {
    form.colorFrom == Some(p.from) && form.colorTo == Some(p.to)
  }

  /** No two palettes share the same pair of colours. */
  lemma PalettePairsDistinct()
    ensures forall i, j :: 0 <= i < j < |Palettes| ==>
      (Palettes[i].from, Palettes[i].to) != (Palettes[j].from, Palettes[j].to)
  {
  }

  /** After clicking palette `k`, exactly that palette is highlighted. */
  lemma SelectedPaletteIsTheOnlyHighlight(form: PlanForm, k: int)
    requires 0 <= k < |Palettes|
    ensures forall i :: 0 <= i < |Palettes| ==>
      (IsHighlighted(SelectPalette(form, Palettes[k]), Palettes[i]) <==> i == k)
  {
    PalettePairsDistinct();
  }

  /** The default form highlights the blue-to-purple palette and no other. */
  lemma DefaultFormHighlightsBluePurple()
    ensures forall i :: 0 <= i < |Palettes| ==> (IsHighlighted(DefaultForm, Palettes[i]) <==> Palettes[i].id == "blue-purple")
  {
    assert DefaultForm == SelectPalette(DefaultForm, Palettes[3]);
    SelectedPaletteIsTheOnlyHighlight(DefaultForm, 3);
  }

  // ------------------------------------------------------------------ gradient

  /** A value interpolated into a template literal: a missing property reads "undefined". */
  function Interpolate(x: Option<string>): (r: string)
    ensures x.Some? ==> r == x.value
    ensures x.None? ==> r == "undefined"
  {
    x.GetOr("undefined")
  }

  /** `getPlanColor(plan)`: the Tailwind classes `from-<colorFrom> to-<colorTo>`. */
  function GetPlanColor(plan: Plan): (r: string)
    ensures plan.colorFrom.Some? && plan.colorTo.Some? ==>
      r == "from-" + plan.colorFrom.value + " to-" + plan.colorTo.value
    ensures plan.colorFrom.Some? && plan.colorTo.None? ==> r == "from-" + plan.colorFrom.value + " to-undefined"
    ensures plan.colorFrom.None? && plan.colorTo.Some? ==> r == "from-undefined to-" + plan.colorTo.value
    ensures plan.colorFrom.None? && plan.colorTo.None? ==> r == "from-undefined to-undefined"
  {
    "from-" + Interpolate(plan.colorFrom) + " to-" + Interpolate(plan.colorTo)
  }

  /** For colour names without spaces the class string is exactly two classes, `from-…` and `to-…`. */
  lemma PlanColorIsTwoClasses(plan: Plan)
    requires ' ' !in Interpolate(plan.colorFrom) && ' ' !in Interpolate(plan.colorTo)
    ensures Split(GetPlanColor(plan)) == ["from-" + Interpolate(plan.colorFrom), "to-" + Interpolate(plan.colorTo)]
  {
    var a := "from-" + Interpolate(plan.colorFrom);
    var b := "to-" + Interpolate(plan.colorTo);
    assert ' ' !in a && ' ' !in b;
    assert GetPlanColor(plan) == a + " " + b;
    SplitNoSpace(b);
    SplitAroundSpace(a, b);
  }

  /** A string without spaces splits into itself. */
  lemma {:induction false} SplitNoSpace(s: string)
    requires ' ' !in s
    ensures Split(s) == [s]
  {
    if s != [] {
      assert ' ' !in s[1..] by { assert forall i :: 0 <= i < |s[1..]| ==> s[1..][i] == s[i + 1]; }
      SplitNoSpace(s[1..]);
      assert [s[0]] + s[1..] == s;
    }
  }

  /** A space-free prefix followed by a space splits off as the first segment. */
  lemma {:induction false} SplitAroundSpace(a: string, b: string)
    requires ' ' !in a
    ensures Split(a + " " + b) == [a] + Split(b)
  {
    if a == [] {
      assert a + " " + b == [' '] + b;
      assert ([' '] + b)[1..] == b;
    } else {
      assert ' ' !in a[1..] by { assert forall i :: 0 <= i < |a[1..]| ==> a[1..][i] == a[i + 1]; }
      SplitAroundSpace(a[1..], b);
      assert (a + " " + b)[1..] == a[1..] + " " + b;
      assert [a[0]] + a[1..] == a;
    }
  }

  /** A plan the store built, with no colour properties, is drawn with the classes `from-undefined to-undefined`. */
  lemma ColourlessPlanColor(plan: Plan)
    requires plan.colorFrom.None? && plan.colorTo.None?
    ensures GetPlanColor(plan) == "from-undefined to-undefined"
  {
  }
}
