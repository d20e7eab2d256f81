# wPanel business logic in Dafny

wPanel is a small administration dashboard for clients, suppliers, discount
plans and sales. This project models the parts of it that hold logic:

- **The in-memory store** (`MemStorage`): three JavaScript `Map`s (users,
  plans, sales) keyed by generated ids, with create / get / list /
  shallow-merge update / delete. It is a Dafny class (`Storage.MemStorage`)
  whose three fields are insertion-ordered maps (`JsMaps.JsMap`: the key
  order that `values()` iterates in, plus the entries). The methods reassign
  these fields. `randomUUID()` is the method `Storage.RandomId`. The model
  relies on only one promise from it: the id it returns is not already a key.
- **The row shapes** of the `users`, `plans` and `sales` tables, their
  insert shapes (the row without `id`), their partial-update shapes and
  their column defaults (`Schema`).
- **The pages' business rules**, as pure functions from the old page state
  to the new one:
  - the sales page (`Vendas`): the plan discount and its half-up rounding,
    the save decision, edit and reset, and the search filter;
  - the plans page (`Plans`): the save decision, edit and reset, the colour
    palettes and the gradient class;
  - the clients and suppliers pages (`Clientes`, `Fornecedores`): delete by
    id, the search filters, the avatar initials and the badges.

Shared pieces:
- `Seqs.Filter` models `Array.prototype.filter`. It is proved to return an
  order-preserving sublist that holds every copy of each accepted element
  and no copy of a rejected one.
- `Text` models the string operations the pages call: `toLowerCase`,
  `includes`, `trim`, `split(" ")` and the initials.

Behaviour the model follows from the code:
- `createPlan` and the constructor's seeded plans copy only the id, the name
  and the three discounts. A created or seeded plan therefore has no
  `colorFrom` or `colorTo` property until an update supplies them. This is
  although the `plans` table declares both NOT NULL with the defaults
  "blue-500" and "purple-600". `updatePlan` spreads the patch
  (`Storage.ApplyPlanPatch`), so the colours the plans page sends on an
  update are stored. The model keeps this:
  - `Schema.Plan` has optional colours;
  - `Storage.NewPlan` states how it differs from the row the table would
    store;
  - `Plans.ColourlessPlanColor` shows that a plan without colours gets the
    class string `from-undefined to-undefined` on its card.
- `getPlans`/`getSales` return rows in insertion order. An update keeps a
  row's place.
- The store does not enforce the unique plan name or the unique username
  that the tables declare. `StorageClient.DuplicatePlanName` shows a second
  "Gold" plan being accepted.
- The sales page's `handleEdit` uses `x || default`. A stored `0` therefore
  falls back to the default just like `null` does (`Vendas.IntOr`).

## Model

| member | source | states |
|---|---|---|
| `Storage.RandomId` | server/storage.ts:52 | the generated id is not among the ids already taken |
| `Storage.NewPlan` | server/storage.ts:68-74 | a created plan is the table row for the insert with each omitted discount 0, minus both colour properties: colours in the input are not stored |
| `Storage.SeedPlan` | server/storage.ts:33-35 | a seeded plan is built exactly as `createPlan` would build it from its name and three discounts |
| `Storage.ApplyPlanPatch` | server/storage.ts:83 | the merged plan keeps its id; each property present in the patch overwrites, each absent one is preserved |
| `Storage.ApplySalePatch` | server/storage.ts:125 | the merged sale keeps its id; each present property (an explicit null included) overwrites, each absent one is preserved |
| `Storage.PatchIdempotent` | server/storage.ts:83-84 | merging the same patch twice equals merging it once, for plans and sales |
| `Storage.EmptyPatchIsIdentity` | server/storage.ts:125-126 | a patch with no properties leaves a plan or a sale unchanged |
| `Storage.MemStorage.constructor` | server/storage.ts:27-39 | a fresh store has no users and no sales, and exactly three plans in this order: Platinum 15/10/20, Gold 10/7/15, Bronze 5/3/10 |
| `Storage.MemStorage.GetUser` | server/storage.ts:41-43 | a user is returned exactly when the id is a key, and it carries that id |
| `Storage.MemStorage.GetUserByUsername` | server/storage.ts:45-49 | none exactly when no user has the username; otherwise the first user, in insertion order, that has it |
| `Storage.MemStorage.CreateUser` | server/storage.ts:51-56 | the user is the insert plus a previously unused id, is appended to the map, can then be read back with `GetUser`; plans and sales are unchanged |
| `Storage.MemStorage.GetPlans` | server/storage.ts:58-60 | the plans in insertion order, each carrying the key it is stored under |
| `Storage.MemStorage.GetPlan` | server/storage.ts:62-64 | a plan is returned exactly when the id is a key, and it carries that id |
| `Storage.MemStorage.CreatePlan` | server/storage.ts:66-77 | stores `NewPlan` under an id no plan had; the listing grows by exactly that plan at the end; `GetPlan` returns it; users and sales are unchanged |
| `Storage.MemStorage.UpdatePlan` | server/storage.ts:79-86 | absent id: none is returned and nothing changes; present id: the merged plan is stored and returned, and the key order is unchanged; users and sales are unchanged |
| `Storage.MemStorage.DeletePlan` | server/storage.ts:88-90 | returns true exactly when the id was present; afterwards it is absent and the other keys keep their order; users and sales are unchanged |
| `Storage.MemStorage.GetSales` | server/storage.ts:92-94 | the sales in insertion order, each carrying the key it is stored under |
| `Storage.MemStorage.GetSale` | server/storage.ts:96-98 | a sale is returned exactly when the id is a key, and it carries that id |
| `Storage.MemStorage.CreateSale` | server/storage.ts:100-119 | stores `SaleRow` under an id no sale had, at the end of the listing; `GetSale` returns it; users and plans are unchanged |
| `Storage.MemStorage.UpdateSale` | server/storage.ts:121-128 | absent id: none is returned and nothing changes; present id: the merged sale is stored and returned in place |
| `Storage.MemStorage.DeleteSale` | server/storage.ts:130-132 | returns true exactly when the id was present; afterwards it is absent and the other keys keep their order |
| `JsMaps.JsMap.Get` | server/storage.ts:42 | a value is returned exactly when the key is present, and it is the key's entry |
| `JsMaps.JsMap.Set` | server/storage.ts:84 | the entry is replaced; a present key keeps its place in the iteration order, a new key goes last |
| `JsMaps.JsMap.Delete` | server/storage.ts:89 | reports whether the key was present; the key is removed and the remaining keys keep their order |
| `JsMaps.JsMap.Values` | server/storage.ts:59 | the values in the insertion order of their keys |
| `JsMaps.Empty` | server/storage.ts:28-30 | a new map lists nothing and has no key |
| `JsMaps.GetAfterSet` | server/storage.ts:75-76 | after `set(k, v)`, `get(k)` is `v` and every other key reads as before |
| `JsMaps.SetPresentKeepsPosition` | server/storage.ts:83-85 | setting a present key leaves the order unchanged; only that key's value changes |
| `JsMaps.DeleteTwice` | server/storage.ts:88-90 | after a delete the key is absent, a second delete returns false and changes nothing, and other keys read as before |
| `Schema.UserInsert` | shared/schema.ts:12-15 | the insert shape of a user is its username and password |
| `Schema.UserRow` | shared/schema.ts:12-18 | a user row is the insert shape (username and password) plus the id |
| `Schema.UserRowRoundTrip` | shared/schema.ts:6-18 | a user row is exactly its id together with its insert shape |
| `Schema.PlanInsert` | shared/schema.ts:30-32 | the insert shape of a plan is every property except the id, each discount present |
| `Schema.PlanRow` | shared/schema.ts:20-28 | an omitted discount defaults to 0 and omitted colours to "blue-500"/"purple-600"; each given discount and colour is kept as given; the row meets the NOT NULL constraints |
| `Schema.PlanRowRoundTrip` | shared/schema.ts:30-35 | a plan row is exactly its id together with its insert shape |
| `Schema.SaleInsert` | shared/schema.ts:53-55 | the insert shape of a sale is every property except the id, each carried over |
| `Schema.SaleRow` | server/storage.ts:102-116 | the sale is the insert plus the id: the four required properties as given, each omitted nullable property null |
| `Schema.SaleRowRoundTrip` | shared/schema.ts:53-58 | a sale row is exactly its id together with its insert shape |
| `Seqs.Filter` | client/src/pages/clientes.tsx:59 | `filter` returns an order-preserving sublist holding each accepted element as many times as the input does, and no rejected element |
| `Seqs.FilterMembers` | client/src/pages/clientes.tsx:74-77 | the filtered list's elements are accepted elements of the input, and every accepted element of the input is in it |
| `Seqs.FilterKeepsAll` | client/src/pages/clientes.tsx:74-77 | when every element is accepted, `filter` returns the list unchanged |
| `Seqs.FilterNoDuplicates` | server/storage.ts:89 | filtering a list without duplicates gives a list without duplicates |
| `Text.LowerChar` | client/src/pages/vendas.tsx:188 | an ASCII capital maps to the lower-case letter 32 code points above it; every other character is unchanged |
| `Text.ToLower` | client/src/pages/vendas.tsx:188 | the result has the same length and maps each character to lower case (ASCII letters only) |
| `Text.Contains` | client/src/pages/vendas.tsx:188 | `includes` can only find a needle no longer than the haystack, and always finds the empty needle |
| `Text.ContainsIffOccurs` | client/src/pages/vendas.tsx:188-190 | `includes` holds exactly when the needle occurs at some position of the haystack |
| `Text.ContainsEmpty` | client/src/pages/vendas.tsx:188 | every string includes the empty string |
| `Text.Trim` | client/src/pages/vendas.tsx:151 | the trimmed string is a contiguous slice of the input; everything before and after it is whitespace, and it neither starts nor ends with whitespace |
| `Text.TrimEmptyIffBlank` | client/src/pages/plans.tsx:105 | `trim()` is empty exactly when every character is whitespace |
| `Text.Split` | client/src/pages/clientes.tsx:199 | `split(" ")` returns at least one segment, and no segment holds a space |
| `Text.SplitJoin` | client/src/pages/clientes.tsx:199 | `split(" ")` loses nothing: joining the segments with spaces gives back the name |
| `Text.FirstChars` | client/src/pages/clientes.tsx:199 | `map((n) => n[0]).join("")` yields at most one character per segment |
| `Text.Initials` | client/src/pages/clientes.tsx:199 | the initials are the first character of each space-separated word, in order |
| `Text.InitialsAreWordStarts` | client/src/pages/clientes.tsx:199 | the initials are the first character of each space-separated word, in order; empty segments add nothing |
| `Vendas.DiscountPercent` | client/src/pages/vendas.tsx:77-86 | PIX/BOLETO: cash discount; CREDIT_CARD with 1 instalment: cash discount; CREDIT_CARD otherwise: instalment discount; any other type: 0 |
| `Vendas.DiscountPercentInRange` | client/src/pages/vendas.tsx:77-86 | discounts within 0..100 give a percentage within 0..100 |
| `Vendas.DiscountAmount` | client/src/pages/vendas.tsx:88 | the amount is the integer nearest to value × percent / 100, a tie rounding up |
| `Vendas.DiscountWithinValue` | client/src/pages/vendas.tsx:88 | for value ≥ 0 and percent in 0..100 the amount lies in [0, value] |
| `Vendas.FindPlan` | client/src/pages/vendas.tsx:71 | none exactly when no plan has the name; otherwise the first plan with it |
| `Vendas.CalculateDiscount` | client/src/pages/vendas.tsx:65-91 | only `discountValue` can change; no plan selected, a zero value or an unknown plan name leaves the form unchanged; otherwise the first matching plan's amount is written |
| `Vendas.CalculatedDiscountBounded` | client/src/pages/vendas.tsx:65-91 | with non-negative value and plan discounts in 0..100, the resulting discount lies in [0, value] |
| `Vendas.HandleSave` | client/src/pages/vendas.tsx:150-161 | rejects exactly when the customer is blank or the due date empty; otherwise updates the edited sale's id, or creates when nothing is edited, sending the form |
| `Vendas.IntOr` | client/src/pages/vendas.tsx:139-145 | `x \|\| d`: a present non-zero value is kept; null and 0 give the fallback |
| `Vendas.TextOr` | client/src/pages/vendas.tsx:138-140 | `x \|\| ""`: a present string is kept, null gives "" |
| `Vendas.HandleEdit` | client/src/pages/vendas.tsx:131-148 | records the sale, opens the dialog, copies the required properties and falls back per property for the optional ones; plan choice and search term untouched |
| `Vendas.ResetForm` | client/src/pages/vendas.tsx:169-185 | clears the edited sale and restores the default form; nothing else changes |
| `Vendas.SaveAfterResetRejects` | client/src/pages/vendas.tsx:150-185 | saving right after a reset is always rejected |
| `Vendas.SaveAfterEditUpdates` | client/src/pages/vendas.tsx:131-161 | saving right after editing a sale with a customer and a due date updates that sale |
| `Vendas.SaleMatches` | client/src/pages/vendas.tsx:188-190 | a sale matches exactly when the term occurs in the customer or the description ignoring case, or in the external reference as written; the empty term matches every sale |
| `Vendas.FilteredSales` | client/src/pages/vendas.tsx:187-192 | order-preserving sublist holding every copy of each matching sale and no other sale |
| `Vendas.EmptySearchKeepsAllSales` | client/src/pages/vendas.tsx:187-192 | an empty term keeps every sale |
| `Plans.HandleSave` | client/src/pages/plans.tsx:104-115 | rejects exactly a blank name; otherwise updates the edited plan's id, or creates when nothing is edited, sending the form |
| `Plans.HandleEdit` | client/src/pages/plans.tsx:91-102 | records the plan, copies all six properties into the form and opens the dialog |
| `Plans.ResetForm` | client/src/pages/plans.tsx:123-133 | clears the edited plan; empty name, zero discounts, "blue-500"/"purple-600" |
| `Plans.SaveAfterResetRejects` | client/src/pages/plans.tsx:104-133 | saving right after a reset is always rejected |
| `Plans.SaveAfterEditUpdates` | client/src/pages/plans.tsx:91-115 | saving right after editing a plan with a non-blank name sends an update of that plan carrying its six properties |
| `Plans.IsHighlighted` | client/src/pages/plans.tsx:243 | a palette is highlighted exactly when clicking it would leave the form unchanged |
| `Plans.SelectPalette` | client/src/pages/plans.tsx:240 | both colours become the palette's pair; every other property is unchanged |
| `Plans.PalettePairsDistinct` | client/src/pages/plans.tsx:21-34 | no two palettes have the same colour pair |
| `Plans.SelectedPaletteIsTheOnlyHighlight` | client/src/pages/plans.tsx:240-246 | after a palette is clicked, exactly that palette is highlighted (both colours equal) |
| `Plans.DefaultFormHighlightsBluePurple` | client/src/pages/plans.tsx:40-47 | the default form highlights the blue-purple palette and no other |
| `Plans.Interpolate` | client/src/pages/plans.tsx:136 | a present colour is inserted as written; a missing one reads "undefined" |
| `Plans.GetPlanColor` | client/src/pages/plans.tsx:135-137 | the class string is `from-<colorFrom> to-<colorTo>`, with "undefined" for each missing colour, in all four cases |
| `Plans.PlanColorIsTwoClasses` | client/src/pages/plans.tsx:135-137 | the gradient string is exactly the two classes `from-<colorFrom>` and `to-<colorTo>` |
| `Plans.ColourlessPlanColor` | client/src/pages/plans.tsx:135-137 | a plan without colour properties yields `from-undefined to-undefined` |
| `Clientes.HandleDelete` | client/src/pages/clientes.tsx:58-61 | keeps every copy of each client with another id and none with that id, as an order-preserving sublist; nothing else changes |
| `Clientes.DeleteAbsentIdKeepsList` | client/src/pages/clientes.tsx:58-61 | deleting an absent id leaves the list unchanged |
| `Clientes.HandleEdit` | client/src/pages/clientes.tsx:63-66 | records the client and opens the dialog; the list is unchanged |
| `Clientes.HandleSave` | client/src/pages/clientes.tsx:68-72 | closes the dialog and clears the edited client; the list is unchanged; the toast says "updated" exactly when the edited client has an id |
| `Clientes.ClientMatches` | client/src/pages/clientes.tsx:74-77 | a client matches exactly when the term occurs in the name or the email, ignoring case; the empty term matches every client |
| `Clientes.FilteredClients` | client/src/pages/clientes.tsx:74-77 | order-preserving sublist holding every copy of each matching client and no other client |
| `Clientes.EmptySearchKeepsAllClients` | client/src/pages/clientes.tsx:74-77 | an empty term keeps every client |
| `Clientes.ClientInitials` | client/src/pages/clientes.tsx:199 | the first character of each word of the name |
| `Clientes.GroupBadgeClass` | client/src/pages/clientes.tsx:221-225 | grey gradient exactly for group "platinum", yellow otherwise |
| `Fornecedores.HandleDelete` | client/src/pages/fornecedores.tsx:56-59 | keeps every copy of each supplier with another id and none with that id, as an order-preserving sublist; nothing else changes |
| `Fornecedores.DeleteAbsentIdKeepsList` | client/src/pages/fornecedores.tsx:56-59 | deleting an absent id leaves the list unchanged |
| `Fornecedores.HandleEdit` | client/src/pages/fornecedores.tsx:61-64 | records the supplier and opens the dialog; the list is unchanged |
| `Fornecedores.HandleSave` | client/src/pages/fornecedores.tsx:66-70 | closes the dialog and clears the edited supplier; the list is unchanged; the toast says "updated" exactly when the edited supplier has an id |
| `Fornecedores.SupplierMatches` | client/src/pages/fornecedores.tsx:72-75 | a supplier matches exactly when the term occurs in the name or the email, ignoring case; the empty term matches every supplier |
| `Fornecedores.FilteredSuppliers` | client/src/pages/fornecedores.tsx:72-75 | order-preserving sublist holding every copy of each matching supplier and no other supplier |
| `Fornecedores.EmptySearchKeepsAllSuppliers` | client/src/pages/fornecedores.tsx:72-75 | an empty term keeps every supplier |
| `Fornecedores.SupplierInitials` | client/src/pages/fornecedores.tsx:188 | at most two characters, and a prefix of the first-letter-per-word string (all of it when shorter than two) |
| `Fornecedores.StatusLabel` | client/src/pages/fornecedores.tsx:209 | "Ativo" exactly when the status is "active", "Inativo" otherwise |

## Left out

- The metrics broadcaster in server/routes.ts is not part of this model. It
  consists of socket connections, interval timers, system-information
  queries, an external `rclone` process and float byte-to-GB conversion:
  I/O and timing, not logic.
- The HTTP CRUD routes, their request validation (400/404 statuses) and the
  login check are not part of this model. None of them is in the files
  modelled.
- GaugeCard, the dashboard (random mock data on a timer), the login page,
  App, the sidebar and the component examples are not modelled. They are
  floating-point geometry, layout and routing.
- React Query mutations, cache invalidation, toasts (except the save titles
  of the clients and suppliers pages), `confirm` dialogs and loading states
  are not modelled. A save is modelled only by its outcome: Reject, Create
  or Update. The delete handlers of the sales and plans pages are a
  `confirm` plus a mutation, so only the store's delete is modelled.
- The `onChange` setters of the form inputs are not modelled. Each replaces
  one property of the form.
- `getPlans`, `getPlan`, `createPlan` and `createSale` hand back the stored
  object itself (server/storage.ts:59, 63, 76, 118). A caller that mutated
  it would mutate the store. The model's rows are values, so that aliasing
  is not captured; no code in the modelled files mutates a returned row.
- `async`/`Promise` in the store add no concurrency. Every method is
  modelled as running to completion.
- `Storage.RandomId`: a deterministic stand-in for `randomUUID()`. It
  promises only that the new id is not a current key. It may reissue the id
  of a deleted row, which a random UUID practically never does.
- `Text.ToLower`: maps only the ASCII letters A–Z. The Unicode case mapping
  of `toLowerCase` is not modelled.
- Strings are sequences of Unicode code points. JavaScript's UTF-16 code
  units (where `n[0]` can be half of a surrogate pair) are not modelled.
- `Vendas.DiscountAmount`: exact integer half-up rounding. The
  floating-point artefacts of `Math.round(value * (percent / 100))` at .5
  ties are not modelled.
- Form values are integers. `Number(...)` of a non-numeric or fractional
  input (NaN, cents typed with a decimal point) is not modelled.
- The sales form's billing type is a string, as in the table. The three
  values offered by the select are not an enforced type.
- The palettes' CSS gradient previews, the avatar markup and the discount
  toast text are presentation only.
- Plan-name and username uniqueness are table constraints that the store
  does not enforce. The model does not enforce them either.
