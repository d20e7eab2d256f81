/**
 * The suppliers page. Like the clients page, its list lives only in page
 * state, seeded with two sample suppliers.
 */
module Fornecedores {
  import opened Wrappers
  import opened Text
  import Seqs

  datatype Supplier = Supplier(
    id: string,
    name: string,
    cpfCnpj: string,
    email: string,
    phone: string,
    category: string,
    status: string)

  /** The list the page starts with. */
  const MockSuppliers: seq<Supplier> := [
    Supplier("1", "Tech Supplies Inc", "12.345.678/0001-90", "contato@techsupplies.com", "1140001000", "Tecnologia", "active"),
    Supplier("2", "Office Solutions", "98.765.432/0001-10", "vendas@officesolutions.com", "1140002000", "Escritório", "active")
  ]

  datatype PageState = PageState(
    suppliers: seq<Supplier>,
    searchTerm: string,
    isDialogOpen: bool,
    editingSupplier: Option<Supplier>)

  /** The page's state when it first renders. */
  const InitialState := PageState(MockSuppliers, "", false, None)

  /** `handleDelete(id)`: keeps exactly the suppliers whose id differs, in their order; nothing else changes. */
  function HandleDelete(state: PageState, id: string): (r: PageState)
    ensures Seqs.Sublist(r.suppliers, state.suppliers)
    ensures forall i :: 0 <= i < |r.suppliers| ==> r.suppliers[i].id != id
    ensures forall i :: 0 <= i < |state.suppliers| && state.suppliers[i].id != id ==> state.suppliers[i] in r.suppliers
    ensures forall s :: multiset(r.suppliers)[s] == if s.id != id then multiset(state.suppliers)[s] else 0
    ensures r.(suppliers := state.suppliers) == state
  {
    Seqs.FilterMembers(state.suppliers, (s: Supplier) => s.id != id);
    state.(suppliers := Seqs.Filter(state.suppliers, (s: Supplier) => s.id != id))
  }

  /** Deleting an id no supplier has leaves the list as it was. */
  lemma DeleteAbsentIdKeepsList(state: PageState, id: string)
    requires forall i :: 0 <= i < |state.suppliers| ==> state.suppliers[i].id != id
    ensures HandleDelete(state, id) == state
  {
    Seqs.FilterKeepsAll(state.suppliers, (s: Supplier) => s.id != id);
  }

  /** `handleEdit(supplier)`: remembers the supplier and opens the dialog; the list is untouched. */
  function HandleEdit(state: PageState, supplier: Supplier): (r: PageState)
    ensures r.suppliers == state.suppliers && r.searchTerm == state.searchTerm
    ensures r.editingSupplier == Some(supplier) && r.isDialogOpen
  {
    state.(editingSupplier := Some(supplier), isDialogOpen := true)
  }

  /**
   * `handleSave`: closes the dialog and forgets the supplier being edited; the
   * list is untouched. Also returns the toast's title, which says "updated"
   * exactly when a supplier with a non-empty id was being edited.
   */
  function HandleSave(state: PageState): (r: (PageState, string))
    ensures r.0.suppliers == state.suppliers && r.0.searchTerm == state.searchTerm
    ensures !r.0.isDialogOpen && r.0.editingSupplier.None?
    ensures r.1 == "Fornecedor atualizado!" <==> state.editingSupplier.Some? && state.editingSupplier.value.id != ""
    ensures r.1 == "Fornecedor atualizado!" || r.1 == "Fornecedor criado!"
  {
    var title := if state.editingSupplier.Some? && state.editingSupplier.value.id != ""
      then "Fornecedor atualizado!" else "Fornecedor criado!";
    (state.(isDialogOpen := false, editingSupplier := None), title)
  }

  /** The search predicate: the term occurs in the name or the email, ignoring case. */
  predicate SupplierMatches(s: Supplier, term: string)
    ensures SupplierMatches(s, term) <==>
      Occurs(ToLower(s.name), ToLower(term)) || Occurs(ToLower(s.email), ToLower(term))
    ensures term == "" ==> SupplierMatches(s, term)
  {
    ContainsIffOccurs(ToLower(s.name), ToLower(term));
    ContainsIffOccurs(ToLower(s.email), ToLower(term));
    Contains(ToLower(s.name), ToLower(term)) || Contains(ToLower(s.email), ToLower(term))
  }

  /** `filteredSuppliers`: the suppliers that match, in their original order. */
  function FilteredSuppliers(suppliers: seq<Supplier>, term: string): (r: seq<Supplier>)
    ensures Seqs.Sublist(r, suppliers)
    ensures forall i :: 0 <= i < |r| ==> SupplierMatches(r[i], term)
    ensures forall i :: 0 <= i < |suppliers| && SupplierMatches(suppliers[i], term) ==> suppliers[i] in r
    ensures forall s :: multiset(r)[s] == if SupplierMatches(s, term) then multiset(suppliers)[s] else 0
  {
    Seqs.FilterMembers(suppliers, (s: Supplier) => SupplierMatches(s, term));
    Seqs.Filter(suppliers, (s: Supplier) => SupplierMatches(s, term))
  }

  /** An empty search term shows every supplier. */
  lemma EmptySearchKeepsAllSuppliers(suppliers: seq<Supplier>)
    ensures FilteredSuppliers(suppliers, "") == suppliers
  {
    forall i | 0 <= i < |suppliers| ensures SupplierMatches(suppliers[i], "") {
      ContainsEmpty(ToLower(suppliers[i].name));
    }
    Seqs.FilterKeepsAll(suppliers, (s: Supplier) => SupplierMatches(s, ""));
  }

  /** The avatar text: `.slice(0, 2)` of the initials, so at most two characters and a prefix of them. */
  function SupplierInitials(s: Supplier): (r: string)
    ensures |r| <= 2 && |r| <= |WordStarts(s.name, true)|
    ensures r == WordStarts(s.name, true)[..|r|]
    ensures |r| == 2 || r == WordStarts(s.name, true)
  {
    var all := Initials(s.name);
    if |all| <= 2 then all else all[..2]
  }

  /** The status badge: "Ativo" exactly for the status "active", "Inativo" for anything else. */
  function StatusLabel(status: string): (r: string)
    ensures r == "Ativo" <==> status == "active"
    ensures r == "Inativo" <==> status != "active"
  {
    if status == "active" then "Ativo" else "Inativo"
  }
}
