/**
 * The clients page. Its list lives only in page state, seeded with two
 * sample clients: deleting filters the list, saving and editing only drive
 * the dialog, and the search box filters what is shown.
 */
module Clientes {
  import opened Wrappers
  import opened Text
  import Seqs

  datatype Client = Client(
    id: string,
    name: string,
    cpfCnpj: string,
    email: string,
    phone: string,
    mobilePhone: string,
    groupName: string,
    company: string)

  /** The list the page starts with. */
  const MockClients: seq<Client> := [
    Client("1", "John Doe", "24971563792", "john.doe@asaas.com.br", "4738010919", "4799376637", "platinum", "EASYDEV"),
    Client("2", "Maria Silva", "12345678901", "maria.silva@example.com", "4738010920", "4799376638", "gold", "TECHCORP")
  ]

  datatype PageState = PageState(
    clients: seq<Client>,
    searchTerm: string,
    isDialogOpen: bool,
    editingClient: Option<Client>)

  /** The page's state when it first renders. */
  const InitialState := PageState(MockClients, "", false, None)

  /** `handleDelete(id)`: keeps exactly the clients whose id differs, in their order; nothing else changes. */
  function HandleDelete(state: PageState, id: string): (r: PageState)
    ensures Seqs.Sublist(r.clients, state.clients)
    ensures forall i :: 0 <= i < |r.clients| ==> r.clients[i].id != id
    ensures forall i :: 0 <= i < |state.clients| && state.clients[i].id != id ==> state.clients[i] in r.clients
    ensures forall c :: multiset(r.clients)[c] == if c.id != id then multiset(state.clients)[c] else 0
    ensures r.(clients := state.clients) == state
  {
    Seqs.FilterMembers(state.clients, (c: Client) => c.id != id);
    state.(clients := Seqs.Filter(state.clients, (c: Client) => c.id != id))
  }

  /** Deleting an id no client has leaves the list as it was. */
  lemma DeleteAbsentIdKeepsList(state: PageState, id: string)
    requires forall i :: 0 <= i < |state.clients| ==> state.clients[i].id != id
    ensures HandleDelete(state, id) == state
  {
    Seqs.FilterKeepsAll(state.clients, (c: Client) => c.id != id);
  }

  /** `handleEdit(client)`: remembers the client and opens the dialog; the list is untouched. */
  function HandleEdit(state: PageState, client: Client): (r: PageState)
    ensures r.clients == state.clients && r.searchTerm == state.searchTerm
    ensures r.editingClient == Some(client) && r.isDialogOpen
  {
    state.(editingClient := Some(client), isDialogOpen := true)
  }

  /**
   * `handleSave`: closes the dialog and forgets the client being edited; the
   * list is untouched. Also returns the toast's title, which says "updated"
   * exactly when a client with a non-empty id was being edited.
   */
  function HandleSave(state: PageState): (r: (PageState, string))
    ensures r.0.clients == state.clients && r.0.searchTerm == state.searchTerm
    ensures !r.0.isDialogOpen && r.0.editingClient.None?
    ensures r.1 == "Cliente atualizado!" <==> state.editingClient.Some? && state.editingClient.value.id != ""
    ensures r.1 == "Cliente atualizado!" || r.1 == "Cliente criado!"
  {
    var title := if state.editingClient.Some? && state.editingClient.value.id != ""
      then "Cliente atualizado!" else "Cliente criado!";
    (state.(isDialogOpen := false, editingClient := None), title)
  }

  /** The search predicate: the term occurs in the name or the email, ignoring case. */
  predicate ClientMatches(c: Client, term: string)
    ensures ClientMatches(c, term) <==>
      Occurs(ToLower(c.name), ToLower(term)) || Occurs(ToLower(c.email), ToLower(term))
    ensures term == "" ==> ClientMatches(c, term)
  {
    ContainsIffOccurs(ToLower(c.name), ToLower(term));
    ContainsIffOccurs(ToLower(c.email), ToLower(term));
    Contains(ToLower(c.name), ToLower(term)) || Contains(ToLower(c.email), ToLower(term))
  }

  /** `filteredClients`: the clients that match, in their original order. */
  function FilteredClients(clients: seq<Client>, term: string): (r: seq<Client>)
    ensures Seqs.Sublist(r, clients)
    ensures forall i :: 0 <= i < |r| ==> ClientMatches(r[i], term)
    ensures forall i :: 0 <= i < |clients| && ClientMatches(clients[i], term) ==> clients[i] in r
    ensures forall c :: multiset(r)[c] == if ClientMatches(c, term) then multiset(clients)[c] else 0
  {
    Seqs.FilterMembers(clients, (c: Client) => ClientMatches(c, term));
    Seqs.Filter(clients, (c: Client) => ClientMatches(c, term))
  }

  /** An empty search term shows every client. */
  lemma EmptySearchKeepsAllClients(clients: seq<Client>)
    ensures FilteredClients(clients, "") == clients
  {
    forall i | 0 <= i < |clients| ensures ClientMatches(clients[i], "") {
      ContainsEmpty(ToLower(clients[i].name));
    }
    Seqs.FilterKeepsAll(clients, (c: Client) => ClientMatches(c, ""));
  }

  /** The avatar text: the first letter of every word of the name. */
  function ClientInitials(c: Client): (r: string)
    ensures r == WordStarts(c.name, true)
  {
    Initials(c.name)
  }

  /** The group badge's colours: grey for the platinum group, yellow for any other. */
  function GroupBadgeClass(groupName: string): (r: string)
    ensures groupName == "platinum" <==> r == "bg-gradient-to-r from-gray-400 to-gray-600 text-white"
    ensures groupName != "platinum" <==> r == "bg-gradient-to-r from-yellow-400 to-yellow-600 text-white"
  {
    if groupName == "platinum" then "bg-gradient-to-r from-gray-400 to-gray-600 text-white"
    else "bg-gradient-to-r from-yellow-400 to-yellow-600 text-white"
  }
}
