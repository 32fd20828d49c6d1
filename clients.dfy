/** The clients list page (app/admin/clients/page.tsx): the status / schedule /
    search filter over the fetched clients, the status label and the
    city-state-zip address line. */
module ClientsList {
  import opened TextUtil
  import opened Seqs

  datatype Client = Client(
    id: int,
    businessName: string,
    contactPerson: string,
    email: string,
    paymentSchedule: string,
    status: bool,
    city: string,
    state: string,
    zip: string)

  /** The filter controls; `status` is "all", "true" or "false", `schedule` is
      "all" or a payment schedule, `date` is the date picker's value. */
  datatype ClientFilters = ClientFilters(status: string, schedule: string, date: string, search: string)

  /** `String(b)` */
  function BoolText(b: bool): string {
    if b then "true" else "false"
  }

  /** The body of the `clients.filter` callback. */
  predicate Shown(c: Client, f: ClientFilters) {
    && (f.status == "all" || BoolText(c.status) == f.status)
    && (f.schedule == "all" || c.paymentSchedule == f.schedule)
    && (f.search == "" ||
          var q := Lower(f.search);
          Includes(Lower(c.businessName), q) || Includes(Lower(c.contactPerson), q) || Includes(Lower(c.email), q))
  }

  function IsShown(f: ClientFilters): Client -> bool {
    (c: Client) => Shown(c, f)
  }

  /** `filteredClients` */
  function FilteredClients(clients: seq<Client>, f: ClientFilters): seq<Client> {
    Filter(clients, IsShown(f))
  }

  /** The listed clients are an order-preserving subsequence of the fetched ones
      holding exactly the clients that pass the status filter ("all", or the
      status printed as "true" / "false"), the schedule filter ("all", or that
      schedule) and the search (empty, or a case-insensitive match in the
      business name, contact person or email). */
  lemma FilteredClientsSpec(clients: seq<Client>, f: ClientFilters)
    ensures IsSubsequence(FilteredClients(clients, f), clients)
    ensures forall c :: c in FilteredClients(clients, f) <==>
      && c in clients
      && (f.status == "all" || (f.status == "true" && c.status) || (f.status == "false" && !c.status))
      && (f.schedule == "all" || c.paymentSchedule == f.schedule)
      && (f.search == "" ||
            var q := Lower(f.search);
            Includes(Lower(c.businessName), q) || Includes(Lower(c.contactPerson), q) || Includes(Lower(c.email), q))
    ensures forall c :: multiset(FilteredClients(clients, f))[c] == if Shown(c, f) then multiset(clients)[c] else 0
  {
    FilterIsSubsequence(clients, IsShown(f));
    FilterMembers(clients, IsShown(f));
    FilterMultiset(clients, IsShown(f));
  }

  /** The date picker is never consulted: changing it leaves the list as it is. */
  lemma DateFilterIgnored(clients: seq<Client>, f: ClientFilters, date: string)
    ensures FilteredClients(clients, f.(date := date)) == FilteredClients(clients, f)
  {
    FilterAgrees(clients, IsShown(f.(date := date)), IsShown(f));
  }

  /** The badge text: "Active" exactly when the status is set. */
  function StatusLabel(status: bool): (r: string)
    ensures r == "Active" <==> status
    ensures r == "Inactive" <==> !status
  {
    if status then "Active" else "Inactive"
  }

  function NonEmpty(s: string): bool {
    s != ""
  }

  /** `[city, state, zip].filter(Boolean).join(", ")` */
  function AddressLine(city: string, state: string, zip: string): string {
    Join(Filter([city, state, zip], NonEmpty), ", ")
  }

  /** Two address parts glued with ", ", an empty part contributing nothing. */
  function Glue(a: string, b: string): string {
    if a == "" then b else if b == "" then a else a + ", " + b
  }

  /** Putting one more part in front of a list glues it onto the joined rest. */
  lemma JoinKeptCons(a: string, rest: seq<string>)
    requires Join(Filter(rest, NonEmpty), ", ") == "" <==> Filter(rest, NonEmpty) == []
    ensures Join(Filter([a] + rest, NonEmpty), ", ") == Glue(a, Join(Filter(rest, NonEmpty), ", "))
    ensures Join(Filter([a] + rest, NonEmpty), ", ") == "" <==> Filter([a] + rest, NonEmpty) == []
  {
    var s := [a] + rest;
    assert s[0] == a && s[1..] == rest;
    var kept := Filter(rest, NonEmpty);
    if a != "" {
      assert Filter(s, NonEmpty) == [a] + kept;
      if kept != [] {
        assert ([a] + kept)[1..] == kept;
      }
    } else {
      assert Filter(s, NonEmpty) == kept;
    }
  }

  /** The address line holds the non-empty parts in order with exactly one ", "
      between neighbours: no leading, trailing or doubled separator; it is empty
      only when all three parts are. */
  lemma AddressLineShape(city: string, state: string, zip: string)
    ensures AddressLine(city, state, zip) == Glue(city, Glue(state, zip))
    ensures AddressLine(city, state, zip) == "" <==> city == "" && state == "" && zip == ""
  {
    var none: seq<string> := [];
    assert Filter(none, NonEmpty) == [];
    JoinKeptCons(zip, none);
    assert [zip] + none == [zip];
    JoinKeptCons(state, [zip]);
    assert [state] + [zip] == [state, zip];
    JoinKeptCons(city, [state, zip]);
    assert [city] + [state, zip] == [city, state, zip];
  }
}
