/**
 * The client list page (client/src/pages/clients.tsx): the query string it sends to
 * `GET /api/clients`, the search box applied to the page it gets back, the sector and
 * income badges on each card, and the previous/next page buttons.
 */
module ClientsPage {
  import opened Wrappers
  import opened Seqs
  import opened Strings
  import opened DataLoader
  import AiInsights
  import Routes

  /** The page size the list always asks for. */
  const PageSize := 24

  /** `URLSearchParams`: name/value pairs in insertion order. */
  type QueryParams = seq<(string, string)>

  /**
   * `new URLSearchParams({ page, limit: '24' })`, then `sector` appended unless the filter
   * is 'all'.
   */
  function QueryParamsOf(page: int, sectorFilter: string): (params: QueryParams)
    ensures |params| == if sectorFilter == "all" then 2 else 3
    ensures params[0] == ("page", IntToString(page)) && params[1] == ("limit", "24")
    ensures sectorFilter != "all" ==> params[2] == ("sector", sectorFilter)
  {
    var base := [("page", IntToString(page)), ("limit", "24")];
    if sectorFilter != "all" then base + [("sector", sectorFilter)] else base
  }

  /** `params.get(name)`: the first value under that name. */
  function Lookup(params: QueryParams, name: string): (v: Option<string>)
    ensures v.None? <==> forall k :: 0 <= k < |params| ==> params[k].0 != name
  {
    if params == [] then None
    else if params[0].0 == name then Some(params[0].1)
    else Lookup(params[1..], name)
  }

  /** How the server reads a query string. */
  function ListQueryOf(params: QueryParams): Routes.ListQuery
  {
    Routes.ListQuery(Lookup(params, "page"), Lookup(params, "limit"), Lookup(params, "sector"),
      Lookup(params, "minEdad"), Lookup(params, "maxEdad"), Lookup(params, "minIngreso"))
  }

  /**
   * The server reads back what the page sent: the page number for any page from 1 up,
   * a limit of 24 instead of its default 50, the sector exactly when the filter is not
   * 'all', and none of the other filters.
   */
  lemma QueryReadBack(page: int, sectorFilter: string)
    requires page >= 1
    ensures var q := ListQueryOf(QueryParamsOf(page, sectorFilter));
      Routes.IntOr(q.page, 1) == page && Routes.IntOr(q.limit, 50) == PageSize
      && q.sector == (if sectorFilter == "all" then None else Some(sectorFilter))
      && q.minEdad.None? && q.maxEdad.None? && q.minIngreso.None?
  {
    var params := QueryParamsOf(page, sectorFilter);
    var tail: QueryParams := if sectorFilter == "all" then [] else [("sector", sectorFilter)];
    assert params == [("page", IntToString(page))] + ([("limit", "24")] + tail);
    LookupCons("page", IntToString(page), [("limit", "24")] + tail, "limit");
    LookupCons("limit", "24", tail, "limit");
    LookupCons("page", IntToString(page), [("limit", "24")] + tail, "sector");
    LookupCons("limit", "24", tail, "sector");
    if sectorFilter != "all" {
      LookupCons("sector", sectorFilter, [], "sector");
    }
    PageReadBack(page);
    LimitReadBack();
  }

  lemma LookupCons(n: string, v: string, rest: QueryParams, name: string)
    ensures Lookup([(n, v)] + rest, name) == if n == name then Some(v) else Lookup(rest, name)
  {
    assert ([(n, v)] + rest)[1..] == rest;
  }

  lemma PageReadBack(page: int)
    requires page >= 1
    ensures Routes.IntOr(Some(IntToString(page)), 1) == page
  {
    Routes.IntOrOfRendered(page, 1);
  }

  lemma LimitReadBack()
    ensures Routes.IntOr(Some("24"), 50) == PageSize
  {
    assert NatToString(24) == "24";
    Routes.IntOrOfRendered(24, 50);
  }

  // ----- the search box -----

  /** What `undefined.toLowerCase()` throws. */
  const ResumenTypeError := "TypeError: Cannot read properties of undefined (reading 'toLowerCase')"

  predicate IdMatches(c: Client, term: string)
  {
    Contains(ToLower(c.clienteId), ToLower(term))
  }

  predicate ResumenMatches(c: Client, term: string)
  {
    c.resumen.Some? && Contains(ToLower(c.resumen.value), ToLower(term))
  }

  /** Whether the search keeps a client. */
  predicate Matches(c: Client, term: string)
  {
    term == "" || IdMatches(c, term) || ResumenMatches(c, term)
  }

  function MatchesTerm(term: string): Client -> bool
  {
    (c: Client) => Matches(c, term)
  }

  /**
   * The callback reaches `client.resumen.toLowerCase()` only for a non-empty term whose
   * id does not match; there a record without `resumen` throws.
   */
  predicate Searchable(c: Client, term: string)
  {
    term == "" || IdMatches(c, term) || c.resumen.Some?
  }

  /** `clients.filter(...)` with the search callback, which can throw part-way. */
  function SearchFilter(clients: seq<Client>, term: string): (r: Result<seq<Client>, string>)
    ensures r.Success? <==> forall k :: 0 <= k < |clients| ==> Searchable(clients[k], term)
    ensures r.Failure? ==> r.error == ResumenTypeError
    ensures r.Success? ==> r.value == Filter(clients, MatchesTerm(term))
  {
    if clients == [] then Success([])
    else if !Searchable(clients[0], term) then Failure(ResumenTypeError)
    else
      var rest := SearchFilter(clients[1..], term);
      assert forall k :: 0 < k < |clients| ==> clients[k] == clients[1..][k - 1];
      if rest.Failure? then rest
      else Success((if Matches(clients[0], term) then [clients[0]] else []) + rest.value)
  }

  /** `data?.clients.filter(...) || []`: nothing before the response has arrived. */
  function FilteredClients(data: Option<seq<Client>>, term: string): (r: Result<seq<Client>, string>)
    ensures data.None? ==> r == Success([])
    ensures data.Some? ==> r == SearchFilter(data.value, term)
  {
    if data.None? then Success([]) else SearchFilter(data.value, term)
  }

  /** An empty search term keeps every fetched client, in order. */
  lemma EmptyTermKeepsAll(clients: seq<Client>)
    ensures SearchFilter(clients, "") == Success(clients)
  {
    FilterAll(clients, MatchesTerm(""));
  }

  /**
   * A successful search keeps exactly the clients whose lower-cased id or summary
   * contains the lower-cased term: every client kept matches and was fetched, and no
   * fetched client that matches is lost.
   */
  lemma SearchKeepsExactly(clients: seq<Client>, term: string)
    requires SearchFilter(clients, term).Success?
    ensures var kept := SearchFilter(clients, term).value;
      (forall k :: 0 <= k < |kept| ==> kept[k] in clients && Matches(kept[k], term))
      && (forall k :: 0 <= k < |clients| && Matches(clients[k], term) ==> clients[k] in kept)
  {
    FilterMembers(clients, MatchesTerm(term));
  }

  /** Every client has a summary: the search never throws. */
  lemma SummariesPresentNeverThrow(clients: seq<Client>, term: string)
    requires forall k :: 0 <= k < |clients| ==> clients[k].resumen.Some?
    ensures SearchFilter(clients, term).Success?
  {
  }

  // ----- the card badges -----

  /** `esSectorPublico ? "Público" : "Privado"`, with `esSectorPublico = sector_publico_flag === 1`. */
  function SectorLabel(c: Client): (text: string)
    ensures text == "Público" <==> c.perfil.sectorPublicoFlag == Some(1.0)
    ensures text == "Privado" <==> c.perfil.sectorPublicoFlag != Some(1.0)
  {
    if c.perfil.sectorPublicoFlag == Some(1.0) then "Público" else "Privado"
  }

  /**
   * The badge agrees with the server's sector filter: 'Público' exactly on the clients the
   * 'publico' filter selects, and every client the 'privado' filter selects reads 'Privado'.
   */
  lemma SectorLabelAgreesWithServer(c: Client)
    ensures SectorLabel(c) == "Público" <==> Routes.SectorMatches(c, "publico")
    ensures Routes.SectorMatches(c, "privado") ==> SectorLabel(c) == "Privado"
  {
  }

  /**
   * `ingreso < 2000 ? 'bajo' : ingreso < 6000 ? 'medio' : 'alto'`; with no income both
   * comparisons are false, so the badge reads 'alto'.
   */
  function IngresoBand(ingreso: Option<real>): (band: string)
    ensures ingreso.None? ==> band == "alto"
  {
    if ingreso.Some? && ingreso.value < 2000.0 then "bajo"
    else if ingreso.Some? && ingreso.value < 6000.0 then "medio"
    else "alto"
  }

  /** With an income present, the card uses the same bands as the server's insights. */
  lemma IngresoBandMatchesInsights(ingreso: real)
    ensures IngresoBand(Some(ingreso)) == AiInsights.IngresoCategoria(ingreso)
  {
  }

  // ----- page state -----

  /** The page's state: the current page, the sector filter and the search box. */
  class ClientsPageState {
    var page: int
    var sectorFilter: string
    var searchTerm: string

    /** `useState(1)`, `useState("all")` and `useState("")`. */
    constructor()
      ensures page == 1 && sectorFilter == "all" && searchTerm == ""
    {
      page := 1;
      sectorFilter := "all";
      searchTerm := "";
    }

    /** The query string for the current state. */
    method BuildQueryParams() returns (params: QueryParams)
      ensures params == QueryParamsOf(page, sectorFilter)
    {
      params := [("page", IntToString(page)), ("limit", "24")];
      if sectorFilter != "all" {
        params := params + [("sector", sectorFilter)];
      }
    }

    /** "Anterior": `setPage(p => Math.max(1, p - 1))`; it never goes below page 1. */
    method PrevPage()
      modifies this
      ensures page == if old(page) - 1 >= 1 then old(page) - 1 else 1
      ensures sectorFilter == old(sectorFilter) && searchTerm == old(searchTerm)
      ensures page >= 1
    {
      page := if page - 1 >= 1 then page - 1 else 1;
    }

    /**
     * "Siguiente": `setPage(p => Math.min(totalPages, p + 1))`; it never goes above
     * `totalPages`.
     */
    method NextPage(totalPages: int)
      modifies this
      ensures page == if old(page) + 1 <= totalPages then old(page) + 1 else totalPages
      ensures sectorFilter == old(sectorFilter) && searchTerm == old(searchTerm)
      ensures page <= totalPages
    {
      page := if page + 1 <= totalPages then page + 1 else totalPages;
    }

    /** The sector select: the page number is kept, not reset. */
    method SetSectorFilter(value: string)
      modifies this
      ensures sectorFilter == value && page == old(page) && searchTerm == old(searchTerm)
    {
      sectorFilter := value;
    }

    predicate PageInRange(totalPages: int)
      reads this
    {
      1 <= page <= totalPages
    }
  }

  /** Both buttons keep a page that is in range in range. */
  method StepPages(s: ClientsPageState, totalPages: int, forward: bool)
    requires s.PageInRange(totalPages)
    modifies s
    ensures s.PageInRange(totalPages)
  {
    if forward {
      s.NextPage(totalPages);
    } else {
      s.PrevPage();
    }
  }
}
