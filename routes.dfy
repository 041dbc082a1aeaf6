/**
 * The Express handlers of server/routes.ts: the client list with optional filters
 * and pagination, the detail and insights lookups, and the three proxies to the
 * Python analytics service.
 */
module Routes {
  import opened Wrappers
  import opened Seqs
  import opened Strings
  import opened DataLoader
  import opened AiInsights

  /** A JSON reply: `res.json(body)` with status 200, or `res.status(s).json({ error })`. */
  datatype Reply<T> = Ok(body: T) | Error(status: int, message: string)

  /** How a proxied `fetch` ended: it threw, answered `!response.ok`, or answered a JSON body. */
  datatype ProxyOutcome<T> = Threw | NotOk(status: int) | Body(json: T)

  /** A query-string value: `undefined` when the parameter is absent. */
  type Param = Option<string>

  /** `if (req.query.x)`: present and not the empty string. */
  predicate Truthy(p: Param)
  {
    p.Some? && p.value != ""
  }

  /** `parseInt(req.query.x as string)`; an absent value is `parseInt(undefined)`, which is NaN. */
  function ParamInt(p: Param): (r: Option<int>)
    ensures p.None? ==> r.None?
  {
    if p.None? then None else ParseInt(p.value, AutoDetect)
  }

  /** `parseInt(x) || d`: the parsed value, or `d` when it is NaN or 0. No range is enforced. */
  function IntOr(p: Param, d: int): (r: int)
    ensures ParamInt(p).Some? && ParamInt(p).value != 0 ==> r == ParamInt(p).value
    ensures ParamInt(p).None? || ParamInt(p).value == 0 ==> r == d
  {
    match ParamInt(p)
    case Some(n) => if n != 0 then n else d
    case None => d
  }

  /** A page or limit sent as the decimal rendering of a positive number is read back unchanged. */
  lemma IntOrOfRendered(n: nat, d: int)
    requires n > 0
    ensures IntOr(Some(NatToString(n)), d) == n
  {
    var s := NatToString(n);
    ParseIntOfPadded(n, 0, AutoDetect);
    assert PadStart(s, 0, '0') == s;
    assert ParseInt(s, AutoDetect) == Some(n);
    assert ParamInt(Some(s)) == Some(n);
  }

  /** The query string of `GET /api/clients`. */
  datatype ListQuery = ListQuery(
    page: Param, limit: Param, sector: Param, minEdad: Param, maxEdad: Param, minIngreso: Param)

  /** `sector === 'publico' ? 1 : 0` compared with `sector_publico_flag`. */
  predicate SectorMatches(c: Client, sector: string)
  {
    c.perfil.sectorPublicoFlag == Some(if sector == "publico" then 1.0 else 0.0)
  }

  /** `x >= bound` in JavaScript: false when either side is missing or NaN. */
  predicate AtLeast(x: Option<real>, bound: Option<real>)
  {
    x.Some? && bound.Some? && x.value >= bound.value
  }

  /** `x <= bound` in JavaScript: false when either side is missing or NaN. */
  predicate AtMost(x: Option<real>, bound: Option<real>)
  {
    x.Some? && bound.Some? && x.value <= bound.value
  }

  function IntAsReal(n: Option<int>): Option<real>
  {
    match n case Some(v) => Some(v as real) case None => None
  }

  predicate MinEdadOk(c: Client, q: ListQuery)
  {
    AtLeast(c.perfil.edad, IntAsReal(ParamInt(q.minEdad)))
  }

  predicate MaxEdadOk(c: Client, q: ListQuery)
  {
    AtMost(c.perfil.edad, IntAsReal(ParamInt(q.maxEdad)))
  }

  predicate MinIngresoOk(c: Client, q: ListQuery, parseFloat: FloatParser)
    requires q.minIngreso.Some?
  {
    AtLeast(c.perfil.ingreso, parseFloat(q.minIngreso.value))
  }

  predicate SectorOk(c: Client, q: ListQuery)
  {
    Truthy(q.sector) ==> SectorMatches(c, q.sector.value)
  }

  predicate MinEdadStep(c: Client, q: ListQuery)
  {
    Truthy(q.minEdad) ==> MinEdadOk(c, q)
  }

  predicate MaxEdadStep(c: Client, q: ListQuery)
  {
    Truthy(q.maxEdad) ==> MaxEdadOk(c, q)
  }

  predicate MinIngresoStep(c: Client, q: ListQuery, parseFloat: FloatParser)
  {
    Truthy(q.minIngreso) ==> MinIngresoOk(c, q, parseFloat)
  }

  /**
   * The reference selection: a client is listed exactly when it passes every filter
   * whose parameter is given; the filters are inclusive and combine with AND.
   */
  predicate Selected(c: Client, q: ListQuery, parseFloat: FloatParser)
  {
    SectorOk(c, q) && MinEdadStep(c, q) && MaxEdadStep(c, q) && MinIngresoStep(c, q, parseFloat)
  }

  // The four `filtered = filtered.filter(...)` steps of the handler.

  function BySector(s: seq<Client>, q: ListQuery): seq<Client>
    requires Truthy(q.sector)
  {
    Filter(s, c => SectorMatches(c, q.sector.value))
  }

  function ByMinEdad(s: seq<Client>, q: ListQuery): seq<Client>
  {
    Filter(s, c => MinEdadOk(c, q))
  }

  function ByMaxEdad(s: seq<Client>, q: ListQuery): seq<Client>
  {
    Filter(s, c => MaxEdadOk(c, q))
  }

  function ByMinIngreso(s: seq<Client>, q: ListQuery, parseFloat: FloatParser): seq<Client>
    requires q.minIngreso.Some?
  {
    Filter(s, c => MinIngresoOk(c, q, parseFloat))
  }

  /** The four optional steps together select exactly the clients of `Selected`, in order. */
  lemma FilterStepsSelect(clients: seq<Client>, q: ListQuery, parseFloat: FloatParser)
    ensures
      var s1 := if Truthy(q.sector) then BySector(clients, q) else clients;
      var s2 := if Truthy(q.minEdad) then ByMinEdad(s1, q) else s1;
      var s3 := if Truthy(q.maxEdad) then ByMaxEdad(s2, q) else s2;
      var s4 := if Truthy(q.minIngreso) then ByMinIngreso(s3, q, parseFloat) else s3;
      s4 == Filter(clients, c => Selected(c, q, parseFloat))
  {
    var s1 := if Truthy(q.sector) then BySector(clients, q) else clients;
    SectorStage(clients, q);
    var s2 := if Truthy(q.minEdad) then ByMinEdad(s1, q) else s1;
    MinEdadStage(clients, q, s1);
    var s3 := if Truthy(q.maxEdad) then ByMaxEdad(s2, q) else s2;
    MaxEdadStage(clients, q, s2);
    MinIngresoStage(clients, q, parseFloat, s3);
  }

  /** The clients that pass the first one, two, three filters. */
  function PassSector(q: ListQuery): Client -> bool
  {
    (c: Client) => SectorOk(c, q)
  }

  function PassMinEdad(q: ListQuery): Client -> bool
  {
    (c: Client) => SectorOk(c, q) && MinEdadStep(c, q)
  }

  function PassMaxEdad(q: ListQuery): Client -> bool
  {
    (c: Client) => SectorOk(c, q) && MinEdadStep(c, q) && MaxEdadStep(c, q)
  }

  lemma SectorStage(clients: seq<Client>, q: ListQuery)
    ensures (if Truthy(q.sector) then BySector(clients, q) else clients) == Filter(clients, PassSector(q))
  {
    if Truthy(q.sector) {
      FilterWhen(clients, true, c => SectorMatches(c, q.sector.value), PassSector(q));
    } else {
      FilterWhen(clients, false, c => true, PassSector(q));
    }
  }

  lemma MinEdadStage(clients: seq<Client>, q: ListQuery, s1: seq<Client>)
    requires s1 == Filter(clients, PassSector(q))
    ensures (if Truthy(q.minEdad) then ByMinEdad(s1, q) else s1) == Filter(clients, PassMinEdad(q))
  {
    FilterWhen(s1, Truthy(q.minEdad), c => MinEdadOk(c, q), c => MinEdadStep(c, q));
    FilterAnd(clients, PassSector(q), c => MinEdadStep(c, q), PassMinEdad(q));
  }

  lemma MaxEdadStage(clients: seq<Client>, q: ListQuery, s2: seq<Client>)
    requires s2 == Filter(clients, PassMinEdad(q))
    ensures (if Truthy(q.maxEdad) then ByMaxEdad(s2, q) else s2) == Filter(clients, PassMaxEdad(q))
  {
    FilterWhen(s2, Truthy(q.maxEdad), c => MaxEdadOk(c, q), c => MaxEdadStep(c, q));
    FilterAnd(clients, PassMinEdad(q), c => MaxEdadStep(c, q), PassMaxEdad(q));
  }

  lemma MinIngresoStage(clients: seq<Client>, q: ListQuery, parseFloat: FloatParser, s3: seq<Client>)
    requires s3 == Filter(clients, PassMaxEdad(q))
    ensures (if Truthy(q.minIngreso) then ByMinIngreso(s3, q, parseFloat) else s3)
      == Filter(clients, c => Selected(c, q, parseFloat))
  {
    if Truthy(q.minIngreso) {
      FilterWhen(s3, true, c => MinIngresoOk(c, q, parseFloat), c => MinIngresoStep(c, q, parseFloat));
    } else {
      FilterWhen(s3, false, c => true, c => MinIngresoStep(c, q, parseFloat));
    }
    FilterAnd(clients, PassMaxEdad(q), c => MinIngresoStep(c, q, parseFloat), c => Selected(c, q, parseFloat));
  }

  /** Relative index of `Array.prototype.slice`: negative counts from the end, clamped to `[0, len]`. */
  function SliceIndex(i: int, len: nat): (r: nat)
    ensures r <= len
    ensures 0 <= i <= len ==> r == i
  {
    if i < 0 then (if len + i < 0 then 0 else len + i) else if i > len then len else i
  }

  /** `s.slice(start, end)`. */
  function JsSlice<T>(s: seq<T>, start: int, end: int): (r: seq<T>)
    ensures |r| <= |s|
    ensures start >= 0 && end >= start ==> |r| <= end - start
  {
    var from, to := SliceIndex(start, |s|), SliceIndex(end, |s|);
    if from < to then s[from..to] else []
  }

  /** `Math.ceil(total / limit)` for a non-zero integer `limit`. */
  function JsCeilDiv(total: nat, limit: int): (r: int)
    requires limit != 0
    ensures limit > 0 ==> r == CeilDiv(total, limit)
    ensures limit < 0 ==> r <= 0
  {
    if limit > 0 then CeilDiv(total, limit) else -(total / -limit)
  }

  datatype Pagination = Pagination(page: int, limit: int, total: int, totalPages: int)
  datatype ClientList = ClientList(clients: seq<Client>, pagination: Pagination)

  /** `skip = (page - 1) * limit`. */
  function Skip(page: int, limit: int): int
  {
    (page - 1) * limit
  }

  /**
   * The `GET /api/clients` handler on the loaded list: read `page` and `limit`, narrow
   * `filtered` one optional filter at a time, then cut out the page.
   */
  method ListClients(clients: seq<Client>, q: ListQuery, parseFloat: FloatParser) returns (r: ClientList)
    ensures r.pagination.page == IntOr(q.page, 1) && r.pagination.limit == IntOr(q.limit, 50)
    ensures r.pagination.total == Count(clients, c => Selected(c, q, parseFloat))
    ensures r.clients == JsSlice(Filter(clients, c => Selected(c, q, parseFloat)),
      Skip(r.pagination.page, r.pagination.limit), Skip(r.pagination.page, r.pagination.limit) + r.pagination.limit)
    ensures r.pagination.totalPages == JsCeilDiv(r.pagination.total, r.pagination.limit)
  {
    var page := IntOr(q.page, 1);
    var limit := IntOr(q.limit, 50);
    var skip := Skip(page, limit);

    var filtered := clients;
    if Truthy(q.sector) {
      filtered := BySector(filtered, q);
    }
    SectorStage(clients, q);
    assert filtered == Filter(clients, PassSector(q));
    if Truthy(q.minEdad) {
      filtered := ByMinEdad(filtered, q);
    }
    MinEdadStage(clients, q, Filter(clients, PassSector(q)));
    assert filtered == Filter(clients, PassMinEdad(q));
    if Truthy(q.maxEdad) {
      filtered := ByMaxEdad(filtered, q);
    }
    MaxEdadStage(clients, q, Filter(clients, PassMinEdad(q)));
    assert filtered == Filter(clients, PassMaxEdad(q));
    if Truthy(q.minIngreso) {
      filtered := ByMinIngreso(filtered, q, parseFloat);
    }
    MinIngresoStage(clients, q, parseFloat, Filter(clients, PassMaxEdad(q)));
    assert filtered == Filter(clients, c => Selected(c, q, parseFloat));

    var total := |filtered|;
    r := ClientList(JsSlice(filtered, skip, skip + limit), Pagination(page, limit, total, JsCeilDiv(total, limit)));
  }

  /**
   * For a page and limit of at least 1 the page is the window starting at
   * `(page - 1) * limit`, cut short by the end of the list, and holds at most `limit` clients.
   */
  lemma PageWindow<T>(filtered: seq<T>, page: int, limit: int)
    requires page >= 1 && limit >= 1
    ensures var skip := Skip(page, limit);
      var from := if skip <= |filtered| then skip else |filtered|;
      var to := if skip + limit <= |filtered| then skip + limit else |filtered|;
      JsSlice(filtered, skip, skip + limit) == filtered[from..to]
    ensures |JsSlice(filtered, Skip(page, limit), Skip(page, limit) + limit)| <= limit
  {
    assert Skip(page, limit) >= 0 by {
      MulAtLeast(limit, page);
    }
  }

  /** `k * limit`, built up one `limit` at a time. */
  function Offset(k: nat, limit: nat): (r: nat)
  {
    if k == 0 then 0 else Offset(k - 1, limit) + limit
  }

  lemma {:induction false} OffsetIsProduct(k: nat, limit: nat)
    ensures Offset(k, limit) == k * limit
  {
    if k > 0 {
      OffsetIsProduct(k - 1, limit);
      assert k * limit == (k - 1) * limit + limit;
    }
  }

  /** Page `k + 1` (with `k * limit` as `skip`) is the `k`-th batch of `limit` elements. */
  lemma {:induction false} PageIsBatch<T>(f: seq<T>, k: nat, limit: nat)
    requires limit >= 1
    requires k < |Batches(f, limit)|
    ensures JsSlice(f, Offset(k, limit), Offset(k, limit) + limit) == Batches(f, limit)[k]
  {
    if k == 0 {
      FirstPage(f, limit);
    } else {
      BatchesMoreThanOne(f, limit);
      var g := f[limit..];
      assert k - 1 < |Batches(g, limit)| && Batches(f, limit)[k] == Batches(g, limit)[k - 1] by {
        assert Batches(f, limit) == [f[..limit]] + Batches(g, limit);
      }
      PageIsBatch(g, k - 1, limit);
      var a := Offset(k - 1, limit);
      assert Offset(k, limit) == a + limit;
      SliceShift(f, a, limit);
    }
  }

  /** The first page is the first batch. */
  lemma FirstPage<T>(f: seq<T>, limit: nat)
    requires limit >= 1 && f != []
    ensures |Batches(f, limit)| >= 1
    ensures JsSlice(f, 0, limit) == Batches(f, limit)[0]
  {
    if |f| <= limit {
      assert Batches(f, limit) == [f];
      SliceWithin(f, 0, limit);
    } else {
      assert Batches(f, limit)[0] == f[..limit];
      SliceWithin(f, 0, limit);
    }
  }

  /** A slice between two non-negative indices, the end cut short by the length. */
  lemma SliceWithin<T>(s: seq<T>, from: nat, end: nat)
    requires from < |s| && from < end
    ensures var to := if end <= |s| then end else |s|;
      from < to && JsSlice(s, from, end) == s[from..to]
  {
  }

  /** Dropping the first `limit` elements shifts every later window by `limit`. */
  lemma SliceShift<T>(f: seq<T>, a: nat, limit: nat)
    requires 1 <= limit <= |f|
    ensures JsSlice(f, a + limit, a + limit + limit) == JsSlice(f[limit..], a, a + limit)
  {
    var g := f[limit..];
    if a < |g| {
      var to := if a + limit <= |g| then a + limit else |g|;
      SliceWithin(g, a, a + limit);
      SliceWithin(f, a + limit, a + limit + limit);
      assert forall i :: 0 <= i < to - a ==> g[a..to][i] == f[a + limit..to + limit][i];
    }
  }

  /** The page for `page` under `limit`, as the handler cuts it. */
  function PageOf<T>(filtered: seq<T>, page: int, limit: int): seq<T>
  {
    JsSlice(filtered, Skip(page, limit), Skip(page, limit) + limit)
  }

  /**
   * Walking pages 1 to `totalPages` returns every filtered client exactly once, in
   * order, and every one of those pages is non-empty.
   */
  lemma PagesReassemble<T>(filtered: seq<T>, limit: int)
    requires limit >= 1
    ensures var pages := seq(JsCeilDiv(|filtered|, limit), i => PageOf(filtered, i + 1, limit));
      Flatten(pages) == filtered && forall k :: 0 <= k < |pages| ==> pages[k] != []
  {
    var n := JsCeilDiv(|filtered|, limit);
    var pages := seq(n, i => PageOf(filtered, i + 1, limit));
    BatchesCount(filtered, limit);
    BatchesBounded(filtered, limit);
    forall k | 0 <= k < n
      ensures pages[k] == Batches(filtered, limit)[k]
    {
      assert Skip(k + 1, limit) == k * limit;
      OffsetIsProduct(k, limit);
      PageIsBatch(filtered, k, limit);
    }
    assert pages == Batches(filtered, limit);
    BatchesFlatten(filtered, limit);
  }

  /** `GET /api/clients/:id`: the client, or 404 with a body that does not echo the id. */
  function DetailRoute(found: Option<Client>): (r: Reply<Client>)
    ensures found.None? <==> r == Error(404, "Client not found")
    ensures found.Some? ==> r == Ok(found.value)
  {
    if found.None? then Error(404, "Client not found") else Ok(found.value)
  }

  /** The body of a successful insights reply. */
  datatype InsightsBody = InsightsBody(clienteId: string, perfil: Profile, resumen: Option<string>, insights: ClientInsights)

  /**
   * `GET /api/clients/:id/insights`: 404 for an unknown id, without consulting the LLM;
   * otherwise the client's id, profile and summary unchanged beside the insights, or
   * 500 when the generator throws.
   */
  function InsightsRoute(found: Option<Client>, llm: LlmReply, fmt: NumberFormat): (r: Reply<InsightsBody>)
    ensures found.None? ==> r == Error(404, "Client not found")
    ensures found.Some? && found.value.perfil.ingreso.None? ==> r == Error(500, "Error generating insights")
    ensures found.Some? && found.value.perfil.ingreso.Some? ==> r.Ok?
    ensures r.Ok? ==> (found.Some? && r.body.clienteId == found.value.clienteId
      && r.body.perfil == found.value.perfil && r.body.resumen == found.value.resumen
      && Success(r.body.insights) == GenerateClientInsights(found.value, llm, fmt))
  {
    match found
    case None => Error(404, "Client not found")
    case Some(c) =>
      match GenerateClientInsights(c, llm, fmt)
      case Failure(_) => Error(500, "Error generating insights")
      case Success(ins) => Ok(InsightsBody(c.clienteId, c.perfil, c.resumen, ins))
  }

  /** An unknown id gets the same 404 from both lookups, whatever the LLM would have said. */
  lemma UnknownIdIsNotFound(llm1: LlmReply, llm2: LlmReply, fmt: NumberFormat)
    ensures DetailRoute(None) == Error(404, "Client not found")
    ensures InsightsRoute(None, llm1, fmt) == InsightsRoute(None, llm2, fmt)
    ensures InsightsRoute(None, llm1, fmt).Error? && InsightsRoute(None, llm1, fmt).status == 404
  {
  }

  /** The `/api/metrics` reply: the upstream JSON, or the fixed fallback figures. */
  datatype MetricsReply<T> =
    | Forwarded(data: T)
    | Fallback(captacionesCrc: real, colocacionesCrc: real, netoCrc: real, nClientes: int)

  /**
   * `GET /api/metrics`: any failure of the proxy is answered with status 200 and the
   * four fixed fields, without any marker that they are a fallback.
   */
  function MetricsRoute<T>(upstream: ProxyOutcome<T>): (r: MetricsReply<T>)
    ensures upstream.Body? ==> r == Forwarded(upstream.json)
    ensures !upstream.Body? ==> r == Fallback(42196704.45, 10931313.22, 31265391.23, 926)
  {
    if upstream.Body? then Forwarded(upstream.json)
    else Fallback(42196704.45, 10931313.22, 31265391.23, 926)
  }

  /** The fallback figures are consistent: net is deposits minus loans. */
  lemma FallbackNetIsDifference<T>(upstream: ProxyOutcome<T>)
    requires !upstream.Body?
    ensures var r := MetricsRoute(upstream); r.netoCrc == r.captacionesCrc - r.colocacionesCrc
  {
  }

  /** `req.query.tipo || 'neto'`. */
  function SaldoTipo(tipo: Param): (t: string)
    ensures Truthy(tipo) ==> t == tipo.value
    ensures !Truthy(tipo) ==> t == "neto"
  {
    if Truthy(tipo) then tipo.value else "neto"
  }

  /**
   * `GET /api/metrics/saldo`: the upstream body for the requested type (`'neto'` when
   * none is given), or 500 on any failure, an upstream 400 included.
   */
  function SaldoRoute<T>(tipo: Param, fetchSaldo: string -> ProxyOutcome<T>): (r: Reply<T>)
    ensures fetchSaldo(SaldoTipo(tipo)).Body? ==> r == Ok(fetchSaldo(SaldoTipo(tipo)).json)
    ensures !fetchSaldo(SaldoTipo(tipo)).Body? ==> r == Error(500, "Error fetching saldo metrics")
  {
    match fetchSaldo(SaldoTipo(tipo))
    case Body(json) => Ok(json)
    case _ => Error(500, "Error fetching saldo metrics")
  }

  /** The request `/api/rag/ask` forwards. */
  datatype AskRequest = AskRequest(q: string, topK: int)

  /** What the handler did: the request it forwarded, if any, and its reply. */
  datatype AskOutcome<T> = AskOutcome(forwarded: Option<AskRequest>, reply: Reply<T>)

  /**
   * `GET /api/rag/ask`: a missing or empty `q` is answered 400 before anything is
   * fetched; otherwise `top_k` is `parseInt(top_k) || 5`, not clamped here.
   */
  function RagAskRoute<T>(q: Param, topK: Param, fetchAsk: AskRequest -> ProxyOutcome<T>): (r: AskOutcome<T>)
    ensures !Truthy(q) <==> r.forwarded.None?
    ensures !Truthy(q) ==> r.reply == Error(400, "Query parameter \"q\" is required")
    ensures Truthy(q) ==> r.forwarded == Some(AskRequest(q.value, IntOr(topK, 5)))
    ensures Truthy(q) && fetchAsk(r.forwarded.value).Body? ==> r.reply == Ok(fetchAsk(r.forwarded.value).json)
    ensures Truthy(q) && !fetchAsk(r.forwarded.value).Body? ==> r.reply == Error(500, "Error processing RAG query")
  {
    if !Truthy(q) then AskOutcome(None, Error(400, "Query parameter \"q\" is required"))
    else
      var req := AskRequest(q.value, IntOr(topK, 5));
      match fetchAsk(req)
      case Body(json) => AskOutcome(Some(req), Ok(json))
      case _ => AskOutcome(Some(req), Error(500, "Error processing RAG query"))
  }
}
