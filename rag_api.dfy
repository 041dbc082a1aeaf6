/**
 * The FastAPI application of the Python API (server/api_rag/main.py): two services
 * created lazily and kept in module globals, the health report, and the mapping of
 * each endpoint's exceptions to HTTP statuses.
 */
module RagApi {
  import opened Wrappers
  import MS = MetricsService
  import RS = RagService

  /**
   * What the process reads from outside: the API key variable, the two metrics files,
   * the row-cards file, and the calls the services make.
   */
  datatype Env = Env(
    apiKey: Option<string>,
    metricsConfig: Result<MS.MetricsConfig, MS.LoadError>,
    portfolioTotals: Result<MS.PortfolioTotals, MS.LoadError>,
    rowCards: Result<string, string>,
    parse: RS.CardParser,
    embed: RS.Embedder,
    run: RS.QueryRunner,
    llm: RS.Llm,
    round2: MS.Rounder)

  /** An endpoint's answer: a body, an `HTTPException`, or a request the parameter validation refuses (422). */
  datatype Reply<T> = Ok(body: T) | HttpError(status: int, detail: string) | Unprocessable

  /** `len(api_key) > 20`, the key being `''` when the variable is unset. */
  predicate HasValidKey(apiKey: Option<string>)
  {
    |apiKey.GetOr("")| > 20
  }

  datatype Services = Services(metrics: string, rag: string, openaiConfigured: bool)
  datatype HealthBody = HealthBody(status: string, vectorDocs: int, services: Services)

  /**
   * The health report: an initialised retrieval service reports its own status and
   * document count; otherwise the count is 0 and the status says whether a usable key
   * is configured.
   */
  function HealthReport(stats: Option<RS.RagStats>, apiKey: Option<string>): (b: HealthBody)
    ensures b.status == "ok" && b.services.metrics == "ready"
    ensures b.services.openaiConfigured <==> HasValidKey(apiKey)
    ensures stats.Some? ==> b.services.rag == stats.value.status && b.vectorDocs == stats.value.totalDocuments
    ensures stats.None? ==> b.vectorDocs == 0
    ensures stats.None? ==> (b.services.rag == "ready_to_init" <==> HasValidKey(apiKey))
    ensures stats.None? ==> (b.services.rag == "needs_api_key" <==> !HasValidKey(apiKey))
  {
    var valid := HasValidKey(apiKey);
    var rag := if stats.Some? then stats.value.status else if valid then "ready_to_init" else "needs_api_key";
    var docs := if stats.Some? then stats.value.totalDocuments else 0;
    HealthBody("ok", docs, Services("ready", rag, valid))
  }

  /** The reported `rag` status is one of four words, 'ready' only for an initialised service holding documents. */
  lemma HealthStatusValues(rag: Option<RS.Rag>, apiKey: Option<string>)
    ensures var b := HealthReport(if rag.Some? then Some(rag.value.GetStats()) else None, apiKey);
      b.services.rag in {"ready", "empty", "ready_to_init", "needs_api_key"}
      && (b.services.rag == "ready" <==> rag.Some? && rag.value.collection.Count() > 0)
  {
  }

  /** The service `get_metrics_service` hands out: the cached one, or a new one from the files. */
  function MetricsFor(cached: Option<MS.Service>, env: Env): (r: Result<MS.Service, MS.LoadError>)
    ensures cached.Some? ==> r == Success(cached.value)
    ensures cached.None? ==> r == MS.NewService(env.metricsConfig, env.portfolioTotals)
  {
    if cached.Some? then Success(cached.value) else MS.NewService(env.metricsConfig, env.portfolioTotals)
  }

  /**
   * `/metrics/saldo`: a `ValueError` gives 400 with its text, any other exception 500.
   * Both a rejected `tipo` and a metrics file that is not valid JSON are `ValueError`s.
   */
  function SaldoReply(svc: Result<MS.Service, MS.LoadError>, tipo: string, round2: MS.Rounder): (r: Reply<MS.Saldo>)
    ensures r.HttpError? && r.status == 400 <==>
      (svc.Failure? && svc.error.BadJson?) || (svc.Success? && MS.GetSaldo(svc.value, tipo, round2).Failure?)
    ensures r.HttpError? ==> r.status == 400 || r.status == 500
    ensures svc.Failure? && svc.error.FileMissing? ==> r == HttpError(500, "Error calculando saldo: " + svc.error.message)
    ensures svc.Success? && MS.GetSaldo(svc.value, tipo, round2).Failure? ==>
      r == HttpError(400, MS.GetSaldo(svc.value, tipo, round2).error)
    ensures r.Ok? <==> svc.Success? && MS.GetSaldo(svc.value, tipo, round2).Success?
    ensures r.Ok? ==> r.body == MS.GetSaldo(svc.value, tipo, round2).value
  {
    match svc
    case Failure(BadJson(m)) => HttpError(400, m)
    case Failure(FileMissing(m)) => HttpError(500, "Error calculando saldo: " + m)
    case Success(s) =>
      match MS.GetSaldo(s, tipo, round2)
      case Failure(m) => HttpError(400, m)
      case Success(v) => Ok(v)
  }

  /** An endpoint whose every exception is a 500 with the endpoint's prefix before the exception's text. */
  function ServiceReply<T>(svc: Result<MS.Service, MS.LoadError>, prefix: string, answer: MS.Service -> T): (r: Reply<T>)
    ensures svc.Failure? ==> r == HttpError(500, prefix + svc.error.message)
    ensures svc.Success? ==> r == Ok(answer(svc.value))
  {
    match svc
    case Failure(e) => HttpError(500, prefix + e.message)
    case Success(s) => Ok(answer(s))
  }

  function PorProducto(s: MS.Service): MS.SaldoPorProducto { MS.GetSaldoPorProducto(s) }

  const DefaultTopK := 5

  /** `Query(5, ge=1, le=20)`: the default when absent, and only values in [1, 20] are accepted. */
  function TopK(topK: Option<int>): (r: Option<int>)
    ensures r.Some? <==> topK.None? || 1 <= topK.value <= 20
    ensures r.Some? ==> 1 <= r.value <= 20
    ensures topK.None? ==> r == Some(DefaultTopK)
    ensures topK.Some? && r.Some? ==> r.value == topK.value
  {
    if topK.None? then Some(DefaultTopK)
    else if 1 <= topK.value <= 20 then topK
    else None
  }

  /** The module globals `rag_service` and `metrics_service`, and the persistent collection. */
  class Api {
    var rag: Option<RS.Rag>
    var metrics: Option<MS.Service>
    const store: RS.Collection

    /** An initialised retrieval service works on the persistent collection. */
    predicate Valid()
      reads this, store
    {
      store.Valid() && (rag.Some? ==> rag.value.collection == store)
    }

    /** Both globals start as `None`. */
    constructor(store: RS.Collection)
      requires store.Valid()
      ensures Valid() && rag == None && metrics == None && this.store == store
    {
      rag := None;
      metrics := None;
      this.store := store;
    }

    /**
     * `get_rag_service`: the first successful call constructs the service and keeps it;
     * later calls return that same instance and touch nothing. A failed construction
     * keeps nothing, so the next call tries again.
     */
    method GetRagService(env: Env) returns (r: Result<RS.Rag, string>)
      requires Valid()
      modifies this, store
      ensures Valid()
      ensures metrics == old(metrics)
      ensures old(rag).Some? ==> r == Success(old(rag).value) && rag == old(rag) && unchanged(store)
      ensures old(rag).None? && r.Success? ==> rag == Some(r.value) && fresh(r.value)
      ensures old(rag).None? && r.Failure? ==> rag == None
      ensures old(rag).None? && RS.ResolveApiKey(None, env.apiKey).Failure? ==>
        r == Failure(RS.MissingKeyMessage) && unchanged(store)
      ensures old(rag).None? && r.Success? ==>
        r.value.collection == store && RS.ResolveApiKey(None, env.apiKey) == Success(r.value.apiKey)
      ensures old(rag).None? && old(store.Count()) > 0 && RS.ResolveApiKey(None, env.apiKey).Success? ==>
        r.Success? && unchanged(store)
      ensures old(rag).None? && old(store.Count()) == 0 && r.Success? ==>
        RS.IndexPlan(env.rowCards, env.parse).Success?
        && RS.Aligned(RS.Stored(store), RS.IndexPlan(env.rowCards, env.parse).value)
      ensures old(rag).None? && old(store.Count()) == 0 && r.Failure? && store.Count() > 0 ==>
        RS.IndexPlan(env.rowCards, env.parse).Success?
        && store.Count() < |RS.IndexPlan(env.rowCards, env.parse).value|
    {
      if rag.Some? {
        return Success(rag.value);
      }
      r := RS.NewRag(None, env.apiKey, store, env.rowCards, env.parse, env.embed);
      if r.Success? {
        rag := Some(r.value);
      }
    }

    /**
     * `get_metrics_service`: the first successful call reads the files and keeps the
     * service; later calls return it without reading again.
     */
    method GetMetricsService(env: Env) returns (r: Result<MS.Service, MS.LoadError>)
      modifies this
      ensures rag == old(rag)
      ensures r == MetricsFor(old(metrics), env)
      ensures metrics == (if r.Success? then Some(r.value) else None)
    {
      r := MetricsFor(metrics, env);
      if r.Success? {
        metrics := Some(r.value);
      }
    }

    /**
     * `/health`: it may construct the metrics service, never the retrieval one, and
     * reports the latter's state; a metrics file that cannot be loaded gives 500.
     */
    method Health(env: Env) returns (r: Reply<HealthBody>)
      requires Valid()
      modifies this
      ensures Valid()
      ensures rag == old(rag)
      ensures metrics == (if MetricsFor(old(metrics), env).Success? then Some(MetricsFor(old(metrics), env).value) else None)
      ensures MetricsFor(old(metrics), env).Failure? ==>
        r == HttpError(500, "Error en health check: " + MetricsFor(old(metrics), env).error.message)
      ensures MetricsFor(old(metrics), env).Success? ==>
        r == Ok(HealthReport(if rag.Some? then Some(rag.value.GetStats()) else None, env.apiKey))
    {
      var svc := GetMetricsService(env);
      if svc.Failure? {
        return HttpError(500, "Error en health check: " + svc.error.message);
      }
      var stats := if rag.Some? then Some(rag.value.GetStats()) else None;
      r := Ok(HealthReport(stats, env.apiKey));
    }

    /**
     * `/ask`: a missing `q` or a `top_k` outside [1, 20] is refused before the handler
     * runs; otherwise any exception, including a missing key, gives 500. An answer the
     * model left empty (`None`) does not fit the declared response and is a 500 as well.
     */
    method Ask(q: Option<string>, topK: Option<int>, env: Env) returns (r: Reply<RS.AskResult>)
      requires Valid()
      modifies this, store
      ensures Valid()
      ensures metrics == old(metrics)
      ensures q.None? || TopK(topK).None? ==> r == Unprocessable && rag == old(rag) && unchanged(store)
      ensures r.HttpError? ==> r.status == 500
      ensures r.Ok? ==> rag.Some? && r.body.contextUsed == |r.body.matches| && r.body.answer.Some?
      ensures old(rag).Some? ==> rag == old(rag) && unchanged(store)
      ensures r.Ok? ==> (q.Some? && TopK(topK).Some?
        && RS.SearchResult(q.value, TopK(topK).value, env.embed, env.run).Success?
        && r.body.matches == RS.SearchResult(q.value, TopK(topK).value, env.embed, env.run).value
        && env.llm(RS.ContextText(r.body.matches), q.value).Success?
        && r.body.answer == env.llm(RS.ContextText(r.body.matches), q.value).value)
      ensures r.Ok? <==> (q.Some? && TopK(topK).Some? && rag.Some?
        && RS.SearchResult(q.value, TopK(topK).value, env.embed, env.run).Success?
        && env.llm(RS.ContextText(RS.SearchResult(q.value, TopK(topK).value, env.embed, env.run).value), q.value).Success?
        && env.llm(RS.ContextText(RS.SearchResult(q.value, TopK(topK).value, env.embed, env.run).value), q.value).value.Some?)
    {
      if q.None? || TopK(topK).None? {
        return Unprocessable;
      }
      var k := TopK(topK).value;
      var service := GetRagService(env);
      if service.Failure? {
        return HttpError(500, "Error en RAG query: " + service.error);
      }
      var result := RS.AskWithGpt(q.value, k, env.embed, env.run, env.llm);
      if result.Failure? {
        return HttpError(500, "Error en RAG query: " + result.error);
      }
      if result.value.answer.None? {
        return HttpError(500, "Internal Server Error");
      }
      r := Ok(result.value);
    }

    /** `/metrics/saldo`: a missing `tipo` is refused; otherwise the status mapping of `SaldoReply`. */
    method Saldo(tipo: Option<string>, env: Env) returns (r: Reply<MS.Saldo>)
      modifies this
      ensures rag == old(rag)
      ensures tipo.None? ==> r == Unprocessable && metrics == old(metrics)
      ensures tipo.Some? ==> r == SaldoReply(MetricsFor(old(metrics), env), tipo.value, env.round2)
      ensures tipo.Some? ==> metrics == (if MetricsFor(old(metrics), env).Success? then Some(MetricsFor(old(metrics), env).value) else None)
    {
      if tipo.None? {
        return Unprocessable;
      }
      var svc := GetMetricsService(env);
      r := SaldoReply(svc, tipo.value, env.round2);
    }

    /** `/metrics/saldo_por_producto`: every exception, a bad JSON file included, is a 500. */
    method SaldoPorProducto(env: Env) returns (r: Reply<MS.SaldoPorProducto>)
      modifies this
      ensures rag == old(rag)
      ensures r == ServiceReply(MetricsFor(old(metrics), env), "Error obteniendo productos: ", PorProducto)
      ensures metrics == (if MetricsFor(old(metrics), env).Success? then Some(MetricsFor(old(metrics), env).value) else None)
    {
      var svc := GetMetricsService(env);
      r := ServiceReply(svc, "Error obteniendo productos: ", PorProducto);
    }

    /** `/metrics/summary`: every exception is a 500. */
    method Summary(env: Env) returns (r: Reply<MS.TotalsSummary>)
      modifies this
      ensures rag == old(rag)
      ensures r == ServiceReply(MetricsFor(old(metrics), env), "Error obteniendo resumen: ", (s: MS.Service) => MS.GetTotalsSummary(s, env.round2))
      ensures metrics == (if MetricsFor(old(metrics), env).Success? then Some(MetricsFor(old(metrics), env).value) else None)
    {
      var svc := GetMetricsService(env);
      r := ServiceReply(svc, "Error obteniendo resumen: ", (s: MS.Service) => MS.GetTotalsSummary(s, env.round2));
    }
  }

  /** Two calls of `get_metrics_service`: once one succeeds, the next returns the same service. */
  method MetricsServiceTwice(api: Api, first: Env, second: Env) returns (a: Result<MS.Service, MS.LoadError>, b: Result<MS.Service, MS.LoadError>)
    modifies api
    ensures a.Success? ==> b == a
  {
    a := api.GetMetricsService(first);
    b := api.GetMetricsService(second);
  }

  /** Two calls of `get_rag_service`: once one succeeds, the next returns the same instance. */
  method RagServiceTwice(api: Api, first: Env, second: Env) returns (a: Result<RS.Rag, string>, b: Result<RS.Rag, string>)
    requires api.Valid()
    modifies api, api.store
    ensures a.Success? ==> b == a
  {
    a := api.GetRagService(first);
    b := api.GetRagService(second);
  }

  /** `/health` before any question: the retrieval service stays uninitialised, and its status depends on the key alone. */
  method HealthBeforeAsk(api: Api, env: Env) returns (r: Reply<HealthBody>)
    requires api.Valid() && api.rag.None?
    modifies api
    ensures api.rag.None?
    ensures r.Ok? ==> (r.body.vectorDocs == 0
      && r.body.services.rag == (if HasValidKey(env.apiKey) then "ready_to_init" else "needs_api_key"))
  {
    r := api.Health(env);
  }
}
