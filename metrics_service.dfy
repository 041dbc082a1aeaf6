/**
 * Portfolio balance metrics of the Python API (server/api_rag/metrics_service.py):
 * totals read once from two JSON files, and the net, deposit (captaciones) and loan
 * (colocaciones) balances answered from them.
 */
module MetricsService {
  import opened Wrappers
  import opened Strings

  /** `metrics_config.json`: the balance columns each total is defined over. */
  datatype MetricsConfig = MetricsConfig(captaciones: seq<string>, colocaciones: seq<string>)

  /** `portfolio_totals.json`. */
  datatype PortfolioTotals = PortfolioTotals(
    captacionesTotalCrc: real,
    colocacionesTotalCrc: real,
    saldoNetoCrc: real,
    nClientes: int,
    colsPasivasDetectadas: seq<string>,
    colsActivasDetectadas: seq<string>)

  /**
   * Why loading a JSON file failed, with the exception's text: the file cannot be opened
   * (an `OSError`), or its content is not valid UTF-8 JSON (a `ValueError`).
   */
  datatype LoadError = FileMissing(message: string) | BadJson(message: string)

  /** A constructed service: both files were read. */
  datatype Service = Service(config: MetricsConfig, totals: PortfolioTotals)

  /** `MetricsService.__init__`: the configuration first, then the totals; either failure escapes. */
  function NewService(config: Result<MetricsConfig, LoadError>, totals: Result<PortfolioTotals, LoadError>): (r: Result<Service, LoadError>)
    ensures r.Success? <==> config.Success? && totals.Success?
    ensures config.Failure? ==> r == Failure(config.error)
    ensures config.Success? && totals.Failure? ==> r == Failure(totals.error)
    ensures r.Success? ==> r.value == Service(config.value, totals.value)
  {
    match config
    case Failure(e) => Failure(e)
    case Success(c) =>
      match totals
      case Failure(e) => Failure(e)
      case Success(t) => Success(Service(c, t))
  }

  /** Python's `round(x, 2)` is not modelled; it is a parameter. */
  type Rounder = real -> real

  datatype Saldo =
    | Component(tipo: string, crc: real, cols: seq<string>, nClientes: int)
    | Neto(tipo: string, crc: real, formula: string, captacionesCrc: real, colocacionesCrc: real, nClientes: int)

  const Tipos: set<string> := {"neto", "captaciones", "colocaciones"}

  /** The `ValueError` message for a rejected `tipo` (already lower-cased). */
  function InvalidTipo(tipo: string): string
  {
    "Tipo inválido: " + tipo + ". Debe ser 'neto', 'captaciones' o 'colocaciones'"
  }

  /**
   * `get_saldo`: `tipo` is lower-cased, then anything but the three known names is a
   * `ValueError`. A component reports its stored total and its defining columns; the net
   * balance is deposits minus loans and reports both components. All carry `n_clientes`.
   */
  function GetSaldo(s: Service, tipo: string, round2: Rounder): (r: Result<Saldo, string>)
    ensures r.Failure? <==> ToLower(tipo) !in Tipos
    ensures r.Failure? ==> r.error == InvalidTipo(ToLower(tipo))
    ensures r.Success? ==> r.value.nClientes == s.totals.nClientes && r.value.tipo == ToLower(tipo)
    ensures ToLower(tipo) == "captaciones" ==> r == Success(Component("captaciones",
      round2(s.totals.captacionesTotalCrc), s.config.captaciones, s.totals.nClientes))
    ensures ToLower(tipo) == "colocaciones" ==> r == Success(Component("colocaciones",
      round2(s.totals.colocacionesTotalCrc), s.config.colocaciones, s.totals.nClientes))
    ensures ToLower(tipo) == "neto" ==> (r.Success? && r.value.Neto?
      && r.value.crc == round2(s.totals.captacionesTotalCrc - s.totals.colocacionesTotalCrc)
      && r.value.captacionesCrc == round2(s.totals.captacionesTotalCrc)
      && r.value.colocacionesCrc == round2(s.totals.colocacionesTotalCrc))
  {
    var t := ToLower(tipo);
    if t !in Tipos then Failure(InvalidTipo(t))
    else if t == "captaciones" then
      Success(Component("captaciones", round2(s.totals.captacionesTotalCrc), s.config.captaciones, s.totals.nClientes))
    else if t == "colocaciones" then
      Success(Component("colocaciones", round2(s.totals.colocacionesTotalCrc), s.config.colocaciones, s.totals.nClientes))
    else
      var capt := s.totals.captacionesTotalCrc;
      var colo := s.totals.colocacionesTotalCrc;
      Success(Neto("neto", round2(capt - colo), "captaciones - colocaciones", round2(capt), round2(colo), s.totals.nClientes))
  }

  /** Case does not matter: 'NETO' is answered exactly as 'neto'. */
  lemma GetSaldoIgnoresCase(s: Service, tipo: string, round2: Rounder)
    ensures GetSaldo(s, tipo, round2) == GetSaldo(s, ToLower(tipo), round2)
  {
    ToLowerIdempotent(tipo);
  }

  lemma UpperNetoAccepted(s: Service, round2: Rounder)
    ensures GetSaldo(s, "NETO", round2).Success?
  {
    assert ToLower("NETO") == "neto";
  }

  /** Without rounding, the net balance is exactly the difference of the two reported components. */
  lemma NetoIsDifference(s: Service, tipo: string)
    requires ToLower(tipo) == "neto"
    ensures var r := GetSaldo(s, tipo, x => x);
      r.Success? && r.value.crc == r.value.captacionesCrc - r.value.colocacionesCrc
  {
  }

  datatype ProductBreakdown = ProductBreakdown(colsDetectadas: seq<string>, definicion: seq<string>)
  datatype SaldoPorProducto = SaldoPorProducto(captaciones: ProductBreakdown, colocaciones: ProductBreakdown, nClientes: int)

  /** `get_saldo_por_producto`: the detected columns and the definitions, unchanged. */
  function GetSaldoPorProducto(s: Service): (r: SaldoPorProducto)
    ensures r.captaciones.colsDetectadas == s.totals.colsPasivasDetectadas
    ensures r.colocaciones.colsDetectadas == s.totals.colsActivasDetectadas
    ensures r.captaciones.definicion == s.config.captaciones && r.colocaciones.definicion == s.config.colocaciones
    ensures r.nClientes == s.totals.nClientes
  {
    SaldoPorProducto(
      ProductBreakdown(s.totals.colsPasivasDetectadas, s.config.captaciones),
      ProductBreakdown(s.totals.colsActivasDetectadas, s.config.colocaciones),
      s.totals.nClientes)
  }

  datatype TotalsSummary = TotalsSummary(
    captacionesCrc: real, colocacionesCrc: real, netoCrc: real, nClientes: int,
    colsCaptaciones: seq<string>, colsColocaciones: seq<string>)

  /** `get_totals_summary`: the net figure is the stored `saldo_neto_crc`, not recomputed. */
  function GetTotalsSummary(s: Service, round2: Rounder): (r: TotalsSummary)
    ensures r.netoCrc == round2(s.totals.saldoNetoCrc)
    ensures r.captacionesCrc == round2(s.totals.captacionesTotalCrc)
    ensures r.colocacionesCrc == round2(s.totals.colocacionesTotalCrc)
    ensures r.nClientes == s.totals.nClientes
  {
    TotalsSummary(round2(s.totals.captacionesTotalCrc), round2(s.totals.colocacionesTotalCrc),
      round2(s.totals.saldoNetoCrc), s.totals.nClientes, s.config.captaciones, s.config.colocaciones)
  }

  /**
   * The summary's net figure and `get_saldo('neto')` agree exactly when the stored net
   * equals deposits minus loans (compared unrounded); a stale stored value shows up only
   * in the summary.
   */
  lemma SummaryNetoAgreesIffConsistent(s: Service)
    ensures GetTotalsSummary(s, x => x).netoCrc == GetSaldo(s, "neto", x => x).value.crc
      <==> s.totals.saldoNetoCrc == s.totals.captacionesTotalCrc - s.totals.colocacionesTotalCrc
  {
    assert ToLower("neto") == "neto";
  }
}
