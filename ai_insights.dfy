/**
 * One-to-one client insights (server/ai-insights.ts): an LLM answer when the call
 * succeeds, otherwise a rule-based analysis built from the client's profile.
 */
module AiInsights {
  import opened Wrappers
  import opened Strings
  import opened DataLoader

  /** The four sections of `ClientInsights`. */
  datatype Comportamiento = Comportamiento(patronTransaccional: string, engagementDigital: string, tendencias: string)
  datatype Oportunidades = Oportunidades(productosNba: seq<string>, crossSell: string, momentosVida: string)
  datatype Alertas = Alertas(churn: string, documentos: string, compliance: string)
  datatype ClientInsights = ClientInsights(
    snapshotEjecutivo: string,
    analisisComportamiento: Comportamiento,
    oportunidades: Oportunidades,
    alertasRiesgos: Alertas)

  /**
   * JavaScript's rendering of numbers inside template literals: `${n}` and
   * `n.toFixed(0)`. Number formatting is not modelled; it is a parameter.
   */
  datatype NumberFormat = NumberFormat(show: real -> string, fixed0: real -> string)

  /** How the chat-completions call ended. */
  datatype LlmReply =
    | Threw                                   // `fetch` rejected, or `data.choices[0]` was missing
    | NotOk(status: int)                      // `!response.ok`
    | Content(parsed: Option<ClientInsights>) // `JSON.parse(content)`; `None` when it throws

  /** `x < b` in JavaScript, where a missing value compares false. */
  predicate Below(x: Option<real>, b: real)
  {
    x.Some? && x.value < b
  }

  /** `x > b` in JavaScript, where a missing value compares false. */
  predicate Above(x: Option<real>, b: real)
  {
    x.Some? && x.value > b
  }

  /** `edadCategoria`: under 35 young, under 55 middle, otherwise senior (a missing age too). */
  function EdadCategoria(edad: Option<real>): (cat: string)
    ensures cat == "joven" <==> Below(edad, 35.0)
    ensures cat == "medio" <==> edad.Some? && 35.0 <= edad.value < 55.0
    ensures cat == "senior" <==> !Below(edad, 55.0)
  {
    if Below(edad, 35.0) then "joven" else if Below(edad, 55.0) then "medio" else "senior"
  }

  /** `ingresoCategoria`: under 2000 low, under 6000 middle, otherwise high. */
  function IngresoCategoria(ingreso: real): (cat: string)
    ensures cat == "bajo" <==> ingreso < 2000.0
    ensures cat == "medio" <==> 2000.0 <= ingreso < 6000.0
    ensures cat == "alto" <==> ingreso >= 6000.0
  {
    if ingreso < 2000.0 then "bajo" else if ingreso < 6000.0 then "medio" else "alto"
  }

  /** Job stability is high exactly when the seniority exceeds 50 months. */
  function Estabilidad(antiguedad: Option<real>): (s: string)
    ensures s == "alta" <==> Above(antiguedad, 50.0)
    ensures s == "moderada" <==> !Above(antiguedad, 50.0)
  {
    if Above(antiguedad, 50.0) then "alta" else "moderada"
  }

  const EngagementAlto := "Alto - perfil digital activo"
  const EngagementModerado := "Moderado - preferencia por canales mixtos"

  /** Digital engagement is high exactly for clients younger than 40. */
  function Engagement(edad: Option<real>): (s: string)
    ensures s == EngagementAlto <==> Below(edad, 40.0)
    ensures s == EngagementModerado <==> !Below(edad, 40.0)
  {
    if Below(edad, 40.0) then EngagementAlto else EngagementModerado
  }

  const MomentoJubilacion := "Próximo a jubilación - plan de retiro recomendado"
  const MomentoInicio := "Inicio de carrera - productos de ahorro y crédito"
  const MomentoConsolidacion := "Consolidación patrimonial - inversiones a mediano plazo"

  /** Life moment: retirement over 55, career start under 35, consolidation otherwise. */
  function MomentosVida(edad: Option<real>): (s: string)
    ensures s == MomentoJubilacion <==> Above(edad, 55.0)
    ensures s == MomentoInicio <==> Below(edad, 35.0)
    ensures s == MomentoConsolidacion <==> !Above(edad, 55.0) && !Below(edad, 35.0)
  {
    if Above(edad, 55.0) then MomentoJubilacion else if Below(edad, 35.0) then MomentoInicio else MomentoConsolidacion
  }

  /** Age 55 is already "senior" for the snapshot but still "consolidation" for life moments. */
  lemma AgeFiftyFiveBands()
    ensures EdadCategoria(Some(55.0)) == "senior"
    ensures MomentosVida(Some(55.0)) == MomentoConsolidacion
  {
  }

  const ProductosPublico := ["Cuenta de ahorro premium", "Seguro de vida", "Plan de pensiones"]
  const ProductosPrivado := ["Tarjeta de crédito platinum", "Inversión en fondos", "Crédito personal"]

  /** Next-best-action products: always three, savings for the public sector, credit otherwise. */
  function ProductosNba(p: Profile): (ps: seq<string>)
    ensures |ps| == 3
    ensures ps == ProductosPublico <==> p.sectorPublicoFlag == Some(1.0)
    ensures ps == ProductosPrivado <==> p.sectorPublicoFlag != Some(1.0)
  {
    if p.sectorPublicoFlag == Some(1.0) then ProductosPublico else ProductosPrivado
  }

  const ChurnAlerta := "Alerta: Sin ingresos reportados - riesgo de inactividad"
  const ChurnNinguno := "Sin señales detectadas"

  /** The inactivity alert is raised exactly when the income is 0. */
  function Churn(ingreso: real): (s: string)
    ensures s == ChurnAlerta <==> ingreso == 0.0
    ensures s == ChurnNinguno <==> ingreso != 0.0
  {
    if ingreso == 0.0 then ChurnAlerta else ChurnNinguno
  }

  const SnapshotRiesgo := ". Perfil de riesgo moderado con potencial de crecimiento en productos de "

  /** The snapshot sentence, determined by the three categories. */
  function Snapshot(edadCat: string, publico: bool, ingresoCat: string): (s: string)
    ensures |s| > 0
  {
    "Cliente " + edadCat + " del sector " + (if publico then "público" else "privado")
    + " con ingreso " + ingresoCat + SnapshotRiesgo + (if publico then "ahorro" else "inversión") + "."
  }

  /** Every string of the analysis is non-empty, and there are products to offer. */
  predicate AllFilled(ins: ClientInsights)
  {
    |ins.snapshotEjecutivo| > 0
    && |ins.analisisComportamiento.patronTransaccional| > 0
    && |ins.analisisComportamiento.engagementDigital| > 0
    && |ins.analisisComportamiento.tendencias| > 0
    && |ins.oportunidades.productosNba| > 0
    && (forall k :: 0 <= k < |ins.oportunidades.productosNba| ==> |ins.oportunidades.productosNba[k]| > 0)
    && |ins.oportunidades.crossSell| > 0
    && |ins.oportunidades.momentosVida| > 0
    && |ins.alertasRiesgos.churn| > 0
    && |ins.alertasRiesgos.documentos| > 0
    && |ins.alertasRiesgos.compliance| > 0
  }

  const EstabilidadTexto := " meses de antigüedad laboral, mostrando estabilidad "

  function PatronTransaccional(antiguedadText: string, antiguedad: Option<real>): (s: string)
    ensures |s| > 0
  {
    "Cliente con " + antiguedadText + EstabilidadTexto + Estabilidad(antiguedad) + "."
  }

  const CrossSellPerfil := ", perfil óptimo para productos de "
  const CrossSellAlto := "inversión y seguros premium"
  const CrossSellBasico := "ahorro y protección básica"

  function CrossSell(ingresoText: string, ingresoCat: string): (s: string)
    ensures |s| > 0
  {
    "Considerando ingreso de ₡" + ingresoText + CrossSellPerfil
    + (if ingresoCat == "alto" then CrossSellAlto else CrossSellBasico) + "."
  }

  const Tendencias := "Comportamiento estable sin variaciones significativas detectadas"
  const Documentos := "Pendiente verificación - requiere actualización KYC"
  const Compliance := "Compliant - última verificación hace 6 meses"

  lemma FixedTextsFilled()
    ensures |Tendencias| > 0 && |Documentos| > 0 && |Compliance| > 0
    ensures |EngagementAlto| > 0 && |EngagementModerado| > 0
    ensures |MomentoJubilacion| > 0 && |MomentoInicio| > 0 && |MomentoConsolidacion| > 0
    ensures |ChurnAlerta| > 0 && |ChurnNinguno| > 0
    ensures forall k :: 0 <= k < 3 ==> |ProductosPublico[k]| > 0 && |ProductosPrivado[k]| > 0
  {
  }

  /**
   * `generateBasicInsights`: the rule-based analysis. It reads `ingreso.toFixed`, so the
   * income must be present (a missing income throws, see `GenerateClientInsights`).
   * `BasicInsightsFilled` shows that every part of it is filled in.
   */
  function GenerateBasicInsights(c: Client, fmt: NumberFormat): (ins: ClientInsights)
    requires c.perfil.ingreso.Some?
    ensures ins.oportunidades.productosNba == ProductosNba(c.perfil)
    ensures ins.alertasRiesgos.churn == Churn(c.perfil.ingreso.value)
    ensures ins.oportunidades.momentosVida == MomentosVida(c.perfil.edad)
    ensures ins.analisisComportamiento.patronTransaccional
      == PatronTransaccional(AntiguedadText(c.perfil, fmt), c.perfil.antiguedadLaboral)
    ensures ins.analisisComportamiento.engagementDigital == Engagement(c.perfil.edad)
    ensures ins.oportunidades.crossSell
      == CrossSell(fmt.fixed0(c.perfil.ingreso.value), IngresoCategoria(c.perfil.ingreso.value))
    ensures ins.snapshotEjecutivo == Snapshot(EdadCategoria(c.perfil.edad),
      c.perfil.sectorPublicoFlag == Some(1.0), IngresoCategoria(c.perfil.ingreso.value))
  {
    var p := c.perfil;
    var ingreso := p.ingreso.value;
    var publico := p.sectorPublicoFlag == Some(1.0);
    var ingresoCat := IngresoCategoria(ingreso);
    ClientInsights(
      Snapshot(EdadCategoria(p.edad), publico, ingresoCat),
      Comportamiento(PatronTransaccional(AntiguedadText(p, fmt), p.antiguedadLaboral), Engagement(p.edad), Tendencias),
      Oportunidades(ProductosNba(p), CrossSell(fmt.fixed0(ingreso), ingresoCat), MomentosVida(p.edad)),
      Alertas(Churn(ingreso), Documentos, Compliance))
  }

  /** `${antiguedad}`, which reads "undefined" for a missing value. */
  function AntiguedadText(p: Profile, fmt: NumberFormat): string
  {
    if p.antiguedadLaboral.Some? then fmt.show(p.antiguedadLaboral.value) else "undefined"
  }

  /** The rule-based analysis has every string filled in and three products to offer. */
  lemma BasicInsightsFilled(c: Client, fmt: NumberFormat)
    requires c.perfil.ingreso.Some?
    ensures AllFilled(GenerateBasicInsights(c, fmt))
  {
    FixedTextsFilled();
  }

  /** The exception that escapes: `undefined.toFixed` is a `TypeError`. */
  const TypeError := "TypeError"

  /**
   * `generateClientInsights`: the LLM's parsed JSON when the call succeeds, the rule-based
   * analysis when it fails in any way. A missing income throws while the prompt is being
   * built, before the `try`, so it escapes to the caller.
   */
  function GenerateClientInsights(c: Client, llm: LlmReply, fmt: NumberFormat): (r: Result<ClientInsights, string>)
    ensures r.Failure? <==> c.perfil.ingreso.None?
    ensures r.Failure? ==> r.error == TypeError
    ensures r.Success? && !(llm.Content? && llm.parsed.Some?) ==> r.value == GenerateBasicInsights(c, fmt)
    ensures r.Success? && llm.Content? && llm.parsed.Some? ==> r.value == llm.parsed.value
  {
    if c.perfil.ingreso.None? then Failure(TypeError)
    else
      match llm
      case Content(Some(ins)) => Success(ins)
      case _ => Success(GenerateBasicInsights(c, fmt))
  }

  /** Whenever the LLM path fails, the answer is a fully filled-in analysis. */
  lemma FallbackIsFilled(c: Client, llm: LlmReply, fmt: NumberFormat)
    requires c.perfil.ingreso.Some?
    requires !(llm.Content? && llm.parsed.Some?)
    ensures GenerateClientInsights(c, llm, fmt).Success?
    ensures AllFilled(GenerateClientInsights(c, llm, fmt).value)
  {
    BasicInsightsFilled(c, fmt);
  }
}
