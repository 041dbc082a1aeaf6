/**
 * The ARIA chat pipeline (server/aria-chat.ts): an LLM classifies the question into
 * one of six query kinds, the matching query runs over the `clients` table, and a
 * second LLM call turns the data into the answer. The table is a sequence of rows
 * and each query is the filter, count, sum or grouping its SQL computes.
 */
module AriaChat {
  import opened Wrappers
  import opened Seqs
  import opened Strings

  /** One of a row's four deposit (captaciones) or four loan (colocaciones) balances. */
  datatype Passive = Passive(ce: Option<real>, cdi: Option<real>, planMetas: Option<real>, td: Option<real>)
  datatype Active = Active(prendario: Option<real>, hipotecario: Option<real>, otros: Option<real>, tc: Option<real>)

  /** Columns the queries read and do not interpret; they are echoed unchanged. */
  datatype RowDetails = RowDetails(
    estadoCivil: Option<string>, hijos: Option<int>, nivelEducativo: Option<string>,
    canton: Option<string>, distrito: Option<string>, nivelValor: Option<string>, segmentoBanca: Option<string>)

  /** A row of the `clients` table; `None` is SQL `NULL`. */
  datatype ClientRow = ClientRow(
    clienteId: string,
    sexo: Option<string>,
    edad: Option<int>,
    profesion: Option<string>,
    generacion: Option<string>,
    sectorPublicoFlag: Option<int>,
    antiguedadLaboral: Option<real>,
    ingreso: Option<real>,
    nse: Option<int>,
    provincia: Option<string>,
    resumen: Option<string>,
    details: RowDetails,
    passive: Passive,
    active: Active)

  // ----- SQL helpers -----

  /** `coalesce(x, 0)`, and equally JavaScript's `x || 0` on a number column. */
  function Coalesce(x: Option<real>): real
  {
    x.GetOr(0.0)
  }

  function IntToReal(x: Option<int>): Option<real>
  {
    match x case Some(v) => Some(v as real) case None => None
  }

  /** The non-`NULL` values of a column. */
  function NonNull(xs: seq<Option<real>>): (vs: seq<real>)
    ensures |vs| <= |xs|
  {
    if xs == [] then []
    else (if xs[0].Some? then [xs[0].value] else []) + NonNull(xs[1..])
  }

  /** SQL `avg`: `NULL` over no value, otherwise the mean of the non-`NULL` values. */
  function Avg(xs: seq<Option<real>>): (r: Option<real>)
    ensures r.None? <==> NonNull(xs) == []
  {
    var vs := NonNull(xs);
    if vs == [] then None else Some(SumReal(vs) / |vs| as real)
  }

  /** `f` applied to every row. */
  function Column(rows: seq<ClientRow>, f: ClientRow -> Option<real>): (xs: seq<Option<real>>)
    ensures |xs| == |rows|
    ensures forall k :: 0 <= k < |rows| ==> xs[k] == f(rows[k])
  {
    if rows == [] then [] else [f(rows[0])] + Column(rows[1..], f)
  }

  /** `sum(f)` over all rows as a number. */
  function SumOf(rows: seq<ClientRow>, f: ClientRow -> real): real
  {
    if rows == [] then 0.0 else f(rows[0]) + SumOf(rows[1..], f)
  }

  /** SQL `sum`: `NULL` over an empty table. */
  function SqlSum(rows: seq<ClientRow>, f: ClientRow -> real): (r: Option<real>)
    ensures r.None? <==> rows == []
  {
    if rows == [] then None else Some(SumOf(rows, f))
  }

  /** Summing a sum of columns is summing the columns. */
  lemma {:induction false} SumOfAdd(rows: seq<ClientRow>, f: ClientRow -> real, g: ClientRow -> real, fg: ClientRow -> real)
    requires forall k :: 0 <= k < |rows| ==> fg(rows[k]) == f(rows[k]) + g(rows[k])
    ensures SumOf(rows, fg) == SumOf(rows, f) + SumOf(rows, g)
  {
    if rows != [] {
      SumOfAdd(rows[1..], f, g, fg);
    }
  }

  // ----- general_stats -----

  function EdadOf(r: ClientRow): Option<real> { IntToReal(r.edad) }
  function IngresoOf(r: ClientRow): Option<real> { r.ingreso }
  predicate IsMasculino(r: ClientRow) { r.sexo == Some("MASCULINO") }
  predicate IsFemenino(r: ClientRow) { r.sexo == Some("FEMENINO") }
  predicate HasGeneracion(r: ClientRow) { r.generacion.Some? }
  predicate HasNse(r: ClientRow) { r.nse.Some? }
  predicate AnyRow(r: ClientRow) { true }

  datatype GeneralStats = GeneralStats(
    total: nat, edadPromedio: Option<real>, ingresoPromedio: Option<real>,
    sectorPublico: nat, sectorPrivado: nat, hombres: nat, mujeres: nat)

  predicate FlagIsOne(r: ClientRow) { r.sectorPublicoFlag == Some(1) }
  predicate FlagIsZeroOrNull(r: ClientRow) { r.sectorPublicoFlag == Some(0) || r.sectorPublicoFlag.None? }
  predicate FlagIsOther(r: ClientRow) { r.sectorPublicoFlag.Some? && r.sectorPublicoFlag.value != 0 && r.sectorPublicoFlag.value != 1 }

  /**
   * `getGeneralStats`: counts and averages over the whole table. Public is flag 1 and
   * private is flag 0 or `NULL`, so a row with any other flag is counted in neither.
   */
  function GetGeneralStats(rows: seq<ClientRow>): (st: GeneralStats)
    ensures st.total == |rows|
    ensures st.edadPromedio.None? <==> NonNull(Column(rows, EdadOf)) == []
  {
    GeneralStats(
      |rows|,
      Avg(Column(rows, EdadOf)),
      Avg(Column(rows, IngresoOf)),
      Count(rows, FlagIsOne),
      Count(rows, FlagIsZeroOrNull),
      Count(rows, IsMasculino),
      Count(rows, IsFemenino))
  }

  /** Men and women are counted separately, so together they are at most the total. */
  lemma GeneralStatsSexoBound(rows: seq<ClientRow>)
    ensures GetGeneralStats(rows).hombres + GetGeneralStats(rows).mujeres <= GetGeneralStats(rows).total
  {
    CountDisjoint(rows, IsMasculino, IsFemenino);
  }

  /** Public, private and "other flag" rows partition the table. */
  lemma GeneralStatsSectorPartition(rows: seq<ClientRow>)
    ensures GetGeneralStats(rows).sectorPublico + GetGeneralStats(rows).sectorPrivado
      + Count(rows, FlagIsOther) == |rows|
  {
    CountSplit3(rows, FlagIsOne, FlagIsZeroOrNull, FlagIsOther);
  }

  // ----- client_search -----

  /** The search parameters the classifier may extract; `None` is `undefined`. */
  datatype SearchParams = SearchParams(
    sectorPublico: Option<real>, ingresoMin: Option<real>, ingresoMax: Option<real>,
    edadMin: Option<real>, edadMax: Option<real>,
    sexo: Option<string>, profesion: Option<string>, provincia: Option<string>, generacion: Option<string>,
    limit: Option<int>)

  /** One pushed Drizzle condition. */
  datatype Condition =
    | SectorEq(flag: real)
    | IngresoGte(ingresoMin: real)
    | IngresoLte(ingresoMax: real)
    | EdadGte(edadMin: real)
    | EdadLte(edadMax: real)
    | SexoEq(sexo: string)
    | ProfesionLike(fragment: string)
    | ProvinciaEq(provincia: string)
    | GeneracionEq(generacion: string)

  /** PostgreSQL's default escape character in `LIKE` patterns. */
  const LikeEscape := '\\'

  /**
   * `s LIKE pattern`: `%` matches any run of characters, `_` any one character, and
   * the escape character makes the next pattern character literal. PostgreSQL rejects
   * a pattern that ends in a lone escape; the patterns built here always end in an
   * unescaped or escaped `%`, so that case never arises, and it is read as no match.
   */
  predicate Like(s: string, pattern: string)
    decreases |s| + |pattern|
  {
    if pattern == [] then s == []
    else if pattern[0] == '%' then Like(s, pattern[1..]) || (s != [] && Like(s[1..], pattern))
    else if pattern[0] == '_' then s != [] && Like(s[1..], pattern[1..])
    else if pattern[0] == LikeEscape then
      |pattern| >= 2 && s != [] && s[0] == pattern[1] && Like(s[1..], pattern[2..])
    else s != [] && s[0] == pattern[0] && Like(s[1..], pattern[1..])
  }

  /** A fragment with none of the three pattern characters, which `LIKE` reads literally. */
  predicate PlainFragment(t: string)
  {
    forall k :: 0 <= k < |t| ==> t[k] != '%' && t[k] != '_' && t[k] != LikeEscape
  }

  /** A trailing `%` matches the rest of the string, whatever it is. */
  lemma {:induction false} LikeAnyRest(s: string)
    ensures Like(s, "%")
  {
    if s != [] {
      LikeAnyRest(s[1..]);
    }
  }

  /** A plain fragment followed by `%` matches exactly the strings it starts. */
  lemma {:induction false} LikePlainPrefix(s: string, t: string)
    requires PlainFragment(t)
    ensures Like(s, t + "%") <==> |t| <= |s| && s[..|t|] == t
  {
    if t == [] {
      assert t + "%" == "%";
      LikeAnyRest(s);
    } else {
      assert (t + "%")[1..] == t[1..] + "%";
      assert PlainFragment(t[1..]) by {
        forall k | 0 <= k < |t[1..]| ensures t[1..][k] != '%' && t[1..][k] != '_' && t[1..][k] != LikeEscape {
          assert t[1..][k] == t[k + 1];
        }
      }
      if s != [] {
        LikePlainPrefix(s[1..], t[1..]);
        if |t| <= |s| && s[..|t|] == t {
          assert s[1..][..|t| - 1] == s[..|t|][1..];
        }
        if s[0] == t[0] && |t| - 1 <= |s| - 1 && s[1..][..|t| - 1] == t[1..] {
          assert s[..|t|] == [s[0]] + s[1..][..|t| - 1];
        }
      }
    }
  }

  /** A leading `%` matches exactly when the rest of the pattern matches some suffix. */
  lemma {:induction false} LikeLeadingPercent(s: string, rest: string)
    ensures Like(s, "%" + rest) <==> exists i :: 0 <= i <= |s| && Like(s[i..], rest)
  {
    assert ("%" + rest)[1..] == rest;
    if s == [] {
      assert s[0..] == s;
    } else {
      LikeLeadingPercent(s[1..], rest);
      if exists i :: 0 <= i <= |s| && Like(s[i..], rest) {
        var i :| 0 <= i <= |s| && Like(s[i..], rest);
        if i > 0 {
          assert s[1..][i - 1..] == s[i..];
        } else {
          assert s[0..] == s;
        }
      }
      if exists j :: 0 <= j <= |s[1..]| && Like(s[1..][j..], rest) {
        var j :| 0 <= j <= |s[1..]| && Like(s[1..][j..], rest);
        assert s[1..][j..] == s[j + 1..];
      }
      assert s[0..] == s;
    }
  }

  /**
   * For a fragment free of pattern characters, `LIKE '%fragment%'` is `includes`: the
   * row's text contains the fragment somewhere.
   */
  lemma LikePlainIsContains(s: string, t: string)
    requires PlainFragment(t)
    ensures Like(s, "%" + t + "%") <==> Contains(s, t)
  {
    assert "%" + t + "%" == "%" + (t + "%");
    LikeLeadingPercent(s, t + "%");
    forall i | 0 <= i <= |s|
      ensures Like(s[i..], t + "%") <==> OccursAt(s, t, i)
    {
      LikePlainPrefix(s[i..], t);
      if i + |t| <= |s| {
        assert s[i..][..|t|] == s[i..i + |t|];
      }
    }
  }

  /**
   * The fragment is a pattern, not a literal: `_` in a requested profession matches any
   * character, so 'a_c' finds a row whose profession is 'abc', which does not contain it.
   */
  lemma ProfesionWildcard()
    ensures Like("abc", "%" + "a_c" + "%")
    ensures !Contains("abc", "a_c")
  {
    assert "%" + "a_c" + "%" == "%a_c%";
    assert Like("", "");
    assert Like("", "%");
    assert Like("abc", "a_c%");
    assert !OccursAt("abc", "a_c", 0);
  }

  /** A condition in SQL: a comparison with a `NULL` column is not true. */
  predicate Satisfies(r: ClientRow, c: Condition)
  {
    match c
    case SectorEq(v) => r.sectorPublicoFlag.Some? && r.sectorPublicoFlag.value as real == v
    case IngresoGte(v) => r.ingreso.Some? && r.ingreso.value >= v
    case IngresoLte(v) => r.ingreso.Some? && r.ingreso.value <= v
    case EdadGte(v) => r.edad.Some? && r.edad.value as real >= v
    case EdadLte(v) => r.edad.Some? && r.edad.value as real <= v
    case SexoEq(s) => r.sexo == Some(s)
    case ProfesionLike(s) => r.profesion.Some? && Like(r.profesion.value, "%" + s + "%")
    case ProvinciaEq(s) => r.provincia == Some(s)
    case GeneracionEq(s) => r.generacion == Some(s)
  }

  /** `and(...conditions)`, or no `where` at all for an empty list. */
  predicate SatisfiesAll(r: ClientRow, cs: seq<Condition>)
  {
    cs == [] || (Satisfies(r, cs[0]) && SatisfiesAll(r, cs[1..]))
  }

  /** A string parameter is used when truthy. */
  predicate Given(s: Option<string>)
  {
    s.Some? && s.value != ""
  }

  /**
   * The reference meaning of a search: numeric parameters constrain whenever they are
   * defined, string parameters whenever they are non-empty; all constraints hold together.
   */
  predicate Matches(r: ClientRow, p: SearchParams)
  {
    (p.sectorPublico.Some? ==> Satisfies(r, SectorEq(p.sectorPublico.value)))
    && (p.ingresoMin.Some? ==> Satisfies(r, IngresoGte(p.ingresoMin.value)))
    && (p.ingresoMax.Some? ==> Satisfies(r, IngresoLte(p.ingresoMax.value)))
    && (p.edadMin.Some? ==> Satisfies(r, EdadGte(p.edadMin.value)))
    && (p.edadMax.Some? ==> Satisfies(r, EdadLte(p.edadMax.value)))
    && (Given(p.sexo) ==> Satisfies(r, SexoEq(p.sexo.value)))
    && (Given(p.profesion) ==> Satisfies(r, ProfesionLike(p.profesion.value)))
    && (Given(p.provincia) ==> Satisfies(r, ProvinciaEq(p.provincia.value)))
    && (Given(p.generacion) ==> Satisfies(r, GeneracionEq(p.generacion.value)))
  }

  function Indicator(b: bool): nat { if b then 1 else 0 }

  /** How many search parameters are supplied. */
  function Supplied(p: SearchParams): nat
  {
    Indicator(p.sectorPublico.Some?) + Indicator(p.ingresoMin.Some?) + Indicator(p.ingresoMax.Some?)
    + Indicator(p.edadMin.Some?) + Indicator(p.edadMax.Some?)
    + Indicator(Given(p.sexo)) + Indicator(Given(p.profesion))
    + Indicator(Given(p.provincia)) + Indicator(Given(p.generacion))
  }

  /** The condition `c` when its parameter is supplied, nothing otherwise. */
  function PushedIf(supplied: bool, c: Condition): (cs: seq<Condition>)
    ensures |cs| == Indicator(supplied)
  {
    if supplied then [c] else []
  }

  /** A row satisfies what was pushed exactly when it satisfies `c` or `c` was not pushed. */
  lemma PushedIfMeaning(r: ClientRow, supplied: bool, c: Condition)
    ensures SatisfiesAll(r, PushedIf(supplied, c)) <==> (supplied ==> Satisfies(r, c))
  {
  }

  /** The conditions a search pushes, in the handler's order. */
  function ConditionsOf(p: SearchParams): seq<Condition>
  {
    PushedIf(p.sectorPublico.Some?, SectorEq(p.sectorPublico.GetOr(0.0)))
    + PushedIf(p.ingresoMin.Some?, IngresoGte(p.ingresoMin.GetOr(0.0)))
    + PushedIf(p.ingresoMax.Some?, IngresoLte(p.ingresoMax.GetOr(0.0)))
    + PushedIf(p.edadMin.Some?, EdadGte(p.edadMin.GetOr(0.0)))
    + PushedIf(p.edadMax.Some?, EdadLte(p.edadMax.GetOr(0.0)))
    + PushedIf(Given(p.sexo), SexoEq(p.sexo.GetOr("")))
    + PushedIf(Given(p.profesion), ProfesionLike(p.profesion.GetOr("")))
    + PushedIf(Given(p.provincia), ProvinciaEq(p.provincia.GetOr("")))
    + PushedIf(Given(p.generacion), GeneracionEq(p.generacion.GetOr("")))
  }

  /** A row satisfies two lists of conditions in a row exactly when it satisfies both. */
  lemma {:induction false} SatisfiesAllConcat(r: ClientRow, a: seq<Condition>, b: seq<Condition>)
    ensures SatisfiesAll(r, a + b) <==> SatisfiesAll(r, a) && SatisfiesAll(r, b)
  {
    if a != [] {
      assert (a + b)[0] == a[0] && (a + b)[1..] == a[1..] + b;
      SatisfiesAllConcat(r, a[1..], b);
    } else {
      assert a + b == b;
    }
  }

  /** Exactly one condition per supplied parameter. */
  lemma ConditionsCount(p: SearchParams)
    ensures |ConditionsOf(p)| == Supplied(p)
  {
  }

  /** A row satisfies every pushed condition exactly when it matches the search. */
  lemma ConditionsMeaning(r: ClientRow, p: SearchParams)
    ensures SatisfiesAll(r, ConditionsOf(p)) <==> Matches(r, p)
  {
    var c1 := PushedIf(p.sectorPublico.Some?, SectorEq(p.sectorPublico.GetOr(0.0)));
    var c2 := PushedIf(p.ingresoMin.Some?, IngresoGte(p.ingresoMin.GetOr(0.0)));
    var c3 := PushedIf(p.ingresoMax.Some?, IngresoLte(p.ingresoMax.GetOr(0.0)));
    var c4 := PushedIf(p.edadMin.Some?, EdadGte(p.edadMin.GetOr(0.0)));
    var c5 := PushedIf(p.edadMax.Some?, EdadLte(p.edadMax.GetOr(0.0)));
    var c6 := PushedIf(Given(p.sexo), SexoEq(p.sexo.GetOr("")));
    var c7 := PushedIf(Given(p.profesion), ProfesionLike(p.profesion.GetOr("")));
    var c8 := PushedIf(Given(p.provincia), ProvinciaEq(p.provincia.GetOr("")));
    var c9 := PushedIf(Given(p.generacion), GeneracionEq(p.generacion.GetOr("")));
    PushedIfMeaning(r, p.sectorPublico.Some?, SectorEq(p.sectorPublico.GetOr(0.0)));
    PushedIfMeaning(r, p.ingresoMin.Some?, IngresoGte(p.ingresoMin.GetOr(0.0)));
    PushedIfMeaning(r, p.ingresoMax.Some?, IngresoLte(p.ingresoMax.GetOr(0.0)));
    PushedIfMeaning(r, p.edadMin.Some?, EdadGte(p.edadMin.GetOr(0.0)));
    PushedIfMeaning(r, p.edadMax.Some?, EdadLte(p.edadMax.GetOr(0.0)));
    PushedIfMeaning(r, Given(p.sexo), SexoEq(p.sexo.GetOr("")));
    PushedIfMeaning(r, Given(p.profesion), ProfesionLike(p.profesion.GetOr("")));
    PushedIfMeaning(r, Given(p.provincia), ProvinciaEq(p.provincia.GetOr("")));
    PushedIfMeaning(r, Given(p.generacion), GeneracionEq(p.generacion.GetOr("")));
    SatisfiesAllConcat(r, c1, c2);
    SatisfiesAllConcat(r, c1 + c2, c3);
    SatisfiesAllConcat(r, c1 + c2 + c3, c4);
    SatisfiesAllConcat(r, c1 + c2 + c3 + c4, c5);
    SatisfiesAllConcat(r, c1 + c2 + c3 + c4 + c5, c6);
    SatisfiesAllConcat(r, c1 + c2 + c3 + c4 + c5 + c6, c7);
    SatisfiesAllConcat(r, c1 + c2 + c3 + c4 + c5 + c6 + c7, c8);
    SatisfiesAllConcat(r, c1 + c2 + c3 + c4 + c5 + c6 + c7 + c8, c9);
  }

  /** `if (supplied) conditions.push(c)`. */
  method PushIf(conditions: seq<Condition>, supplied: bool, c: Condition) returns (cs: seq<Condition>)
    ensures cs == conditions + PushedIf(supplied, c)
  {
    cs := conditions;
    if supplied {
      cs := conditions + [c];
    }
  }

  /**
   * The `conditions` array of `searchClients`: exactly one condition per supplied
   * parameter, and a row satisfies them all exactly when it matches the search.
   */
  method BuildConditions(p: SearchParams) returns (conditions: seq<Condition>)
    ensures conditions == ConditionsOf(p)
    ensures |conditions| == Supplied(p)
    ensures forall r :: SatisfiesAll(r, conditions) <==> Matches(r, p)
  {
    conditions := [];
    conditions := PushIf(conditions, p.sectorPublico.Some?, SectorEq(p.sectorPublico.GetOr(0.0)));
    assert conditions == PushedIf(p.sectorPublico.Some?, SectorEq(p.sectorPublico.GetOr(0.0)));
    conditions := PushIf(conditions, p.ingresoMin.Some?, IngresoGte(p.ingresoMin.GetOr(0.0)));
    conditions := PushIf(conditions, p.ingresoMax.Some?, IngresoLte(p.ingresoMax.GetOr(0.0)));
    conditions := PushIf(conditions, p.edadMin.Some?, EdadGte(p.edadMin.GetOr(0.0)));
    conditions := PushIf(conditions, p.edadMax.Some?, EdadLte(p.edadMax.GetOr(0.0)));
    conditions := PushIf(conditions, Given(p.sexo), SexoEq(p.sexo.GetOr("")));
    conditions := PushIf(conditions, Given(p.profesion), ProfesionLike(p.profesion.GetOr("")));
    conditions := PushIf(conditions, Given(p.provincia), ProvinciaEq(p.provincia.GetOr("")));
    conditions := PushIf(conditions, Given(p.generacion), GeneracionEq(p.generacion.GetOr("")));
    assert conditions == ConditionsOf(p);
    ConditionsCount(p);
    forall r
      ensures SatisfiesAll(r, conditions) <==> Matches(r, p)
    {
      ConditionsMeaning(r, p);
    }
  }

  /** A search result row: the client as the answer prompt sees it. */
  datatype ClientSummary = ClientSummary(
    clienteId: string, nombreFicticio: string, edad: Option<int>, sexo: Option<string>,
    ingreso: Option<real>, profesion: Option<string>, sector: string,
    provincia: Option<string>, resumen: Option<string>)

  datatype SearchResult = SearchResult(cantidad: nat, clientes: seq<ClientSummary>)

  /** The sector label: 'Público' exactly for flag 1. */
  function SectorLabel(flag: Option<int>): (s: string)
    ensures s == "Público" <==> flag == Some(1)
    ensures s == "Privado" <==> flag != Some(1)
  {
    if flag == Some(1) then "Público" else "Privado"
  }

  function Summarize(r: ClientRow): (s: ClientSummary)
    ensures s.clienteId == r.clienteId && s.sector == SectorLabel(r.sectorPublicoFlag)
  {
    ClientSummary(r.clienteId, "Cliente " + r.clienteId, r.edad, r.sexo, r.ingreso, r.profesion,
      SectorLabel(r.sectorPublicoFlag), r.provincia, r.resumen)
  }

  function SummarizeAll(rows: seq<ClientRow>): (ss: seq<ClientSummary>)
    ensures |ss| == |rows|
    ensures forall k :: 0 <= k < |rows| ==> ss[k] == Summarize(rows[k])
  {
    if rows == [] then [] else [Summarize(rows[0])] + SummarizeAll(rows[1..])
  }

  /** `params.limit || 10`. */
  function SearchLimit(p: SearchParams): int
  {
    if p.limit.None? || p.limit.value == 0 then 10 else p.limit.value
  }

  /** PostgreSQL rejects a negative `LIMIT`. */
  const NegativeLimitError := "LIMIT must not be negative"

  /**
   * What `searchClients` resolves to: the first `limit` rows that match, summarised, or
   * PostgreSQL's error for a negative limit.
   */
  function SearchOutcome(p: SearchParams, rows: seq<ClientRow>): Result<SearchResult, string>
  {
    if SearchLimit(p) < 0 then Failure(NegativeLimitError)
    else
      var selected := Take(Filter(rows, x => Matches(x, p)), SearchLimit(p));
      Success(SearchResult(|selected|, SummarizeAll(selected)))
  }

  /**
   * `searchClients`: at most `limit` matching rows (10 by default), `cantidad` equal to
   * the number returned, and each sector label 'Público' exactly for flag 1.
   */
  method SearchClients(p: SearchParams, rows: seq<ClientRow>) returns (r: Result<SearchResult, string>)
    ensures SearchLimit(p) < 0 <==> r.Failure?
    ensures r.Success? ==> |r.value.clientes| <= SearchLimit(p)
    ensures r.Success? ==> r.value.cantidad == |r.value.clientes|
    ensures r.Success? ==> r.value.clientes == SummarizeAll(Take(Filter(rows, x => Matches(x, p)), SearchLimit(p)))
    ensures r == SearchOutcome(p, rows)
  {
    var conditions := BuildConditions(p);
    var limit := SearchLimit(p);
    if limit < 0 {
      return Failure(NegativeLimitError);
    }
    FilterExt(rows, x => SatisfiesAll(x, conditions), x => Matches(x, p));
    var results := Take(Filter(rows, x => SatisfiesAll(x, conditions)), limit);
    r := Success(SearchResult(|results|, SummarizeAll(results)));
  }

  // ----- segmentation -----

  /** The distinct non-`NULL` keys of the rows, in order of first appearance: the groups. */
  function DistinctKeys<K(==)>(rows: seq<ClientRow>, key: ClientRow -> Option<K>): (ks: seq<K>)
    ensures forall i, j :: 0 <= i < j < |ks| ==> ks[i] != ks[j]
    ensures forall k :: 0 <= k < |rows| && key(rows[k]).Some? ==> key(rows[k]).value in ks
    ensures forall i :: 0 <= i < |ks| ==> exists k :: 0 <= k < |rows| && key(rows[k]) == Some(ks[i])
  {
    if rows == [] then []
    else
      var init := DistinctKeys(rows[..|rows| - 1], key);
      var last := key(rows[|rows| - 1]);
      assert forall k :: 0 <= k < |rows| - 1 ==> rows[k] == rows[..|rows| - 1][k];
      assert forall i :: 0 <= i < |init| ==> exists k :: 0 <= k < |rows| && key(rows[k]) == Some(init[i]);
      if last.Some? && last.value !in init then init + [last.value] else init
  }

  /** `count(*)` of one group. */
  function GroupCount<K(==)>(rows: seq<ClientRow>, key: ClientRow -> Option<K>, k: K): nat
  {
    Count(rows, r => key(r) == Some(k))
  }

  function SumCounts<K(==)>(rows: seq<ClientRow>, key: ClientRow -> Option<K>, ks: seq<K>): nat
  {
    if ks == [] then 0 else GroupCount(rows, key, ks[0]) + SumCounts(rows, key, ks[1..])
  }

  lemma {:induction false} SumCountsAppend<K>(rows: seq<ClientRow>, key: ClientRow -> Option<K>, ks: seq<K>, k: K)
    ensures SumCounts(rows, key, ks + [k]) == SumCounts(rows, key, ks) + GroupCount(rows, key, k)
  {
    if ks != [] {
      assert (ks + [k])[1..] == ks[1..] + [k];
      SumCountsAppend(rows, key, ks[1..], k);
    }
  }

  /** One more row adds one to the group of its key, if that group is listed, and nothing else. */
  lemma {:induction false} SumCountsSnoc<K>(init: seq<ClientRow>, x: ClientRow, key: ClientRow -> Option<K>, ks: seq<K>)
    requires forall i, j :: 0 <= i < j < |ks| ==> ks[i] != ks[j]
    ensures SumCounts(init + [x], key, ks)
      == SumCounts(init, key, ks) + Indicator(key(x).Some? && key(x).value in ks)
  {
    if ks != [] {
      SumCountsSnoc(init, x, key, ks[1..]);
      FilterConcat(init, [x], r => key(r) == Some(ks[0]));
      if key(x).Some? && key(x).value == ks[0] {
        assert key(x).value !in ks[1..];
      }
    }
  }

  /** No row of a group outside the listed keys. */
  lemma {:induction false} GroupCountAbsent<K>(rows: seq<ClientRow>, key: ClientRow -> Option<K>, k: K)
    requires forall i :: 0 <= i < |rows| ==> key(rows[i]) != Some(k)
    ensures GroupCount(rows, key, k) == 0
  {
    if rows != [] {
      GroupCountAbsent(rows[1..], key, k);
    }
  }

  /** The groups cover every row with a non-`NULL` key exactly once. */
  lemma {:induction false} GroupsCover<K>(rows: seq<ClientRow>, key: ClientRow -> Option<K>, hasKey: ClientRow -> bool)
    requires forall k :: 0 <= k < |rows| ==> (hasKey(rows[k]) <==> key(rows[k]).Some?)
    ensures SumCounts(rows, key, DistinctKeys(rows, key)) == Count(rows, hasKey)
  {
    if rows != [] {
      var init, x := rows[..|rows| - 1], rows[|rows| - 1];
      assert rows == init + [x];
      GroupsCover(init, key, hasKey);
      var ks := DistinctKeys(init, key);
      SumCountsSnoc(init, x, key, ks);
      FilterConcat(init, [x], hasKey);
      if key(x).Some? && key(x).value !in ks {
        SumCountsAppend(rows, key, ks, key(x).value);
        GroupCountAbsent(init, key, key(x).value);
        FilterConcat(init, [x], r => key(r) == Some(key(x).value));
      }
    }
  }

  datatype Segment = Segment(segmento: string, cantidad: nat, ingresoPromedio: Option<real>, edadPromedio: Option<real>)

  /** The rows of one group. */
  function GroupRows<K(==)>(rows: seq<ClientRow>, key: ClientRow -> Option<K>, k: K): seq<ClientRow>
  {
    Filter(rows, r => key(r) == Some(k))
  }

  /** `select label, count(*), avg(ingreso), avg(edad) ... group by key`, one segment per group. */
  function Segments<K(==)>(rows: seq<ClientRow>, key: ClientRow -> Option<K>, name: K -> string, ks: seq<K>): (segs: seq<Segment>)
    ensures |segs| == |ks|
    ensures forall i :: 0 <= i < |ks| ==> segs[i].segmento == name(ks[i]) && segs[i].cantidad == GroupCount(rows, key, ks[i])
  {
    if ks == [] then []
    else
      var g := GroupRows(rows, key, ks[0]);
      [Segment(name(ks[0]), |g|, Avg(Column(g, IngresoOf)), Avg(Column(g, EdadOf)))]
      + Segments(rows, key, name, ks[1..])
  }

  function SumCantidad(segs: seq<Segment>): nat
  {
    if segs == [] then 0 else segs[0].cantidad + SumCantidad(segs[1..])
  }

  lemma {:induction false} SumCantidadIsSumCounts<K>(rows: seq<ClientRow>, key: ClientRow -> Option<K>, name: K -> string, ks: seq<K>)
    ensures SumCantidad(Segments(rows, key, name, ks)) == SumCounts(rows, key, ks)
  {
    if ks != [] {
      SumCantidadIsSumCounts(rows, key, name, ks[1..]);
    }
  }

  const SectorPublicoLabel := "Sector Público"
  const SectorPrivadoLabel := "Sector Privado"

  function SectorKey(r: ClientRow): Option<string>
  {
    Some(if r.sectorPublicoFlag == Some(1) then SectorPublicoLabel else SectorPrivadoLabel)
  }

  function GeneracionKey(r: ClientRow): Option<string> { r.generacion }
  function NseKey(r: ClientRow): Option<int> { r.nse }
  function SameLabel(s: string): string { s }
  function NseLabel(n: int): string { "NSE " + IntToString(n) }

  datatype Segmentation = Segmentation(criterio: string, segmentos: Option<seq<Segment>>)

  /** `params.group_by || 'sector'`. */
  function GroupBy(groupBy: Option<string>): string
  {
    if Given(groupBy) then groupBy.value else "sector"
  }

  /**
   * `getSegmentation`: the grouping named by `group_by` (by sector label, by
   * generation, or by NSE, the last two leaving out `NULL` keys). The criterion is
   * echoed; an unknown one leaves `segmentos` undefined.
   */
  function GetSegmentation(groupBy: Option<string>, rows: seq<ClientRow>): (r: Segmentation)
    ensures r.criterio == GroupBy(groupBy)
    ensures r.segmentos.Some? <==> r.criterio in {"sector", "generacion", "nse"}
  {
    var g := GroupBy(groupBy);
    if g == "sector" then Segmentation(g, Some(Segments(rows, SectorKey, SameLabel, DistinctKeys(rows, SectorKey))))
    else if g == "generacion" then Segmentation(g, Some(Segments(rows, GeneracionKey, SameLabel, DistinctKeys(rows, GeneracionKey))))
    else if g == "nse" then Segmentation(g, Some(Segments(rows, NseKey, NseLabel, DistinctKeys(rows, NseKey))))
    else Segmentation(g, None)
  }

  lemma SectorSegmentsCover(rows: seq<ClientRow>)
    ensures SumCantidad(Segments(rows, SectorKey, SameLabel, DistinctKeys(rows, SectorKey))) == |rows|
  {
    SumCantidadIsSumCounts(rows, SectorKey, SameLabel, DistinctKeys(rows, SectorKey));
    GroupsCover(rows, SectorKey, AnyRow);
    FilterAll(rows, AnyRow);
  }

  lemma GeneracionSegmentsCover(rows: seq<ClientRow>)
    ensures SumCantidad(Segments(rows, GeneracionKey, SameLabel, DistinctKeys(rows, GeneracionKey)))
      == Count(rows, HasGeneracion)
  {
    SumCantidadIsSumCounts(rows, GeneracionKey, SameLabel, DistinctKeys(rows, GeneracionKey));
    GroupsCover(rows, GeneracionKey, HasGeneracion);
  }

  lemma NseSegmentsCover(rows: seq<ClientRow>)
    ensures SumCantidad(Segments(rows, NseKey, NseLabel, DistinctKeys(rows, NseKey))) == Count(rows, HasNse)
  {
    SumCantidadIsSumCounts(rows, NseKey, NseLabel, DistinctKeys(rows, NseKey));
    GroupsCover(rows, NseKey, HasNse);
  }

  /**
   * The segments account for every client once: all rows for the sector grouping,
   * the rows with a generation or an NSE for the other two.
   */
  lemma SegmentationCoversRows(groupBy: Option<string>, rows: seq<ClientRow>)
    ensures GroupBy(groupBy) == "sector" ==> SumCantidad(GetSegmentation(groupBy, rows).segmentos.value) == |rows|
    ensures GroupBy(groupBy) == "generacion"
      ==> SumCantidad(GetSegmentation(groupBy, rows).segmentos.value) == Count(rows, HasGeneracion)
    ensures GroupBy(groupBy) == "nse"
      ==> SumCantidad(GetSegmentation(groupBy, rows).segmentos.value) == Count(rows, HasNse)
  {
    SectorSegmentsCover(rows);
    GeneracionSegmentsCover(rows);
    NseSegmentsCover(rows);
  }

  // ----- products -----

  function CeOf(r: ClientRow): real { Coalesce(r.passive.ce) }
  function CdiOf(r: ClientRow): real { Coalesce(r.passive.cdi) }
  function PlanMetasOf(r: ClientRow): real { Coalesce(r.passive.planMetas) }
  function TdOf(r: ClientRow): real { Coalesce(r.passive.td) }
  function PrendarioOf(r: ClientRow): real { Coalesce(r.active.prendario) }
  function HipotecarioOf(r: ClientRow): real { Coalesce(r.active.hipotecario) }
  function OtrosOf(r: ClientRow): real { Coalesce(r.active.otros) }
  function TcOf(r: ClientRow): real { Coalesce(r.active.tc) }

  // Partial sums used to add the four products two at a time.
  function CeCdi(r: ClientRow): real { CeOf(r) + CdiOf(r) }
  function CeCdiPlan(r: ClientRow): real { CeCdi(r) + PlanMetasOf(r) }
  function PrendHip(r: ClientRow): real { PrendarioOf(r) + HipotecarioOf(r) }
  function PrendHipOtros(r: ClientRow): real { PrendHip(r) + OtrosOf(r) }

  function PassiveTotal(r: ClientRow): real
  {
    CeOf(r) + CdiOf(r) + PlanMetasOf(r) + TdOf(r)
  }

  function ActiveTotal(r: ClientRow): real
  {
    PrendarioOf(r) + HipotecarioOf(r) + OtrosOf(r) + TcOf(r)
  }

  datatype Totals = Totals(
    totalCaptaciones: Option<real>, totalColocaciones: Option<real>,
    clientesConCaptaciones: nat, clientesConColocaciones: nat)

  datatype Breakdown = Breakdown(
    ce: Option<real>, cdi: Option<real>, planMetas: Option<real>, td: Option<real>,
    prendario: Option<real>, hipotecario: Option<real>, otros: Option<real>, tc: Option<real>)

  datatype ProductAnalysis = ProductAnalysis(totales: Totals, desglose: Breakdown)

  predicate HoldsCaptaciones(r: ClientRow) { PassiveTotal(r) > 0.0 }
  predicate HoldsColocaciones(r: ClientRow) { ActiveTotal(r) > 0.0 }

  /**
   * `getProductAnalysis`: portfolio totals (`NULL` balances as 0, `NULL` overall for an
   * empty table), the number of clients holding a positive total, and the per-product sums.
   */
  function GetProductAnalysis(rows: seq<ClientRow>): (pa: ProductAnalysis)
    ensures pa.totales.clientesConCaptaciones <= |rows| && pa.totales.clientesConColocaciones <= |rows|
    ensures rows == [] <==> pa.totales.totalCaptaciones.None?
  {
    ProductAnalysis(
      Totals(SqlSum(rows, PassiveTotal), SqlSum(rows, ActiveTotal),
        Count(rows, HoldsCaptaciones), Count(rows, HoldsColocaciones)),
      Breakdown(
        SqlSum(rows, CeOf), SqlSum(rows, CdiOf),
        SqlSum(rows, PlanMetasOf), SqlSum(rows, TdOf),
        SqlSum(rows, PrendarioOf), SqlSum(rows, HipotecarioOf),
        SqlSum(rows, OtrosOf), SqlSum(rows, TcOf)))
  }

  /** The deposit total is the sum of the four deposit products, and likewise for loans. */
  lemma ProductTotalsAreSumsOfBreakdown(rows: seq<ClientRow>)
    requires rows != []
    ensures var pa := GetProductAnalysis(rows);
      pa.totales.totalCaptaciones.value
        == pa.desglose.ce.value + pa.desglose.cdi.value + pa.desglose.planMetas.value + pa.desglose.td.value
    ensures var pa := GetProductAnalysis(rows);
      pa.totales.totalColocaciones.value
        == pa.desglose.prendario.value + pa.desglose.hipotecario.value + pa.desglose.otros.value + pa.desglose.tc.value
  {
    SumOfAdd(rows, CeOf, CdiOf, CeCdi);
    SumOfAdd(rows, CeCdi, PlanMetasOf, CeCdiPlan);
    SumOfAdd(rows, CeCdiPlan, TdOf, PassiveTotal);
    SumOfAdd(rows, PrendarioOf, HipotecarioOf, PrendHip);
    SumOfAdd(rows, PrendHip, OtrosOf, PrendHipOtros);
    SumOfAdd(rows, PrendHipOtros, TcOf, ActiveTotal);
  }

  // ----- specific_client -----

  datatype BalanceGroup = BalanceGroup(balances: seq<Option<real>>, total: real)

  datatype ClientDetail = ClientDetail(
    id: string, edad: Option<int>, sexo: Option<string>, profesion: Option<string>, ingreso: Option<real>,
    antiguedadLaboral: Option<real>, sector: string, generacion: Option<string>, provincia: Option<string>,
    nse: Option<int>, details: RowDetails, captaciones: BalanceGroup, colocaciones: BalanceGroup,
    resumen: Option<string>)

  datatype SpecificClient = NotFound(mensaje: string) | Found(cliente: ClientDetail)

  /** The first row with that id: `where cliente_id = id limit 1`. */
  function FindRow(rows: seq<ClientRow>, id: string): (r: Option<ClientRow>)
    ensures r.None? <==> forall k :: 0 <= k < |rows| ==> rows[k].clienteId != id
    ensures r.Some? ==> r.value in rows && r.value.clienteId == id
  {
    if rows == [] then None
    else if rows[0].clienteId == id then Some(rows[0])
    else FindRow(rows[1..], id)
  }

  function Detail(r: ClientRow): ClientDetail
  {
    ClientDetail(r.clienteId, r.edad, r.sexo, r.profesion, r.ingreso, r.antiguedadLaboral,
      SectorLabel(r.sectorPublicoFlag), r.generacion, r.provincia, r.nse, r.details,
      BalanceGroup([r.passive.ce, r.passive.cdi, r.passive.planMetas, r.passive.td],
        Coalesce(r.passive.ce) + Coalesce(r.passive.cdi) + Coalesce(r.passive.planMetas) + Coalesce(r.passive.td)),
      BalanceGroup([r.active.prendario, r.active.hipotecario, r.active.otros, r.active.tc],
        Coalesce(r.active.prendario) + Coalesce(r.active.hipotecario) + Coalesce(r.active.otros) + Coalesce(r.active.tc)),
      r.resumen)
  }

  /** JavaScript's rendering of an id that may be `undefined` inside a template literal. */
  function IdText(id: Option<string>): string
  {
    if id.Some? then id.value else "undefined"
  }

  /**
   * `getSpecificClient`: a not-found message naming the id, or the client's profile
   * with both balance totals (each `NULL` balance counted as 0).
   */
  function GetSpecificClient(clienteId: Option<string>, rows: seq<ClientRow>): (r: SpecificClient)
    ensures r.NotFound? <==> clienteId.None? || FindRow(rows, clienteId.value).None?
    ensures r.NotFound? ==> r.mensaje == "No se encontró el cliente " + IdText(clienteId)
    ensures r.Found? ==> r.cliente.id == clienteId.value
    ensures r.Found? ==> r.cliente.captaciones.total == PassiveTotal(FindRow(rows, clienteId.value).value)
    ensures r.Found? ==> r.cliente.colocaciones.total == ActiveTotal(FindRow(rows, clienteId.value).value)
  {
    if clienteId.None? then NotFound("No se encontró el cliente " + IdText(clienteId))
    else
      match FindRow(rows, clienteId.value)
      case None => NotFound("No se encontró el cliente " + IdText(clienteId))
      case Some(row) => Found(Detail(row))
  }

  /** Adding up every client's own totals gives the portfolio totals of the product analysis. */
  lemma PerClientTotalsAddUp(rows: seq<ClientRow>)
    requires rows != []
    ensures SumOf(rows, (r: ClientRow) => Detail(r).captaciones.total) == GetProductAnalysis(rows).totales.totalCaptaciones.value
    ensures SumOf(rows, (r: ClientRow) => Detail(r).colocaciones.total) == GetProductAnalysis(rows).totales.totalColocaciones.value
  {
    SumOfExt(rows, (r: ClientRow) => Detail(r).captaciones.total, PassiveTotal);
    SumOfExt(rows, (r: ClientRow) => Detail(r).colocaciones.total, ActiveTotal);
  }

  lemma {:induction false} SumOfExt(rows: seq<ClientRow>, f: ClientRow -> real, g: ClientRow -> real)
    requires forall k :: 0 <= k < |rows| ==> f(rows[k]) == g(rows[k])
    ensures SumOf(rows, f) == SumOf(rows, g)
  {
    if rows != [] {
      SumOfExt(rows[1..], f, g);
    }
  }

  // ----- dispatch -----

  /** The fields of `params` the queries read. */
  datatype Params = Params(search: SearchParams, groupBy: Option<string>, clienteId: Option<string>, metric: Option<string>)

  /** `QueryContext` as parsed from the classifier's JSON; `params` may be missing. */
  datatype QueryContext = QueryContext(kind: Option<string>, params: Option<Params>)

  const EmptyParams := Params(SearchParams(None, None, None, None, None, None, None, None, None, None), None, None, None)

  /** The fallback classification `{ type: 'general_stats', params: {} }`. */
  const GeneralStatsContext := QueryContext(Some("general_stats"), Some(EmptyParams))

  /** How the classifier call ended. */
  datatype ClassifierReply =
    | ClassifierThrew                   // `fetch` rejected, or `data.choices[0]` was missing
    | ClassifierNotOk
    | ClassifierContent(content: Option<string>)  // `None`: `null` or `undefined` content

  /**
   * `analyzeUserQuestion`: a non-ok response, empty content and unparsable content all
   * fall back to general statistics; a failed `fetch` is not caught here.
   */
  function AnalyzeUserQuestion(reply: ClassifierReply, parse: string -> Option<QueryContext>): (r: Result<QueryContext, string>)
    ensures r.Failure? <==> reply.ClassifierThrew?
    ensures reply.ClassifierNotOk? ==> r == Success(GeneralStatsContext)
    ensures reply.ClassifierContent? && (reply.content.None? || reply.content.value == "") ==> r == Success(GeneralStatsContext)
    ensures reply.ClassifierContent? && reply.content.Some? && reply.content.value != ""
      ==> r == Success(parse(reply.content.value).GetOr(GeneralStatsContext))
  {
    match reply
    case ClassifierThrew => Failure("fetch failed")
    case ClassifierNotOk => Success(GeneralStatsContext)
    case ClassifierContent(content) =>
      if content.None? || content.value == "" then Success(GeneralStatsContext)
      else
        match parse(content.value)
        case None => Success(GeneralStatsContext)
        case Some(ctx) => Success(ctx)
  }

  datatype QueryResult =
    | EstadisticasGenerales(stats: GeneralStats)
    | BusquedaClientes(search: SearchResult)
    | Segmentacion(segmentation: Segmentation)
    | AnalisisProductos(products: ProductAnalysis)
    | ClienteEspecifico(client: SpecificClient)

  /** `params.x` on `undefined` params throws a `TypeError`. */
  const MissingParams := "TypeError: params is undefined"

  /** `getMetrics`: product analysis for 'captaciones' and 'colocaciones', general statistics otherwise. */
  function GetMetrics(metric: Option<string>, rows: seq<ClientRow>): (r: QueryResult)
    ensures metric == Some("captaciones") || metric == Some("colocaciones") ==> r == AnalisisProductos(GetProductAnalysis(rows))
    ensures !(metric == Some("captaciones") || metric == Some("colocaciones")) ==> r == EstadisticasGenerales(GetGeneralStats(rows))
  {
    if metric == Some("captaciones") || metric == Some("colocaciones") then AnalisisProductos(GetProductAnalysis(rows))
    else EstadisticasGenerales(GetGeneralStats(rows))
  }

  /** The routine a query kind is sent to. */
  datatype Routine = GeneralStatsRoutine | SearchRoutine | SegmentationRoutine | ProductsRoutine | SpecificRoutine | MetricsRoutine

  /** The `switch` of `executeQuery`: six tags to their routines, anything else to general statistics. */
  function RoutineFor(kind: Option<string>): (rt: Routine)
    ensures kind == Some("client_search") <==> rt == SearchRoutine
    ensures kind == Some("segmentation") <==> rt == SegmentationRoutine
    ensures kind == Some("products") <==> rt == ProductsRoutine
    ensures kind == Some("specific_client") <==> rt == SpecificRoutine
    ensures kind == Some("metrics") <==> rt == MetricsRoutine
    ensures rt == GeneralStatsRoutine <==> kind !in {Some("client_search"), Some("segmentation"), Some("products"), Some("specific_client"), Some("metrics")}
  {
    if kind == Some("client_search") then SearchRoutine
    else if kind == Some("segmentation") then SegmentationRoutine
    else if kind == Some("products") then ProductsRoutine
    else if kind == Some("specific_client") then SpecificRoutine
    else if kind == Some("metrics") then MetricsRoutine
    else GeneralStatsRoutine
  }

  /**
   * What `executeQuery` resolves to over the table (`None` when the database call
   * fails): the routine of the query kind, or the exception it throws.
   */
  function QueryOutcome(ctx: QueryContext, db: Option<seq<ClientRow>>): Result<QueryResult, string>
  {
    if db.None? then Failure(DatabaseError)
    else
      var rows := db.value;
      match RoutineFor(ctx.kind)
      case GeneralStatsRoutine => Success(EstadisticasGenerales(GetGeneralStats(rows)))
      case ProductsRoutine => Success(AnalisisProductos(GetProductAnalysis(rows)))
      case SearchRoutine =>
        if ctx.params.None? then Failure(MissingParams)
        else
          var s := SearchOutcome(ctx.params.value.search, rows);
          if s.Failure? then Failure(s.error) else Success(BusquedaClientes(s.value))
      case SegmentationRoutine =>
        if ctx.params.None? then Failure(MissingParams)
        else Success(Segmentacion(GetSegmentation(ctx.params.value.groupBy, rows)))
      case SpecificRoutine =>
        if ctx.params.None? then Failure(MissingParams)
        else Success(ClienteEspecifico(GetSpecificClient(ctx.params.value.clienteId, rows)))
      case MetricsRoutine =>
        if ctx.params.None? then Failure(MissingParams)
        else Success(GetMetrics(ctx.params.value.metric, rows))
  }

  /** The exception of a failed database call. */
  const DatabaseError := "database error"

  /**
   * `executeQuery` over the table (`None` when the database call fails). Routines that
   * read `params` throw when it is missing; products and general statistics do not read it.
   */
  method ExecuteQuery(ctx: QueryContext, db: Option<seq<ClientRow>>) returns (r: Result<QueryResult, string>)
    ensures db.None? ==> r.Failure?
    ensures db.Some? && RoutineFor(ctx.kind) == GeneralStatsRoutine ==> r == Success(EstadisticasGenerales(GetGeneralStats(db.value)))
    ensures db.Some? && RoutineFor(ctx.kind) == ProductsRoutine ==> r == Success(AnalisisProductos(GetProductAnalysis(db.value)))
    ensures db.Some? && ctx.params.Some? && RoutineFor(ctx.kind) == SegmentationRoutine
      ==> r == Success(Segmentacion(GetSegmentation(ctx.params.value.groupBy, db.value)))
    ensures db.Some? && ctx.params.Some? && RoutineFor(ctx.kind) == SpecificRoutine
      ==> r == Success(ClienteEspecifico(GetSpecificClient(ctx.params.value.clienteId, db.value)))
    ensures db.Some? && ctx.params.Some? && RoutineFor(ctx.kind) == MetricsRoutine
      ==> r == Success(GetMetrics(ctx.params.value.metric, db.value))
    ensures db.Some? && ctx.params.Some? && RoutineFor(ctx.kind) == SearchRoutine
      ==> (r.Failure? <==> SearchLimit(ctx.params.value.search) < 0)
    ensures db.Some? && ctx.params.Some? && RoutineFor(ctx.kind) == SearchRoutine
      && SearchLimit(ctx.params.value.search) >= 0
      ==> r == Success(BusquedaClientes(SearchResult(
        |Take(Filter(db.value, x => Matches(x, ctx.params.value.search)), SearchLimit(ctx.params.value.search))|,
        SummarizeAll(Take(Filter(db.value, x => Matches(x, ctx.params.value.search)), SearchLimit(ctx.params.value.search))))))
    ensures r == QueryOutcome(ctx, db)
    ensures db.Some? && ctx.params.None? && RoutineFor(ctx.kind) in {SearchRoutine, SegmentationRoutine, SpecificRoutine, MetricsRoutine}
      ==> r == Failure(MissingParams)
    ensures ctx.params.None? && RoutineFor(ctx.kind) in {SearchRoutine, SegmentationRoutine, SpecificRoutine, MetricsRoutine}
      ==> r.Failure?
  {
    if db.None? {
      return Failure(DatabaseError);
    }
    var rows := db.value;
    match RoutineFor(ctx.kind) {
      case GeneralStatsRoutine =>
        r := Success(EstadisticasGenerales(GetGeneralStats(rows)));
      case ProductsRoutine =>
        r := Success(AnalisisProductos(GetProductAnalysis(rows)));
      case SearchRoutine =>
        if ctx.params.None? {
          return Failure(MissingParams);
        }
        var s := SearchClients(ctx.params.value.search, rows);
        match s {
          case Success(v) => r := Success(BusquedaClientes(v));
          case Failure(e) => r := Failure(e);
        }
      case SegmentationRoutine =>
        if ctx.params.None? {
          return Failure(MissingParams);
        }
        r := Success(Segmentacion(GetSegmentation(ctx.params.value.groupBy, rows)));
      case SpecificRoutine =>
        if ctx.params.None? {
          return Failure(MissingParams);
        }
        r := Success(ClienteEspecifico(GetSpecificClient(ctx.params.value.clienteId, rows)));
      case MetricsRoutine =>
        if ctx.params.None? {
          return Failure(MissingParams);
        }
        r := Success(GetMetrics(ctx.params.value.metric, rows));
    }
  }

  /** How the answer call ended. */
  datatype AnswerReply = AnswerThrew | AnswerNotOk(status: int) | AnswerContent(content: Option<string>)

  const NoAnswerText := "Lo siento, no pude generar una respuesta en este momento."
  const ErrorText := "Lo siento, ocurrió un error al procesar tu pregunta. Por favor intenta nuevamente."

  /** The reply text: the answer's content when it is non-empty, the fixed texts otherwise. */
  function AnswerText(reply: AnswerReply): (text: string)
    ensures text != ""
    ensures text == ErrorText <==> !reply.AnswerContent? || (reply.content.Some? && reply.content.value == ErrorText)
    ensures reply.AnswerContent? && reply.content.Some? && reply.content.value != "" ==> text == reply.content.value
    ensures reply.AnswerContent? && (reply.content.None? || reply.content.value == "") ==> text == NoAnswerText
  {
    match reply
    case AnswerContent(content) => if content.Some? && content.value != "" then content.value else NoAnswerText
    case _ => ErrorText
  }

  /**
   * `generateAriaResponse`: always a non-empty string. Any failure along the way
   * (classifier `fetch`, database, missing params, negative limit, answer call) gives
   * the fixed apology; otherwise the answer to the data of the classified query.
   */
  method GenerateAriaResponse(
    classifier: ClassifierReply, parse: string -> Option<QueryContext>,
    db: Option<seq<ClientRow>>, answer: QueryResult -> AnswerReply)
    returns (text: string)
    ensures text != ""
    ensures classifier.ClassifierThrew? || db.None? ==> text == ErrorText
    ensures !classifier.ClassifierThrew? && db.Some?
      && RoutineFor(AnalyzeUserQuestion(classifier, parse).value.kind) == GeneralStatsRoutine
      ==> text == AnswerText(answer(EstadisticasGenerales(GetGeneralStats(db.value))))
    ensures !classifier.ClassifierThrew? && db.Some?
      && RoutineFor(AnalyzeUserQuestion(classifier, parse).value.kind) == ProductsRoutine
      ==> text == AnswerText(answer(AnalisisProductos(GetProductAnalysis(db.value))))
    ensures !classifier.ClassifierThrew? ==>
      var outcome := QueryOutcome(AnalyzeUserQuestion(classifier, parse).value, db);
      text == if outcome.Failure? then ErrorText else AnswerText(answer(outcome.value))
  {
    var ctx := AnalyzeUserQuestion(classifier, parse);
    if ctx.Failure? {
      return ErrorText;
    }
    var result := ExecuteQuery(ctx.value, db);
    if result.Failure? {
      return ErrorText;
    }
    text := AnswerText(answer(result.value));
  }
}
