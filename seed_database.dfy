/**
 * The seed script (server/seed-database.ts): every CSV record becomes one `clients`
 * row with a generated `cli_NNNNN` id and a one-line summary, and the rows and the
 * column metadata are inserted in batches of 100. A CSV record is a map from header
 * to text; a missing header is `undefined`.
 */
module SeedDatabase {
  import opened Wrappers
  import opened Seqs
  import opened Strings
  import AiInsights

  /** A CSV record as `csv-parse` returns it with `columns: true`. */
  type CsvRow = map<string, string>

  /** `row.NAME`: the text under that header, `None` for `undefined`. */
  function Field(row: CsvRow, name: string): (v: Option<string>)
    ensures v.Some? <==> name in row
  {
    if name in row then Some(row[name]) else None
  }

  // ----- field parsers -----

  /** `!value || value.trim() === '' || value === 'ND'`: the value stands for no data. */
  predicate IsNoData(v: Option<string>)
  {
    v.None? || v.value == "" || IsJsBlank(v.value) || v.value == "ND"
  }

  /** `parseText`: `null` for no data, otherwise the trimmed text, which is never empty. */
  function ParseText(v: Option<string>): (r: Option<string>)
    ensures r.None? <==> IsNoData(v)
    ensures r.Some? ==> r.value == Trim(v.value, IsJsWhitespace) && r.value != ""
  {
    if IsNoData(v) then None else Some(Trim(v.value, IsJsWhitespace))
  }

  /** Only the exact text 'ND' is no data: padded, it survives as 'ND'. */
  lemma ParseTextPaddedND()
    ensures ParseText(Some("ND")) == None
    ensures ParseText(Some(" ND ")) == Some("ND")
  {
    TrimPaddedND();
    assert " ND " != "ND";
  }

  lemma TrimPaddedND()
    ensures Trim(" ND ", IsJsWhitespace) == "ND"
  {
    TrimStartPaddedND();
    TrimEndPaddedND();
  }

  lemma TrimStartPaddedND()
    ensures TrimStart(" ND ", IsJsWhitespace) == "ND "
  {
    var padded := " ND ";
    assert IsJsWhitespace(padded[0]) && padded[1..] == "ND ";
    assert !IsJsWhitespace('N');
  }

  lemma TrimEndPaddedND()
    ensures TrimEnd("ND ", IsJsWhitespace) == "ND"
  {
    var rest := "ND ";
    assert IsJsWhitespace(rest[2]) && rest[..2] == "ND";
    assert !IsJsWhitespace('D');
  }

  /** `parseIntSafe`: `null` for no data and for a `NaN` parse, otherwise `parseInt(value, 10)`. */
  function ParseIntSafe(v: Option<string>): (r: Option<int>)
    ensures IsNoData(v) ==> r.None?
    ensures !IsNoData(v) ==> r == ParseInt(v.value, Decimal)
  {
    if IsNoData(v) then None else ParseInt(v.value, Decimal)
  }

  /** `parseNumber`: `null` for no data and for a `NaN` parse, otherwise `parseFloat(value)`. */
  function ParseNumber(v: Option<string>, parseFloat: FloatParser): (r: Option<real>)
    ensures IsNoData(v) ==> r.None?
    ensures !IsNoData(v) ==> r == parseFloat(v.value)
  {
    if IsNoData(v) then None else parseFloat(v.value)
  }

  /** A decimal integer, padded or not, parses back to itself. */
  lemma ParseIntSafeOfRendered(n: nat)
    ensures ParseIntSafe(Some(NatToString(n))) == Some(n)
  {
    var s := NatToString(n);
    assert s[0] != 'N';
    assert !IsJsWhitespace(s[0]);
    assert TrimStart(s, IsJsWhitespace) != [];
    ParseIntOfPadded(n, 0, Decimal);
    assert PadStart(s, 0, '0') == s;
  }

  // ----- client ids -----

  const IdWidth := 5

  /** `cli_${String(clientIndex).padStart(5, '0')}`. */
  function ClienteId(index: nat): (id: string)
    ensures |id| >= 4 + IdWidth
    ensures id[..4] == "cli_"
    ensures forall k :: 4 <= k < |id| ==> '0' <= id[k] <= '9'
  {
    var digits := PadStart(NatToString(index), IdWidth, '0');
    assert forall k :: 0 <= k < |digits| ==> '0' <= digits[k] <= '9' by {
      forall k | 0 <= k < |digits| ensures '0' <= digits[k] <= '9' {
        if k >= |digits| - |NatToString(index)| {
          assert digits[k] == digits[|digits| - |NatToString(index)|..][k - (|digits| - |NatToString(index)|)];
        }
      }
    }
    "cli_" + digits
  }

  /** The digits after `cli_` read back as the index. */
  lemma ClienteIdRoundTrip(index: nat)
    ensures ParseInt(ClienteId(index)[4..], Decimal) == Some(index)
  {
    assert ClienteId(index)[4..] == PadStart(NatToString(index), IdWidth, '0');
    ParseIntOfPadded(index, IdWidth, Decimal);
  }

  /** Distinct record indices give distinct ids. */
  lemma ClienteIdInjective(a: nat, b: nat)
    requires ClienteId(a) == ClienteId(b)
    ensures a == b
  {
    assert ClienteId(a)[4..] == PadStart(NatToString(a), IdWidth, '0');
    assert ClienteId(b)[4..] == PadStart(NatToString(b), IdWidth, '0');
    NatToStringInjective(a, b, IdWidth);
  }

  // ----- the row mapping -----

  /** Which parser a column goes through. */
  datatype ColumnKind = TextColumn | IntColumn | NumberColumn

  /** A `clients` column and the CSV header it is read from. */
  datatype ColumnSpec = ColumnSpec(column: string, header: string, kind: ColumnKind)

  datatype Cell = TextCell(text: Option<string>) | IntCell(integer: Option<int>) | NumberCell(number: Option<real>)

  /** The parsed value of one column. */
  function ParseCell(spec: ColumnSpec, row: CsvRow, parseFloat: FloatParser): (c: Cell)
    ensures spec.kind == TextColumn ==> c == TextCell(ParseText(Field(row, spec.header)))
    ensures spec.kind == IntColumn ==> c == IntCell(ParseIntSafe(Field(row, spec.header)))
    ensures spec.kind == NumberColumn ==> c == NumberCell(ParseNumber(Field(row, spec.header), parseFloat))
  {
    match spec.kind
    case TextColumn => TextCell(ParseText(Field(row, spec.header)))
    case IntColumn => IntCell(ParseIntSafe(Field(row, spec.header)))
    case NumberColumn => NumberCell(ParseNumber(Field(row, spec.header), parseFloat))
  }

  /** The seventy parsed columns of a seeded client, in the order they are written. */
  const Columns: seq<ColumnSpec> := [
    ColumnSpec("idCategoria", "ID_CATEGORIA", TextColumn),
    ColumnSpec("sexo", "SEXO", TextColumn),
    ColumnSpec("edad", "EDAD", IntColumn),
    ColumnSpec("estadoCivil", "ESTADO_CIVIL", TextColumn),
    ColumnSpec("profesion", "PROFESION", TextColumn),
    ColumnSpec("profesionCategoria", "PROFESION_CATEGORIA", TextColumn),
    ColumnSpec("gradoAcademico", "GRADO_ACADEMICO", TextColumn),
    ColumnSpec("nivelEducativo", "NIVEL_EDUCATIVO", TextColumn),
    ColumnSpec("nacionalidad", "NACIONALIDAD", TextColumn),
    ColumnSpec("generacion", "GENERACION", TextColumn),
    ColumnSpec("hijos", "HIJOS", IntColumn),
    ColumnSpec("edadHijoMenor", "EDAD_HIJO_MENOR", IntColumn),
    ColumnSpec("edadPadreMayor", "EDAD_PADRE_MAYOR", IntColumn),
    ColumnSpec("idPatrono", "ID_PATRONO", TextColumn),
    ColumnSpec("nomPatrono", "NOM_PATRONO", TextColumn),
    ColumnSpec("sectorPublicoFlag", "SECTOR_PUBLICO_FLAG", IntColumn),
    ColumnSpec("antiguedadLaboral", "ANTIGUEDAD_LABORAL", NumberColumn),
    ColumnSpec("tipoCliente", "TIPO_PERSONA", TextColumn),
    ColumnSpec("fuenteIngresos", "FUENTE_INGRESOS", TextColumn),
    ColumnSpec("ingreso", "INGRESO", NumberColumn),
    ColumnSpec("ventasAnual", "VENTAS_ANUAL", NumberColumn),
    ColumnSpec("nse", "NSE", IntColumn),
    ColumnSpec("biQ", "BI_Q", IntColumn),
    ColumnSpec("biMonto", "BI_MONTO", NumberColumn),
    ColumnSpec("bmQ", "BM_Q", IntColumn),
    ColumnSpec("bmLujoQ", "BM_LUJO_Q", IntColumn),
    ColumnSpec("bmMonto", "BM_MONTO", NumberColumn),
    ColumnSpec("biBmQ", "BI_BM_Q", IntColumn),
    ColumnSpec("biBmMonto", "BI_BM_MONTO", NumberColumn),
    ColumnSpec("paisDefault", "PAIS_DEFAULT", TextColumn),
    ColumnSpec("provinciaDefault", "PROVINCIA_DEFAULT", TextColumn),
    ColumnSpec("cantonDefault", "CANTON_DEFAULT", TextColumn),
    ColumnSpec("distritoDefault", "DISTRITO_DEFAULT", TextColumn),
    ColumnSpec("provinciaTrabajo", "PROVINCIA_TRABAJO", TextColumn),
    ColumnSpec("cantonTrabajo", "CANTON_TRABAJO", TextColumn),
    ColumnSpec("distritoTrabajo", "DISTRITO_TRABAJO", TextColumn),
    ColumnSpec("provinciaVoto", "PROVINCIA_VOTO", TextColumn),
    ColumnSpec("cantonVoto", "CANTON_VOTO", TextColumn),
    ColumnSpec("distritoVoto", "DISTRITO_VOTO", TextColumn),
    ColumnSpec("gamFlag", "GAM_FLAG", IntColumn),
    ColumnSpec("estadoCliente", "ESTADO_CLIENTE", TextColumn),
    ColumnSpec("tipoPersona", "TIPO_PERSONA", TextColumn),
    ColumnSpec("oficinaAdministrativa", "OFICINA_ADMINISTRATIVA", TextColumn),
    ColumnSpec("segmentoBanca", "SEGMENTO_BANCA", TextColumn),
    ColumnSpec("segmentoRisk", "SEGMENTO_RISK", TextColumn),
    ColumnSpec("segmentoBanca2", "SEGMENTO_BANCA_2", TextColumn),
    ColumnSpec("oficinaBancaria", "OFICINA_BANCARIA", TextColumn),
    ColumnSpec("qtyCtas", "QTY_CTAS", IntColumn),
    ColumnSpec("tieneTarjeta", "TIENE_TARJETA", IntColumn),
    ColumnSpec("nivelValor", "NIVEL_VALOR", TextColumn),
    ColumnSpec("productosPasivosFlag", "PRODUCTOS_PASIVOS_FLAG", IntColumn),
    ColumnSpec("productosActivosFlag", "PRODUCTOS_ACTIVOS_FLAG", IntColumn),
    ColumnSpec("ultimoMesActivo", "ULTIMO_MES_ACTIVO", TextColumn),
    ColumnSpec("monthsSinceActive", "MONTHS_SINCE_ACTIVE", IntColumn),
    ColumnSpec("vinculacion", "VINCULACION", TextColumn),
    ColumnSpec("productosActuales", "PRODUCTOS_ACTUALES", TextColumn),
    ColumnSpec("productosPotenciales", "PRODUCTOS_POTENCIALES", TextColumn),
    ColumnSpec("ceSaldo", "CE_SALDO", NumberColumn),
    ColumnSpec("cdiSaldo", "CDI_SALDO", NumberColumn),
    ColumnSpec("cePlanMetasSaldo", "CE_PLAN_METAS_SALDO", NumberColumn),
    ColumnSpec("tdSaldo", "TD_SALDO", NumberColumn),
    ColumnSpec("prPrendarioSaldo", "PR_PRENDARIO_SALDO", NumberColumn),
    ColumnSpec("prHipotecarioSaldo", "PR_HIPOTECARIO_SALDO", NumberColumn),
    ColumnSpec("prOtrosSaldo", "PR_OTROS_SALDO", NumberColumn),
    ColumnSpec("tcSaldo", "TC_SALDO", NumberColumn),
    ColumnSpec("totalPasivos", "TOTAL_PASIVOS", NumberColumn),
    ColumnSpec("totalActivos", "TOTAL_ACTIVOS", NumberColumn),
    ColumnSpec("rangoSaldo", "RANGO_SALDO", TextColumn),
    ColumnSpec("ratio", "RATIO", NumberColumn),
    ColumnSpec("balanceTipo", "BALANCE_TIPO", NumberColumn)
  ]

  /** The values the summary sentence is built from, with its defaults. */
  datatype SummaryFacts = SummaryFacts(sexo: string, edad: int, ingreso: real, antiguedad: real, sector: string)

  /**
   * The summary's inputs: sexo 'ND', and 0 for age, income and seniority, when a value
   * is missing, unparsable or 0; the sector is 'público' exactly when the flag parses to 1.
   */
  function Facts(row: CsvRow, parseFloat: FloatParser): (f: SummaryFacts)
    ensures f.sexo == ParseText(Field(row, "SEXO")).GetOr("ND")
    ensures ParseIntSafe(Field(row, "EDAD")).None? ==> f.edad == 0
    ensures ParseIntSafe(Field(row, "EDAD")).Some? ==> f.edad == ParseIntSafe(Field(row, "EDAD")).value
    ensures ParseNumber(Field(row, "INGRESO"), parseFloat).None? ==> f.ingreso == 0.0
    ensures ParseNumber(Field(row, "INGRESO"), parseFloat).Some? ==>
      f.ingreso == ParseNumber(Field(row, "INGRESO"), parseFloat).value
    ensures ParseNumber(Field(row, "ANTIGUEDAD_LABORAL"), parseFloat).None? ==> f.antiguedad == 0.0
    ensures ParseNumber(Field(row, "ANTIGUEDAD_LABORAL"), parseFloat).Some? ==>
      f.antiguedad == ParseNumber(Field(row, "ANTIGUEDAD_LABORAL"), parseFloat).value
    ensures f.sector == "público" <==> ParseIntSafe(Field(row, "SECTOR_PUBLICO_FLAG")) == Some(1)
    ensures f.sector == "privado" <==> ParseIntSafe(Field(row, "SECTOR_PUBLICO_FLAG")) != Some(1)
  {
    SummaryFacts(
      ParseText(Field(row, "SEXO")).GetOr("ND"),
      ParseIntSafe(Field(row, "EDAD")).GetOr(0),
      ParseNumber(Field(row, "INGRESO"), parseFloat).GetOr(0.0),
      ParseNumber(Field(row, "ANTIGUEDAD_LABORAL"), parseFloat).GetOr(0.0),
      if ParseIntSafe(Field(row, "SECTOR_PUBLICO_FLAG")) == Some(1) then "público" else "privado")
  }

  /** The summary sentence stored as `resumen`. */
  function Resumen(f: SummaryFacts, fmt: AiInsights.NumberFormat): (s: string)
    ensures |s| > 0
  {
    ResumenSexo + f.sexo + ", " + IntToString(f.edad) + ResumenIngreso + fmt.fixed0(f.ingreso)
    + ResumenMes + fmt.show(f.antiguedad) + ResumenSector + f.sector
  }

  const ResumenSexo := "sexo "
  const ResumenIngreso := " años, ingreso ≈ "
  const ResumenMes := " CRC/mes, "
  const ResumenSector := " meses de antigüedad, sector "

  const DataQuality: seq<string> := ["sin_nulos_en_cols_clave"]

  /** One row for the `clients` table. */
  datatype ClientRecord = ClientRecord(clienteId: string, cells: seq<Cell>, resumen: string, dataQuality: seq<string>)

  function ParseCells(specs: seq<ColumnSpec>, row: CsvRow, parseFloat: FloatParser): (cs: seq<Cell>)
    ensures |cs| == |specs|
    ensures forall k :: 0 <= k < |specs| ==> cs[k] == ParseCell(specs[k], row, parseFloat)
  {
    if specs == [] then [] else [ParseCell(specs[0], row, parseFloat)] + ParseCells(specs[1..], row, parseFloat)
  }

  /** The row the record with global position `index` becomes. */
  function ToRecord(row: CsvRow, index: nat, fmt: AiInsights.NumberFormat, parseFloat: FloatParser): (r: ClientRecord)
    ensures r.clienteId == ClienteId(index)
    ensures |r.cells| == |Columns|
    ensures r.resumen == Resumen(Facts(row, parseFloat), fmt)
  {
    ClientRecord(ClienteId(index), ParseCells(Columns, row, parseFloat), Resumen(Facts(row, parseFloat), fmt), DataQuality)
  }

  /** The mapping applied to a record and its global position. */
  function RecordMaker(fmt: AiInsights.NumberFormat, parseFloat: FloatParser): (CsvRow, nat) -> ClientRecord
  {
    (row: CsvRow, index: nat) => ToRecord(row, index, fmt, parseFloat)
  }

  /** All records in file order, each with its own position as index. */
  function ToRecords(records: seq<CsvRow>, fmt: AiInsights.NumberFormat, parseFloat: FloatParser): (rs: seq<ClientRecord>)
    ensures |rs| == |records|
    ensures forall k :: 0 <= k < |records| ==> rs[k] == ToRecord(records[k], k, fmt, parseFloat)
  {
    MapIndexed(records, 0, RecordMaker(fmt, parseFloat))
  }

  /** Seeded ids are pairwise distinct. */
  lemma SeededIdsDistinct(records: seq<CsvRow>, fmt: AiInsights.NumberFormat, parseFloat: FloatParser, i: nat, j: nat)
    requires i < j < |records|
    ensures ToRecords(records, fmt, parseFloat)[i].clienteId != ToRecords(records, fmt, parseFloat)[j].clienteId
  {
    if ClienteId(i) == ClienteId(j) {
      ClienteIdInjective(i, j);
    }
  }

  const BatchSize := 100

  /**
   * The loop of `seedClients`: `for (i = 0; i < n; i += 100)`, mapping each slice
   * `items[i..i+100]` with `clientIndex = i + idx`, inserting it and adding its length.
   */
  method InsertMappedBatches<A, B>(items: seq<A>, f: (A, nat) -> B) returns (inserts: seq<seq<B>>, inserted: nat)
    ensures inserts == Batches(MapIndexed(items, 0, f), BatchSize)
    ensures inserted == |items|
  {
    ghost var all := MapIndexed(items, 0, f);
    inserts := [];
    inserted := 0;
    var i: nat := 0;
    while i < |items|
      invariant i % BatchSize == 0
      invariant inserted == Min(i, |items|)
      invariant inserts == Batches(all[..inserted], BatchSize)
      decreases |items| - i
    {
      var end := Min(i + BatchSize, |items|);
      var batch := items[i..end];
      var mapped := MapIndexed(batch, i, f);
      MapIndexedBatchStep(items, i, end, f, BatchSize);
      inserts := inserts + [mapped];
      inserted := inserted + |mapped|;
      i := i + BatchSize;
    }
    assert all[..inserted] == all;
  }

  /**
   * `seedClients`: the sequence of `insert` calls it makes, in order. The batches are
   * consecutive slices of at most 100 rows, they cover every record exactly once in file
   * order, and `inserted` ends equal to the number of records.
   */
  method SeedClients(records: seq<CsvRow>, fmt: AiInsights.NumberFormat, parseFloat: FloatParser)
    returns (inserts: seq<seq<ClientRecord>>, inserted: nat)
    ensures inserts == Batches(ToRecords(records, fmt, parseFloat), BatchSize)
    ensures Flatten(inserts) == ToRecords(records, fmt, parseFloat)
    ensures inserted == |records|
  {
    inserts, inserted := InsertMappedBatches(records, RecordMaker(fmt, parseFloat));
    BatchesFlatten(ToRecords(records, fmt, parseFloat), BatchSize);
  }

  // ----- column metadata -----

  /** A JSON value as far as truthiness goes. */
  datatype JsonValue = JsonNull | JsonBool(b: bool) | JsonNumber(n: real) | JsonString(s: string) | JsonArray | JsonObject

  /** JavaScript truthiness: `false`, `0`, `''` and `null` are falsy; arrays and objects are truthy. */
  predicate Truthy(v: Option<JsonValue>)
  {
    match v
    case None => false
    case Some(JsonNull) => false
    case Some(JsonBool(b)) => b
    case Some(JsonNumber(n)) => n != 0.0
    case Some(JsonString(s)) => s != ""
    case Some(JsonArray) => true
    case Some(JsonObject) => true
  }

  /** An entry of `schemaData.columns`. */
  datatype ColumnJson = ColumnJson(
    name: Option<JsonValue>, kind: Option<JsonValue>, category: Option<JsonValue>, description: Option<JsonValue>,
    tables: Option<JsonValue>, pii: Option<JsonValue>, sensitivity: Option<JsonValue>)

  /** A `column_metadata` row; `None` is `null`. */
  datatype ColumnMetadata = ColumnMetadata(
    name: Option<JsonValue>, kind: Option<JsonValue>, category: Option<JsonValue>, description: Option<JsonValue>,
    tables: Option<JsonValue>, pii: int, sensitivity: Option<JsonValue>)

  /** `x || null`. */
  function OrNull(v: Option<JsonValue>): (r: Option<JsonValue>)
    ensures Truthy(v) ==> r == v
    ensures !Truthy(v) ==> r.None?
  {
    if Truthy(v) then v else None
  }

  /** The metadata row of one column: `pii` as 1 or 0, falsy optional fields as `null`. */
  function ToMetadata(col: ColumnJson): (m: ColumnMetadata)
    ensures m.pii == 1 <==> Truthy(col.pii)
    ensures m.pii == 0 <==> !Truthy(col.pii)
    ensures m.name == col.name
    ensures Truthy(col.kind) ==> m.kind == col.kind
    ensures !Truthy(col.kind) ==> m.kind.None?
    ensures Truthy(col.category) ==> m.category == col.category
    ensures !Truthy(col.category) ==> m.category.None?
    ensures Truthy(col.description) ==> m.description == col.description
    ensures !Truthy(col.description) ==> m.description.None?
    ensures Truthy(col.tables) ==> m.tables == col.tables
    ensures !Truthy(col.tables) ==> m.tables.None?
    ensures Truthy(col.sensitivity) ==> m.sensitivity == col.sensitivity
    ensures !Truthy(col.sensitivity) ==> m.sensitivity.None?
  {
    ColumnMetadata(col.name, OrNull(col.kind), OrNull(col.category), OrNull(col.description),
      OrNull(col.tables), if Truthy(col.pii) then 1 else 0, OrNull(col.sensitivity))
  }

  function ToMetadataAll(cols: seq<ColumnJson>): (ms: seq<ColumnMetadata>)
    ensures |ms| == |cols|
    ensures forall k :: 0 <= k < |cols| ==> ms[k] == ToMetadata(cols[k])
  {
    seq(|cols|, k requires 0 <= k < |cols| => ToMetadata(cols[k]))
  }

  /** `schemaData.columns || []`: a missing or falsy entry means no columns. */
  function ColumnsOf(columns: Option<seq<ColumnJson>>): seq<ColumnJson>
  {
    columns.GetOr([])
  }

  /**
   * `seedColumnMetadata`: the metadata rows inserted in consecutive batches of at most
   * 100 that cover every column entry once, in order, with `inserted` ending at their count.
   */
  method SeedColumnMetadata(columns: Option<seq<ColumnJson>>)
    returns (inserts: seq<seq<ColumnMetadata>>, inserted: nat)
    ensures inserts == Batches(ToMetadataAll(ColumnsOf(columns)), BatchSize)
    ensures Flatten(inserts) == ToMetadataAll(ColumnsOf(columns))
    ensures inserted == |ColumnsOf(columns)|
  {
    var metadataData := ToMetadataAll(ColumnsOf(columns));
    inserts := [];
    inserted := 0;
    var i: nat := 0;
    while i < |metadataData|
      invariant i % BatchSize == 0
      invariant inserted == Min(i, |metadataData|)
      invariant inserts == Batches(metadataData[..inserted], BatchSize)
      decreases |metadataData| - i
    {
      var end := Min(i + BatchSize, |metadataData|);
      var batch := metadataData[i..end];
      BatchesAppend(metadataData[..i], batch, BatchSize);
      assert metadataData[..i] + batch == metadataData[..end];
      inserts := inserts + [batch];
      inserted := inserted + |batch|;
      i := i + BatchSize;
    }
    assert metadataData[..inserted] == metadataData;
    BatchesFlatten(metadataData, BatchSize);
  }
}
