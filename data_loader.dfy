/**
 * The server's client store (server/data-loader.ts): client records read from a
 * JSON-lines file, memoised in a module-level cache, looked up by id and
 * summarised into aggregate statistics.
 */
module DataLoader {
  import opened Wrappers
  import opened Seqs
  import opened Strings

  /**
   * `perfil` as it appears in a row card. Each field may be missing from the JSON
   * object; numbers are JavaScript numbers.
   */
  datatype Profile = Profile(
    sexo: Option<string>,
    edad: Option<real>,
    ingreso: Option<real>,
    antiguedadLaboral: Option<real>,
    sectorPublicoFlag: Option<real>)

  /** What `JSON.parse` yields for one line, before the structural check. */
  datatype JsonClient = JsonClient(
    clienteId: Option<string>,
    perfil: Option<Profile>,
    resumen: Option<string>,
    fuente: Option<string>,
    dataQuality: Option<seq<string>>)

  /** A record that passed `client.cliente_id && client.perfil`. */
  datatype Client = Client(
    clienteId: string,
    perfil: Profile,
    resumen: Option<string>,
    fuente: Option<string>,
    dataQuality: Option<seq<string>>)

  /** The row-card file as `loadClients` finds it. */
  datatype ClientsFile = Missing | Unreadable | Present(content: string)

  /** `JSON.parse` as an oracle: `None` when it throws. */
  type JsonParser = string -> Option<JsonClient>

  /** `client.cliente_id && client.perfil`: a non-empty id and a profile object. */
  predicate Acceptable(j: JsonClient)
  {
    j.clienteId.Some? && j.clienteId.value != "" && j.perfil.Some?
  }

  function AsClient(j: JsonClient): (c: Client)
    requires Acceptable(j)
    ensures c.clienteId == j.clienteId.value && c.perfil == j.perfil.value
  {
    Client(j.clienteId.value, j.perfil.value, j.resumen, j.fuente, j.dataQuality)
  }

  /** A line that parses and passes the structural check. */
  predicate IsKeptLine(parse: JsonParser, line: string)
  {
    parse(line).Some? && Acceptable(parse(line).value)
  }

  /** `fileContent.split('\n').filter(line => line.trim())`. */
  function NonBlankLines(content: string): (lines: seq<string>)
    ensures forall k :: 0 <= k < |lines| ==> !IsJsBlank(lines[k])
  {
    Filter(Split(content, '\n'), l => !IsJsBlank(l))
  }

  /** The records the line loop pushes, in file order. */
  function Kept(lines: seq<string>, parse: JsonParser): (r: seq<Client>)
    ensures |r| <= |lines|
    ensures forall k :: 0 <= k < |r| ==> r[k].clienteId != ""
  {
    if lines == [] then []
    else
      var last := lines[|lines| - 1];
      Kept(lines[..|lines| - 1], parse)
      + (if IsKeptLine(parse, last) then [AsClient(parse(last).value)] else [])
  }

  /** The number of lines the line loop counts in `errorCount`. */
  function ErrorCount(lines: seq<string>, parse: JsonParser): (n: nat)
    ensures n <= |lines|
  {
    if lines == [] then 0
    else ErrorCount(lines[..|lines| - 1], parse) + (if IsKeptLine(parse, lines[|lines| - 1]) then 0 else 1)
  }

  /** Every line is either kept or counted as an error, never both. */
  lemma {:induction false} KeptPlusErrors(lines: seq<string>, parse: JsonParser)
    ensures |Kept(lines, parse)| + ErrorCount(lines, parse) == |lines|
  {
    if lines != [] {
      KeptPlusErrors(lines[..|lines| - 1], parse);
    }
  }

  /** Kept records follow file order: the records of a concatenation are concatenated. */
  lemma {:induction false} KeptConcat(a: seq<string>, b: seq<string>, parse: JsonParser)
    ensures Kept(a + b, parse) == Kept(a, parse) + Kept(b, parse)
    decreases |b|
  {
    if b == [] {
      assert a + b == a;
    } else {
      assert (a + b)[..|a + b| - 1] == a + b[..|b| - 1];
      KeptConcat(a, b[..|b| - 1], parse);
    }
  }

  /** Exactly the lines that parse to an acceptable object are kept. */
  lemma {:induction false} KeptCountsAcceptedLines(lines: seq<string>, parse: JsonParser)
    ensures |Kept(lines, parse)| == Count(lines, l => IsKeptLine(parse, l))
    ensures ErrorCount(lines, parse) == Count(lines, l => !IsKeptLine(parse, l))
  {
    if lines != [] {
      var init, last := lines[..|lines| - 1], lines[|lines| - 1];
      KeptCountsAcceptedLines(init, parse);
      assert lines == init + [last];
      FilterConcat(init, [last], l => IsKeptLine(parse, l));
      FilterConcat(init, [last], l => !IsKeptLine(parse, l));
    }
  }

  /**
   * The loop of `loadClients`: parse each line, push the acceptable records and count
   * the rest; a line whose parse throws is counted too.
   */
  method ParseLines(lines: seq<string>, parse: JsonParser) returns (clients: seq<Client>, errorCount: nat)
    ensures clients == Kept(lines, parse)
    ensures errorCount == ErrorCount(lines, parse)
  {
    clients := [];
    errorCount := 0;
    var i := 0;
    while i < |lines|
      invariant 0 <= i <= |lines|
      invariant clients == Kept(lines[..i], parse)
      invariant errorCount == ErrorCount(lines[..i], parse)
    {
      assert lines[..i + 1][..i] == lines[..i];
      var parsed := parse(lines[i]);
      if parsed.Some? && Acceptable(parsed.value) {
        clients := clients + [AsClient(parsed.value)];
      } else {
        errorCount := errorCount + 1;
      }
      i := i + 1;
    }
    assert lines[..i] == lines;
  }

  /** What a load from the file yields: nothing when the file is missing or unreadable. */
  function LoadedFrom(file: ClientsFile, parse: JsonParser): (r: seq<Client>)
    ensures !file.Present? ==> r == []
    ensures forall k :: 0 <= k < |r| ==> r[k].clienteId != ""
  {
    if file.Present? then Kept(NonBlankLines(file.content), parse) else []
  }

  /** `i` is the position of the first client whose id is `id`. */
  predicate IsFirstWithId(clients: seq<Client>, id: string, i: int)
  {
    0 <= i < |clients| && clients[i].clienteId == id
    && forall j :: 0 <= j < i ==> clients[j].clienteId != id
  }

  /**
   * `Array.prototype.find` on `cliente_id`: the first client with that id, or nothing
   * when no client has it.
   */
  function FindById(clients: seq<Client>, id: string): (r: Option<Client>)
    ensures r.None? <==> forall k :: 0 <= k < |clients| ==> clients[k].clienteId != id
    ensures r.Some? ==> exists i :: IsFirstWithId(clients, id, i) && clients[i] == r.value
  {
    if clients == [] then None
    else if clients[0].clienteId == id then (assert IsFirstWithId(clients, id, 0); Some(clients[0]))
    else
      var r := FindById(clients[1..], id);
      assert r.Some? ==> exists i :: IsFirstWithId(clients, id, i) && clients[i] == r.value by {
        if r.Some? {
          var i :| IsFirstWithId(clients[1..], id, i) && clients[1..][i] == r.value;
          assert IsFirstWithId(clients, id, i + 1) by {
            forall j | 0 <= j < i + 1 ensures clients[j].clienteId != id {
              if j > 0 { assert clients[j] == clients[1..][j - 1]; }
            }
          }
        }
      }
      r
  }

  /** The shape `getClientStats` returns. */
  datatype ClientStats = ClientStats(
    total: int,
    sectorPublico: int,
    sectorPrivado: int,
    mujeres: int,
    hombres: int,
    edadPromedio: int,
    ingresoPromedio: int)

  predicate IsPublic(c: Client)
  {
    c.perfil.sectorPublicoFlag == Some(1.0)
  }

  predicate IsFemale(c: Client)
  {
    c.perfil.sexo == Some("FEMENINO")
  }

  /** `clients.reduce((sum, c) => sum + (c.perfil.edad || 0), 0)`. */
  function EdadSum(clients: seq<Client>): real
  {
    if clients == [] then 0.0 else clients[0].perfil.edad.GetOr(0.0) + EdadSum(clients[1..])
  }

  /** `clients.reduce((sum, c) => sum + (c.perfil.ingreso || 0), 0)`. */
  function IngresoSum(clients: seq<Client>): real
  {
    if clients == [] then 0.0 else clients[0].perfil.ingreso.GetOr(0.0) + IngresoSum(clients[1..])
  }

  /** JavaScript `Math.round(x)`: the nearest integer, halves rounded up. */
  function JsRound(x: real): (r: int)
    ensures r as real - 0.5 <= x < r as real + 0.5
  {
    (x + 0.5).Floor
  }

  /** `r` is `Math.round(sum / n)`. */
  predicate IsRoundedMean(r: int, sum: real, n: nat)
  {
    n > 0 && r as real - 0.5 <= sum / n as real < r as real + 0.5
  }

  /**
   * `getClientStats` on a loaded list: all zeros for an empty store, otherwise the
   * counts with `sectorPrivado` and `hombres` taken as complements, and the rounded
   * means with a missing or zero value counted as 0.
   */
  function ComputeStats(clients: seq<Client>): (st: ClientStats)
    ensures clients == [] ==> st == ClientStats(0, 0, 0, 0, 0, 0, 0)
    ensures st.total == |clients|
    ensures st.sectorPublico + st.sectorPrivado == st.total
    ensures st.mujeres + st.hombres == st.total
    ensures 0 <= st.sectorPublico <= st.total && 0 <= st.mujeres <= st.total
    ensures clients != [] ==> IsRoundedMean(st.edadPromedio, EdadSum(clients), |clients|)
    ensures clients != [] ==> IsRoundedMean(st.ingresoPromedio, IngresoSum(clients), |clients|)
  {
    if |clients| == 0 then ClientStats(0, 0, 0, 0, 0, 0, 0)
    else
      var publico := Count(clients, IsPublic);
      var mujeres := Count(clients, IsFemale);
      var n := |clients| as real;
      ClientStats(|clients|, publico, |clients| - publico, mujeres, |clients| - mujeres,
        JsRound(EdadSum(clients) / n), JsRound(IngresoSum(clients) / n))
  }

  /**
   * The complements mean what their names say: `sectorPublico` counts flag 1, and
   * `sectorPrivado` every other client; `mujeres` counts 'FEMENINO' and `hombres`
   * every client that is not 'FEMENINO' (a missing `sexo` included).
   */
  lemma StatsCounts(clients: seq<Client>)
    requires clients != []
    ensures ComputeStats(clients).sectorPublico == Count(clients, IsPublic)
    ensures ComputeStats(clients).sectorPrivado == Count(clients, c => !IsPublic(c))
    ensures ComputeStats(clients).mujeres == Count(clients, IsFemale)
    ensures ComputeStats(clients).hombres == Count(clients, c => !IsFemale(c))
  {
    CountSplit(clients, IsPublic, c => !IsPublic(c));
    CountSplit(clients, IsFemale, c => !IsFemale(c));
  }

  /** The module-level `clientsCache` and the functions that use it. */
  class ClientStore {
    /** `clientsCache`: `None` is `null`. A cached empty list is still a cache hit. */
    var cache: Option<seq<Client>>

    constructor()
      ensures cache == None
    {
      cache := None;
    }

    /**
     * `loadClients`: the cached list when there is one, without touching the file.
     * Otherwise the records of the file; the cache is set only when the file was read,
     * so a missing or unreadable file is retried on the next call.
     */
    method LoadClients(file: ClientsFile, parse: JsonParser) returns (clients: seq<Client>)
      modifies this
      ensures old(cache).Some? ==> clients == old(cache).value && cache == old(cache)
      ensures old(cache).None? ==> clients == LoadedFrom(file, parse)
      ensures old(cache).None? ==> cache == if file.Present? then Some(clients) else None
    {
      if cache.Some? {
        return cache.value;
      }
      match file {
        case Missing =>
          return [];
        case Unreadable =>
          return [];
        case Present(content) =>
          var lines := NonBlankLines(content);
          var errorCount;
          clients, errorCount := ParseLines(lines, parse);
          cache := Some(clients);
      }
    }

    /** `clearClientsCache`: the next load reads the file again. */
    method ClearClientsCache()
      modifies this
      ensures cache == None
    {
      cache := None;
    }

    /**
     * `getClientById`: nothing for an empty id, without loading; otherwise the first
     * loaded client with that id.
     */
    method GetClientById(id: string, file: ClientsFile, parse: JsonParser) returns (c: Option<Client>)
      modifies this
      ensures id == "" ==> c == None && cache == old(cache)
      ensures id != "" && old(cache).Some? ==> c == FindById(old(cache).value, id) && cache == old(cache)
      ensures id != "" && old(cache).None? ==> c == FindById(LoadedFrom(file, parse), id)
      ensures id != "" && old(cache).None? ==> cache == if file.Present? then Some(LoadedFrom(file, parse)) else None
    {
      if id == "" {
        return None;
      }
      var clients := LoadClients(file, parse);
      c := FindById(clients, id);
    }

    /** `getClientStats`: the statistics of the loaded list. */
    method GetClientStats(file: ClientsFile, parse: JsonParser) returns (st: ClientStats)
      modifies this
      ensures old(cache).Some? ==> st == ComputeStats(old(cache).value) && cache == old(cache)
      ensures old(cache).None? ==> st == ComputeStats(LoadedFrom(file, parse))
      ensures old(cache).None? ==> cache == if file.Present? then Some(LoadedFrom(file, parse)) else None
    {
      var clients := LoadClients(file, parse);
      st := ComputeStats(clients);
    }
  }

  /** Two loads in a row without a clear read the file at most once: the second is a cache hit. */
  method LoadTwice(store: ClientStore, file1: ClientsFile, file2: ClientsFile, parse: JsonParser)
    returns (first: seq<Client>, second: seq<Client>)
    requires file1.Present?
    modifies store
    ensures first == second
  {
    first := store.LoadClients(file1, parse);
    second := store.LoadClients(file2, parse);
  }
}
