/**
 * The local stand-in for the database (server/db-local.ts): a module-level record with
 * an `initialized` flag, and a mock Drizzle client whose every `select` resolves to one
 * statistics row computed from the loaded clients, and whose writes do nothing.
 */
module DbLocal {
  import opened Wrappers
  import opened Seqs
  import opened DataLoader

  /** The module-level `localDB` record. Its `clients` and `metrics` are never filled in. */
  class LocalDB {
    var clients: seq<Client>
    var metrics: map<string, string>
    var initialized: bool

    /** `{ clients: [], metrics: {}, initialized: false }`. */
    constructor()
      ensures clients == [] && metrics == map[] && !initialized
    {
      clients := [];
      metrics := map[];
      initialized := false;
    }

    /**
     * `initLocalDB`: sets the flag on the first call; every call returns this same record,
     * and a call on an initialised record changes nothing.
     */
    method InitLocalDB() returns (db: LocalDB)
      modifies this
      ensures db == this
      ensures initialized
      ensures clients == old(clients) && metrics == old(metrics)
      ensures old(initialized) ==> initialized == old(initialized)
    {
      if initialized {
        return this;
      }
      initialized := true;
      return this;
    }

    /** `getLocalDB`: always an initialised record, the same one every time. */
    method GetLocalDB() returns (db: LocalDB)
      modifies this
      ensures db == this && db.initialized
      ensures clients == old(clients) && metrics == old(metrics)
    {
      if !initialized {
        var _ := InitLocalDB();
      }
      return this;
    }
  }

  /** Initialising twice is initialising once. */
  method InitTwice(db: LocalDB) returns (first: LocalDB, second: LocalDB)
    modifies db
    ensures first == second == db
    ensures db.initialized
    ensures db.clients == old(db.clients) && db.metrics == old(db.metrics)
  {
    first := db.InitLocalDB();
    second := db.InitLocalDB();
  }

  // ----- the mock query builder -----

  /** The statistics row every mock `select` resolves to; `None` stands for `NaN`. */
  datatype MockStats = MockStats(
    total: nat, edadPromedio: Option<int>, ingresoPromedio: Option<int>,
    sectorPublico: nat, sectorPrivado: int, hombres: nat, mujeres: int)

  predicate IsMasculino(c: Client)
  {
    c.perfil.sexo == Some("MASCULINO")
  }

  /**
   * `clients.reduce((sum, c) => sum + f(c), 0)` with no default: one missing value
   * makes the sum `NaN`.
   */
  function NaNSum(clients: seq<Client>, f: Client -> Option<real>): (r: Option<real>)
    ensures r.None? <==> exists k :: 0 <= k < |clients| && f(clients[k]).None?
  {
    if clients == [] then Some(0.0)
    else
      var rest := NaNSum(clients[1..], f);
      assert forall k :: 0 < k < |clients| ==> clients[k] == clients[1..][k - 1];
      if f(clients[0]).None? || rest.None? then None else Some(f(clients[0]).value + rest.value)
  }

  function Edad(c: Client): Option<real> { c.perfil.edad }
  function Ingreso(c: Client): Option<real> { c.perfil.ingreso }

  /** `total ? Math.round(sum / total) : 0`, where rounding `NaN` stays `NaN`. */
  function MockMean(sum: Option<real>, total: nat): (r: Option<int>)
    ensures total == 0 ==> r == Some(0)
    ensures total > 0 && sum.Some? ==> r.Some? && IsRoundedMean(r.value, sum.value, total)
    ensures total > 0 && sum.None? ==> r.None?
  {
    if total == 0 then Some(0)
    else if sum.None? then None
    else Some(JsRound(sum.value / total as real))
  }

  /**
   * The mock statistics: `sectorPrivado` is the complement of flag 1, and `mujeres`
   * the complement of 'MASCULINO', the opposite convention to `getClientStats`.
   */
  function ComputeMockStats(clients: seq<Client>): (st: MockStats)
    ensures st.total == |clients|
    ensures st.sectorPrivado == st.total - st.sectorPublico
    ensures st.mujeres == st.total - st.hombres
    ensures st.sectorPublico == Count(clients, IsPublic) && st.hombres == Count(clients, IsMasculino)
    ensures clients == [] ==> st.edadPromedio == Some(0) && st.ingresoPromedio == Some(0)
  {
    var total := |clients|;
    var publico := Count(clients, IsPublic);
    var hombres := Count(clients, IsMasculino);
    MockStats(total, MockMean(NaNSum(clients, Edad), total), MockMean(NaNSum(clients, Ingreso), total),
      publico, total - publico, hombres, total - hombres)
  }

  /** With no value missing, the `NaN`-prone sums are the sums `getClientStats` takes. */
  lemma {:induction false} NaNSumsAgree(clients: seq<Client>)
    requires forall k :: 0 <= k < |clients| ==> clients[k].perfil.edad.Some? && clients[k].perfil.ingreso.Some?
    ensures NaNSum(clients, Edad) == Some(EdadSum(clients))
    ensures NaNSum(clients, Ingreso) == Some(IngresoSum(clients))
  {
    if clients != [] {
      NaNSumsAgree(clients[1..]);
    }
  }

  /**
   * Against `getClientStats`: the same total, public count and (with no missing age or
   * income) the same means; the sex counts differ in which side takes the complement.
   */
  lemma MockStatsAgainstLoader(clients: seq<Client>)
    requires clients != []
    requires forall k :: 0 <= k < |clients| ==> clients[k].perfil.edad.Some? && clients[k].perfil.ingreso.Some?
    ensures ComputeMockStats(clients).total == ComputeStats(clients).total
    ensures ComputeMockStats(clients).sectorPublico == ComputeStats(clients).sectorPublico
    ensures ComputeMockStats(clients).sectorPrivado == ComputeStats(clients).sectorPrivado
    ensures ComputeMockStats(clients).edadPromedio == Some(ComputeStats(clients).edadPromedio)
    ensures ComputeMockStats(clients).ingresoPromedio == Some(ComputeStats(clients).ingresoPromedio)
  {
    NaNSumsAgree(clients);
    StatsCounts(clients);
  }

  /**
   * The object `from()` returns. It holds nothing: `select` and `from` ignore their
   * arguments, and `where`, `limit` and `groupBy` return the builder itself, so every
   * chain of calls ends at this one value.
   */
  datatype QueryBuilder = QueryBuilder

  /**
   * Awaiting the builder (`then`): it loads the clients, through the data-loader cache,
   * and resolves to a one-element array holding their mock statistics, whatever query was built.
   */
  method Then(b: QueryBuilder, store: ClientStore, file: ClientsFile, parse: JsonParser) returns (rows: seq<MockStats>)
    modifies store
    ensures old(store.cache).Some? ==> rows == [ComputeMockStats(old(store.cache).value)]
    ensures old(store.cache).Some? ==> store.cache == old(store.cache)
    ensures old(store.cache).None? ==> rows == [ComputeMockStats(LoadedFrom(file, parse))]
    ensures old(store.cache).None? ==> store.cache == if file.Present? then Some(LoadedFrom(file, parse)) else None
  {
    var clients := store.LoadClients(file, parse);
    rows := [ComputeMockStats(clients)];
  }

  /** `{ rowCount: 0 }`: what every mock write resolves to. */
  datatype WriteResult = WriteResult(rowCount: int)

  /** `insert().values()`, `update().set().where()` and `delete().where()`. */
  datatype Write = Insert | Update | Delete

  /** A mock write reports no rows and, modifying nothing, leaves the local record and the cache as they were. */
  method Perform(w: Write, db: LocalDB, store: ClientStore) returns (r: WriteResult)
    ensures r.rowCount == 0
  {
    r := WriteResult(0);
  }
}
