/**
 * The retrieval service of the Python API (server/api_rag/rag_service.py): it indexes
 * the client summaries of `row_cards.jsonl` into a vector collection in batches of 100,
 * and answers a question from the closest summaries. The collection is modelled by the
 * columns it stores; embeddings, the nearest-neighbour query and the chat completion are
 * parameters.
 */
module RagService {
  import opened Wrappers
  import opened Seqs
  import opened Strings

  // ----- the API key -----

  const MissingKeyMessage := "OPENAI_API_KEY no encontrada. Configura AI_INTEGRATIONS_OPENAI_API_KEY en Secrets"
  const CollectionName := "clientes_cartera"

  /** Python truthiness of an optional string: `None` and `''` are false. */
  predicate Truthy(s: Option<string>)
  {
    s.Some? && s.value != ""
  }

  /**
   * `openai_api_key or os.getenv(...)`, then `if not key: raise ValueError`: the explicit
   * key wins when truthy, the environment variable otherwise, and an empty or absent
   * key is refused.
   */
  function ResolveApiKey(explicit: Option<string>, env: Option<string>): (r: Result<string, string>)
    ensures r.Success? <==> Truthy(explicit) || Truthy(env)
    ensures r.Success? ==> r.value != ""
    ensures Truthy(explicit) ==> r == Success(explicit.value)
    ensures !Truthy(explicit) && Truthy(env) ==> r == Success(env.value)
    ensures r.Failure? ==> r.error == MissingKeyMessage
  {
    var key := if Truthy(explicit) then explicit else env;
    if Truthy(key) then Success(key.value) else Failure(MissingKeyMessage)
  }

  // ----- a step that may raise, applied to each element in turn -----

  /** The first exception stops the loop; otherwise one result per element, in order. */
  function Traverse<A, B>(s: seq<A>, f: A -> Result<B, string>): Result<seq<B>, string>
    decreases |s|
  {
    if s == [] then Success([])
    else
      match f(s[0])
      case Failure(e) => Failure(e)
      case Success(b) =>
        var rest := Traverse(s[1..], f);
        if rest.Failure? then rest else Success([b] + rest.value)
  }

  /**
   * A traversal succeeds exactly when every element's step succeeds, and then holds each
   * step's result at the element's index; otherwise it carries the exception of the first
   * step that raised.
   */
  lemma {:induction false} TraverseMeaning<A, B>(s: seq<A>, f: A -> Result<B, string>)
    ensures var r := Traverse(s, f);
      (r.Success? <==> forall k :: 0 <= k < |s| ==> f(s[k]).Success?)
      && (r.Success? ==> |r.value| == |s| && forall k :: 0 <= k < |s| ==> r.value[k] == f(s[k]).value)
      && (r.Failure? ==> exists k :: (0 <= k < |s| && f(s[k]) == Failure(r.error)
        && forall j :: 0 <= j < k ==> f(s[j]).Success?))
    decreases |s|
  {
    if s != [] {
      var t := s[1..];
      TraverseMeaning(t, f);
      assert forall k :: 0 < k < |s| ==> s[k] == t[k - 1];
      var rest := Traverse(t, f);
      if f(s[0]).Failure? {
        assert f(s[0]) == Failure(Traverse(s, f).error);
      } else if rest.Failure? {
        assert Traverse(s, f) == rest;
        var k :| 0 <= k < |t| && f(t[k]) == Failure(rest.error) && forall j :: 0 <= j < k ==> f(t[j]).Success?;
        assert f(s[k + 1]) == Failure(rest.error);
        assert forall j :: 0 <= j < k + 1 ==> f(s[j]).Success?;
      } else {
        assert Traverse(s, f) == Success([f(s[0]).value] + rest.value);
      }
    }
  }

  /** What a loop that has collected `done` goes on to produce, given what the rest produces. */
  function PrefixWith<B>(done: seq<B>, r: Result<seq<B>, string>): Result<seq<B>, string>
  {
    if r.Success? then Success(done + r.value) else r
  }

  /** Nothing collected yet: the loop will produce what the whole traversal produces. */
  lemma PrefixWithNothing<A, B>(s: seq<A>, f: A -> Result<B, string>)
    ensures Traverse(s, f) == PrefixWith([], Traverse(s[0..], f))
  {
    assert s[0..] == s;
    if Traverse(s, f).Success? {
      assert [] + Traverse(s, f).value == Traverse(s, f).value;
    }
  }

  /** At the end of the loop the collected results are the whole result. */
  lemma PrefixWithAll<A, B>(s: seq<A>, done: seq<B>, f: A -> Result<B, string>)
    requires Traverse(s, f) == PrefixWith(done, Traverse(s[|s|..], f))
    ensures Traverse(s, f) == Success(done)
  {
    assert s[|s|..] == [];
    assert done + [] == done;
  }

  /** One step of the loop: the next element either raises, or its result joins the collected ones. */
  lemma TraverseStep<A, B>(s: seq<A>, i: nat, done: seq<B>, f: A -> Result<B, string>)
    requires i < |s|
    requires Traverse(s, f) == PrefixWith(done, Traverse(s[i..], f))
    ensures f(s[i]).Failure? ==> Traverse(s, f) == Failure(f(s[i]).error)
    ensures f(s[i]).Success? ==> Traverse(s, f) == PrefixWith(done + [f(s[i]).value], Traverse(s[i + 1..], f))
  {
    assert s[i..][1..] == s[i + 1..];
    if f(s[i]).Success? {
      var rest := Traverse(s[i + 1..], f);
      if rest.Success? {
        assert done + ([f(s[i]).value] + rest.value) == (done + [f(s[i]).value]) + rest.value;
      }
    }
  }

  // ----- _load_row_cards -----

  /** The profile fields the index reads; `None` is a missing key. */
  datatype Perfil = Perfil(sexo: Option<string>, edad: Option<real>, ingreso: Option<real>, sectorPublicoFlag: Option<real>)

  /** A parsed line of `row_cards.jsonl`; `None` is a missing key. */
  datatype RowCard = RowCard(clienteId: Option<string>, resumen: Option<string>, perfil: Option<Perfil>)

  /** `json.loads` is not modelled; it is a parameter whose failure carries the decoder's message. */
  type CardParser = string -> Result<RowCard, string>

  /** `if line.strip():`. */
  predicate IsContentLine(line: string)
  {
    Trim(line, IsPyWhitespace) != ""
  }

  /** The cards a file yields: every non-blank line parsed, in file order; the first bad line raises. */
  function RowCardsOf(content: string, parse: CardParser): Result<seq<RowCard>, string>
  {
    Traverse(Filter(Split(content, '\n'), IsContentLine), parse)
  }

  /** Traversing an element followed by more: the element first, then the rest. */
  lemma TraverseCons<A, B>(x: A, rest: seq<A>, f: A -> Result<B, string>)
    ensures f(x).Failure? ==> Traverse([x] + rest, f) == Failure(f(x).error)
    ensures f(x).Success? ==> Traverse([x] + rest, f) == PrefixWith([f(x).value], Traverse(rest, f))
  {
    assert ([x] + rest)[0] == x;
    assert ([x] + rest)[1..] == rest;
  }

  /** `s.filter(p)` from position `i` on: the element at `i` when it satisfies `p`, then the rest. */
  lemma FilterFrom<A>(s: seq<A>, i: nat, p: A -> bool)
    requires i < |s|
    ensures Filter(s[i..], p) == (if p(s[i]) then [s[i]] else []) + Filter(s[i + 1..], p)
  {
    assert s[i..][0] == s[i];
    assert s[i..][1..] == s[i + 1..];
  }

  /**
   * One step of a loop that applies `f` only to the elements satisfying `p`: a skipped
   * element changes nothing, a kept one either raises or joins the collected results.
   */
  lemma FilteredStep<A, B>(s: seq<A>, i: nat, p: A -> bool, done: seq<B>, f: A -> Result<B, string>)
    requires i < |s|
    requires Traverse(Filter(s, p), f) == PrefixWith(done, Traverse(Filter(s[i..], p), f))
    ensures !p(s[i]) ==> Traverse(Filter(s, p), f) == PrefixWith(done, Traverse(Filter(s[i + 1..], p), f))
    ensures p(s[i]) && f(s[i]).Failure? ==> Traverse(Filter(s, p), f) == Failure(f(s[i]).error)
    ensures p(s[i]) && f(s[i]).Success? ==>
      Traverse(Filter(s, p), f) == PrefixWith(done + [f(s[i]).value], Traverse(Filter(s[i + 1..], p), f))
  {
    FilterFrom(s, i, p);
    var rest := Filter(s[i + 1..], p);
    if p(s[i]) {
      ConsStep(Traverse(Filter(s, p), f), s[i], rest, done, f);
    } else {
      assert [] + rest == rest;
    }
  }

  /** The step for a kept element, with the filter out of sight. */
  lemma ConsStep<A, B>(whole: Result<seq<B>, string>, x: A, rest: seq<A>, done: seq<B>, f: A -> Result<B, string>)
    requires whole == PrefixWith(done, Traverse([x] + rest, f))
    ensures f(x).Failure? ==> whole == Failure(f(x).error)
    ensures f(x).Success? ==> whole == PrefixWith(done + [f(x).value], Traverse(rest, f))
  {
    TraverseCons(x, rest, f);
    if f(x).Success? {
      var tail := Traverse(rest, f);
      if tail.Success? {
        assert done + ([f(x).value] + tail.value) == (done + [f(x).value]) + tail.value;
      }
    }
  }

  /**
   * `_load_row_cards`: an unreadable file raises; otherwise each line that is not
   * whitespace only is parsed and appended, in file order, and a line that does not
   * parse raises.
   */
  method LoadRowCards(file: Result<string, string>, parse: CardParser) returns (r: Result<seq<RowCard>, string>)
    ensures file.Failure? ==> r == Failure(file.error)
    ensures file.Success? ==> r == RowCardsOf(file.value, parse)
  {
    if file.Failure? {
      return Failure(file.error);
    }
    r := ParseKeptLines(Split(file.value, '\n'), IsContentLine, parse);
  }

  /**
   * The line loop of `_load_row_cards`, for any test of which lines to keep: each kept
   * line is parsed and its result appended; the first line that does not parse raises.
   */
  method ParseKeptLines<A, B>(lines: seq<A>, keep: A -> bool, parse: A -> Result<B, string>) returns (r: Result<seq<B>, string>)
    ensures r == Traverse(Filter(lines, keep), parse)
  {
    var parsed: seq<B> := [];
    assert lines[0..] == lines;
    PrefixWithNothing(Filter(lines, keep), parse);
    var i := 0;
    while i < |lines|
      invariant 0 <= i <= |lines|
      invariant Traverse(Filter(lines, keep), parse) == PrefixWith(parsed, Traverse(Filter(lines[i..], keep), parse))
    {
      FilteredStep(lines, i, keep, parsed, parse);
      if keep(lines[i]) {
        var item := parse(lines[i]);
        if item.Failure? {
          return Failure(item.error);
        }
        parsed := parsed + [item.value];
      }
      i := i + 1;
    }
    assert lines[i..] == [];
    assert parsed + [] == parsed;
    r := Success(parsed);
  }

  // ----- the lists of _ensure_indexed -----

  /** The metadata stored beside each summary. */
  datatype Metadata = Metadata(clienteId: string, sexo: string, edad: real, ingreso: real, sectorPublico: real)

  /** One card's id, document and metadata. */
  datatype IndexEntry = IndexEntry(id: string, document: string, metadata: Metadata)

  /** The text of a `KeyError` for `key`. */
  function KeyErrorText(key: string): string
  {
    "'" + key + "'"
  }

  /**
   * One iteration of the card loop: `card['cliente_id']`, `card['resumen']` and
   * `card['perfil']` are required, in that order, and a missing one raises `KeyError`;
   * missing profile fields default to 'UNKNOWN' and 0.
   */
  function CardEntry(card: RowCard): (r: Result<IndexEntry, string>)
    ensures r.Success? <==> card.clienteId.Some? && card.resumen.Some? && card.perfil.Some?
    ensures card.clienteId.None? ==> r == Failure(KeyErrorText("cliente_id"))
    ensures card.clienteId.Some? && card.resumen.None? ==> r == Failure(KeyErrorText("resumen"))
    ensures card.clienteId.Some? && card.resumen.Some? && card.perfil.None? ==> r == Failure(KeyErrorText("perfil"))
    ensures r.Success? ==> (r.value.id == card.clienteId.value && r.value.metadata.clienteId == r.value.id
      && r.value.document == card.resumen.value)
    ensures r.Success? && card.perfil.value.sexo.None? ==> r.value.metadata.sexo == "UNKNOWN"
    ensures r.Success? && card.perfil.value.edad.None? ==> r.value.metadata.edad == 0.0
    ensures r.Success? && card.perfil.value.ingreso.None? ==> r.value.metadata.ingreso == 0.0
    ensures r.Success? && card.perfil.value.sectorPublicoFlag.None? ==> r.value.metadata.sectorPublico == 0.0
  {
    if card.clienteId.None? then Failure(KeyErrorText("cliente_id"))
    else if card.resumen.None? then Failure(KeyErrorText("resumen"))
    else if card.perfil.None? then Failure(KeyErrorText("perfil"))
    else
      var p := card.perfil.value;
      Success(IndexEntry(card.clienteId.value, card.resumen.value,
        Metadata(card.clienteId.value, p.sexo.GetOr("UNKNOWN"), p.edad.GetOr(0.0),
          p.ingreso.GetOr(0.0), p.sectorPublicoFlag.GetOr(0.0))))
  }

  /** The three parallel lists `ids`, `documents` and `metadatas`. */
  datatype IndexLists = IndexLists(ids: seq<string>, documents: seq<string>, metadatas: seq<Metadata>)

  /** The lists hold one entry per element of `entries`, at the same index. */
  predicate Aligned(l: IndexLists, entries: seq<IndexEntry>)
  {
    |l.ids| == |entries| && |l.documents| == |entries| && |l.metadatas| == |entries|
    && forall k :: 0 <= k < |entries| ==>
      l.ids[k] == entries[k].id && l.documents[k] == entries[k].document && l.metadatas[k] == entries[k].metadata
  }

  /**
   * The card loop of `_ensure_indexed`: the three lists grow together, one entry per
   * card in card order, and the first card with a missing key raises.
   */
  method BuildIndexLists(rowCards: seq<RowCard>) returns (r: Result<IndexLists, string>)
    ensures r.Success? <==> Traverse(rowCards, CardEntry).Success?
    ensures r.Failure? ==> r.error == Traverse(rowCards, CardEntry).error
    ensures r.Success? ==> Aligned(r.value, Traverse(rowCards, CardEntry).value)
  {
    var ids: seq<string> := [];
    var documents: seq<string> := [];
    var metadatas: seq<Metadata> := [];
    ghost var entries: seq<IndexEntry> := [];
    PrefixWithNothing(rowCards, CardEntry);
    var i := 0;
    while i < |rowCards|
      invariant 0 <= i <= |rowCards|
      invariant Traverse(rowCards, CardEntry) == PrefixWith(entries, Traverse(rowCards[i..], CardEntry))
      invariant Aligned(IndexLists(ids, documents, metadatas), entries)
    {
      TraverseStep(rowCards, i, entries, CardEntry);
      var entry := CardEntry(rowCards[i]);
      if entry.Failure? {
        return Failure(entry.error);
      }
      ids := ids + [entry.value.id];
      documents := documents + [entry.value.document];
      metadatas := metadatas + [entry.value.metadata];
      entries := entries + [entry.value];
      i := i + 1;
    }
    PrefixWithAll(rowCards, entries, CardEntry);
    r := Success(IndexLists(ids, documents, metadatas));
  }

  /** Each indexed id is the card's `cliente_id`, and its metadata names the same client. */
  lemma IndexedIdsAreCardIds(rowCards: seq<RowCard>, l: IndexLists)
    requires Traverse(rowCards, CardEntry).Success?
    requires Aligned(l, Traverse(rowCards, CardEntry).value)
    ensures |l.ids| == |rowCards|
    ensures forall k :: 0 <= k < |rowCards| ==>
      rowCards[k].clienteId.Some? && rowCards[k].resumen.Some? && rowCards[k].perfil.Some?
      && l.ids[k] == rowCards[k].clienteId.value && l.metadatas[k].clienteId == l.ids[k]
      && l.documents[k] == rowCards[k].resumen.value
  {
    TraverseMeaning(rowCards, CardEntry);
  }

  // ----- the collection -----

  type Embedding = seq<real>

  /** The embedding call for a batch of texts: one vector per text, or an exception. */
  type Embedder = seq<string> -> Result<seq<Embedding>, string>

  /** The text of the `ValueError` the collection raises for columns of unequal length. */
  const UnequalLengths := "Unequal lengths for fields"

  /** The persistent vector collection, as the four columns it stores. */
  class Collection {
    var ids: seq<string>
    var documents: seq<string>
    var embeddings: seq<Embedding>
    var metadatas: seq<Metadata>

    /** The columns have one entry per record. */
    predicate Valid()
      reads this
    {
      |documents| == |ids| && |embeddings| == |ids| && |metadatas| == |ids|
    }

    /** A new, empty collection. */
    constructor()
      ensures Valid() && ids == [] && documents == [] && embeddings == [] && metadatas == []
    {
      ids, documents, embeddings, metadatas := [], [], [], [];
    }

    /** `collection.count()`. */
    function Count(): (n: nat)
      reads this
      ensures n == |ids|
    {
      |ids|
    }

    /**
     * `collection.add`: the four columns of the batch must have equal lengths, and are
     * then appended after the stored records; otherwise it raises and stores nothing.
     */
    method Add(batchIds: seq<string>, batchDocs: seq<string>, batchEmbeddings: seq<Embedding>, batchMetas: seq<Metadata>)
      returns (err: Option<string>)
      requires Valid()
      modifies this
      ensures Valid()
      ensures err.None? <==> |batchDocs| == |batchIds| && |batchEmbeddings| == |batchIds| && |batchMetas| == |batchIds|
      ensures err.Some? ==> err.value == UnequalLengths && unchanged(this)
      ensures err.None? ==> (ids == old(ids) + batchIds && documents == old(documents) + batchDocs
        && embeddings == old(embeddings) + batchEmbeddings && metadatas == old(metadatas) + batchMetas)
    {
      if |batchDocs| != |batchIds| || |batchEmbeddings| != |batchIds| || |batchMetas| != |batchIds| {
        return Some(UnequalLengths);
      }
      ids := ids + batchIds;
      documents := documents + batchDocs;
      embeddings := embeddings + batchEmbeddings;
      metadatas := metadatas + batchMetas;
      err := None;
    }
  }

  // ----- batching -----

  const IndexBatchSize := 100

  /** `total_batches = (len(ids) + batch_size - 1) // batch_size`: the number of batches the loop adds. */
  lemma TotalBatchesIsBatchCount(ids: seq<string>)
    ensures |Batches(ids, IndexBatchSize)| == (|ids| + IndexBatchSize - 1) / IndexBatchSize
  {
    BatchesCount(ids, IndexBatchSize);
  }

  /**
   * The batch loop of `_ensure_indexed`: `for i in range(0, n, 100)`, embedding each
   * slice of documents and adding the slices of the three lists. It returns the ids of
   * each `add`, in order. On success the batches are the consecutive slices of at most
   * 100 ids and every entry is appended exactly once, in order; an exception leaves the
   * whole batches added before it in the collection.
   */
  method IndexInBatches(c: Collection, l: IndexLists, embed: Embedder) returns (r: Result<seq<seq<string>>, string>)
    requires c.Valid()
    requires |l.documents| == |l.ids| && |l.metadatas| == |l.ids|
    modifies c
    ensures c.Valid()
    ensures r.Success? ==> r.value == Batches(l.ids, IndexBatchSize)
    ensures r.Success? ==> (c.ids == old(c.ids) + l.ids && c.documents == old(c.documents) + l.documents
      && c.metadatas == old(c.metadatas) + l.metadatas)
    ensures r.Failure? ==> |c.ids| < |old(c.ids)| + |l.ids|
    ensures r.Failure? ==> exists j :: (0 <= j < |l.ids| && j % IndexBatchSize == 0
      && c.ids == old(c.ids) + l.ids[..j] && c.documents == old(c.documents) + l.documents[..j]
      && c.metadatas == old(c.metadatas) + l.metadatas[..j])
  {
    var n := |l.ids|;
    ghost var ids0, docs0, metas0 := c.ids, c.documents, c.metadatas;
    var added: seq<seq<string>> := [];
    var done: nat := 0;
    var i: nat := 0;
    while i < n
      invariant i % IndexBatchSize == 0
      invariant done == Min(i, n)
      invariant c.Valid()
      invariant added == Batches(l.ids[..done], IndexBatchSize)
      invariant c.ids == ids0 + l.ids[..done] && c.documents == docs0 + l.documents[..done]
        && c.metadatas == metas0 + l.metadatas[..done]
      decreases n - i
    {
      var end := Min(i + IndexBatchSize, n);
      var batchIds := l.ids[i..end];
      var batchDocs := l.documents[i..end];
      var batchMetas := l.metadatas[i..end];
      var embeddings := embed(batchDocs);
      if embeddings.Failure? {
        AddedWholeBatches(c.ids, ids0, l.ids, i);
        return Failure(embeddings.error);
      }
      var err := c.Add(batchIds, batchDocs, embeddings.value, batchMetas);
      if err.Some? {
        AddedWholeBatches(c.ids, ids0, l.ids, i);
        return Failure(err.value);
      }
      ExtendPrefix(ids0, l.ids, i, end);
      ExtendPrefix(docs0, l.documents, i, end);
      ExtendPrefix(metas0, l.metadatas, i, end);
      BatchStep(l.ids, i, end, IndexBatchSize);
      added := added + [batchIds];
      done := end;
      i := i + IndexBatchSize;
    }
    assert l.ids[..done] == l.ids && l.documents[..done] == l.documents && l.metadatas[..done] == l.metadatas;
    r := Success(added);
  }

  /** Stored records up to index `i`, then the slice from `i` to `end`: stored records up to `end`. */
  lemma ExtendPrefix<T>(base: seq<T>, s: seq<T>, i: nat, end: nat)
    requires i <= end <= |s|
    ensures (base + s[..i]) + s[i..end] == base + s[..end]
  {
    assert s[..i] + s[i..end] == s[..end];
  }

  /** The next slice of at most `size`, from a multiple of `size`, is the next batch. */
  lemma BatchStep<T>(s: seq<T>, i: nat, end: nat, size: nat)
    requires size > 0 && i % size == 0
    requires i < end <= |s| && end - i <= size
    ensures Batches(s[..i], size) + [s[i..end]] == Batches(s[..end], size)
  {
    BatchesAppend(s[..i], s[i..end], size);
    assert s[..i] + s[i..end] == s[..end];
  }

  /** The witness for a failed batch: the records stored are the whole batches before index `i`. */
  lemma AddedWholeBatches(stored: seq<string>, ids0: seq<string>, ids: seq<string>, i: nat)
    requires i < |ids| && i % IndexBatchSize == 0
    requires stored == ids0 + ids[..i]
    ensures exists j :: 0 <= j < |ids| && j % IndexBatchSize == 0 && stored == ids0 + ids[..j]
  {
  }

  /** The entries a file yields for indexing, or the first exception reading it raises. */
  function IndexPlan(file: Result<string, string>, parse: CardParser): Result<seq<IndexEntry>, string>
  {
    match file
    case Failure(e) => Failure(e)
    case Success(content) =>
      match RowCardsOf(content, parse)
      case Failure(e) => Failure(e)
      case Success(rowCards) => Traverse(rowCards, CardEntry)
  }

  /** The collection's ids, documents and metadata, as the three lists. */
  function Stored(c: Collection): IndexLists
    reads c
  {
    IndexLists(c.ids, c.documents, c.metadatas)
  }

  /**
   * `_ensure_indexed`: a collection that already holds documents is left as it is and no
   * batch is added. An empty one gets the file's entries: when reading, parsing or a
   * missing key raises, before anything is added; otherwise every entry in card order,
   * in batches of at most 100.
   */
  method EnsureIndexed(c: Collection, file: Result<string, string>, parse: CardParser, embed: Embedder)
    returns (r: Result<seq<seq<string>>, string>)
    requires c.Valid()
    modifies c
    ensures c.Valid()
    ensures old(c.Count()) > 0 ==> r == Success([]) && unchanged(c)
    ensures old(c.Count()) == 0 && IndexPlan(file, parse).Failure? ==> r == Failure(IndexPlan(file, parse).error) && unchanged(c)
    ensures old(c.Count()) == 0 && r.Success? ==>
      IndexPlan(file, parse).Success? && Aligned(Stored(c), IndexPlan(file, parse).value)
      && r.value == Batches(c.ids, IndexBatchSize)
    ensures old(c.Count()) == 0 && r.Failure? && c.Count() > 0 ==>
      IndexPlan(file, parse).Success? && c.Count() < |IndexPlan(file, parse).value|
  {
    if c.Count() > 0 {
      return Success([]);
    }
    r := IndexFile(c, file, parse, embed);
  }

  /** The branch of `_ensure_indexed` for an empty collection. */
  method IndexFile(c: Collection, file: Result<string, string>, parse: CardParser, embed: Embedder)
    returns (r: Result<seq<seq<string>>, string>)
    requires c.Valid() && c.ids == []
    modifies c
    ensures c.Valid()
    ensures IndexPlan(file, parse).Failure? ==> r == Failure(IndexPlan(file, parse).error) && unchanged(c)
    ensures r.Success? ==>
      IndexPlan(file, parse).Success? && Aligned(Stored(c), IndexPlan(file, parse).value)
      && r.value == Batches(c.ids, IndexBatchSize)
    ensures r.Failure? && |c.ids| > 0 ==>
      IndexPlan(file, parse).Success? && |c.ids| < |IndexPlan(file, parse).value|
  {
    var rowCards := LoadRowCards(file, parse);
    if rowCards.Failure? {
      return Failure(rowCards.error);
    }
    assert IndexPlan(file, parse) == Traverse(rowCards.value, CardEntry);
    r := IndexCards(c, rowCards.value, embed);
  }

  /** The card loop and then the batch loop, for the cards of a file that was read and parsed. */
  method IndexCards(c: Collection, rowCards: seq<RowCard>, embed: Embedder)
    returns (r: Result<seq<seq<string>>, string>)
    requires c.Valid() && c.ids == []
    modifies c
    ensures c.Valid()
    ensures Traverse(rowCards, CardEntry).Failure? ==> r == Failure(Traverse(rowCards, CardEntry).error) && unchanged(c)
    ensures r.Success? ==>
      Traverse(rowCards, CardEntry).Success? && Aligned(Stored(c), Traverse(rowCards, CardEntry).value)
      && r.value == Batches(c.ids, IndexBatchSize)
    ensures r.Failure? && |c.ids| > 0 ==>
      Traverse(rowCards, CardEntry).Success? && |c.ids| < |Traverse(rowCards, CardEntry).value|
  {
    var lists := BuildIndexLists(rowCards);
    if lists.Failure? {
      return Failure(lists.error);
    }
    var l := lists.value;
    assert |l.ids| == |Traverse(rowCards, CardEntry).value| by {
      TraverseMeaning(rowCards, CardEntry);
    }
    r := IndexInBatches(c, l, embed);
    if r.Success? {
      assert Stored(c) == l;
    }
  }

  // ----- search and ask_with_gpt -----

  /** What the nearest-neighbour query returns: one list per query embedding; `distances` may be absent. */
  datatype QueryResults = QueryResults(
    ids: seq<seq<string>>, documents: seq<seq<string>>, metadatas: seq<seq<Metadata>>,
    distances: Option<seq<seq<real>>>)

  /** `collection.query(query_embeddings=[e], n_results=top_k)` is not modelled; it is a parameter. */
  type QueryRunner = (Embedding, int) -> Result<QueryResults, string>

  datatype Match = Match(clienteId: string, resumen: string, metadata: Metadata, distance: Option<real>)

  /** The text of Python's `IndexError` on a list. */
  const IndexErrorText := "list index out of range"

  /** Every column of the first result list reaches index `k`. */
  predicate HasRow(q: QueryResults, k: nat)
  {
    |q.ids| > 0 && k < |q.ids[0]|
    && |q.documents| > 0 && k < |q.documents[0]|
    && |q.metadatas| > 0 && k < |q.metadatas[0]|
    && (q.distances.Some? ==> |q.distances.value| > 0 && k < |q.distances.value[0]|)
  }

  /** The loop over `range(len(results['ids'][0]))` never indexes out of range. */
  predicate WellFormed(q: QueryResults)
  {
    |q.ids| > 0 && forall k: nat :: k < |q.ids[0]| ==> HasRow(q, k)
  }

  /** The match built from position `k` of the first result list. */
  function MatchAt(q: QueryResults, k: nat): Match
    requires HasRow(q, k)
  {
    Match(q.ids[0][k], q.documents[0][k], q.metadatas[0][k],
      if q.distances.Some? then Some(q.distances.value[0][k]) else None)
  }

  /**
   * The formatted matches: one per returned id, in result order, each with the
   * document, metadata and distance at the same position; the distance is absent exactly
   * when the results carry no distances. A result list too short raises `IndexError`.
   */
  function Formatted(q: QueryResults): (r: Result<seq<Match>, string>)
    ensures r.Failure? <==> !WellFormed(q)
    ensures r.Failure? ==> r.error == IndexErrorText
    ensures r.Success? ==> (|r.value| == |q.ids[0]|
      && forall k: nat :: k < |r.value| ==> HasRow(q, k) && r.value[k] == MatchAt(q, k))
    ensures r.Success? ==> forall k :: 0 <= k < |r.value| ==> (r.value[k].distance.None? <==> q.distances.None?)
  {
    if WellFormed(q) then Success(seq(|q.ids[0]|, (k: int) requires 0 <= k < |q.ids[0]| && WellFormed(q) => MatchAt(q, k)))
    else Failure(IndexErrorText)
  }

  /** The formatting loop of `search`, appending one match per position. */
  method FormatMatches(q: QueryResults) returns (r: Result<seq<Match>, string>)
    ensures r == Formatted(q)
  {
    if |q.ids| == 0 {
      return Failure(IndexErrorText);
    }
    var n := |q.ids[0]|;
    var matches: seq<Match> := [];
    var i := 0;
    while i < n
      invariant 0 <= i <= n
      invariant |matches| == i
      invariant forall k: nat :: k < i ==> HasRow(q, k) && matches[k] == MatchAt(q, k)
    {
      if !HasRow(q, i) {
        assert !WellFormed(q);
        return Failure(IndexErrorText);
      }
      matches := matches + [MatchAt(q, i)];
      i := i + 1;
    }
    assert WellFormed(q);
    assert Formatted(q).value == matches;
    r := Success(matches);
  }

  /**
   * `search`: the query's embedding (the first of a one-text batch), the nearest-neighbour
   * query with `top_k`, then the formatted matches; any exception on the way is the result.
   */
  function SearchResult(query: string, topK: int, embed: Embedder, run: QueryRunner): Result<seq<Match>, string>
  {
    match embed([query])
    case Failure(e) => Failure(e)
    case Success(es) =>
      if |es| == 0 then Failure(IndexErrorText)
      else
        match run(es[0], topK)
        case Failure(e) => Failure(e)
        case Success(q) => Formatted(q)
  }

  method Search(query: string, topK: int, embed: Embedder, run: QueryRunner) returns (r: Result<seq<Match>, string>)
    ensures r == SearchResult(query, topK, embed, run)
  {
    var es := embed([query]);
    if es.Failure? {
      return Failure(es.error);
    }
    if |es.value| == 0 {
      return Failure(IndexErrorText);
    }
    var q := run(es.value[0], topK);
    if q.Failure? {
      return Failure(q.error);
    }
    r := FormatMatches(q.value);
  }

  /** The context block of the prompt: one `Cliente <id>: <resumen>` paragraph per match. */
  function ContextText(matches: seq<Match>): string
  {
    Join(seq(|matches|, (k: int) requires 0 <= k < |matches| => "Cliente " + matches[k].clienteId + ": " + matches[k].resumen), "\n\n")
  }

  /** The chat completion for a context and a question: its content, which may be null, or an exception. */
  type Llm = (string, string) -> Result<Option<string>, string>

  datatype AskResult = AskResult(answer: Option<string>, matches: seq<Match>, contextUsed: int)

  /**
   * `ask_with_gpt`: the matches `search` returns, the model's answer over their context,
   * and `context_used` equal to the number of matches.
   */
  method AskWithGpt(query: string, topK: int, embed: Embedder, run: QueryRunner, llm: Llm) returns (r: Result<AskResult, string>)
    ensures SearchResult(query, topK, embed, run).Failure? ==> r == Failure(SearchResult(query, topK, embed, run).error)
    ensures r.Success? ==> (SearchResult(query, topK, embed, run).Success?
      && r.value.matches == SearchResult(query, topK, embed, run).value
      && r.value.contextUsed == |r.value.matches|
      && llm(ContextText(r.value.matches), query).Success?
      && r.value.answer == llm(ContextText(r.value.matches), query).value)
    ensures r.Failure? && SearchResult(query, topK, embed, run).Success? ==>
      llm(ContextText(SearchResult(query, topK, embed, run).value), query).Failure?
  {
    var matches := Search(query, topK, embed, run);
    if matches.Failure? {
      return Failure(matches.error);
    }
    var answer := llm(ContextText(matches.value), query);
    if answer.Failure? {
      return Failure(answer.error);
    }
    r := Success(AskResult(answer.value, matches.value, |matches.value|));
  }

  // ----- the service -----

  datatype RagStats = RagStats(collectionName: string, totalDocuments: nat, status: string)

  /** A constructed service: its key and the collection it indexed. */
  class Rag {
    const apiKey: string
    const collectionName: string
    const collection: Collection

    constructor(apiKey: string, collection: Collection)
      ensures this.apiKey == apiKey && this.collection == collection && collectionName == CollectionName
    {
      this.apiKey := apiKey;
      this.collection := collection;
      collectionName := CollectionName;
    }

    /** `get_stats`: the document count, and 'ready' exactly when it is positive, 'empty' otherwise. */
    function GetStats(): (s: RagStats)
      reads collection
      ensures s.collectionName == collectionName && s.totalDocuments == collection.Count()
      ensures s.status == "ready" <==> s.totalDocuments > 0
      ensures s.status == "empty" <==> s.totalDocuments == 0
    {
      var count := collection.Count();
      RagStats(collectionName, count, if count > 0 then "ready" else "empty")
    }
  }

  /**
   * `RAGService.__init__`: without a key it raises before touching the collection;
   * otherwise it indexes the collection if empty, and an indexing exception escapes.
   */
  method NewRag(explicitKey: Option<string>, envKey: Option<string>, c: Collection,
                file: Result<string, string>, parse: CardParser, embed: Embedder)
    returns (r: Result<Rag, string>)
    requires c.Valid()
    modifies c
    ensures c.Valid()
    ensures ResolveApiKey(explicitKey, envKey).Failure? ==> r == Failure(MissingKeyMessage) && unchanged(c)
    ensures r.Success? ==> (fresh(r.value) && r.value.collection == c
      && ResolveApiKey(explicitKey, envKey) == Success(r.value.apiKey))
    ensures old(c.Count()) > 0 && ResolveApiKey(explicitKey, envKey).Success? ==> r.Success? && unchanged(c)
    ensures old(c.Count()) == 0 && r.Success? ==>
      IndexPlan(file, parse).Success? && Aligned(Stored(c), IndexPlan(file, parse).value)
    ensures old(c.Count()) == 0 && r.Failure? && c.Count() > 0 ==>
      IndexPlan(file, parse).Success? && c.Count() < |IndexPlan(file, parse).value|
  {
    var key := ResolveApiKey(explicitKey, envKey);
    if key.Failure? {
      return Failure(key.error);
    }
    var indexed := EnsureIndexed(c, file, parse, embed);
    if indexed.Failure? {
      return Failure(indexed.error);
    }
    var rag := new Rag(key.value, c);
    r := Success(rag);
  }

  /**
   * A construction that fails while indexing, after some batches were added, leaves a
   * non-empty but incomplete collection; the next construction then skips indexing and
   * keeps the partial index as it is.
   */
  method RetryAfterPartialIndex(key: string, c: Collection, file: Result<string, string>, parse: CardParser,
                                firstEmbed: Embedder, secondEmbed: Embedder)
    returns (first: Result<Rag, string>, partial: nat, second: Result<Rag, string>)
    requires key != "" && c.Valid() && c.Count() == 0
    modifies c
    ensures first.Failure? && partial > 0 ==>
      IndexPlan(file, parse).Success? && partial < |IndexPlan(file, parse).value|
      && second.Success? && second.value.collection == c && c.Count() == partial
  {
    first := NewRag(Some(key), None, c, file, parse, firstEmbed);
    partial := c.Count();
    second := NewRag(Some(key), None, c, file, parse, secondEmbed);
  }
}
