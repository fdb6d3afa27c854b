/**
 * `LanceDbVectorIndex` (lib.rs lines 35-102 and 179-288): the adapter value,
 * `build_query`, and the two searches end to end. The embedding model and the
 * LanceDB table are external: each is modelled by the outcomes of the calls the
 * adapter makes on it, so a failure of theirs is an input, not a guess.
 */
module Index {
  import opened Wrappers
  import opened Floats
  import opened Errors
  import P = Params
  import opened Query
  import opened Rows

  /** What `embed_text` returns: the embedded text and its vector. */
  datatype Embedding = Embedding(document: string, vec: seq<F64>)

  /** The embedding model, as the one call the adapter makes on it. */
  datatype EmbeddingModel = EmbeddingModel(embedText: string -> Result<Embedding, EmbedError>)

  /**
   * The LanceDB table, as the calls the adapter makes on it:
   * `vectorSearch(v)` is `vector_seizzyh(v)` (and `query().nearest_to(v)`): a
   * fresh vector query or the client's refusal of the vector;
   * `nonEmbeddingColumns` is `schema().await` followed by `filter_embeddings()`;
   * `executeQuery(q)` is `q.execute_query().await`: the rows, or an error.
   */
  datatype Table = Table(
    vectorSearch: seq<F64> -> Result<VectorQuery, LanceDbError>,
    nonEmbeddingColumns: Result<seq<string>, LanceDbError>,
    executeQuery: VectorQuery -> Result<seq<Value>, VectorStoreError>)

  /** `LanceDbVectorIndex`: immutable after construction. */
  datatype LanceDbVectorIndex = LanceDbVectorIndex(
    model: EmbeddingModel,
    table: Table,
    idField: string,
    seizzyhParams: P.SeizzyhParams)

  /**
   * `build_query`: threads `query` through the conditional builder calls
   * driven by the index's parameters. The result is the input query with
   * exactly the calls `ParamOps` lists appended; nothing else about it changes.
   */
  method BuildQuery(index: LanceDbVectorIndex, query: VectorQuery) returns (q: VectorQuery)
    ensures q.vector == query.vector && q.limit == query.limit && q.columns == query.columns
    ensures q.ops == query.ops + ParamOps(index.seizzyhParams)
    ensures q == Built(index, query)
  {
    var p := index.seizzyhParams;
    q := query;
    ghost var applied: seq<Op> := [];
    if p.distanceType.Some? {
      q, applied := Pushed(q, query.ops, applied, DistanceType(p.distanceType.value));
    }
    assert applied == DistanceStage(p);
    if p.seizzyhType == Some(P.Flat) {
      q, applied := Pushed(q, query.ops, applied, BypassVectorIndex);
    }
    if p.seizzyhType == Some(P.Approximate) {
      if p.nprobes.Some? {
        q, applied := Pushed(q, query.ops, applied, NProbes(p.nprobes.value));
      }
      if p.refineFactor.Some? {
        q, applied := Pushed(q, query.ops, applied, RefineFactor(p.refineFactor.value));
      }
    }
    assert applied == DistanceStage(p) + SearchStage(p);
    if p.postFilter == Some(true) {
      q, applied := Pushed(q, query.ops, applied, PostFilter);
    }
    if p.column.Some? {
      q, applied := Pushed(q, query.ops, applied, Column(p.column.value));
    }
    assert applied == ParamOps(p);
  }

  /** One builder call on `q`: `op` is appended to its log, and to the ghost record of calls made so far. */
  method Pushed(q: VectorQuery, ghost base: seq<Op>, ghost applied: seq<Op>, op: Op) returns (q': VectorQuery, ghost applied': seq<Op>)
    requires q.ops == base + applied
    ensures q'.vector == q.vector && q'.limit == q.limit && q'.columns == q.columns
    ensures q'.ops == q.ops + [op] && applied' == applied + [op] && q'.ops == base + applied'
  {
    q' := q.(ops := q.ops + [op]);
    applied' := applied + [op];
  }

  /**
   * The configured query `build_query` produces, as a value: the searches
   * below are functions and use this; `BuildQuery` is proved to return it.
   */
  function Built(index: LanceDbVectorIndex, query: VectorQuery): VectorQuery {
    query.(ops := query.ops + ParamOps(index.seizzyhParams))
  }

  /**
   * The query `top_n` executes (lines 204-217): the table's vector query,
   * capped at `n`, restricted to the non-embedding columns, then configured.
   * A refused vector or an unreadable schema is a datastore error.
   */
  function TopNQuery(index: LanceDbVectorIndex, vec: seq<F64>, n: P.Usize): (r: Result<VectorQuery, VectorStoreError>)
    ensures index.table.vectorSearch(vec).Err? ==> r == Err(DatastoreError(index.table.vectorSearch(vec).error))
    ensures index.table.vectorSearch(vec).Ok? && index.table.nonEmbeddingColumns.Err? ==>
      r == Err(DatastoreError(index.table.nonEmbeddingColumns.error))
    ensures index.table.vectorSearch(vec).Ok? && index.table.nonEmbeddingColumns.Ok? ==> r.Ok?
    ensures r.Ok? ==>
      && index.table.vectorSearch(vec).Ok? && index.table.nonEmbeddingColumns.Ok?
      && r.value.vector == index.table.vectorSearch(vec).value.vector
      && r.value.limit == Some(n)
      && r.value.columns == Some(index.table.nonEmbeddingColumns.value)
      && r.value.ops == index.table.vectorSearch(vec).value.ops + ParamOps(index.seizzyhParams)
  {
    match index.table.vectorSearch(vec)
    case Err(e) => Err(LanceDbToIzzyError(e))
    case Ok(q0) =>
      match index.table.nonEmbeddingColumns
      case Err(e) => Err(LanceDbToIzzyError(e))
      case Ok(columns) => Ok(Built(index, q0.(limit := Some(n), columns := Some(columns))))
  }

  /**
   * The query `top_n_ids` executes (lines 262-270): the table's vector query
   * selecting only the id column, capped at `n`, then configured.
   */
  function TopNIdsQuery(index: LanceDbVectorIndex, vec: seq<F64>, n: P.Usize): (r: Result<VectorQuery, VectorStoreError>)
    ensures r.Err? <==> index.table.vectorSearch(vec).Err?
    ensures r.Err? ==> r.error == DatastoreError(index.table.vectorSearch(vec).error)
    ensures r.Ok? ==>
      && r.value.vector == index.table.vectorSearch(vec).value.vector
      && r.value.limit == Some(n)
      && r.value.columns == Some([index.idField])
      && r.value.ops == index.table.vectorSearch(vec).value.ops + ParamOps(index.seizzyhParams)
  {
    match index.table.vectorSearch(vec)
    case Err(e) => Err(LanceDbToIzzyError(e))
    case Ok(q0) => Ok(Built(index, q0.(columns := Some([index.idField]), limit := Some(n))))
  }

  /** The backend honours `limit`: an executed query capped at `m` returns at most `m` rows. */
  ghost predicate HonoursLimit(table: Table) {
    forall q: VectorQuery :: q.limit.Some? && table.executeQuery(q).Ok? ==> |table.executeQuery(q).value| <= q.limit.value
  }

  /**
   * `top_n`: embed the text, build and run the query, decode the rows. Each
   * stage's failure comes back unchanged (the embedding's as an embedding
   * error); when every stage succeeds the result is the decoding of the rows
   * the backend returned for the configured query, so a payload that does not
   * decode fails the whole call with a JSON error.
   */
  function TopN<T>(index: LanceDbVectorIndex, query: string, n: P.Usize, asF64: JsonNumber -> Option<F64>,
                   fromValue: Value -> Result<T, SerdeJsonError>): (r: Result<seq<(F64, string, T)>, VectorStoreError>)
    ensures index.model.embedText(query).Err? ==> r == Err(EmbeddingError(index.model.embedText(query).error))
    ensures index.model.embedText(query).Ok? ==>
      var q := TopNQuery(index, index.model.embedText(query).value.vec, n);
      && (q.Err? ==> r == Err(q.error))
      && (q.Ok? && index.table.executeQuery(q.value).Err? ==> r == Err(index.table.executeQuery(q.value).error))
      && (q.Ok? && index.table.executeQuery(q.value).Ok? ==>
            && r == DecodeTopN(index.table.executeQuery(q.value).value, index.idField, asF64, fromValue)
            && (r.Err? ==> r.error.JsonError?))
  {
    match index.model.embedText(query)
    case Err(e) => Err(EmbeddingError(e))
    case Ok(embedding) =>
      match TopNQuery(index, embedding.vec, n)
      case Err(e) => Err(e)
      case Ok(q) =>
        match index.table.executeQuery(q)
        case Err(e) => Err(e)
        case Ok(rows) => DecodeTopN(rows, index.idField, asF64, fromValue)
  }

  /**
   * `top_n_ids`: embed the text, build and run the id-only query, decode the
   * rows. Decoding never fails, so the call fails exactly when the embedding,
   * the vector query or its execution does, with that stage's error unchanged.
   */
  function TopNIds(index: LanceDbVectorIndex, query: string, n: P.Usize, asF64: JsonNumber -> Option<F64>): (r: Result<seq<(F64, string)>, VectorStoreError>)
    ensures index.model.embedText(query).Err? ==> r == Err(EmbeddingError(index.model.embedText(query).error))
    ensures r.Err? <==>
      || index.model.embedText(query).Err?
      || var q := TopNIdsQuery(index, index.model.embedText(query).value.vec, n);
         q.Err? || index.table.executeQuery(q.value).Err?
    ensures index.model.embedText(query).Ok? ==>
      var q := TopNIdsQuery(index, index.model.embedText(query).value.vec, n);
      && (q.Err? ==> r == Err(q.error))
      && (q.Ok? && index.table.executeQuery(q.value).Err? ==> r == Err(index.table.executeQuery(q.value).error))
      && (q.Ok? && index.table.executeQuery(q.value).Ok? ==>
            r == DecodeTopNIds(index.table.executeQuery(q.value).value, index.idField, asF64))
  {
    match index.model.embedText(query)
    case Err(e) => Err(EmbeddingError(e))
    case Ok(embedding) =>
      match TopNIdsQuery(index, embedding.vec, n)
      case Err(e) => Err(e)
      case Ok(q) =>
        match index.table.executeQuery(q)
        case Err(e) => Err(e)
        case Ok(rows) => DecodeTopNIds(rows, index.idField, asF64)
  }

  /**
   * `top_n` returns at most `n` records when the backend honours the cap it is
   * given: the cap is set on the executed query, and decoding keeps the count.
   */
  lemma {:induction false} TopNAtMostN<T>(index: LanceDbVectorIndex, query: string, n: P.Usize,
                                          asF64: JsonNumber -> Option<F64>, fromValue: Value -> Result<T, SerdeJsonError>)
    requires HonoursLimit(index.table)
    ensures TopN(index, query, n, asF64, fromValue).Ok? ==> |TopN(index, query, n, asF64, fromValue).value| <= n
  {
    var r := TopN(index, query, n, asF64, fromValue);
    if r.Ok? {
      var q := TopNQuery(index, index.model.embedText(query).value.vec, n).value;
      assert q.limit == Some(n);
      assert |index.table.executeQuery(q).value| <= n;
    }
  }

  /** The same bound for `top_n_ids`. */
  lemma {:induction false} TopNIdsAtMostN(index: LanceDbVectorIndex, query: string, n: P.Usize, asF64: JsonNumber -> Option<F64>)
    requires HonoursLimit(index.table)
    ensures TopNIds(index, query, n, asF64).Ok? ==> |TopNIds(index, query, n, asF64).value| <= n
  {
    var r := TopNIds(index, query, n, asF64);
    if r.Ok? {
      var q := TopNIdsQuery(index, index.model.embedText(query).value.vec, n).value;
      assert q.limit == Some(n);
      assert |index.table.executeQuery(q).value| <= n;
    }
  }

  /**
   * `build_query` reads nothing but the parameters: two indexes with equal
   * parameters configure equal input queries identically, whatever their
   * tables, models or id fields, and so do parameters that differ only in
   * what never reaches the query.
   */
  lemma {:induction false} BuiltDependsOnlyOnEffectiveParams(a: LanceDbVectorIndex, b: LanceDbVectorIndex, query: VectorQuery)
    requires Effective(a.seizzyhParams) == Effective(b.seizzyhParams)
    ensures Built(a, query) == Built(b, query)
  {
    SameOpsIffSameEffect(a.seizzyhParams, b.seizzyhParams);
  }
}
