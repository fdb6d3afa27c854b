# izzy-lancedb: search parameters, query configuration and row decoding

A Dafny model of the LanceDB adapter of the izzy vector store interface
(`izzy-lancedb/src/lib.rs`). The model covers five parts:

- **`SeizzyhParams` and its fluent setters** (module `Params`). The record is a value. Each setter is a function from the old record to the new one.
- **`build_query`**. The LanceDB `VectorQuery` is modelled (modules `Query`, `Index`) as its vector, its result cap, its selected columns and the log of tuning calls applied to it. `Op` has one constructor per builder call: `distance_type`, `bypass_vector_index`, `nprobes`, `refine_factor`, `postfilter` and `column`. `Index.BuildQuery` is an imperative method that reassigns its query the way the source does. It is proved to append exactly `Query.ParamOps(params)`, and the lemmas in `Query` state what that call list contains and in which order.
- **Row decoding** in `top_n` and `top_n_ids` (module `Rows`). Rows are `serde_json::Value`s. `Rows.CollectMap` models `into_iter().enumerate().map(f).collect::<Result<Vec<_>,_>>()`: it maps every row in order, or it returns the first failure and no partial vector.
- **Error conversions** `lancedb_to_izzy_error` and `serde_to_izzy_error` (module `Errors`).
- **The two searches end to end** (module `Index`). The embedding model and the LanceDB table are not interpreted. Each is given as the outcomes of the calls the adapter makes on it:
  - the embedding model by its `embed_text` result,
  - the table by `vector_seizzyh`/`nearest_to`, by the schema filtered by `filter_embeddings`, and by `execute_query`.

The source's own identifiers are kept, spelling included: `SeizzyhParams`, `SeizzyhType`, `seizzyh_type`.

Some points where the model is tied to the code as written:

- The two decoders read different score keys. `top_n` reads `"_distance"` and `top_n_ids` reads `"distance"`, so a row carrying only `_distance` scores 0.0 in `top_n_ids`. `Rows.WorkedRows` proves this for a concrete row.
- A row with no string id gets `unknown{i}` from `top_n` and `""` from `top_n_ids`.
- The search strategies are `Flat` and `Approximate`, as in the code. The source's comment on `Flat` (lib.rs line 108) says it is also called ENN or kNN.
- `nprobes` and `refine_factor` are any `usize` and any `u32`, zero included, as in the code. No positivity is checked.
- `post_filter(false)` is stored as `Some(false)`. It issues no call, exactly like an unset flag.
- Numbers are never computed with. `f64` is kept as a bit pattern (`Floats.F64`, where 0.0 is all bits zero), and `Number::as_f64` and `serde_json::from_value` are function parameters.

## Model

| member | source | states |
|---|---|---|
| `Errors.LanceDbToIzzyError` | izzy-lancedb/src/lib.rs:15-17 | a LanceDB error becomes `DatastoreError` carrying that error unchanged |
| `Errors.SerdeToIzzyError` | izzy-lancedb/src/lib.rs:19-21 | a serde_json error becomes `JsonError` carrying that error unchanged |
| `Errors.ConversionsInjectiveAndDisjoint` | izzy-lancedb/src/lib.rs:15-21 | both conversions are injective (no information lost) and no backend error maps to the same value as a decoding error |
| `Params.Default` | izzy-lancedb/src/lib.rs:119-127 | the derived default leaves every one of the six fields unset |
| `Params.SetDistanceType` | izzy-lancedb/src/lib.rs:133-136 | the distance type becomes `Some(d)`; every other field is unchanged |
| `Params.SetSeizzyhType` | izzy-lancedb/src/lib.rs:141-144 | the search type becomes `Some(t)`; every other field is unchanged |
| `Params.SetNProbes` | izzy-lancedb/src/lib.rs:149-152 | nprobes becomes `Some(n)` whatever the search type; every other field is unchanged |
| `Params.SetRefineFactor` | izzy-lancedb/src/lib.rs:157-160 | the refine factor becomes `Some(k)` whatever the search type; every other field is unchanged |
| `Params.SetPostFilter` | izzy-lancedb/src/lib.rs:165-168 | the post-filter flag becomes `Some(b)` (false included); every other field is unchanged |
| `Params.SetColumn` | izzy-lancedb/src/lib.rs:173-176 | the column becomes `Some(c)`; every other field is unchanged |
| `Params.LaterSetterWins` | izzy-lancedb/src/lib.rs:133-176 | for each setter, a later call overwrites an earlier one: only the last value survives |
| `Params.SettersCommute` | izzy-lancedb/src/lib.rs:129-177 | any two setter calls on different fields commute |
| `Params.KnobsStoredWithoutSearchType` | izzy-lancedb/src/lib.rs:146-160 | no cross-field validation: nprobes and refine factor are stored on any record, the default included, and leave the search type as it was |
| `Index.BuildQuery` | izzy-lancedb/src/lib.rs:66-102 | the configured query keeps the input's vector, cap and columns, and its call log is the input's followed by exactly `ParamOps(params)`, so the output depends only on the parameters and the input query; it equals `Built(index, query)`, the value the searches use |
| `Query.ParamOpsInPipelineOrder` | izzy-lancedb/src/lib.rs:76-99 | the calls appear in the fixed order distance type, bypass or (nprobes, refine factor), post-filter, column, each kind at most once |
| `Query.DefaultIssuesNothing` | izzy-lancedb/src/lib.rs:66-102 | with default parameters `build_query` issues no builder call |
| `Query.UnsetFieldsIssueNothing` | izzy-lancedb/src/lib.rs:76-99 | the metric call is issued with `d` iff the distance type is `Some(d)`, the column call with `c` iff the column is `Some(c)`; no search type issues no bypass, nprobes or refine call |
| `Query.FlatBypassesIndex` | izzy-lancedb/src/lib.rs:80-82 | a flat search issues `bypass_vector_index` and never nprobes or refine factor, even when set |
| `Query.ApproximateAppliesKnobs` | izzy-lancedb/src/lib.rs:84-91 | an approximate search issues `nprobes(n)` iff nprobes is `Some(n)`, `refine_factor(k)` iff it is `Some(k)`, nprobes before refine factor, and never bypasses the index |
| `Query.PostFilterOnlyWhenTrue` | izzy-lancedb/src/lib.rs:93-95 | `postfilter` is issued iff the flag is `Some(true)`; `Some(false)` and `None` issue the same calls |
| `Query.KnobsIgnoredUnlessApproximate` | izzy-lancedb/src/lib.rs:80-91 | setting nprobes or refine factor without an approximate search changes nothing in the issued calls |
| `Query.ReadBackParamOps` | izzy-lancedb/src/lib.rs:66-102 | replaying the issued calls as setter calls on the default record gives back exactly the effective part of the parameters |
| `Query.ParamOpsOfEffective` | izzy-lancedb/src/lib.rs:66-102 | the parameters and their effective part issue the same calls |
| `Query.SameOpsIffSameEffect` | izzy-lancedb/src/lib.rs:66-102 | two parameter records issue the same calls if and only if their effective parts are equal |
| `Index.BuiltDependsOnlyOnEffectiveParams` | izzy-lancedb/src/lib.rs:66-74 | two indexes whose parameters have equal effective parts configure any input query identically, whatever their table, model or id field |
| `Rows.Get` | izzy-lancedb/src/lib.rs:224-228 | `Value::get` finds a field exactly when the value is an object holding that key, and returns that field |
| `Rows.DecimalString` | izzy-lancedb/src/lib.rs:230 | the index in `unknown{i}` is written as a non-empty string of decimal digits with no leading zero |
| `Rows.DecimalRoundTrip` | izzy-lancedb/src/lib.rs:230 | reading the decimal string of `i` back gives `i` |
| `Rows.UnknownIdsDistinct` | izzy-lancedb/src/lib.rs:228-231 | placeholder ids `unknown{i}` and `unknown{j}` are equal iff `i == j` |
| `Rows.CollectMap` | izzy-lancedb/src/lib.rs:220-235 | collecting succeeds iff every row maps to `Ok`; then one element per row in row order; otherwise the error of the first failing row |
| `Rows.DecodeTopN` | izzy-lancedb/src/lib.rs:220-235 | succeeds iff every row's payload decodes; element `i` is (score from `"_distance"` if a number there, else 0.0; the string under the id field, else `unknown{i}`; the decoded payload); otherwise `JsonError` of the first failing row, no partial vector |
| `Rows.DecodeTopNIds` | izzy-lancedb/src/lib.rs:273-286 | always succeeds with one pair per row in row order: score from `"distance"` if a number there, else 0.0; the string under the id field, else `""` |
| `Rows.FallbacksPerVariant` | izzy-lancedb/src/lib.rs:222-283 | a row with no string id gets `unknown{i}` from `top_n` but `""` from `top_n_ids`; an absent or non-numeric score key gives 0.0 in each variant |
| `Rows.WorkedRows` | izzy-lancedb/src/lib.rs:220-286 | `{"_distance": 0.42, "id": "rec-1", "text": "hello"}` decodes to `(0.42, "rec-1", payload)`; `{"_distance": 0.1}` at position 3 gets `unknown3` from `top_n` and `(0.0, "")` from `top_n_ids` |
| `Index.TopNQuery` | izzy-lancedb/src/lib.rs:204-217 | a refused vector or an unreadable schema is a `DatastoreError` carrying that error; when both succeed there is a query, and it keeps the vector search's vector, is capped at `n`, selects the non-embedding columns and carries `ParamOps(params)` after the table's own calls |
| `Index.TopNIdsQuery` | izzy-lancedb/src/lib.rs:262-270 | fails iff the vector is refused (as `DatastoreError` carrying that error); otherwise the query keeps the vector search's vector, is capped at `n`, selects only the id column and carries `ParamOps(params)` |
| `Index.TopN` | izzy-lancedb/src/lib.rs:197-236 | an embedding failure comes back unchanged as `EmbeddingError`; a query-construction or execution failure comes back unchanged; when every stage succeeds the result is the decoding of the returned rows, whose only failure is a `JsonError` |
| `Index.TopNIds` | izzy-lancedb/src/lib.rs:255-287 | fails iff embedding, the vector query or its execution fails (decoding never does), each with that stage's error unchanged; a success is the decoding of the returned rows |
| `Index.TopNAtMostN` | izzy-lancedb/src/lib.rs:204-236 | if the backend honours the cap it is given, `top_n` returns at most `n` records |
| `Index.TopNIdsAtMostN` | izzy-lancedb/src/lib.rs:262-287 | if the backend honours the cap it is given, `top_n_ids` returns at most `n` pairs |

## Left out

- `LanceDbVectorIndex::new` (lines 50-62): it only stores its arguments and always returns `Ok`. The datatype `Index.LanceDbVectorIndex` stands for the constructed value.
- Embedding (`embed_text`, lines 202 and 260): it is an asynchronous external call. It is modelled as a function from the query text to an embedding or an error. The embedding's values are not interpreted.
- LanceDB query execution, `limit` and `select` semantics, and schema introspection (lines 204-219 and 262-272): these are external calls. The model records the cap and the selected columns on the query.
  - `filter_embeddings` and `execute_query` are in `utils`, which is not part of this model. Their results are inputs.
  - That at most `n` rows come back is an assumption about the backend (`Index.HonoursLimit`), not a proved fact.
- `top_n_ids` calls `select` before `nearest_to` (lines 263-266). This is modelled as the columns being set on the vector query that `nearest_to` produces; the order of those two calls is not recorded.
- `serde_json::from_value` and `Number::as_f64`: they are uninterpreted function parameters. No floating-point arithmetic is modelled.
- `async`, `Send`/`Sync` and concurrent use: the adapter holds no mutable state, so everything is modelled as pure functions of its inputs.
- Other variants of `VectorStoreError` and the boxed `dyn Error` inside `DatastoreError`: the model has only the three kinds this file produces, and a datastore error carries the LanceDB error itself.
- The contents of `lancedb::Error`, `serde_json::Error` and the embedding error: each is an opaque message.
