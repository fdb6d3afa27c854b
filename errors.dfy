/**
 * The caller-visible error taxonomy of the vector store interface, and the
 * two conversions the adapter applies at its boundary (lib.rs lines 15-21).
 */
module Errors {

  /** A failure raised by the LanceDB client (`lancedb::Error`); its content is not interpreted. */
  datatype LanceDbError = LanceDbError(message: string)

  /** A failure raised by serde_json (`serde_json::Error`); its content is not interpreted. */
  datatype SerdeJsonError = SerdeJsonError(message: string)

  /** A failure raised by the embedding model; its content is not interpreted. */
  datatype EmbedError = EmbedError(message: string)

  /**
   * `VectorStoreError`: the three kinds this adapter produces. `DatastoreError`
   * boxes an arbitrary error in the source; here it carries the LanceDB error.
   */
  datatype VectorStoreError =
    | EmbeddingError(embedding: EmbedError)
    | JsonError(json: SerdeJsonError)
    | DatastoreError(datastore: LanceDbError)

  /** `lancedb_to_izzy_error`: a backend failure becomes a datastore error, carrying it unchanged. */
  function LanceDbToIzzyError(e: LanceDbError): (r: VectorStoreError)
    ensures r.DatastoreError? && r.datastore == e
  {
    DatastoreError(e)
  }

  /** `serde_to_izzy_error`: a decoding failure becomes a JSON error, carrying it unchanged. */
  function SerdeToIzzyError(e: SerdeJsonError): (r: VectorStoreError)
    ensures r.JsonError? && r.json == e
  {
    JsonError(e)
  }

  /**
   * Neither conversion loses information, and no backend failure can be
   * mistaken for a decoding failure: both maps are injective and their
   * images are disjoint.
   */
  lemma ConversionsInjectiveAndDisjoint(a: LanceDbError, b: LanceDbError, x: SerdeJsonError, y: SerdeJsonError)
    ensures LanceDbToIzzyError(a) == LanceDbToIzzyError(b) <==> a == b
    ensures SerdeToIzzyError(x) == SerdeToIzzyError(y) <==> x == y
    ensures LanceDbToIzzyError(a) != SerdeToIzzyError(x)
  {
  }
}
