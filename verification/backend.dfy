/**
  The process-wide server the bridge reaches through the `mcp` singleton: its
  name, its Qdrant settings, its tool registry, and the Qdrant connector. The
  connector, the filter model and Python's `str()` are external, so they are
  carried as functions the model is given, not computed.
 */
module Backend {
  import opened Results
  import opened Json

  /** A stored or found record: its content and optional metadata (`None` is `Null`). */
  datatype Entry = Entry(content: Json, metadata: Json)

  /** A validated `models.Filter`, kept as the conditions it was built from. */
  datatype NativeFilter = NativeFilter(conditions: Json)

  datatype Server = Server(
    /** `mcp.name`. */
    name: string,
    /** `qdrant_settings.collection_name`, the default collection (may be unset). */
    defaultCollection: Option<string>,
    /** `qdrant_settings.search_limit`. */
    searchLimit: int,
    /** The registry's tool descriptions, as `_tool_payload` returns them. */
    toolCatalog: seq<Json>,
    /** `str(v)` for values other than strings, `None` and booleans. */
    show: Json -> string,
    /** `qdrant_connector.store(entry, collection_name=...)`; `Fail` carries the raised message. */
    store: (Entry, Json) -> Outcome<string>,
    /** `models.Filter(**query_filter)`; `Err` carries the validation message. */
    makeFilter: Json -> Result<NativeFilter, string>,
    /** `qdrant_connector.search(query, collection_name, limit, query_filter)`. */
    search: (Json, Json, int, Option<NativeFilter>) -> Result<seq<Entry>, string>
  )
}
