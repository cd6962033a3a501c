/**
  `_call_tool_direct`: the two tools the JSON-RPC shim serves itself,
  `qdrant-store` and `qdrant-find`. Every raised `ValueError`, and every failure
  of the connector, is an `Err` carrying the message `str(exc)` would give.
 */
module Tools {
  import opened Results
  import opened Json
  import opened Backend

  const StoreTool := "qdrant-store"
  const FindTool := "qdrant-find"

  const InformationRequired := "information is required"
  const QueryRequired := "query is required"
  const CollectionRequired := "collection_name is required when no default is set"
  const NoMatches := "No matching entries."

  /** `collection_name or default`, rejected when the outcome is falsy. */
  function ResolveCollection(explicit: Json, default: Option<string>): (r: Result<Json, string>)
    ensures r.Ok? ==> IsTruthy(r.value)
    ensures IsTruthy(explicit) ==> r == Ok(explicit)
    ensures !IsTruthy(explicit) && default.Some? && default.value != "" ==> r == Ok(Str(default.value))
    ensures !IsTruthy(explicit) && (default.None? || default.value == "") ==> r == Err(CollectionRequired)
  {
    var collection := Or(explicit, OfOption(default));
    if !IsTruthy(collection) then Err(CollectionRequired) else Ok(collection)
  }

  /** The single block confirming a store. */
  function Remembered(information: Json, collection: Json, show: Json -> string): string {
    "Remembered: " + Display(information, show) + " in collection " + Display(collection, show)
  }

  /** The `qdrant-store` branch. */
  function Store(srv: Server, args: Json): (r: Result<seq<string>, string>)
    ensures !args.Obj? ==> r == Err(NoGetAttribute(args))
    ensures args.Obj? && !IsTruthy(Get(args.fields, "information")) ==> r == Err(InformationRequired)
    ensures args.Obj? && IsTruthy(Get(args.fields, "information")) &&
            ResolveCollection(Get(args.fields, "collection_name"), srv.defaultCollection).Err? ==>
              r == Err(CollectionRequired)
    ensures r.Ok? ==>
              var information := Get(args.fields, "information");
              var collection := ResolveCollection(Get(args.fields, "collection_name"), srv.defaultCollection);
              && args.Obj? && IsTruthy(information) && collection.Ok?
              && srv.store(Entry(information, Get(args.fields, "metadata")), collection.value) == Pass
              && r.value == [Remembered(information, collection.value, srv.show)]
    ensures r.Err? && args.Obj? && IsTruthy(Get(args.fields, "information")) &&
            ResolveCollection(Get(args.fields, "collection_name"), srv.defaultCollection).Ok? ==>
              srv.store(Entry(Get(args.fields, "information"), Get(args.fields, "metadata")),
                        ResolveCollection(Get(args.fields, "collection_name"), srv.defaultCollection).value)
              == Fail(r.error)
  {
    if !args.Obj? then Err(NoGetAttribute(args))
    else
      var information := Get(args.fields, "information");
      if !IsTruthy(information) then Err(InformationRequired)
      else
        var metadata := Get(args.fields, "metadata");
        var collection :- ResolveCollection(Get(args.fields, "collection_name"), srv.defaultCollection);
        match srv.store(Entry(information, metadata), collection)
        case Fail(e) => Err(e)
        case Pass => Ok([Remembered(information, collection, srv.show)])
  }

  /** `models.Filter(**query_filter) if query_filter else None`. */
  function BuildFilter(srv: Server, queryFilter: Json): (r: Result<Option<NativeFilter>, string>)
    ensures !IsTruthy(queryFilter) ==> r == Ok(None)
    ensures IsTruthy(queryFilter) && srv.makeFilter(queryFilter).Err? ==> r == Err(srv.makeFilter(queryFilter).error)
    ensures IsTruthy(queryFilter) && srv.makeFilter(queryFilter).Ok? ==> r == Ok(Some(srv.makeFilter(queryFilter).value))
    ensures r.Ok? && r.value.Some? ==> IsTruthy(queryFilter) && srv.makeFilter(queryFilter) == Ok(r.value.value)
  {
    if !IsTruthy(queryFilter) then Ok(None)
    else
      match srv.makeFilter(queryFilter)
      case Err(e) => Err(e)
      case Ok(f) => Ok(Some(f))
  }

  /** The header block of a non-empty search result. */
  function ResultsHeader(query: Json, show: Json -> string): string {
    "Results for the query '" + Display(query, show) + "'"
  }

  /** One found entry as a block; absent or empty metadata renders as `{}`. */
  function EntryBlock(entry: Entry, show: Json -> string): string {
    "<entry><content>" + Display(entry.content, show) + "</content><metadata>"
    + Display(Or(entry.metadata, EmptyObj), show) + "</metadata></entry>"
  }

  /** The blocks of the found entries, one per entry, in search order. */
  function EntryBlocks(entries: seq<Entry>, show: Json -> string): (blocks: seq<string>)
    ensures |blocks| == |entries|
    ensures forall i :: 0 <= i < |entries| ==> blocks[i] == EntryBlock(entries[i], show)
  {
    if |entries| == 0 then []
    else [EntryBlock(entries[0], show)] + EntryBlocks(entries[1..], show)
  }

  /** The answer of `qdrant-find` for the entries the search returned. */
  function FindResults(query: Json, entries: seq<Entry>, show: Json -> string): (blocks: seq<string>)
    ensures |entries| == 0 ==> blocks == [NoMatches]
    ensures |entries| > 0 ==> |blocks| == 1 + |entries| && blocks[0] == ResultsHeader(query, show)
    ensures |entries| > 0 ==> forall i :: 0 <= i < |entries| ==> blocks[i + 1] == EntryBlock(entries[i], show)
  {
    if |entries| == 0 then [NoMatches]
    else [ResultsHeader(query, show)] + EntryBlocks(entries, show)
  }

  /** The `qdrant-find` branch. */
  function Find(srv: Server, args: Json): (r: Result<seq<string>, string>)
    ensures !args.Obj? ==> r == Err(NoGetAttribute(args))
    ensures args.Obj? && !IsTruthy(Get(args.fields, "query")) ==> r == Err(QueryRequired)
    ensures args.Obj? && IsTruthy(Get(args.fields, "query")) &&
            ResolveCollection(Get(args.fields, "collection_name"), srv.defaultCollection).Err? ==>
              r == Err(CollectionRequired)
    ensures r.Ok? ==> |r.value| >= 1
    ensures r.Ok? ==>
              var query := Get(args.fields, "query");
              var collection := ResolveCollection(Get(args.fields, "collection_name"), srv.defaultCollection);
              var filter := BuildFilter(srv, Get(args.fields, "query_filter"));
              && args.Obj? && IsTruthy(query) && collection.Ok? && filter.Ok?
              && srv.search(query, collection.value, srv.searchLimit, filter.value).Ok?
              && r.value == FindResults(query, srv.search(query, collection.value, srv.searchLimit, filter.value).value, srv.show)
    ensures r.Err? && args.Obj? && IsTruthy(Get(args.fields, "query")) &&
            ResolveCollection(Get(args.fields, "collection_name"), srv.defaultCollection).Ok? ==>
              var query := Get(args.fields, "query");
              var collection := ResolveCollection(Get(args.fields, "collection_name"), srv.defaultCollection);
              var filter := BuildFilter(srv, Get(args.fields, "query_filter"));
              || filter == Err(r.error)
              || (filter.Ok? && srv.search(query, collection.value, srv.searchLimit, filter.value) == Err(r.error))
  {
    if !args.Obj? then Err(NoGetAttribute(args))
    else
      var query := Get(args.fields, "query");
      if !IsTruthy(query) then Err(QueryRequired)
      else
        var collection :- ResolveCollection(Get(args.fields, "collection_name"), srv.defaultCollection);
        var filter :- BuildFilter(srv, Get(args.fields, "query_filter"));
        var entries :- srv.search(query, collection, srv.searchLimit, filter);
        Ok(FindResults(query, entries, srv.show))
  }

  /** `_call_tool_direct(name, arguments)`: the tool table. */
  function CallTool(srv: Server, name: string, args: Json): (r: Result<seq<string>, string>)
    ensures name == StoreTool ==> r == Store(srv, args)
    ensures name == FindTool ==> r == Find(srv, args)
    ensures name != StoreTool && name != FindTool ==> r == Err("Unknown tool: " + name)
    ensures r.Ok? ==> |r.value| >= 1
  {
    if name == StoreTool then Store(srv, args)
    else if name == FindTool then Find(srv, args)
    else Err("Unknown tool: " + name)
  }

  /** A store needs `information` first: without it the collection settings never matter. */
  lemma InformationCheckedFirst(srv: Server, fields: map<string, Json>)
    requires !IsTruthy(Get(fields, "information"))
    ensures forall d :: CallTool(srv.(defaultCollection := d), StoreTool, Obj(fields)) == Err(InformationRequired)
  {
  }

  /** A find with no matches answers with exactly one block. */
  lemma NoMatchesIsOneBlock(srv: Server, args: Json)
    requires args.Obj? && IsTruthy(Get(args.fields, "query"))
    requires var c := ResolveCollection(Get(args.fields, "collection_name"), srv.defaultCollection);
             var f := BuildFilter(srv, Get(args.fields, "query_filter"));
             c.Ok? && f.Ok? && srv.search(Get(args.fields, "query"), c.value, srv.searchLimit, f.value) == Ok([])
    ensures CallTool(srv, FindTool, args) == Ok([NoMatches])
  {
  }
}
