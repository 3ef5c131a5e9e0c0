/** The web searcher: search-tool arguments and the conversion of hits into documents. */
module Searchers {
  import opened Base
  import opened DataModels

  /** A keyword argument handed to the search tool. */
  datatype SearchArg = Count(n: int) | Domains(domains: seq<string>) | ApiKey(key: string)

  /** Python truthiness of an optional list: present and non-empty. */
  predicate Truthy<T>(xs: Option<seq<T>>) {
    xs.Some? && |xs.value| > 0
  }

  /**
   * The search arguments: `k` is always the requested number of results; the
   * domain filters are added only when given and non-empty.
   */
  method BuildSearchArgs(numResults: int, includeDomains: Option<seq<string>>, excludeDomains: Option<seq<string>>)
    returns (args: map<string, SearchArg>)
    ensures "k" in args && args["k"] == Count(numResults)
    ensures "include_domains" in args <==> Truthy(includeDomains)
    ensures "exclude_domains" in args <==> Truthy(excludeDomains)
    ensures Truthy(includeDomains) ==> args["include_domains"] == Domains(includeDomains.value)
    ensures Truthy(excludeDomains) ==> args["exclude_domains"] == Domains(excludeDomains.value)
    ensures args.Keys <= {"k", "include_domains", "exclude_domains"}
  {
    args := map["k" := Count(numResults)];
    if Truthy(includeDomains) {
      args := args["include_domains" := Domains(includeDomains.value)];
    }
    if Truthy(excludeDomains) {
      args := args["exclude_domains" := Domains(excludeDomains.value)];
    }
  }

  /** The credential argument: present only for a non-empty key. */
  method BuildToolArgs(apiKey: Option<string>) returns (args: map<string, SearchArg>)
    ensures "api_key" in args <==> apiKey.Some? && apiKey.value != ""
    ensures "api_key" in args ==> args["api_key"] == ApiKey(apiKey.value)
    ensures args.Keys <= {"api_key"}
  {
    args := map[];
    if apiKey.Some? && apiKey.value != "" {
      args := args["api_key" := ApiKey(apiKey.value)];
    }
  }

  /** `result.get(key, default)` for an optional string entry. */
  function FieldOr(f: Field, default: string): (v: Value)
    ensures f.Missing? ==> v == Str(default)
    ensures f.NoneValue? ==> v == Null
    ensures f.Text? ==> v == Str(f.s)
  {
    match f
    case Missing => Str(default)
    case NoneValue => Null
    case Text(s) => Str(s)
  }

  /**
   * One hit as a document: its content, and metadata with the source (the url,
   * or "web-search"), the title (or ""), a fixed score 1.0 and the tag "web_search".
   */
  function ToDocument(result: WebSearchResult): (d: Document)
    ensures d.pageContent == result.content
    ensures d.metadata.Keys == {"source", "title", "score", "retriever"}
    ensures d.metadata["source"] == FieldOr(result.url, "web-search")
    ensures d.metadata["title"] == FieldOr(result.title, "")
    ensures d.metadata["score"] == Num(1.0)
    ensures d.metadata["retriever"] == Str("web_search")
  {
    Document(
      result.content,
      map[
        "source" := FieldOr(result.url, "web-search"),
        "title" := FieldOr(result.title, ""),
        "score" := Num(1.0),
        "retriever" := Str("web_search")])
  }

  /** The documents for a list of hits: one per hit, in the same order. */
  function ToDocuments(results: seq<WebSearchResult>): (docs: seq<Document>)
    ensures |docs| == |results|
    ensures forall i :: 0 <= i < |results| ==> docs[i] == ToDocument(results[i])
    decreases |results|
  {
    if |results| == 0 then []
    else [ToDocument(results[0])] + ToDocuments(results[1..])
  }

  /**
   * `WebSearcher`. The search tool is an oracle: given its configured keyword
   * arguments and a query, it returns the hits.
   */
  class WebSearcher {
    const tool: (map<string, SearchArg>, string) -> seq<WebSearchResult>
    var searchArgs: map<string, SearchArg>
    var toolArgs: map<string, SearchArg>

    constructor (apiKey: Option<string>, numResults: int,
                 includeDomains: Option<seq<string>>, excludeDomains: Option<seq<string>>,
                 tool: (map<string, SearchArg>, string) -> seq<WebSearchResult>)
      ensures this.tool == tool
      ensures "k" in searchArgs && searchArgs["k"] == Count(numResults)
      ensures "include_domains" in searchArgs <==> Truthy(includeDomains)
      ensures "exclude_domains" in searchArgs <==> Truthy(excludeDomains)
      ensures Truthy(includeDomains) ==> searchArgs["include_domains"] == Domains(includeDomains.value)
      ensures Truthy(excludeDomains) ==> searchArgs["exclude_domains"] == Domains(excludeDomains.value)
      ensures searchArgs.Keys <= {"k", "include_domains", "exclude_domains"}
      ensures "api_key" in toolArgs <==> apiKey.Some? && apiKey.value != ""
      ensures "api_key" in toolArgs ==> toolArgs["api_key"] == ApiKey(apiKey.value)
      ensures toolArgs.Keys <= {"api_key"}
    {
      this.tool := tool;
      var s := BuildSearchArgs(numResults, includeDomains, excludeDomains);
      var t := BuildToolArgs(apiKey);
      searchArgs := s;
      toolArgs := t;
    }

    /** All keyword arguments the tool was built with. */
    function Arguments(): map<string, SearchArg>
      reads this
    {
      toolArgs + searchArgs
    }

    /** `search`: the query reaches the tool unchanged. */
    method Search(query: string) returns (results: seq<WebSearchResult>)
      ensures results == tool(Arguments(), query)
    {
      results := tool(toolArgs + searchArgs, query);
    }

    /** `search_to_documents`: one document per hit, in hit order. */
    method SearchToDocuments(query: string) returns (documents: seq<Document>)
      ensures documents == ToDocuments(tool(Arguments(), query))
    {
      var results := Search(query);
      documents := [];
      var i := 0;
      while i < |results|
        invariant 0 <= i <= |results|
        invariant |documents| == i
        invariant forall j :: 0 <= j < i ==> documents[j] == ToDocument(results[j])
      {
        var doc := ToDocument(results[i]);
        documents := documents + [doc];
        i := i + 1;
      }
    }
  }
}
