/**
 * The records the Adaptive RAG core passes around: documents with open
 * metadata, the structured outputs of the router and the three graders,
 * the workflow state with its per-key update semantics, web search results
 * and the final answer record.
 */
module DataModels {
  import opened Base

  /** A metadata value; the kinds the core stores, reads or compares. */
  datatype Value = Str(s: string) | Int(i: int) | Num(r: real) | Null

  /** A retrieved or searched fragment: its text and an open metadata bag. */
  datatype Document = Document(pageContent: string, metadata: map<string, Value>)

  /** The two evidence sources a question can be routed to. */
  datatype Datasource = Vectorstore | WebSearch {
    /** The literal the router emits for this source. */
    function Name(): (r: string)
      ensures r == "vectorstore" || r == "web_search"
      ensures (r == "web_search") == WebSearch?
    {
      match this
      case Vectorstore => "vectorstore"
      case WebSearch => "web_search"
    }
  }

  /** Structured router output: the datasource is one of two literals only. */
  datatype RouteQuery = RouteQuery(datasource: Datasource)

  /** Structured grader outputs: free strings, not booleans. */
  datatype GradeDocuments = GradeDocuments(binaryScore: string)
  datatype GradeHallucinations = GradeHallucinations(binaryScore: string)
  datatype GradeAnswer = GradeAnswer(binaryScore: string)

  /** Workflow state; `None` means the key is absent from the state dictionary. */
  datatype GraphState = GraphState(
    question: string,
    generation: Option<string>,
    documents: Option<seq<Document>>)

  /** The keys a node returns; `None` means the node does not return that key. */
  datatype Update = Update(
    question: Option<string>,
    generation: Option<string>,
    documents: Option<seq<Document>>)

  /**
   * The graph's merge of a node's returned keys into the state: every
   * returned key overwrites, every other key keeps its value.
   */
  function Merge(s: GraphState, u: Update): (r: GraphState)
    ensures u.question.Some? ==> r.question == u.question.value
    ensures u.question.None? ==> r.question == s.question
    ensures u.generation.Some? ==> r.generation == u.generation
    ensures u.generation.None? ==> r.generation == s.generation
    ensures u.documents.Some? ==> r.documents == u.documents
    ensures u.documents.None? ==> r.documents == s.documents
  {
    GraphState(
      u.question.GetOr(s.question),
      if u.generation.Some? then u.generation else s.generation,
      if u.documents.Some? then u.documents else s.documents)
  }

  /** Merging the same keys twice changes nothing the first merge did not. */
  lemma MergeIdempotent(s: GraphState, u: Update)
    ensures Merge(Merge(s, u), u) == Merge(s, u)
  {
  }

  /** Once a key is present, no merge makes it absent again. */
  lemma MergeKeepsPresentKeys(s: GraphState, u: Update)
    ensures s.generation.Some? ==> Merge(s, u).generation.Some?
    ensures s.documents.Some? ==> Merge(s, u).documents.Some?
  {
  }

  /** A TypedDict entry that may be missing, present as `None`, or a string. */
  datatype Field = Missing | NoneValue | Text(s: string)

  /** One raw web search hit: `content` is required, `title` and `url` optional. */
  datatype WebSearchResult = WebSearchResult(content: string, title: Field, url: Field)

  /** The answer record handed to callers of the system. */
  datatype RAGResult = RAGResult(
    question: string,
    answer: string,
    documents: seq<Document>,
    routingDecision: string,
    transformations: seq<string>,
    searchResults: Option<seq<WebSearchResult>>,
    metadata: map<string, Value>)

  /** A `RAGResult` built from its required fields, the rest at their defaults. */
  function NewRAGResult(question: string, answer: string, documents: seq<Document>,
                        routingDecision: string, metadata: map<string, Value> := map[]): (r: RAGResult)
    ensures r.question == question && r.answer == answer && r.documents == documents
    ensures r.routingDecision == routingDecision && r.metadata == metadata
    ensures r.transformations == [] && r.searchResults == None
  {
    RAGResult(question, answer, documents, routingDecision, [], None, metadata)
  }

  /** The exceptions the core can raise. */
  datatype Raised = ValueError(message: string) | TypeError | IndexError
}
