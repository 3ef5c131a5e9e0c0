/**
 * `AdaptiveRAG.query`: run the workflow on a question and turn its final
 * state into a `RAGResult`.
 */
module App {
  import opened Base
  import opened DataModels
  import Text
  import Graders
  import Searchers
  import Graph
  import GraphProperties

  /** The answer reported when the final state holds no generation. */
  const DefaultAnswer := "No answer generated"

  /** The first document's `retriever` entry is a string that mentions "vector" in any letter case. */
  predicate MentionsVector(metadata: map<string, Value>) {
    "retriever" in metadata && metadata["retriever"].Str? &&
    Text.Contains(Text.Lower(metadata["retriever"].s), "vector")
  }

  /**
   * The routing decision as written: read off the first document, which
   * raises an index error when there is none.
   */
  function RoutingDecision(documents: seq<Document>): (r: Result<string, Raised>)
    ensures r.Failure? <==> |documents| == 0
    ensures r.Failure? ==> r.error == IndexError
    ensures r.Success? ==> (r.value == "vectorstore" <==> MentionsVector(documents[0].metadata))
    ensures r.Success? ==> r.value == "vectorstore" || r.value == "web_search"
  {
    if |documents| == 0 then Failure(IndexError)
    else if MentionsVector(documents[0].metadata) then Success("vectorstore")
    else Success("web_search")
  }

  /** The web tag, in any letter case, does not mention "vector". */
  lemma WebTagNotVector()
    ensures !Text.Contains(Text.Lower("web_search"), "vector")
  {
    var tag := "web_search";
    assert tag == ['w', 'e', 'b', '_', 's', 'e', 'a', 'r', 'c', 'h'];
    forall i | 0 <= i < |tag| ensures !('A' <= tag[i] <= 'Z') && tag[i] != 'v' {
      assert i in {0, 1, 2, 3, 4, 5, 6, 7, 8, 9};
    }
    Text.LowerOfLower(tag);
    Text.MissingFirstChar(tag, "vector");
  }

  /** Web hits are tagged "web_search", so a first web document reads as the web route. */
  lemma WebDocumentsReadAsWeb(results: seq<WebSearchResult>)
    requires |results| > 0
    ensures RoutingDecision(Searchers.ToDocuments(results)) == Success("web_search")
  {
    var d := Searchers.ToDocuments(results)[0];
    assert d.metadata["retriever"] == Str("web_search");
    WebTagNotVector();
    assert !MentionsVector(d.metadata);
  }

  /**
   * A hit tagged by a hybrid retriever whose class name mentions "vector" in
   * any letter case reads as the vector-store route.
   */
  lemma TaggedVectorReadsAsVector(d: Document, rest: seq<Document>, className: string, i: nat)
    requires "retriever" in d.metadata && d.metadata["retriever"] == Str(className)
    requires Text.OccursAt(Text.Lower(className), "vector", i)
    ensures RoutingDecision([d] + rest) == Success("vectorstore")
  {
    Text.ContainsOccurs(Text.Lower(className), "vector");
  }

  /** The metadata of a result: the question the run ended with, and the one it was asked. */
  function ResultMetadata(question: string, finalState: GraphState): map<string, Value> {
    map["final_question" := Str(finalState.question), "original_question" := Str(question)]
  }

  /**
   * Result assembly as written: the generation or the default answer, the
   * documents or `[]`, the routing decision from the first document, and the
   * two questions.
   */
  function Assemble(question: string, finalState: GraphState): (r: Result<RAGResult, Raised>)
    ensures r.Failure? <==> |finalState.documents.GetOr([])| == 0
    ensures r.Failure? ==> r.error == IndexError
    ensures r.Success? ==>
      r.value.question == question &&
      r.value.answer == finalState.generation.GetOr(DefaultAnswer) &&
      r.value.documents == finalState.documents.GetOr([]) &&
      r.value.metadata.Keys == {"final_question", "original_question"} &&
      r.value.metadata["final_question"] == Str(finalState.question) &&
      r.value.metadata["original_question"] == Str(question) &&
      r.value.transformations == [] && r.value.searchResults == None
    ensures r.Success? ==> r.value.routingDecision == RoutingDecision(finalState.documents.GetOr([])).value
  {
    var answer := finalState.generation.GetOr(DefaultAnswer);
    var documents := finalState.documents.GetOr([]);
    match RoutingDecision(documents)
    case Failure(e) => Failure(e)
    case Success(routing) => Success(NewRAGResult(question, answer, documents, routing, ResultMetadata(question, finalState)))
  }

  /** The routing decision of a run: retrieval first means the vector store, anything else the web. */
  function RouteTaken(trace: seq<Graph.Step>): (r: string)
    ensures r == "vectorstore" <==> |trace| > 0 && trace[0].node == Graph.Retrieve
    ensures r == "vectorstore" || r == "web_search"
  {
    if |trace| > 0 && trace[0].node == Graph.Retrieve then "vectorstore" else "web_search"
  }

  /**
   * Result assembly with the routing decision taken from the route the run
   * followed; it never raises.
   */
  function AssembleCorrected(question: string, out: Graph.Outcome): (r: RAGResult)
    ensures r.question == question
    ensures r.answer == out.state.generation.GetOr(DefaultAnswer)
    ensures r.documents == out.state.documents.GetOr([])
    ensures r.routingDecision == RouteTaken(out.trace)
    ensures r.metadata.Keys == {"final_question", "original_question"}
    ensures r.metadata["final_question"] == Str(out.state.question)
    ensures r.metadata["original_question"] == Str(question)
    ensures r.transformations == [] && r.searchResults == None
  {
    NewRAGResult(question, out.state.generation.GetOr(DefaultAnswer), out.state.documents.GetOr([]),
                 RouteTaken(out.trace), ResultMetadata(question, out.state))
  }

  /** The corrected routing decision is the router's verdict on the question asked. */
  lemma CorrectedRoutingFollowsRouter(o: Graph.Oracles, question: string, fuel: nat)
    requires fuel > 0
    ensures AssembleCorrected(question, Graph.Exec(o, Graph.Start, Graph.InitialState(question), 0, fuel)).routingDecision ==
      (if o.route(0)(question) == "web_search" then "web_search" else "vectorstore")
  {
    var s := Graph.InitialState(question);
    Graph.ExecUnfold(o, Graph.Start, s, 0, fuel);
    GraphProperties.EntryTargets(o, s, 0);
  }

  /** A finished run reports its generation, never the default answer, and the question it was asked. */
  lemma FinishedRunAnswers(o: Graph.Oracles, question: string, fuel: nat)
    ensures var out := Graph.Exec(o, Graph.Start, Graph.InitialState(question), 0, fuel);
      out.finished ==>
        out.state.generation.Some? &&
        AssembleCorrected(question, out).answer == out.state.generation.value &&
        AssembleCorrected(question, out).question == question &&
        (Assemble(question, out.state).Success? ==> Assemble(question, out.state).value.answer == out.state.generation.value)
  {
    GraphProperties.FinishedHoldsGeneration(o, Graph.Start, Graph.InitialState(question), 0, fuel);
  }

  /** Off the web branch, the assembly as written does not raise on a finished run. */
  lemma VectorRouteAssembles(o: Graph.Oracles, question: string, fuel: nat)
    requires o.route(0)(question) != "web_search"
    ensures var out := Graph.Exec(o, Graph.Start, Graph.InitialState(question), 0, fuel);
      out.finished ==> Assemble(question, out.state).Success?
  {
    GraphProperties.VectorRouteEndsWithDocuments(o, question, fuel);
  }

  /** Oracles for a web-routed question whose search finds nothing; every verdict is "yes". */
  function EmptyWeb(): Graph.Oracles {
    Graph.Oracles(
      _ => q => "web_search",
      _ => q => [],
      _ => q => [],
      _ => (c, q) => GradeDocuments("yes"),
      _ => q => q,
      _ => (c, q) => "answer",
      _ => (c, g) => GradeHallucinations("yes"),
      _ => (q, g) => GradeAnswer("yes"))
  }

  /**
   * As written, a web search with no hits followed by an accepted answer
   * finishes with no documents, and assembling the result raises an index error.
   */
  lemma EmptySearchRaises()
    ensures var out := Graph.Exec(EmptyWeb(), Graph.Start, Graph.InitialState("q"), 0, 2);
      out.finished && out.state.documents == Some([]) && out.state.generation == Some("answer") &&
      Assemble("q", out.state) == Failure(IndexError)
  {
    var o := EmptyWeb();
    var s0 := Graph.InitialState("q");
    Graph.ExecUnfold(o, Graph.Start, s0, 0, 2);
    GraphProperties.EntryTargets(o, s0, 0);
    var s1 := Merge(s0, Graph.RunNode(o, Graph.WebSearch, 0, s0));
    assert s1 == GraphState("q", None, Some([]));
    Graph.ExecUnfold(o, Graph.After(Graph.WebSearch), s1, 1, 1);
    GraphProperties.FixedSuccessors(o, s1, 1);
    var s2 := Merge(s1, Graph.RunNode(o, Graph.Generate, 1, s1));
    assert s2 == GraphState("q", Some("answer"), Some([]));
    Graph.ExecUnfold(o, Graph.After(Graph.Generate), s2, 2, 0);
    Graders.IsYesExamples();
    GraphProperties.AfterGenerating(o, s2, 2);
  }

  /** Under the same oracles the corrected assembly reports the web route and raises nothing. */
  lemma EmptySearchCorrected()
    ensures AssembleCorrected("q", Graph.Exec(EmptyWeb(), Graph.Start, Graph.InitialState("q"), 0, 2)).routingDecision == "web_search"
  {
    CorrectedRoutingFollowsRouter(EmptyWeb(), "q", 2);
  }

  /** A document as the vector store returns it: content and loader metadata, no `retriever` tag. */
  function StoredDocument(): Document {
    Document("text", map["source" := Str("https://example.org/post")])
  }

  /** Oracles for a question routed to the vector store, which returns one untagged document; every verdict is "yes". */
  function UntaggedVector(): Graph.Oracles {
    Graph.Oracles(
      _ => q => "vectorstore",
      _ => q => [StoredDocument()],
      _ => q => [],
      _ => (c, q) => GradeDocuments("yes"),
      _ => q => q,
      _ => (c, q) => "answer",
      _ => (c, g) => GradeHallucinations("yes"),
      _ => (q, g) => GradeAnswer("yes"))
  }

  /**
   * As written, a question the router sent to the vector store is reported
   * as routed to web search, because vector-store documents carry no
   * `retriever` entry.
   */
  lemma VectorRouteReportedAsWeb()
    ensures var out := Graph.Exec(UntaggedVector(), Graph.Start, Graph.InitialState("q"), 0, 3);
      out.finished && |out.trace| > 0 && out.trace[0].node == Graph.Retrieve &&
      Assemble("q", out.state).Success? && Assemble("q", out.state).value.routingDecision == "web_search"
  {
    UntaggedVectorRun();
    assert !MentionsVector(StoredDocument().metadata);
  }

  /** Under those oracles the run retrieves first, then grades, generates and finishes with the stored document. */
  lemma UntaggedVectorRun()
    ensures var out := Graph.Exec(UntaggedVector(), Graph.Start, Graph.InitialState("q"), 0, 3);
      out.finished && |out.trace| > 0 && out.trace[0].node == Graph.Retrieve &&
      out.state == GraphState("q", Some("answer"), Some([StoredDocument()]))
  {
    var o := UntaggedVector();
    var d := StoredDocument();
    var s0 := Graph.InitialState("q");
    Graph.ExecUnfold(o, Graph.Start, s0, 0, 3);
    GraphProperties.EntryTargets(o, s0, 0);
    var s1 := Merge(s0, Graph.RunNode(o, Graph.Retrieve, 0, s0));
    assert s1 == GraphState("q", None, Some([d]));
    Graph.ExecUnfold(o, Graph.After(Graph.Retrieve), s1, 1, 2);
    GraphProperties.FixedSuccessors(o, s1, 1);
    Graders.IsYesExamples();
    assert Graders.GradeDocument(o.gradeDocument(1), d, "q");
    assert Graders.FilterDocuments(o.gradeDocument(1), [d], "q") == [d];
    var s2 := Merge(s1, Graph.RunNode(o, Graph.GradeDocuments, 1, s1));
    assert s2 == s1;
    Graph.ExecUnfold(o, Graph.After(Graph.GradeDocuments), s2, 2, 1);
    GraphProperties.AfterGrading(o, s2, 2);
    var s3 := Merge(s2, Graph.RunNode(o, Graph.Generate, 2, s2));
    assert s3 == GraphState("q", Some("answer"), Some([d]));
    Graph.ExecUnfold(o, Graph.After(Graph.Generate), s3, 3, 0);
    GraphProperties.AfterGenerating(o, s3, 3);
  }

  /** Under the same oracles the corrected assembly reports the vector store. */
  lemma VectorRouteCorrected()
    ensures AssembleCorrected("q", Graph.Exec(UntaggedVector(), Graph.Start, Graph.InitialState("q"), 0, 3)).routingDecision == "vectorstore"
  {
    CorrectedRoutingFollowsRouter(UntaggedVector(), "q", 3);
  }

  /** `AdaptiveRAG`, reduced to the workflow it queries. */
  class AdaptiveRAG {
    const workflow: Graph.AdaptiveRAGWorkflow

    constructor (oracles: Graph.Oracles)
      ensures workflow.Valid() && workflow.oracles == oracles
    {
      workflow := new Graph.AdaptiveRAGWorkflow(oracles);
    }

    /**
     * `query`: run the workflow once and assemble its final state as written,
     * which raises an index error when the run ends without documents.
     * `None` stands for a run that has not reached the exit within `fuel` nodes.
     */
    method Query(question: string, fuel: nat) returns (r: Option<Result<RAGResult, Raised>>)
      requires workflow.Valid()
      ensures var out := Graph.Exec(workflow.oracles, Graph.Start, Graph.InitialState(question), 0, fuel);
        r == if out.finished then Some(Assemble(question, out.state)) else None
      ensures var out := Graph.Exec(workflow.oracles, Graph.Start, Graph.InitialState(question), 0, fuel);
        r.Some? ==> (r.value.Failure? <==> out.state.documents.GetOr([]) == [])
    {
      var finalState, finished := workflow.Run(question, fuel);
      if finished {
        r := Some(Assemble(question, finalState));
      } else {
        r := None;
      }
    }

    /**
     * The query with the corrected assembly: one execution of the workflow,
     * whose steps give the route taken; it never raises.
     */
    method QueryCorrected(question: string, fuel: nat) returns (r: Option<RAGResult>)
      requires workflow.Valid()
      ensures var out := Graph.Exec(workflow.oracles, Graph.Start, Graph.InitialState(question), 0, fuel);
        r == if out.finished then Some(AssembleCorrected(question, out)) else None
      ensures r.Some? && fuel > 0 ==>
        r.value.routingDecision == (if workflow.oracles.route(0)(question) == "web_search" then "web_search" else "vectorstore")
    {
      var out := workflow.Execute(Graph.InitialState(question), fuel);
      if out.finished {
        r := Some(AssembleCorrected(question, out));
        CorrectedRoutingFollowsRouter(workflow.oracles, question, fuel);
      } else {
        r := None;
      }
    }
  }
}
