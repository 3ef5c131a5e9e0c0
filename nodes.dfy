/**
 * The five workflow nodes. Each reads the state, calls one component and
 * returns the keys it replaces; the state itself is left to the graph's merge.
 */
module Nodes {
  import opened Base
  import opened DataModels
  import Graders
  import Generators
  import Searchers

  /** `retrieve`: the documents become the retriever's hits for the current question. */
  function RetrieveNode(retriever: string -> seq<Document>, s: GraphState): (u: Update)
    ensures u.question == Some(s.question) && u.generation.None? && u.documents.Some?
    ensures Merge(s, u) == s.(documents := Some(retriever(s.question)))
  {
    var question := s.question;
    var documents := retriever(question);
    Update(Some(question), None, Some(documents))
  }

  /** `web_search`: the documents become the web hits for the current question. */
  function WebSearchNode(search: string -> seq<WebSearchResult>, s: GraphState): (u: Update)
    ensures u.question == Some(s.question) && u.generation.None? && u.documents.Some?
    ensures Merge(s, u) == s.(documents := Some(Searchers.ToDocuments(search(s.question))))
  {
    var question := s.question;
    var documents := Searchers.ToDocuments(search(question));
    Update(Some(question), None, Some(documents))
  }

  /** `grade_documents`: the documents become their relevant subsequence. */
  function GradeDocumentsNode(grader: (string, string) -> GradeDocuments, s: GraphState): (u: Update)
    requires s.documents.Some?
    ensures u.question == Some(s.question) && u.generation.None? && u.documents.Some?
    ensures Merge(s, u) == s.(documents := Some(Graders.FilterDocuments(grader, s.documents.value, s.question)))
  {
    var question := s.question;
    var filtered := Graders.FilterDocuments(grader, s.documents.value, question);
    Update(Some(question), None, Some(filtered))
  }

  /**
   * `transform_query`: only the question is replaced, by its rewrite; the
   * documents are carried through, and become `[]` when absent.
   */
  function TransformQueryNode(rewriter: string -> string, s: GraphState): (u: Update)
    ensures u.question == Some(rewriter(s.question)) && u.generation.None? && u.documents.Some?
    ensures Merge(s, u) == s.(question := rewriter(s.question), documents := Some(s.documents.GetOr([])))
  {
    var documents := s.documents.GetOr([]);
    var better := rewriter(s.question);
    Update(Some(better), None, Some(documents))
  }

  /** `generate`: the generation is set from the question and documents, which stay as they are. */
  function GenerateNode(chain: (string, string) -> string, s: GraphState): (u: Update)
    requires s.documents.Some?
    ensures u.question == Some(s.question) && u.documents == s.documents && u.generation.Some?
    ensures Merge(s, u) == s.(generation := Some(Generators.Generate(chain, s.question, s.documents.value)))
  {
    var question := s.question;
    var documents := s.documents.value;
    var generation := Generators.Generate(chain, question, documents);
    Update(Some(question), Some(generation), Some(documents))
  }
}
