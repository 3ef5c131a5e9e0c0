/**
 * The three conditional edges: functions from the state to the label that
 * selects the next node. They read the state and never change it.
 */
module Edges {
  import opened DataModels
  import Graders

  /** `route_question`: web search only when the router says exactly "web_search". */
  function RouteQuestion(router: string -> string, s: GraphState): (next: string)
    ensures next == "web_search" || next == "vectorstore"
    ensures next == "web_search" <==> router(s.question) == "web_search"
  {
    var source := router(s.question);
    if source == "web_search" then "web_search" else "vectorstore"
  }

  /** The router's decision depends on the current question alone. */
  lemma RouteReadsOnlyQuestion(router: string -> string, s1: GraphState, s2: GraphState)
    requires s1.question == s2.question
    ensures RouteQuestion(router, s1) == RouteQuestion(router, s2)
  {
  }

  /** A well-formed router output routes to the source it names. */
  lemma RouteFollowsDatasource(router: string -> string, s: GraphState, d: Datasource)
    requires router(s.question) == RouteQuery(d).datasource.Name()
    ensures RouteQuestion(router, s) == d.Name()
  {
  }

  /** `decide_to_generate`: rewrite the query when no document survived grading. */
  function DecideToGenerate(s: GraphState): (next: string)
    requires s.documents.Some?
    ensures next == "transform_query" || next == "generate"
    ensures next == "transform_query" <==> |s.documents.value| == 0
  {
    var filtered := s.documents.value;
    if |filtered| == 0 then "transform_query" else "generate"
  }

  /**
   * `grade_generation`: first groundedness in the documents, then, only when
   * grounded, whether the generation answers the question.
   */
  function GradeGeneration(grounding: (string, string) -> GradeHallucinations,
                           answering: (string, string) -> GradeAnswer,
                           s: GraphState): (next: string)
    requires s.documents.Some? && s.generation.Some?
    ensures next == "not_supported" || next == "useful" || next == "not_useful"
    ensures next == "not_supported" <==> !Graders.Grounded(grounding, s.documents.value, s.generation.value)
    ensures next == "useful" <==>
      Graders.Grounded(grounding, s.documents.value, s.generation.value) &&
      Graders.AnswersQuestion(answering, s.question, s.generation.value)
    ensures next == "not_useful" <==>
      Graders.Grounded(grounding, s.documents.value, s.generation.value) &&
      !Graders.AnswersQuestion(answering, s.question, s.generation.value)
  {
    var question, documents, generation := s.question, s.documents.value, s.generation.value;
    if Graders.Grounded(grounding, documents, generation) then
      if Graders.AnswersQuestion(answering, question, generation) then "useful" else "not_useful"
    else "not_supported"
  }

  /**
   * Short circuit: an ungrounded generation is "not_supported" whatever the
   * answer grader would say, so that grader is never needed.
   */
  lemma UngroundedIgnoresAnswerGrader(grounding: (string, string) -> GradeHallucinations,
                                      answering1: (string, string) -> GradeAnswer,
                                      answering2: (string, string) -> GradeAnswer,
                                      s: GraphState)
    requires s.documents.Some? && s.generation.Some?
    requires !Graders.Grounded(grounding, s.documents.value, s.generation.value)
    ensures GradeGeneration(grounding, answering1, s) == GradeGeneration(grounding, answering2, s) == "not_supported"
  {
  }
}
