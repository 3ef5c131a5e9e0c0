/**
 * What the edge table and the run loop guarantee: the transition from each
 * source, the only way out, what every finished run has done, and the
 * absence of any bound on the number of steps.
 */
module GraphProperties {
  import opened Base
  import DataModels
  import Graders
  import opened Graph

  /** From the entry, "web_search" leads to the search node and every other router answer to retrieval. */
  lemma EntryTargets(o: Oracles, s: GraphState, k: nat)
    ensures Transition(o, Start, s, k) == (if o.route(k)(s.question) == "web_search" then To(WebSearch) else To(Retrieve))
    ensures Transition(o, Start, s, k) in {To(WebSearch), To(Retrieve)}
  {
    TopologyWellFormed(Start);
  }

  /** The fixed successors: search then generate, retrieve then grade, rewrite then retrieve. */
  lemma FixedSuccessors(o: Oracles, s: GraphState, k: nat)
    requires s.documents.Some?
    ensures Transition(o, After(WebSearch), s, k) == To(Generate)
    ensures Transition(o, After(Retrieve), s, k) == To(GradeDocuments)
    ensures Transition(o, After(TransformQuery), s, k) == To(Retrieve)
  {
    TopologyWellFormed(After(WebSearch));
    TopologyWellFormed(After(Retrieve));
    TopologyWellFormed(After(TransformQuery));
  }

  /** After grading: rewrite the question when nothing relevant is left, otherwise generate. */
  lemma AfterGrading(o: Oracles, s: GraphState, k: nat)
    requires s.documents.Some?
    ensures Transition(o, After(GradeDocuments), s, k) ==
      (if |s.documents.value| == 0 then To(TransformQuery) else To(Generate))
  {
    TopologyWellFormed(After(GradeDocuments));
  }

  /**
   * After generating: an ungrounded answer is generated again, a grounded one
   * that answers the question ends the run, and any other is rewritten.
   */
  lemma AfterGenerating(o: Oracles, s: GraphState, k: nat)
    requires s.documents.Some? && s.generation.Some?
    ensures Transition(o, After(Generate), s, k) ==
      if !Graders.Grounded(o.gradeHallucination(k), s.documents.value, s.generation.value) then To(Generate)
      else if Graders.AnswersQuestion(o.gradeAnswer(k), s.question, s.generation.value) then End
      else To(TransformQuery)
  {
    TopologyWellFormed(After(Generate));
  }

  /** The exit is reached only after generating, and only on a grounded answer to the question. */
  lemma EndOnlyAfterUseful(o: Oracles, src: Source, s: GraphState, k: nat)
    requires Ready(src, s)
    ensures Transition(o, src, s, k).End? <==>
      src == After(Generate) &&
      Graders.Grounded(o.gradeHallucination(k), s.documents.value, s.generation.value) &&
      Graders.AnswersQuestion(o.gradeAnswer(k), s.question, s.generation.value)
  {
    TopologyWellFormed(src);
    if src == After(Generate) {
      AfterGenerating(o, s, k);
    }
  }

  /** No edge leads back to the search node: it runs only as the first node. */
  lemma NoEdgeToSearch(o: Oracles, n: Node, s: GraphState, k: nat)
    requires Ready(After(n), s)
    ensures Transition(o, After(n), s, k) != To(WebSearch)
  {
    TopologyWellFormed(After(n));
  }

  /** A run that reaches the exit ends holding documents and a generation. */
  lemma {:induction false} FinishedHoldsGeneration(o: Oracles, src: Source, s: GraphState, k: nat, fuel: nat)
    requires Ready(src, s)
    ensures Exec(o, src, s, k, fuel).finished ==>
      Exec(o, src, s, k, fuel).state.documents.Some? && Exec(o, src, s, k, fuel).state.generation.Some?
    decreases fuel
  {
    ExecUnfold(o, src, s, k, fuel);
    match Transition(o, src, s, k)
    case End =>
      EndOnlyAfterUseful(o, src, s, k);
    case To(n) =>
      if fuel > 0 {
        var k': nat, f: nat := k + 1, fuel - 1;
        FinishedHoldsGeneration(o, After(n), DataModels.Merge(s, RunNode(o, n, k, s)), k', f);
      }
  }

  /** The steps of a run: none at the exit or without fuel, otherwise the next node's step and the rest. */
  lemma ExecTrace(o: Oracles, src: Source, s: GraphState, k: nat, fuel: nat)
    requires Ready(src, s)
    ensures Transition(o, src, s, k).End? || fuel == 0 ==> Exec(o, src, s, k, fuel).trace == []
    ensures Transition(o, src, s, k).To? && fuel > 0 ==>
      var n := Transition(o, src, s, k).node;
      var u := RunNode(o, n, k, s);
      Ready(After(n), DataModels.Merge(s, u)) &&
      Exec(o, src, s, k, fuel).trace == [Step(n, u)] + Exec(o, After(n), DataModels.Merge(s, u), k + 1, fuel - 1).trace
  {
    ExecUnfold(o, src, s, k, fuel);
  }

  /** Node `n` ran somewhere in `trace`. */
  predicate Ran(trace: seq<Step>, n: Node) {
    exists i :: 0 <= i < |trace| && trace[i].node == n
  }

  /** A node ran in a trace iff it is the first step's node or ran in the rest. */
  lemma RanCons(step: Step, rest: seq<Step>, n: Node)
    ensures Ran([step] + rest, n) <==> step.node == n || Ran(rest, n)
  {
    var tr := [step] + rest;
    assert tr[0] == step;
    if Ran(rest, n) {
      var i :| 0 <= i < |rest| && rest[i].node == n;
      assert tr[i + 1].node == n;
    }
    if Ran(tr, n) {
      var i :| 0 <= i < |tr| && tr[i].node == n;
      if i > 0 {
        assert rest[i - 1].node == n;
      }
    }
  }

  /**
   * The final generation is present exactly when the state already held one
   * or the generate node ran.
   */
  lemma {:induction false} GenerationIffGenerated(o: Oracles, src: Source, s: GraphState, k: nat, fuel: nat)
    requires Ready(src, s)
    ensures Exec(o, src, s, k, fuel).state.generation.Some? <==>
      s.generation.Some? || Ran(Exec(o, src, s, k, fuel).trace, Generate)
    decreases fuel
  {
    ExecUnfold(o, src, s, k, fuel);
    var t := Transition(o, src, s, k);
    if t.To? && fuel > 0 {
      var u := RunNode(o, t.node, k, s);
      var s' := DataModels.Merge(s, u);
      var k': nat, f: nat := k + 1, fuel - 1;
      GenerationIffGenerated(o, After(t.node), s', k', f);
      RanCons(Step(t.node, u), Exec(o, After(t.node), s', k', f).trace, Generate);
    }
  }

  /** A run of the workflow that reaches the exit has run the generate node. */
  lemma FinishedRunGenerated(o: Oracles, question: string, fuel: nat)
    ensures var out := Exec(o, Start, InitialState(question), 0, fuel);
      out.finished ==>
        out.state.generation.Some? && Ran(out.trace, Generate)
  {
    FinishedHoldsGeneration(o, Start, InitialState(question), 0, fuel);
    GenerationIffGenerated(o, Start, InitialState(question), 0, fuel);
  }

  /** Oracles under which no generation is ever both grounded and an answer. */
  ghost predicate NeverUseful(o: Oracles) {
    forall j, docs, question, generation ::
      !(Graders.Grounded(o.gradeHallucination(j), docs, generation) &&
        Graders.AnswersQuestion(o.gradeAnswer(j), question, generation))
  }

  /** Under such oracles a run never reaches the exit: it uses up whatever fuel it is given. */
  lemma {:induction false} NeverUsefulNeverFinishes(o: Oracles, src: Source, s: GraphState, k: nat, fuel: nat)
    requires Ready(src, s) && NeverUseful(o)
    ensures !Exec(o, src, s, k, fuel).finished
    ensures |Exec(o, src, s, k, fuel).trace| == fuel
    decreases fuel
  {
    ExecUnfold(o, src, s, k, fuel);
    EndOnlyAfterUseful(o, src, s, k);
    if src == After(Generate) {
      assert !(Graders.Grounded(o.gradeHallucination(k), s.documents.value, s.generation.value) &&
               Graders.AnswersQuestion(o.gradeAnswer(k), s.question, s.generation.value));
    }
    var n := Transition(o, src, s, k).node;
    if fuel > 0 {
      var k': nat, f: nat := k + 1, fuel - 1;
      NeverUsefulNeverFinishes(o, After(n), DataModels.Merge(s, RunNode(o, n, k, s)), k', f);
    }
  }

  /** Oracles whose groundedness model always answers "no"; everything else is arbitrary but fixed. */
  function Stubborn(): Oracles {
    Oracles(
      _ => q => "vectorstore",
      _ => q => [DataModels.Document("text", map[])],
      _ => q => [],
      _ => (c, q) => DataModels.GradeDocuments("yes"),
      _ => q => q,
      _ => (c, q) => "answer",
      _ => (c, g) => DataModels.GradeHallucinations("no"),
      _ => (q, g) => DataModels.GradeAnswer("yes"))
  }

  /**
   * There is no iteration bound: with a groundedness model that never says
   * "yes", the workflow runs every node it is allowed and never finishes,
   * however large the allowance.
   */
  lemma NoIterationBound(question: string, fuel: nat)
    ensures !Exec(Stubborn(), Start, InitialState(question), 0, fuel).finished
    ensures |Exec(Stubborn(), Start, InitialState(question), 0, fuel).trace| == fuel
  {
    var o := Stubborn();
    forall j, docs, q, g
      ensures !(Graders.Grounded(o.gradeHallucination(j), docs, g) &&
                Graders.AnswersQuestion(o.gradeAnswer(j), q, g))
    {
      Graders.IsYesExamples();
    }
    NeverUsefulNeverFinishes(o, Start, InitialState(question), 0, fuel);
  }

  /** After any node, the search node never runs again. */
  lemma {:induction false} NoLaterSearch(o: Oracles, n: Node, s: GraphState, k: nat, fuel: nat)
    requires Ready(After(n), s)
    ensures forall i :: 0 <= i < |Exec(o, After(n), s, k, fuel).trace| ==>
      Exec(o, After(n), s, k, fuel).trace[i].node != WebSearch
    decreases fuel
  {
    ExecUnfold(o, After(n), s, k, fuel);
    NoEdgeToSearch(o, n, s, k);
    match Transition(o, After(n), s, k)
    case End =>
    case To(m) =>
      if fuel > 0 {
        var k': nat, f: nat := k + 1, fuel - 1;
        NoLaterSearch(o, m, DataModels.Merge(s, RunNode(o, m, k, s)), k', f);
      }
  }

  /**
   * The search node runs at most once, as the first node, and only when the
   * router said "web_search".
   */
  lemma SearchOnlyFirst(o: Oracles, question: string, fuel: nat)
    ensures var out := Exec(o, Start, InitialState(question), 0, fuel);
      forall i :: 0 <= i < |out.trace| && out.trace[i].node == WebSearch ==>
        i == 0 && o.route(0)(question) == "web_search"
  {
    if fuel > 0 {
      var s := InitialState(question);
      var n := EntryNode(o, question);
      var s' := DataModels.Merge(s, RunNode(o, n, 0, s));
      EntryStep(o, question, fuel);
      var f: nat := fuel - 1;
      NoLaterSearch(o, n, s', 1, f);
      OnlyFirst(Step(n, RunNode(o, n, 0, s)), Exec(o, After(n), s', 1, f).trace, WebSearch);
    }
  }

  /** A node absent from the rest of a trace can occur only as its first step. */
  lemma OnlyFirst(step: Step, rest: seq<Step>, n: Node)
    requires forall i :: 0 <= i < |rest| ==> rest[i].node != n
    ensures forall i :: 0 <= i < |[step] + rest| && ([step] + rest)[i].node == n ==> i == 0
  {
    var tr := [step] + rest;
    forall i | 0 < i < |tr| ensures tr[i].node != n {
      assert tr[i] == rest[i - 1];
    }
  }

  /** The index of the first rewrite in a trace, or its length when there is none. */
  function FirstRewrite(trace: seq<Step>): (i: nat)
    ensures i <= |trace|
    ensures i < |trace| ==> trace[i].node == TransformQuery
    ensures forall j :: 0 <= j < i ==> trace[j].node != TransformQuery
  {
    if |trace| == 0 then 0
    else if trace[0].node == TransformQuery then 0
    else 1 + FirstRewrite(trace[1..])
  }

  /** Every step before the first rewrite ran node `n`. */
  predicate OnlyBeforeRewrite(trace: seq<Step>, n: Node) {
    forall i :: 0 <= i < FirstRewrite(trace) ==> trace[i].node == n
  }

  /** A generate step in front keeps "only generation before the first rewrite". */
  lemma OnlyBeforeRewriteCons(step: Step, rest: seq<Step>, n: Node)
    requires step.node == n
    requires OnlyBeforeRewrite(rest, n)
    ensures OnlyBeforeRewrite([step] + rest, n)
  {
    var tr := [step] + rest;
    assert tr[1..] == rest;
    if n != TransformQuery {
      assert FirstRewrite(tr) == 1 + FirstRewrite(rest);
      forall i | 0 <= i < FirstRewrite(tr)
        ensures tr[i].node == n
      {
        if i > 0 {
          assert tr[i] == rest[i - 1];
        }
      }
    }
  }

  /** After searching or generating, only generation runs until the question is rewritten. */
  lemma {:induction false} GeneratesUntilRewrite(o: Oracles, src: Source, s: GraphState, k: nat, fuel: nat)
    requires src == After(WebSearch) || src == After(Generate)
    requires Ready(src, s)
    ensures OnlyBeforeRewrite(Exec(o, src, s, k, fuel).trace, Generate)
    decreases fuel
  {
    ExecTrace(o, src, s, k, fuel);
    GenerateOrRewriteNext(o, src, s, k);
    var t := Transition(o, src, s, k);
    if t.To? && fuel > 0 {
      var n := t.node;
      var u := RunNode(o, n, k, s);
      var s' := DataModels.Merge(s, u);
      var k': nat, f: nat := k + 1, fuel - 1;
      var rest := Exec(o, After(n), s', k', f).trace;
      assert Exec(o, src, s, k, fuel).trace == [Step(n, u)] + rest;
      if n == Generate {
        GeneratesUntilRewrite(o, After(n), s', k', f);
        // the rest of the run, by induction, only generates before its first rewrite
        ghost var later := OnlyBeforeRewrite(rest, Generate);
        assert later;
        OnlyBeforeRewriteCons(Step(n, u), rest, Generate);
      } else {
        RewriteInFront(Step(n, u), rest, Generate);
      }
    }
  }

  /** After searching or generating, the next node is generation or the rewrite. */
  lemma GenerateOrRewriteNext(o: Oracles, src: Source, s: GraphState, k: nat)
    requires src == After(WebSearch) || src == After(Generate)
    requires Ready(src, s)
    ensures Transition(o, src, s, k).To? ==>
      Transition(o, src, s, k).node == Generate || Transition(o, src, s, k).node == TransformQuery
  {
    if src == After(WebSearch) {
      FixedSuccessors(o, s, k);
    } else {
      AfterGenerating(o, s, k);
    }
  }

  /** A trace that starts with the rewrite has nothing before its first rewrite. */
  lemma RewriteInFront(step: Step, rest: seq<Step>, n: Node)
    requires step.node == TransformQuery
    ensures OnlyBeforeRewrite([step] + rest, n)
  {
    assert ([step] + rest)[0] == step;
  }

  /** The first node of a run: the search for a "web_search" verdict, retrieval for any other. */
  function EntryNode(o: Oracles, question: string): (n: Node)
    ensures n == WebSearch <==> o.route(0)(question) == "web_search"
    ensures n == WebSearch || n == Retrieve
  {
    if o.route(0)(question) == "web_search" then WebSearch else Retrieve
  }

  /** A run with fuel starts with its entry node and continues from after it. */
  lemma EntryStep(o: Oracles, question: string, fuel: nat)
    requires fuel > 0
    ensures var s := InitialState(question);
      var n := EntryNode(o, question);
      var u := RunNode(o, n, 0, s);
      Ready(After(n), DataModels.Merge(s, u)) &&
      Exec(o, Start, s, 0, fuel).trace ==
        [Step(n, u)] + Exec(o, After(n), DataModels.Merge(s, u), 1, fuel - 1).trace
  {
    var s := InitialState(question);
    ExecUnfold(o, Start, s, 0, fuel);
    EntryTargets(o, s, 0);
  }

  /** On the web branch the run searches first and generates second. */
  lemma WebBranchFirstSteps(o: Oracles, question: string, fuel: nat)
    requires o.route(0)(question) == "web_search"
    ensures var tr := Exec(o, Start, InitialState(question), 0, fuel).trace;
      (fuel > 0 ==> |tr| > 0 && tr[0].node == WebSearch) &&
      (fuel > 1 ==> |tr| > 1 && tr[1].node == Generate)
  {
    if fuel > 0 {
      var s := InitialState(question);
      var s' := DataModels.Merge(s, RunNode(o, WebSearch, 0, s));
      EntryStep(o, question, fuel);
      ExecUnfold(o, After(WebSearch), s', 1, fuel - 1);
      FixedSuccessors(o, s', 1);
    }
  }

  /**
   * On the web branch the run never retrieves or grades documents before a
   * "not_useful" verdict has rewritten the question: until then it only
   * searches and generates.
   */
  lemma WebBranchBeforeRewrite(o: Oracles, question: string, fuel: nat)
    requires o.route(0)(question) == "web_search"
    ensures var tr := Exec(o, Start, InitialState(question), 0, fuel).trace;
      forall i :: 0 <= i < FirstRewrite(tr) ==> tr[i].node == WebSearch || tr[i].node == Generate
  {
    if fuel > 0 {
      var s := InitialState(question);
      var u := RunNode(o, WebSearch, 0, s);
      var s' := DataModels.Merge(s, u);
      EntryStep(o, question, fuel);
      var f: nat := fuel - 1;
      var rest := Exec(o, After(WebSearch), s', 1, f).trace;
      GeneratesUntilRewrite(o, After(WebSearch), s', 1, f);
      ghost var later := OnlyBeforeRewrite(rest, Generate);
      assert later;
      SearchThenGenerates(Exec(o, Start, s, 0, fuel).trace, Step(WebSearch, u), rest);
    }
  }

  /** A search step in front of a trace that only generates before its first rewrite. */
  lemma SearchThenGenerates(tr: seq<Step>, step: Step, rest: seq<Step>)
    requires tr == [step] + rest
    requires step.node == WebSearch && OnlyBeforeRewrite(rest, Generate)
    ensures forall i :: 0 <= i < FirstRewrite(tr) ==> tr[i].node == WebSearch || tr[i].node == Generate
  {
    assert tr[1..] == rest;
    assert FirstRewrite(tr) == 1 + FirstRewrite(rest);
    forall i | 0 < i < FirstRewrite(tr) ensures tr[i].node == Generate {
      assert tr[i] == rest[i - 1];
    }
  }

  /** Without a rewrite, the question the run ends with is the one it started from. */
  lemma {:induction false} QuestionOnlyRewritten(o: Oracles, src: Source, s: GraphState, k: nat, fuel: nat)
    requires Ready(src, s)
    ensures !Ran(Exec(o, src, s, k, fuel).trace, TransformQuery) ==>
      Exec(o, src, s, k, fuel).state.question == s.question
    decreases fuel
  {
    ExecUnfold(o, src, s, k, fuel);
    var t := Transition(o, src, s, k);
    if t.To? && fuel > 0 {
      var u := RunNode(o, t.node, k, s);
      var s' := DataModels.Merge(s, u);
      var k': nat, f: nat := k + 1, fuel - 1;
      QuestionOnlyRewritten(o, After(t.node), s', k', f);
      RanCons(Step(t.node, u), Exec(o, After(t.node), s', k', f).trace, TransformQuery);
    }
  }

  /**
   * Control off the web branch: generation is reached only through grading,
   * so whenever control is after the generate node the documents are non-empty.
   */
  predicate VectorPhase(src: Source, s: GraphState) {
    src.After? && src != After(WebSearch) &&
    s.documents.Some? &&
    (src == After(Generate) ==> |s.documents.value| > 0)
  }

  /**
   * One step off the web branch stays off it: the exit is reached only with
   * documents, and the next node leads to another vector-phase point.
   */
  lemma VectorPhaseStep(o: Oracles, src: Source, s: GraphState, k: nat)
    requires Ready(src, s) && VectorPhase(src, s)
    ensures Transition(o, src, s, k).End? ==> |s.documents.value| > 0
    ensures Transition(o, src, s, k).To? ==>
      var n := Transition(o, src, s, k).node;
      VectorPhase(After(n), DataModels.Merge(s, RunNode(o, n, k, s)))
  {
    if src == After(Generate) {
      AfterGenerating(o, s, k);
    } else if src == After(GradeDocuments) {
      AfterGrading(o, s, k);
    } else {
      FixedSuccessors(o, s, k);
    }
  }

  /** Off the web branch, a run that reaches the exit ends with at least one document. */
  lemma {:induction false} VectorPhaseKeepsDocuments(o: Oracles, src: Source, s: GraphState, k: nat, fuel: nat)
    requires Ready(src, s) && VectorPhase(src, s)
    ensures var out := Exec(o, src, s, k, fuel);
      out.finished ==> out.state.documents.Some? && |out.state.documents.value| > 0
    decreases fuel
  {
    ExecUnfold(o, src, s, k, fuel);
    VectorPhaseStep(o, src, s, k);
    var t := Transition(o, src, s, k);
    if t.To? && fuel > 0 {
      var k': nat, f: nat := k + 1, fuel - 1;
      VectorPhaseKeepsDocuments(o, After(t.node), DataModels.Merge(s, RunNode(o, t.node, k, s)), k', f);
    }
  }

  /** A finished run routed to the vector store always ends with documents to show. */
  lemma VectorRouteEndsWithDocuments(o: Oracles, question: string, fuel: nat)
    requires o.route(0)(question) != "web_search"
    ensures var out := Exec(o, Start, InitialState(question), 0, fuel);
      out.finished ==> out.state.documents.Some? && |out.state.documents.value| > 0
  {
    var s := InitialState(question);
    ExecUnfold(o, Start, s, 0, fuel);
    EntryTargets(o, s, 0);
    if fuel > 0 {
      var s' := DataModels.Merge(s, RunNode(o, Retrieve, 0, s));
      var f: nat := fuel - 1;
      VectorPhaseKeepsDocuments(o, After(Retrieve), s', 1, f);
    }
  }
}
