/**
 * The adaptive RAG workflow graph: five nodes, two fixed edges, three
 * conditional edges, and the loop that runs it. Every model, store and web
 * call is an oracle; the oracles are indexed by the number of nodes executed
 * so far, so a call repeated later in a run may answer differently.
 */
module Graph {
  import opened Base
  import DataModels
  import Graders
  import Searchers
  import Nodes
  import Edges

  type GraphState = DataModels.GraphState
  type Update = DataModels.Update
  type Document = DataModels.Document

  /** The five nodes, under the names the graph registers. */
  datatype Node = Retrieve | WebSearch | GradeDocuments | TransformQuery | Generate {
    function Name(): string {
      match this
      case Retrieve => "retrieve"
      case WebSearch => "web_search"
      case GradeDocuments => "grade_documents"
      case TransformQuery => "transform_query"
      case Generate => "generate"
    }
  }

  /** Where an edge leaves from: the graph's entry, or after a node has run. */
  datatype Source = Start | After(node: Node)

  /** Where an edge leads: a node, or the graph's exit. */
  datatype Target = To(node: Node) | End

  /** The three conditional edge functions. */
  datatype Decider = RouteQuestion | DecideToGenerate | GradeGeneration

  /** An outgoing edge: fixed, or chosen by a decider's label through a path map. */
  datatype Edge = Direct(next: Node) | Branch(decider: Decider, paths: map<string, Target>)

  /** `StateGraph` as the builder sees it: registered nodes and one outgoing edge per source. */
  class StateGraph {
    var nodes: set<Node>
    var edges: map<Source, Edge>

    constructor ()
      ensures nodes == {} && edges == map[]
    {
      nodes := {};
      edges := map[];
    }

    /** `add_node`. */
    method AddNode(n: Node)
      modifies this
      ensures nodes == old(nodes) + {n} && edges == old(edges)
    {
      nodes := nodes + {n};
    }

    /** `add_edge`: after `from`, always `to`. */
    method AddEdge(from: Node, to: Node)
      modifies this
      ensures edges == old(edges)[After(from) := Direct(to)] && nodes == old(nodes)
    {
      edges := edges[After(from) := Direct(to)];
    }

    /** `add_conditional_edges`: after `src`, the target the decider's label maps to. */
    method AddConditionalEdges(src: Source, decider: Decider, paths: map<string, Target>)
      modifies this
      ensures edges == old(edges)[src := Branch(decider, paths)] && nodes == old(nodes)
    {
      edges := edges[src := Branch(decider, paths)];
    }
  }

  function AllNodes(): set<Node> {
    {Retrieve, WebSearch, GradeDocuments, TransformQuery, Generate}
  }

  /** The edge table the workflow is built with. */
  function Topology(): map<Source, Edge> {
    map[
      Start := Branch(RouteQuestion, map["web_search" := To(WebSearch), "vectorstore" := To(Retrieve)]),
      After(WebSearch) := Direct(Generate),
      After(Retrieve) := Direct(GradeDocuments),
      After(GradeDocuments) := Branch(DecideToGenerate, map["transform_query" := To(TransformQuery), "generate" := To(Generate)]),
      After(TransformQuery) := Direct(Retrieve),
      After(Generate) := Branch(GradeGeneration, map["not_supported" := To(Generate), "useful" := End, "not_useful" := To(TransformQuery)])
    ]
  }

  /** `_build_graph`: the nodes and edges registered one call at a time. */
  method BuildGraph() returns (g: StateGraph)
    ensures fresh(g)
    ensures g.nodes == AllNodes() && g.edges == Topology()
  {
    g := new StateGraph();
    g.AddNode(Retrieve);
    g.AddNode(WebSearch);
    g.AddNode(GradeDocuments);
    g.AddNode(TransformQuery);
    g.AddNode(Generate);
    g.AddConditionalEdges(Start, RouteQuestion, map["web_search" := To(WebSearch), "vectorstore" := To(Retrieve)]);
    g.AddEdge(WebSearch, Generate);
    g.AddEdge(Retrieve, GradeDocuments);
    g.AddConditionalEdges(After(GradeDocuments), DecideToGenerate,
                          map["transform_query" := To(TransformQuery), "generate" := To(Generate)]);
    g.AddEdge(TransformQuery, Retrieve);
    g.AddConditionalEdges(After(Generate), GradeGeneration,
                          map["not_supported" := To(Generate), "useful" := End, "not_useful" := To(TransformQuery)]);
  }

  /**
   * The external calls, one per component method the nodes and edges use,
   * each given the number of nodes already executed in the run.
   */
  datatype Oracles = Oracles(
    route: nat -> string -> string,
    retrieve: nat -> string -> seq<Document>,
    search: nat -> string -> seq<DataModels.WebSearchResult>,
    gradeDocument: nat -> (string, string) -> DataModels.GradeDocuments,
    rewrite: nat -> string -> string,
    generate: nat -> (string, string) -> string,
    gradeHallucination: nat -> (string, string) -> DataModels.GradeHallucinations,
    gradeAnswer: nat -> (string, string) -> DataModels.GradeAnswer)

  /**
   * How much of the state is present: 0 = no documents, 1 = documents,
   * 2 = documents and a generation.
   */
  function Available(s: GraphState): nat {
    if s.documents.None? then 0 else if s.generation.None? then 1 else 2
  }

  /** What a decider reads besides the question. */
  function DeciderNeeds(d: Decider): nat {
    match d
    case RouteQuestion => 0
    case DecideToGenerate => 1
    case GradeGeneration => 2
  }

  /** What a node reads besides the question (`state["documents"]`). */
  function NodeNeeds(n: Node): nat {
    if n == GradeDocuments || n == Generate then 1 else 0
  }

  /** What is present once control is at `src`. */
  function Provided(src: Source): nat {
    match src
    case Start => 0
    case After(n) => if n == Generate then 2 else 1
  }

  /** The state holds every key the edge leaving `src` and the nodes it leads to read. */
  predicate Ready(src: Source, s: GraphState) {
    Available(s) >= Provided(src)
  }

  /** The labels a decider can return. */
  function Labels(d: Decider): set<string> {
    match d
    case RouteQuestion => {"web_search", "vectorstore"}
    case DecideToGenerate => {"transform_query", "generate"}
    case GradeGeneration => {"not_supported", "useful", "not_useful"}
  }

  /** The edge function behind a decider, applied to the oracles of step `k`. */
  function Decide(o: Oracles, d: Decider, k: nat, s: GraphState): (next: string)
    requires Available(s) >= DeciderNeeds(d)
    ensures next in Labels(d)
  {
    match d
    case RouteQuestion => Edges.RouteQuestion(o.route(k), s)
    case DecideToGenerate => Edges.DecideToGenerate(s)
    case GradeGeneration => Edges.GradeGeneration(o.gradeHallucination(k), o.gradeAnswer(k), s)
  }

  /**
   * An edge from `src` never reads a key that is absent there, and every
   * label its decider can return has a path.
   */
  predicate WellFormedEdge(src: Source, e: Edge) {
    match e
    case Direct(n) => NodeNeeds(n) <= Provided(src)
    case Branch(d, paths) =>
      DeciderNeeds(d) <= Provided(src) &&
      Labels(d) <= paths.Keys &&
      forall l | l in paths && paths[l].To? :: NodeNeeds(paths[l].node) <= Provided(src)
  }

  /** The edge leaving each source, read off the table. */
  function EdgeFrom(src: Source): Edge {
    match src
    case Start => Branch(RouteQuestion, map["web_search" := To(WebSearch), "vectorstore" := To(Retrieve)])
    case After(WebSearch) => Direct(Generate)
    case After(Retrieve) => Direct(GradeDocuments)
    case After(GradeDocuments) => Branch(DecideToGenerate, map["transform_query" := To(TransformQuery), "generate" := To(Generate)])
    case After(TransformQuery) => Direct(Retrieve)
    case After(Generate) => Branch(GradeGeneration, map["not_supported" := To(Generate), "useful" := End, "not_useful" := To(TransformQuery)])
  }

  /** Every source has an edge in the table, and every edge is well formed. */
  lemma TopologyWellFormed(src: Source)
    ensures src in Topology() && Topology()[src] == EdgeFrom(src)
    ensures WellFormedEdge(src, EdgeFrom(src))
  {
    match src
    case Start =>
    case After(n) =>
      match n
      case Retrieve =>
      case WebSearch =>
      case GradeDocuments =>
      case TransformQuery =>
      case Generate =>
  }

  /** The node functions, applied to the oracles of step `k`. */
  function RunNode(o: Oracles, n: Node, k: nat, s: GraphState): (u: Update)
    requires Available(s) >= NodeNeeds(n)
    ensures u.documents.Some?
    ensures u.generation.Some? <==> n == Generate
  {
    match n
    case Retrieve => Nodes.RetrieveNode(o.retrieve(k), s)
    case WebSearch => Nodes.WebSearchNode(o.search(k), s)
    case GradeDocuments => Nodes.GradeDocumentsNode(o.gradeDocument(k), s)
    case TransformQuery => Nodes.TransformQueryNode(o.rewrite(k), s)
    case Generate => Nodes.GenerateNode(o.generate(k), s)
  }

  /** Where control goes from `src`, by the edge table. */
  function Transition(o: Oracles, src: Source, s: GraphState, k: nat): (t: Target)
    requires Ready(src, s)
    ensures t.To? ==> Available(s) >= NodeNeeds(t.node)
  {
    TopologyWellFormed(src);
    match EdgeFrom(src)
    case Direct(n) => To(n)
    case Branch(d, paths) => paths[Decide(o, d, k, s)]
  }

  /** A node's run after it has been merged: control is then after that node. */
  lemma RunNodeReady(o: Oracles, n: Node, k: nat, s: GraphState)
    requires Available(s) >= NodeNeeds(n)
    ensures Ready(After(n), DataModels.Merge(s, RunNode(o, n, k, s)))
  {
  }

  /** One executed node and the keys it returned, as a streamed step reports it. */
  datatype Step = Step(node: Node, update: Update)

  /** The state when execution stopped, the steps taken, and whether the exit was reached. */
  datatype Outcome = Outcome(state: GraphState, trace: seq<Step>, finished: bool)

  /**
   * Execution from `src` in state `s` with `k` nodes already run, for at most
   * `fuel` more nodes. The source has no such bound: fuel only makes the
   * definition total, and `finished` says whether the exit was reached in time.
   */
  function Exec(o: Oracles, src: Source, s: GraphState, k: nat, fuel: nat): (out: Outcome)
    requires Ready(src, s)
    ensures |out.trace| <= fuel
    decreases fuel
  {
    match Transition(o, src, s, k)
    case End => Outcome(s, [], true)
    case To(n) =>
      if fuel == 0 then Outcome(s, [], false)
      else
        var u := RunNode(o, n, k, s);
        RunNodeReady(o, n, k, s);
        var rest := Exec(o, After(n), DataModels.Merge(s, u), k + 1, fuel - 1);
        Outcome(rest.state, [Step(n, u)] + rest.trace, rest.finished)
  }

  /** `run` and `stream` start from a state that holds only the question. */
  function InitialState(question: string): GraphState {
    DataModels.GraphState(question, None, None)
  }

  /** `out` with `steps` taken before it. */
  function Prepend(steps: seq<Step>, out: Outcome): Outcome {
    Outcome(out.state, steps + out.trace, out.finished)
  }

  /** One step of `Exec`: stop at the exit or when fuel is out, otherwise run a node and continue. */
  lemma ExecUnfold(o: Oracles, src: Source, s: GraphState, k: nat, fuel: nat)
    requires Ready(src, s)
    ensures Transition(o, src, s, k).End? ==> Exec(o, src, s, k, fuel) == Outcome(s, [], true)
    ensures Transition(o, src, s, k).To? && fuel == 0 ==> Exec(o, src, s, k, fuel) == Outcome(s, [], false)
    ensures Transition(o, src, s, k).To? && fuel > 0 ==>
      var n := Transition(o, src, s, k).node;
      var u := RunNode(o, n, k, s);
      Ready(After(n), DataModels.Merge(s, u)) &&
      Exec(o, src, s, k, fuel) == Prepend([Step(n, u)], Exec(o, After(n), DataModels.Merge(s, u), k + 1, fuel - 1))
  {
    if Transition(o, src, s, k).To? {
      RunNodeReady(o, Transition(o, src, s, k).node, k, s);
    }
  }

  /**
   * What the engine loop keeps: the steps taken so far, followed by what an
   * execution from the current source and state still does, make up `whole`.
   */
  ghost predicate Within(o: Oracles, whole: Outcome, trace: seq<Step>, src: Source, s: GraphState, k: nat, left: nat) {
    Ready(src, s) && whole == Prepend(trace, Exec(o, src, s, k, left))
  }

  /** Before the first step nothing has been taken and the whole execution is still ahead. */
  lemma WithinStart(o: Oracles, state: GraphState, fuel: nat)
    ensures Within(o, Exec(o, Start, state, 0, fuel), [], Start, state, 0, fuel)
  {
    var out := Exec(o, Start, state, 0, fuel);
    assert [] + out.trace == out.trace;
  }

  /** Prepending twice is prepending the concatenation. */
  lemma PrependTwice(a: seq<Step>, b: seq<Step>, out: Outcome)
    ensures Prepend(a, Prepend(b, out)) == Prepend(a + b, out)
  {
    assert a + (b + out.trace) == (a + b) + out.trace;
  }

  /** Where the engine loop stops, the outcome so far is the whole outcome. */
  lemma ExecStops(o: Oracles, whole: Outcome, trace: seq<Step>, src: Source, s: GraphState, k: nat, left: nat)
    requires Within(o, whole, trace, src, s, k, left)
    requires Transition(o, src, s, k).End? || left == 0
    ensures whole == Outcome(s, trace, Transition(o, src, s, k).End?)
  {
    ExecUnfold(o, src, s, k, left);
    assert trace + [] == trace;
  }

  /** One more node run by the engine loop keeps the outcome so far a prefix of the whole. */
  lemma ExecContinues(o: Oracles, whole: Outcome, trace: seq<Step>, src: Source, s: GraphState, k: nat, left: nat,
                      n: Node, u: Update)
    requires Within(o, whole, trace, src, s, k, left)
    requires Transition(o, src, s, k) == To(n) && left > 0
    requires Available(s) >= NodeNeeds(n) && u == RunNode(o, n, k, s)
    ensures Within(o, whole, trace + [Step(n, u)], After(n), DataModels.Merge(s, u), k + 1, left - 1)
  {
    ExecUnfold(o, src, s, k, left);
    PrependTwice(trace, [Step(n, u)], Exec(o, After(n), DataModels.Merge(s, u), k + 1, left - 1));
  }

  /**
   * The workflow: the built graph, the edge table it compiles to (a copy that
   * later changes to the builder do not reach), and the components it calls.
   */
  class AdaptiveRAGWorkflow {
    const oracles: Oracles
    const graph: StateGraph
    const app: map<Source, Edge>

    /** The compiled table holds, for every source, the edge the builder registered. */
    ghost predicate Valid() {
      forall src :: src in app && app[src] == EdgeFrom(src)
    }

    constructor (oracles: Oracles)
      ensures Valid() && this.oracles == oracles
      ensures fresh(graph) && graph.nodes == AllNodes() && graph.edges == app && app == Topology()
    {
      this.oracles := oracles;
      var g := BuildGraph();
      graph := g;
      app := g.edges;
      new;
      forall src ensures src in app && app[src] == EdgeFrom(src) {
        TopologyWellFormed(src);
      }
    }

    /** The target of the compiled edge leaving `src`. */
    method Next(src: Source, s: GraphState, k: nat) returns (t: Target)
      requires Valid() && Ready(src, s)
      ensures t == Transition(oracles, src, s, k)
    {
      TopologyWellFormed(src);
      var e := app[src];
      match e
      case Direct(n) =>
        t := To(n);
      case Branch(d, paths) =>
        var chosen := Decide(oracles, d, k, s);
        t := paths[chosen];
    }

    /**
     * One turn of the engine loop: follow the edge leaving `src`; stop at the
     * exit or when no fuel is left, otherwise run the node and merge its keys.
     */
    method Advance(src: Source, s: GraphState, k: nat, left: nat, trace: seq<Step>, ghost whole: Outcome)
      returns (stop: bool, finished: bool, src': Source, s': GraphState, trace': seq<Step>)
      requires Valid() && Within(oracles, whole, trace, src, s, k, left)
      ensures stop ==> whole == Outcome(s', trace', finished)
      ensures !stop ==> left > 0 && Within(oracles, whole, trace', src', s', k + 1, left - 1)
    {
      var t := Next(src, s, k);
      if t.End? || left == 0 {
        ExecStops(oracles, whole, trace, src, s, k, left);
        return true, t.End?, src, s, trace;
      }
      var u := RunNode(oracles, t.node, k, s);
      ExecContinues(oracles, whole, trace, src, s, k, left, t.node, u);
      return false, false, After(t.node), DataModels.Merge(s, u), trace + [Step(t.node, u)];
    }

    /**
     * The engine loop: follow an edge, run the node, merge its keys into the
     * shared state; stop at the exit, or when `fuel` nodes have run.
     */
    method Execute(state: GraphState, fuel: nat) returns (out: Outcome)
      requires Valid()
      ensures out == Exec(oracles, Start, state, 0, fuel)
    {
      var src := Start;
      var s := state;
      var k: nat := 0;
      var left := fuel;
      var trace: seq<Step> := [];
      ghost var whole := Exec(oracles, Start, state, 0, fuel);
      WithinStart(oracles, state, fuel);
      while true
        invariant Within(oracles, whole, trace, src, s, k, left)
        decreases left
      {
        var stop, finished;
        stop, finished, src, s, trace := Advance(src, s, k, left, trace, whole);
        if stop {
          return Outcome(s, trace, finished);
        }
        k := k + 1;
        left := left - 1;
      }
    }

    /** `run`: the final state of an execution from the question alone. */
    method Run(question: string, fuel: nat) returns (finalState: GraphState, finished: bool)
      requires Valid()
      ensures finalState == Exec(oracles, Start, InitialState(question), 0, fuel).state
      ensures finished == Exec(oracles, Start, InitialState(question), 0, fuel).finished
    {
      var out := Execute(InitialState(question), fuel);
      finalState, finished := out.state, out.finished;
    }

    /** `stream`: the steps of the same execution, in order. */
    method Stream(question: string, fuel: nat) returns (steps: seq<Step>, finished: bool)
      requires Valid()
      ensures steps == Exec(oracles, Start, InitialState(question), 0, fuel).trace
      ensures finished == Exec(oracles, Start, InitialState(question), 0, fuel).finished
    {
      var out := Execute(InitialState(question), fuel);
      steps, finished := out.trace, out.finished;
    }
  }
}
