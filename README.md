# Adaptive RAG: the control loop, modelled in Dafny

Adaptive RAG answers a question by sending it to one of two evidence sources.
The sources are a vector store of indexed posts and a web search. The system
grades the evidence it gets back and rewrites the question when nothing
relevant is left. It then generates an answer and checks that the answer is
grounded in the evidence and addresses the question. When either check fails,
it generates again or rewrites the question.

The heart of the system is a LangGraph state graph over a three-key state
(`question`, optional `generation`, optional `documents`). It has five nodes
(`retrieve`, `web_search`, `grade_documents`, `transform_query`, `generate`)
and three conditional edges (`route_question`, `decide_to_generate`,
`grade_generation`). The only exit is a `"useful"` verdict after `generate`.

Every language model, the vector store and the web search tool is an
**oracle**: a function the model receives as a parameter. The oracles in
`Graph.Oracles` also receive the number of nodes already run, so a repeated
call (regenerating after `"not_supported"`) may answer differently, as a real
model may.

Modules, in dependency order:

- `Base`: `Option` (a state key that may be absent) and `Result` (an
  operation that may raise).
- `Text`: ASCII `str.lower`, `sep.join` and the `in` substring test, with
  their positional properties.
- `DataModels`: the records of `src/models/data_models.py`, the exceptions the
  core raises, and `Merge`. `Merge` is the graph's per-key overwrite of a
  node's returned keys into the state.
- `Generators`, `Graders`, `Searchers`, `Retrievers`: the components the nodes
  call, as far as they are more than a model call.
- `Nodes`, `Edges`: the five node functions and the three edge functions.
- `Graph`: the builder (`StateGraph`, `BuildGraph`) and the edge table. It
  also holds the pure run specification `Exec` and the class
  `AdaptiveRAGWorkflow`, whose `Execute` loop is proved equal to `Exec`.
- `GraphProperties`: what the table and the loop guarantee.
- `App`: `AdaptiveRAG.query`'s assembly of the final `RAGResult`, and the two
  findings below.
- `Configuration`: `Config` defaults and the tracing environment variables.

Neither the graph nor the application code sets a bound on the number of
steps; the only bound is LangGraph's own recursion limit (see "Left out").
`Exec` and `Execute` take a `fuel` argument to make the definition total.
`finished` says whether the exit was reached within that many nodes.
`GraphProperties.NoIterationBound` shows that the graph's cycles admit runs
that no amount of fuel brings to the exit.

A web-routed run can also reach retrieval: a `"not_useful"` verdict sends it
through `transform_query` into `retrieve`. `GraphProperties.WebBranchBeforeRewrite`
states what does hold for the web branch.

## Model

| member | source | states |
|---|---|---|
| Text.Lower | src/components/graders.py:55 | `lower()` keeps the length and lower-cases each character in place (ASCII letters) |
| Text.ContainsOccurs | src/app.py:142 | `sub in s` holds exactly when `sub` occurs at some position of `s` |
| Text.JoinLength | src/components/generators.py:55 | a join is as long as all its parts plus one separator fewer than there are parts |
| Text.JoinPartAt | src/components/generators.py:55 | in `sep.join(parts)`, part `i` appears intact at its offset, so the parts appear in list order |
| Text.JoinSeparatorAt | src/components/generators.py:55 | exactly one separator stands between consecutive parts of a join |
| DataModels.Datasource.Name | src/models/data_models.py:8-14 | the router's datasource is one of the two literals, and `"web_search"` only for the web source |
| DataModels.Merge | src/workflow/graph.py:101-104 | a key the node returns overwrites the state's value; every other key keeps its value |
| DataModels.MergeIdempotent | src/workflow/graph.py:101-104 | merging the same returned keys twice is merging them once |
| DataModels.MergeKeepsPresentKeys | src/workflow/graph.py:101-104 | once `generation` or `documents` is present, no merge removes it |
| DataModels.NewRAGResult | src/models/data_models.py:58-67 | a `RAGResult` holds the given fields, `transformations` defaults to `[]`, `search_results` to `None` and `metadata` to `{}` |
| Generators.PageContents | src/components/generators.py:55 | one text per document, the document's `page_content`, in list order |
| Generators.FormatDocsShortLists | src/components/generators.py:53-55 | the context of no documents is `""`; of one document, exactly its content |
| Generators.FormatDocsContentAt | src/components/generators.py:53-55 | each document's content appears intact in the context, in list order |
| Generators.FormatDocsSeparatorAt | src/components/generators.py:53-55 | consecutive contents in the context are separated by a blank line `"\n\n"` |
| Generators.Generate | src/components/generators.py:57-75 | the chain receives the joined context and the question unchanged, and its output is the answer |
| Generators.SelectPrompt | src/components/generators.py:30-48 | a non-empty custom template is used; otherwise the hub prompt, or the built-in fallback when the pull fails |
| Generators.CustomTemplateIgnoresHub | src/components/generators.py:30-31 | with a custom template, whether the hub is reachable cannot change the prompt |
| Graders.IsYesSpellings | src/components/graders.py:55 | a verdict passes exactly when it is the three letters y, e, s in any letter case |
| Graders.IsYesExamples | src/components/graders.py:55 | `"YES"`, `"Yes"` and `"yes"` pass; `"y"`, `"yes "` and `"no"` fail |
| Graders.FilterDocuments | src/components/graders.py:57-68 | the result is no longer than the input and holds exactly the input documents graded relevant |
| Graders.FilterKeepsOrder | src/components/graders.py:68 | the filter's output is an order-preserving subsequence of its input |
| Graders.FilterKeepsCopies | src/components/graders.py:68 | every copy of a relevant document is kept, and no copy of an irrelevant one |
| Graders.GroundedSeesContentsOnly | src/components/graders.py:99-117 | the groundedness verdict depends on the documents only through their contents, in order |
| Searchers.BuildSearchArgs | src/components/searchers.py:26-32 | `k` is always the requested number of results; each domain filter is present exactly when given non-empty, and holds the given list |
| Searchers.BuildToolArgs | src/components/searchers.py:35-37 | the API key is passed exactly when it is given and non-empty |
| Searchers.FieldOr | src/components/searchers.py:72-73 | `result.get(key, default)`: a missing key gives the default, an explicit `None` gives `None` |
| Searchers.ToDocument | src/components/searchers.py:69-77 | a hit becomes a document with its content, and metadata with exactly the keys source (url or `"web-search"`), title (or `""`), score 1.0 and retriever `"web_search"` |
| Searchers.ToDocuments | src/components/searchers.py:66-79 | one document per hit, in hit order |
| Searchers.WebSearcher.constructor | src/components/searchers.py:10-39 | the search arguments are `k` with the requested count and each domain filter exactly when given non-empty, holding the given list, and no other key; the tool arguments hold the API key exactly when it is given non-empty, and no other key |
| Searchers.WebSearcher.Search | src/components/searchers.py:41-51 | the query reaches the search tool unchanged, with the configured arguments |
| Searchers.WebSearcher.SearchToDocuments | src/components/searchers.py:53-79 | the append loop returns one document per search hit, in order |
| Retrievers.EffectiveWeights | src/components/retrievers.py:95-103 | non-empty weights must match the retrievers in number or ValueError is raised; absent or empty weights become 1.0 for every retriever |
| Retrievers.Reweigh | src/components/retrievers.py:123-128 | a present score is multiplied by the weight (a non-numeric score raises TypeError); the retriever's class name is stored under `retriever`; nothing else changes |
| Retrievers.ReweighAll | src/components/retrievers.py:123-130 | every hit of one retriever is weighted in order, and the pass fails exactly when some hit fails |
| Retrievers.ReweighAllFailurePersists | src/components/retrievers.py:123-125 | a failure on an early hit is the failure of the whole pass |
| Retrievers.Gather | src/components/retrievers.py:116-130 | the combined hits number the total of all retrievers' hits, and each has a numeric score or none |
| Retrievers.GatherStep | src/components/retrievers.py:126-130 | extending the combined list with the last retriever's weighted hits keeps every score numeric |
| Retrievers.GatherBlock | src/components/retrievers.py:116-130 | the combined hits are the retrievers' weighted hits concatenated in retriever order: retriever `j`'s weighted hits sit right after the hits of retrievers `0..j-1` |
| Retrievers.GatherStepHits | src/components/retrievers.py:118-129 | one turn of the loop: when the whole pass succeeds, the hits after retriever `i` are the hits before it followed by `i`'s weighted hits |
| Retrievers.GatherChain | src/components/retrievers.py:118-129 | the combined list grows by exactly one retriever's weighted hits per turn |
| Retrievers.Chained | src/components/retrievers.py:129 | a list grown by `extend` one block at a time holds each block right after the list as it stood before it |
| Retrievers.ChainEnds | src/components/retrievers.py:116-130 | the list after the last turn is the combined hits, the list before turn `j` has as many hits as retrievers `0..j-1` return, and block `j` is `j`'s weighted hits |
| Retrievers.TracedStep | src/components/retrievers.py:126-130 | appending the last retriever's weighted hits keeps every combined hit a weighted hit of its own retriever, tagged with that retriever's class name |
| Retrievers.GatherTraced | src/components/retrievers.py:116-130 | every combined hit is some retriever's weighted hit, tagged with that same retriever's class name |
| Retrievers.GatherFailurePersists | src/components/retrievers.py:119-130 | a failure while weighting an earlier retriever's hits is the failure of `retrieve` |
| Retrievers.Insert | src/components/retrievers.py:133-138 | insertion adds exactly the one document (as a multiset) |
| Retrievers.SortByScore | src/components/retrievers.py:133-138 | the sort returns a permutation of its input |
| Retrievers.InsertDescending | src/components/retrievers.py:133-138 | inserting into a list of non-increasing scores keeps it non-increasing |
| Retrievers.SortDescending | src/components/retrievers.py:133-138 | the sorted list has non-increasing scores, a missing score counting as 0 |
| Retrievers.InsertStable | src/components/retrievers.py:133-138 | insertion puts a new document after every document with the same score |
| Retrievers.SortStable | src/components/retrievers.py:133-138 | the sort is stable: documents with equal scores keep their retriever-then-hit order |
| Retrievers.Take | src/components/retrievers.py:144 | `docs[:limit]` is a prefix of length `min(limit, len)`, with Python's counting from the end for a negative limit |
| Retrievers.HybridRetrieveResult | src/components/retrievers.py:105-144 | a successful retrieval returns `min(limit, total hits)` documents drawn from the weighted hits, each tagged with the class name of the retriever it came from, in non-increasing score order; it fails exactly when weighting fails |
| Retrievers.TakeSorted | src/components/retrievers.py:133-144 | a prefix of the sorted hits is ordered, drawn from the hits, and keeps each hit's own-retriever tag |
| Retrievers.DrawnKeepsOwn | src/components/retrievers.py:133-144 | documents drawn (as a sub-multiset) from the weighted hits keep their own-retriever tags |
| Retrievers.HybridRetriever.constructor | src/components/retrievers.py:95-103 | the retriever keeps the given retrievers and weights |
| Retrievers.HybridRetriever.Retrieve | src/components/retrievers.py:105-144 | the retriever loop returns exactly `HybridRetrieve`: gathered, weighted, stably sorted and cut to `limit` (4 by default), or the first error raised |
| Retrievers.WeighAll | src/components/retrievers.py:123-130 | the inner loop weights and tags one retriever's hits exactly as `ReweighAll` |
| Retrievers.NewHybridRetriever | src/components/retrievers.py:83-103 | construction raises ValueError exactly on a weight-count mismatch; otherwise the weights in force are the effective weights |
| Nodes.RetrieveNode | src/workflow/nodes.py:48-64 | after the merge, `documents` are the retriever's hits for the current question, and nothing else changes |
| Nodes.WebSearchNode | src/workflow/nodes.py:66-82 | after the merge, `documents` are the web hits as documents, and nothing else changes |
| Nodes.GradeDocumentsNode | src/workflow/nodes.py:84-101 | after the merge, `documents` are the relevant ones, and nothing else changes |
| Nodes.TransformQueryNode | src/workflow/nodes.py:103-121 | only the question changes, to its rewrite; the documents are carried through, or become `[]` when absent |
| Nodes.GenerateNode | src/workflow/nodes.py:123-144 | after the merge, `generation` is the generator's answer for the question and documents, and nothing else changes |
| Edges.RouteQuestion | src/workflow/edges.py:32-53 | the label is `"web_search"` exactly when the router says exactly `"web_search"`; any other answer gives `"vectorstore"` |
| Edges.RouteReadsOnlyQuestion | src/workflow/edges.py:43-46 | the routing decision depends only on the current question |
| Edges.RouteFollowsDatasource | src/workflow/edges.py:46-53 | a router answer naming a datasource routes to that datasource |
| Edges.DecideToGenerate | src/workflow/edges.py:55-75 | the label is `"transform_query"` exactly when no documents are left, and `"generate"` otherwise |
| Edges.GradeGeneration | src/workflow/edges.py:77-112 | `"not_supported"` exactly when ungrounded; `"useful"` exactly when grounded and answering; `"not_useful"` exactly when grounded and not answering |
| Edges.UngroundedIgnoresAnswerGrader | src/workflow/edges.py:96-112 | an ungrounded generation is `"not_supported"` whatever the answer grader says |
| Graph.StateGraph.constructor | src/workflow/graph.py:49 | a new graph has no nodes and no edges |
| Graph.StateGraph.AddNode | src/workflow/graph.py:52-56 | a node is added and the edges are unchanged |
| Graph.StateGraph.AddEdge | src/workflow/graph.py:67-68 | after `from`, control always goes to `to` |
| Graph.StateGraph.AddConditionalEdges | src/workflow/graph.py:59-66 | after `src`, the decider's label selects the target through the path map |
| Graph.BuildGraph | src/workflow/graph.py:41-88 | the builder's calls register the five nodes and exactly the six-edge table |
| Graph.Decide | src/workflow/graph.py:59-86 | every decider returns one of the labels its path map lists |
| Graph.TopologyWellFormed | src/workflow/graph.py:41-88 | every source has one edge; no edge reads a key that is absent there; every label has a path |
| Graph.RunNode | src/workflow/graph.py:52-56 | every node returns `documents`; only `generate` returns `generation` |
| Graph.Transition | src/workflow/graph.py:59-86 | the next node never reads a key the state lacks |
| Graph.RunNodeReady | src/workflow/graph.py:52-86 | after a node's keys are merged, the state holds everything the outgoing edge and its targets read |
| Graph.Exec | src/workflow/graph.py:90-106 | a run with a step allowance takes at most that many steps |
| Graph.ExecUnfold | src/workflow/graph.py:104 | a run stops at the exit, or runs the next node, merges its keys and goes on |
| Graph.PrependTwice | src/workflow/graph.py:122 | steps streamed in two batches are the steps streamed at once |
| Graph.ExecStops | src/workflow/graph.py:104 | where the loop stops, the steps so far are the whole run |
| Graph.ExecContinues | src/workflow/graph.py:104 | one more node run by the loop keeps the steps so far a prefix of the whole run |
| Graph.WithinStart | src/workflow/graph.py:101-104 | before the loop's first turn no step has been taken and the whole run is still ahead |
| Graph.AdaptiveRAGWorkflow.constructor | src/workflow/graph.py:38-39 | the compiled table is the built graph's table, and every source has its edge |
| Graph.AdaptiveRAGWorkflow.Next | src/workflow/graph.py:59-86 | the compiled table gives the same target as the edge table |
| Graph.AdaptiveRAGWorkflow.Advance | src/workflow/graph.py:104 | one loop turn either ends the run with its outcome, or continues it from the next node |
| Graph.AdaptiveRAGWorkflow.Execute | src/workflow/graph.py:104 | the engine loop over the shared state computes exactly the run `Exec` specifies |
| Graph.AdaptiveRAGWorkflow.Run | src/workflow/graph.py:90-106 | `run` starts from the question alone and returns the run's final state |
| Graph.AdaptiveRAGWorkflow.Stream | src/workflow/graph.py:108-122 | `stream` starts from the question alone and yields the run's steps in order |
| GraphProperties.EntryTargets | src/workflow/graph.py:59-66 | from the entry, `"web_search"` leads to the search node and every other router answer to retrieval; there is no other entry target |
| GraphProperties.FixedSuccessors | src/workflow/graph.py:67-77 | search is followed by generate, retrieve by grading, and rewrite by retrieve |
| GraphProperties.ExecTrace | src/workflow/graph.py:104-122 | a run streams no step at the exit or without allowance, and otherwise the next node's step followed by the rest of the run |
| GraphProperties.AfterGrading | src/workflow/graph.py:69-76 | after grading, no documents left leads to the rewrite, otherwise to generation |
| GraphProperties.AfterGenerating | src/workflow/graph.py:78-86 | after generating: ungrounded regenerates, grounded and answering exits, otherwise rewrites |
| GraphProperties.EndOnlyAfterUseful | src/workflow/graph.py:78-86 | the exit is reached if and only if control is after generate and the answer is grounded and answers the question |
| GraphProperties.NoEdgeToSearch | src/workflow/graph.py:59-86 | no edge after a node leads to the search node |
| GraphProperties.FinishedHoldsGeneration | src/workflow/graph.py:78-86 | a run that reaches the exit ends with documents and a generation |
| GraphProperties.RanCons | src/workflow/graph.py:108-122 | a node ran in a stream exactly when it ran in its first step or in the rest |
| GraphProperties.GenerationIffGenerated | src/workflow/nodes.py:140-144 | the final state holds a generation exactly when the starting state did or the generate node ran |
| GraphProperties.FinishedRunGenerated | src/workflow/graph.py:83 | every run of the workflow that reaches the exit has run `generate` and holds a generation |
| GraphProperties.NeverUsefulNeverFinishes | src/workflow/graph.py:78-86 | when no answer is ever grounded and answering, a run never exits and uses every step it is allowed |
| GraphProperties.NoIterationBound | src/workflow/graph.py:78-86 | with a groundedness model that always says no, no step allowance is enough to reach the exit |
| GraphProperties.NoLaterSearch | src/workflow/graph.py:59-86 | after any node, the search node never runs again |
| GraphProperties.SearchOnlyFirst | src/workflow/graph.py:59-67 | the search node runs at most once, as the first step, and only when the router said `"web_search"` |
| GraphProperties.OnlyFirst | src/workflow/graph.py:108-122 | a node absent from the rest of a stream can occur in it only as the first step |
| GraphProperties.FirstRewrite | src/workflow/graph.py:77-84 | the position of the first rewrite in a run: a rewrite there, none before |
| GraphProperties.OnlyBeforeRewriteCons | src/workflow/graph.py:82 | a generate step in front of a run that only generated before its first rewrite still only generates before it |
| GraphProperties.GeneratesUntilRewrite | src/workflow/graph.py:67-86 | after search or generation, only generation runs until the question is rewritten |
| GraphProperties.GenerateOrRewriteNext | src/workflow/graph.py:67-86 | after search or generation the next node, if any, is generation or the rewrite |
| GraphProperties.RewriteInFront | src/workflow/graph.py:84 | a stream that starts with the rewrite has nothing before its first rewrite |
| GraphProperties.EntryNode | src/workflow/graph.py:59-66 | the first node is the search exactly when the router says `"web_search"`, and retrieval otherwise |
| GraphProperties.EntryStep | src/workflow/graph.py:59-66 | a run starts from the question alone with its entry node and continues from after it |
| GraphProperties.WebBranchFirstSteps | src/workflow/graph.py:59-67 | a web-routed run searches first and generates second |
| GraphProperties.WebBranchBeforeRewrite | src/workflow/graph.py:67-86 | a web-routed run neither retrieves nor grades before a `"not_useful"` verdict has rewritten the question |
| GraphProperties.SearchThenGenerates | src/workflow/graph.py:67-86 | a search step followed by a stream that only generates before its first rewrite only searches or generates before it |
| GraphProperties.QuestionOnlyRewritten | src/workflow/nodes.py:103-121 | a run without a rewrite ends with the question it started with |
| GraphProperties.VectorPhaseKeepsDocuments | src/workflow/graph.py:68-86 | off the web branch, a run that reaches the exit ends with at least one document |
| GraphProperties.VectorPhaseStep | src/workflow/graph.py:68-86 | one step off the web branch stays off it: the exit is reached only with documents, and the next node leads to a point that holds documents, non-empty when it is after generation |
| GraphProperties.VectorRouteEndsWithDocuments | src/workflow/graph.py:59-86 | a vector-routed run that reaches the exit ends with at least one document |
| App.RoutingDecision | src/app.py:142 | an empty document list raises IndexError; otherwise `"vectorstore"` exactly when the first document's `retriever` is a string mentioning "vector" in any case, else `"web_search"` |
| App.WebDocumentsReadAsWeb | src/app.py:142 | web-search documents, tagged `"web_search"`, read as the web route |
| App.WebTagNotVector | src/app.py:142 | the tag `"web_search"`, lower-cased, does not contain "vector" |
| App.TaggedVectorReadsAsVector | src/app.py:142 | a first document tagged with a class name mentioning "vector" reads as the vector-store route |
| App.Assemble | src/app.py:131-149 | as written: raises exactly when the final documents are absent or empty; otherwise the question asked, the generation or "No answer generated", the documents or `[]`, the routing decision `RoutingDecision` reads off the first document, and both questions in the metadata |
| App.RouteTaken | src/app.py:142 | the corrected routing decision: `"vectorstore"` exactly when the run began with retrieval |
| App.AssembleCorrected | src/app.py:131-149 | the result as `Assemble` builds it (same answer, documents, defaults and metadata), except that the routing decision is the route the run took, so it never raises |
| App.CorrectedRoutingFollowsRouter | src/app.py:142 | the corrected routing decision is the router's verdict on the question asked |
| App.FinishedRunAnswers | src/app.py:134 | a finished run reports its generation, never the default answer, and the question it was asked |
| App.VectorRouteAssembles | src/app.py:142 | on a vector-routed finished run, the assembly as written does not raise |
| App.EmptySearchRaises | src/app.py:142 | as written, a web search with no hits and an accepted answer finishes, then raises IndexError |
| App.EmptySearchCorrected | src/app.py:142 | with the same oracles, the corrected assembly reports the web route |
| App.VectorRouteReportedAsWeb | src/app.py:142 | as written, a vector-routed run is reported as `"web_search"` |
| App.UntaggedVectorRun | src/workflow/graph.py:59-86 | under the counterexample oracles the run retrieves, grades, generates and exits holding the one stored document |
| App.VectorRouteCorrected | src/app.py:142 | with the same oracles, the corrected assembly reports `"vectorstore"` |
| App.AdaptiveRAG.constructor | src/app.py:114-118 | the system holds a valid workflow over the given components |
| App.AdaptiveRAG.Query | src/app.py:120-149 | as written: one run, then `Assemble` of its final state; a finished run raises IndexError exactly when it ends without documents |
| App.AdaptiveRAG.QueryCorrected | src/app.py:120-149 | one run, assembled with the corrected routing decision, which is the router's verdict on the question asked |
| Configuration.DefaultModelRoles | src/config.py:7-12 | the four model roles all default to `"gpt-4o-mini"` |
| Configuration.MapOr | src/config.py:54-56 | `x or default`: an absent or empty dictionary gives way to the default |
| Configuration.SeqOr | src/config.py:57 | `x or default`: an absent or empty list gives way to the default |
| Configuration.EmptyIsMissing | src/config.py:54-57 | an explicitly empty argument is treated like a missing one |
| Configuration.TracingEnv | src/config.py:60-65 | tracing off leaves the environment untouched; on, it sets `LANGSMITH_TRACING` to `"true"`, names the project `Adaptive_RAG` unless it already has a non-empty name, and changes no other variable |
| Configuration.TracingIdempotent | src/config.py:60-65 | setting tracing up twice is setting it up once |
| Configuration.Environment.constructor | src/config.py:60-65 | `os.environ`, as a mutable map from variable names to values, starts as the given map |
| Configuration.SetUpTracing | src/config.py:59-65 | the in-place writes to the environment produce `TracingEnv` of the old environment |
| Configuration.Config.constructor | src/config.py:36-65 | each setting is the argument or, when that is absent or empty, the default; the environment becomes `TracingEnv` of the old one |

## Left out

- Language-model chains, prompts, `QueryRouter`, `QueryTransformer` and the structured-output models are oracles; their prompt text is not modelled.
- `VectorStoreRetriever`, Chroma, embeddings and `hub.pull` are oracles or parameters (`retrieve`, `hubAvailable`); they need the network and foreign libraries.
- `HybridRetriever` is not wired into the workflow by the application; it is modelled on its own, as the component it is.
- The internals of LangGraph's `compile`, `invoke` and `stream` are not modelled. The model takes the per-key overwrite merge as given, and does not model the library's own checks (duplicate node names, edge validation).
- Graph.AdaptiveRAGWorkflow.Execute: the fuel allowance is not in the source, which runs until the exit; `finished` reports whether the exit was reached within the allowance.
- App.AdaptiveRAG.Query: returns `None` when the run has not reached the exit within `fuel` steps; in the source such a run goes on until it exits or LangGraph's recursion limit stops it.
- LangGraph's default recursion limit (25 super-steps, after which `invoke` and `stream` raise `GraphRecursionError`) is not modelled; `fuel` plays its part, and a run cut off by it reports `finished == false` instead of raising.
- Scores are `real`; floating-point rounding of `score *= weight` is not modelled.
- The sort's `except` branch is not modelled. After weighting, every score present is a number (`Retrievers.Gather`), so the sort cannot raise.
- Retrievers.Reweigh: the model works on values, so the in-place update of `doc.metadata` and any aliasing between hits (the same object returned twice) are not captured.
- The relevance grader is an oracle on (content, question) within a step, so two copies of one document always get the same verdict (`Graders.FilterKeepsCopies` rests on this); the source asks the model once per copy (src/components/graders.py:68), and a model that answers differently for the copies is not captured.
- The number of times each oracle is called is not counted; that each retriever and each grader is asked once per item follows from the definitions but is not stated as a contract.
- `Text.Lower` lower-cases ASCII letters only. No non-ASCII character lower-cases to `y`, `e` or `s`, so the verdict rule is exact.
- Nodes.GradeDocumentsNode, Nodes.GenerateNode, Edges.DecideToGenerate and Edges.GradeGeneration require the keys they read with `state[...]` (`documents`, and `generation` for the last; the source raises KeyError when one is absent). Within the workflow this always holds (`Graph.Transition`); direct calls without the key are not modelled.
- Configuration.Config.constructor: the defaults are values, so "a copy is taken" holds trivially and is not stated.
- The UI (`ui/`), `src/utils/document_loader.py`, `src/utils/env_setup.py`, `AdaptiveRAG._initialize_system`, `add_documents` and all logging are not part of this model; they are I/O and wiring.

## Findings

| source | as written | input that shows it | evidently intended | confidence | as-written member | corrected member |
|---|---|---|---|---|---|---|
| src/app.py:142 | the routing decision reads `documents[0]` unconditionally | a question routed to web search whose search returns no hits, and whose generation is accepted: the run finishes with `documents == []`, and `query` raises IndexError | a result for every finished run, reporting the route taken | not executed | App.EmptySearchRaises (on App.Assemble and App.AdaptiveRAG.Query) | App.AssembleCorrected, App.EmptySearchCorrected, App.CorrectedRoutingFollowsRouter, App.AdaptiveRAG.QueryCorrected |
| src/app.py:142 with src/components/retrievers.py:59-69 | the routing decision is `"vectorstore"` only when the first document's `retriever` mentions "vector", but the vector-store retriever returns documents without that tag | a question routed to the vector store, one relevant stored document with only `source` metadata, an accepted answer: reported as `"web_search"` | `"vectorstore"` for a run the router sent to the vector store | not executed | App.VectorRouteReportedAsWeb (on App.Assemble and App.AdaptiveRAG.Query) | App.AssembleCorrected, App.VectorRouteCorrected, App.AdaptiveRAG.QueryCorrected |
