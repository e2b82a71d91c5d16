/** The turn graph: its nodes and edges as they are added, and the shape that makes every run end. */
module TurnGraph {
  import opened Wrappers

  datatype Node =
    | Start | ResetTurnState | LoadContext | ClassifyIntent
    | AnswerFromPrevious | GlossaryAnswer | SmalltalkAnswer
    | ResolveLookup | ClarifyFromLookup | OutOfScopeAnswer
    | MakePlan | UnsupportedFromPlan | ClarifyFromPlan
    | ValidateSql | ExecuteSql | AnalyzeResult | RetrySql | ExecuteError
    | Synthesize | SaveTurn | End

  /** The keys the routers return. */
  datatype Key =
    | ToAnswerFromPrevious | ToGlossary | ToResolveLookup | ToSmalltalk | ToClarify
    | ToEnd | ToClarifyFromLookup | ToOutOfScope | ToMakePlan
    | ToUnsupportedFromPlan | ToClarifyFromPlan | ToValidateSql
    | ToExecuteSql | ToRetrySql | ToExecuteError | ToAnalyzeResult

  class StateGraph {
    var nodes: set<Node>
    var edges: map<Node, Node>
    var branches: map<Node, map<Key, Node>>

    constructor ()
      ensures nodes == {} && edges == map[] && branches == map[]
    {
      nodes, edges, branches := {}, map[], map[];
    }

    method AddNode(n: Node)
      requires !n.Start? && !n.End? && n !in nodes
      modifies this`nodes
      ensures nodes == old(nodes) + {n}
    {
      nodes := nodes + {n};
    }

    /** An edge may only join nodes already added. */
    method AddEdge(a: Node, b: Node)
      requires a in nodes + {Start} && b in nodes + {End} && a !in edges
      modifies this`edges
      ensures edges == old(edges)[a := b]
    {
      edges := edges[a := b];
    }

    method AddConditionalEdges(a: Node, targets: map<Key, Node>)
      requires a in nodes && a !in branches && forall k :: k in targets ==> targets[k] in nodes
      modifies this`branches
      ensures branches == old(branches)[a := targets]
    {
      branches := branches[a := targets];
    }
  }

  // ------------------------------------------------------------------
  // Where each node leads
  // ------------------------------------------------------------------

  /** The successor of a node with a plain edge. */
  function EdgeFrom(n: Node): Option<Node> {
    match n
    case Start => Some(ResetTurnState)
    case ResetTurnState => Some(LoadContext)
    case LoadContext => Some(ClassifyIntent)
    case RetrySql => Some(MakePlan)
    case AnalyzeResult => Some(Synthesize)
    case GlossaryAnswer => Some(SaveTurn)
    case SmalltalkAnswer => Some(SaveTurn)
    case ClarifyFromLookup => Some(SaveTurn)
    case OutOfScopeAnswer => Some(SaveTurn)
    case UnsupportedFromPlan => Some(SaveTurn)
    case ClarifyFromPlan => Some(SaveTurn)
    case ExecuteError => Some(SaveTurn)
    case Synthesize => Some(SaveTurn)
    case SaveTurn => Some(End)
    case _ => None
  }

  /** The successor a router's key selects. */
  function BranchFrom(n: Node, k: Key): Option<Node> {
    match (n, k)
    case (ClassifyIntent, ToAnswerFromPrevious) => Some(AnswerFromPrevious)
    case (ClassifyIntent, ToGlossary) => Some(GlossaryAnswer)
    case (ClassifyIntent, ToResolveLookup) => Some(ResolveLookup)
    case (ClassifyIntent, ToSmalltalk) => Some(SmalltalkAnswer)
    case (ClassifyIntent, ToClarify) => Some(ResolveLookup)
    case (AnswerFromPrevious, ToResolveLookup) => Some(ResolveLookup)
    case (AnswerFromPrevious, ToEnd) => Some(SaveTurn)
    case (ResolveLookup, ToClarifyFromLookup) => Some(ClarifyFromLookup)
    case (ResolveLookup, ToOutOfScope) => Some(OutOfScopeAnswer)
    case (ResolveLookup, ToMakePlan) => Some(MakePlan)
    case (MakePlan, ToUnsupportedFromPlan) => Some(UnsupportedFromPlan)
    case (MakePlan, ToClarifyFromPlan) => Some(ClarifyFromPlan)
    case (MakePlan, ToOutOfScope) => Some(OutOfScopeAnswer)
    case (MakePlan, ToValidateSql) => Some(ValidateSql)
    case (ValidateSql, ToExecuteSql) => Some(ExecuteSql)
    case (ValidateSql, ToRetrySql) => Some(RetrySql)
    case (ValidateSql, ToOutOfScope) => Some(OutOfScopeAnswer)
    case (ValidateSql, ToExecuteError) => Some(ExecuteError)
    case (ExecuteSql, ToRetrySql) => Some(RetrySql)
    case (ExecuteSql, ToExecuteError) => Some(ExecuteError)
    case (ExecuteSql, ToAnalyzeResult) => Some(AnalyzeResult)
    case _ => None
  }

  predicate Branching(n: Node) {
    n in {ClassifyIntent, AnswerFromPrevious, ResolveLookup, MakePlan, ValidateSql, ExecuteSql}
  }

  /** A graph has exactly the edges and branches of the two functions. */
  ghost predicate HasEdges(edges: map<Node, Node>, wanted: Node -> Option<Node>) {
    forall n :: if n in edges then wanted(n) == Some(edges[n]) else wanted(n) == None
  }

  ghost predicate HasBranches(branches: map<Node, map<Key, Node>>) {
    (forall n :: n in branches <==> Branching(n)) && forall n :: n in branches ==> RightBranches(n, branches[n])
  }

  ghost predicate AllNodes(nodes: set<Node>) { forall n :: n in nodes <==> !n.Start? && !n.End? }

  method AddContextNodes(graph: StateGraph)
    requires graph.nodes !! {ResetTurnState, LoadContext, ClassifyIntent, SaveTurn}
    modifies graph`nodes
    ensures graph.nodes == old(graph.nodes) + {ResetTurnState, LoadContext, ClassifyIntent, SaveTurn}
  {
    graph.AddNode(ResetTurnState);
    graph.AddNode(LoadContext);
    graph.AddNode(ClassifyIntent);
    graph.AddNode(SaveTurn);
  }

  method AddAnswerNodes(graph: StateGraph)
    requires graph.nodes !! {AnswerFromPrevious, GlossaryAnswer, SmalltalkAnswer, OutOfScopeAnswer}
    modifies graph`nodes
    ensures graph.nodes == old(graph.nodes) + {AnswerFromPrevious, GlossaryAnswer, SmalltalkAnswer, OutOfScopeAnswer}
  {
    graph.AddNode(AnswerFromPrevious);
    graph.AddNode(GlossaryAnswer);
    graph.AddNode(SmalltalkAnswer);
    graph.AddNode(OutOfScopeAnswer);
  }

  method AddPlanningNodes(graph: StateGraph)
    requires graph.nodes !! {ResolveLookup, ClarifyFromLookup, MakePlan, UnsupportedFromPlan, ClarifyFromPlan}
    modifies graph`nodes
    ensures graph.nodes == old(graph.nodes) +
            {ResolveLookup, ClarifyFromLookup, MakePlan, UnsupportedFromPlan, ClarifyFromPlan}
  {
    graph.AddNode(ResolveLookup);
    graph.AddNode(ClarifyFromLookup);
    graph.AddNode(MakePlan);
    graph.AddNode(UnsupportedFromPlan);
    graph.AddNode(ClarifyFromPlan);
  }

  method AddExecutionNodes(graph: StateGraph)
    requires graph.nodes !! {ValidateSql, ExecuteSql, AnalyzeResult, RetrySql, ExecuteError, Synthesize}
    modifies graph`nodes
    ensures graph.nodes == old(graph.nodes) +
            {ValidateSql, ExecuteSql, AnalyzeResult, RetrySql, ExecuteError, Synthesize}
  {
    graph.AddNode(ValidateSql);
    graph.AddNode(ExecuteSql);
    graph.AddNode(AnalyzeResult);
    graph.AddNode(RetrySql);
    graph.AddNode(ExecuteError);
    graph.AddNode(Synthesize);
  }

  method AddCopilotNodes(graph: StateGraph)
    requires graph.nodes == {}
    modifies graph`nodes
    ensures AllNodes(graph.nodes)
  {
    AddContextNodes(graph);
    AddAnswerNodes(graph);
    AddPlanningNodes(graph);
    AddExecutionNodes(graph);
  }

  /** Every edge so far is one of the graph's. */
  ghost predicate RightEdges(edges: map<Node, Node>) { forall n :: n in edges ==> EdgeFrom(n) == Some(edges[n]) }

  // The nodes each group of edges leaves from.
  function SetupEdges(): set<Node> { {Start, ResetTurnState, LoadContext} }
  function SqlEdges(): set<Node> { {RetrySql, AnalyzeResult} }
  function AnswerEdges(): set<Node> { {GlossaryAnswer, SmalltalkAnswer} }
  function LookupEdges(): set<Node> { {ClarifyFromLookup, OutOfScopeAnswer} }
  function PlanEdges(): set<Node> { {UnsupportedFromPlan, ClarifyFromPlan} }
  function FinalEdges(): set<Node> { {ExecuteError, Synthesize, SaveTurn} }

  /** The groups are disjoint and together they are every node with a plain edge. */
  lemma EdgeGroups(n: Node)
    ensures EdgeFrom(n).Some? <==>
            n in SetupEdges() + SqlEdges() + AnswerEdges() + LookupEdges() + PlanEdges() + FinalEdges()
    ensures SetupEdges() !! SqlEdges() !! AnswerEdges() !! LookupEdges() !! PlanEdges() !! FinalEdges()
  {
  }

  method AddSetupEdges(graph: StateGraph)
    requires AllNodes(graph.nodes) && RightEdges(graph.edges) && graph.edges.Keys !! SetupEdges()
    modifies graph`edges
    ensures RightEdges(graph.edges) && graph.edges.Keys == old(graph.edges.Keys) + SetupEdges()
  {
    graph.AddEdge(Start, ResetTurnState);
    graph.AddEdge(ResetTurnState, LoadContext);
    graph.AddEdge(LoadContext, ClassifyIntent);
  }

  method AddSqlEdges(graph: StateGraph)
    requires AllNodes(graph.nodes) && RightEdges(graph.edges) && graph.edges.Keys !! SqlEdges()
    modifies graph`edges
    ensures RightEdges(graph.edges) && graph.edges.Keys == old(graph.edges.Keys) + SqlEdges()
  {
    graph.AddEdge(RetrySql, MakePlan);
    graph.AddEdge(AnalyzeResult, Synthesize);
  }

  method AddAnswerEdges(graph: StateGraph)
    requires AllNodes(graph.nodes) && RightEdges(graph.edges) && graph.edges.Keys !! AnswerEdges()
    modifies graph`edges
    ensures RightEdges(graph.edges) && graph.edges.Keys == old(graph.edges.Keys) + AnswerEdges()
  {
    graph.AddEdge(GlossaryAnswer, SaveTurn);
    graph.AddEdge(SmalltalkAnswer, SaveTurn);
  }

  method AddLookupEdges(graph: StateGraph)
    requires AllNodes(graph.nodes) && RightEdges(graph.edges) && graph.edges.Keys !! LookupEdges()
    modifies graph`edges
    ensures RightEdges(graph.edges) && graph.edges.Keys == old(graph.edges.Keys) + LookupEdges()
  {
    graph.AddEdge(ClarifyFromLookup, SaveTurn);
    graph.AddEdge(OutOfScopeAnswer, SaveTurn);
  }

  method AddPlanEdges(graph: StateGraph)
    requires AllNodes(graph.nodes) && RightEdges(graph.edges) && graph.edges.Keys !! PlanEdges()
    modifies graph`edges
    ensures RightEdges(graph.edges) && graph.edges.Keys == old(graph.edges.Keys) + PlanEdges()
  {
    graph.AddEdge(UnsupportedFromPlan, SaveTurn);
    graph.AddEdge(ClarifyFromPlan, SaveTurn);
  }

  method AddFinalEdges(graph: StateGraph)
    requires AllNodes(graph.nodes) && RightEdges(graph.edges) && graph.edges.Keys !! FinalEdges()
    modifies graph`edges
    ensures RightEdges(graph.edges) && graph.edges.Keys == old(graph.edges.Keys) + FinalEdges()
  {
    graph.AddEdge(ExecuteError, SaveTurn);
    graph.AddEdge(Synthesize, SaveTurn);
    graph.AddEdge(SaveTurn, End);
  }

  method AddCopilotEdges(graph: StateGraph)
    requires graph.edges == map[] && AllNodes(graph.nodes)
    modifies graph`edges
    ensures HasEdges(graph.edges, EdgeFrom)
  {
    EdgeGroups(Start);
    AddSetupEdges(graph);
    AddSqlEdges(graph);
    AddAnswerEdges(graph);
    AddLookupEdges(graph);
    AddPlanEdges(graph);
    AddFinalEdges(graph);
    forall n ensures n in graph.edges <==> EdgeFrom(n).Some? {
      EdgeGroups(n);
    }
  }

  /** Every branch so far is one of the graph's. */
  ghost predicate RightSoFar(branches: map<Node, map<Key, Node>>) {
    forall n :: n in branches ==> RightBranches(n, branches[n])
  }

  ghost predicate RightBranches(n: Node, targets: map<Key, Node>) {
    forall k :: if k in targets then BranchFrom(n, k) == Some(targets[k]) else BranchFrom(n, k) == None
  }

  method AddIntentBranches(graph: StateGraph)
    requires AllNodes(graph.nodes) && RightSoFar(graph.branches) && ClassifyIntent !in graph.branches
    modifies graph`branches
    ensures RightSoFar(graph.branches) && graph.branches.Keys == old(graph.branches.Keys) + {ClassifyIntent}
  {
    var targets := map[ToAnswerFromPrevious := AnswerFromPrevious, ToGlossary := GlossaryAnswer,
                       ToResolveLookup := ResolveLookup, ToSmalltalk := SmalltalkAnswer,
                       ToClarify := ResolveLookup];
    assert RightBranches(ClassifyIntent, targets);
    graph.AddConditionalEdges(ClassifyIntent, targets);
  }

  method AddFollowupBranches(graph: StateGraph)
    requires AllNodes(graph.nodes) && RightSoFar(graph.branches) && AnswerFromPrevious !in graph.branches
    modifies graph`branches
    ensures RightSoFar(graph.branches) && graph.branches.Keys == old(graph.branches.Keys) + {AnswerFromPrevious}
  {
    var targets := map[ToResolveLookup := ResolveLookup, ToEnd := SaveTurn];
    assert RightBranches(AnswerFromPrevious, targets);
    graph.AddConditionalEdges(AnswerFromPrevious, targets);
  }

  method AddLookupBranches(graph: StateGraph)
    requires AllNodes(graph.nodes) && RightSoFar(graph.branches) && ResolveLookup !in graph.branches
    modifies graph`branches
    ensures RightSoFar(graph.branches) && graph.branches.Keys == old(graph.branches.Keys) + {ResolveLookup}
  {
    var targets := map[ToClarifyFromLookup := ClarifyFromLookup, ToOutOfScope := OutOfScopeAnswer,
                       ToMakePlan := MakePlan];
    assert RightBranches(ResolveLookup, targets);
    graph.AddConditionalEdges(ResolveLookup, targets);
  }

  method AddPlanBranches(graph: StateGraph)
    requires AllNodes(graph.nodes) && RightSoFar(graph.branches) && MakePlan !in graph.branches
    modifies graph`branches
    ensures RightSoFar(graph.branches) && graph.branches.Keys == old(graph.branches.Keys) + {MakePlan}
  {
    var targets := map[ToUnsupportedFromPlan := UnsupportedFromPlan, ToClarifyFromPlan := ClarifyFromPlan,
                       ToOutOfScope := OutOfScopeAnswer, ToValidateSql := ValidateSql];
    assert RightBranches(MakePlan, targets);
    graph.AddConditionalEdges(MakePlan, targets);
  }

  method AddValidationBranches(graph: StateGraph)
    requires AllNodes(graph.nodes) && RightSoFar(graph.branches) && ValidateSql !in graph.branches
    modifies graph`branches
    ensures RightSoFar(graph.branches) && graph.branches.Keys == old(graph.branches.Keys) + {ValidateSql}
  {
    var targets := map[ToExecuteSql := ExecuteSql, ToRetrySql := RetrySql, ToOutOfScope := OutOfScopeAnswer,
                       ToExecuteError := ExecuteError];
    assert RightBranches(ValidateSql, targets);
    graph.AddConditionalEdges(ValidateSql, targets);
  }

  method AddExecutionBranches(graph: StateGraph)
    requires AllNodes(graph.nodes) && RightSoFar(graph.branches) && ExecuteSql !in graph.branches
    modifies graph`branches
    ensures RightSoFar(graph.branches) && graph.branches.Keys == old(graph.branches.Keys) + {ExecuteSql}
  {
    var targets := map[ToRetrySql := RetrySql, ToExecuteError := ExecuteError, ToAnalyzeResult := AnalyzeResult];
    assert RightBranches(ExecuteSql, targets);
    graph.AddConditionalEdges(ExecuteSql, targets);
  }

  method AddRoutingBranches(graph: StateGraph)
    requires AllNodes(graph.nodes) && graph.branches == map[]
    modifies graph`branches
    ensures RightSoFar(graph.branches)
    ensures graph.branches.Keys == {ClassifyIntent, AnswerFromPrevious, ResolveLookup}
  {
    AddIntentBranches(graph);
    AddFollowupBranches(graph);
    AddLookupBranches(graph);
  }

  method AddSqlBranches(graph: StateGraph)
    requires AllNodes(graph.nodes) && RightSoFar(graph.branches)
    requires graph.branches.Keys !! {MakePlan, ValidateSql, ExecuteSql}
    modifies graph`branches
    ensures RightSoFar(graph.branches)
    ensures graph.branches.Keys == old(graph.branches.Keys) + {MakePlan, ValidateSql, ExecuteSql}
  {
    AddPlanBranches(graph);
    AddValidationBranches(graph);
    AddExecutionBranches(graph);
  }

  lemma RightAndComplete(branches: map<Node, map<Key, Node>>)
    requires RightSoFar(branches)
    requires branches.Keys == {ClassifyIntent, AnswerFromPrevious, ResolveLookup} + {MakePlan, ValidateSql, ExecuteSql}
    ensures HasBranches(branches)
  {
  }

  method AddCopilotBranches(graph: StateGraph)
    requires graph.branches == map[] && AllNodes(graph.nodes)
    modifies graph`branches
    ensures HasBranches(graph.branches)
  {
    AddRoutingBranches(graph);
    AddSqlBranches(graph);
    RightAndComplete(graph.branches);
  }

  /** build_copilot_graph. */
  method BuildCopilotGraph() returns (graph: StateGraph)
    ensures fresh(graph) && AllNodes(graph.nodes)
    ensures HasEdges(graph.edges, EdgeFrom) && HasBranches(graph.branches)
  {
    graph := new StateGraph();
    AddCopilotNodes(graph);
    AddCopilotBranches(graph);
    AddCopilotEdges(graph);
  }

  // ------------------------------------------------------------------
  // The shape of the graph
  // ------------------------------------------------------------------

  predicate Leads(a: Node, b: Node) { EdgeFrom(a) == Some(b) || exists k :: BranchFrom(a, k) == Some(b) }

  /** Every node but the end leads somewhere, by an edge or by branches and never by both. */
  lemma OneWayOut(n: Node, k: Key)
    ensures EdgeFrom(n).Some? ==> BranchFrom(n, k).None?
    ensures EdgeFrom(n).None? && n != End <==> Branching(n)
  {
  }

  /** How far a node is from the end when no retry is left. */
  function Height(n: Node): nat {
    match n
    case Start => 12
    case ResetTurnState => 11
    case LoadContext => 10
    case ClassifyIntent => 9
    case AnswerFromPrevious => 8
    case ResolveLookup => 7
    case MakePlan => 6
    case ValidateSql => 5
    case ExecuteSql => 4
    case AnalyzeResult => 3
    case RetrySql => 3
    case SaveTurn => 1
    case End => 0
    case _ => 2
  }

  /** The only way up is the retry: every cycle of the graph goes through it. */
  lemma RetryIsTheOnlyWayUp(a: Node, b: Node)
    requires Leads(a, b)
    ensures Height(b) < Height(a) <==> a != RetrySql
  {
  }

  /** The end is reached through save_turn and nothing else. */
  lemma OnlySaveTurnEnds(a: Node)
    ensures Leads(a, End) <==> a == SaveTurn
  {
  }

  ghost predicate Path(p: seq<Node>) { forall i :: 0 <= i < |p| - 1 ==> Leads(p[i], p[i + 1]) }

  /** The nodes on a path are bounded by its retries: each one costs four more at most. */
  lemma {:induction false} PathLength(p: seq<Node>)
    requires Path(p) && p != []
    ensures |p| + Height(p[|p| - 1]) <= 1 + Height(p[0]) + 4 * |Retries(p[..|p| - 1])|
  {
    if |p| > 1 {
      var a, b := p[|p| - 2], p[|p| - 1];
      var init := p[..|p| - 1];
      forall i | 0 <= i < |init| - 1 ensures Leads(init[i], init[i + 1]) {
        assert Leads(p[i], p[i + 1]);
      }
      PathLength(init);
      assert Leads(p[|p| - 2], p[|p| - 2 + 1]);
      RetryIsTheOnlyWayUp(a, b);
      assert init[..|init| - 1] + [a] == init;
    }
  }

  /** The retries on a path. */
  function Retries(p: seq<Node>): seq<Node> {
    if p == [] then [] else Retries(p[..|p| - 1]) + if p[|p| - 1].RetrySql? then [RetrySql] else []
  }
}
