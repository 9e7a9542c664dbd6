/** `build_graph` (graph/graph.py): nine nodes, one entry point, straight edges and one
    conditional edge, and the loop that runs the compiled graph over a state. */
module Graph {
  import opened Outcomes
  import opened GraphState
  import GraphNodes

  datatype Node =
    | ParseProducts
    | GenerateQuestions
    | ValidateQuestionCount
    | BuildFaqContext
    | GenerateFaqAnswers
    | AssembleFaqPage
    | AssembleProductPage
    | GenerateComparison
    | ValidateFinalOutput

  /** Where an edge leads: a node or `END`. */
  datatype Target = To(node: Node) | End

  /** The name each node is registered under. */
  function Name(n: Node): string
  {
    match n
    case ParseProducts => "parse_products"
    case GenerateQuestions => "generate_questions"
    case ValidateQuestionCount => "validate_question_count"
    case BuildFaqContext => "build_faq_context"
    case GenerateFaqAnswers => "generate_faq_answers"
    case AssembleFaqPage => "assemble_faq_page"
    case AssembleProductPage => "assemble_product_page"
    case GenerateComparison => "generate_comparison"
    case ValidateFinalOutput => "validate_final_output"
  }

  /** The registered nodes, in registration order. */
  const Nodes: seq<Node> := [ParseProducts, GenerateQuestions, ValidateQuestionCount, BuildFaqContext,
    GenerateFaqAnswers, AssembleFaqPage, AssembleProductPage, GenerateComparison, ValidateFinalOutput]

  const Entry: Node := ParseProducts

  /** The path map of the conditional edge out of `validate_question_count`. */
  const GateRoutes: map<string, Node> := map["retry" := GenerateQuestions, "continue" := BuildFaqContext]

  /** The successor of `n`; only the gate looks at the router's answer `route`, which
      must be a key of its path map. */
  function Next(n: Node, route: string): Target
    requires n == ValidateQuestionCount ==> route in GateRoutes
  {
    match n
    case ParseProducts => To(GenerateQuestions)
    case GenerateQuestions => To(ValidateQuestionCount)
    case ValidateQuestionCount => To(GateRoutes[route])
    case BuildFaqContext => To(GenerateFaqAnswers)
    case GenerateFaqAnswers => To(AssembleFaqPage)
    case AssembleFaqPage => To(AssembleProductPage)
    case AssembleProductPage => To(GenerateComparison)
    case GenerateComparison => To(ValidateFinalOutput)
    case ValidateFinalOutput => End
  }

  /** `t` is a successor of `m` for some answer of the router. */
  predicate Edge(m: Node, t: Target)
  {
    t == Next(m, "retry") || t == Next(m, "continue")
  }

  /** The nodes of the question loop. */
  predicate InCycle(n: Node)
  {
    n == GenerateQuestions || n == ValidateQuestionCount
  }

  /** A topological rank for every edge but the back edge. */
  function Rank(t: Target): nat
  {
    match t
    case End => 0
    case To(n) =>
      match n
      case ParseProducts => 9
      case GenerateQuestions => 8
      case ValidateQuestionCount => 7
      case BuildFaqContext => 6
      case GenerateFaqAnswers => 5
      case AssembleFaqPage => 4
      case AssembleProductPage => 3
      case GenerateComparison => 2
      case ValidateFinalOutput => 1
  }

  // ---------------------------------------------------------------------------------
  // The edge table
  // ---------------------------------------------------------------------------------

  /** Length and first letter tell the registered names apart. */
  function Signature(n: Node): (int, char)
  {
    (|Name(n)|, Name(n)[0])
  }

  /** Nine nodes are registered, each under its own name. */
  lemma NamesDistinct()
    ensures |Nodes| == 9
    ensures forall n: Node :: n in Nodes
    ensures forall m: Node, n: Node :: Name(m) == Name(n) ==> m == n
  {
    forall n: Node ensures n in Nodes {
      assert Nodes[9 - Rank(To(n))] == n;
    }
    forall m: Node, n: Node | Name(m) == Name(n) ensures m == n {
      assert Signature(m) == Signature(n);
    }
  }

  /** The gate is the only node with two successors: "retry" leads back to
      `generate_questions` and "continue" on to `build_faq_context`. Every other edge is
      unconditional. */
  lemma OnlyTheGateBranches(n: Node)
    ensures n != ValidateQuestionCount ==> Next(n, "retry") == Next(n, "continue")
    ensures n == ValidateQuestionCount ==>
      Next(n, "retry") == To(GenerateQuestions) && Next(n, "continue") == To(BuildFaqContext)
  {
  }

  /** Every edge except `validate_question_count` -> `generate_questions` goes down in
      rank, so every cycle of the graph passes through that edge. */
  lemma OnlyCycleIsTheRetryEdge(m: Node, t: Target)
    requires Edge(m, t)
    ensures (m == ValidateQuestionCount && t == To(GenerateQuestions)) || Rank(t) < Rank(To(m))
  {
  }

  /** After the gate the order is fixed: from `build_faq_context`, six straight edges
      lead through the remaining nodes to `END`. */
  lemma DownstreamChain()
    ensures var chain := [BuildFaqContext, GenerateFaqAnswers, AssembleFaqPage, AssembleProductPage,
                          GenerateComparison, ValidateFinalOutput];
      && (forall k :: 0 <= k < |chain| - 1 ==> Edge(chain[k], To(chain[k + 1])) && !Edge(chain[k], End))
      && Edge(ValidateFinalOutput, End)
      && forall t :: Edge(ValidateFinalOutput, t) ==> t == End
  {
  }

  // ---------------------------------------------------------------------------------
  // Running the compiled graph
  // ---------------------------------------------------------------------------------

  /** How many times `generate_questions` can run: once, and more only while the gate
      finds attempts left. */
  function GenerationBound(maxAttempts: int, attempts: int): int
  {
    if maxAttempts - attempts > 1 then maxAttempts - attempts else 1
  }

  /** 1 while the question loop may still run, 0 after it. */
  function Phase(t: Target): nat
  {
    if t.To? && (t.node == ParseProducts || InCycle(t.node)) then 1 else 0
  }

  /** The attempts left before the gate stops retrying. */
  function Budget(attempts: int, maxAttempts: int): nat
  {
    if maxAttempts - attempts > 0 then maxAttempts - attempts else 0
  }

  /** Inside the question loop: falls at every step, since `generate_questions` consumes
      an attempt and the gate retries only with one left. */
  function Potential(t: Target, attempts: int, maxAttempts: int): nat
  {
    if t == To(ParseProducts) then 2 * Budget(attempts, maxAttempts) + 2
    else if t == To(GenerateQuestions) then 2 * Budget(attempts, maxAttempts) + 1
    else if t == To(ValidateQuestionCount) then
      (if attempts >= maxAttempts then 0 else 2 * Budget(attempts, maxAttempts) + 2)
    else 0
  }

  /** `parse_products` never raises and leaves the question counters alone. */
  method ParseStep(st: AgentState)
    modifies st
    ensures st.maxQuestionGenerationAttempts == old(st.maxQuestionGenerationAttempts)
    ensures st.minRequiredQuestions == old(st.minRequiredQuestions)
    ensures st.questionGenerationAttempts == old(st.questionGenerationAttempts)
  {
    GraphNodes.ParseProducts(st);
  }

  /** `generate_questions` uses one attempt when it completes. */
  method GenerateStep(st: AgentState) returns (raised: Option<Error>)
    modifies st
    ensures st.maxQuestionGenerationAttempts == old(st.maxQuestionGenerationAttempts)
    ensures st.minRequiredQuestions == old(st.minRequiredQuestions)
    ensures st.questionGenerationAttempts ==
      old(st.questionGenerationAttempts) + (if raised.None? then 1 else 0)
  {
    raised := GraphNodes.GenerateQuestions(st);
  }

  /** The gate and its router: "retry" only with attempts left. */
  method GateStep(st: AgentState) returns (route: string)
    modifies st
    ensures st.maxQuestionGenerationAttempts == old(st.maxQuestionGenerationAttempts)
    ensures st.minRequiredQuestions == old(st.minRequiredQuestions)
    ensures st.questionGenerationAttempts == old(st.questionGenerationAttempts)
    ensures route in GateRoutes
    ensures route == "retry" ==> st.questionGenerationAttempts < st.maxQuestionGenerationAttempts
  {
    GraphNodes.ValidateQuestionCount(st);
    route := GraphNodes.RouteAfterQuestionValidation(st.retryFlags);
  }

  /** Runs a node after the gate; none of them touches the question counters. */
  method DownstreamStep(st: AgentState, env: Env, node: Node) returns (raised: Option<Error>)
    requires node != ParseProducts && !InCycle(node)
    modifies st
    ensures st.maxQuestionGenerationAttempts == old(st.maxQuestionGenerationAttempts)
    ensures st.minRequiredQuestions == old(st.minRequiredQuestions)
    ensures st.questionGenerationAttempts == old(st.questionGenerationAttempts)
  {
    match node {
      case BuildFaqContext =>
        raised := GraphNodes.BuildFaqContext(st, env);
      case GenerateFaqAnswers =>
        raised := GraphNodes.GenerateFaqAnswers(st, env);
      case AssembleFaqPage =>
        raised := GraphNodes.AssembleFaqPage(st, env);
      case AssembleProductPage =>
        raised := GraphNodes.AssembleProductPage(st, env);
      case GenerateComparison =>
        var blocks;
        raised, blocks := GraphNodes.GenerateComparison(st, env);
      case ValidateFinalOutput =>
        raised := GraphNodes.ValidateFinalOutput(st);
    }
  }

  /** Runs one node and reports the route its outgoing edge takes: "continue" except
      after the gate, whose router may answer "retry" only with attempts left. */
  method Step(st: AgentState, env: Env, node: Node) returns (raised: Option<Error>, route: string)
    modifies st
    ensures st.maxQuestionGenerationAttempts == old(st.maxQuestionGenerationAttempts)
    ensures st.minRequiredQuestions == old(st.minRequiredQuestions)
    ensures st.questionGenerationAttempts ==
      old(st.questionGenerationAttempts) + (if node == GenerateQuestions && raised.None? then 1 else 0)
    ensures node != ValidateQuestionCount ==> route == "continue"
    ensures node == ValidateQuestionCount ==> raised.None? && route in GateRoutes
    ensures node == ValidateQuestionCount && route == "retry" ==>
      old(st.questionGenerationAttempts) < st.maxQuestionGenerationAttempts
  {
    route := "continue";
    if node == ParseProducts {
      ParseStep(st);
      raised := None;
    } else if node == GenerateQuestions {
      raised := GenerateStep(st);
    } else if node == ValidateQuestionCount {
      route := GateStep(st);
      raised := None;
    } else {
      raised := DownstreamStep(st, env, node);
    }
  }

  /** A path from the entry whose repeated nodes lie on the cycle, and whose nodes off the
      cycle all rank above `current`. */
  ghost predicate Path(trace: seq<Node>, current: Target)
  {
    && |trace| > 0 && trace[0] == Entry && Edge(trace[|trace| - 1], current)
    && (forall k :: 0 <= k < |trace| - 1 ==> Edge(trace[k], To(trace[k + 1])))
    && (forall j, k :: 0 <= j < k < |trace| && trace[j] == trace[k] ==> InCycle(trace[j]))
    && (forall k :: 0 <= k < |trace| && !InCycle(trace[k]) ==> Rank(To(trace[k])) > Rank(current))
  }

  /** The loop's bookkeeping: `trace` is such a path, `attempts` counts one use per visit
      of `generate_questions` on top of `attempts0`, those visits stay within the bound,
      `generate_questions` is re-entered only with attempts left, and `END` is reached
      only from `validate_final_output`. */
  ghost predicate Progress(trace: seq<Node>, current: Target, attempts: int, attempts0: int, maxAttempts: int)
  {
    && Path(trace, current)
    && attempts == attempts0 + multiset(trace)[GenerateQuestions]
    && multiset(trace)[GenerateQuestions] <= GenerationBound(maxAttempts, attempts0)
    && (current == To(GenerateQuestions) ==>
          multiset(trace)[GenerateQuestions] == 0 || attempts < maxAttempts)
    && (current == End ==> trace[|trace| - 1] == ValidateFinalOutput)
  }

  /** Entering `node` keeps the path from the entry, its repeats on the cycle, and the
      number of visits of `generate_questions` within the bound. */
  lemma Entered(trace: seq<Node>, node: Node, attempts: int, attempts0: int, maxAttempts: int)
    requires Progress(trace, To(node), attempts, attempts0, maxAttempts)
    ensures var t := trace + [node];
      && t[0] == Entry
      && (forall k :: 0 <= k < |t| - 1 ==> Edge(t[k], To(t[k + 1])))
      && (forall j, k :: 0 <= j < k < |t| && t[j] == t[k] ==> InCycle(t[j]))
      && multiset(t)[GenerateQuestions] == multiset(trace)[GenerateQuestions] + (if node == GenerateQuestions then 1 else 0)
      && multiset(t)[GenerateQuestions] <= GenerationBound(maxAttempts, attempts0)
  {
    var t := trace + [node];
    forall k | 0 <= k < |t| - 1
      ensures Edge(t[k], To(t[k + 1]))
    {
      if k == |t| - 2 {
        assert t[k] == trace[|trace| - 1];
      } else {
        assert t[k] == trace[k] && t[k + 1] == trace[k + 1];
      }
    }
    forall j, k | 0 <= j < k < |t| && t[j] == t[k]
      ensures InCycle(t[j])
    {
      if k < |trace| {
        assert t[j] == trace[j] && t[k] == trace[k];
      } else {
        assert t[j] == trace[j];
      }
    }
    assert multiset(t) == multiset(trace) + multiset{node};
  }

  /** Entering `node` and leaving it along the edge its route selects keeps the
      bookkeeping, given that the gate answers "retry" only with attempts left. */
  lemma ProgressExtends(trace: seq<Node>, node: Node, route: string, attempts: int, attemptsAfter: int,
                        attempts0: int, maxAttempts: int)
    requires Progress(trace, To(node), attempts, attempts0, maxAttempts)
    requires node == ValidateQuestionCount ==> route in GateRoutes
    requires node == ValidateQuestionCount && route == "retry" ==> attempts < maxAttempts
    requires attemptsAfter == attempts + (if node == GenerateQuestions then 1 else 0)
    ensures Progress(trace + [node], Next(node, route), attemptsAfter, attempts0, maxAttempts)
  {
    var t := trace + [node];
    var after := Next(node, route);
    Entered(trace, node, attempts, attempts0, maxAttempts);
    forall k | 0 <= k < |t| && !InCycle(t[k])
      ensures Rank(To(t[k])) > Rank(after)
    {
      OnlyCycleIsTheRetryEdge(node, after);
      if k < |trace| {
        assert t[k] == trace[k];
      }
    }
  }

  /** Taking an edge from `node` lowers the lexicographic measure (phase, potential,
      rank): the back edge is taken only with attempts left, and `generate_questions`
      uses one up. */
  lemma {:induction false} EdgeLowersMeasure(node: Node, route: string, attempts: int, attemptsAfter: int, maxAttempts: int)
    requires node == ValidateQuestionCount ==> route in GateRoutes
    requires node == ValidateQuestionCount && route == "retry" ==> attempts < maxAttempts
    requires attemptsAfter == attempts + (if node == GenerateQuestions then 1 else 0)
    ensures var before := To(node);
      var after := Next(node, route);
      || Phase(after) < Phase(before)
      || (Phase(after) == Phase(before) && Potential(after, attemptsAfter, maxAttempts) < Potential(before, attempts, maxAttempts))
      || (Phase(after) == Phase(before) && Potential(after, attemptsAfter, maxAttempts) == Potential(before, attempts, maxAttempts)
          && Rank(after) < Rank(before))
  {
    if node == GenerateQuestions {
      if attemptsAfter < maxAttempts {
        assert Budget(attemptsAfter, maxAttempts) + 1 == Budget(attempts, maxAttempts);
      }
    } else if node == ValidateQuestionCount && route == "retry" {
      assert Next(node, route) == To(GenerateQuestions);
    }
  }

  /** The compiled graph invoked on `st`: runs nodes from the entry point until `END`,
      or until a node raises. `trace` lists the nodes entered, the last one being the
      node that raised, if any. */
  method Run(st: AgentState, env: Env) returns (raised: Option<Error>, trace: seq<Node>)
    modifies st
    ensures st.maxQuestionGenerationAttempts == old(st.maxQuestionGenerationAttempts)
    ensures st.minRequiredQuestions == old(st.minRequiredQuestions)
    ensures |trace| > 0 && trace[0] == Entry
    ensures forall k :: 0 <= k < |trace| - 1 ==> Edge(trace[k], To(trace[k + 1]))
    ensures raised.None? ==> trace[|trace| - 1] == ValidateFinalOutput
    ensures multiset(trace)[GenerateQuestions] <=
      GenerationBound(old(st.maxQuestionGenerationAttempts), old(st.questionGenerationAttempts))
    ensures forall j, k :: 0 <= j < k < |trace| && trace[j] == trace[k] ==> InCycle(trace[j])
    ensures st.questionGenerationAttempts == old(st.questionGenerationAttempts)
      + multiset(trace)[GenerateQuestions] - (if raised.Some? && trace[|trace| - 1] == GenerateQuestions then 1 else 0)
  {
    ghost var attempts0 := st.questionGenerationAttempts;
    ghost var maxAttempts := st.maxQuestionGenerationAttempts;
    ghost var minRequired := st.minRequiredQuestions;
    trace := [Entry];
    ParseStep(st);
    var current := Next(Entry, "continue");
    while current.To?
      invariant st.maxQuestionGenerationAttempts == maxAttempts
      invariant st.minRequiredQuestions == minRequired
      invariant Progress(trace, current, st.questionGenerationAttempts, attempts0, maxAttempts)
      decreases Phase(current), Potential(current, st.questionGenerationAttempts, maxAttempts), Rank(current)
    {
      var node := current.node;
      ghost var attempts := st.questionGenerationAttempts;
      ghost var before := trace;
      Entered(before, node, attempts, attempts0, maxAttempts);
      trace := trace + [node];
      var route;
      raised, route := Step(st, env, node);
      if raised.Some? {
        return;
      }
      EdgeLowersMeasure(node, route, attempts, st.questionGenerationAttempts, maxAttempts);
      ProgressExtends(before, node, route, attempts, st.questionGenerationAttempts, attempts0, maxAttempts);
      current := Next(node, route);
    }
    raised := None;
  }
}
