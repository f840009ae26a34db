/**
 * The agent's control graph (src/react_agent/graph.py): five nodes wired as
 * thinking -> thought -> call_model -> tools -> observation -> thinking, with
 * one exit, End ("__end__").
 *
 * The chat model is an oracle `Backend` that, given the node that calls it
 * and the history, answers with an AI message; the tool registry is an
 * oracle `Executor` from a tool call to its result text. The step budget
 * behind `is_last_step` is an abstract counter `remaining`: a node runs on
 * its last step when `remaining == 0`, and the counter goes down by one
 * (never below zero) after every node.
 */
module Graph {
  import opened Wrappers

  // ---------------------------------------------------------------------------
  // Messages and state
  // ---------------------------------------------------------------------------

  /** A tool request carried by an AI message. */
  datatype ToolCall = ToolCall(id: string, name: string, args: map<string, string>)

  datatype Message =
    | Human(content: string)
    | AI(id: string, content: string, toolCalls: seq<ToolCall>)
    | ToolResult(toolCallId: string, content: string)

  /** What a chat model returns. */
  type AIMessage = m: Message | m.AI? witness AI("", "", [])

  /** The chat model: its reply to a node, given the history so far. */
  type Backend = (Node, seq<Message>) -> AIMessage

  /** The tool registry: the result text of executing one tool call. */
  type Executor = ToolCall -> string

  /** The reply that replaces a last-step request for tools. */
  const Apology: string :=
    "Sorry, I could not find an answer to your question in the specified number of steps."

  datatype Node = Thinking | Thought | CallModel | Tools | Observation | End

  /** The snapshot a node or a router receives. */
  datatype AgentState = AgentState(messages: seq<Message>, isLastStep: bool)

  /** Why `route_model_output` raises: no last message, or one that is not an AI message. */
  datatype RouteError = EmptyHistory | NotAnAIMessage(got: Message)

  function Last(h: seq<Message>): Message
    requires h != []
  {
    h[|h| - 1]
  }

  /** The node the graph is entered at. */
  const Entry: Node := Thinking

  /** The targets each node's conditional edge declares it may return. */
  function DeclaredTargets(n: Node): set<Node> {
    match n
    case Thinking => {Thought, End}
    case Thought => {CallModel, End}
    case CallModel => {End, Tools}
    case Tools => {Observation, End}
    case Observation => {Thinking, End}
    case End => {}
  }

  // ---------------------------------------------------------------------------
  // Routers
  // ---------------------------------------------------------------------------

  function RouteThinking(s: AgentState): (next: Node)
    ensures next in DeclaredTargets(Thinking)
    ensures next == End <==> s.isLastStep
  {
    if s.isLastStep then End else Thought
  }

  function RouteThought(s: AgentState): (next: Node)
    ensures next in DeclaredTargets(Thought)
    ensures next == End <==> s.isLastStep
  {
    if s.isLastStep then End else CallModel
  }

  /**
   * The only content-driven edge: Tools when the last message is an AI
   * message with tool calls, End when it has none, an error when there is
   * no last message or it is not an AI message. The budget is not consulted.
   */
  function RouteModelOutput(s: AgentState): (r: Result<Node, RouteError>)
    ensures s.messages == [] ==> r == Err(EmptyHistory)
    ensures s.messages != [] && !Last(s.messages).AI? ==> r == Err(NotAnAIMessage(Last(s.messages)))
    ensures r.Ok? <==> s.messages != [] && Last(s.messages).AI?
    ensures r.Ok? ==> r.value in DeclaredTargets(CallModel)
    ensures r.Ok? ==> (r.value == Tools <==> Last(s.messages).toolCalls != [])
  {
    if s.messages == [] then Err(EmptyHistory)
    else
      var last := s.messages[|s.messages| - 1];
      if !last.AI? then Err(NotAnAIMessage(last))
      else if last.toolCalls == [] then Ok(End)
      else Ok(Tools)
  }

  function RouteTools(s: AgentState): (next: Node)
    ensures next in DeclaredTargets(Tools)
    ensures next == End <==> s.isLastStep
  {
    if s.isLastStep then End else Observation
  }

  function RouteObservation(s: AgentState): (next: Node)
    ensures next in DeclaredTargets(Observation)
    ensures next == End <==> s.isLastStep
  {
    if s.isLastStep then End else Thinking
  }

  /** The conditional edges: each node's router, as the graph is wired. */
  function Route(n: Node, s: AgentState): (r: Result<Node, RouteError>)
    requires n != End
    ensures r.Ok? ==> r.value in DeclaredTargets(n)
    ensures n != CallModel ==> r.Ok? && (r.value == End <==> s.isLastStep)
  {
    match n
    case Thinking => Ok(RouteThinking(s))
    case Thought => Ok(RouteThought(s))
    case CallModel => RouteModelOutput(s)
    case Tools => Ok(RouteTools(s))
    case Observation => Ok(RouteObservation(s))
  }

  /** `route_model_output` gives the same answer whatever the budget says. */
  lemma RouteModelOutputIgnoresBudget(messages: seq<Message>)
    ensures RouteModelOutput(AgentState(messages, true)) == RouteModelOutput(AgentState(messages, false))
  {
  }

  /** Every edge other than call_model's goes on to the next node of the cycle unless the budget is spent. */
  lemma GuardedEdgesFollowCycle(n: Node, s: AgentState)
    requires n != End && n != CallModel && !s.isLastStep
    ensures Route(n, s) == Ok(match n
      case Thinking => Thought
      case Thought => CallModel
      case Tools => Observation
      case _ => Thinking)
  {
  }

  // ---------------------------------------------------------------------------
  // Nodes
  // ---------------------------------------------------------------------------

  /**
   * call_model's result: the reply, unless it asks for tools on the last
   * step; then one AI message with the reply's id, the apology and no tool
   * calls.
   */
  function CallModelUpdate(s: AgentState, reply: AIMessage): (delta: seq<Message>)
    ensures |delta| == 1 && delta[0].AI? && delta[0].id == reply.id
    ensures s.isLastStep && reply.toolCalls != [] ==> delta[0] == AI(reply.id, Apology, [])
    ensures !(s.isLastStep && reply.toolCalls != []) ==> delta == [reply]
    ensures s.isLastStep ==> delta[0].toolCalls == []
  {
    if s.isLastStep && reply.toolCalls != [] then [AI(reply.id, Apology, [])]
    else [reply]
  }

  /** The tool node's result: one tool-result message per call, in call order, each carrying its call's id. */
  function ToolResults(calls: seq<ToolCall>, execute: Executor): (delta: seq<Message>)
    ensures |delta| == |calls|
    ensures forall k :: 0 <= k < |delta| ==> delta[k] == ToolResult(calls[k].id, execute(calls[k]))
  {
    if calls == [] then []
    else [ToolResult(calls[0].id, execute(calls[0]))] + ToolResults(calls[1..], execute)
  }

  /** A snapshot the tool node can run on: its last message is an AI message. */
  predicate ToolsReady(s: AgentState) {
    s.messages != [] && Last(s.messages).AI?
  }

  /**
   * The messages node `n` adds to the history. thinking, thought and
   * observation add the model's reply as it is; call_model adds its
   * possibly substituted reply; tools adds the results of the last AI
   * message's calls.
   */
  function NodeUpdate(n: Node, s: AgentState, backend: Backend, execute: Executor): (delta: seq<Message>)
    requires n != End
    requires n == Tools ==> ToolsReady(s)
    ensures n != Tools ==> |delta| == 1 && delta[0].AI?
    ensures n in {Thinking, Thought, Observation} ==> delta == [backend(n, s.messages)]
    ensures n == Tools ==> |delta| == |Last(s.messages).toolCalls|
    ensures n == Tools ==> forall k :: 0 <= k < |delta| ==> delta[k].ToolResult?
  {
    match n
    case CallModel => CallModelUpdate(s, backend(n, s.messages))
    case Tools => ToolResults(Last(s.messages).toolCalls, execute)
    case _ => [backend(n, s.messages)]
  }

  /** The snapshot the router sees after node `n` has run on `s`. */
  function After(n: Node, s: AgentState, backend: Backend, execute: Executor): AgentState
    requires n != End
    requires n == Tools ==> ToolsReady(s)
  {
    AgentState(s.messages + NodeUpdate(n, s, backend, execute), s.isLastStep)
  }

  /** call_model on the last step is never followed by tools: the run ends there. */
  lemma LastStepCallModelEnds(s: AgentState, backend: Backend, execute: Executor)
    requires s.isLastStep
    ensures Route(CallModel, After(CallModel, s, backend, execute)) == Ok(End)
  {
  }

  /** After call_model, `route_model_output` never raises: the last message is the model's AI message. */
  lemma CallModelRouteDefined(s: AgentState, backend: Backend, execute: Executor)
    ensures Route(CallModel, After(CallModel, s, backend, execute)).Ok?
  {
  }

  /** On the last step, every node routes to End: the budget bounds every path. */
  lemma LastStepEnds(n: Node, s: AgentState, backend: Backend, execute: Executor)
    requires n != End && (n == Tools ==> ToolsReady(s))
    requires s.isLastStep
    ensures Route(n, After(n, s, backend, execute)) == Ok(End)
  {
  }

  // ---------------------------------------------------------------------------
  // Tool-result correlation
  // ---------------------------------------------------------------------------

  /** Some call in `calls` has id `id`. */
  predicate HasCallId(calls: seq<ToolCall>, id: string) {
    exists c :: c in calls && c.id == id
  }

  /**
   * The tool result at index `k` answers a call of an earlier AI message,
   * with only tool results between the two.
   */
  ghost predicate Answers(h: seq<Message>, k: int)
    requires 0 <= k < |h| && h[k].ToolResult?
  {
    exists j :: 0 <= j < k && h[j].AI? && HasCallId(h[j].toolCalls, h[k].toolCallId)
      && forall m :: j < m < k ==> h[m].ToolResult?
  }

  /** Every tool result from index `from` on answers a call of the AI message that precedes its block. */
  ghost predicate ToolResultsAnswered(h: seq<Message>, from: nat) {
    forall k :: from <= k < |h| && h[k].ToolResult? ==> Answers(h, k)
  }

  /** An answered tool result stays answered when messages are appended. */
  lemma {:induction false} AnswersExtends(h: seq<Message>, d: seq<Message>, k: int)
    requires 0 <= k < |h| && h[k].ToolResult? && Answers(h, k)
    ensures Answers(h + d, k)
  {
    var j :| 0 <= j < k && h[j].AI? && HasCallId(h[j].toolCalls, h[k].toolCallId)
      && forall m :: j < m < k ==> h[m].ToolResult?;
    assert (h + d)[j] == h[j] && (h + d)[k] == h[k];
    assert forall m :: j < m < k ==> (h + d)[m] == h[m];
  }

  /** Appending messages none of which is a tool result keeps the correlation. */
  lemma AnsweredAfterNonTool(h: seq<Message>, d: seq<Message>, from: nat)
    requires ToolResultsAnswered(h, from)
    requires forall k :: 0 <= k < |d| ==> !d[k].ToolResult?
    ensures ToolResultsAnswered(h + d, from)
  {
    assert forall k :: |h| <= k < |h + d| ==> (h + d)[k] == d[k - |h|];
    forall k | from <= k < |h + d| && (h + d)[k].ToolResult? ensures Answers(h + d, k) {
      assert (h + d)[k] == h[k];
      AnswersExtends(h, d, k);
    }
  }

  /** Appending the results of the last AI message's calls keeps the correlation. */
  lemma AnsweredAfterTools(h: seq<Message>, execute: Executor, from: nat)
    requires ToolResultsAnswered(h, from)
    requires h != [] && Last(h).AI?
    ensures ToolResultsAnswered(h + ToolResults(Last(h).toolCalls, execute), from)
  {
    var calls := Last(h).toolCalls;
    var d := ToolResults(calls, execute);
    var h' := h + d;
    var j := |h| - 1;
    forall k | from <= k < |h'| && h'[k].ToolResult? ensures Answers(h', k) {
      if k < |h| {
        assert h'[k] == h[k];
        AnswersExtends(h, d, k);
      } else {
        var c := calls[k - |h|];
        assert h'[k] == d[k - |h|] == ToolResult(c.id, execute(c));
        assert c in h'[j].toolCalls;
        assert HasCallId(h'[j].toolCalls, h'[k].toolCallId);
        assert forall m :: j < m < k ==> h'[m] == d[m - |h|];
      }
    }
  }

  // ---------------------------------------------------------------------------
  // The run
  // ---------------------------------------------------------------------------

  /** Node `n` ran on snapshot `s` and the history became `next`: the node's messages were appended. */
  ghost predicate Executes(n: Node, s: AgentState, next: seq<Message>, backend: Backend, execute: Executor) {
    n != End && (n == Tools ==> ToolsReady(s))
    && next == s.messages + NodeUpdate(n, s, backend, execute)
  }

  /**
   * The nodes `trace` ran one after another from history `hs[0]`: node
   * `trace[i]` saw history `hs[i]`, ran on its last step exactly when
   * `i == budget`, appended its messages to give `hs[i + 1]`, and its
   * router then chose the next node of the trace, or `last` after the
   * final one.
   */
  ghost predicate FollowsGraph(trace: seq<Node>, hs: seq<seq<Message>>, last: Node,
                               budget: nat, backend: Backend, execute: Executor)
  {
    |hs| == |trace| + 1
    && forall i :: 0 <= i < |trace| ==>
      Executes(trace[i], AgentState(hs[i], i == budget), hs[i + 1], backend, execute)
      && Route(trace[i], AgentState(hs[i + 1], i == budget))
         == Ok(if i + 1 < |trace| then trace[i + 1] else last)
  }

  /** One more node run extends a path through the graph. */
  lemma FollowsGraphExtend(trace: seq<Node>, hs: seq<seq<Message>>, node: Node, next: Node,
                           h: seq<Message>, budget: nat, backend: Backend, execute: Executor)
    requires FollowsGraph(trace, hs, node, budget, backend, execute)
    requires Executes(node, AgentState(hs[|trace|], |trace| == budget), h, backend, execute)
    requires Route(node, AgentState(h, |trace| == budget)) == Ok(next)
    ensures FollowsGraph(trace + [node], hs + [h], next, budget, backend, execute)
  {
    var t, hs' := trace + [node], hs + [h];
    forall i | 0 <= i < |t|
      ensures Executes(t[i], AgentState(hs'[i], i == budget), hs'[i + 1], backend, execute)
      ensures Route(t[i], AgentState(hs'[i + 1], i == budget))
              == Ok(if i + 1 < |t| then t[i + 1] else next)
    {
      if i < |trace| {
        assert t[i] == trace[i] && hs'[i] == hs[i] && hs'[i + 1] == hs[i + 1];
        assert Executes(trace[i], AgentState(hs[i], i == budget), hs[i + 1], backend, execute);
        assert Route(trace[i], AgentState(hs[i + 1], i == budget))
               == Ok(if i + 1 < |trace| then trace[i + 1] else node);
        assert (if i + 1 < |t| then t[i + 1] else next) == (if i + 1 < |trace| then trace[i + 1] else node);
      } else {
        assert t[i] == node && hs'[i] == hs[|trace|] && hs'[i + 1] == h;
      }
    }
  }

  /**
   * Runs the compiled graph from its entry until a router returns End.
   * `steps` counts node executions, `trace` lists the nodes in the order
   * they ran, `hs[i]` is the history node `trace[i]` saw (so `hs[steps]` is
   * the final one), and `exitNode` is the node whose router ended the run.
   */
  method Run(input: seq<Message>, budget: nat, backend: Backend, execute: Executor)
    returns (history: seq<Message>, ghost steps: nat, ghost trace: seq<Node>,
             ghost hs: seq<seq<Message>>, ghost exitNode: Node)
    ensures input <= history
    ensures 1 <= steps <= budget + 1 && |trace| == steps && |hs| == steps + 1
    ensures trace[0] == Entry && trace[steps - 1] == exitNode
    ensures hs[0] == input && hs[steps] == history
    ensures FollowsGraph(trace, hs, End, budget, backend, execute)
    ensures exitNode != CallModel ==> steps == budget + 1
    ensures exitNode == CallModel ==> history != [] && Last(history).AI? && Last(history).toolCalls == []
    ensures ToolResultsAnswered(history, |input|)
  {
    history := input;
    var node := Entry;
    var remaining := budget;
    steps, trace, hs, exitNode := 0, [], [input], Entry;
    while node != End
      invariant input <= history
      invariant |trace| == steps <= budget + 1 && |hs| == steps + 1
      invariant hs[0] == input && hs[steps] == history
      invariant FollowsGraph(trace, hs, node, budget, backend, execute)
      invariant steps == 0 ==> node == Entry
      invariant steps > 0 ==> trace[0] == Entry
      invariant node != End ==> steps + remaining == budget
      invariant node == Tools ==> history != [] && Last(history).AI?
      invariant node == End ==> 1 <= steps && trace[steps - 1] == exitNode
      invariant node == End && exitNode != CallModel ==> steps == budget + 1
      invariant node == End && exitNode == CallModel ==>
        history != [] && Last(history).AI? && Last(history).toolCalls == []
      invariant ToolResultsAnswered(history, |input|)
      decreases remaining, if node == End then 0 else 1
    {
      var snapshot := AgentState(history, remaining == 0);
      var delta := NodeUpdate(node, snapshot, backend, execute);
      if node == Tools {
        AnsweredAfterTools(history, execute, |input|);
      } else {
        AnsweredAfterNonTool(history, delta, |input|);
      }
      var h := history + delta;
      var after := AgentState(h, remaining == 0);
      if node == CallModel {
        CallModelRouteDefined(snapshot, backend, execute);
      }
      if remaining == 0 {
        LastStepEnds(node, snapshot, backend, execute);
      }
      var next := Route(node, after);
      FollowsGraphExtend(trace, hs, node, next.value, h, budget, backend, execute);
      if node != Tools {
        assert Last(h) == delta[0];
      }
      history := h;
      trace := trace + [node];
      hs := hs + [history];
      steps := steps + 1;
      exitNode := node;
      node := next.value;
      remaining := if remaining == 0 then 0 else remaining - 1;
    }
  }
}
