/** The LangGraph agent that every agent file builds: the routing rule `should_continue`,
    the graph wiring of the `create_agent` factories, and a run of the compiled graph over
    the message list of the agent state.

    The chat model and the tools are oracles. A run is given `fuel`, the number of model
    calls it may make: the graph itself has no iteration cap, so fuel is a modelling device
    that lets a run be stated as a total function. */
module AgentLoop {
  import opened Wrappers

  datatype ToolCall = ToolCall(id: string, name: string, args: map<string, string>)

  /** The LangChain message classes in the agent state. */
  datatype Message =
    | SystemMessage(content: string)
    | HumanMessage(content: string)
    | AIMessage(content: string, toolCalls: seq<ToolCall>)
    | ToolMessage(content: string, toolCallId: string)

  /** What the bound chat model answers to a conversation: text and requested tool calls. */
  datatype Reply = Reply(content: string, toolCalls: seq<ToolCall>)

  type Model = seq<Message> -> Reply

  /** What running one requested tool call gives back as text. */
  type Executor = ToolCall -> string

  datatype Route = Continue | End

  /** `should_continue`: go on to the tools exactly when the last message is an AI
      message that requests at least one tool call. */
  function ShouldContinue(messages: seq<Message>): (r: Route)
    requires |messages| > 0
    ensures r == Continue <==> messages[|messages| - 1].AIMessage? && messages[|messages| - 1].toolCalls != []
  {
    match messages[|messages| - 1]
    case AIMessage(_, calls) => if |calls| == 0 then End else Continue
    case _ => End
  }

  /** `call_model`: the state update carrying the model's one response. */
  function CallModel(model: Model, messages: seq<Message>): (update: seq<Message>)
    ensures |update| == 1 && update[0].AIMessage?
    ensures update[0].content == model(messages).content
    ensures update[0].toolCalls == model(messages).toolCalls
  {
    var reply := model(messages);
    [AIMessage(reply.content, reply.toolCalls)]
  }

  /** The `add_messages` reducer of the `messages` channel, for updates with fresh ids. */
  function AddMessages(messages: seq<Message>, update: seq<Message>): seq<Message> {
    messages + update
  }

  /** Every call of `calls` answered in order by a tool message carrying its id. */
  predicate Answers(results: seq<Message>, calls: seq<ToolCall>) {
    |results| == |calls| &&
    forall i :: 0 <= i < |calls| ==> results[i].ToolMessage? && results[i].toolCallId == calls[i].id
  }

  /** The `tools` node: one tool message per call of the last AI message. */
  function ToolNode(execute: Executor, messages: seq<Message>): (results: seq<Message>)
    requires |messages| > 0 && messages[|messages| - 1].AIMessage?
    ensures Answers(results, messages[|messages| - 1].toolCalls)
  {
    var calls := messages[|messages| - 1].toolCalls;
    seq(|calls|, i requires 0 <= i < |calls| => ToolMessage(execute(calls[i]), calls[i].id))
  }

  datatype Node = Agent | Tools | Finish

  /** A `StateGraph` as the factories build it. */
  datatype Graph = Graph(
    nodes: set<Node>,
    entry: Option<Node>,
    branches: map<Node, map<Route, Node>>,
    edges: map<Node, Node>)
  {
    function AddNode(n: Node): Graph {
      this.(nodes := nodes + {n})
    }

    function SetEntryPoint(n: Node): Graph {
      this.(entry := Some(n))
    }

    function AddConditionalEdges(source: Node, routes: map<Route, Node>): Graph {
      this.(branches := branches[source := routes])
    }

    function AddEdge(source: Node, target: Node): Graph {
      this.(edges := edges[source := target])
    }

    /** The node that runs after `n` when the routing function of `n` chose `route`. */
    function Next(n: Node, route: Route): Option<Node> {
      if n in branches then
        if route in branches[n] then Some(branches[n][route]) else None
      else if n in edges then Some(edges[n])
      else None
    }
  }

  const EmptyGraph := Graph({}, None, map[], map[])

  /** The wiring every factory and agent module performs: enter at `agent`; from `agent`,
      "continue" leads to `tools` and "end" to END; `tools` always leads back to `agent`. */
  function Workflow(): (g: Graph)
    ensures g.nodes == {Agent, Tools}
    ensures g.entry == Some(Agent)
    ensures g.Next(Agent, Continue) == Some(Tools) && g.Next(Agent, End) == Some(Finish)
    ensures forall route :: g.Next(Tools, route) == Some(Agent)
    ensures forall route :: g.Next(Finish, route) == None
  {
    EmptyGraph
      .AddNode(Agent)
      .AddNode(Tools)
      .SetEntryPoint(Agent)
      .AddConditionalEdges(Agent, map[Continue := Tools, End := Finish])
      .AddEdge(Tools, Agent)
  }

  datatype Outcome = Done(messages: seq<Message>) | OutOfFuel(messages: seq<Message>)

  /** The run of the compiled graph from its entry point with at most `fuel` model calls. */
  function Run(model: Model, execute: Executor, messages: seq<Message>, fuel: nat): Outcome
    decreases fuel
  {
    if fuel == 0 then OutOfFuel(messages)
    else
      var after := AddMessages(messages, CallModel(model, messages));
      if ShouldContinue(after) == End then Done(after)
      else Run(model, execute, AddMessages(after, ToolNode(execute, after)), fuel - 1)
  }

  /** `app.invoke({"messages": input})`: executes the graph `Workflow` builds, node by node. */
  method Invoke(model: Model, execute: Executor, input: seq<Message>, fuel: nat) returns (out: Outcome)
    ensures out == Run(model, execute, input, fuel)
  {
    var graph := Workflow();
    var node := graph.entry.value;
    var messages := input;
    var calls := 0;
    while node != Finish && !(node == Agent && calls == fuel)
      invariant calls <= fuel
      invariant node == Agent ==> Run(model, execute, messages, fuel - calls) == Run(model, execute, input, fuel)
      invariant node == Tools ==>
        |messages| > 0 && messages[|messages| - 1].AIMessage? &&
        Run(model, execute, AddMessages(messages, ToolNode(execute, messages)), fuel - calls) == Run(model, execute, input, fuel)
      invariant node == Finish ==> Done(messages) == Run(model, execute, input, fuel)
      decreases fuel - calls, if node == Tools then 1 else 0
    {
      if node == Agent {
        messages := AddMessages(messages, CallModel(model, messages));
        calls := calls + 1;
        node := graph.Next(Agent, ShouldContinue(messages)).value;
      } else {
        messages := AddMessages(messages, ToolNode(execute, messages));
        node := graph.Next(Tools, End).value;
      }
    }
    out := if node == Finish then Done(messages) else OutOfFuel(messages);
  }

  /** Complete rounds: each AI message requesting tools, followed by the answers to its
      calls, one tool message per call, in call order. */
  predicate Rounds(ms: seq<Message>)
    decreases |ms|
  {
    ms == [] ||
    (ms[0].AIMessage? && ms[0].toolCalls != [] && 1 + |ms[0].toolCalls| <= |ms| &&
     Answers(ms[1..1 + |ms[0].toolCalls|], ms[0].toolCalls) &&
     Rounds(ms[1 + |ms[0].toolCalls|..]))
  }

  /** The caller's messages stay in front of everything a run appends. */
  lemma {:induction false} RunKeepsInput(model: Model, execute: Executor, messages: seq<Message>, fuel: nat)
    ensures messages <= Run(model, execute, messages, fuel).messages
    decreases fuel
  {
    if fuel > 0 {
      var after := AddMessages(messages, CallModel(model, messages));
      if ShouldContinue(after) == Continue {
        RunKeepsInput(model, execute, AddMessages(after, ToolNode(execute, after)), fuel - 1);
      }
    }
  }

  /** What a run appends is complete rounds, and a finished run then appends one AI message
      that requests no tool, so that `should_continue` says "end" on it. */
  lemma {:induction false} RunAppendsRounds(model: Model, execute: Executor, messages: seq<Message>, fuel: nat)
    ensures |Run(model, execute, messages, fuel).messages| >= |messages|
    ensures Run(model, execute, messages, fuel).Done? ==>
      var out := Run(model, execute, messages, fuel).messages;
      |out| > |messages| && Rounds(out[|messages|..|out| - 1]) &&
      out[|out| - 1].AIMessage? && out[|out| - 1].toolCalls == [] && ShouldContinue(out) == End
    ensures Run(model, execute, messages, fuel).OutOfFuel? ==>
      Rounds(Run(model, execute, messages, fuel).messages[|messages|..])
    decreases fuel
  {
    if fuel == 0 {
      assert Run(model, execute, messages, fuel).messages[|messages|..] == [];
    } else {
      var after := AddMessages(messages, CallModel(model, messages));
      if ShouldContinue(after) == End {
        assert Run(model, execute, messages, fuel) == Done(after);
        assert after[|messages|..|after| - 1] == [];
      } else {
        var results := ToolNode(execute, after);
        var next := AddMessages(after, results);
        assert Run(model, execute, messages, fuel) == Run(model, execute, next, fuel - 1);
        RunAppendsRounds(model, execute, next, fuel - 1);
        RunKeepsInput(model, execute, next, fuel - 1);
        var ai := after[|after| - 1];
        assert next == messages + [ai] + results;
        var out := Run(model, execute, next, fuel - 1).messages;
        if Run(model, execute, next, fuel - 1).Done? {
          RoundThenFinished(messages, ai, results, next, out);
        } else {
          RoundThenRounds(messages, ai, results, next, out);
        }
      }
    }
  }

  /** One round in front of a run that finished keeps the rounds-then-answer shape. */
  lemma RoundThenFinished(messages: seq<Message>, ai: Message, results: seq<Message>, next: seq<Message>, out: seq<Message>)
    requires ai.AIMessage? && ai.toolCalls != [] && Answers(results, ai.toolCalls)
    requires next == messages + [ai] + results && next <= out
    requires |out| > |next| && Rounds(out[|next|..|out| - 1])
    ensures Rounds(out[|messages|..|out| - 1])
  {
    var rest := out[|next|..|out| - 1];
    PrependRound(ai, results, rest);
    assert out[|messages|..|out| - 1] == [ai] + results + rest;
  }

  /** One round in front of rounds is rounds. */
  lemma RoundThenRounds(messages: seq<Message>, ai: Message, results: seq<Message>, next: seq<Message>, out: seq<Message>)
    requires ai.AIMessage? && ai.toolCalls != [] && Answers(results, ai.toolCalls)
    requires next == messages + [ai] + results && next <= out
    requires Rounds(out[|next|..])
    ensures Rounds(out[|messages|..])
  {
    var rest := out[|next|..];
    PrependRound(ai, results, rest);
    assert out[|messages|..] == [ai] + results + rest;
  }

  lemma PrependRound(ai: Message, results: seq<Message>, rest: seq<Message>)
    requires ai.AIMessage? && ai.toolCalls != [] && Answers(results, ai.toolCalls) && Rounds(rest)
    ensures Rounds([ai] + results + rest)
  {
    var ms := [ai] + results + rest;
    assert ms[1..1 + |ai.toolCalls|] == results;
    assert ms[1 + |ai.toolCalls|..] == rest;
  }

  /** The message a finished run ends on is the model's answer to everything before it. */
  lemma {:induction false} RunEndsOnModelAnswer(model: Model, execute: Executor, messages: seq<Message>, fuel: nat)
    requires Run(model, execute, messages, fuel).Done?
    ensures var out := Run(model, execute, messages, fuel).messages;
      |out| > 0 && out[|out| - 1] == CallModel(model, out[..|out| - 1])[0]
    decreases fuel
  {
    var after := AddMessages(messages, CallModel(model, messages));
    if ShouldContinue(after) == Continue {
      RunEndsOnModelAnswer(model, execute, AddMessages(after, ToolNode(execute, after)), fuel - 1);
    } else {
      assert after[..|after| - 1] == messages;
    }
  }

  /** More fuel never changes a finished run. */
  lemma {:induction false} RunFuelMonotone(model: Model, execute: Executor, messages: seq<Message>, fuel: nat, more: nat)
    requires Run(model, execute, messages, fuel).Done? && fuel <= more
    ensures Run(model, execute, messages, more) == Run(model, execute, messages, fuel)
    decreases fuel
  {
    var after := AddMessages(messages, CallModel(model, messages));
    if ShouldContinue(after) == Continue {
      RunFuelMonotone(model, execute, AddMessages(after, ToolNode(execute, after)), fuel - 1, more - 1);
    }
  }

  /** A model that answers without tool calls ends the turn at once: exactly one message,
      its answer, is appended and no tool runs. */
  lemma AnswerWithoutTools(model: Model, execute: Executor, input: seq<Message>, fuel: nat)
    requires fuel > 0 && model(input).toolCalls == []
    ensures Run(model, execute, input, fuel) == Done(input + [AIMessage(model(input).content, [])])
  {
  }

  /** Nothing bounds the loop: a model that always requests a tool never lets a run finish,
      whatever the fuel. */
  lemma {:induction false} AlwaysActingNeverFinishes(model: Model, execute: Executor, messages: seq<Message>, fuel: nat)
    requires forall ms :: model(ms).toolCalls != []
    ensures Run(model, execute, messages, fuel).OutOfFuel?
    ensures |Run(model, execute, messages, fuel).messages| >= |messages| + 2 * fuel
    decreases fuel
  {
    if fuel > 0 {
      var after := AddMessages(messages, CallModel(model, messages));
      assert ShouldContinue(after) == Continue;
      AlwaysActingNeverFinishes(model, execute, AddMessages(after, ToolNode(execute, after)), fuel - 1);
    }
  }
}
