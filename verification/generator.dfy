/** `AIGenerator.generate_response` and `_handle_tool_execution`: one model
    call, then, when the model asks for tools and a tool manager is present,
    up to `maxRounds` rounds of "append the assistant's blocks, run its tool
    calls, bundle the results, call the model again". Tools are offered on a
    follow-up call only while the round is below the budget.

    The model API is a scripted oracle: the k-th call made (counting from 0)
    receives `replies(k)`. The result is the whole trace: every request sent,
    every tool dispatched, and how the call ended. */
module Generator {
  import opened Api
  import opened ToolExecution

  const TEMPERATURE: int := 0
  const MAX_TOKENS: int := 800
  const HISTORY_HEADER: string := "\n\nPrevious conversation:\n"

  /** An `AIGenerator`: the model name it was built with and its fixed system
      prompt (whose wording is not part of this model). */
  datatype AIGenerator = AIGenerator(model: string, prompt: string) {
    function Params(): BaseParams {
      BaseParams(model, TEMPERATURE, MAX_TOKENS)
    }
  }

  /** How `generate_response` ends: with the leading text of the last response,
      with an exception from a model call, or with an exception because the
      last response does not start with a text block. */
  datatype Outcome =
    | Answer(text: string)
    | CallFailed(error: string)
    | NoLeadingText

  /** Every request sent (in order), every tool dispatched (in order), and the end. */
  datatype Trace = Trace(calls: seq<Request>, dispatches: seq<Dispatch>, outcome: Outcome)

  /** Python truthiness of the optional history string. */
  predicate HasHistory(history: Option<string>) {
    history.Some? && |history.value| > 0
  }

  /** Python truthiness of the optional tool list. */
  predicate OffersTools(tools: Option<seq<ToolSchema>>) {
    tools.Some? && |tools.value| > 0
  }

  function SystemContent(prompt: string, history: Option<string>): (system: string)
  {
    if HasHistory(history) then prompt + HISTORY_HEADER + history.value else prompt
  }

  /** The first call: the query as the only message; tools and automatic tool
      choice attached only when the tool list is non-empty. */
  function FirstRequest(gen: AIGenerator, query: string, system: string,
                        tools: Option<seq<ToolSchema>>): (request: Request)
  {
    Request(gen.Params(), [Message(User, Plain(query))], system,
            if OffersTools(tools) then tools else None,
            if OffersTools(tools) then Some(Auto) else None)
  }

  /** A follow-up call made in round `round`: same parameters and system text as
      the first call; the first call's tools (or an empty list) are attached
      only while `round < maxRounds`. */
  function FollowUpRequest(gen: AIGenerator, first: Request, maxRounds: int, round: int,
                           messages: seq<Message>): (request: Request)
  {
    Request(gen.Params(), messages, first.system,
            if round < maxRounds then Some(first.tools.GetOr([])) else None,
            if round < maxRounds then Some(Auto) else None)
  }

  /** The messages after one round: the assistant's blocks, then, if there was
      any tool result, one user message bundling all of them. */
  function ExtendConversation(messages: seq<Message>, response: Response, execute: Executor)
    : (extended: seq<Message>)
  {
    var withAssistant := messages + [Message(Assistant, Blocks(response.content))];
    var results := ResultsFor(response.content, execute);
    if |results| > 0 then withAssistant + [Message(User, Results(results))] else withAssistant
  }

  /** `return response.content[0].text` */
  function Finish(response: Response): (outcome: Outcome)
  {
    match LeadingText(response.content)
    case Some(text) => Answer(text)
    case None => NoLeadingText
  }

  /** The while loop of `_handle_tool_execution`, entered with `round` as
      `current_round`, `response` as the latest response and `messages` as
      the conversation so far; `next` is the index of the next model call.
      Returns the calls and dispatches made from here on, and the end. */
  function RoundLoop(gen: AIGenerator, first: Request, execute: Executor, maxRounds: int,
                     round: int, response: Response, messages: seq<Message>,
                     replies: nat -> Reply, next: nat): (t: Trace)
    decreases maxRounds - round + 1
  {
    if round <= maxRounds && response.stopReason == TOOL_USE then
      var conversation := ExtendConversation(messages, response, execute);
      var request := FollowUpRequest(gen, first, maxRounds, round, conversation);
      var dispatched := DispatchesFor(response.content);
      match replies(next)
      case Raised(error) => Trace([request], dispatched, CallFailed(error))
      case Delivered(reply) =>
        var rest := RoundLoop(gen, first, execute, maxRounds, round + 1, reply,
                              conversation, replies, next + 1);
        Trace([request] + rest.calls, dispatched + rest.dispatches, rest.outcome)
    else
      Trace([], [], Finish(response))
  }

  /** The body of one round as written: append the assistant's blocks, run
      the tools, append their results only if there are any, then prepare the
      next call's parameters. Equals one step of the round loop. */
  method PrepareRound(gen: AIGenerator, first: Request, execute: Executor, maxRounds: int,
                      currentRound: int, response: Response, messages: seq<Message>)
    returns (conversation: seq<Message>, request: Request, dispatched: seq<Dispatch>)
    ensures conversation == ExtendConversation(messages, response, execute)
    ensures request == FollowUpRequest(gen, first, maxRounds, currentRound, conversation)
    ensures dispatched == DispatchesFor(response.content)
  {
    conversation := messages + [Message(Assistant, Blocks(response.content))];
    var results;
    results, dispatched := ExecuteToolsForResponse(response.content, execute);
    if |results| > 0 {
      conversation := conversation + [Message(User, Results(results))];
    }
    request := Request(gen.Params(), conversation, first.system,
                       if currentRound < maxRounds then Some(first.tools.GetOr([])) else None,
                       if currentRound < maxRounds then Some(Auto) else None);
  }

  /** `_handle_tool_execution` as written: a while loop over a growing message
      list and a round counter, entered after the first call's tool request.
      It sends the same requests, dispatches the same tools and ends the same
      way as the round loop entered in round 1. */
  method HandleToolExecution(gen: AIGenerator, initial: Response, first: Request,
                             execute: Executor, maxRounds: int, replies: nat -> Reply)
    returns (t: Trace)
    ensures t == RoundLoop(gen, first, execute, maxRounds, 1, initial, first.messages, replies, 1)
  {
    var messages := first.messages;
    var currentRound := 1;
    var response := initial;
    var calls: seq<Request> := [];
    var dispatches: seq<Dispatch> := [];
    ghost var whole := RoundLoop(gen, first, execute, maxRounds, 1, initial, first.messages, replies, 1);
    ghost var rest := whole;
    while currentRound <= maxRounds && response.stopReason == TOOL_USE
      invariant currentRound >= 1
      invariant rest == RoundLoop(gen, first, execute, maxRounds, currentRound, response, messages,
                                  replies, currentRound)
      invariant whole == Trace(calls + rest.calls, dispatches + rest.dispatches, rest.outcome)
      decreases maxRounds - currentRound + 1
    {
      var request, dispatched;
      messages, request, dispatched :=
        PrepareRound(gen, first, execute, maxRounds, currentRound, response, messages);
      match replies(currentRound) {
        case Raised(error) =>
          assert rest == Trace([request], dispatched, CallFailed(error));
          return Trace(calls + [request], dispatches + dispatched, CallFailed(error));
        case Delivered(reply) =>
          ghost var after := RoundLoop(gen, first, execute, maxRounds, currentRound + 1, reply,
                                       messages, replies, currentRound + 1);
          assert rest == Trace([request] + after.calls, dispatched + after.dispatches, after.outcome);
          assert calls + rest.calls == (calls + [request]) + after.calls;
          assert dispatches + rest.dispatches == (dispatches + dispatched) + after.dispatches;
          response := reply;
          rest := after;
      }
      calls := calls + [request];
      dispatches := dispatches + dispatched;
      currentRound := currentRound + 1;
    }
    assert rest == Trace([], [], Finish(response));
    assert calls + [] == calls && dispatches + [] == dispatches;
    t := Trace(calls, dispatches, Finish(response));
  }

  /** `generate_response(query, conversation_history, tools, tool_manager, max_tool_rounds)` */
  function GenerateResponse(gen: AIGenerator, query: string, history: Option<string>,
                            tools: Option<seq<ToolSchema>>, manager: Option<Executor>,
                            maxRounds: int, replies: nat -> Reply): (t: Trace)
  {
    var first := FirstRequest(gen, query, SystemContent(gen.prompt, history), tools);
    match replies(0)
    case Raised(error) => Trace([first], [], CallFailed(error))
    case Delivered(response) =>
      if response.stopReason == TOOL_USE && manager.Some? then
        var rest := RoundLoop(gen, first, manager.value, maxRounds, 1, response,
                              first.messages, replies, 1);
        Trace([first] + rest.calls, rest.dispatches, rest.outcome)
      else
        Trace([first], [], Finish(response))
  }

  /** `generate_response` as written: build the system text and the first
      call's parameters, make the call, and hand a tool request to the while
      loop of `HandleToolExecution`. Every property of `GenerateResponse`
      therefore holds of the code's own loop. */
  method GenerateResponseAsWritten(gen: AIGenerator, query: string, history: Option<string>,
                                   tools: Option<seq<ToolSchema>>, manager: Option<Executor>,
                                   maxRounds: int, replies: nat -> Reply)
    returns (t: Trace)
    ensures t == GenerateResponse(gen, query, history, tools, manager, maxRounds, replies)
  {
    var system := if HasHistory(history) then gen.prompt + HISTORY_HEADER + history.value
                  else gen.prompt;
    var first := Request(gen.Params(), [Message(User, Plain(query))], system, None, None);
    if OffersTools(tools) {
      first := first.(tools := tools, toolChoice := Some(Auto));
    }
    match replies(0) {
      case Raised(error) =>
        return Trace([first], [], CallFailed(error));
      case Delivered(response) =>
        if response.stopReason == TOOL_USE && manager.Some? {
          var rest := HandleToolExecution(gen, response, first, manager.value, maxRounds, replies);
          return Trace([first] + rest.calls, rest.dispatches, rest.outcome);
        }
        return Trace([first], [], Finish(response));
    }
  }
}
