# Bounded tool-calling loop of the course-materials answer generator

This project models `AIGenerator.generate_response` from the course-materials
question-answering backend. The generator makes one model call. If the model
stops with `tool_use` and a tool manager is present, it runs rounds. Each round:

- appends the assistant's content blocks;
- runs every `tool_use` block through the tool manager, in block order;
- bundles all the results into one user message;
- calls the model again.

Tools are offered on a follow-up call only while the round is below
`max_tool_rounds`. The loop stops on a reply that is not a tool request, or
when the rounds are used up. The text of the last response's first content
block is returned.

The model is functional:

- `Api` holds the message shapes: blocks, messages, responses, requests.
- `ToolExecution` holds `_execute_tools_for_response`, both as a reference
  definition and as the loop the source writes.
- `Generator` holds `GenerateResponse` and the round loop `RoundLoop`.
  It also holds the code as written: the `while` loop `HandleToolExecution`,
  proved equal to `RoundLoop`, and the entry point `GenerateResponseAsWritten`,
  proved equal to `GenerateResponse`.
- `LoopProperties` and `GeneratorProperties` hold the lemmas.
- `Scenarios` replays two of the unit tests.

The model API is a scripted oracle, `replies: nat -> Reply`, like the tests'
`side_effect` lists. The k-th call made (counting from 0) receives
`replies(k)`. That reply is either a response or a raised error, which
propagates. The tool manager is an uninterpreted function from
(tool name, arguments) to text. `GenerateResponse` returns a `Trace`:

- every request sent, as an immutable snapshot of its keyword arguments;
- every tool dispatched;
- the outcome.

The outcome is one of three things:

- `Answer(text)`: the leading text was returned.
- `CallFailed(error)`: a model call raised.
- `NoLeadingText`: the last response's content is empty or starts with a
  tool-use block. `content[0].text` raises in that case.

The last case is reachable with `max_tool_rounds <= 0`: a first response that
asks for tools is then returned without any round being run.

The Python truthiness tests are modelled as written:

- A history that is absent or empty leaves the system text as the prompt alone.
- A tool list that is absent or empty attaches no tools to the first call.
- Follow-up calls attach `base_params.get("tools", [])`, so an empty or absent
  tool list still yields `tools: []` on a follow-up call that offers tools.

## Model

| member | source | states |
|---|---|---|
| `ToolExecution.ExecuteToolsForResponse` | backend/ai_generator.py:122-136 | the loop gives one dispatch and one result per tool-use block, in block order. Each result pairs the block's id with the manager's output for the block's name and input, verbatim. It agrees with the reference definitions `ResultsFor` / `DispatchesFor` |
| `ToolExecution.ToolUsesAppend` | backend/ai_generator.py:123-124 | selecting tool-use blocks distributes over concatenation, so their relative order is kept |
| `ToolExecution.ToolUsesMembers` | backend/ai_generator.py:123-124 | the selected blocks are exactly the tool-use blocks of the content. Text blocks are skipped, and no tool use is lost |
| `ToolExecution.ResultsNonEmptyIff` | backend/ai_generator.py:163-167 | a round has results to bundle if and only if the response holds a tool-use block |
| `Generator.HandleToolExecution` | backend/ai_generator.py:138-186 | the `while` loop with its mutable message list and round counter sends the same requests, dispatches the same tools and ends the same way as the recursive round loop |
| `Generator.GenerateResponseAsWritten` | backend/ai_generator.py:82-109 | the entry point as written builds the system text and the first call in place, and hands a tool request with a manager present to the `while` loop. It produces exactly the trace every `GeneratorProperties` lemma describes, so those properties hold of the code's own loop |
| `LoopProperties.LoopBound` | backend/ai_generator.py:154-183 | a loop entered in round r makes at most `max_tool_rounds - r + 1` calls, and none unless r is within budget and the latest response asked for tools |
| `LoopProperties.LoopRequests` | backend/ai_generator.py:169-179 | the j-th call of the loop is the follow-up request of round r + j |
| `LoopProperties.LoopConversation` | backend/ai_generator.py:158-167 | every loop call answers a tool-use reply, and carries the previous call's conversation extended by that reply's round |
| `LoopProperties.LoopEnd` | backend/ai_generator.py:158-186 | the loop ends on the reply to its last call. That reply either raised, or its leading text is returned and it either was not a tool request or came after the budget was spent |
| `LoopProperties.LoopDispatches` | backend/ai_generator.py:158-163 | the loop dispatches the tool uses of exactly the replies it answers, in order |
| `GeneratorProperties.CallBound` | backend/ai_generator.py:154-183 | at least one and at most `max_tool_rounds + 1` model calls are made. Exactly one is made when the budget is zero or negative |
| `GeneratorProperties.SingleCall` | backend/ai_generator.py:102-109 | exactly one call is made, nothing is dispatched, and the first reply's leading text is returned, in any of three cases: the first reply is not a tool request, there is no tool manager, or the budget is zero or negative |
| `GeneratorProperties.FirstCallShape` | backend/ai_generator.py:89-99 | the first call's messages are exactly `[user: query]`. Tools (the given list) and automatic tool choice are attached if and only if the tool list is non-empty |
| `GeneratorProperties.SharedSetup` | backend/ai_generator.py:170-173 | every call carries the base parameters (the model, temperature 0, 800 max tokens) and the same system text |
| `GeneratorProperties.ToolsOfferedBeforeLastRound` | backend/ai_generator.py:176-179 | the call of round k offers tools with automatic choice if and only if k < `max_tool_rounds`. What it offers is the first call's list, or `[]`. So the call at index `max_tool_rounds` never offers tools |
| `GeneratorProperties.EndsOnLastReply` | backend/ai_generator.py:158-186 | every reply before the last asked for tools. The reply to the last call either raised, or gives the returned text and then was not a tool request, came without a manager, or came with the rounds used up |
| `GeneratorProperties.ReturnsLeadingText` | backend/ai_generator.py:182-186 | what is returned is `content[0].text` of the reply to the last call. It is an answer exactly when that reply starts with a text block, and then it is that block's text. It is a failure exactly when the last call raised, and no text exactly when that reply is empty or starts with a tool use |
| `GeneratorProperties.StopsAtFirstAnswer` | backend/ai_generator.py:158-182 | if replies 0..k-1 ask for tools, reply k does not, and k is within the budget, then exactly k + 1 calls are made and reply k's leading text is returned |
| `GeneratorProperties.ExactCallsWhenAlwaysAskingForTools` | backend/ai_generator.py:154-183 | if every reply within the budget asks for tools, exactly `max_tool_rounds + 1` calls are made, and the last call offers no tools |
| `GeneratorProperties.RoundsExtendConversation` | backend/ai_generator.py:152-167 | the follow-up calls extend `[user: query]` round by round, each adding the round of the preceding tool-use reply. Without a manager there are no follow-up calls |
| `GeneratorProperties.DispatchesFollowReplies` | backend/ai_generator.py:158-163 | the dispatches are the tool uses of replies 0..n-2 of n calls, in reply order and block order. There are none without a manager |
| `GeneratorProperties.RoundAppends` | backend/ai_generator.py:159-167 | a round keeps the earlier messages and appends one assistant message with the response's blocks verbatim. It then appends one user message bundling all tool results if and only if there was a tool use |
| `GeneratorProperties.ConversationOnlyGrows` | backend/ai_generator.py:152-167 | the first call's messages stay `[user: query]`, and each call's messages are a prefix of every later call's messages |
| `GeneratorProperties.ConversationAlternates` | backend/ai_generator.py:158-167 | when every tool request carries a tool use, the call of round k sees 2k + 1 messages alternating user and assistant |
| `GeneratorProperties.SystemContentRoundTrip` | backend/ai_generator.py:83-87 | the system text is the prompt alone when the history is absent or empty. Otherwise the history can be read back verbatim after the prompt and the "Previous conversation" header |
| `GeneratorProperties.HistoryDistinguishable` | backend/ai_generator.py:83-87 | different non-empty histories give different system texts |
| `Scenarios.TwoRoundSequentialExecution` | backend/tests/test_ai_generator.py:136-219 | with a budget of two and an outline request, then a search request, then an answer: 3 calls, tools on the first two only, 2 dispatches in order, 5 messages in the last call, and the answer returned |
| `Scenarios.MultipleToolCallsBundled` | backend/tests/test_ai_generator.py:504-553 | two tool uses in one response are both dispatched in order, and their results travel in one user message. With an empty tool list the first call offers no tools and the follow-up offers `[]` |

## Left out

- Client construction and the network call (`anthropic.Anthropic`, `messages.create`): replaced by the scripted reply oracle. A failed call is a `Raised` reply that ends the run.
- The wording of `SYSTEM_PROMPT`: carried as the `prompt` field of `AIGenerator`, an arbitrary string.
- Defaulting `max_tool_rounds` from `config.MAX_TOOL_ROUNDS`: the budget is a parameter, because the configuration module is not part of this model.
- The `max_tool_rounds=2` default of `_handle_tool_execution`: the generator always passes the budget explicitly.
- The tool manager, the search and outline tools, source tracking, the session store, the vector store and the orchestrating RAG system are not part of this model. The manager is an uninterpreted total function returning text, so a tool error is just text passed on verbatim.
- Tool arguments are kept as a map from names to text. Typed argument values (such as a lesson number) are not modelled, because the loop never inspects them.
- Python list aliasing: the source passes one mutable `messages` list to every follow-up call. Each request here holds an immutable snapshot of the list at the time of the call.
- `GeneratorProperties.ConversationAlternates`: assumes that a reply stopping with `tool_use` holds at least one tool-use block, as the messages API guarantees. Without that, two assistant messages follow each other.
- `GeneratorProperties.StopsAtFirstAnswer`: assumes a tool manager is present. The case without one is covered by `GeneratorProperties.SingleCall`.
