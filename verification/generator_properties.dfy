/** What `generate_response` promises about the calls it makes, the tools it
    runs and the text it returns, for every script of replies. */
module GeneratorProperties {
  import opened Api
  import opened ToolExecution
  import opened Generator
  import opened LoopProperties

  /** The number of rounds the loop may run: `max_tool_rounds`, or none at all
      when it is zero or negative. */
  function Budget(maxRounds: int): nat {
    if maxRounds > 0 then maxRounds else 0
  }

  /** What a follow-up call attaches when it offers tools: the first call's
      list, or `[]` when the first call had none. */
  function FollowUpTools(tools: Option<seq<ToolSchema>>): seq<ToolSchema> {
    if OffersTools(tools) then tools.value else []
  }

  /** Roles alternate user, assistant, user, ... starting with the user. */
  predicate Alternating(messages: seq<Message>) {
    forall i :: 0 <= i < |messages| ==> messages[i].role == (if i % 2 == 0 then User else Assistant)
  }

  /** The request of round r >= 1 is the (r + 1)-th call. */
  lemma FollowUpCallsAreLoopCalls(gen: AIGenerator, query: string, history: Option<string>,
                                  tools: Option<seq<ToolSchema>>, manager: Option<Executor>,
                                  maxRounds: int, replies: nat -> Reply)
    requires replies(0).Delivered? && replies(0).response.stopReason == TOOL_USE && manager.Some?
    ensures var t := GenerateResponse(gen, query, history, tools, manager, maxRounds, replies);
      var first := FirstRequest(gen, query, SystemContent(gen.prompt, history), tools);
      && t.calls[0] == first
      && t.calls[1..] == RoundLoop(gen, first, manager.value, maxRounds, 1, replies(0).response,
                                   first.messages, replies, 1).calls
      && t.dispatches == RoundLoop(gen, first, manager.value, maxRounds, 1, replies(0).response,
                                   first.messages, replies, 1).dispatches
      && t.outcome == RoundLoop(gen, first, manager.value, maxRounds, 1, replies(0).response,
                                first.messages, replies, 1).outcome
  {
  }

  /** Round-boundedness: at least one call, and at most `max_tool_rounds + 1`
      (just one when the budget is zero or negative), so the loop body runs at
      most `max_tool_rounds` times. */
  lemma {:induction false} CallBound(gen: AIGenerator, query: string, history: Option<string>,
                                     tools: Option<seq<ToolSchema>>, manager: Option<Executor>,
                                     maxRounds: int, replies: nat -> Reply)
    ensures 1 <= |GenerateResponse(gen, query, history, tools, manager, maxRounds, replies).calls|
               <= Budget(maxRounds) + 1
  {
    if replies(0).Delivered? && replies(0).response.stopReason == TOOL_USE && manager.Some? {
      var first := FirstRequest(gen, query, SystemContent(gen.prompt, history), tools);
      FollowUpCallsAreLoopCalls(gen, query, history, tools, manager, maxRounds, replies);
      LoopBound(gen, first, manager.value, maxRounds, 1, replies(0).response, first.messages,
                replies, 1);
    }
  }

  /** One call only: when the first reply is not a tool request, when there is
      no tool manager, or when the budget is zero or negative, the first reply's
      leading text is the answer and nothing is dispatched. */
  lemma SingleCall(gen: AIGenerator, query: string, history: Option<string>,
                   tools: Option<seq<ToolSchema>>, manager: Option<Executor>,
                   maxRounds: int, replies: nat -> Reply)
    requires replies(0).Delivered?
    requires replies(0).response.stopReason != TOOL_USE || manager.None? || maxRounds <= 0
    ensures var t := GenerateResponse(gen, query, history, tools, manager, maxRounds, replies);
      && |t.calls| == 1
      && t.dispatches == []
      && t.outcome == Finish(replies(0).response)
      && (t.outcome.Answer? <==> |replies(0).response.content| > 0
                                 && replies(0).response.content[0].Text?)
  {
  }

  /** The first call sends the query as the only (user) message, and offers
      the tools with automatic choice exactly when the tool list is non-empty. */
  lemma FirstCallShape(gen: AIGenerator, query: string, history: Option<string>,
                       tools: Option<seq<ToolSchema>>, manager: Option<Executor>,
                       maxRounds: int, replies: nat -> Reply)
    ensures var first := GenerateResponse(gen, query, history, tools, manager, maxRounds, replies).calls[0];
      && first.messages == [Message(User, Plain(query))]
      && (first.tools.Some? <==> tools.Some? && |tools.value| > 0)
      && (first.tools.Some? ==> first.tools == tools)
      && (first.toolChoice == Some(Auto) <==> tools.Some? && |tools.value| > 0)
      && (first.toolChoice.None? <==> first.tools.None?)
  {
  }

  /** Every call, first or follow-up, carries the same base parameters (model,
      temperature 0, 800 max tokens) and the same system text. */
  lemma {:induction false} SharedSetup(gen: AIGenerator, query: string, history: Option<string>,
                                       tools: Option<seq<ToolSchema>>, manager: Option<Executor>,
                                       maxRounds: int, replies: nat -> Reply)
    ensures var calls := GenerateResponse(gen, query, history, tools, manager, maxRounds, replies).calls;
      forall k :: 0 <= k < |calls| ==>
        && calls[k].params == BaseParams(gen.model, 0, 800)
        && calls[k].system == SystemContent(gen.prompt, history)
  {
    var t := GenerateResponse(gen, query, history, tools, manager, maxRounds, replies);
    if replies(0).Delivered? && replies(0).response.stopReason == TOOL_USE && manager.Some? {
      var first := FirstRequest(gen, query, SystemContent(gen.prompt, history), tools);
      FollowUpCallsAreLoopCalls(gen, query, history, tools, manager, maxRounds, replies);
      LoopRequests(gen, first, manager.value, maxRounds, 1, replies(0).response, first.messages,
                   replies, 1);
      forall k | 1 <= k < |t.calls|
        ensures t.calls[k].params == BaseParams(gen.model, 0, 800)
        ensures t.calls[k].system == SystemContent(gen.prompt, history)
      {
        assert t.calls[k] == t.calls[1..][k - 1];
      }
    }
  }

  /** The follow-up call of round k (the (k + 1)-th call) offers tools, with
      automatic choice, exactly when k < max_tool_rounds; what it offers is the
      first call's list, or `[]` when there was none. Hence the call that
      spends the last round never offers tools. */
  lemma {:induction false} ToolsOfferedBeforeLastRound(
    gen: AIGenerator, query: string, history: Option<string>,
    tools: Option<seq<ToolSchema>>, manager: Option<Executor>,
    maxRounds: int, replies: nat -> Reply)
    ensures var calls := GenerateResponse(gen, query, history, tools, manager, maxRounds, replies).calls;
      forall k :: 1 <= k < |calls| ==>
        && calls[k].tools == (if k < maxRounds then Some(FollowUpTools(tools)) else None)
        && calls[k].toolChoice == (if k < maxRounds then Some(Auto) else None)
    ensures var calls := GenerateResponse(gen, query, history, tools, manager, maxRounds, replies).calls;
      |calls| == maxRounds + 1 && maxRounds >= 1 ==>
        calls[maxRounds].tools.None? && calls[maxRounds].toolChoice.None?
  {
    var t := GenerateResponse(gen, query, history, tools, manager, maxRounds, replies);
    if replies(0).Delivered? && replies(0).response.stopReason == TOOL_USE && manager.Some? {
      var first := FirstRequest(gen, query, SystemContent(gen.prompt, history), tools);
      FollowUpCallsAreLoopCalls(gen, query, history, tools, manager, maxRounds, replies);
      LoopRequests(gen, first, manager.value, maxRounds, 1, replies(0).response, first.messages,
                   replies, 1);
      forall k | 1 <= k < |t.calls|
        ensures t.calls[k].tools == (if k < maxRounds then Some(FollowUpTools(tools)) else None)
        ensures t.calls[k].toolChoice == (if k < maxRounds then Some(Auto) else None)
      {
        assert t.calls[k] == t.calls[1..][k - 1];
      }
    }
  }

  /** The loop only goes on after a tool request, and ends on the reply to the
      last call: an exception propagates, or the reply's leading text is
      returned, and then either it was not a tool request, or there was no tool
      manager, or the rounds were used up. */
  lemma {:induction false} EndsOnLastReply(gen: AIGenerator, query: string, history: Option<string>,
                                           tools: Option<seq<ToolSchema>>, manager: Option<Executor>,
                                           maxRounds: int, replies: nat -> Reply)
    ensures var t := GenerateResponse(gen, query, history, tools, manager, maxRounds, replies);
      forall k :: 0 <= k < |t.calls| - 1 ==> AskedForTools(replies, k)
    ensures var t := GenerateResponse(gen, query, history, tools, manager, maxRounds, replies);
      match replies(|t.calls| - 1)
      case Raised(error) => t.outcome == CallFailed(error)
      case Delivered(last) =>
        && t.outcome == Finish(last)
        && (last.stopReason != TOOL_USE || manager.None? || |t.calls| > maxRounds)
  {
    var t := GenerateResponse(gen, query, history, tools, manager, maxRounds, replies);
    CallBound(gen, query, history, tools, manager, maxRounds, replies);
    if replies(0).Delivered? && replies(0).response.stopReason == TOOL_USE && manager.Some? {
      var first := FirstRequest(gen, query, SystemContent(gen.prompt, history), tools);
      var response := replies(0).response;
      FollowUpCallsAreLoopCalls(gen, query, history, tools, manager, maxRounds, replies);
      LoopConversation(gen, first, manager.value, maxRounds, 1, response, first.messages, replies, 1);
      LoopEnd(gen, first, manager.value, maxRounds, 1, response, first.messages, replies, 1);
    }
  }

  /** `content[0].text` of the reply to the last call is what is returned: an
      answer exactly when that reply starts with a text block (and then it is
      that block's text), a failure exactly when the last call raised, and no
      text when the reply is empty or starts with a tool use. */
  lemma {:induction false} ReturnsLeadingText(gen: AIGenerator, query: string, history: Option<string>,
                                              tools: Option<seq<ToolSchema>>, manager: Option<Executor>,
                                              maxRounds: int, replies: nat -> Reply)
    ensures var t := GenerateResponse(gen, query, history, tools, manager, maxRounds, replies);
      var last := replies(|t.calls| - 1);
      && (t.outcome.CallFailed? <==> last.Raised?)
      && (t.outcome.Answer? <==> last.Delivered? && |last.response.content| > 0
                                 && last.response.content[0].Text?)
      && (t.outcome.Answer? ==> t.outcome.text == last.response.content[0].text)
      && (t.outcome.NoLeadingText? <==> last.Delivered? && (|last.response.content| == 0
                                                            || last.response.content[0].ToolUse?))
  {
    EndsOnLastReply(gen, query, history, tools, manager, maxRounds, replies);
  }

  /** Early termination: if the replies to calls 0 .. k-1 all ask for tools and
      the reply to call k does not, with k within the budget, then exactly k + 1
      calls are made and the reply to call k gives the answer. */
  lemma StopsAtFirstAnswer(gen: AIGenerator, query: string, history: Option<string>,
                           tools: Option<seq<ToolSchema>>, manager: Option<Executor>,
                           maxRounds: int, replies: nat -> Reply, k: nat)
    requires manager.Some? && k <= Budget(maxRounds)
    requires forall j :: 0 <= j < k ==> AskedForTools(replies, j)
    requires replies(k).Delivered? && replies(k).response.stopReason != TOOL_USE
    ensures var t := GenerateResponse(gen, query, history, tools, manager, maxRounds, replies);
      |t.calls| == k + 1 && t.outcome == Finish(replies(k).response)
  {
    var t := GenerateResponse(gen, query, history, tools, manager, maxRounds, replies);
    EndsOnLastReply(gen, query, history, tools, manager, maxRounds, replies);
    var m := |t.calls| - 1;
    assert !AskedForTools(replies, k);
    assert m < k ==> AskedForTools(replies, m);
  }

  /** Budget exhaustion: if the model asks for tools on every call the budget
      allows, exactly `max_tool_rounds + 1` calls are made (one when the budget
      is zero or negative), and the last of them offers no tools. */
  lemma ExactCallsWhenAlwaysAskingForTools(gen: AIGenerator, query: string, history: Option<string>,
                                           tools: Option<seq<ToolSchema>>, manager: Option<Executor>,
                                           maxRounds: int, replies: nat -> Reply)
    requires manager.Some?
    requires forall j :: 0 <= j < Budget(maxRounds) ==> AskedForTools(replies, j)
    ensures var t := GenerateResponse(gen, query, history, tools, manager, maxRounds, replies);
      && |t.calls| == Budget(maxRounds) + 1
      && (maxRounds >= 1 ==> t.calls[maxRounds].tools.None?)
  {
    var t := GenerateResponse(gen, query, history, tools, manager, maxRounds, replies);
    CallBound(gen, query, history, tools, manager, maxRounds, replies);
    EndsOnLastReply(gen, query, history, tools, manager, maxRounds, replies);
    ToolsOfferedBeforeLastRound(gen, query, history, tools, manager, maxRounds, replies);
    var m := |t.calls| - 1;
    assert m < Budget(maxRounds) ==> AskedForTools(replies, m);
  }

  /** Message accumulation: with a tool manager, the follow-up calls extend the
      first call's conversation round by round, the call of round k + 1 adding
      the round of the (tool-requesting) reply to call k; without one, there
      are no follow-up calls. */
  lemma {:induction false} RoundsExtendConversation(
    gen: AIGenerator, query: string, history: Option<string>,
    tools: Option<seq<ToolSchema>>, manager: Option<Executor>,
    maxRounds: int, replies: nat -> Reply)
    ensures var t := GenerateResponse(gen, query, history, tools, manager, maxRounds, replies);
      manager.Some? ==>
        ExtendsRounds(t.calls[1..], [Message(User, Plain(query))], replies, 0, manager.value)
    ensures manager.None? ==>
      |GenerateResponse(gen, query, history, tools, manager, maxRounds, replies).calls| == 1
  {
    var t := GenerateResponse(gen, query, history, tools, manager, maxRounds, replies);
    if replies(0).Delivered? && replies(0).response.stopReason == TOOL_USE && manager.Some? {
      var first := FirstRequest(gen, query, SystemContent(gen.prompt, history), tools);
      FollowUpCallsAreLoopCalls(gen, query, history, tools, manager, maxRounds, replies);
      LoopConversation(gen, first, manager.value, maxRounds, 1, replies(0).response,
                       first.messages, replies, 1);
    } else {
      assert t.calls[1..] == [];
    }
  }

  /** Dispatches: with a tool manager, exactly the tool uses of the replies the
      loop answers (calls 0 .. n-2 of n), in reply order and block order;
      without one, none. */
  lemma {:induction false} DispatchesFollowReplies(
    gen: AIGenerator, query: string, history: Option<string>,
    tools: Option<seq<ToolSchema>>, manager: Option<Executor>,
    maxRounds: int, replies: nat -> Reply)
    ensures var t := GenerateResponse(gen, query, history, tools, manager, maxRounds, replies);
      t.dispatches == DispatchesBetween(replies, 0, |t.calls| - 1)
    ensures manager.None? ==>
      GenerateResponse(gen, query, history, tools, manager, maxRounds, replies).dispatches == []
  {
    var t := GenerateResponse(gen, query, history, tools, manager, maxRounds, replies);
    if replies(0).Delivered? && replies(0).response.stopReason == TOOL_USE && manager.Some? {
      var first := FirstRequest(gen, query, SystemContent(gen.prompt, history), tools);
      FollowUpCallsAreLoopCalls(gen, query, history, tools, manager, maxRounds, replies);
      LoopDispatches(gen, first, manager.value, maxRounds, 1, replies(0).response,
                     first.messages, replies, 1);
    }
  }

  /** One round appends exactly one assistant message holding the response's
      blocks verbatim and then, when the response holds any tool use, exactly
      one user message bundling all of their results; nothing before changes. */
  lemma {:induction false} RoundAppends(messages: seq<Message>, response: Response, execute: Executor)
    ensures var extended := ExtendConversation(messages, response, execute);
      && |extended| == |messages| + (if HasToolUse(response.content) then 2 else 1)
      && extended[..|messages|] == messages
      && extended[|messages|] == Message(Assistant, Blocks(response.content))
      && (HasToolUse(response.content) ==>
            extended[|messages| + 1] == Message(User, Results(ResultsFor(response.content, execute))))
  {
    ResultsNonEmptyIff(response.content, execute);
  }

  /** A round keeps the conversation it extends. */
  lemma ExtendKeepsPrefix(messages: seq<Message>, response: Response, execute: Executor)
    ensures messages <= ExtendConversation(messages, response, execute)
  {
  }

  /** Conversations only grow along a run of rounds. */
  lemma {:induction false} RoundsGrow(calls: seq<Request>, messages: seq<Message>,
                                      replies: nat -> Reply, offset: nat, execute: Executor)
    requires ExtendsRounds(calls, messages, replies, offset, execute)
    ensures forall k :: 0 <= k < |calls| ==> messages <= calls[k].messages
    ensures forall j, k :: 0 <= j <= k < |calls| ==> calls[j].messages <= calls[k].messages
    decreases |calls|
  {
    if |calls| > 0 {
      var rest := calls[1..];
      RoundsGrow(rest, calls[0].messages, replies, offset + 1, execute);
      ExtendKeepsPrefix(messages, replies(offset).response, execute);
      assert forall k :: 1 <= k < |calls| ==> calls[k] == rest[k - 1];
    }
  }

  /** The first call's message list is never changed afterwards: every later
      call's messages extend every earlier call's messages, and the first call
      still holds only the query. */
  lemma {:induction false} ConversationOnlyGrows(
    gen: AIGenerator, query: string, history: Option<string>,
    tools: Option<seq<ToolSchema>>, manager: Option<Executor>,
    maxRounds: int, replies: nat -> Reply)
    ensures var calls := GenerateResponse(gen, query, history, tools, manager, maxRounds, replies).calls;
      && calls[0].messages == [Message(User, Plain(query))]
      && forall j, k :: 0 <= j <= k < |calls| ==> calls[j].messages <= calls[k].messages
  {
    var calls := GenerateResponse(gen, query, history, tools, manager, maxRounds, replies).calls;
    RoundsExtendConversation(gen, query, history, tools, manager, maxRounds, replies);
    CallBound(gen, query, history, tools, manager, maxRounds, replies);
    if manager.Some? {
      var rounds := calls[1..];
      RoundsGrow(rounds, calls[0].messages, replies, 0, manager.value);
      assert forall k :: 1 <= k < |calls| ==> calls[k] == rounds[k - 1];
    }
  }

  /** Along a run of rounds whose every tool request carries a tool use,
      started from 2n + 1 alternating messages, the k-th call carries
      2(n + k + 1) + 1 alternating messages. */
  lemma {:induction false} RoundsAlternate(calls: seq<Request>, messages: seq<Message>,
                                           replies: nat -> Reply, offset: nat,
                                           execute: Executor, n: nat)
    requires ExtendsRounds(calls, messages, replies, offset, execute)
    requires |messages| == 2 * n + 1 && Alternating(messages)
    requires forall k :: AskedForTools(replies, k) ==> HasToolUse(replies(k).response.content)
    ensures forall k :: 0 <= k < |calls| ==>
      |calls[k].messages| == 2 * (n + k + 1) + 1 && Alternating(calls[k].messages)
    decreases |calls|
  {
    if |calls| > 0 {
      var response := replies(offset).response;
      var after := calls[0].messages;
      RoundAppends(messages, response, execute);
      forall i | 0 <= i < |after|
        ensures after[i].role == (if i % 2 == 0 then User else Assistant)
      {
        if i < |messages| {
          assert after[i] == after[..|messages|][i];
        }
      }
      var rest := calls[1..];
      RoundsAlternate(rest, after, replies, offset + 1, execute, n + 1);
      assert forall k :: 1 <= k < |calls| ==> calls[k] == rest[k - 1];
    }
  }

  /** With the API's guarantee that a tool request carries a tool use, the
      call of round k sees 2k + 1 messages alternating user and assistant. */
  lemma {:induction false} ConversationAlternates(
    gen: AIGenerator, query: string, history: Option<string>,
    tools: Option<seq<ToolSchema>>, manager: Option<Executor>,
    maxRounds: int, replies: nat -> Reply)
    requires forall k :: AskedForTools(replies, k) ==> HasToolUse(replies(k).response.content)
    ensures var calls := GenerateResponse(gen, query, history, tools, manager, maxRounds, replies).calls;
      forall k :: 0 <= k < |calls| ==>
        |calls[k].messages| == 2 * k + 1 && Alternating(calls[k].messages)
  {
    var calls := GenerateResponse(gen, query, history, tools, manager, maxRounds, replies).calls;
    RoundsExtendConversation(gen, query, history, tools, manager, maxRounds, replies);
    CallBound(gen, query, history, tools, manager, maxRounds, replies);
    var initial := [Message(User, Plain(query))];
    if manager.Some? {
      var rounds := calls[1..];
      RoundsAlternate(rounds, initial, replies, 0, manager.value, 0);
      assert forall k :: 1 <= k < |calls| ==> calls[k] == rounds[k - 1];
    } else {
      assert calls[0].messages == initial;
    }
  }

  /** Reads the history back out of a system text built from `prompt`. */
  function HistoryIn(prompt: string, system: string): Option<string>
  {
    var header := prompt + HISTORY_HEADER;
    if |system| > |header| && system[..|header|] == header then Some(system[|header|..]) else None
  }

  /** The system text is the prompt alone when the history is absent or empty,
      and otherwise carries the history, which can be read back verbatim after
      the prompt and the "Previous conversation" header. */
  lemma SystemContentRoundTrip(prompt: string, history: Option<string>)
    ensures prompt <= SystemContent(prompt, history)
    ensures !HasHistory(history) ==> SystemContent(prompt, history) == prompt
    ensures HistoryIn(prompt, SystemContent(prompt, history))
            == (if HasHistory(history) then history else None)
  {
  }

  /** Different non-empty histories give different system texts. */
  lemma {:induction false} HistoryDistinguishable(prompt: string, h1: Option<string>, h2: Option<string>)
    requires HasHistory(h1) && HasHistory(h2) && h1 != h2
    ensures SystemContent(prompt, h1) != SystemContent(prompt, h2)
  {
    SystemContentRoundTrip(prompt, h1);
    SystemContentRoundTrip(prompt, h2);
  }
}
