/** Facts about one run of the round loop, each proved by induction on the
    rounds that remain. They are stated for a loop entered with the reply to
    call `next - 1` as its latest response, which is how `GenerateResponse`
    enters it and how it re-enters itself. */
module LoopProperties {
  import opened Api
  import opened ToolExecution
  import opened Generator

  /** The dispatches caused by the responses to calls `from` up to `to - 1`. */
  function DispatchesBetween(replies: nat -> Reply, from: nat, to: nat): (dispatched: seq<Dispatch>)
    decreases to - from
  {
    if from >= to then []
    else
      (match replies(from)
       case Delivered(r) => DispatchesFor(r.content)
       case Raised(_) => [])
      + DispatchesBetween(replies, from + 1, to)
  }

  /** The reply to call `k` asked for tools. */
  predicate AskedForTools(replies: nat -> Reply, k: nat)
  {
    replies(k).Delivered? && replies(k).response.stopReason == TOOL_USE
  }

  /** The j-th of `calls` is the follow-up request of round `round + j`. */
  predicate FollowsRounds(calls: seq<Request>, gen: AIGenerator, first: Request,
                          maxRounds: int, round: int)
  {
    forall j :: 0 <= j < |calls| ==>
      calls[j] == FollowUpRequest(gen, first, maxRounds, round + j, calls[j].messages)
  }

  /** `calls` answer, in order, the tool requests in the replies to calls
      `offset`, `offset + 1`, ...: each carries the conversation of the call
      before it (`messages` for the first) extended by that reply's round. */
  predicate ExtendsRounds(calls: seq<Request>, messages: seq<Message>, replies: nat -> Reply,
                          offset: nat, execute: Executor)
    decreases |calls|
  {
    |calls| > 0 ==>
      && AskedForTools(replies, offset)
      && calls[0].messages == ExtendConversation(messages, replies(offset).response, execute)
      && ExtendsRounds(calls[1..], calls[0].messages, replies, offset + 1, execute)
  }

  /** A loop entered in `round` makes at most one call per round it has left,
      and makes one at all only if the latest response asked for tools. */
  lemma {:induction false} LoopBound(gen: AIGenerator, first: Request, execute: Executor,
                                     maxRounds: int, round: int, response: Response,
                                     messages: seq<Message>, replies: nat -> Reply, next: nat)
    ensures var t := RoundLoop(gen, first, execute, maxRounds, round, response, messages, replies, next);
      && |t.calls| <= (if round <= maxRounds then maxRounds - round + 1 else 0)
      && (|t.calls| > 0 <==> round <= maxRounds && response.stopReason == TOOL_USE)
    decreases maxRounds - round + 1
  {
    if round <= maxRounds && response.stopReason == TOOL_USE {
      var conversation := ExtendConversation(messages, response, execute);
      match replies(next)
      case Raised(_) =>
      case Delivered(r) =>
        LoopBound(gen, first, execute, maxRounds, round + 1, r, conversation, replies, next + 1);
    }
  }

  /** The j-th call of the loop is the follow-up request of round `round + j`:
      same parameters and system text as the first call, tools only while
      that round is below the budget. */
  lemma {:induction false} LoopRequests(gen: AIGenerator, first: Request, execute: Executor,
                                        maxRounds: int, round: int, response: Response,
                                        messages: seq<Message>, replies: nat -> Reply, next: nat)
    ensures FollowsRounds(RoundLoop(gen, first, execute, maxRounds, round, response, messages,
                                    replies, next).calls, gen, first, maxRounds, round)
    decreases maxRounds - round + 1
  {
    var t := RoundLoop(gen, first, execute, maxRounds, round, response, messages, replies, next);
    if round <= maxRounds && response.stopReason == TOOL_USE {
      var conversation := ExtendConversation(messages, response, execute);
      match replies(next)
      case Raised(_) =>
      case Delivered(r) =>
        var rest := RoundLoop(gen, first, execute, maxRounds, round + 1, r, conversation, replies, next + 1);
        LoopRequests(gen, first, execute, maxRounds, round + 1, r, conversation, replies, next + 1);
        assert t.calls == [t.calls[0]] + rest.calls;
        forall j | 1 <= j < |t.calls|
          ensures t.calls[j] == FollowUpRequest(gen, first, maxRounds, round + j, t.calls[j].messages)
        {
          assert t.calls[j] == rest.calls[j - 1];
          assert rest.calls[j - 1]
            == FollowUpRequest(gen, first, maxRounds, round + 1 + (j - 1), rest.calls[j - 1].messages);
        }
    }
  }

  /** Each call of the loop answers a tool-use response, and carries the
      conversation before it extended by that response's round. */
  lemma {:induction false} LoopConversation(gen: AIGenerator, first: Request, execute: Executor,
                                            maxRounds: int, round: int, response: Response,
                                            messages: seq<Message>, replies: nat -> Reply, next: nat)
    requires next >= 1 && replies(next - 1) == Delivered(response)
    ensures ExtendsRounds(RoundLoop(gen, first, execute, maxRounds, round, response, messages,
                                    replies, next).calls, messages, replies, next - 1, execute)
    ensures var t := RoundLoop(gen, first, execute, maxRounds, round, response, messages, replies, next);
      forall k :: next - 1 <= k < next - 1 + |t.calls| ==> AskedForTools(replies, k)
    decreases maxRounds - round + 1
  {
    var t := RoundLoop(gen, first, execute, maxRounds, round, response, messages, replies, next);
    if round <= maxRounds && response.stopReason == TOOL_USE {
      var conversation := ExtendConversation(messages, response, execute);
      assert AskedForTools(replies, next - 1);
      match replies(next)
      case Raised(_) =>
        assert t.calls[1..] == [];
      case Delivered(r) =>
        var rest := RoundLoop(gen, first, execute, maxRounds, round + 1, r, conversation, replies, next + 1);
        LoopConversation(gen, first, execute, maxRounds, round + 1, r, conversation, replies, next + 1);
        assert t.calls[1..] == rest.calls;
    }
  }

  /** How the loop ends: the reply to its last call (or, when it made none,
      the response it was entered with) either raised, or is returned and
      either was not a tool request or came when the budget was spent. */
  lemma {:induction false} LoopEnd(gen: AIGenerator, first: Request, execute: Executor,
                                   maxRounds: int, round: int, response: Response,
                                   messages: seq<Message>, replies: nat -> Reply, next: nat)
    requires next >= 1 && replies(next - 1) == Delivered(response)
    ensures var t := RoundLoop(gen, first, execute, maxRounds, round, response, messages, replies, next);
      match replies(next - 1 + |t.calls|)
      case Raised(error) => |t.calls| > 0 && t.outcome == CallFailed(error)
      case Delivered(last) =>
        && t.outcome == Finish(last)
        && (last.stopReason != TOOL_USE || round + |t.calls| > maxRounds)
    decreases maxRounds - round + 1
  {
    if round <= maxRounds && response.stopReason == TOOL_USE {
      var conversation := ExtendConversation(messages, response, execute);
      match replies(next)
      case Raised(_) =>
      case Delivered(r) =>
        LoopEnd(gen, first, execute, maxRounds, round + 1, r, conversation, replies, next + 1);
    }
  }

  /** The loop dispatches the tool uses of the responses it answers, in order. */
  lemma {:induction false} LoopDispatches(gen: AIGenerator, first: Request, execute: Executor,
                                          maxRounds: int, round: int, response: Response,
                                          messages: seq<Message>, replies: nat -> Reply, next: nat)
    requires next >= 1 && replies(next - 1) == Delivered(response)
    ensures var t := RoundLoop(gen, first, execute, maxRounds, round, response, messages, replies, next);
      t.dispatches == DispatchesBetween(replies, next - 1, next - 1 + |t.calls|)
    decreases maxRounds - round + 1
  {
    if round <= maxRounds && response.stopReason == TOOL_USE {
      var conversation := ExtendConversation(messages, response, execute);
      match replies(next)
      case Raised(_) =>
        assert DispatchesBetween(replies, next, next) == [];
      case Delivered(r) =>
        LoopDispatches(gen, first, execute, maxRounds, round + 1, r, conversation, replies, next + 1);
    }
  }
}
