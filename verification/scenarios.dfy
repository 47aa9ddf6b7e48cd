/** Concrete runs of `generate_response` taken from the unit tests of
    `backend/tests/test_ai_generator.py`, proved from the general properties. */
module Scenarios {
  import opened Api
  import opened ToolExecution
  import opened Generator
  import opened LoopProperties
  import opened GeneratorProperties

  const OUTLINE_CALL: Block := ToolUse("tool_call_1", "get_course_outline",
                                       map["course_name" := "AI Course"])
  const SEARCH_CALL: Block := ToolUse("tool_call_2", "search_course_content",
                                      map["query" := "neural networks", "course_name" := "AI Course"])
  const FINAL_TEXT: string :=
    "Based on the course outline and content search, neural networks are covered in lesson 3..."

  /** Outline request, then search request, then a plain answer. */
  function TwoRoundReplies(k: nat): Reply {
    if k == 0 then Delivered(Response(TOOL_USE, [OUTLINE_CALL]))
    else if k == 1 then Delivered(Response(TOOL_USE, [SEARCH_CALL]))
    else Delivered(Response("end_turn", [Text(FINAL_TEXT)]))
  }

  /** Two sequential rounds with a budget of two: three calls, the first two
      offering tools and the last not, two dispatches in order, five messages
      in the last call, and the last reply's text returned. */
  lemma TwoRoundSequentialExecution(gen: AIGenerator, query: string, execute: Executor,
                                    tools: seq<ToolSchema>)
    requires |tools| > 0
    ensures var t := GenerateResponse(gen, query, None, Some(tools), Some(execute), 2, TwoRoundReplies);
      && |t.calls| == 3
      && t.calls[0].tools.Some? && t.calls[1].tools.Some? && t.calls[2].tools.None?
      && t.dispatches == [Dispatch("get_course_outline", OUTLINE_CALL.input),
                          Dispatch("search_course_content", SEARCH_CALL.input)]
      && |t.calls[2].messages| == 5
      && t.outcome == Answer(FINAL_TEXT)
  {
    var t := GenerateResponse(gen, query, None, Some(tools), Some(execute), 2, TwoRoundReplies);
    assert AskedForTools(TwoRoundReplies, 0) && AskedForTools(TwoRoundReplies, 1);
    StopsAtFirstAnswer(gen, query, None, Some(tools), Some(execute), 2, TwoRoundReplies, 2);
    ToolsOfferedBeforeLastRound(gen, query, None, Some(tools), Some(execute), 2, TwoRoundReplies);
    FirstCallShape(gen, query, None, Some(tools), Some(execute), 2, TwoRoundReplies);
    assert HasToolUse([OUTLINE_CALL]) && HasToolUse([SEARCH_CALL]);
    ConversationAlternates(gen, query, None, Some(tools), Some(execute), 2, TwoRoundReplies);
    DispatchesFollowReplies(gen, query, None, Some(tools), Some(execute), 2, TwoRoundReplies);
    assert ToolUses([OUTLINE_CALL]) == [OUTLINE_CALL];
    assert ToolUses([SEARCH_CALL]) == [SEARCH_CALL];
    assert DispatchesBetween(TwoRoundReplies, 2, 2) == [];
  }

  const FIRST_SEARCH: Block := ToolUse("tool_call_1", "search_course_content",
                                       map["query" := "machine learning"])
  const SECOND_OUTLINE: Block := ToolUse("tool_call_2", "get_course_outline",
                                         map["course_name" := "AI Course"])
  const COMBINED_TEXT: string := "Combined response from multiple tools"

  /** Two tool requests in one response, then a plain answer. */
  function TwoToolReplies(k: nat): Reply {
    if k == 0 then Delivered(Response(TOOL_USE, [FIRST_SEARCH, SECOND_OUTLINE]))
    else Delivered(Response("end_turn", [Text(COMBINED_TEXT)]))
  }

  /** Two tool calls in one response, with an empty tool list: both are
      dispatched in order and their results travel in one user message; the
      first call offers no tools, the follow-up offers `[]` while rounds remain. */
  lemma MultipleToolCallsBundled(gen: AIGenerator, query: string, execute: Executor, maxRounds: int)
    requires maxRounds >= 1
    ensures var t := GenerateResponse(gen, query, None, Some([]), Some(execute), maxRounds, TwoToolReplies);
      && |t.calls| == 2
      && t.calls[0].tools.None?
      && t.calls[1].tools == (if maxRounds > 1 then Some([]) else None)
      && t.dispatches == [Dispatch("search_course_content", FIRST_SEARCH.input),
                          Dispatch("get_course_outline", SECOND_OUTLINE.input)]
      && t.calls[1].messages
         == [Message(User, Plain(query)),
             Message(Assistant, Blocks([FIRST_SEARCH, SECOND_OUTLINE])),
             Message(User, Results([
               ToolResult("tool_call_1", execute("search_course_content", FIRST_SEARCH.input)),
               ToolResult("tool_call_2", execute("get_course_outline", SECOND_OUTLINE.input))]))]
      && t.outcome == Answer(COMBINED_TEXT)
  {
    var t := GenerateResponse(gen, query, None, Some([]), Some(execute), maxRounds, TwoToolReplies);
    assert AskedForTools(TwoToolReplies, 0);
    StopsAtFirstAnswer(gen, query, None, Some([]), Some(execute), maxRounds, TwoToolReplies, 1);
    ToolsOfferedBeforeLastRound(gen, query, None, Some([]), Some(execute), maxRounds, TwoToolReplies);
    DispatchesFollowReplies(gen, query, None, Some([]), Some(execute), maxRounds, TwoToolReplies);
    RoundsExtendConversation(gen, query, None, Some([]), Some(execute), maxRounds, TwoToolReplies);
    var content := [FIRST_SEARCH, SECOND_OUTLINE];
    assert content[1..] == [SECOND_OUTLINE];
    assert ToolUses([SECOND_OUTLINE]) == [SECOND_OUTLINE];
    assert ToolUses(content) == content;
    assert DispatchesBetween(TwoToolReplies, 1, 1) == [];
    assert t.calls[1..][0] == t.calls[1];
    assert t.calls[1].messages
      == ExtendConversation([Message(User, Plain(query))], TwoToolReplies(0).response, execute);
    var results := ResultsFor(content, execute);
    assert results == [
      ToolResult("tool_call_1", execute("search_course_content", FIRST_SEARCH.input)),
      ToolResult("tool_call_2", execute("get_course_outline", SECOND_OUTLINE.input))];
  }
}
