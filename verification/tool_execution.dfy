/** Running the tool calls of one response (`_execute_tools_for_response`):
    every tool-use block, in block order, is dispatched to the tool manager and
    answered by one tool result carrying the block's id and the manager's text. */
module ToolExecution {
  import opened Api

  /** The tool manager's `execute_tool(name, **input)`, treated as an oracle.
      Failures inside a tool come back as ordinary text. */
  type Executor = (string, Args) -> string

  /** One `execute_tool` invocation. */
  datatype Dispatch = Dispatch(name: string, input: Args)

  /** The tool-use blocks of `content`, in their original order. */
  function ToolUses(content: seq<Block>): (uses: seq<Block>)
    ensures forall i :: 0 <= i < |uses| ==> uses[i].ToolUse?
  {
    if |content| == 0 then []
    else (if content[0].ToolUse? then [content[0]] else []) + ToolUses(content[1..])
  }

  predicate HasToolUse(content: seq<Block>)
  {
    exists i :: 0 <= i < |content| && content[i].ToolUse?
  }

  /** The tool results a response's tool calls produce, one per tool use. */
  function ResultsFor(content: seq<Block>, execute: Executor): (results: seq<ToolResult>)
  {
    var uses := ToolUses(content);
    seq(|uses|, i requires 0 <= i < |uses| =>
      ToolResult(uses[i].id, execute(uses[i].name, uses[i].input)))
  }

  /** The `execute_tool` invocations a response's tool calls cause. */
  function DispatchesFor(content: seq<Block>): (dispatched: seq<Dispatch>)
  {
    var uses := ToolUses(content);
    seq(|uses|, i requires 0 <= i < |uses| => Dispatch(uses[i].name, uses[i].input))
  }

  /** Filtering distributes over concatenation, so block order is kept. */
  lemma {:induction false} ToolUsesAppend(a: seq<Block>, b: seq<Block>)
    ensures ToolUses(a + b) == ToolUses(a) + ToolUses(b)
    decreases |a|
  {
    if |a| == 0 {
      assert a + b == b;
    } else {
      assert (a + b)[0] == a[0];
      assert (a + b)[1..] == a[1..] + b;
      ToolUsesAppend(a[1..], b);
    }
  }

  /** The filter keeps exactly the tool-use blocks: nothing else, none lost. */
  lemma {:induction false} ToolUsesMembers(content: seq<Block>)
    ensures forall b :: b in ToolUses(content) <==> b in content && b.ToolUse?
    ensures |ToolUses(content)| <= |content|
    decreases |content|
  {
    if |content| > 0 {
      ToolUsesMembers(content[1..]);
      assert forall b :: b in content <==> b == content[0] || b in content[1..];
    }
  }

  /** There is a result to bundle exactly when the response holds a tool use. */
  lemma {:induction false} ResultsNonEmptyIff(content: seq<Block>, execute: Executor)
    ensures |ResultsFor(content, execute)| > 0 <==> HasToolUse(content)
  {
    ToolUsesMembers(content);
    var uses := ToolUses(content);
    if HasToolUse(content) {
      var i :| 0 <= i < |content| && content[i].ToolUse?;
      assert content[i] in uses;
    }
    if |uses| > 0 {
      var u := uses[0];
      assert u in uses;
      var j :| 0 <= j < |content| && content[j] == u;
      assert content[j].ToolUse?;
    }
  }

  /** The source's loop: walk the blocks, skip the ones that are not tool
      uses, dispatch the rest in order and collect one result per dispatch. */
  method ExecuteToolsForResponse(content: seq<Block>, execute: Executor)
    returns (results: seq<ToolResult>, dispatched: seq<Dispatch>)
    ensures |results| == |dispatched| == |ToolUses(content)|
    ensures forall i :: 0 <= i < |results| ==>
      var use := ToolUses(content)[i];
      && dispatched[i] == Dispatch(use.name, use.input)
      && results[i] == ToolResult(use.id, execute(use.name, use.input))
    ensures results == ResultsFor(content, execute)
    ensures dispatched == DispatchesFor(content)
  {
    results := [];
    dispatched := [];
    var k := 0;
    while k < |content|
      invariant 0 <= k <= |content|
      invariant results == ResultsFor(content[..k], execute)
      invariant dispatched == DispatchesFor(content[..k])
    {
      var block := content[k];
      assert content[..k + 1] == content[..k] + [block];
      ToolUsesAppend(content[..k], [block]);
      assert ToolUses([block]) == (if block.ToolUse? then [block] else []) + ToolUses([]);
      if block.ToolUse? {
        var output := execute(block.name, block.input);
        results := results + [ToolResult(block.id, output)];
        dispatched := dispatched + [Dispatch(block.name, block.input)];
      }
      k := k + 1;
    }
    assert content[..k] == content;
  }
}
