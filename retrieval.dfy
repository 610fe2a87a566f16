/** The cap on retrieved long-term memory snippets, as the loop in `ask` computes it. */
module Retrieval {
  import opened Messages

  /** Tokens of all snippets of `snips`, added up in retrieval order. */
  function SnippetTokens(snips: seq<string>, count: TextCounter): nat {
    if snips == [] then 0
    else SnippetTokens(snips[..|snips| - 1], count) + count(snips[|snips| - 1])
  }

  /** The loop's `is_full` flag: some running total reaches the snippet budget. */
  ghost predicate RunningTotalReaches(snips: seq<string>, count: TextCounter) {
    exists k :: 0 < k <= |snips| && SnippetTokens(snips[..k], count) >= SNIPPET_BUDGET
  }

  /** A running total never exceeds the total of the whole list. */
  lemma {:induction false} RunningTotalAtMostTotal(snips: seq<string>, count: TextCounter, k: nat)
    requires k <= |snips|
    ensures SnippetTokens(snips[..k], count) <= SnippetTokens(snips, count)
    decreases |snips|
  {
    if k < |snips| {
      var init := snips[..|snips| - 1];
      assert init[..k] == snips[..k];
      RunningTotalAtMostTotal(init, count, k);
    } else {
      assert snips[..k] == snips;
    }
  }

  /** The flag is set exactly when the whole list reaches the budget. */
  lemma RunningTotalReachesIffTotal(snips: seq<string>, count: TextCounter)
    ensures RunningTotalReaches(snips, count) <==> SnippetTokens(snips, count) >= SNIPPET_BUDGET
  {
    if RunningTotalReaches(snips, count) {
      var k :| 0 < k <= |snips| && SnippetTokens(snips[..k], count) >= SNIPPET_BUDGET;
      RunningTotalAtMostTotal(snips, count, k);
    }
    if SnippetTokens(snips, count) >= SNIPPET_BUDGET {
      assert snips[..|snips|] == snips;
    }
  }

  /** What the cap leaves: once the flag is set, `relative_memory[:i]` with the loop
      variable `i` left at the last index, so only the last snippet goes. */
  function CappedSnippets(snips: seq<string>, count: TextCounter): (kept: seq<string>)
    ensures IsPrefix(kept, snips)
    ensures SnippetTokens(snips, count) < SNIPPET_BUDGET ==> kept == snips
    ensures SnippetTokens(snips, count) >= SNIPPET_BUDGET ==> |kept| == |snips| - 1
  {
    if SnippetTokens(snips, count) >= SNIPPET_BUDGET then snips[..|snips| - 1] else snips
  }

  /** The accumulator loop with its `is_full` flag. */
  method CapSnippets(snips: seq<string>, count: TextCounter) returns (kept: seq<string>)
    ensures kept == CappedSnippets(snips, count)
    ensures RunningTotalReaches(snips, count) ==> kept == snips[..|snips| - 1]
    ensures !RunningTotalReaches(snips, count) ==> kept == snips
  {
    var isFull := false;
    var total: nat := 0;
    var i := 0;
    for j := 0 to |snips|
      invariant total == SnippetTokens(snips[..j], count)
      invariant isFull <==> total >= SNIPPET_BUDGET
      invariant j > 0 ==> i == j - 1
    {
      i := j;
      assert snips[..j + 1][..j] == snips[..j];
      total := total + count(snips[i]);
      if total >= SNIPPET_BUDGET {
        isFull := true;
      }
    }
    assert snips[..|snips|] == snips;
    RunningTotalReachesIffTotal(snips, count);
    kept := snips;
    if isFull {
      kept := snips[..i];
    }
  }

  /** The cap can leave snippets whose running total is still over the budget:
      with a first snippet of 1024 tokens, two of three snippets stay. */
  lemma CapCanStayOverBudget()
    ensures var count: TextCounter := s => if s == "long" then SNIPPET_BUDGET else 0;
      var kept := CappedSnippets(["long", "long", "short"], count);
      kept == ["long", "long"] && SnippetTokens(kept, count) >= SNIPPET_BUDGET
  {
  }
}
