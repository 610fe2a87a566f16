/** How the short-term window shrinks: whole pairs are dropped from its front. */
module Trimming {
  import opened Messages

  /** The window left by `while len(window) > keep: pop(0); pop(0)`. */
  function DropPairs(w: seq<Message>, keep: nat): (r: seq<Message>)
    requires keep >= 1
    ensures IsSuffix(r, w)
    ensures (|w| - |r|) % 2 == 0
    ensures |r| <= keep
    ensures |w| <= keep ==> r == w
    ensures |w| > keep ==> |r| + 1 >= keep
    decreases |w|
  {
    if |w| <= keep then w
    else
      var t := w[2..];
      var r := DropPairs(t, keep);
      assert t[|t| - |r|..] == w[|w| - |r|..];
      r
  }

  /** Whether the new input together with window `w` reaches the window budget. */
  predicate OverWindow(count: MessageCounter, m: Message, w: seq<Message>) {
    count([m]) + count(w) >= WINDOW_BUDGET
  }

  /** The window left by `while OverWindow: cut_memory()`, or None when a cut
      pops from an emptied window. */
  function FitWindow(count: MessageCounter, m: Message, w: seq<Message>): (r: Option<seq<Message>>)
    ensures r.Some? ==> IsSuffix(r.value, w) && (|w| - |r.value|) % 2 == 0
    ensures r.Some? ==> !OverWindow(count, m, r.value)
    decreases |w|
  {
    if !OverWindow(count, m, w) then Some(w)
    else if |w| < 2 then None
    else FitWindow(count, m, w[2..])
  }

  /** FitWindow keeps the LONGEST pair-aligned suffix within budget: every longer
      pair-aligned suffix is over budget. */
  lemma {:induction false} FitWindowLongest(count: MessageCounter, m: Message, w: seq<Message>, k: nat)
    requires FitWindow(count, m, w).Some?
    requires k < |w| - |FitWindow(count, m, w).value| && k % 2 == 0
    ensures OverWindow(count, m, w[k..])
    decreases |w|
  {
    // the loop ran at least once, so the whole window is over budget and holds a pair
    assert OverWindow(count, m, w) && |w| >= 2;
    var t := w[2..];
    assert FitWindow(count, m, w) == FitWindow(count, m, t);
    if k == 0 {
      assert w[0..] == w;
    } else {
      FitWindowLongest(count, m, t, k - 2);
      assert t[k - 2..] == w[k..];
    }
  }

  /** FitWindow fails exactly when every pair-aligned suffix of the window is over budget. */
  lemma {:induction false} FitWindowFails(count: MessageCounter, m: Message, w: seq<Message>)
    ensures FitWindow(count, m, w).None? <==>
      forall k :: 0 <= k <= |w| && k % 2 == 0 ==> OverWindow(count, m, w[k..])
    decreases |w|
  {
    assert w[0..] == w;
    var r := FitWindow(count, m, w);
    if r.Some? {
      var d := |w| - |r.value|;
      assert w[d..] == r.value;
      assert !OverWindow(count, m, w[d..]);
    } else if |w| < 2 {
      forall k | 0 <= k <= |w| && k % 2 == 0 ensures OverWindow(count, m, w[k..]) {
        assert k == 0;
      }
    } else {
      var t := w[2..];
      FitWindowFails(count, m, t);
      forall k | 0 <= k <= |w| && k % 2 == 0 ensures OverWindow(count, m, w[k..]) {
        if k >= 2 {
          assert w[k..] == t[k - 2..];
        }
      }
    }
  }
}
