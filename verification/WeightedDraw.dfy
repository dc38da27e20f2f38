/** tests_special/random, the draw of the next step: a running sum of the weights
    is compared with a uniformly drawn number. */
module WeightedDraw {

  function Sum(ws: seq<nat>): nat {
    if ws == [] then 0 else Sum(ws[..|ws| - 1]) + ws[|ws| - 1]
  }

  /** The step that a drawn number selects. */
  ghost predicate Selects(ws: seq<nat>, drawn: nat, k: nat) {
    k < |ws| && Sum(ws[..k]) <= drawn < Sum(ws[..k + 1])
  }

  /** The drawing loop: the first step at which the running sum exceeds the number. */
  method Draw(ws: seq<nat>, drawn: nat) returns (k: nat)
    requires drawn < Sum(ws)
    ensures Selects(ws, drawn, k)
  {
    var running := 0;
    k := 0;
    assert ws[..|ws|] == ws;
    while true
      invariant k <= |ws| && running == Sum(ws[..k]) <= drawn
      decreases |ws| - k
    {
      assert ws[..k + 1][..k] == ws[..k];
      running := running + ws[k];
      if running > drawn {
        return;
      }
      k := k + 1;
    }
  }

  lemma {:induction false} PrefixMonotone(ws: seq<nat>, i: nat, j: nat)
    requires i <= j <= |ws|
    ensures Sum(ws[..i]) <= Sum(ws[..j])
    decreases j
  {
    if i < j {
      PrefixMonotone(ws, i, j - 1);
      assert ws[..j][..j - 1] == ws[..j - 1];
    }
  }

  /** Every number below the total selects exactly one step. */
  lemma SelectsOne(ws: seq<nat>, drawn: nat, j: nat, k: nat)
    requires Selects(ws, drawn, j) && Selects(ws, drawn, k)
    ensures j == k && drawn < Sum(ws)
  {
    if j < k {
      PrefixMonotone(ws, j + 1, k);
    } else if k < j {
      PrefixMonotone(ws, k + 1, j);
    }
    PrefixMonotone(ws, k + 1, |ws|);
    assert ws[..|ws|] == ws;
  }

  /** Every number below the total selects some step. */
  function Selected(ws: seq<nat>, drawn: nat): (k: nat)
    requires drawn < Sum(ws)
    ensures Selects(ws, drawn, k)
  {
    assert ws[..|ws|] == ws;
    var n := |ws| - 1;
    if Sum(ws[..n]) <= drawn then n
    else
      var k := Selected(ws[..n], drawn);
      assert ws[..n][..k] == ws[..k] && ws[..n][..k + 1] == ws[..k + 1];
      k
  }

  function Interval(lo: nat, hi: nat): (s: set<nat>)
    requires lo <= hi
    ensures forall d :: d in s <==> lo <= d < hi
    ensures |s| == hi - lo
    decreases hi - lo
  {
    if lo == hi then {} else {lo} + Interval(lo + 1, hi)
  }

  /** Step k is selected by exactly as many numbers as its weight says. */
  lemma WeightManyDraws(ws: seq<nat>, k: nat)
    requires k < |ws|
    ensures var draws := set d | 0 <= d < Sum(ws) && Selects(ws, d, k);
            |draws| == ws[k]
  {
    assert ws[..k + 1][..k] == ws[..k];
    var draws := set d | 0 <= d < Sum(ws) && Selects(ws, d, k);
    PrefixMonotone(ws, k + 1, |ws|);
    assert ws[..|ws|] == ws;
    assert draws == Interval(Sum(ws[..k]), Sum(ws[..k + 1]));
  }

  /** The total is positive exactly when some step has a positive weight. */
  lemma {:induction false} PositiveTotal(ws: seq<nat>)
    ensures Sum(ws) > 0 <==> exists k :: 0 <= k < |ws| && ws[k] > 0
  {
    if ws != [] {
      var n := |ws| - 1;
      PositiveTotal(ws[..n]);
      assert forall k :: 0 <= k < n ==> ws[..n][k] == ws[k];
      if ws[n] > 0 {
        assert exists k :: 0 <= k < |ws| && ws[k] > 0;
      }
    }
  }
}
