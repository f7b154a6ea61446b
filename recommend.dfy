/**
 * The AI recommendation page (app/recommend/page.tsx): the auto-rotation step
 * that moves to the next recommendation with a backdrop image, the outcome
 * handling of a query submission, and the card-click guard.
 */
module Recommend {
  import opened Wrappers
  import opened Api

  predicate HasBackdrop(m: AIMovie) { Truthy(m.backdropPath) }

  /** The position `j + 1` steps after `sel` in a cyclic list of `n`. */
  function Pos(sel: nat, j: nat, n: nat): (p: nat)
    requires n > 0
    ensures p < n
  {
    (sel + 1 + j) % n
  }

  /** The movie `j + 1` steps after `sel`. */
  function After(recs: seq<AIMovie>, sel: nat, j: nat): AIMovie
    requires |recs| > 0
  {
    recs[Pos(sel, j, |recs|)]
  }

  /**
   * Where the rotation lands after trying `attempts` further positions: the
   * loop of the rotation step, written as a recursion on the attempts made.
   */
  function ScanFrom(recs: seq<AIMovie>, sel: nat, attempts: nat): (r: nat)
    requires |recs| > 0 && attempts <= |recs|
    ensures r < |recs|
    decreases |recs| - attempts
  {
    var i := Pos(sel, attempts, |recs|);
    if !HasBackdrop(recs[i]) && attempts < |recs| then ScanFrom(recs, sel, attempts + 1) else i
  }

  /** The index the rotation moves to from `sel`. */
  function RotationTarget(recs: seq<AIMovie>, sel: nat): (r: nat)
    requires |recs| > 0
    ensures r < |recs|
  {
    ScanFrom(recs, sel, 0)
  }

  /**
   * The rotation step as the page runs it: start after `sel`, and step
   * cyclically while the movie has no backdrop, at most once per movie.
   */
  method NextBackdropIndex(recs: seq<AIMovie>, sel: nat) returns (next: nat, attempts: nat)
    requires |recs| > 0
    ensures next == RotationTarget(recs, sel)
    ensures attempts <= |recs| && next == Pos(sel, attempts, |recs|)
    ensures forall j :: 0 <= j < attempts ==> !HasBackdrop(After(recs, sel, j))
  {
    var n := |recs|;
    next := (sel + 1) % n;
    attempts := 0;
    while !HasBackdrop(recs[next]) && attempts < n
      invariant attempts <= n
      invariant next == Pos(sel, attempts, n)
      invariant ScanFrom(recs, sel, attempts) == RotationTarget(recs, sel)
      invariant forall j :: 0 <= j < attempts ==> !HasBackdrop(After(recs, sel, j))
      decreases n - attempts
    {
      assert After(recs, sel, attempts) == recs[next];
      assert ScanFrom(recs, sel, attempts + 1) == ScanFrom(recs, sel, attempts);
      NextPos(sel, attempts, n);
      next := (next + 1) % n;
      attempts := attempts + 1;
    }
  }

  /** Euclidean division is unique: a quotient and remainder in range are the ones `/` and `%` give. */
  lemma ModUnique(a: int, n: int, q: int, r: int)
    requires n > 0 && 0 <= r < n && a == q * n + r
    ensures a % n == r && a / n == q
  {
    var q', r' := a / n, a % n;
    assert q * n + r == q' * n + r';
    if q > q' {
      assert (q - q') * n >= n by { MulAtLeast(q - q', n); }
      assert false;
    } else if q < q' {
      assert (q' - q) * n >= n by { MulAtLeast(q' - q, n); }
      assert false;
    }
  }

  lemma MulAtLeast(k: int, n: int)
    requires k >= 1 && n > 0
    ensures k * n >= n
  {
  }

  /** Stepping a reduced position is stepping the position. */
  lemma ModStep(a: nat, n: nat)
    requires n > 0
    ensures (a % n + 1) % n == (a + 1) % n
  {
    var q, r := a / n, a % n;
    assert a == q * n + r && 0 <= r < n;
    if r + 1 < n {
      ModUnique(a + 1, n, q, r + 1);
    } else {
      assert a + 1 == (q + 1) * n;
      ModUnique(a + 1, n, q + 1, 0);
    }
  }

  /** One step further round the list is the next offset. */
  lemma NextPos(sel: nat, j: nat, n: nat)
    requires n > 0
    ensures (Pos(sel, j, n) + 1) % n == Pos(sel, j + 1, n)
  {
    ModStep(sel + 1 + j, n);
  }

  /** Every position is reached at some offset below `n` after `sel`. */
  lemma OffsetOf(sel: nat, i: nat, n: nat) returns (j: nat)
    requires i < n
    ensures j < n && Pos(sel, j, n) == i
  {
    var q, r := (sel + 1) / n, (sel + 1) % n;
    if r <= i {
      j := i - r;
      ModUnique(sel + 1 + j, n, q, i);
    } else {
      j := i + n - r;
      ModUnique(sel + 1 + j, n, q + 1, i);
    }
  }

  /** After `n` steps the scan is back where it started. */
  lemma FullCircle(sel: nat, n: nat)
    requires n > 0
    ensures Pos(sel, n, n) == Pos(sel, 0, n)
  {
    var q, r := (sel + 1) / n, (sel + 1) % n;
    ModUnique(sel + 1 + n, n, q + 1, r);
  }

  /** What the scan returns: the first position with a backdrop, or the position after `n` attempts. */
  lemma {:induction false} ScanFromSpec(recs: seq<AIMovie>, sel: nat, attempts: nat) returns (k: nat)
    requires |recs| > 0 && attempts <= |recs|
    ensures attempts <= k <= |recs| && ScanFrom(recs, sel, attempts) == Pos(sel, k, |recs|)
    ensures HasBackdrop(After(recs, sel, k)) || k == |recs|
    ensures forall j :: attempts <= j < k ==> !HasBackdrop(After(recs, sel, j))
    decreases |recs| - attempts
  {
    var i := Pos(sel, attempts, |recs|);
    if !HasBackdrop(recs[i]) && attempts < |recs| {
      k := ScanFromSpec(recs, sel, attempts + 1);
      assert !HasBackdrop(After(recs, sel, attempts));
    } else {
      k := attempts;
    }
  }

  /**
   * When some recommendation has a backdrop, the rotation lands on the first
   * one after `sel`, going round the end of the list.
   */
  lemma RotationFindsNextBackdrop(recs: seq<AIMovie>, sel: nat, i: nat) returns (k: nat)
    requires i < |recs| && HasBackdrop(recs[i])
    ensures k < |recs| && RotationTarget(recs, sel) == Pos(sel, k, |recs|)
    ensures HasBackdrop(recs[RotationTarget(recs, sel)])
    ensures forall j :: 0 <= j < k ==> !HasBackdrop(After(recs, sel, j))
  {
    var j := OffsetOf(sel, i, |recs|);
    assert HasBackdrop(After(recs, sel, j));
    k := ScanFromSpec(recs, sel, 0);
  }

  /** When no recommendation has a backdrop, the rotation simply moves one position on. */
  lemma RotationWithoutBackdrops(recs: seq<AIMovie>, sel: nat)
    requires |recs| > 0
    requires forall i :: 0 <= i < |recs| ==> !HasBackdrop(recs[i])
    ensures RotationTarget(recs, sel) == (sel + 1) % |recs|
  {
    var k := ScanFromSpec(recs, sel, 0);
    FullCircle(sel, |recs|);
  }

  const NoResultsMessage: string := "No recommendations found. Please try a different query."
  const AIBreak: string := "AI_BREAK"

  /** The page's state cells (the query text is entered by the user and passed to `BeginSubmit`). */
  class RecommendPage {
    var recommendations: seq<AIMovie>
    var isLoading: bool
    var error: Option<string>
    var selectedIndex: nat

    constructor ()
      ensures recommendations == [] && !isLoading && error.None? && selectedIndex == 0
    {
      recommendations := [];
      isLoading := false;
      error := None;
      selectedIndex := 0;
    }

    /** One tick of the rotation timer, which runs only while there are recommendations. */
    method Rotate()
      modifies this
      ensures recommendations == old(recommendations) && isLoading == old(isLoading) && error == old(error)
      ensures |recommendations| == 0 ==> selectedIndex == old(selectedIndex)
      ensures |recommendations| > 0 ==> selectedIndex == RotationTarget(recommendations, old(selectedIndex))
    {
      if |recommendations| > 0 {
        var next, _ := NextBackdropIndex(recommendations, selectedIndex);
        selectedIndex := next;
      }
    }

    /** The synchronous start of a submission: loading on, error cleared. */
    method BeginSubmit()
      modifies this
      ensures isLoading && error.None?
      ensures recommendations == old(recommendations) && selectedIndex == old(selectedIndex)
    {
      isLoading := true;
      error := None;
    }

    /**
     * The end of a submission. A non-empty array replaces the recommendations
     * and selects the first; any other reply reports that nothing was found;
     * a failed request reports the AI break. Loading ends in every case.
     */
    method CompleteSubmit(reply: Result<AIResponse, ApiError>)
      modifies this
      ensures !isLoading
      ensures reply.Success? && reply.value.data.MovieArray? && |reply.value.data.items| > 0 ==>
                recommendations == reply.value.data.items && selectedIndex == 0 && error == old(error)
      ensures reply.Success? && !(reply.value.data.MovieArray? && |reply.value.data.items| > 0) ==>
                recommendations == old(recommendations) && selectedIndex == old(selectedIndex) && error == Some(NoResultsMessage)
      ensures reply.Failure? ==>
                recommendations == old(recommendations) && selectedIndex == old(selectedIndex) && error == Some(AIBreak)
    {
      match reply {
        case Success(response) =>
          if response.data.MovieArray? && |response.data.items| > 0 {
            recommendations := response.data.items;
            selectedIndex := 0;
          } else {
            error := Some(NoResultsMessage);
          }
        case Failure(_) =>
          error := Some(AIBreak);
      }
      isLoading := false;
    }

    /** A click on a card selects it only when its movie has a backdrop. */
    method SelectCard(index: nat)
      requires index < |recommendations|
      modifies this
      ensures recommendations == old(recommendations) && isLoading == old(isLoading) && error == old(error)
      ensures selectedIndex == if HasBackdrop(recommendations[index]) then index else old(selectedIndex)
    {
      if HasBackdrop(recommendations[index]) {
        selectedIndex := index;
      }
    }
  }
}
