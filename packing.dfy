/** The "stuff" strategy's accumulate, measure, roll-back loop, stated once for
    any element type and any budget test: documents are appended in retrieved
    order, the prompt is measured after every append, and the first document
    whose addition breaks the budget is dropped and ends the loop. */
module Packing {

  /** How many of `all` the loop keeps once the first `i` have been kept. */
  function KeptFrom<T>(all: seq<T>, fits: seq<T> -> bool, i: nat): (k: nat)
    requires i <= |all|
    ensures i <= k <= |all|
    decreases |all| - i
  {
    if i < |all| && fits(all[..i + 1]) then KeptFrom(all, fits, i + 1) else i
  }

  /** The documents the loop keeps: always a prefix of `all`. */
  function Packed<T>(all: seq<T>, fits: seq<T> -> bool): (kept: seq<T>)
    ensures |kept| <= |all| && kept == all[..|kept|]
  {
    all[..KeptFrom(all, fits, 0)]
  }

  /** Every prefix the loop accepted was measured and passed the test. */
  lemma {:induction false} KeptFromFits<T>(all: seq<T>, fits: seq<T> -> bool, i: nat, j: nat)
    requires i <= |all| && i < j <= KeptFrom(all, fits, i)
    ensures fits(all[..j])
    decreases |all| - i
  {
    assert i < |all| && fits(all[..i + 1]);
    if j > i + 1 {
      KeptFromFits(all, fits, i + 1, j);
    }
  }

  /** Each non-empty prefix of the kept documents passed the budget test; in
      particular the final prompt, when any document was kept, was measured. */
  lemma PackedPrefixesFit<T>(all: seq<T>, fits: seq<T> -> bool)
    ensures forall j :: 1 <= j <= |Packed(all, fits)| ==> fits(all[..j])
  {
    forall j | 1 <= j <= |Packed(all, fits)| ensures fits(all[..j]) {
      KeptFromFits(all, fits, 0, j);
    }
  }

  /** Packing stops only at the end of the list or at the first document whose
      addition fails the test: the document after the kept ones does not fit. */
  lemma PackedStopsAtFirstOverflow<T>(all: seq<T>, fits: seq<T> -> bool)
    ensures |Packed(all, fits)| < |all| ==> !fits(all[..|Packed(all, fits)| + 1])
    ensures var kept := Packed(all, fits);
      |kept| < |all| ==> !fits(kept + [all[|kept|]])
  {
    KeptFromStops(all, fits, 0);
    var kept := Packed(all, fits);
    if |kept| < |all| {
      assert all[..|kept| + 1] == kept + [all[|kept|]];
    }
  }

  lemma {:induction false} KeptFromStops<T>(all: seq<T>, fits: seq<T> -> bool, i: nat)
    requires i <= |all|
    ensures KeptFrom(all, fits, i) < |all| ==> !fits(all[..KeptFrom(all, fits, i) + 1])
    decreases |all| - i
  {
    if i < |all| && fits(all[..i + 1]) {
      KeptFromStops(all, fits, i + 1);
    }
  }

  /** The two facts above pin the result down: the kept prefix is the only prefix
      whose non-empty prefixes all fit and that is followed by a misfit or the end. */
  lemma {:induction false} PackedUnique<T>(all: seq<T>, fits: seq<T> -> bool, k: nat)
    requires k <= |all|
    requires forall j :: 1 <= j <= k ==> fits(all[..j])
    requires k < |all| ==> !fits(all[..k + 1])
    ensures Packed(all, fits) == all[..k]
  {
    KeptFromIs(all, fits, 0, k);
  }

  lemma {:induction false} KeptFromIs<T>(all: seq<T>, fits: seq<T> -> bool, i: nat, k: nat)
    requires i <= k <= |all|
    requires forall j :: i < j <= k ==> fits(all[..j])
    requires k < |all| ==> !fits(all[..k + 1])
    ensures KeptFrom(all, fits, i) == k
    decreases k - i
  {
    if i < k {
      assert fits(all[..i + 1]);
      KeptFromIs(all, fits, i + 1, k);
    }
  }

  /** When the test is prefix-closed (dropping the last document never breaks a
      fitting prompt), packing keeps the longest prefix that fits. */
  lemma {:induction false} PackedIsLongestFitting<T>(all: seq<T>, fits: seq<T> -> bool, k: nat)
    requires forall j :: 1 <= j < |all| ==> fits(all[..j + 1]) ==> fits(all[..j])
    requires 1 <= k <= |all| && fits(all[..k])
    ensures k <= |Packed(all, fits)|
  {
    var n := |Packed(all, fits)|;
    if n < k {
      var j := k;
      while j > n + 1
        invariant n + 1 <= j <= k
        invariant fits(all[..j])
      {
        j := j - 1;
      }
      PackedStopsAtFirstOverflow(all, fits);
      assert false;
    }
  }

  /** The loop itself: append the next element, test the list, and on failure
      pop that element and stop. */
  method PackPrefix<T>(all: seq<T>, fits: seq<T> -> bool) returns (kept: seq<T>)
    ensures kept == Packed(all, fits)
  {
    kept := [];
    var i := 0;
    while i < |all|
      invariant 0 <= i <= |all|
      invariant kept == all[..i]
      invariant KeptFrom(all, fits, i) == KeptFrom(all, fits, 0)
    {
      kept := kept + [all[i]];
      assert kept == all[..i + 1];
      if !fits(kept) {
        kept := kept[..|kept| - 1];
        return;
      }
      i := i + 1;
    }
  }
}
