/**
 Which listeners an emit reaches.  A once wrapper takes itself out of the list that is being walked,
 so the one after it slides into its place and is passed over.  Only the positions of the wrappers
 matter here: `once[k]` says whether there is one at position k.
 */
module Turns {

  /** The walk stops at position k, unless it was moved past it by a wrapper that it stopped at. */
  predicate Reached(once: seq<bool>, k: nat)
    requires k < |once|
  {
    k == 0 || !(once[k - 1] && Reached(once, k - 1))
  }

  /** The length of the run of wrappers that ends just before k. */
  function RunBefore(once: seq<bool>, k: nat): nat
    requires k < |once|
  {
    if k == 0 || !once[k - 1] then 0 else 1 + RunBefore(once, k - 1)
  }

  /** A listener is reached just when an even number of wrappers stands directly before it. */
  lemma {:induction false} ReachedAfterEvenRun(once: seq<bool>, k: nat)
    requires k < |once|
    ensures Reached(once, k) <==> RunBefore(once, k) % 2 == 0
  {
    if k > 0 && once[k - 1] {
      ReachedAfterEvenRun(once, k - 1);
    }
  }

  /** From a position that it reaches, the walk goes on as if the list began there. */
  lemma {:induction false} ReachedFrom(once: seq<bool>, j: nat, k: nat)
    requires j <= k < |once| && Reached(once, j)
    ensures Reached(once[j..], k - j) <==> Reached(once, k)
  {
    if j < k {
      ReachedFrom(once, j, k - 1);
    }
  }

  /** The position that the walk reaches after the first. */
  function Skip(once: seq<bool>): nat
    requires once != []
  {
    if once[0] && |once| > 1 then 2 else 1
  }

  lemma SkipReaches(once: seq<bool>)
    requires once != []
    ensures Skip(once) < |once| ==> Reached(once, Skip(once))
    ensures forall k :: 0 < k < Skip(once) ==> !Reached(once, k)
  {
  }
}
