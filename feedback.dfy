/** The code-review feedback board: an upvote and a downvote counter per aspect. */
module Feedback {

  const Aspects: seq<string> := ["Readability", "Performance", "Security", "Documentation", "Testing"]

  function Sum(s: seq<nat>): nat {
    if s == [] then 0 else s[0] + Sum(s[1..])
  }

  /** Bumping one cell by one raises the total by exactly one. */
  lemma {:induction false} SumBump(s: seq<nat>, i: nat)
    requires i < |s|
    ensures Sum(s[i := s[i] + 1]) == Sum(s) + 1
  {
    if i == 0 {
      assert s[i := s[i] + 1][1..] == s[1..];
    } else {
      SumBump(s[1..], i - 1);
      assert s[i := s[i] + 1][1..] == s[1..][i - 1 := s[i] + 1];
    }
  }

  lemma {:induction false} SumZeros(n: nat)
    ensures Sum(seq(n, _ => 0)) == 0
  {
    if n > 0 {
      SumZeros(n - 1);
      assert seq(n, _ => 0)[1..] == seq(n - 1, _ => 0);
    }
  }

  /** The `FeedbackSystem` component: its `upvotes` and `downvotes` arrays. */
  class FeedbackSystem {
    const upvotes: array<nat>
    const downvotes: array<nat>
    /** How many times each handler has run. */
    ghost var upvoteCalls: nat
    ghost var downvoteCalls: nat

    /** One cell per aspect in each array, and each array sums to its handler's call count. */
    ghost predicate Valid()
      reads this, upvotes, downvotes
    {
      && upvotes != downvotes
      && upvotes.Length == |Aspects| && downvotes.Length == |Aspects|
      && Sum(upvotes[..]) == upvoteCalls
      && Sum(downvotes[..]) == downvoteCalls
    }

    constructor ()
      ensures Valid() && fresh(upvotes) && fresh(downvotes)
      ensures upvotes[..] == [0, 0, 0, 0, 0] && downvotes[..] == [0, 0, 0, 0, 0]
      ensures upvoteCalls == 0 && downvoteCalls == 0
    {
      upvotes := new nat[5](_ => 0);
      downvotes := new nat[5](_ => 0);
      upvoteCalls, downvoteCalls := 0, 0;
      new;
      SumZeros(5);
      assert upvotes[..] == seq(5, _ => 0);
      assert downvotes[..] == seq(5, _ => 0);
    }

    method HandleUpvote(index: nat)
      requires Valid() && index < |Aspects|
      modifies this, upvotes
      ensures Valid()
      ensures upvotes[..] == old(upvotes[..])[index := old(upvotes[index]) + 1]
      ensures downvotes[..] == old(downvotes[..])
      ensures upvoteCalls == old(upvoteCalls) + 1 && downvoteCalls == old(downvoteCalls)
    {
      SumBump(upvotes[..], index);
      upvotes[index] := upvotes[index] + 1;
      upvoteCalls := upvoteCalls + 1;
    }

    method HandleDownvote(index: nat)
      requires Valid() && index < |Aspects|
      modifies this, downvotes
      ensures Valid()
      ensures downvotes[..] == old(downvotes[..])[index := old(downvotes[index]) + 1]
      ensures upvotes[..] == old(upvotes[..])
      ensures downvoteCalls == old(downvoteCalls) + 1 && upvoteCalls == old(upvoteCalls)
    {
      SumBump(downvotes[..], index);
      downvotes[index] := downvotes[index] + 1;
      downvoteCalls := downvoteCalls + 1;
    }
  }
}
