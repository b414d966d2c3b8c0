/** Failover as all stream handlers do it: attempts are made in order until one of them is not retried. */
module Failover {

  /** The attempt that answers: the first of those left that is not retried, or -1. */
  function Answering<A>(retried: A -> bool, attempts: seq<A>, left: nat): (k: int)
    ensures k >= 0 ==> k < left && k < |attempts| && !retried(attempts[k]) && forall i :: 0 <= i < k ==> retried(attempts[i])
    ensures k < 0 ==> k == -1 && forall i :: 0 <= i < left && i < |attempts| ==> retried(attempts[i])
    decreases left
  {
    if left == 0 || attempts == [] then -1
    else if !retried(attempts[0]) then 0
    else
      var k := Answering(retried, attempts[1..], left - 1);
      assert forall i :: 0 < i < |attempts| ==> attempts[i] == attempts[1..][i - 1];
      if k < 0 then -1 else k + 1
  }

  /** After a retried attempt the answer is that of the attempts behind it. */
  lemma AnsweringBehind<A>(retried: A -> bool, attempts: seq<A>, left: nat)
    requires left > 0 && attempts != [] && retried(attempts[0])
    ensures var k, later := Answering(retried, attempts, left), Answering(retried, attempts[1..], left - 1);
            (k < 0 <==> later < 0) && (later >= 0 ==> k == later + 1 && attempts[k] == attempts[1..][later])
  {
  }
}
