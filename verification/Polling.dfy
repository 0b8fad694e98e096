/** `waitForState` of pkg/controller/util.go. */
module Polling {

  datatype Poll = Yes | NotYet | Broken

  /** How many times a loop over t = 0, retry, 2*retry, ... <= timeout runs. */
  function Rounds(retry: int, timeout: int): nat
    requires retry > 0
  {
    if timeout < 0 then 0 else timeout / retry + 1
  }

  /** A Yes comes among the first `n` answers, and only NotYet before it. */
  ghost predicate SucceedsWithin(polls: nat -> Poll, n: nat) {
    exists i: nat :: i < n && polls(i).Yes? && AllNotYet(polls, i)
  }

  ghost predicate AllNotYet(polls: nat -> Poll, n: nat) {
    forall i: nat :: i < n ==> polls(i).NotYet?
  }

  method WaitForState(retry: int, timeout: int, polls: nat -> Poll) returns (ok: bool, asked: nat)
    requires retry > 0
    ensures ok <==> SucceedsWithin(polls, Rounds(retry, timeout))
    ensures asked <= Rounds(retry, timeout)
    ensures !ok && asked < Rounds(retry, timeout) ==> asked > 0 && polls(asked - 1).Broken?
  {
    var t := 0;
    asked := 0;
    while t <= timeout
      invariant t == asked * retry
      invariant asked <= Rounds(retry, timeout)
      invariant t <= timeout ==> asked < Rounds(retry, timeout)
      invariant t > timeout ==> asked == Rounds(retry, timeout)
      invariant AllNotYet(polls, asked)
      decreases timeout - t
    {
      var answer := polls(asked);
      asked := asked + 1;
      if answer.Broken? {
        return false, asked;
      }
      if answer.Yes? {
        assert AllNotYet(polls, asked - 1);
        return true, asked;
      }
      t := t + retry;
      RoundsStep(retry, timeout, asked);
    }
    ok := false;
  }

  lemma ScaleUp(a: int, b: int, r: int)
    requires a <= b && r > 0
    ensures a * r <= b * r
  {
    assert (b - a) * r >= 0;
  }

  lemma RoundsStep(retry: int, timeout: int, n: nat)
    requires retry > 0
    ensures n * retry <= timeout <==> n < Rounds(retry, timeout)
  {
    if timeout >= 0 {
      var q := timeout / retry;
      assert q * retry <= timeout < (q + 1) * retry;
      if n <= q {
        ScaleUp(n, q, retry);
      } else {
        ScaleUp(q + 1, n, retry);
      }
    } else {
      ScaleUp(0, n, retry);
    }
  }
}
