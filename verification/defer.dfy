/** Go's `defer`: calls registered during a function run when it returns
    (normally, early, or by panic), last registered first. */
module Defer {

  /** Runs a stack of deferred call groups, the most recently registered first. */
  function Unwind<E>(stack: seq<seq<E>>): (r: seq<E>)
    ensures |r| == |Flatten(stack)|
  {
    if |stack| == 0 then []
    else
      var n := |stack| - 1;
      assert stack == stack[..n] + [stack[n]];
      FlattenAppend(stack[..n], [stack[n]]);
      assert Flatten([stack[n]]) == stack[n] + Flatten([]);
      stack[n] + Unwind(stack[..n])
  }

  /** Every registered group, in registration order. */
  function Flatten<E>(stack: seq<seq<E>>): seq<E>
  {
    if |stack| == 0 then [] else stack[0] + Flatten(stack[1..])
  }

  function Reverse<T>(s: seq<T>): (r: seq<T>)
    ensures |r| == |s|
    ensures forall i :: 0 <= i < |s| ==> r[i] == s[|s| - 1 - i]
  {
    if |s| == 0 then [] else [s[|s| - 1]] + Reverse(s[..|s| - 1])
  }

  lemma {:induction false} FlattenAppend<E>(a: seq<seq<E>>, b: seq<seq<E>>)
    ensures Flatten(a + b) == Flatten(a) + Flatten(b)
    decreases |a|
  {
    if |a| == 0 {
      assert a + b == b;
    } else {
      assert (a + b)[1..] == a[1..] + b;
      FlattenAppend(a[1..], b);
    }
  }

  /** LIFO: unwinding runs exactly the registered groups, in reverse order of
      registration; so nothing registered is skipped and nothing runs twice. */
  lemma {:induction false} UnwindIsReversedFlatten<E>(stack: seq<seq<E>>)
    ensures Unwind(stack) == Flatten(Reverse(stack))
    ensures multiset(Unwind(stack)) == multiset(Flatten(stack))
    decreases |stack|
  {
    if |stack| == 0 {
    } else {
      var n := |stack| - 1;
      UnwindIsReversedFlatten(stack[..n]);
      assert Reverse(stack) == [stack[n]] + Reverse(stack[..n]);
      FlattenAppend([stack[n]], Reverse(stack[..n]));
      assert Flatten([stack[n]]) == stack[n] + Flatten([]);
      assert stack == stack[..n] + [stack[n]];
      FlattenAppend(stack[..n], [stack[n]]);
      assert Flatten([stack[n]]) == stack[n];
    }
  }

  /** The two-group stack the handler builds: the later group runs first. */
  lemma UnwindTwo<E>(first: seq<E>, second: seq<E>)
    ensures Unwind([first]) == first
    ensures Unwind([first, second]) == second + first
  {
  }
}
