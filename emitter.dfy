/** The session's `will-download` listener array, as an event emitter keeps it:
    `on` appends a listener (index.js:97) and `removeListener` drops the most
    recently added occurrence of it, leaving the others in order (index.js:92). */
module Emitter {

  /** `listeners` after `removeListener(x)`. */
  function RemoveLast<T(==)>(listeners: seq<T>, x: T): (r: seq<T>)
    ensures x !in listeners ==> r == listeners
    ensures x in listeners ==> |r| == |listeners| - 1
    ensures multiset(r) == multiset(listeners) - multiset{x}
  {
    if listeners == [] then []
    else
      var n := |listeners| - 1;
      assert listeners == listeners[..n] + [listeners[n]];
      if listeners[n] == x then listeners[..n]
      else RemoveLast(listeners[..n], x) + [listeners[n]]
  }

  /** A listener registered once is removed completely, and every listener
      added before or after it stays where it was. */
  lemma {:induction false} RemoveLastSplit<T>(before: seq<T>, x: T, after: seq<T>)
    requires x !in after
    ensures RemoveLast(before + [x] + after, x) == before + after
  {
    if after == [] {
      assert before + [x] + after == before + [x];
    } else {
      var n := |after| - 1;
      var s := before + [x] + after;
      assert s[..|s| - 1] == before + [x] + after[..n];
      assert s[|s| - 1] == after[n] != x;
      RemoveLastSplit(before, x, after[..n]);
      assert before + after[..n] + [after[n]] == before + after;
    }
  }

  /** Once removed, a listener registered once is no longer in the array. */
  lemma RemovedOnceRegistered<T>(listeners: seq<T>, x: T)
    requires multiset(listeners)[x] == 1
    ensures x !in RemoveLast(listeners, x)
  {
    var r := RemoveLast(listeners, x);
    assert multiset(r)[x] == 0;
  }
}
