/** Vocabulary shared by every model: optional values, opaque JSON bodies, bounded rings. */
module Basics {
  datatype Option<+T> = None | Some(value: T) {
    function GetOr(default: T): T {
      match this
      case Some(v) => v
      case None => default
    }

    function OrElse(other: Option<T>): Option<T> {
      if Some? then this else other
    }
  }

  /** A JSON body the folds store and compare but never look into. */
  type Json = string

  /** The newest `n` elements of a history: what a drop-oldest ring of capacity `n` holds. */
  function Newest<T>(history: seq<T>, n: nat): (ring: seq<T>)
    ensures |ring| == if |history| <= n then |history| else n
  {
    if |history| <= n then history else history[|history| - n..]
  }

  ghost predicate IsSuffix<T>(part: seq<T>, whole: seq<T>) {
    |part| <= |whole| && part == whole[|whole| - |part|..]
  }

  lemma SuffixSnoc<T>(part: seq<T>, whole: seq<T>, x: T)
    requires IsSuffix(part, whole)
    ensures IsSuffix(part + [x], whole + [x])
  {
  }

  lemma SuffixMembers<T>(part: seq<T>, whole: seq<T>)
    requires IsSuffix(part, whole)
    ensures |part| <= |whole|
    ensures forall x <- part :: x in whole
  {
  }

  /** Pushing onto a ring and then trimming is the same as trimming the longer history. */
  lemma NewestPush<T>(history: seq<T>, x: T, n: nat)
    ensures Newest(history + [x], n) == Newest(Newest(history, n) + [x], n)
  {
  }

  lemma NewestNewest<T>(history: seq<T>, more: seq<T>, n: nat)
    ensures Newest(history + more, n) == Newest(Newest(history, n) + more, n)
  {
  }

  /** The browser stores' ring push: append, then shift at most one element. */
  function PushShift<T>(ring: seq<T>, x: T, max: nat): seq<T> {
    var longer := ring + [x];
    if |longer| > max then longer[1..] else longer
  }

  /** Shifting once keeps the newest elements only of a ring that was not over its bound already. */
  lemma PushShiftIsNewest<T>(ring: seq<T>, x: T, max: nat)
    ensures PushShift(ring, x, max) == Newest(ring + [x], if |ring| <= max then max else |ring|)
  {
  }

  lemma SuffixNewest<T>(front: seq<T>, back: seq<T>, n: nat)
    ensures IsSuffix(Newest(back, n), Newest(front + back, n))
  {
  }

  lemma SuffixPush<T>(part: seq<T>, whole: seq<T>, more: seq<T>, n: nat)
    requires IsSuffix(part, whole)
    ensures IsSuffix(Newest(part + more, n), Newest(whole + more, n))
  {
    assert whole + more == whole[..|whole| - |part|] + (part + more);
    SuffixNewest(whole[..|whole| - |part|], part + more, n);
  }

  function Max(a: int, b: int): int {
    if a < b then b else a
  }

  function Min(a: int, b: int): int {
    if a < b then a else b
  }
}
