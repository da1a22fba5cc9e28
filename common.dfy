/** Shared vocabulary: optional and fallible values, the abstract clock, UUIDs and Swift's `filter`. */
module Common {

  datatype Option<+T> = None | Some(value: T)

  datatype Result<+T, +E> = Success(value: T) | Failure(error: E)

  /** An instant on an abstract clock, in whole seconds (`Date()` is a parameter everywhere). */
  type Time = int

  /** A UUID. Only equality between ids is ever observed, so a number stands for one. */
  type Uuid = nat

  /**
   * The process-wide source of `UUID()`: every call hands out an id that was never handed out
   * before. Ids below `next` are exactly the ones already handed out.
   */
  class UuidSource {
    var next: nat

    constructor()
      ensures next == 0
    {
      next := 0;
    }

    method Fresh() returns (id: Uuid)
      modifies this
      ensures id == old(next) && next == old(next) + 1
    {
      id := next;
      next := next + 1;
    }
  }

  /** `randomElement()` with the random draw `choice` made explicit: nil only for an empty sequence. */
  function RandomElement<T>(s: seq<T>, choice: nat): (r: Option<T>)
    ensures r.None? <==> |s| == 0
    ensures r.Some? ==> r.value in s
  {
    if |s| == 0 then None else Some(s[choice % |s|])
  }

  /** Swift's `filter`: the elements of `s` satisfying `p`, in their original order. */
  function Kept<T(!new)>(s: seq<T>, p: T -> bool): (r: seq<T>)
    ensures |r| <= |s|
    ensures forall x :: x in r <==> x in s && p(x)
  {
    if s == [] then [] else (if p(s[0]) then [s[0]] else []) + Kept(s[1..], p)
  }

  /** Filtering twice with the same predicate gives what filtering once gives. */
  lemma {:induction false} KeptIdempotent<T(!new)>(s: seq<T>, p: T -> bool)
    ensures Kept(Kept(s, p), p) == Kept(s, p)
  {
    if s != [] {
      var rest := Kept(s[1..], p);
      KeptIdempotent(s[1..], p);
      if p(s[0]) {
        assert ([s[0]] + rest)[1..] == rest;
      } else {
        assert [] + rest == rest;
      }
    }
  }

  /** Filtering keeps everything exactly when every element passes. */
  lemma {:induction false} KeptAll<T(!new)>(s: seq<T>, p: T -> bool)
    ensures Kept(s, p) == s <==> forall x :: x in s ==> p(x)
  {
    if s != [] {
      KeptAll(s[1..], p);
      if !p(s[0]) {
        assert s[0] !in Kept(s, p);
      } else {
        assert [s[0]] + s[1..] == s;
      }
    }
  }

  /** Two predicates that agree everywhere filter alike. */
  lemma {:induction false} KeptCongruent<T(!new)>(s: seq<T>, p: T -> bool, q: T -> bool)
    requires forall x :: p(x) == q(x)
    ensures Kept(s, p) == Kept(s, q)
  {
    if s != [] {
      KeptCongruent(s[1..], p, q);
    }
  }

  /** Filtering distributes over concatenation, so relative order is kept. */
  lemma {:induction false} KeptAppend<T(!new)>(a: seq<T>, b: seq<T>, p: T -> bool)
    ensures Kept(a + b, p) == Kept(a, p) + Kept(b, p)
  {
    if a == [] {
      assert a + b == b;
    } else {
      assert (a + b)[0] == a[0];
      assert (a + b)[1..] == a[1..] + b;
      KeptAppend(a[1..], b, p);
    }
  }
}
