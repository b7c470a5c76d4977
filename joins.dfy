/** The list of joined cleanup ids that `handleJoinCleanup` keeps under `joined_cleanups`. */
module Joins {

  /** The list after joining `id`: appended at the end unless already present. */
  function Joined(ids: seq<int>, id: int): seq<int>
  {
    if id in ids then ids else ids + [id]
  }

  /** Occurrences of `x` in `xs`. */
  function Count(xs: seq<int>, x: int): nat
  {
    if xs == [] then 0 else (if xs[0] == x then 1 else 0) + Count(xs[1..], x)
  }

  predicate NoDuplicates(xs: seq<int>)
  {
    forall i, j :: 0 <= i < j < |xs| ==> xs[i] != xs[j]
  }

  lemma {:induction false} CountAppend(xs: seq<int>, y: int, x: int)
    ensures Count(xs + [y], x) == Count(xs, x) + (if y == x then 1 else 0)
  {
    if xs != [] {
      assert (xs + [y])[1..] == xs[1..] + [y];
      CountAppend(xs[1..], y, x);
    }
  }

  lemma {:induction false} CountZero(xs: seq<int>, x: int)
    ensures Count(xs, x) == 0 <==> x !in xs
  {
    if xs != [] {
      CountZero(xs[1..], x);
      assert xs == [xs[0]] + xs[1..];
    }
  }

  /** Joining twice is joining once. */
  lemma JoinedIdempotent(ids: seq<int>, id: int)
    ensures Joined(Joined(ids, id), id) == Joined(ids, id)
  {
  }

  /**
   * Joining keeps the existing ids in order, adds `id` to the set of ids, and
   * leaves `id` occurring exactly once when it was absent; an id already present
   * leaves the list as it was.
   */
  lemma JoinedContents(ids: seq<int>, id: int)
    ensures ids <= Joined(ids, id)
    ensures (set x | x in Joined(ids, id)) == (set x | x in ids) + {id}
    ensures id in ids ==> Joined(ids, id) == ids
    ensures id !in ids ==> Count(Joined(ids, id), id) == 1
    ensures forall x :: x != id ==> Count(Joined(ids, id), x) == Count(ids, x)
  {
    forall x | x != id ensures Count(Joined(ids, id), x) == Count(ids, x) {
      if id !in ids { CountAppend(ids, id, x); }
    }
    if id !in ids {
      CountAppend(ids, id, id);
      CountZero(ids, id);
    }
  }

  /** A list without duplicates stays without duplicates. */
  lemma JoinedKeepsNoDuplicates(ids: seq<int>, id: int)
    requires NoDuplicates(ids)
    ensures NoDuplicates(Joined(ids, id))
  {
  }

  /** A later join of any id never adds a second occurrence of an id joined before. */
  lemma LaterJoinKeepsOneOccurrence(ids: seq<int>, a: int, b: int)
    ensures Count(Joined(Joined(ids, a), b), a) == (if a in ids then Count(ids, a) else 1)
  {
    JoinedContents(ids, a);
    JoinedContents(Joined(ids, a), b);
  }
}
