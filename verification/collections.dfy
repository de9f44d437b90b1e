/** Sequences used as JavaScript `Set`s: insertion order is kept, a value
    already present is not added again, and `Array.from(set)` lists the
    values in the order they were first added. */
module Collections {

  predicate Distinct<T(==)>(xs: seq<T>) {
    forall i, j :: 0 <= i < j < |xs| ==> xs[i] != xs[j]
  }

  /** `set.add(x)` on a set whose contents, in insertion order, are `acc`. */
  function AddNew<T(==)>(acc: seq<T>, x: T): (r: seq<T>)
    ensures x in acc ==> r == acc
    ensures x !in acc ==> r == acc + [x]
  {
    if x in acc then acc else acc + [x]
  }

  /** Adds every element of `xs`, left to right, to the set `acc`. */
  function AddAll<T(==)>(acc: seq<T>, xs: seq<T>): seq<T>
    decreases |xs|
  {
    if xs == [] then acc else AddAll(AddNew(acc, xs[0]), xs[1..])
  }

  /** Adding keeps what was there, in its place, adds nothing that was not
      offered, and repeats nothing. */
  lemma {:induction false} AddAllSpec<T>(acc: seq<T>, xs: seq<T>)
    ensures var r := AddAll(acc, xs);
      && (Distinct(acc) ==> Distinct(r))
      && acc <= r
      && forall x :: x in r <==> x in acc || x in xs
    decreases |xs|
  {
    if xs != [] {
      var next := AddNew(acc, xs[0]);
      AddAllSpec(next, xs[1..]);
      assert forall x :: x in xs <==> x == xs[0] || x in xs[1..];
      if Distinct(acc) && xs[0] !in acc {
        forall i, j | 0 <= i < j < |next| ensures next[i] != next[j] {
          if j == |acc| {
            assert next[i] == acc[i];
          }
        }
      }
    }
  }

  /** `Array.from(new Set(xs))`: the distinct values of `xs`, each at the
      place of its first occurrence. */
  function Dedup<T(==)>(xs: seq<T>): seq<T> {
    AddAll([], xs)
  }

  /** The de-duplication repeats nothing and holds exactly the values of its
      input. */
  lemma DedupSpec<T>(xs: seq<T>)
    ensures Distinct(Dedup(xs))
    ensures forall x :: x in Dedup(xs) <==> x in xs
  {
    AddAllSpec([], xs);
  }

  /** Adding values that are all new appends them unchanged. */
  lemma {:induction false} AddAllFresh<T>(acc: seq<T>, xs: seq<T>)
    requires Distinct(xs)
    requires forall x :: x in xs ==> x !in acc
    ensures AddAll(acc, xs) == acc + xs
    decreases |xs|
  {
    if xs != [] {
      assert xs[0] !in acc;
      forall x | x in xs[1..] ensures x !in acc + [xs[0]] {
        var k :| 0 <= k < |xs[1..]| && xs[1..][k] == x;
        assert xs[k + 1] == x;
      }
      AddAllFresh(acc + [xs[0]], xs[1..]);
      assert (acc + [xs[0]]) + xs[1..] == acc + xs;
    }
  }

  /** A sequence without repetitions is its own de-duplication. */
  lemma DedupOfDistinct<T>(xs: seq<T>)
    requires Distinct(xs)
    ensures Dedup(xs) == xs
  {
    AddAllFresh([], xs);
  }

  /** The de-duplication is never longer than its input. */
  lemma {:induction false} AddAllLength<T>(acc: seq<T>, xs: seq<T>)
    ensures |AddAll(acc, xs)| <= |acc| + |xs|
    decreases |xs|
  {
    if xs != [] {
      AddAllLength(AddNew(acc, xs[0]), xs[1..]);
    }
  }
}
