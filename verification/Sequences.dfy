/** Facts about sequences that the verifier finds more easily when they stand alone. */
module Sequences {

  lemma Assoc<T>(a: seq<T>, b: seq<T>, c: seq<T>)
    ensures a + b + c == a + (b + c)
  {
  }

  lemma SplitAt<T>(a: seq<T>, n: nat)
    requires n <= |a|
    ensures a == a[..n] + a[n..]
  {
  }

  lemma DropFirst<T>(a: seq<T>, b: seq<T>, n: nat)
    requires n <= |a|
    ensures (a + b)[n..] == a[n..] + b
  {
  }

  // Joining parts

  function Flatten<T>(parts: seq<seq<T>>): seq<T>
  {
    if parts == [] then [] else parts[0] + Flatten(parts[1..])
  }

  lemma {:induction false} FlattenAppend<T>(a: seq<seq<T>>, b: seq<seq<T>>)
    ensures Flatten(a + b) == Flatten(a) + Flatten(b)
    decreases |a|
  {
    if a == [] {
      assert a + b == b;
    } else {
      assert (a + b)[1..] == a[1..] + b;
      FlattenAppend(a[1..], b);
    }
  }

  /** If each part taken from the front of something that grows at its end leaves the balance right, so do all
      of them together. */
  lemma {:induction false} Telescope<T>(taken: seq<seq<T>>, held: seq<seq<T>>, added: seq<seq<T>>)
    requires |taken| == |added| && |held| == |taken| + 1
    requires forall i :: 0 <= i < |taken| ==> taken[i] + held[i + 1] == held[i] + added[i]
    ensures Flatten(taken) + held[|taken|] == held[0] + Flatten(added)
    decreases |taken|
  {
    if taken == [] {
      assert [] + held[0] == held[0] + [];
    } else {
      Telescope(taken[1..], held[1..], added[1..]);
      Assoc(taken[0], Flatten(taken[1..]), held[|taken|]);
      Assoc(taken[0], held[1], Flatten(added[1..]));
      Assoc(held[0], added[0], Flatten(added[1..]));
    }
  }
}
