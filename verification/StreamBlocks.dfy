/** Cutting a stream into blocks of equal size. */
module StreamBlocks {
  import opened Sequences

  /** The whole blocks of size `n` at the front of `s`. */
  function Blocks<S>(s: seq<S>, n: nat): seq<seq<S>>
    requires n > 0
    decreases |s|
  {
    if |s| < n then [] else [s[..n]] + Blocks(s[n..], n)
  }

  /** What is left of `s` after its whole blocks. */
  function Rest<S>(s: seq<S>, n: nat): seq<S>
    requires n > 0
    decreases |s|
  {
    if |s| < n then s else Rest(s[n..], n)
  }

  /** Nothing is lost, duplicated or reordered, and less than a block is left. */
  lemma {:induction false} BlocksConserve<S>(s: seq<S>, n: nat)
    requires n > 0
    ensures Flatten(Blocks(s, n)) + Rest(s, n) == s
    ensures |Rest(s, n)| < n
    ensures forall i :: 0 <= i < |Blocks(s, n)| ==> |Blocks(s, n)[i]| == n
    decreases |s|
  {
    if |s| >= n {
      BlocksConserve(s[n..], n);
      assert s == s[..n] + s[n..];
    }
  }

  /** That determines the blocks: any way of cutting `s` into whole blocks and less than a block gives the
      same blocks. */
  lemma {:induction false} BlocksUnique<S>(s: seq<S>, n: nat, blocks: seq<seq<S>>, rest: seq<S>)
    requires n > 0 && Flatten(blocks) + rest == s && |rest| < n
    requires forall i :: 0 <= i < |blocks| ==> |blocks[i]| == n
    ensures blocks == Blocks(s, n) && rest == Rest(s, n)
    decreases |blocks|
  {
    if blocks == [] {
      assert s == rest;
    } else {
      assert s == blocks[0] + (Flatten(blocks[1..]) + rest);
      assert s[n..] == Flatten(blocks[1..]) + rest && s[..n] == blocks[0];
      BlocksUnique(s[n..], n, blocks[1..], rest);
    }
  }

  lemma Regroup<S>(a: seq<S>, kept: seq<S>, b: seq<S>, rest: seq<S>, more: seq<S>)
    requires b + rest == kept + more
    ensures a + b + rest == a + kept + more
  {
    assert a + b + rest == a + (b + rest);
    assert a + (kept + more) == a + kept + more;
  }

  /** Cutting may go on from what was left. */
  lemma BlocksAppend<S>(s: seq<S>, more: seq<S>, n: nat)
    requires n > 0
    ensures Blocks(s + more, n) == Blocks(s, n) + Blocks(Rest(s, n) + more, n)
    ensures Rest(s + more, n) == Rest(Rest(s, n) + more, n)
  {
    var kept := Rest(s, n) + more;
    BlocksConserve(s, n);
    BlocksConserve(kept, n);
    FlattenAppend(Blocks(s, n), Blocks(kept, n));
    Regroup(Flatten(Blocks(s, n)), Rest(s, n), Flatten(Blocks(kept, n)), Rest(kept, n), more);
    BlocksUnique(s + more, n, Blocks(s, n) + Blocks(kept, n), Rest(kept, n));
  }

}
