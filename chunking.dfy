/** The chunking rule shared by the payload generators and the upload drains:
    while something is left, take `min(left, cap)` of it. */
module Chunking {

  /** The chunk lengths produced for `total` bytes with at most `cap` per chunk.
      A total of zero or less produces no chunk. */
  function Chunks(total: int, cap: nat): seq<nat>
    requires cap > 0
    decreases total
  {
    if total <= 0 then []
    else
      var c := if total < cap then total else cap;
      [c] + Chunks(total - c, cap)
  }

  function Sum(s: seq<nat>): nat
  {
    if s == [] then 0 else s[0] + Sum(s[1..])
  }

  lemma {:induction false} SumAppend(a: seq<nat>, b: seq<nat>)
    ensures Sum(a + b) == Sum(a) + Sum(b)
  {
    if a == [] {
      assert a + b == b;
    } else {
      SumAppend(a[1..], b);
      assert (a + b)[1..] == a[1..] + b;
    }
  }

  /** The chunks add up to the requested total, or to zero for a total of zero or less. */
  lemma {:induction false} ChunksSum(total: int, cap: nat)
    requires cap > 0
    ensures Sum(Chunks(total, cap)) == if total > 0 then total else 0
    decreases total
  {
    if total > 0 {
      var c := if total < cap then total else cap;
      ChunksSum(total - c, cap);
    }
  }

  /** Every chunk holds between 1 and `cap` bytes, and every chunk but the
      last holds exactly `cap`. */
  lemma {:induction false} ChunksBounds(total: int, cap: nat)
    requires cap > 0
    ensures forall i :: 0 <= i < |Chunks(total, cap)| ==> 1 <= Chunks(total, cap)[i] <= cap
    ensures forall i :: 0 <= i < |Chunks(total, cap)| - 1 ==> Chunks(total, cap)[i] == cap
    decreases total
  {
    if total > 0 {
      var c := if total < cap then total else cap;
      ChunksBounds(total - c, cap);
      if total < cap {
        assert Chunks(total - c, cap) == [];
      }
    }
  }

  /** There are ceil(total / cap) chunks, that is the `n` with
      `(n - 1) * cap < total <= n * cap`, and none at all iff the total is zero or less. */
  lemma {:induction false} ChunksCount(total: int, cap: nat)
    requires cap > 0
    ensures Chunks(total, cap) == [] <==> total <= 0
    ensures total > 0 ==> (|Chunks(total, cap)| - 1) * cap < total <= |Chunks(total, cap)| * cap
    decreases total
  {
    if total > 0 {
      var c := if total < cap then total else cap;
      ChunksCount(total - c, cap);
      var n := |Chunks(total - c, cap)|;
      assert |Chunks(total, cap)| == n + 1;
      if total >= cap && total - cap > 0 {
        assert (n - 1) * cap == n * cap - cap;
        assert (n + 1) * cap == n * cap + cap;
      }
    }
  }
}
