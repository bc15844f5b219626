/** The shared primitives of the speed tester (lib/qospeedtest/__init__.py):
    the EWMA smoother, the semi-random payload generator over one fixed pool,
    and the SI prefix scaler used to print sizes and rates. */
module QoSpeedTest {
  import opened Common
  import opened Chunking

  // ---------------------------------------------------------------------------
  // EWMA smoother
  // ---------------------------------------------------------------------------

  /** The abstract value of an `EWMA` object: its weight, its scaled
      accumulator and whether no sample has been added yet. */
  datatype EwmaState = EwmaState(weight: real, state: real, initial: bool)
  {
    /** The smoothed value; Python divides by the weight here. */
    function Average(): real
      requires weight != 0.0
    {
      state / weight
    }

    /** The first sample seeds the accumulator with `v * weight`; every later
        one moves it by `v - state / weight`. The weight never changes. */
    function Add(v: real): (e: EwmaState)
      requires initial || weight != 0.0
      ensures e.weight == weight && !e.initial
      ensures initial ==> e.state == v * weight
    {
      if initial then EwmaState(weight, v * weight, false)
      else EwmaState(weight, state + v - state / weight, false)
    }
  }

  /** The state right after `EWMA(weight, state)`. */
  function NewEwma(weight: real, state: real): EwmaState
  {
    EwmaState(weight, state, true)
  }

  class Ewma {
    const weight: real
    var state: real
    var initial: bool

    function Value(): EwmaState
      reads this
    {
      EwmaState(weight, state, initial)
    }

    constructor (weight: real, state: real)
      ensures Value() == NewEwma(weight, state)
    {
      this.weight := weight;
      this.state := state;
      initial := true;
    }

    method Add(number: real)
      requires initial || weight != 0.0
      modifies this
      ensures Value() == old(Value()).Add(number)
    {
      if initial {
        state := number * weight;
        initial := false;
      } else {
        state := state + number - state / weight;
      }
    }

    function Average(): real
      reads this
      requires weight != 0.0
    {
      Value().Average()
    }
  }

  /** Whatever state the constructor was given, the first sample becomes the
      average, and the object is no longer in its initial mode. */
  lemma FirstAddIsAverage(weight: real, state: real, v: real)
    requires weight != 0.0
    ensures NewEwma(weight, state).Add(v).Average() == v
    ensures !NewEwma(weight, state).Add(v).initial
  {
    MulDiv(v, weight);
  }

  lemma MulDiv(a: real, b: real)
    requires b != 0.0
    ensures a * b / b == a
  {
  }

  /** A later sample updates the accumulator to `state + v - state / weight`,
      which moves the average a `1 / weight` fraction of the way towards `v`. */
  lemma LaterAddMovesTowards(e: EwmaState, v: real)
    requires !e.initial && e.weight != 0.0
    ensures e.Add(v).state == e.state + v - e.state / e.weight
    ensures e.Add(v).Average() - v == (e.Average() - v) * (1.0 - 1.0 / e.weight)
  {
    var w, s := e.weight, e.state;
    calc {
      e.Add(v).Average() - v;
      (s + v - s / w) / w - v;
      s / w + v / w - s / w / w - v;
      (s / w - v) - (s / w - v) / w;
      (e.Average() - v) * (1.0 - 1.0 / w);
    }
  }

  /** Adding the current average leaves the average where it is. */
  lemma AverageIsFixedPoint(e: EwmaState)
    requires !e.initial && e.weight != 0.0
    ensures e.Add(e.Average()).Average() == e.Average()
  {
    LaterAddMovesTowards(e, e.Average());
  }

  /** With a weight of at least 1, a later sample moves the average to a point
      between the old average and the sample. */
  lemma AddStaysBetween(e: EwmaState, v: real)
    requires !e.initial && e.weight >= 1.0
    ensures e.Average() <= v ==> e.Average() <= e.Add(v).Average() <= v
    ensures v <= e.Average() ==> v <= e.Add(v).Average() <= e.Average()
  {
    LaterAddMovesTowards(e, v);
    var f := 1.0 - 1.0 / e.weight;
    assert 0.0 <= f < 1.0;
    var d := e.Average() - v;
    assert e.Add(v).Average() == v + d * f;
    if d >= 0.0 {
      assert 0.0 <= d * f <= d;
    } else {
      assert d <= d * f <= 0.0;
    }
  }

  /** `x` is `p` times as far from `v` as `z` is (on the same side when `p > 0`). */
  predicate DistanceScaled(x: real, z: real, v: real, p: real)
  {
    x - v == (z - v) * p
  }

  /** `LaterAddMovesTowards`, stated with `DistanceScaled`. */
  lemma LaterAddScalesDistance(e: EwmaState, v: real)
    requires !e.initial && e.weight != 0.0
    ensures DistanceScaled(e.Add(v).Average(), e.Average(), v, 1.0 - 1.0 / e.weight)
  {
    LaterAddMovesTowards(e, v);
  }

  lemma ComposeDistance(x: real, y: real, z: real, v: real, f: real, q: real, p: real)
    requires DistanceScaled(x, y, v, f)
    requires DistanceScaled(y, z, v, q)
    requires p == f * q
    ensures DistanceScaled(x, z, v, p)
  {
    calc {
      x - v;
      (y - v) * f;
      ((z - v) * q) * f;
      (z - v) * (f * q);
    }
  }

  /** Feeding the same value `v` over and over: along a run of states where
      each is the one before with `v` added, the weight stays put and the
      distance from the average to `v` shrinks by the factor `1 - 1/weight`
      at each step, so after `k` steps it is `(1 - 1/weight)^k` times the
      distance at the start. */
  lemma {:induction false} RepeatedAddConverges(run: seq<EwmaState>, v: real)
    requires |run| > 0 && !run[0].initial && run[0].weight != 0.0
    requires forall i :: 0 <= i < |run| - 1 ==> run[i].weight != 0.0 && run[i + 1] == run[i].Add(v)
    ensures run[|run| - 1].weight == run[0].weight
    ensures DistanceScaled(run[|run| - 1].Average(), run[0].Average(), v, Pow(1.0 - 1.0 / run[0].weight, |run| - 1))
  {
    var n := |run| - 1;
    if n > 0 {
      RepeatedAddConverges(run[..n], v);
      var prev := run[n - 1];
      assert prev == run[..n][n - 1];
      if n > 1 {
        assert prev == run[n - 2].Add(v);
      }
      assert run[n] == prev.Add(v);
      LaterAddScalesDistance(prev, v);
      var f := 1.0 - 1.0 / run[0].weight;
      ComposeDistance(run[n].Average(), prev.Average(), run[0].Average(), v, f, Pow(f, n - 1), Pow(f, n));
    }
  }

  // ---------------------------------------------------------------------------
  // Semi-random payload generator
  // ---------------------------------------------------------------------------

  type byte = b: int | 0 <= b < 256

  /** Size of the process-wide random pool: the largest prime below 1024 * 1024. */
  const PoolSize: nat := 1048573

  /** The lengths of a list of byte chunks. */
  function Lengths(chunks: seq<seq<byte>>): (r: seq<nat>)
    ensures |r| == |chunks|
    ensures forall i :: 0 <= i < |chunks| ==> r[i] == |chunks[i]|
  {
    seq(|chunks|, i requires 0 <= i < |chunks| => |chunks[i]|)
  }

  /** `SemiRandomGenerator(byte_count)`, with the chunks it yields collected in
      order. `pool` is the random pool, generated once per process. */
  method SemiRandomGenerator(pool: seq<byte>, byteCount: int) returns (chunks: seq<seq<byte>>)
    requires |pool| == PoolSize
    ensures Lengths(chunks) == Chunks(byteCount, PoolSize)
    ensures forall i :: 0 <= i < |chunks| ==> |chunks[i]| <= |pool| && chunks[i] == pool[..|chunks[i]|]
  {
    chunks := [];
    var left := byteCount;
    while left > 0
      invariant Lengths(chunks) + Chunks(left, PoolSize) == Chunks(byteCount, PoolSize)
      invariant forall i :: 0 <= i < |chunks| ==> |chunks[i]| <= |pool| && chunks[i] == pool[..|chunks[i]|]
      decreases left
    {
      var chunk;
      if left < PoolSize {
        chunk := pool[..left];
      } else {
        chunk := pool;
      }
      assert Lengths(chunks + [chunk]) == Lengths(chunks) + [|chunk|];
      assert Chunks(left, PoolSize) == [|chunk|] + Chunks(left - PoolSize, PoolSize);
      chunks := chunks + [chunk];
      left := left - PoolSize;
    }
  }

  /** Every chunk but the last is the whole pool, the last one is a non-empty
      prefix of it, and together they hold exactly `max(byte_count, 0)` bytes
      in ceil(byte_count / 1048573) chunks. */
  lemma SemiRandomShape(byteCount: int)
    ensures Sum(Chunks(byteCount, PoolSize)) == if byteCount > 0 then byteCount else 0
    ensures Chunks(byteCount, PoolSize) == [] <==> byteCount <= 0
    ensures byteCount > 0 ==> (|Chunks(byteCount, PoolSize)| - 1) * PoolSize < byteCount <= |Chunks(byteCount, PoolSize)| * PoolSize
    ensures forall i :: 0 <= i < |Chunks(byteCount, PoolSize)| ==> 1 <= Chunks(byteCount, PoolSize)[i] <= PoolSize
    ensures forall i :: 0 <= i < |Chunks(byteCount, PoolSize)| - 1 ==> Chunks(byteCount, PoolSize)[i] == PoolSize
  {
    ChunksSum(byteCount, PoolSize);
    ChunksCount(byteCount, PoolSize);
    ChunksBounds(byteCount, PoolSize);
  }

  // ---------------------------------------------------------------------------
  // SI prefix scaler
  // ---------------------------------------------------------------------------

  /** The prefix table: decimal name and binary name for each power. */
  const Prefixes: seq<(string, string)> :=
    [("k", "Ki"), ("M", "Mi"), ("G", "Gi"), ("T", "Ti"),
     ("P", "Pi"), ("E", "Ei"), ("Z", "Zi"), ("Y", "Yi")]

  /** A scaled number with the prefix that goes with it (`SINumber`). */
  datatype Scaled = Scaled(value: real, prefix: string)

  /** The step between prefixes: 1024 for binary prefixes, 1000 otherwise. */
  function Divisor(binary: bool): (d: real)
    ensures d > 0.0
  {
    if binary then 1024.0 else 1000.0
  }

  /** A `limit` of 0 means "as many divisions as there are prefixes". */
  function EffectiveLimit(limit: int): int
  {
    if limit == 0 then |Prefixes| else limit
  }

  /** The prefix after `count` divisions, from the binary or the decimal column. */
  function PrefixAt(count: nat, binary: bool): string
    requires count <= |Prefixes|
  {
    if count == 0 then "" else if binary then Prefixes[count - 1].1 else Prefixes[count - 1].0
  }

  /** How many divisions the scaling loop performs on `x`, having already done
      `k`: it stops at the end of the table, once the value is below
      `threshold` (that is `divisor * rollover`), or once `limit` divisions
      were done. */
  function Divisions(x: real, divisor: real, threshold: real, limit: int, k: nat): (c: nat)
    requires divisor != 0.0 && k <= |Prefixes|
    ensures k <= c <= |Prefixes|
    decreases |Prefixes| - k
  {
    if k == |Prefixes| || x < threshold || k >= limit then k
    else Divisions(x / divisor, divisor, threshold, limit, k + 1)
  }

  lemma DivideOnceMore(n: real, d: real, k: nat)
    requires d != 0.0
    ensures n / Pow(d, k) / d == n / Pow(d, k + 1)
  {
    var p := Pow(d, k);
    assert Pow(d, k + 1) == d * p;
    assert n / p / d == n / (d * p);
  }

  /** Starting from `x == n / d^k`, every division was taken while the value
      was still at least `threshold`, and a stop before the end of the table
      and before the limit means the value had fallen below it. */
  lemma {:induction false} DivisionsReasons(n: real, x: real, d: real, threshold: real, limit: int, k: nat)
    requires d != 0.0 && k <= |Prefixes| && x == n / Pow(d, k)
    ensures forall j :: k <= j < Divisions(x, d, threshold, limit, k) ==> n / Pow(d, j) >= threshold
    ensures var c := Divisions(x, d, threshold, limit, k);
      c < |Prefixes| && c < limit ==> n / Pow(d, c) < threshold
    ensures Divisions(x, d, threshold, limit, k) <= Max(limit, k)
    decreases |Prefixes| - k
  {
    if !(k == |Prefixes| || x < threshold || k >= limit) {
      DivideOnceMore(n, d, k);
      DivisionsReasons(n, x / d, d, threshold, limit, k + 1);
    }
  }

  /** The facts `si_number` promises: at most `limit` divisions (8 for a limit
      of 0, none for a negative one), every division taken on a value still at
      least `divisor * rollover`, and a value below that left alone. */
  lemma DivisionsFromStart(n: real, d: real, rollover: real, limit: int)
    requires d != 0.0
    ensures var c := Divisions(n, d, d * rollover, EffectiveLimit(limit), 0);
      && c <= |Prefixes|
      && (limit > 0 ==> c <= limit)
      && (limit < 0 ==> c == 0)
      && (n < d * rollover ==> c == 0)
      && (forall j :: 0 <= j < c ==> n / Pow(d, j) >= d * rollover)
      && (c < |Prefixes| && c < EffectiveLimit(limit) ==> n / Pow(d, c) < d * rollover)
  {
    assert n == n / Pow(d, 0);
    DivisionsReasons(n, n, d, d * rollover, EffectiveLimit(limit), 0);
  }

  /** `x` is `n` divided `k` times by `d`. */
  predicate IsScaled(x: real, n: real, d: real, k: nat)
    requires d != 0.0
  {
    x == n / Pow(d, k)
  }

  /** One pass of the scaling loop keeps `x == n / d^i` and the number of
      divisions still to come. */
  lemma ScaleStep(n: real, x: real, d: real, threshold: real, limit: int, i: nat)
    requires d != 0.0 && i < |Prefixes| && IsScaled(x, n, d, i)
    requires !(x < threshold) && !(i >= limit)
    ensures IsScaled(x / d, n, d, i + 1)
    ensures Divisions(x, d, threshold, limit, i) == Divisions(x / d, d, threshold, limit, i + 1)
  {
    DivideOnceMore(n, d, i);
  }

  /** When the scaling loop stops, no further division is counted and `x` is
      the scaled value. */
  lemma ScaleDone(n: real, x: real, d: real, threshold: real, limit: int, count: nat)
    requires d != 0.0 && count <= |Prefixes| && IsScaled(x, n, d, count)
    requires count == |Prefixes| || x < threshold || count >= limit
    ensures Divisions(x, d, threshold, limit, count) == count
    ensures x == n / Pow(d, count)
  {
  }

  /** The scaling loop of `si_number`: while prefixes remain, the value is at
      least `threshold` and fewer than `limit` divisions were done, divide by
      `divisor` and take the next prefix from the binary or decimal column. */
  method ScaleDown(n: real, divisor: real, threshold: real, limit: int, binary: bool) returns (r: Scaled)
    requires divisor != 0.0
    ensures var c := Divisions(n, divisor, threshold, limit, 0);
      r.value == n / Pow(divisor, c) && r.prefix == PrefixAt(c, binary)
  {
    var count := 0;
    var p := "";
    var x := n;
    assert IsScaled(x, n, divisor, 0);
    for i := 0 to |Prefixes|
      invariant count == i
      invariant IsScaled(x, n, divisor, i)
      invariant Divisions(n, divisor, threshold, limit, 0) == Divisions(x, divisor, threshold, limit, i)
      invariant p == PrefixAt(i, binary)
    {
      if x < threshold {
        break;
      }
      if count >= limit {
        break;
      }
      ScaleStep(n, x, divisor, threshold, limit, i);
      count := count + 1;
      x := x / divisor;
      p := if binary then Prefixes[i].1 else Prefixes[i].0;
    }
    ScaleDone(n, x, divisor, threshold, limit, count);
    r := Scaled(x, p);
  }

  /** `si_number(n, binary, rollover, limit)`: divides by 1024 when `binary` and
      by 1000 otherwise, while the value is at least `divisor * rollover`, at
      most `limit` times (8 when `limit` is 0). */
  method SiNumber(n: real, binary: bool, rollover: real, limit: int) returns (r: Scaled)
    ensures var c := Divisions(n, Divisor(binary), Divisor(binary) * rollover, EffectiveLimit(limit), 0);
      r.value == n / Pow(Divisor(binary), c) && r.prefix == PrefixAt(c, binary)
  {
    r := ScaleDown(n, Divisor(binary), Divisor(binary) * rollover, EffectiveLimit(limit), binary);
  }
}
