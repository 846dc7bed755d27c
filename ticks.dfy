/**
 * The time-scale ruler: a tick every `step` seconds from 0 up to and including a limit,
 * each marked major or minor and optionally carrying a label with a colour class.
 */
module Ticks {
  import opened Wrappers

  /** The label colour classes: first half, first-half stoppage, second half, second-half stoppage, the half-time line. */
  datatype LabelClass = Gr | Et1 | Pu | Et2 | Bd

  datatype TickLabel = TickLabel(text: string, cls: LabelClass)

  datatype Tick = Tick(sec: int, major: bool, caption: Option<TickLabel>)

  /** How many times `for (s = 0; s <= limit; s += step)` runs: the first multiple of `step` past `limit`, divided by `step`. */
  function TickCount(limit: int, step: int): (n: nat)
    requires step > 0
    ensures n * step > limit
    ensures n == 0 || (n - 1) * step <= limit
  {
    if limit < 0 then 0 else limit / step + 1
  }

  /** Only one count has both properties of TickCount. */
  lemma TickCountUnique(limit: int, step: int, n: nat)
    requires step > 0
    requires n * step > limit && (n == 0 || (n - 1) * step <= limit)
    ensures n == TickCount(limit, step)
  {
    var k := TickCount(limit, step);
    if n < k {
      MulMonotone(n, k - 1, step);
    } else if n > k {
      MulMonotone(k, n - 1, step);
    }
  }

  lemma MulMonotone(a: int, b: int, c: int)
    requires a <= b && c > 0
    ensures a * c <= b * c
  {
    var d := b - a;
    assert d * c >= 0;
    assert b * c == a * c + d * c;
  }

  /** The ruler loop: one tick for s = 0, step, 2*step, ... while s <= limit, marked by `mark`. */
  method LayOut(limit: int, step: int, mark: int -> Tick) returns (ticks: seq<Tick>)
    requires step > 0
    ensures |ticks| == TickCount(limit, step)
    ensures forall i :: 0 <= i < |ticks| ==> ticks[i] == mark(i * step)
  {
    ticks := [];
    var s := 0;
    while s <= limit
      invariant s == |ticks| * step
      invariant |ticks| == 0 || (|ticks| - 1) * step <= limit
      invariant forall i :: 0 <= i < |ticks| ==> ticks[i] == mark(i * step)
      decreases limit - s
    {
      ticks := ticks + [mark(s)];
      s := s + step;
    }
    TickCountUnique(limit, step, |ticks|);
  }
}
