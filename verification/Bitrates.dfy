/** The bitrate samples of a task: a ring of the latest ones and the statistics taken from it. */
module Bitrates {
  import opened Jobs
  import Segmentation

  const MAX_BITRATES := 1000
  const U32: nat := 0x1_0000_0000

  function Wrap32(x: nat): nat {
    x % U32
  }

  function Wrap64(x: nat): nat {
    x % U64
  }

  // ---------------------------------------------------------------- the ring

  datatype Ring = Ring(slots: seq<nat>, cnt: nat)

  predicate RingFits(r: Ring) {
    |r.slots| == MAX_BITRATES && r.cnt < U32
  }

  /** The counter of samples is 32 bits wide. */
  function Pushed(r: Ring, b: nat): (p: Ring)
    requires RingFits(r)
    ensures RingFits(p)
  {
    Ring(r.slots[r.cnt % MAX_BITRATES := b], Wrap32(r.cnt + 1))
  }

  /** What the statistics are taken of. */
  function Window(r: Ring): seq<nat>
    requires RingFits(r)
  {
    r.slots[..if r.cnt > MAX_BITRATES then MAX_BITRATES else r.cnt]
  }

  /** The ring after the samples `history`; `blank` is what the slots held at first. */
  function RingOf(blank: seq<nat>, history: seq<nat>): (r: Ring)
    requires |blank| == MAX_BITRATES
    ensures RingFits(r)
  {
    if history == [] then Ring(blank, 0)
    else Pushed(RingOf(blank, history[..|history| - 1]), history[|history| - 1])
  }

  function LastOf(history: seq<nat>, n: nat): seq<nat>
    requires n <= |history|
  {
    history[|history| - n..]
  }

  /** The slots of a ring that has taken the samples `h` since its counter was last zero: the
      newest samples stand before the cut, the older ones behind it. */
  ghost predicate Laid(slots: seq<nat>, h: seq<nat>)
    requires |slots| == MAX_BITRATES
  {
    var k := |h|;
    if k <= MAX_BITRATES then slots[..k] == h
    else slots == h[k - k % MAX_BITRATES..] + h[k - MAX_BITRATES..k - k % MAX_BITRATES]
  }

  lemma PushLaid(slots: seq<nat>, h: seq<nat>, b: nat)
    requires |slots| == MAX_BITRATES && Laid(slots, h)
    ensures Laid(slots[|h| % MAX_BITRATES := b], h + [b])
  {
    var k, m := |h|, |h| % MAX_BITRATES;
    var now, g := slots[m := b], h + [b];
    if k < MAX_BITRATES {
      assert now[..k + 1] == slots[..k] + [b];
    } else if m == MAX_BITRATES - 1 {
      assert (k + 1) % MAX_BITRATES == 0;
      assert now == g[k + 1 - MAX_BITRATES..];
      assert g[k + 1..] == [];
    } else {
      assert (k + 1) % MAX_BITRATES == m + 1;
      assert g[k - m..] == h[k - m..] + [b];
      assert g[k + 1 - MAX_BITRATES..k - m] == h[k + 1 - MAX_BITRATES..k - m];
      assert k == MAX_BITRATES ==> slots == slots[..MAX_BITRATES];
    }
  }

  lemma WrapNext(n: nat)
    ensures Wrap32(n) <= n && Wrap32(n) < U32
    ensures Wrap32(n + 1) == Wrap32(Wrap32(n) + 1) == if Wrap32(n) + 1 == U32 then 0 else Wrap32(n) + 1
  {
  }

  lemma {:induction false} RingLaid(blank: seq<nat>, history: seq<nat>)
    requires |blank| == MAX_BITRATES
    ensures var c := Wrap32(|history|);
      c <= |history| && RingOf(blank, history).cnt == c && Laid(RingOf(blank, history).slots, LastOf(history, c))
  {
    if history != [] {
      var before, b := history[..|history| - 1], history[|history| - 1];
      RingLaid(blank, before);
      hide Wrap32, Laid;
      var c := Wrap32(|before|);
      PushLaid(RingOf(blank, before).slots, LastOf(before, c), b);
      WrapNext(|before|);
      if c + 1 < U32 {
        assert LastOf(history, c + 1) == LastOf(before, c) + [b];
      } else {
        LaidEmpty(RingOf(blank, history).slots);
        assert LastOf(history, 0) == [];
      }
    }
  }

  lemma LaidEmpty(slots: seq<nat>)
    requires |slots| == MAX_BITRATES
    ensures Laid(slots, [])
  {
  }

  lemma WrapBelow(n: nat)
    ensures Wrap32(n) == n <==> n < U32
  {
  }

  lemma Swapped(a: seq<nat>, b: seq<nat>)
    ensures multiset(a + b) == multiset(b + a)
  {
  }

  lemma LaidWindow(slots: seq<nat>, h: seq<nat>)
    requires |slots| == MAX_BITRATES && Laid(slots, h)
    ensures var n := if |h| > MAX_BITRATES then MAX_BITRATES else |h|;
      multiset(slots[..n]) == multiset(LastOf(h, n))
  {
    var c := |h|;
    if c > MAX_BITRATES {
      var cut := c - c % MAX_BITRATES;
      var older, newer := h[c - MAX_BITRATES..cut], h[cut..];
      assert LastOf(h, MAX_BITRATES) == older + newer;
      assert slots[..MAX_BITRATES] == newer + older;
      Swapped(older, newer);
    }
  }

  /** The window holds, in some order, the latest samples: 1000 of them, or as many as the 32-bit
      counter shows if that is less. */
  lemma WindowIsLatest(blank: seq<nat>, history: seq<nat>)
    requires |blank| == MAX_BITRATES
    ensures var c := Wrap32(|history|);
      c <= |history| &&
      multiset(Window(RingOf(blank, history))) == multiset(LastOf(history, if c > MAX_BITRATES then MAX_BITRATES else c))
  {
    RingLaid(blank, history);
    hide RingOf, Laid, Wrap32;
    var c := Wrap32(|history|);
    LaidWindow(RingOf(blank, history).slots, LastOf(history, c));
    var n := if c > MAX_BITRATES then MAX_BITRATES else c;
    assert LastOf(LastOf(history, c), n) == LastOf(history, n);
  }

  /** It is the last 1000 samples, or all of them if there are fewer, if and only if the counter
      has not wrapped around to show less than 1000. */
  lemma WindowIsFullExactly(blank: seq<nat>, history: seq<nat>)
    requires |blank| == MAX_BITRATES
    ensures var n := if |history| > MAX_BITRATES then MAX_BITRATES else |history|;
      multiset(Window(RingOf(blank, history))) == multiset(LastOf(history, n))
      <==> |history| < U32 || Wrap32(|history|) >= MAX_BITRATES
  {
    WindowIsLatest(blank, history);
    WrapBelow(|history|);
    hide RingOf, Laid, Window, Wrap32;
    var c := Wrap32(|history|);
    var n := if |history| > MAX_BITRATES then MAX_BITRATES else |history|;
    var m := if c > MAX_BITRATES then MAX_BITRATES else c;
    assert |multiset(LastOf(history, n))| == n;
    assert |multiset(LastOf(history, m))| == m;
    assert m == n <==> |history| < U32 || c >= MAX_BITRATES;
  }

  // ---------------------------------------------------------------- statistics

  function Sum(s: seq<nat>): nat {
    if s == [] then 0 else Sum(s[..|s| - 1]) + s[|s| - 1]
  }

  /** The running minimum treats zero as "none yet". */
  function RunningMin(s: seq<nat>): nat {
    if s == [] then 0
    else
      var m, b := RunningMin(s[..|s| - 1]), s[|s| - 1];
      if m == 0 || b < m then b else m
  }

  ghost predicate IsMin(m: nat, s: seq<nat>) {
    m in s && forall b :: b in s ==> m <= b
  }

  ghost predicate IsMax(m: nat, s: seq<nat>) {
    m in s && forall b :: b in s ==> b <= m
  }

  lemma WrapAdd(x: nat, b: nat)
    ensures Wrap64(Wrap64(x) + b) == Wrap64(x + b)
  {
  }

  lemma OneMore(s: seq<nat>, i: nat)
    requires i < |s|
    ensures Sum(s[..i + 1]) == Sum(s[..i]) + s[i]
    ensures RunningMin(s[..i + 1]) ==
      if RunningMin(s[..i]) == 0 || s[i] < RunningMin(s[..i]) then s[i] else RunningMin(s[..i])
  {
    assert s[..i + 1][..i] == s[..i];
  }

  method BitrateStatistics(bitrates: seq<nat>) returns (min: nat, avg: nat, max: nat)
    ensures bitrates == [] ==> min == avg == max == 0
    ensures bitrates != [] ==>
      min == RunningMin(bitrates) && avg == Wrap64(Sum(bitrates)) / |bitrates| && IsMax(max, bitrates)
  {
    assert Wrap64(Sum([])) == RunningMin([]) == 0;
    hide Wrap64, Sum, RunningMin;
    min, avg, max := 0, 0, 0;
    if |bitrates| == 0 {
      return;
    }
    var sum, i := 0, 0;
    while i < |bitrates|
      invariant 0 <= i <= |bitrates|
      invariant sum == Wrap64(Sum(bitrates[..i]))
      invariant min == RunningMin(bitrates[..i])
      invariant forall j :: 0 <= j < i ==> bitrates[j] <= max
      invariant max > 0 ==> max in bitrates
    {
      var b := bitrates[i];
      OneMore(bitrates, i);
      WrapAdd(Sum(bitrates[..i]), b);
      sum := Wrap64(sum + b);
      if min == 0 || b < min {
        min := b;
      }
      if b > max {
        max := b;
      }
      i := i + 1;
    }
    assert bitrates[..i] == bitrates;
    assert bitrates[0] <= max;
    avg := sum / |bitrates|;
  }

  /** The running minimum is the minimum if and only if no sample is zero or the last one is. */
  lemma {:induction false} MinExactly(s: seq<nat>)
    requires s != []
    ensures IsMin(RunningMin(s), s) <==> 0 !in s || s[|s| - 1] == 0
    ensures RunningMin(s) in s && (RunningMin(s) == 0 <==> s[|s| - 1] == 0)
  {
    var front, b := s[..|s| - 1], s[|s| - 1];
    assert s == front + [b];
    if front != [] {
      MinExactly(front);
      assert 0 !in front || front[|front| - 1] == 0 ==> IsMin(RunningMin(front), front);
    }
  }

  /** A zero followed by another sample is forgotten. */
  lemma MinCanBeWrong()
    ensures RunningMin([0, 5]) == 5 && !IsMin(RunningMin([0, 5]), [0, 5])
  {
    assert [0, 5][..1] == [0] && [0][..0] == [];
    assert 0 in [0, 5];
  }

  lemma {:induction false} SumBetween(s: seq<nat>, lo: nat, hi: nat)
    requires forall i :: 0 <= i < |s| ==> lo <= s[i] <= hi
    ensures lo * |s| <= Sum(s) <= hi * |s|
  {
    if s != [] {
      var n := |s| - 1;
      SumBetween(s[..n], lo, hi);
      assert lo * |s| == lo * n + lo && hi * |s| == hi * n + hi;
    }
  }

  lemma DivMonotone(x: nat, y: nat, n: nat)
    requires n > 0 && x <= y
    ensures x / n <= y / n
  {
    Segmentation.DivMod(x, n);
    Segmentation.DivMod(y, n);
    var p, q := x / n, y / n;
    assert q < p ==> (q + 1) * n <= p * n;
  }

  lemma DivNext(y: nat, n: nat)
    requires n > 0
    ensures (y + n) / n == y / n + 1
  {
    Segmentation.DivMod(y, n);
    var q, r := y / n, y % n;
    assert (q + 1) * n == q * n + n;
    Segmentation.DivModUnique(y + n, n, q + 1, r);
  }

  lemma QuotientBetween(x: nat, n: nat, lo: nat, hi: nat)
    requires n > 0 && lo * n <= x <= hi * n
    ensures lo <= x / n <= hi
  {
    DivMonotone(lo * n, x, n);
    Segmentation.DivModUnique(lo * n, n, lo, 0);
    DivMonotone(x, hi * n, n);
    Segmentation.DivModUnique(hi * n, n, hi, 0);
  }

  lemma WrapLess(x: nat)
    ensures if x < U64 then Wrap64(x) == x else Wrap64(x) + U64 <= x
  {
  }

  /** The average is the rounded-down mean if and only if the 64-bit sum does not overflow. */
  lemma AverageExactly(s: seq<nat>)
    requires 0 < |s| <= MAX_BITRATES
    ensures Wrap64(Sum(s)) / |s| == Sum(s) / |s| <==> Sum(s) < U64
  {
    var x, n := Sum(s), |s|;
    WrapLess(x);
    hide Wrap64;
    if x >= U64 {
      DivNext(Wrap64(x), n);
      DivMonotone(Wrap64(x) + n, x, n);
    }
  }

  /** Of positive samples whose sum fits, the statistics are in order. */
  lemma StatisticsInOrder(s: seq<nat>, max: nat)
    requires s != [] && 0 !in s && Sum(s) < U64 && IsMax(max, s)
    ensures IsMin(RunningMin(s), s)
    ensures RunningMin(s) <= Wrap64(Sum(s)) / |s| <= max
  {
    MinExactly(s);
    WrapLess(Sum(s));
    hide Wrap64, RunningMin, Sum;
    assert forall i :: 0 <= i < |s| ==> s[i] in s;
    SumBetween(s, RunningMin(s), max);
    QuotientBetween(Sum(s), |s|, RunningMin(s), max);
  }
}
