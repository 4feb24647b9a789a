/** How a file is cut into segments. */
module Segmentation {
  const U64: nat := 0x1_0000_0000_0000_0000

  datatype FileType = RegularFile | OtherFile

  /** Sizes of consecutive segments of `per` bytes; the last one takes what is left. */
  function Sizes(total: nat, per: nat): seq<nat>
    requires per > 0
    decreases total
  {
    if total == 0 then []
    else if total < per then [total]
    else [per] + Sizes(total - per, per)
  }

  function Sum(sizes: seq<nat>): nat {
    if sizes == [] then 0 else Sum(sizes[..|sizes| - 1]) + sizes[|sizes| - 1]
  }

  /** The size from which on a file is cut into about `maxNum` segments, in 64-bit arithmetic. */
  function Threshold(minSize: nat, maxNum: nat): nat {
    minSize * maxNum % U64
  }

  /** The segment size chosen for a file. */
  function PerSize(size: nat, minSize: nat, maxNum: nat): nat
    requires maxNum > 0
  {
    if size > Threshold(minSize, maxNum) then
      if size % maxNum == 0 then size / maxNum else size / (maxNum - 1)
    else minSize
  }

  // ---------------------------------------------------------------- sums and shape

  lemma {:induction false} SumAppend(s: seq<nat>, t: seq<nat>)
    ensures Sum(s + t) == Sum(s) + Sum(t)
    decreases |t|
  {
    if t == [] {
      assert s + t == s;
    } else {
      assert (s + t)[..|s + t| - 1] == s + t[..|t| - 1];
      SumAppend(s, t[..|t| - 1]);
    }
  }

  /** No byte is lost or counted twice. */
  lemma {:induction false} SizesSum(total: nat, per: nat)
    requires per > 0
    ensures Sum(Sizes(total, per)) == total
    decreases total
  {
    if total >= per {
      SizesSum(total - per, per);
      SumAppend([per], Sizes(total - per, per));
      assert Sum([per]) == Sum([]) + per;
    } else if total > 0 {
      assert Sum([total]) == Sum([]) + total;
    }
  }

  /** All segments but the last have the common size, and the last has 1 to that many bytes. */
  lemma {:induction false} SizesShape(total: nat, per: nat)
    requires total > 0 && per > 0
    ensures var s := Sizes(total, per);
      s != [] && (forall i :: 0 <= i < |s| - 1 ==> s[i] == per) && 1 <= s[|s| - 1] <= per
    decreases total
  {
    if total > per {
      SizesShape(total - per, per);
    } else if total == per {
      assert Sizes(total, per) == [per] + Sizes(0, per) == [per];
    }
  }

  lemma Times(n: int, per: nat)
    ensures n * per == (n - 1) * per + per
  {
  }

  lemma {:induction false} SizesCount(total: nat, per: nat)
    requires total > 0 && per > 0
    ensures var s := Sizes(total, per); s != [] && (|s| - 1) * per + s[|s| - 1] == total
    decreases total
  {
    if total > per {
      SizesCount(total - per, per);
      Times(|Sizes(total - per, per)|, per);
    } else if total == per {
      assert Sizes(total, per) == [per] + Sizes(0, per) == [per];
    }
  }

  // ---------------------------------------------------------------- the configuration

  lemma DivMod(size: nat, n: nat)
    requires n > 0
    ensures size == (size / n) * n + size % n && 0 <= size % n < n
  {
  }

  lemma AtLeast(q: nat, n: nat, r: nat, k: nat)
    requires q * n + r > k * n && r < n
    ensures q >= k
  {
    assert q < k ==> (q + 1) * n <= k * n;
  }

  lemma OneLess(a: nat, b: nat)
    requires b > 0
    ensures a * b == a * (b - 1) + a
  {
  }

  lemma QuotientAtLeast(size: nat, n: nat, k: nat)
    requires n > 0 && size > k * n
    ensures size / n >= k
  {
    DivMod(size, n);
    AtLeast(size / n, n, size % n, k);
  }

  /** A configuration whose product does not overflow cuts every file into segments of at
      least the configured size, so cutting ends. */
  lemma PerSizeAtLeastMin(size: nat, minSize: nat, maxNum: nat)
    requires size > 0 && minSize > 0 && maxNum > 0 && minSize * maxNum < U64
    ensures PerSize(size, minSize, maxNum) >= minSize
  {
    if size > minSize * maxNum {
      if size % maxNum == 0 {
        QuotientAtLeast(size, maxNum, minSize);
      } else {
        assert maxNum > 1;
        OneLess(minSize, maxNum);
        QuotientAtLeast(size, maxNum - 1, minSize);
      }
    }
  }

  /** Without that bound on the product, the segment size is positive if and only if the file is
      not one of those that are large, not divisible, and have fewer bytes than segments. */
  lemma PerSizePositive(size: nat, minSize: nat, maxNum: nat)
    requires size > 0 && minSize > 0 && maxNum > 0
    ensures PerSize(size, minSize, maxNum) > 0
       <==> !(size > Threshold(minSize, maxNum) && size % maxNum != 0 && size < maxNum - 1)
  {
    if size > Threshold(minSize, maxNum) {
      if size % maxNum == 0 {
        DivMod(size, maxNum);
      } else {
        assert maxNum > 1;
        DivMod(size, maxNum - 1);
        if size >= maxNum - 1 { AtLeast(size / (maxNum - 1), maxNum - 1, size % (maxNum - 1) , 0); }
        if size < maxNum - 1 { assert size / (maxNum - 1) == 0; }
      }
    }
  }

  // ---------------------------------------------------------------- rounds of cutting

  /** What one round cuts off. */
  function Piece(total: nat, per: nat): nat {
    if total < per then total else per
  }

  /** The bytes left after `n` rounds with any segment size, 0 included. */
  function Left(total: nat, per: nat, n: nat): nat
    decreases n
  {
    if n == 0 || total == 0 then total else Left(total - Piece(total, per), per, n - 1)
  }

  /** The sizes that the first `n` rounds cut. */
  function Cuts(total: nat, per: nat, n: nat): seq<nat>
    decreases n
  {
    if n == 0 || total == 0 then [] else [Piece(total, per)] + Cuts(total - Piece(total, per), per, n - 1)
  }

  lemma {:induction false} NothingCut(total: nat, n: nat)
    ensures Left(total, 0, n) == total
    decreases n
  {
    if n > 0 { NothingCut(total, n - 1); }
  }

  /** With a positive size nothing is left after as many rounds as there are segments, and not
      before; the rounds cut these segments, one after the other. */
  lemma {:induction false} RoundsCutSizes(total: nat, per: nat, n: nat)
    requires per > 0
    ensures Left(total, per, n) == 0 <==> n >= |Sizes(total, per)|
    ensures Cuts(total, per, n) == Sizes(total, per)[..if n < |Sizes(total, per)| then n else |Sizes(total, per)|]
    decreases n
  {
    if n > 0 && total > 0 {
      RoundsCutSizes(total - Piece(total, per), per, n - 1);
    }
  }

  /** For any accepted configuration, cutting a file ends if and only if the file is not one of
      those that are large, not divisible, and have fewer bytes than segments. */
  lemma CuttingEndsExactly(size: nat, minSize: nat, maxNum: nat)
    requires size > 0 && minSize > 0 && maxNum > 0
    ensures (exists n :: Left(size, PerSize(size, minSize, maxNum), n) == 0)
       <==> !(size > Threshold(minSize, maxNum) && size % maxNum != 0 && size < maxNum - 1)
  {
    PerSizePositive(size, minSize, maxNum);
    var per := PerSize(size, minSize, maxNum);
    if per > 0 {
      RoundsCutSizes(size, per, |Sizes(size, per)|);
    } else {
      forall n
        ensures Left(size, per, n) == size
      {
        NothingCut(size, n);
      }
    }
  }

  /** Such a file exists: 2^62 bytes times 4 segments wraps to a threshold of 0, and the only byte
      of a file is then left after every round. */
  lemma {:induction false} CuttingCanRunForever(n: nat)
    ensures Left(1, PerSize(1, 0x4000_0000_0000_0000, 4), n) == 1
  {
    NothingCut(1, n);
  }

  /** The number of segments stays within the configured number exactly if the file is small,
      divisible, or leaves a remainder that fits into one more segment. */
  lemma CapExactly(size: nat, minSize: nat, maxNum: nat)
    requires 0 < size && minSize > 0 && maxNum > 0 && minSize * maxNum < U64
    ensures PerSize(size, minSize, maxNum) > 0
    ensures |Sizes(size, PerSize(size, minSize, maxNum))| <= maxNum
       <==> (size > minSize * maxNum && size % maxNum != 0 ==> size % (maxNum - 1) <= size / (maxNum - 1))
  {
    var per := PerSize(size, minSize, maxNum);
    SizesShape(size, per);
    SizesCount(size, per);
    CountAtMost(size, per, |Sizes(size, per)|, maxNum);
    FitsExactly(size, minSize, maxNum);
  }

  lemma FitsExactly(size: nat, minSize: nat, maxNum: nat)
    requires 0 < size && minSize > 0 && maxNum > 0 && minSize * maxNum < U64
    ensures size <= maxNum * PerSize(size, minSize, maxNum)
       <==> (size > minSize * maxNum && size % maxNum != 0 ==> size % (maxNum - 1) <= size / (maxNum - 1))
  {
    var per := PerSize(size, minSize, maxNum);
    if size > minSize * maxNum {
      if size % maxNum == 0 {
        DivMod(size, maxNum);
      } else {
        DivMod(size, maxNum - 1);
        assert maxNum * per == per * (maxNum - 1) + per;
      }
    }
  }

  lemma CountAtMost(size: nat, per: nat, n: nat, maxNum: nat)
    requires per > 0 && n > 0 && (n - 1) * per < size <= (n - 1) * per + per
    ensures n <= maxNum <==> size <= maxNum * per
  {
    if n <= maxNum {
      assert n * per <= maxNum * per;
    } else {
      assert maxNum * per <= (n - 1) * per;
    }
  }

  /** A configuration keeps all 64-bit file sizes within the configured number of segments if
      and only if the smallest segment size is at least that number minus 2 (or the
      threshold is the largest 64-bit number, which no file exceeds). */
  lemma ConfigCapsExactly(minSize: nat, maxNum: nat)
    requires minSize > 0 && maxNum > 0 && minSize * maxNum < U64
    ensures (forall size: nat :: 0 < size < U64 ==>
               PerSize(size, minSize, maxNum) > 0 && |Sizes(size, PerSize(size, minSize, maxNum))| <= maxNum)
       <==> (minSize + 2 >= maxNum || minSize * maxNum == U64 - 1)
  {
    if minSize + 2 >= maxNum || minSize * maxNum == U64 - 1 {
      forall size: nat | 0 < size < U64
        ensures PerSize(size, minSize, maxNum) > 0 && |Sizes(size, PerSize(size, minSize, maxNum))| <= maxNum
      {
        PerSizeAtLeastMin(size, minSize, maxNum);
        CapExactly(size, minSize, maxNum);
        if size > minSize * maxNum && size % maxNum != 0 {
          DivMod(size, maxNum - 1);
        }
      }
    } else {
      var size := minSize * maxNum + 1;
      TooMany(minSize, maxNum);
      PerSizeAtLeastMin(size, minSize, maxNum);
      CapExactly(size, minSize, maxNum);
    }
  }

  lemma TooMany(minSize: nat, maxNum: nat)
    requires minSize > 0 && minSize + 2 < maxNum
    ensures var size := minSize * maxNum + 1;
      size % maxNum != 0 && size / (maxNum - 1) == minSize && size % (maxNum - 1) == minSize + 1
  {
    var size := minSize * maxNum + 1;
    var m := maxNum - 1;
    assert size == minSize * m + (minSize + 1) by { assert minSize * maxNum == minSize * m + minSize; }
    DivModUnique(size, m, minSize, minSize + 1);
    DivModUnique(size, maxNum, minSize, 1);
  }

  lemma DivModUnique(size: nat, n: nat, q: nat, r: nat)
    requires n > 0 && size == q * n + r && r < n
    ensures size / n == q && size % n == r
  {
    DivMod(size, n);
    var q', r' := size / n, size % n;
    assert q' > q ==> (q + 1) * n <= q' * n;
    assert q' < q ==> (q' + 1) * n <= q * n;
  }
}
