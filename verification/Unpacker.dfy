/** The default unpacker: it names files and segments and cuts files into segments. */
module Unpacker {
  import opened Segmentation
  import opened Names

  class DefaultUnpacker {
    var minSegSize: nat
    var maxSegNum: nat
    var sizeThreshold: nat

    ghost predicate Valid()
      reads this
    {
      sizeThreshold == Threshold(minSegSize, maxSegNum)
    }

    /** Unlike Config, the constructor accepts any numbers. */
    constructor (minSegSize: nat, maxSegNum: nat)
      ensures Valid() && this.minSegSize == minSegSize && this.maxSegNum == maxSegNum
    {
      this.minSegSize := minSegSize;
      this.maxSegNum := maxSegNum;
      this.sizeThreshold := minSegSize * maxSegNum % U64;
    }

    /** Reconfigures unless a number is 0. */
    method Config(minSegSize: nat, maxSegNum: nat) returns (ok: bool)
      requires Valid()
      modifies this
      ensures Valid()
      ensures ok <==> minSegSize > 0 && maxSegNum > 0
      ensures this.minSegSize == (if ok then minSegSize else old(this.minSegSize))
      ensures this.maxSegNum == (if ok then maxSegNum else old(this.maxSegNum))
    {
      if minSegSize == 0 || maxSegNum == 0 {
        return false;
      }
      this.minSegSize := minSegSize;
      this.maxSegNum := maxSegNum;
      this.sizeThreshold := minSegSize * maxSegNum % U64;
      return true;
    }

    /** The segment size for a file. */
    method ChooseSize(size: nat) returns (perSize: nat)
      requires Valid() && maxSegNum > 0
      ensures perSize == PerSize(size, minSegSize, maxSegNum)
    {
      if size > sizeThreshold {
        if size % maxSegNum == 0 {
          perSize := size / maxSegNum;
        } else {
          perSize := size / (maxSegNum - 1);
        }
      } else {
        perSize := minSegSize;
      }
    }

    /** Cuts a regular non-empty file. The loop need not end, so `rounds` bounds its rounds: the
        program returns when no byte is left. Without a number of segments it divides by zero. */
    method GenerateSegs(fid: string, typ: FileType, size: nat, rounds: nat) returns (r: Generated)
      requires Valid()
      ensures typ.OtherFile? || size == 0 ==> r == Segments([], 0)
      ensures typ.RegularFile? && size > 0 ==>
        r == if maxSegNum == 0 then DividesByZero
             else var per := PerSize(size, minSegSize, maxSegNum);
               Segments(Segs(fid, Cuts(size, per, rounds)), Left(size, per, rounds))
    {
      if typ.OtherFile? || size == 0 {
        return Segments([], 0);
      }
      if maxSegNum == 0 {
        return DividesByZero;
      }
      var perSize := ChooseSize(size);
      var segs, left := Cut(fid, size, perSize, rounds);
      return Segments(segs, left);
    }

    static method Cut(fid: string, size: nat, perSize: nat, rounds: nat) returns (segs: seq<NamedSeg>, left: nat)
      ensures segs == Segs(fid, Cuts(size, perSize, rounds)) && left == Left(size, perSize, rounds)
    {
      hide Padded;
      segs := [];
      ghost var sizes := Cuts(size, perSize, rounds);
      left := size;
      var idx: nat := 0;
      while left > 0 && idx < rounds
        invariant idx <= rounds && idx <= |sizes|
        invariant Cuts(left, perSize, rounds - idx) == sizes[idx..]
        invariant Left(left, perSize, rounds - idx) == Left(size, perSize, rounds)
        invariant segs == Segs(fid, sizes)[..idx]
      {
        var segSize := perSize;
        if left < perSize {
          segSize := left;
        }
        NextCut(sizes, idx, left, perSize, rounds - idx);
        segs := segs + [NamedSeg(fid + Padded(idx + START_NO, 8), segSize)];
        left := left - segSize;
        idx := idx + 1;
      }
    }
  }

  /** Without a segment number the program divides by zero. */
  datatype Generated = DividesByZero | Segments(segs: seq<NamedSeg>, left: nat)

  lemma NextCut(sizes: seq<nat>, idx: nat, total: nat, per: nat, n: nat)
    requires total > 0 && n > 0 && idx <= |sizes| && Cuts(total, per, n) == sizes[idx..]
    ensures idx < |sizes| && sizes[idx] == Piece(total, per)
    ensures Cuts(total - Piece(total, per), per, n - 1) == sizes[idx + 1..]
  {
    assert sizes[idx + 1..] == sizes[idx..][1..];
  }

  /** Where cutting ends, what is generated in the end is the whole segment table of the file. */
  lemma GeneratedInTheEnd(fid: string, size: nat, minSize: nat, maxNum: nat, rounds: nat)
    requires size > 0 && minSize > 0 && maxNum > 0
    requires Left(size, PerSize(size, minSize, maxNum), rounds) == 0
    ensures var per := PerSize(size, minSize, maxNum);
      per > 0 && Segs(fid, Cuts(size, per, rounds)) == Segs(fid, Sizes(size, per))
  {
    var per := PerSize(size, minSize, maxNum);
    if per == 0 {
      NothingCut(size, rounds);
    } else {
      RoundsCutSizes(size, per, rounds);
      assert Cuts(size, per, rounds) == Sizes(size, per);
    }
  }
}
