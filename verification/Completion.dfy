/** The progress of one file, from a reset detail to DONE, under any interleaving of reports
    in which each segment ends at most once. */
module Completion {
  import opened Jobs
  import opened Segmentation

  /** What happens to a detail while its file is transferred: a report that segment `idx` is
      transferring or interrupted, or that it ended; a task with a part of the file's
      segments arriving; a task going away. */
  datatype Progress =
    | Transferring
    | Interrupted
    | Ended(idx: nat)
    | Tasked(numSegs: nat)
    | Untasked(state: TransferState)

  function After(d: Detail, file: File, sizes: seq<nat>, p: Progress): Detail {
    match p
    case Transferring => Reported(d, file, Doing, 0)
    case Interrupted => Reported(d, file, Pause, 0)
    case Ended(i) => Reported(d, file, Done, if i < |sizes| then sizes[i] else 0)
    case Tasked(n) => TaskedDetail(d, file, n)
    case Untasked(t) => UntaskedDetail(d, t)
  }

  function AfterAll(d: Detail, file: File, sizes: seq<nat>, ps: seq<Progress>): Detail {
    if ps == [] then d
    else After(AfterAll(d, file, sizes, ps[..|ps| - 1]), file, sizes, ps[|ps| - 1])
  }

  function EndedSegs(ps: seq<Progress>): set<nat> {
    set i | 0 <= i < |ps| && ps[i].Ended? :: ps[i].idx
  }

  /** Each segment ends at most once, and no task carries the whole file again. */
  ghost predicate OncePerSeg(ps: seq<Progress>, numSegs: nat) {
    && (forall i :: 0 <= i < |ps| && ps[i].Ended? ==> ps[i].idx < numSegs)
    && (forall i, j :: 0 <= i < j < |ps| && ps[i].Ended? && ps[j].Ended? ==> ps[i].idx != ps[j].idx)
    && (forall i :: 0 <= i < |ps| && ps[i].Tasked? ==> ps[i].numSegs != numSegs)
  }

  /** The summed sizes of the segments in `s`. */
  function SumOf(sizes: seq<nat>, s: set<nat>): nat {
    if sizes == [] then 0
    else SumOf(sizes[..|sizes| - 1], s) + (if |sizes| - 1 in s then sizes[|sizes| - 1] else 0)
  }

  lemma {:induction false} SumOfAdd(sizes: seq<nat>, s: set<nat>, i: nat)
    requires i !in s
    ensures SumOf(sizes, s + {i}) == SumOf(sizes, s) + (if i < |sizes| then sizes[i] else 0)
  {
    if sizes != [] {
      SumOfAdd(sizes[..|sizes| - 1], s, i);
    }
  }

  lemma {:induction false} SumOfAtMost(sizes: seq<nat>, s: set<nat>)
    ensures SumOf(sizes, s) <= Sum(sizes)
    ensures (forall i :: 0 <= i < |sizes| ==> i in s) ==> SumOf(sizes, s) == Sum(sizes)
  {
    if sizes != [] {
      SumOfAtMost(sizes[..|sizes| - 1], s);
    }
  }

  lemma {:induction false} Below(s: set<nat>, n: nat)
    requires forall i :: i in s ==> i < n
    ensures |s| <= n
    ensures |s| == n ==> forall i :: 0 <= i < n ==> i in s
  {
    if n == 0 {
      assert s == {};
    } else {
      var s' := s - {n - 1};
      Below(s', n - 1);
      if n - 1 in s {
        assert s == s' + {n - 1};
      } else {
        assert s == s';
      }
    }
  }

  /** Where the detail is after the segments in `ended` have ended. */
  ghost predicate At(d: Detail, file: File, sizes: seq<nat>, ended: set<nat>) {
    && d.started
    && d.numFinishedSegs == |ended| <= file.numSegs
    && d.finishedSize == SumOf(sizes, ended) <= file.size
    && (d.state.Done? <==> |ended| == file.numSegs)
  }

  lemma EndedAt(d: Detail, file: File, sizes: seq<nat>, ended: set<nat>, i: nat)
    requires At(d, file, sizes, ended) && i !in ended && i < |sizes| == file.numSegs < MAX_INT64
    requires (forall j :: j in ended ==> j < |sizes|) && Sum(sizes) == file.size < Jobs.U64
    ensures At(After(d, file, sizes, Ended(i)), file, sizes, ended + {i})
    ensures d.finishedSize + sizes[i] <= file.size && d.numFinishedSegs + 1 <= file.numSegs
  {
    SumOfAdd(sizes, ended, i);
    SumOfAtMost(sizes, ended + {i});
    Below(ended + {i}, |sizes|);
  }

  lemma OtherAt(d: Detail, file: File, sizes: seq<nat>, ended: set<nat>, p: Progress)
    requires At(d, file, sizes, ended) && 0 < |sizes| == file.numSegs
    requires !p.Ended? && (p.Tasked? ==> p.numSegs != file.numSegs)
    ensures At(After(d, file, sizes, p), file, sizes, ended)
  {
  }

  lemma EndedSegsLast(ps: seq<Progress>)
    requires ps != []
    ensures var before, p := ps[..|ps| - 1], ps[|ps| - 1];
      EndedSegs(ps) == EndedSegs(before) + (if p.Ended? then {p.idx} else {})
  {
    assert forall i :: 0 <= i < |ps| - 1 ==> ps[..|ps| - 1][i] == ps[i];
  }

  lemma OnceBefore(ps: seq<Progress>, numSegs: nat)
    requires ps != [] && OncePerSeg(ps, numSegs)
    ensures var before, p := ps[..|ps| - 1], ps[|ps| - 1];
      && OncePerSeg(before, numSegs)
      && (p.Ended? ==> p.idx < numSegs && p.idx !in EndedSegs(before))
      && (p.Tasked? ==> p.numSegs != numSegs)
  {
    assert forall i :: 0 <= i < |ps| - 1 ==> ps[..|ps| - 1][i] == ps[i];
  }

  /** A started detail of a file cut into `sizes`, when the segments in EndedSegs(ps) have
      ended: that many segments are counted as finished, with the sum of their sizes, and the
      detail is DONE exactly if they are all; no limit was ever hit. */
  lemma {:induction false} ProgressAt(d: Detail, file: File, sizes: seq<nat>, ps: seq<Progress>)
    requires d == ResetDetail.(started := true) && 0 < |sizes| == file.numSegs < MAX_INT64
    requires Sum(sizes) == file.size < Jobs.U64 && OncePerSeg(ps, |sizes|)
    ensures At(AfterAll(d, file, sizes, ps), file, sizes, EndedSegs(ps))
    ensures forall i :: i in EndedSegs(ps) ==> i < |sizes|
    decreases |ps|
  {
    if ps == [] {
      SumOfAtMost(sizes, {});
      NoneEnded(sizes);
      assert EndedSegs(ps) == {};
    } else {
      var before, p := ps[..|ps| - 1], ps[|ps| - 1];
      OnceBefore(ps, |sizes|);
      ProgressAt(d, file, sizes, before);
      EndedSegsLast(ps);
      if p.Ended? {
        EndedAt(AfterAll(d, file, sizes, before), file, sizes, EndedSegs(before), p.idx);
      } else {
        OtherAt(AfterAll(d, file, sizes, before), file, sizes, EndedSegs(before), p);
      }
    }
  }

  lemma {:induction false} NoneEnded(sizes: seq<nat>)
    ensures SumOf(sizes, {}) == 0
  {
    if sizes != [] { NoneEnded(sizes[..|sizes| - 1]); }
  }

  /** A file of a validly configured package: after any interleaving of reports, the detail
      counts exactly the ended segments and their bytes, it is DONE exactly when all of them
      have ended, and then it has exactly the size of the file. */
  lemma FileCompletes(file: File, minSize: nat, maxNum: nat, ps: seq<Progress>)
    requires 0 < file.size < Jobs.U64 && minSize > 0 && maxNum > 0 && minSize * maxNum < Segmentation.U64
    requires PerSize(file.size, minSize, maxNum) > 0
    requires |Sizes(file.size, PerSize(file.size, minSize, maxNum))| == file.numSegs < MAX_INT64
    requires OncePerSeg(ps, file.numSegs)
    ensures var sizes := Sizes(file.size, PerSize(file.size, minSize, maxNum));
      var d := AfterAll(ResetDetail.(started := true), file, sizes, ps);
      && d.numFinishedSegs == |EndedSegs(ps)|
      && d.finishedSize == SumOf(sizes, EndedSegs(ps))
      && (d.state.Done? <==> |EndedSegs(ps)| == file.numSegs)
      && (d.state.Done? ==> d.finishedSize == file.size)
  {
    var per := PerSize(file.size, minSize, maxNum);
    var sizes := Sizes(file.size, per);
    SizesSum(file.size, per);
    SizesShape(file.size, per);
    ProgressAt(ResetDetail.(started := true), file, sizes, ps);
    Below(EndedSegs(ps), |sizes|);
    SumOfAtMost(sizes, EndedSegs(ps));
  }

  lemma ProcessKeepsDetails(s: State, k: JobKey, order: seq<string>)
    ensures ProcessJob(s, k, order).db.details == s.db.details
  {
  }

  /** The job manager records reports in just this way. */
  lemma ManagerRecords(s: State, k: JobKey, fid: string, sid: string, t: TransferState, reported: nat, order: seq<string>,
                       sizes: seq<nat>, p: Progress)
    requires sid != "" && HasDetail(s.db, k, fid)
    requires match p
      case Ended(i) => t == Done && i < |sizes| && sid in s.db.segs && s.db.segs[sid].size == sizes[i]
      case Transferring => t == Doing
      case Interrupted => t == Pause
      case _ => false
    ensures Notify(s, k, fid, sid, t, reported, order).db.details
         == SaveDetail(s.db, k, fid, After(s.db.details[k][fid], s.db.files[fid], sizes, p)).details
  {
    ProcessKeepsDetails(Reporting(s, k, fid, sid, t, reported), k, order);
    var d := s.db.details[k][fid];
    assert Reported(d, s.db.files[fid], t, SegBytes(s.db, sid, reported)) == After(d, s.db.files[fid], sizes, p);
  }
}
