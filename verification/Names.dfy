/** The ids of packages, files, segments and jobs, and the file descriptor sent to nodes. */
module Names {
  import opened Segmentation

  // ---------------------------------------------------------------- decimal numbers

  function DigitChar(d: nat): char
    requires d < 10
  {
    (d as char + '0')
  }

  function Digits(n: nat): string {
    if n < 10 then [DigitChar(n)] else Digits(n / 10) + [DigitChar(n % 10)]
  }

  function Zeros(n: nat): string {
    seq(n, _ => '0')
  }

  /** `%0wd`: at least `w` digits. */
  function Padded(n: nat, w: nat): string {
    var s := Digits(n);
    if |s| < w then Zeros(w - |s|) + s else s
  }

  /** The number a string of digits denotes. */
  function Number(s: string): int {
    if s == [] then 0 else 10 * Number(s[..|s| - 1]) + (s[|s| - 1] as int - '0' as int)
  }

  lemma {:induction false} NumberOfDigits(n: nat)
    ensures Number(Digits(n)) == n
    decreases n
  {
    if n >= 10 {
      NumberOfDigits(n / 10);
      var s := Digits(n);
      assert s[..|s| - 1] == Digits(n / 10);
    } else {
      assert Digits(n)[..0] == [];
    }
  }

  lemma {:induction false} NumberOfZeros(k: nat, s: string)
    ensures Number(Zeros(k) + s) == Number(s)
    decreases |s|, k
  {
    if s != [] {
      NumberOfZeros(k, s[..|s| - 1]);
      assert (Zeros(k) + s)[..k + |s| - 1] == Zeros(k) + s[..|s| - 1];
    } else if k > 0 {
      NumberOfZeros(k - 1, s);
      assert (Zeros(k) + s)[..k - 1] == Zeros(k - 1) + s;
    }
  }

  lemma NumberOfPadded(n: nat, w: nat)
    ensures Number(Padded(n, w)) == n
  {
    NumberOfDigits(n);
    var s := Digits(n);
    if |s| < w { NumberOfZeros(w - |s|, s); }
  }

  lemma {:induction false} LastDigit(n: nat, w: nat)
    ensures Padded(n, w) != [] && Padded(n, w)[|Padded(n, w)| - 1] == DigitChar(n % 10)
  {
  }

  // ---------------------------------------------------------------- files and segments

  const START_NO: nat := 1

  datatype FidResult = Fid(fid: string) | TooManyFiles

  /** The id of the package's file number `index`. */
  function GenerateFid(pid: string, index: nat): FidResult {
    if index + START_NO > 99 then TooManyFiles else Fid(pid + Padded(index + START_NO, 2))
  }

  function PidFromFid(fid: string): string {
    if |fid| == 24 then fid[..22] else ""
  }

  function Sid(fid: string, idx: nat): string {
    fid + Padded(idx + START_NO, 8)
  }

  lemma TwoDigits(n: nat)
    requires n <= 99
    ensures |Padded(n, 2)| == 2
  {
    if n >= 10 { assert |Digits(n / 10)| == 1; }
  }

  lemma SuffixDistinct(p: string, s: string, p': string, s': string)
    requires p + s == p' + s' && |s| == |s'|
    ensures p == p' && s == s'
  {
    assert p == (p + s)[..|p|] == p';
    assert s == (p + s)[|p|..] == s';
  }

  lemma {:induction false} DigitsLength(n: nat, w: nat)
    requires w > 0
    ensures |Padded(n, w)| >= w
  {
  }

  /** A package has at most 99 files; the id of the one numbered `index` is that of the package with the
      two digits of `index` + 1. */
  lemma FidExactly(pid: string, index: nat)
    ensures GenerateFid(pid, index).Fid? <==> index < 99
    ensures index < 99 ==>
      var fid := GenerateFid(pid, index).fid;
      |fid| == |pid| + 2 && fid[..|pid|] == pid && Number(fid[|pid|..]) == index + 1
  {
    if index < 99 {
      TwoDigits(index + START_NO);
      NumberOfPadded(index + START_NO, 2);
      var fid := GenerateFid(pid, index).fid;
      assert fid[|pid|..] == Padded(index + START_NO, 2);
    }
  }

  /** The id of the segment numbered `idx` is that of the file with the digits of `idx` + 1, eight at
      least. */
  lemma SidExactly(fid: string, idx: nat)
    ensures var sid := Sid(fid, idx);
      |sid| >= |fid| + 8 && sid[..|fid|] == fid && Number(sid[|fid|..]) == idx + 1
  {
    NumberOfPadded(idx + START_NO, 8);
    DigitsLength(idx + START_NO, 8);
    assert Sid(fid, idx)[|fid|..] == Padded(idx + START_NO, 8);
  }

  /** The package id is read back from each file id exactly if it has 22 characters. */
  lemma PidRecoveredExactly(pid: string, index: nat)
    requires GenerateFid(pid, index).Fid? && pid != ""
    ensures PidFromFid(GenerateFid(pid, index).fid) == pid <==> |pid| == 22
  {
    TwoDigits(index + START_NO);
  }

  /** From an id that cannot be a file's of such a package nothing is read. */
  lemma PidReadExactly(fid: string)
    ensures PidFromFid(fid) != "" <==> |fid| == 24
    ensures |fid| == 24 ==> PidFromFid(fid) + fid[22..] == fid && |PidFromFid(fid)| == 22
  {
    if |fid| == 24 { assert fid[..22] + fid[22..] == fid; }
  }

  /** A file id determines its package and its number in it. */
  lemma FidsDistinct(pid: string, index: nat, pid': string, index': nat)
    requires GenerateFid(pid, index).Fid? && GenerateFid(pid, index) == GenerateFid(pid', index')
    ensures pid == pid' && index == index'
  {
    hide Padded, Number;
    TwoDigits(index + START_NO);
    TwoDigits(index' + START_NO);
    assert pid + Padded(index + START_NO, 2) == pid' + Padded(index' + START_NO, 2);
    hide GenerateFid, Padded, Number;
    SuffixDistinct(pid, Padded(index + START_NO, 2), pid', Padded(index' + START_NO, 2));
    NumberOfPadded(index + START_NO, 2);
    NumberOfPadded(index' + START_NO, 2);
  }

  /** Segment ids of files with ids of one length determine file and number, however many
      segments there are. */
  lemma SidsDistinct(fid: string, idx: nat, fid': string, idx': nat)
    requires |fid| == |fid'| && Sid(fid, idx) == Sid(fid', idx')
    ensures fid == fid' && idx == idx'
  {
    var p, p' := Padded(idx + START_NO, 8), Padded(idx' + START_NO, 8);
    assert |fid + p| == |fid' + p'|;
    hide Padded, Number, Sid;
    SuffixDistinct(fid, p, fid', p');
    NumberOfPadded(idx + START_NO, 8);
    NumberOfPadded(idx' + START_NO, 8);
  }

  // ---------------------------------------------------------------- the segment table

  datatype NamedSeg = NamedSeg(sid: string, size: nat)

  /** The segments of a file in generation order. */
  function Segs(fid: string, sizes: seq<nat>): (segs: seq<NamedSeg>)
    ensures |segs| == |sizes|
    ensures forall i :: 0 <= i < |segs| ==> segs[i] == NamedSeg(Sid(fid, i), sizes[i])
  {
    seq(|sizes|, i requires 0 <= i < |sizes| => NamedSeg(Sid(fid, i), sizes[i]))
  }

  datatype Descriptor = Descriptor(fileSize: nat, segCnt: nat, segPerSize: nat, segStartNo: int)

  /** What a node is told about a file's segments. */
  function Describe(fileSize: nat, segs: seq<NamedSeg>): Descriptor
    requires segs != [] && segs[0].sid != ""
  {
    var sid := segs[0].sid;
    Descriptor(fileSize, |segs|, segs[0].size, sid[|sid| - 1] as int - '0' as int)
  }

  /** What a node can make of it. */
  function Rebuild(fid: string, d: Descriptor): seq<NamedSeg>
    requires d.segStartNo >= 0 && d.segCnt > 0 && (d.segCnt - 1) * d.segPerSize <= d.fileSize
  {
    seq(d.segCnt, i requires 0 <= i < d.segCnt =>
      NamedSeg(fid + Padded(d.segStartNo + i, 8),
               if i < d.segCnt - 1 then d.segPerSize else d.fileSize - (d.segCnt - 1) * d.segPerSize))
  }

  lemma DescribedStart(fid: string, size: nat, sizes: seq<nat>)
    requires sizes != []
    ensures var segs := Segs(fid, sizes);
      && segs != [] && segs[0].sid != ""
      && Describe(size, segs) == Descriptor(size, |sizes|, sizes[0], START_NO)
  {
    LastDigit(START_NO, 8);
    var sid := Sid(fid, 0);
    assert Segs(fid, sizes)[0].sid == sid;
    assert sid[|sid| - 1] == Padded(START_NO, 8)[|Padded(START_NO, 8)| - 1] == DigitChar(1);
  }

  lemma RebuildSizes(fid: string, size: nat, sizes: seq<nat>)
    requires sizes != [] && (forall i :: 0 <= i < |sizes| - 1 ==> sizes[i] == sizes[0])
    requires (|sizes| - 1) * sizes[0] + sizes[|sizes| - 1] == size
    ensures Rebuild(fid, Descriptor(size, |sizes|, sizes[0], START_NO)) == Segs(fid, sizes)
  {
    hide Padded;
    var built, segs := Rebuild(fid, Descriptor(size, |sizes|, sizes[0], START_NO)), Segs(fid, sizes);
    forall i | 0 <= i < |sizes|
      ensures built[i] == segs[i]
    {
      assert segs[i] == NamedSeg(Sid(fid, i), sizes[i]);
      assert built[i].sid == fid + Padded(START_NO + i, 8) == Sid(fid, i);
    }
    hide Rebuild, Segs, Sid;
  }

  /** The descriptor of a file determines its whole segment table. */
  lemma RebuildDescribed(fid: string, size: nat, per: nat)
    requires size > 0 && per > 0
    ensures var segs := Segs(fid, Sizes(size, per));
      && segs != [] && segs[0].sid != ""
      && var d := Describe(size, segs);
         d.segStartNo >= 0 && d.segCnt > 0 && (d.segCnt - 1) * d.segPerSize <= d.fileSize && Rebuild(fid, d) == segs
  {
    var sizes := Sizes(size, per);
    SizesShape(size, per);
    SizesCount(size, per);
    DescribedStart(fid, size, sizes);
    assert (|sizes| - 1) * sizes[0] == (|sizes| - 1) * per;
    RebuildSizes(fid, size, sizes);
  }

  // ---------------------------------------------------------------- jobs

  function TypeTag(upload: bool): string {
    if upload then "U" else "D"
  }

  /** The program's job id. */
  function HashJob(uid: string, pid: string, upload: bool): string {
    uid + "_" + TypeTag(upload) + "_" + pid
  }

  /** Job ids of users with ids of one length determine user, package and type. */
  lemma HashJobDistinct(uid: string, pid: string, upload: bool, uid': string, pid': string, upload': bool)
    requires |uid| == |uid'| && HashJob(uid, pid, upload) == HashJob(uid', pid', upload')
    ensures uid == uid' && pid == pid' && upload == upload'
  {
    var h := HashJob(uid, pid, upload);
    assert uid == h[..|uid|] == uid';
    assert pid == h[|uid| + 3..] == pid';
    assert h[|uid| + 1] == if upload then 'U' else 'D';
    assert h[|uid| + 1] == if upload' then 'U' else 'D';
  }

  /** Does the longer user id go on as a job id of the shorter one would? */
  predicate GoesOn(uid: string, uid': string, upload: bool) {
    uid' == uid + "_" + TypeTag(upload) || uid + "_" + TypeTag(upload) + "_" <= uid'
  }

  lemma CollisionGoesOn(uid: string, pid: string, upload: bool, uid': string, pid': string, upload': bool)
    requires |uid| < |uid'| && HashJob(uid, pid, upload) == HashJob(uid', pid', upload')
    ensures GoesOn(uid, uid', upload)
  {
    var h, n := HashJob(uid, pid, upload), |uid|;
    var head := uid + "_" + TypeTag(upload) + "_";
    assert h == head + pid && h == uid' + "_" + TypeTag(upload') + "_" + pid';
    assert h[n] == '_' && h[n + 1] == TypeTag(upload)[0] != '_' && h[n + 2] == '_';
    assert h[|uid'|] == '_' && uid' == h[..|uid'|];
    assert |uid'| > n + 1;
    if |uid'| == n + 2 {
      assert uid' == h[..n + 2] == head[..n + 2] == uid + "_" + TypeTag(upload);
    } else {
      assert head == h[..n + 3] == uid'[..n + 3];
    }
  }

  /** What the shorter id's package must be called for a collision. */
  function Colliding(uid: string, upload: bool, uid': string, pid': string, upload': bool): (pid: string)
    requires GoesOn(uid, uid', upload)
    ensures HashJob(uid, pid, upload) == HashJob(uid', pid', upload')
  {
    var tail := TypeTag(upload') + "_" + pid';
    if uid' == uid + "_" + TypeTag(upload) then
      assert HashJob(uid, tail, upload) == HashJob(uid', pid', upload');
      tail
    else
      var head := uid + "_" + TypeTag(upload) + "_";
      assert uid' == head + uid'[|head|..];
      assert HashJob(uid, uid'[|head|..] + "_" + tail, upload) == HashJob(uid', pid', upload');
      uid'[|head|..] + "_" + tail
  }

  /** Jobs of users with ids of different lengths collide, for some packages and types, if and only
      if the longer id is the shorter one followed by "_U" or "_D", alone or with another "_". */
  lemma HashJobCollidesExactly(uid: string, uid': string)
    requires |uid| < |uid'|
    ensures (exists pid, upload, pid', upload' :: HashJob(uid, pid, upload) == HashJob(uid', pid', upload'))
       <==> GoesOn(uid, uid', true) || GoesOn(uid, uid', false)
  {
    if pid, upload, pid', upload' :| HashJob(uid, pid, upload) == HashJob(uid', pid', upload') {
      CollisionGoesOn(uid, pid, upload, uid', pid', upload');
    }
    if GoesOn(uid, uid', true) {
      assert HashJob(uid, Colliding(uid, true, uid', "", true), true) == HashJob(uid', "", true);
    } else if GoesOn(uid, uid', false) {
      assert HashJob(uid, Colliding(uid, false, uid', "", true), false) == HashJob(uid', "", true);
    }
  }

  /** The id of a package made by `owner` at second `time`. */
  function GeneratePid(owner: string, time: nat): string {
    owner + Digits(time)
  }

  /** The owner of the shorter id's package. */
  function CollidingOwner(uid: string, uid': string, owner': string): (owner: string)
    requires GoesOn(uid, uid', false)
    ensures forall time :: HashJob(uid, GeneratePid(owner, time), false) == HashJob(uid', GeneratePid(owner', time), false)
  {
    var owner := Colliding(uid, false, uid', owner', false);
    assert forall time :: HashJob(uid, GeneratePid(owner, time), false) == HashJob(uid, owner, false) + Digits(time);
    assert forall time :: HashJob(uid', GeneratePid(owner', time), false) == HashJob(uid', owner', false) + Digits(time);
    owner
  }

  /** The same for downloads of generated packages, whose ids start with their owner's. */
  lemma DownloadsCollideExactly(uid: string, uid': string)
    requires |uid| < |uid'|
    ensures (exists owner, time, owner', time' ::
              HashJob(uid, GeneratePid(owner, time), false) == HashJob(uid', GeneratePid(owner', time'), false))
       <==> GoesOn(uid, uid', false)
  {
    if owner, time, owner', time' :|
      HashJob(uid, GeneratePid(owner, time), false) == HashJob(uid', GeneratePid(owner', time'), false)
    {
      CollisionGoesOn(uid, GeneratePid(owner, time), false, uid', GeneratePid(owner', time'), false);
    }
    if GoesOn(uid, uid', false) {
      var owner := CollidingOwner(uid, uid', "o");
      assert HashJob(uid, GeneratePid(owner, 0), false) == HashJob(uid', GeneratePid("o", 0), false);
    }
  }

  /** It happens: of packages that "x_D_o" and "o" make in the same second, the download of the
      first by "a" and of the second by "a_D_x" have one job id. */
  lemma HashJobCanCollide(time: nat)
    ensures HashJob("a", GeneratePid("x_D_o", time), false) == HashJob("a_D_x", GeneratePid("o", time), false)
  {
    assert "a" + "_" + "D" + "_" + "x_D_o" == "a_D_x" + "_" + "D" + "_" + "o";
    assert HashJob("a", GeneratePid("x_D_o", time), false) == ("a" + "_" + "D" + "_" + "x_D_o") + Digits(time);
    assert HashJob("a_D_x", GeneratePid("o", time), false) == ("a_D_x" + "_" + "D" + "_" + "o") + Digits(time);
  }
}
