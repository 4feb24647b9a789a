/** Concrete runs in which the manager does not do what it promises. */
module JobExamples {
  import opened Jobs
  import opened JobTables
  import opened JobCounter
  import opened JobIndex
  import opened JobAgreement
  import opened JobSizes

  const K := JobKey("u", "p", Upload)
  const SMALL := File("p", 10, 1)
  const STARTED := Detail(Idle, true, 0, 0)
  const ENDED := Detail(Done, true, 10, 1)

  function NewPkgOf(fids: seq<string>): Event {
    NewPkgE("p", fids, map f | f in fids :: SMALL, map f | f in fids :: Seg(f, 10, Idle))
  }

  /** A task with the only segment of a file, and its end; the segment is called like the file. */
  function Start(f: string): Event {
    AddTaskE(K, f, 1)
  }

  function End(f: string): Event {
    NotifyE(K, f, f, Done, 0, [])
  }

  // ---------------------------------------------------------------- steps of the runs

  lemma Extend(es: seq<Event>, e: Event)
    ensures Run(es + [e]) == Step(Run(es), e)
    ensures PossibleRun(es + [e]) <==> PossibleRun(es) && Possible(Run(es), e)
    ensures PlainRun(es + [e]) <==> PlainRun(es) && Plain(Run(es), e)
  {
    assert (es + [e])[..|es + [e]| - 1] == es;
  }

  lemma Nothing()
    ensures Run([]) == Initial && PossibleRun([]) && PlainRun([])
  {
  }

  /** The package of small files and its upload are in the database; `ds` are the details. */
  ghost predicate Uploading(s: State, fids: seq<string>, ds: map<string, Detail>) {
    && (forall f :: f in s.db.files <==> f in fids) && (forall f :: f in fids ==> s.db.files[f] == SMALL)
    && (forall f :: f in fids ==> f in s.db.segs && s.db.segs[f].size == 10)
    && s.db.jobs.Keys == {K} && !s.db.jobs[K].softDel
    && s.db.details == map[K := ds] && (forall f :: f in ds <==> f in fids)
  }

  /** It is tracked, and cached with this counter. */
  ghost predicate Counting(s: State, counter: int) {
    s.tracks == {K} && s.cache == map[K := counter] && s.db.jobs.Keys == {K} && s.db.jobs[K].finishedTimes == 0
  }

  lemma AfterNewPkg(fids: seq<string>)
    requires fids != [] && forall i, j :: 0 <= i < j < |fids| ==> fids[i] != fids[j]
    ensures Possible(Initial, NewPkgOf(fids)) && Plain(Initial, NewPkgOf(fids))
    ensures var r := Step(Initial, NewPkgOf(fids));
      && r.db.pkgs == map["p" := fids]
      && (forall f :: f in r.db.files <==> f in fids) && (forall f :: f in fids ==> r.db.files[f] == SMALL)
      && (forall f :: f in fids ==> f in r.db.segs && r.db.segs[f].size == 10)
      && r.db.jobs == map[] && r.db.details == map[] && r.cache == map[] && r.tracks == {}
  {
    assert fids[0] in fids;
  }

  lemma AfterCreate(s: State, fids: seq<string>)
    requires s.db.pkgs == map["p" := fids]
    requires (forall f :: f in s.db.files <==> f in fids) && (forall f :: f in fids ==> s.db.files[f] == SMALL)
    requires forall f :: f in fids ==> f in s.db.segs && s.db.segs[f].size == 10
    requires s.db.jobs == map[] && s.db.details == map[] && s.cache == map[] && s.tracks == {}
    ensures Possible(s, CreateE(K)) && Plain(s, CreateE(K))
    ensures var r := Step(s, CreateE(K));
      && Uploading(r, fids, map f | f in fids :: ResetDetail)
      && r.tracks == {K} && r.cache == map[] && r.db.jobs[K].finishedTimes == 0
  {
    var r := Step(s, CreateE(K));
    var ds := map f | f in fids :: ResetDetail;
    assert r.db.details[K] == ds;
    assert r.db.details == map[K := ds];
  }

  lemma TaskStores(s: State, f: string)
    requires HasDetail(s.db, K, f)
    ensures var r := Step(s, Start(f));
      && r.tracks == s.tracks && r.cache == Load(s, K).cache
      && r.db.files == s.db.files && r.db.segs == s.db.segs
      && r.db.jobs.Keys == s.db.jobs.Keys
      && r.db.jobs[K].softDel == s.db.jobs[K].softDel && r.db.jobs[K].finishedTimes == s.db.jobs[K].finishedTimes
      && r.db.details == s.db.details[K := s.db.details[K][f := TaskedDetail(s.db.details[K][f], s.db.files[f], 1)]]
  {
    hide TaskedDetail;
  }

  /** A task with the whole file starts its detail from scratch. */
  lemma StartStores(s: State, fids: seq<string>, ds: map<string, Detail>, f: string)
    requires Uploading(s, fids, ds) && f in fids
    ensures Possible(s, Start(f)) && Plain(s, Start(f))
    ensures var r := Step(s, Start(f));
      && Uploading(r, fids, ds[f := STARTED]) && r.tracks == s.tracks && r.cache == Load(s, K).cache
      && r.db.jobs[K].finishedTimes == s.db.jobs[K].finishedTimes
  {
    hide Step, Load;
    TaskStores(s, f);
    assert TaskedDetail(ds[f], SMALL, 1) == STARTED;
    assert map[K := ds][K := ds[f := STARTED]] == map[K := ds[f := STARTED]];
  }

  /** The first task takes the job into the cache. */
  lemma AfterFirst(s: State, fids: seq<string>, ds: map<string, Detail>, f: string)
    requires Uploading(s, fids, ds) && s.tracks == {K} && s.cache == map[] && s.db.jobs[K].finishedTimes == 0
    requires f in fids && (forall g :: g in ds ==> ds[g] == ResetDetail)
    ensures Possible(s, Start(f)) && Plain(s, Start(f))
    ensures var r := Step(s, Start(f));
      Uploading(r, fids, ds[f := STARTED]) && Counting(r, CountUnfinished(ds))
  {
    hide Step, Possible, Plain;
    StartStores(s, fids, ds, f);
    assert !ds[f].state.Done?;
  }

  lemma AfterStart(s: State, fids: seq<string>, ds: map<string, Detail>, counter: int, f: string)
    requires Uploading(s, fids, ds) && Counting(s, counter) && f in fids
    ensures Possible(s, Start(f)) && Plain(s, Start(f))
    ensures var r := Step(s, Start(f)); Uploading(r, fids, ds[f := STARTED]) && Counting(r, counter)
  {
    hide Step, Possible, Plain;
    StartStores(s, fids, ds, f);
  }

  /** The report as it is stored, before the job is looked at. */
  lemma AfterReport(s: State, fids: seq<string>, ds: map<string, Detail>, counter: int, f: string)
    requires Uploading(s, fids, ds) && Counting(s, counter) && f in fids && ds[f] in {STARTED, ENDED}
    ensures Possible(s, End(f)) && Plain(s, End(f)) && HasDetail(s.db, K, f)
    ensures var r := Reporting(s, K, f, f, Done, 0);
      Uploading(r, fids, ds[f := ENDED]) && Counting(r, counter - 1)
  {
    assert TrackedUsers(s.tracks - {K}, "p", Upload) == {};
    assert Reported(ds[f], SMALL, Done, 10) == ENDED;
    hide Reported, TrackedUsers;
    assert map[K := ds][K := ds[f := ENDED]] == map[K := ds[f := ENDED]];
  }

  lemma AfterEnd(s: State, fids: seq<string>, ds: map<string, Detail>, counter: int, f: string)
    requires Uploading(s, fids, ds) && Counting(s, counter) && f in fids && ds[f] in {STARTED, ENDED} && f != ""
    requires counter > 1
    ensures Possible(s, End(f)) && Plain(s, End(f))
    ensures var r := Step(s, End(f)); Uploading(r, fids, ds[f := ENDED]) && Counting(r, counter - 1)
  {
    AfterReport(s, fids, ds, counter, f);
    hide Uploading, Reporting;
  }

  /** The counter has reached 0. */
  lemma ProcessLast(r: State, fids: seq<string>, ds: map<string, Detail>)
    requires Uploading(r, fids, ds) && Counting(r, 0)
    ensures var q := ProcessJob(r, K, []);
      && Uploading(q, fids, ds) && q.db.jobs[K].finishedTimes == 1
      && q.tracks == {} && q.cache == map[]
  {
    assert TrackedUsers(r.tracks, "p", Download) == {} && TrackedUsers(r.tracks - {K}, "p", Download) == {};
    assert r.tracks - {K} == {} && r.cache - {K} == map[];
  }

  /** The job is counted as finished and no longer tracked. */
  lemma AfterLast(s: State, fids: seq<string>, ds: map<string, Detail>, f: string)
    requires Uploading(s, fids, ds) && Counting(s, 1) && f in fids && ds[f] in {STARTED, ENDED} && f != ""
    ensures Possible(s, End(f)) && Plain(s, End(f))
    ensures var r := Step(s, End(f));
      && Uploading(r, fids, ds[f := ENDED]) && r.db.jobs[K].finishedTimes == 1
      && r.tracks == {} && r.cache == map[]
  {
    hide Uploading, Reporting, ProcessJob, Possible, Plain;
    AfterReport(s, fids, ds, 1, f);
    ProcessLast(Reporting(s, K, f, f, Done, 0), fids, ds[f := ENDED]);
  }

  // ---------------------------------------------------------------- the tracks drift

  /** A file is uploaded, and then its upload is started again. */
  const RESTARTED := [NewPkgOf(["f"]), CreateE(K), Start("f"), End("f"), Start("f")]

  lemma UntrackedDrifts(s: State, fids: seq<string>, ds: map<string, Detail>, g: string)
    requires Uploading(s, fids, ds) && g in fids && !ds[g].state.Done? && s.tracks == {}
    ensures !AllAgree(s)
    ensures K in s.db.jobs && K in s.db.details && g in s.db.details[K] && !s.db.details[K][g].state.Done?
  {
    assert s.db.details[K][g] == ds[g];
    assert UnfinishedJob(s.db, K) && !Agrees(s, K);
  }

  lemma DoneAgrees(s: State, fids: seq<string>, ds: map<string, Detail>)
    requires Uploading(s, fids, ds) && AllDone(ds) && s.tracks == {}
    ensures AllAgree(s)
  {
    forall x
      ensures Agrees(s, x)
    {
      assert !UnfinishedJob(s.db, x);
    }
  }

  lemma StartedAgain(s: State)
    requires Uploading(s, ["f"], map["f" := ENDED]) && s.tracks == {}
    ensures Possible(s, Start("f")) && Plain(s, Start("f")) && !AllAgree(Step(s, Start("f")))
  {
    hide Step, Possible, Plain, AllAgree, Load;
    StartStores(s, ["f"], map["f" := ENDED], "f");
    assert map["f" := ENDED]["f" := STARTED] == map["f" := STARTED];
    UntrackedDrifts(Step(s, Start("f")), ["f"], map["f" := STARTED], "f");
  }

  function Fresh(fids: seq<string>): map<string, Detail> {
    map f | f in fids :: ResetDetail
  }

  /** A package is uploaded, starting with file `f`. */
  lemma Begin(fids: seq<string>, f: string)
    requires f in fids && forall i, j :: 0 <= i < j < |fids| ==> fids[i] != fids[j]
    ensures var es := [] + [NewPkgOf(fids)] + [CreateE(K)] + [Start(f)];
      && PossibleRun(es) && PlainRun(es)
      && Uploading(Run(es), fids, Fresh(fids)[f := STARTED]) && Counting(Run(es), CountUnfinished(Fresh(fids)))
  {
    hide Run, PossibleRun, PlainRun, Possible, Plain, Step, Uploading, Counting, CountUnfinished;
    var es1 := [] + [NewPkgOf(fids)];
    var es2 := es1 + [CreateE(K)];
    Nothing();
    AfterNewPkg(fids);
    Extend([], NewPkgOf(fids));
    AfterCreate(Run(es1), fids);
    Extend(es1, CreateE(K));
    AfterFirst(Run(es2), fids, Fresh(fids), f);
    Extend(es2, Start(f));
  }

  /** After the fifth event the detail is open again, so a reload would track the upload; the
      running manager does not. Before it, the two agreed. */
  lemma IndexCanDrift()
    ensures PossibleRun(RESTARTED) && PlainRun(RESTARTED)
    ensures AllAgree(Run(RESTARTED[..4])) && !AllAgree(Run(RESTARTED))
  {
    hide Run, PossibleRun, PlainRun, Possible, Plain, Step, Uploading, Counting, AllAgree;
    var es3 := [] + [NewPkgOf(["f"])] + [CreateE(K)] + [Start("f")];
    var es4 := es3 + [End("f")];
    Begin(["f"], "f");
    assert Fresh(["f"])["f" := STARTED] == map["f" := STARTED];
    assert UnfinishedFids(Fresh(["f"])) == {"f"};
    AfterLast(Run(es3), ["f"], map["f" := STARTED], "f");
    Extend(es3, End("f"));
    assert map["f" := STARTED]["f" := ENDED] == map["f" := ENDED];
    DoneAgrees(Run(es4), ["f"], map["f" := ENDED]);
    StartedAgain(Run(es4));
    Extend(es4, Start("f"));
    assert RESTARTED == es4 + [Start("f")] && RESTARTED[..4] == es4;
  }

  // ---------------------------------------------------------------- a job finishes early

  /** Of a package with three files, the end of the first is reported twice; the second file ends, and
      the third has not been started. */
  const REPEATED := [NewPkgOf(["h", "f", "g"]), CreateE(K), Start("h"), End("h"), End("h"), Start("f"), End("f")]

  /** After the repeated end the counter is 1, while two files are open. */
  lemma RepeatedEnd(fids: seq<string>, es: seq<Event>)
    requires fids == ["h", "f", "g"]
    requires es == [] + [NewPkgOf(fids)] + [CreateE(K)] + [Start("h")] + [End("h")] + [End("h")]
    ensures PossibleRun(es) && PlainRun(es)
    ensures Uploading(Run(es), fids, Fresh(fids)["h" := ENDED]) && Counting(Run(es), 1)
  {
    hide Run, PossibleRun, PlainRun, Possible, Plain, Step, Counting, Uploading;
    var es3 := [] + [NewPkgOf(fids)] + [CreateE(K)] + [Start("h")];
    var d := Fresh(fids)["h" := STARTED];
    assert CountUnfinished(Fresh(fids)) == 3 by { assert UnfinishedFids(Fresh(fids)) == {"h", "f", "g"}; }
    hide CountUnfinished;
    Begin(fids, "h");
    AfterEnd(Run(es3), fids, d, 3, "h");
    Extend(es3, End("h"));
    AfterEnd(Run(es3 + [End("h")]), fids, d["h" := ENDED], 2, "h");
    Extend(es3 + [End("h")], End("h"));
    assert d["h" := ENDED]["h" := ENDED] == Fresh(fids)["h" := ENDED];
  }

  /** The job is counted as finished and no longer tracked, with a file still open. */
  lemma JobCanFinishEarly()
    ensures PossibleRun(REPEATED) && PlainRun(REPEATED)
    ensures var db := Run(REPEATED).db;
      && K in db.jobs && db.jobs[K].finishedTimes == 1
      && K in db.details && "g" in db.details[K] && !db.details[K]["g"].state.Done?
    ensures K !in Run(REPEATED).tracks && !AllAgree(Run(REPEATED))
  {
    hide Run, PossibleRun, PlainRun, Possible, Plain, Step, Counting, AllAgree, Uploading;
    var fids := ["h", "f", "g"];
    var es5 := [] + [NewPkgOf(fids)] + [CreateE(K)] + [Start("h")] + [End("h")] + [End("h")];
    var d := Fresh(fids)["h" := ENDED];
    RepeatedEnd(fids, es5);
    AfterStart(Run(es5), fids, d, 1, "f");
    Extend(es5, Start("f"));
    AfterLast(Run(es5 + [Start("f")]), fids, d["f" := STARTED], "f");
    Extend(es5 + [Start("f")], End("f"));
    UntrackedDrifts(Run(es5 + [Start("f")] + [End("f")]), fids, d["f" := STARTED]["f" := ENDED], "g");
    assert REPEATED == es5 + [Start("f")] + [End("f")];
  }

  // ---------------------------------------------------------------- nothing to transfer

  /** A package of one empty file is uploaded. */
  const EMPTY_FILE := [NewPkgE("p", ["f"], map["f" := File("p", 0, 0)], map[]), CreateE(K)]

  /** The upload is DONE from the start, so a reload would not track it; the running manager does. */
  lemma EmptyJobIsTracked()
    ensures PossibleRun(EMPTY_FILE) && PlainRun(EMPTY_FILE)
    ensures AllAgree(Run(EMPTY_FILE[..1])) && !AllAgree(Run(EMPTY_FILE))
    ensures K in Run(EMPTY_FILE).tracks && K !in Restart(Run(EMPTY_FILE)).tracks
  {
    hide Run, PossibleRun, PlainRun;
    var e := EMPTY_FILE[0];
    var es1 := [] + [e];
    Nothing();
    EmptyPkg(Initial, e);
    Extend([], e);
    EmptyJob(Run(es1));
    Extend(es1, CreateE(K));
    assert EMPTY_FILE == es1 + [CreateE(K)] && EMPTY_FILE[..1] == es1;
  }

  lemma EmptyPkg(s: State, e: Event)
    requires s == Initial && e == EMPTY_FILE[0]
    ensures Possible(s, e) && Plain(s, e) && AllAgree(Step(s, e))
    ensures var r := Step(s, e);
      && r.db.pkgs == map["p" := ["f"]] && r.db.files == map["f" := File("p", 0, 0)]
      && r.db.jobs == map[] && r.db.details == map[] && r.tracks == {}
  {
    assert "f" in ["f"];
    assert forall x :: Agrees(Step(s, e), x);
  }

  lemma EmptyJob(s: State)
    requires s.db.pkgs == map["p" := ["f"]] && s.db.files == map["f" := File("p", 0, 0)]
    requires s.db.jobs == map[] && s.db.details == map[] && s.tracks == {}
    ensures Possible(s, CreateE(K)) && Plain(s, CreateE(K))
    ensures var r := Step(s, CreateE(K)); !AllAgree(r) && K in r.tracks && K !in Restart(r).tracks
  {
    var r := Step(s, CreateE(K));
    assert AllDone(r.db.details[K]);
    assert AllDone(Synced(r.db).details[K]);
    forall uid: string
      ensures !UnfinishedJob(r.db, JobKey(uid, "p", Download)) && !UnfinishedJob(Synced(r.db), JobKey(uid, "p", Download))
    {
    }
    assert !Agrees(r, K);
  }

  // ---------------------------------------------------------------- the stored size overflows

  const HUGE := File("p", 0x8000_0000_0000_0000, 20)

  /** A package of two files of 2^63 bytes. */
  const OVERFLOWING := [NewPkgE("p", ["f", "g"], map["f" := HUGE, "g" := HUGE], map[]), CreateE(K)]

  /** Its stored size is 0, so nothing seems left of it, while all of its 2^64 bytes are open. */
  lemma SizeCanOverflow()
    ensures PossibleRun(OVERFLOWING) && PlainRun(OVERFLOWING)
    ensures var db := Run(OVERFLOWING).db;
      && K in db.jobs && K in db.details && "p" in db.pkgs && "p" in db.sizes
      && LeftSize(db, K) == 0 && OpenOf(db, K, db.pkgs["p"]) == U64
  {
    var e := OVERFLOWING[0];
    var es1 := [] + [e];
    Nothing();
    HugePkg(Initial, e);
    Extend([], e);
    HugeJob(Run(es1));
    Extend(es1, CreateE(K));
    assert OVERFLOWING == es1 + [CreateE(K)];
  }

  lemma HugePkg(s: State, e: Event)
    requires s == Initial && e == OVERFLOWING[0]
    ensures Possible(s, e) && Plain(s, e)
    ensures var db := Step(s, e).db;
      && db.pkgs == map["p" := ["f", "g"]] && db.files == map["f" := HUGE, "g" := HUGE]
      && db.jobs == map[] && db.details == map[] && db.sizes == map["p" := 0]
  {
    assert "f" in ["f", "g"];
    assert ["f", "g"][..1] == ["f"] && ["f"][..0] == [];
    assert SizeOf(e.files, ["f"]) == HUGE.size && SizeOf(e.files, ["f", "g"]) == U64;
  }

  lemma HugeJob(s: State)
    requires s.db.pkgs == map["p" := ["f", "g"]] && s.db.files == map["f" := HUGE, "g" := HUGE]
    requires s.db.jobs == map[] && s.db.details == map[] && s.db.sizes == map["p" := 0]
    ensures Possible(s, CreateE(K)) && Plain(s, CreateE(K))
    ensures var db := Step(s, CreateE(K)).db;
      && K in db.jobs && K in db.details && "p" in db.pkgs && "p" in db.sizes
      && LeftSize(db, K) == 0 && OpenOf(db, K, db.pkgs["p"]) == U64
  {
    var db := Step(s, CreateE(K)).db;
    assert db.details[K]["f"] == ResetDetail && db.details[K]["g"] == ResetDetail;
    TwoOpen(db);
  }

  lemma TwoOpen(db: Database)
    requires db.pkgs == map["p" := ["f", "g"]] && db.files == map["f" := HUGE, "g" := HUGE] && db.sizes == map["p" := 0]
    requires K in db.details && "f" in db.details[K] && "g" in db.details[K]
    requires db.details[K]["f"] == ResetDetail && db.details[K]["g"] == ResetDetail
    ensures LeftSize(db, K) == 0 && OpenOf(db, K, db.pkgs["p"]) == U64
  {
    assert ["f", "g"][..1] == ["f"] && ["f"][..0] == [];
    assert OpenOf(db, K, []) == 0 && TransferredOf(db, K, []) == 0;
    assert OpenOf(db, K, ["f"]) == HUGE.size && TransferredOf(db, K, ["f"]) == 0;
    assert OpenOf(db, K, ["f", "g"]) == U64 && TransferredOf(db, K, ["f", "g"]) == 0;
  }
}
