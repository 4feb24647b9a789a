/** The two maps in which the job manager keeps its tracked jobs: by user and by package. */
module TrackIndex {
  import opened Jobs

  /** The packages of a user, or the users of a package. */
  datatype Track = Track(uploads: set<string>, downloads: set<string>) {
    function Of(typ: JobType): set<string> {
      if typ.Upload? then uploads else downloads
    }

    function Add(name: string, typ: JobType): Track {
      if typ.Upload? then this.(uploads := uploads + {name}) else this.(downloads := downloads + {name})
    }

    function Del(name: string, typ: JobType): Track {
      if typ.Upload? then this.(uploads := uploads - {name}) else this.(downloads := downloads - {name})
    }

    predicate Empty() {
      uploads == {} && downloads == {}
    }
  }

  const NewTrack := Track({}, {})

  type Index = map<string, Track>

  predicate Holds(index: Index, outer: string, inner: string, typ: JobType) {
    outer in index && inner in index[outer].Of(typ)
  }

  /** The jobs recorded under their packages. */
  ghost function TrackedBy(pkgs: Index): set<JobKey> {
    (set pid, uid | pid in pkgs && uid in pkgs[pid].uploads :: JobKey(uid, pid, Upload)) +
    (set pid, uid | pid in pkgs && uid in pkgs[pid].downloads :: JobKey(uid, pid, Download))
  }

  /** The jobs recorded under their users. */
  ghost function RecordedBy(users: Index): set<JobKey> {
    (set uid, pid | uid in users && pid in users[uid].uploads :: JobKey(uid, pid, Upload)) +
    (set uid, pid | uid in users && pid in users[uid].downloads :: JobKey(uid, pid, Download))
  }

  ghost predicate NoneEmpty(index: Index) {
    forall name :: name in index ==> !index[name].Empty()
  }

  /** User and package maps record the same jobs, and neither keeps an empty track. */
  ghost predicate Mirrored(users: Index, pkgs: Index) {
    TrackedBy(pkgs) == RecordedBy(users) && NoneEmpty(users) && NoneEmpty(pkgs)
  }

  function Added(index: Index, outer: string, inner: string, typ: JobType): Index {
    index[outer := (if outer in index then index[outer] else NewTrack).Add(inner, typ)]
  }

  function Deleted(index: Index, outer: string, inner: string, typ: JobType): Index {
    if outer !in index then index
    else
      var track := index[outer].Del(inner, typ);
      if track.Empty() then index - {outer} else index[outer := track]
  }

  lemma TrackedByHolds(pkgs: Index, k: JobKey)
    ensures k in TrackedBy(pkgs) <==> Holds(pkgs, k.pid, k.uid, k.typ)
  {
  }

  lemma RecordedByHolds(users: Index, k: JobKey)
    ensures k in RecordedBy(users) <==> Holds(users, k.uid, k.pid, k.typ)
  {
  }

  /** A user is recorded under a package exactly if the package is under the user. */
  lemma MirroredHolds(users: Index, pkgs: Index, uid: string, pid: string, typ: JobType)
    requires Mirrored(users, pkgs)
    ensures Holds(pkgs, pid, uid, typ) <==> Holds(users, uid, pid, typ)
  {
    TrackedByHolds(pkgs, JobKey(uid, pid, typ));
    RecordedByHolds(users, JobKey(uid, pid, typ));
  }

  lemma AddedHolds(index: Index, outer: string, inner: string, typ: JobType, o: string, i: string, t: JobType)
    ensures Holds(Added(index, outer, inner, typ), o, i, t) <==>
      Holds(index, o, i, t) || (o == outer && i == inner && t == typ)
  {
  }

  lemma DeletedHolds(index: Index, outer: string, inner: string, typ: JobType, o: string, i: string, t: JobType)
    ensures Holds(Deleted(index, outer, inner, typ), o, i, t) <==>
      Holds(index, o, i, t) && !(o == outer && i == inner && t == typ)
  {
    if outer in index && o == outer {
      var track := index[outer].Del(inner, typ);
      assert i in track.Of(t) <==> i in index[outer].Of(t) && !(i == inner && t == typ);
      assert i in track.Of(t) ==> !track.Empty();
    }
  }

  lemma AddedTracks(pkgs: Index, k: JobKey)
    ensures TrackedBy(Added(pkgs, k.pid, k.uid, k.typ)) == TrackedBy(pkgs) + {k}
  {
    var pkgs' := Added(pkgs, k.pid, k.uid, k.typ);
    forall x
      ensures x in TrackedBy(pkgs') <==> x in TrackedBy(pkgs) + {k}
    {
      TrackedByHolds(pkgs, x);
      TrackedByHolds(pkgs', x);
      AddedHolds(pkgs, k.pid, k.uid, k.typ, x.pid, x.uid, x.typ);
    }
  }

  lemma AddedRecords(users: Index, k: JobKey)
    ensures RecordedBy(Added(users, k.uid, k.pid, k.typ)) == RecordedBy(users) + {k}
  {
    var users' := Added(users, k.uid, k.pid, k.typ);
    forall x
      ensures x in RecordedBy(users') <==> x in RecordedBy(users) + {k}
    {
      RecordedByHolds(users, x);
      RecordedByHolds(users', x);
      AddedHolds(users, k.uid, k.pid, k.typ, x.uid, x.pid, x.typ);
    }
  }

  lemma DeletedTracks(pkgs: Index, k: JobKey)
    ensures TrackedBy(Deleted(pkgs, k.pid, k.uid, k.typ)) == TrackedBy(pkgs) - {k}
  {
    var pkgs' := Deleted(pkgs, k.pid, k.uid, k.typ);
    forall x
      ensures x in TrackedBy(pkgs') <==> x in TrackedBy(pkgs) - {k}
    {
      TrackedByHolds(pkgs, x);
      TrackedByHolds(pkgs', x);
      DeletedHolds(pkgs, k.pid, k.uid, k.typ, x.pid, x.uid, x.typ);
    }
  }

  lemma DeletedRecords(users: Index, k: JobKey)
    ensures RecordedBy(Deleted(users, k.uid, k.pid, k.typ)) == RecordedBy(users) - {k}
  {
    var users' := Deleted(users, k.uid, k.pid, k.typ);
    forall x
      ensures x in RecordedBy(users') <==> x in RecordedBy(users) - {k}
    {
      RecordedByHolds(users, x);
      RecordedByHolds(users', x);
      DeletedHolds(users, k.uid, k.pid, k.typ, x.uid, x.pid, x.typ);
    }
  }

  /** Adding a job to both maps keeps them mirrored, and adds just that job. */
  lemma AddedMirrored(users: Index, pkgs: Index, k: JobKey)
    requires Mirrored(users, pkgs)
    ensures var users', pkgs' := Added(users, k.uid, k.pid, k.typ), Added(pkgs, k.pid, k.uid, k.typ);
      Mirrored(users', pkgs') && TrackedBy(pkgs') == TrackedBy(pkgs) + {k}
  {
    AddedTracks(pkgs, k);
    AddedRecords(users, k);
  }

  /** Deleting a job from both maps keeps them mirrored and free of empty tracks, and deletes
      just that job. */
  lemma DeletedMirrored(users: Index, pkgs: Index, k: JobKey)
    requires Mirrored(users, pkgs)
    ensures var users', pkgs' := Deleted(users, k.uid, k.pid, k.typ), Deleted(pkgs, k.pid, k.uid, k.typ);
      Mirrored(users', pkgs') && TrackedBy(pkgs') == TrackedBy(pkgs) - {k}
  {
    DeletedTracks(pkgs, k);
    DeletedRecords(users, k);
  }

  // ---------------------------------------------------------------- counting

  ghost function OfType(tracked: set<JobKey>, typ: JobType): set<JobKey> {
    set k | k in tracked && k.typ == typ
  }

  /** The summed sizes of the tracks under the given names. */
  ghost function Summed(index: Index, names: set<string>, typ: JobType): nat
    requires names <= index.Keys
    decreases |names|
  {
    if names == {} then 0
    else
      var n :| n in names;
      |index[n].Of(typ)| + Summed(index, names - {n}, typ)
  }

  lemma RenamedCount(pid: string, typ: JobType, uids: set<string>)
    ensures |set uid | uid in uids :: JobKey(uid, pid, typ)| == |uids|
  {
    if uids != {} {
      var u :| u in uids;
      RenamedCount(pid, typ, uids - {u});
      assert (set uid | uid in uids :: JobKey(uid, pid, typ))
          == (set uid | uid in uids - {u} :: JobKey(uid, pid, typ)) + {JobKey(u, pid, typ)};
    }
  }

  lemma RenamedPids(uid: string, typ: JobType, pids: set<string>)
    ensures |set pid | pid in pids :: JobKey(uid, pid, typ)| == |pids|
  {
    if pids != {} {
      var p :| p in pids;
      RenamedPids(uid, typ, pids - {p});
      assert (set pid | pid in pids :: JobKey(uid, pid, typ))
          == (set pid | pid in pids - {p} :: JobKey(uid, pid, typ)) + {JobKey(uid, p, typ)};
    }
  }

  /** The tracked jobs of these packages, or of these users. */
  ghost function OfPkgs(pkgs: Index, names: set<string>, typ: JobType): set<JobKey> {
    set k | k in OfType(TrackedBy(pkgs), typ) && k.pid in names
  }

  ghost function OfUsers(pkgs: Index, names: set<string>, typ: JobType): set<JobKey> {
    set k | k in OfType(TrackedBy(pkgs), typ) && k.uid in names
  }

  lemma OnePkg(pkgs: Index, names: set<string>, typ: JobType, n: string)
    requires n in names && n in pkgs
    ensures var these := set uid | uid in pkgs[n].Of(typ) :: JobKey(uid, n, typ);
      OfPkgs(pkgs, names, typ) == OfPkgs(pkgs, names - {n}, typ) + these && OfPkgs(pkgs, names - {n}, typ) !! these
  {
    hide TrackedBy;
    var these := set uid | uid in pkgs[n].Of(typ) :: JobKey(uid, n, typ);
    forall k
      ensures k in OfPkgs(pkgs, names, typ) <==> k in OfPkgs(pkgs, names - {n}, typ) + these
    {
      TrackedByHolds(pkgs, k);
    }
  }

  lemma OneUser(users: Index, pkgs: Index, names: set<string>, typ: JobType, n: string)
    requires Mirrored(users, pkgs) && n in names && n in users
    ensures var these := set pid | pid in users[n].Of(typ) :: JobKey(n, pid, typ);
      OfUsers(pkgs, names, typ) == OfUsers(pkgs, names - {n}, typ) + these && OfUsers(pkgs, names - {n}, typ) !! these
  {
    hide TrackedBy, RecordedBy;
    var these := set pid | pid in users[n].Of(typ) :: JobKey(n, pid, typ);
    forall k
      ensures k in OfUsers(pkgs, names, typ) <==> k in OfUsers(pkgs, names - {n}, typ) + these
    {
      RecordedByHolds(users, k);
    }
  }

  /** Summing over packages counts the tracked jobs of those packages. */
  lemma {:induction false} SummedByPkg(pkgs: Index, names: set<string>, typ: JobType)
    requires names <= pkgs.Keys
    ensures Summed(pkgs, names, typ) == |OfPkgs(pkgs, names, typ)|
    decreases |names|
  {
    if names == {} {
      assert OfPkgs(pkgs, names, typ) == {};
    } else {
      var n :| n in names && Summed(pkgs, names, typ) == |pkgs[n].Of(typ)| + Summed(pkgs, names - {n}, typ);
      hide OfPkgs, Summed;
      SummedByPkg(pkgs, names - {n}, typ);
      RenamedCount(n, typ, pkgs[n].Of(typ));
      OnePkg(pkgs, names, typ, n);
    }
  }

  /** Summing over users counts the recorded jobs of those users. */
  lemma {:induction false} SummedByUser(users: Index, pkgs: Index, names: set<string>, typ: JobType)
    requires Mirrored(users, pkgs) && names <= users.Keys
    ensures Summed(users, names, typ) == |OfUsers(pkgs, names, typ)|
    decreases |names|
  {
    if names == {} {
      assert OfUsers(pkgs, names, typ) == {};
    } else {
      var n :| n in names && Summed(users, names, typ) == |users[n].Of(typ)| + Summed(users, names - {n}, typ);
      hide OfUsers, Summed;
      SummedByUser(users, pkgs, names - {n}, typ);
      RenamedPids(n, typ, users[n].Of(typ));
      OneUser(users, pkgs, names, typ, n);
    }
  }

  /** The number of tracked jobs of a type is the same by package and by user. */
  lemma CountsAgree(users: Index, pkgs: Index, typ: JobType)
    requires Mirrored(users, pkgs)
    ensures Summed(pkgs, pkgs.Keys, typ) == Summed(users, users.Keys, typ) == |OfType(TrackedBy(pkgs), typ)|
  {
    SummedByPkg(pkgs, pkgs.Keys, typ);
    SummedByUser(users, pkgs, users.Keys, typ);
    var tracked := OfType(TrackedBy(pkgs), typ);
    forall k | k in tracked
      ensures k.pid in pkgs && k.uid in users
    {
      TrackedByHolds(pkgs, k);
      RecordedByHolds(users, k);
    }
    assert tracked == OfPkgs(pkgs, pkgs.Keys, typ) == OfUsers(pkgs, users.Keys, typ);
  }
}
