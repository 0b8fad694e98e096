/** The copy of the Machine that the reconciler holds in memory, and the requests of
    pkg/controller/util.go that carry it to the API server and back. */
module Sessions {
  import opened Wrappers
  import opened Cloud
  import opened Machines
  import opened Store

  datatype Loaded = Loaded(key: Key, machine: Machine)

  /** Of a stored object: nothing was recorded before the finalizer was there. */
  ghost predicate StoredOk(k: Key, p: Machine) {
    && StatusOk(k.name, p) && Settled(p)
    && (!p.finalizer ==> p.ann == NO_ANNOTATIONS && p.status.conds == map[] && !p.deleted)
  }

  /** The copy in memory is never behind the stored object, except that it may not know of a deletion. */
  ghost predicate InStep(p: Machine, m: Machine) {
    && m.spec == p.spec && m.ann == p.ann && m.finalizer == p.finalizer
    && (m.deleted ==> p.deleted)
    && Progress(p.status.conds, m.status.conds)
    && (p.status.phase == Terminating ==> m.deleted)
    && (!m.finalizer ==> m.status.conds == map[])
  }

  ghost predicate SoundCommit(c: Commit) {
    StatusOk(c.key.name, c.machine) && Settled(c.machine) && c.machine.status.phase != Unset
  }

  /** Every status ever committed was sound, and the phases of one Machine came in order. */
  ghost predicate CommitsOk(commits: seq<Commit>, o: Objects) {
    && (forall i :: 0 <= i < |commits| ==> SoundCommit(commits[i]))
    && (forall i, j :: 0 <= i < j < |commits| && commits[i].key == commits[j].key ==>
          Leads(commits[i].machine.status, commits[j].machine.status))
    && (forall i :: 0 <= i < |commits| && commits[i].key in o ==>
          Leads(commits[i].machine.status, o[commits[i].key].status))
  }

  ghost predicate ObjectsOk(o: Objects) {
    forall k :: k in o ==> StoredOk(k, o[k])
  }

  ghost predicate MemoryOk(o: Objects, mem: Option<Loaded>) {
    mem.Some? ==>
      && StatusOk(mem.value.key.name, mem.value.machine)
      && (mem.value.key in o ==> InStep(o[mem.value.key], mem.value.machine))
  }

  /** From `o` to `p` the object `k` at most got a new status and a deletion mark, or went away unfinalized. */
  ghost predicate StatusMoves(o: Objects, p: Objects, k: Key) {
    || p == o
    || (k in o && !o[k].finalizer && p == o - {k})
    || (k in o && k in p
        && p == o[k := o[k].(deleted := p[k].deleted, status := p[k].status)]
        && (o[k].deleted ==> p[k].deleted)
        && Progress(o[k].status.conds, p[k].status.conds))
  }

  /** `s` claims no more than `m`: the same verdict, and a machine that is ready or broken only if `m` has one. */
  ghost predicate Derived(s: Status, m: Status) {
    && s.basis == m.basis
    && (IsTrue(s.conds, MachineReady) ==> IsTrue(m.conds, MachineReady))
    && (IsBroken(s.conds) ==> IsBroken(m.conds))
  }

  /** Whatever status was written from `o` and `c` to `p` and `d` was written for `k` and derives from `m`. */
  ghost predicate Rests(o: Objects, p: Objects, c: seq<Commit>, d: seq<Commit>, k: Key, m: Status) {
    && (forall j :: j in p ==> (j in o && p[j].status == o[j].status) || (j == k && Derived(p[j].status, m)))
    && c <= d
    && (forall i :: |c| <= i < |d| ==> d[i].key == k && Derived(d[i].machine.status, m))
  }

  lemma UserKeeps(o: Objects, p: Objects, k: Key, commits: seq<Commit>)
    requires ObjectsOk(o) && CommitsOk(commits, o) && UserActs(o, p, k)
    ensures ObjectsOk(p) && CommitsOk(commits, p) && StatusMoves(o, p, k)
  {
    if k in o && k in p {
      assert StatusOk(k.name, o[k]);
      assert p[k] == o[k].(deleted := p[k].deleted);
    }
  }

  lemma UserThenMoves(o: Objects, mid: Objects, p: Objects, k: Key)
    requires UserActs(o, mid, k) && StatusMoves(mid, p, k)
    ensures StatusMoves(o, p, k)
    ensures UserActs(mid, p, k) ==> UserActs(o, p, k)
  {
    if k in mid && k in p {
      assert o[k := o[k].(deleted := p[k].deleted, status := p[k].status)] ==
             mid[k := mid[k].(deleted := p[k].deleted, status := p[k].status)];
    }
  }

  lemma CommitKeeps(o: Objects, p: Objects, k: Key, commits: seq<Commit>)
    requires ObjectsOk(o) && CommitsOk(commits, o)
    requires k in o && k in p && p == o[k := p[k]] && StoredOk(k, p[k]) && p[k].status.phase != Unset
    requires Progress(o[k].status.conds, p[k].status.conds)
    requires o[k].status.phase == Terminating ==> p[k].status.phase == Terminating
    ensures ObjectsOk(p) && CommitsOk(commits + [Commit(k, p[k])], p)
  {
    hide StatusOk, Settled, Progress, Follows;
    PhasesFollow(k.name, o[k], p[k]);
    ProgressPreorder(p[k].status.conds, p[k].status.conds, p[k].status.conds);
    PhaseMeaning(k.name, p[k]);
    var q := p[k].status.phase;
    FollowsPreorder(q, q, q);
    forall i | 0 <= i < |commits| && commits[i].key == k
      ensures Leads(commits[i].machine.status, p[k].status)
    {
      FollowsPreorder(commits[i].machine.status.phase, o[k].status.phase, q);
      ProgressPreorder(commits[i].machine.status.conds, o[k].status.conds, p[k].status.conds);
    }
  }

  /** A commit of the summarized copy in memory, with the user acting just before it. */
  lemma WrittenOk(o: Objects, p: Objects, k: Key, m: Machine, commits: seq<Commit>)
    requires ObjectsOk(o) && CommitsOk(commits, o)
    requires k in o && InStep(o[k], m) && StatusOk(k.name, m)
    requires k in p && UserActs(o, p[k := p[k].(status := o[k].status)], k) && p[k].status == Summarized(m).status
    ensures ObjectsOk(p) && CommitsOk(commits + [Commit(k, p[k])], p)
    ensures StatusMoves(o, p, k) && InStep(p[k], p[k])
  {
    var mid := p[k := p[k].(status := o[k].status)];
    UserKeeps(o, mid, k, commits);
    SummarizedOk(k.name, m);
    assert p == mid[k := p[k]];
    assert StoredOk(k, p[k]) by {
      assert mid[k] == o[k].(deleted := mid[k].deleted);
      assert StatusOk(k.name, Summarized(m));
    }
    CommitKeeps(mid, p, k, commits);
    assert p == o[k := o[k].(deleted := p[k].deleted, status := p[k].status)];
  }

  /** The copy stays in step while the user acts, and when it is summarized. */
  lemma StillInStep(o: Objects, p: Objects, k: Key, m: Machine)
    requires UserActs(o, p, k) && (k in o ==> InStep(o[k], m))
    ensures k in p ==> InStep(p[k], m)
  {
    hide Progress;
  }

  lemma SummarizedInStep(p: Objects, k: Key, m: Machine)
    requires StatusOk(k.name, m) && (k in p ==> InStep(p[k], m))
    ensures k in p ==> InStep(p[k], Summarized(m))
  {
    hide StatusOk, Settled;
    SummarizedOk(k.name, m);
    if k in p {
      ProgressPreorder(p[k].status.conds, m.status.conds, Summarized(m).status.conds);
      assert !m.finalizer ==> Summarized(m).status.conds == map[] by { EmptySummary(); }
    }
  }

  lemma UserRests(o: Objects, p: Objects, c: seq<Commit>, k: Key, m: Status)
    requires UserActs(o, p, k)
    ensures Rests(o, p, c, c, k, m)
  {}

  lemma UserRestsMore(o: Objects, mid: Objects, p: Objects, c: seq<Commit>, k: Key, m: Status)
    requires Rests(o, mid, c, c, k, m) && UserActs(mid, p, k)
    ensures Rests(o, p, c, c, k, m)
  {
    hide Derived;
  }

  lemma WrittenRests(o: Objects, mid: Objects, p: Objects, c: seq<Commit>, k: Key, m: Status)
    requires Rests(o, mid, c, c, k, m) && k in mid && k in p && Derived(p[k].status, m)
    requires UserActs(mid, p[k := p[k].(status := mid[k].status)], k)
    ensures Rests(o, p, c, c + [Commit(k, p[k])], k, m)
  {
    hide Derived;
    var q := p[k := p[k].(status := mid[k].status)];
    assert forall j :: j in p && j != k ==> j in q && q[j] == p[j];
  }

  lemma SummarizedDerives(m: Machine)
    ensures Derived(m.status, m.status) && Derived(Summarized(m).status, m.status)
  {
    hide WithSummary;
    SummaryKeeps(m.status.conds);
  }

  class Session {
    const store: MachineStore
    var machineObj: Option<Loaded>

    constructor (store: MachineStore)
      ensures this.store == store && machineObj == None
    {
      this.store := store;
      machineObj := None;
    }

    ghost predicate Valid()
      reads this, store
    {
      && ObjectsOk(store.objects)
      && CommitsOk(store.commits, store.objects)
      && MemoryOk(store.objects, machineObj)
    }

    /** `updateMachineStatus`. Conditions in memory that do not get committed stay in memory. */
    method UpdateMachineStatus() returns (ok: bool, written: bool)
      requires Valid() && machineObj.Some?
      modifies this`machineObj, store`objects, store`commits, store`faults, store`last
      ensures store.last == if ok then UpdateDone else UpdateFailed
      ensures store.faults >= old(store.faults)
      ensures Valid() && machineObj.Some? && machineObj.value.key == old(machineObj).value.key
      ensures SameButReady(old(machineObj).value.machine.status.conds, machineObj.value.machine.status.conds)
      ensures ok || store.faults > old(store.faults) || machineObj.value.key !in store.objects
      ensures StatusMoves(old(store.objects), store.objects, machineObj.value.key)
      ensures Derived(machineObj.value.machine.status, old(machineObj).value.machine.status)
      ensures Rests(old(store.objects), store.objects, old(store.commits), store.commits,
                    machineObj.value.key, old(machineObj).value.machine.status)
      ensures written ==> ok
      ensures !written ==> UserActs(old(store.objects), store.objects, machineObj.value.key)
      ensures !written ==> store.commits == old(store.commits)
      ensures !written ==>
        machineObj.value.machine == old(machineObj).value.machine
          || machineObj.value.machine == Summarized(old(machineObj).value.machine)
      ensures ok ==>
        var k := machineObj.value.key;
        k in old(store.objects) && k in store.objects
          && store.objects[k].status.conds == machineObj.value.machine.status.conds
        && store.objects[k].status.phase == machineObj.value.machine.status.phase
        && machineObj.value.machine.status == Summarized(old(machineObj).value.machine).status
        && (old(machineObj).value.machine.deleted ==> store.objects[k].status.phase == Terminating)
      ensures written ==>
        && machineObj.value.machine == store.objects[machineObj.value.key]
        && store.commits == old(store.commits) + [Commit(machineObj.value.key, machineObj.value.machine)]
    {
      hide StatusOk, Progress, CommitsOk, Settled, WithSummary, GetPhase, StatusMoves, UserActs, Rests, Derived;
      var k, m := machineObj.value.key, machineObj.value.machine;
      written := false;
      var got := store.Get(k, true);
      SummaryKeeps(m.status.conds);
      UserRests(old(store.objects), store.objects, store.commits, k, m.status);
      SummarizedDerives(m);
      StillInStep(old(store.objects), store.objects, k, m);
      UserKeeps(old(store.objects), store.objects, k, store.commits);
      if !got.Found? {
        return false, false;
      }
      SummarizedOk(k.name, m);
      machineObj := Some(Loaded(k, Summarized(m)));
      ghost var o := store.objects;
      ok, written := store.CommitStatus(k, got.machine.status, machineObj.value.machine);
      if written {
        WrittenOk(o, store.objects, k, m, old(store.commits));
        WrittenRests(old(store.objects), o, store.objects, old(store.commits), k, m.status);
        machineObj := Some(Loaded(k, store.objects[k]));
      } else {
        UserKeeps(o, store.objects, k, store.commits);
        StillInStep(o, store.objects, k, m);
        SummarizedInStep(store.objects, k, m);
        UserRestsMore(old(store.objects), o, store.objects, store.commits, k, m.status);
      }
      UserThenMoves(old(store.objects), o, store.objects, k);
    }

    /** The stored object of the Machine in memory is there, held by the finalizer, with the same annotations. */
    ghost predicate Held()
      reads this, store
    {
      && machineObj.Some? && machineObj.value.key in store.objects
      && store.objects[machineObj.value.key].finalizer
      && machineObj.value.machine.ann == store.objects[machineObj.value.key].ann
      && machineObj.value.machine.spec == store.objects[machineObj.value.key].spec
    }

    /** `patchAnnotation`. On success memory is what the API server has, status included; an object that is gone
        is created again. A Machine that is held stays held. */
    method PatchAnnotation(field: Field, id: Id) returns (ok: bool, ghost mid: Objects)
      requires machineObj.Some?
      modifies this`machineObj, store`objects, store`released, store`failedPatches, store`failedVpcPatches
      ensures UserActs(old(store.objects), mid, old(machineObj).value.key)
      ensures !ok ==> store.objects == mid && machineObj == old(machineObj) && store.released == old(store.released)
      ensures ok ==>
        var k, mine := old(machineObj).value.key, old(machineObj).value.machine;
        var base := if k in mid then mid[k] else mine.(deleted := false, status := EMPTY_STATUS);
        var p := base.(ann := Annotated(base.ann, field, id));
        && machineObj == Some(Loaded(k, p))
        && (if p.deleted && !p.finalizer
            then store.objects == mid - {k} && store.released == old(store.released)[k := p.ann]
            else store.objects == mid[k := p] && store.released == old(store.released))
      ensures old(Held()) ==>
        && Held() && machineObj.value.key == old(machineObj).value.key && store.released == old(store.released)
        && var k := machineObj.value.key; var was := old(store.objects);
           && store.objects == was[k := was[k].(ann := store.objects[k].ann, deleted := store.objects[k].deleted)]
           && (was[k].deleted ==> store.objects[k].deleted)
           && store.objects[k].ann == (if ok then Annotated(was[k].ann, field, id) else was[k].ann)
           && machineObj == (if ok then Some(Loaded(k, store.objects[k])) else old(machineObj))
      ensures store.failedPatches == old(store.failedPatches) + if ok then 0 else 1
      ensures store.failedVpcPatches == old(store.failedVpcPatches) + if !ok && field.VpcField? then 1 else 0
    {
      var k := machineObj.value.key;
      var r;
      r, mid := store.CreateOrPatch(k, machineObj.value.machine, Annotate(field, id));
      if r.Some? {
        machineObj := Some(Loaded(k, r.value));
      }
      ok := r.Some?;
      if old(Held()) {
        ghost var was := old(store.objects);
        assert mid[k] == was[k].(deleted := mid[k].deleted);
        assert store.objects == was[k := store.objects[k]];
      }
    }

    /** `ensureFinalizer`, just after the object was read. If the user deleted it meanwhile it is created anew. */
    method EnsureFinalizer() returns (ok: bool)
      requires Valid() && machineObj.Some? && !machineObj.value.machine.deleted
      requires machineObj.value.key in store.objects
      modifies this`machineObj, store`objects, store`released, store`failedPatches, store`failedVpcPatches
      modifies store`faults, store`last, store`failedReleases
      ensures store.failedReleases == old(store.failedReleases)
      ensures store.faults == old(store.faults) + if ok then 0 else 1
      ensures Valid() && machineObj.Some? && machineObj.value.key == old(machineObj).value.key
      ensures store.released == old(store.released)
      ensures store.failedPatches == old(store.failedPatches) && store.failedVpcPatches == old(store.failedVpcPatches)
      ensures !ok ==> UserActs(old(store.objects), store.objects, machineObj.value.key) && machineObj == old(machineObj)
      ensures ok ==>
        && Held()
        && var k := machineObj.value.key; var was := old(store.objects);
           var p := store.objects[k];
           && store.objects == was[k := p]
           && p.spec == was[k].spec && p.ann == was[k].ann
           && (if was[k].finalizer
               then store.objects == was && machineObj == old(machineObj)
               else machineObj == Some(Loaded(k, p)) && p.status.conds == map[]
                    && (p.status == was[k].status || p.status == EMPTY_STATUS))
    {
      var k := machineObj.value.key;
      if machineObj.value.machine.finalizer {
        return true;
      }
      assert StoredOk(k, store.objects[k]);
      var r, mid := store.PatchFinalizer(k, machineObj.value.machine, AddFinalizer);
      UserKeeps(old(store.objects), mid, k, store.commits);
      ok := r.Some?;
      if ok {
        AddedOk(old(store.objects), mid, k, machineObj.value.machine, r.value, store.commits);
        machineObj := Some(Loaded(k, r.value));
      }
    }

    /** `patchFinalizer` with VerbDeleted, on a Machine that is marked for deletion. */
    method DropFinalizer() returns (ok: bool)
      requires Valid() && Held() && machineObj.value.machine.deleted
      modifies this`machineObj, store`objects, store`released
      modifies store`failedPatches, store`failedVpcPatches, store`failedReleases, store`faults, store`last
      ensures store.faults == old(store.faults) + if ok then 0 else 1
      ensures Valid() && machineObj.Some? && machineObj.value.key == old(machineObj).value.key
      ensures store.failedPatches == old(store.failedPatches) && store.failedVpcPatches == old(store.failedVpcPatches)
      ensures store.failedReleases == old(store.failedReleases) + if ok then 0 else 1
      ensures var k := machineObj.value.key; var was := old(store.objects)[k];
        if ok then store.objects == old(store.objects) - {k}
                   && store.released == old(store.released)[k := was.ann]
                   && machineObj == Some(Loaded(k, was.(finalizer := false)))
        else
          && store.objects == old(store.objects) && store.released == old(store.released)
          && machineObj == old(machineObj)
    {
      var k := machineObj.value.key;
      var r, mid := store.PatchFinalizer(k, machineObj.value.machine, RemoveFinalizer);
      assert mid == old(store.objects);
      ok := r.Some?;
      if ok {
        machineObj := Some(Loaded(k, r.value));
      }
    }

    /** `setInitialConditions`, reached only while neither MachineCreating nor MachineReady is True in memory. */
    method SetInitialConditions() returns (ok: bool)
      requires Valid() && Held()
      requires var c := machineObj.value.machine.status.conds; !IsTrue(c, MachineCreating) && !IsTrue(c, MachineReady)
      modifies this`machineObj, store`objects, store`commits, store`faults, store`last
      ensures store.faults >= old(store.faults) && (ok || store.faults > old(store.faults))
      ensures Valid() && Held() && machineObj.value.key == old(machineObj).value.key
      ensures StatusMoves(old(store.objects), store.objects, machineObj.value.key)
      ensures Rests(old(store.objects), store.objects, old(store.commits), store.commits,
                    machineObj.value.key, EMPTY_STATUS)
      ensures var m := machineObj.value.machine; var c := m.status.conds;
        && m.ann == old(machineObj).value.machine.ann && Derived(m.status, EMPTY_STATUS)
        && !IsTrue(c, MachineCreating) && MachineReady in c && c[MachineReady] == False(Creating)
        && (ok ==> store.objects[machineObj.value.key].status.conds == c)
    {
      hide StatusOk, Progress, UserActs, CommitsOk, WithSummary, Settled, GetPhase, Rests;
      var k, m := machineObj.value.key, machineObj.value.machine;
      MarkInitialOk(k.name, m);
      ProgressPreorder(store.objects[k].status.conds, m.status.conds, MarkInitial(m).status.conds);
      assert StoredOk(k, store.objects[k]);
      machineObj := Some(Loaded(k, MarkInitial(m)));
      SummaryKeeps(MarkInitial(m).status.conds);
      var written: bool;
      ok, written := UpdateMachineStatus();
      InitialRests(old(store.objects), store.objects, old(store.commits), store.commits, k, MarkInitial(m).status);
    }
  }

  /** The initial conditions claim nothing. */
  lemma InitialRests(o: Objects, p: Objects, c: seq<Commit>, d: seq<Commit>, k: Key, m: Status)
    requires Rests(o, p, c, d, k, m) && m.basis == None && !IsTrue(m.conds, MachineReady) && !IsBroken(m.conds)
    ensures Rests(o, p, c, d, k, EMPTY_STATUS)
  {}

  /** What a series of annotation patches may have done to `k` in the store and in memory. */
  ghost predicate AnnotationsMove(o: Objects, p: Objects, mem: Loaded, mem': Loaded) {
    var k := mem.key;
    && mem'.key == k && k in o && k in p
    && p == o[k := o[k].(ann := p[k].ann, deleted := p[k].deleted)]
    && (o[k].deleted ==> p[k].deleted)
    && mem'.machine.ann == p[k].ann
    && (mem' == mem || (mem'.machine == p[k].(deleted := mem'.machine.deleted)
                        && (mem'.machine.deleted ==> p[k].deleted) && (o[k].deleted ==> mem'.machine.deleted)))
  }

  lemma MovesCompose(o: Objects, p: Objects, q: Objects, m: Loaded, m': Loaded, m'': Loaded)
    requires AnnotationsMove(o, p, m, m') && AnnotationsMove(p, q, m', m'')
    ensures AnnotationsMove(o, q, m, m'')
  {
    assert q == o[m.key := q[m.key]];
    if m'' == m' && m' != m {
      assert m''.machine == q[m.key].(deleted := m''.machine.deleted);
    }
  }

  /** Patching annotations of a finalized object keeps the books in order. */
  lemma PatchesKeep(o: Objects, p: Objects, mem: Loaded, mem': Loaded, commits: seq<Commit>)
    requires ObjectsOk(o) && CommitsOk(commits, o) && MemoryOk(o, Some(mem))
    requires AnnotationsMove(o, p, mem, mem') && o[mem.key].finalizer
    ensures ObjectsOk(p) && CommitsOk(commits, p) && MemoryOk(p, Some(mem'))
  {
    var k := mem.key;
    PatchedInStep(k, o[k], p[k], mem.machine, mem'.machine);
  }

  lemma PatchedInStep(k: Key, o: Machine, p: Machine, m: Machine, m': Machine)
    requires StoredOk(k, o) && StatusOk(k.name, m) && InStep(o, m)
    requires p == o.(ann := p.ann, deleted := p.deleted) && (o.deleted ==> p.deleted) && p.finalizer && m'.ann == p.ann
    requires m' == m || (m' == p.(deleted := m'.deleted) && (m'.deleted ==> p.deleted) && (o.deleted ==> m'.deleted))
    ensures StoredOk(k, p) && StatusOk(k.name, m') && InStep(p, m')
  {
    assert StatusOk(k.name, p);
  }

  lemma AddedOk(o: Objects, mid: Objects, k: Key, mine: Machine, p: Machine, commits: seq<Commit>)
    requires ObjectsOk(mid) && CommitsOk(commits, mid)
    requires ObjectsOk(o) && CommitsOk(commits, o) && k in o && !o[k].finalizer && UserActs(o, mid, k)
      && InStep(o[k], mine)
    requires p == (if k in mid then mid[k] else mine.(deleted := false, status := EMPTY_STATUS)).(finalizer := true)
    ensures ObjectsOk(mid[k := p]) && CommitsOk(commits, mid[k := p])
    ensures StatusOk(k.name, p) && InStep(p, p) && mid[k := p] == o[k := p]
  {
    assert StoredOk(k, o[k]);
    assert WithSummary(map[]) == map[];
    if k !in mid {
      forall i | 0 <= i < |commits| && commits[i].key == k
        ensures Leads(commits[i].machine.status, p.status)
      {
        assert SoundCommit(commits[i]);
        assert Leads(commits[i].machine.status, o[k].status);
      }
    }
  }
}
