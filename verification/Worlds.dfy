/** The three stores taken together, and what holds of them between and during passes. */
module Worlds {
  import opened Wrappers
  import opened Cloud
  import opened Machines
  import opened ScriptResult
  import opened Store
  import opened Sessions
  import opened Environment
  import opened Hosts
  import opened Arguments

  /** What went wrong so far, as EC2, the API server and the host count it: failed annotation patches (and those for a
      VPC), failed deletes of subnets and gateways, compensating calls that failed although EC2's rules allow them,
      failed removals of a finalizer, other requests to the API server that failed, commands that failed, result files
      that could not be opened, and other EC2 calls that failed although the rules allow them. And the VPCs created. */
  datatype Bill = Bill(
    patches: nat, vpcPatches: nat, deletes: nat, undo: nat, vpcs: nat,
    releases: nat, requests: nat, commands: nat, unread: nat, calls: nat)

  ghost predicate ErrorsGrow(b: Bill, b': Bill) {
    && b.patches <= b'.patches && b.requests <= b'.requests && b.commands <= b'.commands
    && b.unread <= b'.unread && b.calls <= b'.calls
  }

  ghost predicate OnlyErrors(b: Bill, b': Bill) {
    && b' == b.(requests := b'.requests, commands := b'.commands, unread := b'.unread)
    && ErrorsGrow(b, b')
  }

  /** EC2, the API server, the reconciler's memory, the history of commands and failures, and what the operator was
      built with. */
  datatype World = World(
    cloud: Cloud,
    objects: Objects,
    released: map<Key, Annotations>,
    commits: seq<Commit>,
    mem: Option<Loaded>,
    launches: seq<Launch>,
    copies: seq<Copy>,
    removed: seq<Key>,
    bill: Bill,
    last: Request,
    setup: Setup)

  function Start(setup: Setup): World {
    World(Cloud(map[], map[], map[]), map[], map[], [], None, [], [], [],
          Bill(0, 0, 0, 0, 0, 0, 0, 0, 0, 0), NoRequest, setup)
  }

  /** While no deletion is asked for, a recorded subnet means a complete environment. */
  ghost predicate EnvOk(c: Cloud, k: Key, p: Machine) {
    && AnnOk(c, k, p.ann)
    && (p.ann.subnet != NONE && !p.deleted ==> EnvReady(c, p.ann))
    && (p.spec.driver != AWS_DRIVER ==> p.ann == NO_ANNOTATIONS)
  }

  ghost predicate EnvsOk(c: Cloud, o: Objects) {
    forall k :: k in o ==> EnvOk(c, k, o[k])
  }

  /** The VPC of a Machine that was let go is gone, for good. */
  ghost predicate GoneOk(c: Cloud, k: Key, a: Annotations) {
    a.vpc !in c.live && (a.vpc == NONE || Owned(c, VpcKind, k, a.vpc))
  }

  ghost predicate AllGoneOk(c: Cloud, o: Objects, released: map<Key, Annotations>) {
    forall k :: k in released ==> k !in o && GoneOk(c, k, released[k])
  }

  /** The finalizer of `k` is stored, or `k` was cleaned up and let go. */
  ghost predicate Backed(k: Key, o: Objects, released: map<Key, Annotations>) {
    (k in o && o[k].finalizer) || k in released
  }

  /** Nothing was ever created for a Machine without its finalizer. */
  ghost predicate AllBacked(c: Cloud, launches: seq<Launch>, o: Objects, released: map<Key, Annotations>) {
    && (forall id :: id in c.born ==> Backed(c.born[id].owner, o, released))
    && (forall i :: 0 <= i < |launches| ==> Backed(launches[i].key, o, released))
  }

  /** The arguments say what the object says; for AWS the environment was complete, and the arguments name it. */
  ghost predicate LaunchOk(setup: Setup, l: Launch) {
    && l.inputs.setup == setup && Complete(l.inputs.secret)
    && Faithful(l.args, l.spec, l.key.name, l.ann, l.inputs)
    && (l.inputs.script.Some? <==> l.spec.hasScript)
    && (l.spec.driver == AWS_DRIVER ==> EnvReady(l.cloud, l.ann) && CarriesIds(l.args, l.key.name, l.ann))
  }

  /** A verdict on `k` rests on the very file that some copy for `k` brought. */
  ghost predicate BaseOk(copies: seq<Copy>, k: Key, b: Option<Report>) {
    b.Some? ==> b.value.copy < |copies| && copies[b.value.copy] == Copy(k, b)
  }

  /** A create command for `k` worked, or found its work done. */
  ghost predicate Worked(launches: seq<Launch>, k: Key) {
    exists i :: 0 <= i < |launches| && launches[i].key == k && !launches[i].outcome.LaunchFailed?
  }

  /** A create command for `k` failed. */
  ghost predicate Broke(launches: seq<Launch>, k: Key) {
    exists i :: 0 <= i < |launches| && launches[i].key == k && launches[i].outcome.LaunchFailed?
  }

  /** A status of `k` has grounds: its verdict, and how the launch of its machine ended. */
  ghost predicate Grounded(copies: seq<Copy>, launches: seq<Launch>, k: Key, s: Status) {
    && BaseOk(copies, k, s.basis)
    && (IsTrue(s.conds, MachineReady) ==> Worked(launches, k))
    && (IsBroken(s.conds) ==> Broke(launches, k))
  }

  ghost predicate BasesOk(w: World) {
    && (forall j :: j in w.objects ==> Grounded(w.copies, w.launches, j, w.objects[j].status))
    && (forall i :: 0 <= i < |w.commits| ==>
      Grounded(w.copies, w.launches, w.commits[i].key, w.commits[i].machine.status))
    && (w.mem.Some? ==> Grounded(w.copies, w.launches, w.mem.value.key, w.mem.value.machine.status))
  }

  /** More history only adds to the grounds. */
  lemma GroundsStay(w: World, w': World)
    requires BasesOk(w) && w.copies <= w'.copies && w.launches <= w'.launches
    requires w'.objects == w.objects && w'.commits == w.commits && w'.mem == w.mem
    ensures BasesOk(w')
  {
    forall k | Worked(w.launches, k) ensures Worked(w'.launches, k) {
      var i :| 0 <= i < |w.launches| && w.launches[i].key == k && !w.launches[i].outcome.LaunchFailed?;
      assert w'.launches[i] == w.launches[i];
    }
    forall k | Broke(w.launches, k) ensures Broke(w'.launches, k) {
      var i :| 0 <= i < |w.launches| && w.launches[i].key == k && w.launches[i].outcome.LaunchFailed?;
      assert w'.launches[i] == w.launches[i];
    }
  }

  ghost predicate BooksOk(w: World) {
    ObjectsOk(w.objects) && CommitsOk(w.commits, w.objects) && MemoryOk(w.objects, w.mem)
  }

  ghost predicate WorldOk(w: World) {
    && CloudOk(w.cloud)
    && BooksOk(w) && BasesOk(w)
    && EnvsOk(w.cloud, w.objects)
    && AllGoneOk(w.cloud, w.objects, w.released)
    && AllBacked(w.cloud, w.launches, w.objects, w.released)
    && (forall i :: 0 <= i < |w.launches| ==> LaunchOk(w.setup, w.launches[i]))
  }

  // ----- a change for one Machine leaves the others' environments alone -----

  lemma OthersEnvKept(c: Cloud, d: Cloud, k: Key, j: Key, p: Machine)
    requires CloudOk(c) && CloudOk(d) && BornGrows(c, d, k) && Foreign(c, k) == Foreign(d, k) && j != k
    requires EnvOk(c, j, p)
    ensures EnvOk(d, j, p)
  {
    ShareKept(c, d, k, j);
    forall id | Mine(c, j, id)
      ensures (id in c.live <==> id in d.live) && (id in c.live ==> c.live[id] == d.live[id])
    {
      assert Mine(d, j, id);
      assert id in c.live <==> id in Share(c, j);
      assert id in d.live <==> id in Share(d, j);
    }
    NoneIsDead(c);
    NoneIsDead(d);
    if SomeSubnetIn(c, p.ann.vpc) && IsVpc(c, p.ann.vpc) && p.ann.vpc != NONE {
      var s :| IsSubnetIn(c, s, p.ann.vpc);
      assert Placed(c, s) && Mine(c, j, s);
      assert IsSubnetIn(d, s, p.ann.vpc);
    }
    if EnvReady(c, p.ann) {
      var t :| IsTableOf(c, t, p.ann.vpc) && c.live[t].route == p.ann.gateway;
      assert Placed(c, t) && Mine(c, j, t);
      assert IsTableOf(d, t, p.ann.vpc) && d.live[t].route == p.ann.gateway;
    }
  }

  lemma OthersGoneKept(c: Cloud, d: Cloud, k: Key, j: Key, a: Annotations)
    requires CloudOk(c) && CloudOk(d) && BornGrows(c, d, k) && Foreign(c, k) == Foreign(d, k) && j != k
    requires GoneOk(c, j, a)
    ensures GoneOk(d, j, a)
  {
    ShareKept(c, d, k, j);
    NoneIsDead(d);
    assert a.vpc in d.live ==> a.vpc in Share(d, j);
  }

  /** The books of all Machines after a change to EC2 and to the object of `k`. */
  lemma EnvStep(c: Cloud, d: Cloud, k: Key, o: Objects, p: Objects,
                released: map<Key, Annotations>, launches: seq<Launch>)
    requires CloudOk(c) && CloudOk(d) && BornGrows(c, d, k) && Foreign(c, k) == Foreign(d, k)
    requires k in o && k in p && o[k].finalizer && p[k].finalizer && p == o[k := p[k]]
    requires EnvsOk(c, o) && AllGoneOk(c, o, released) && AllBacked(c, launches, o, released)
    requires EnvOk(d, k, p[k])
    ensures EnvsOk(d, p) && AllGoneOk(d, p, released) && AllBacked(d, launches, p, released)
  {
    forall j | j in p ensures EnvOk(d, j, p[j]) {
      if j != k {
        OthersEnvKept(c, d, k, j, p[j]);
      }
    }
    forall j | j in released ensures j !in p && GoneOk(d, j, released[j]) {
      OthersGoneKept(c, d, k, j, released[j]);
    }
    forall id | id in d.born ensures Backed(d.born[id].owner, p, released) {
      assert id in c.born ==> Backed(c.born[id].owner, o, released);
    }
    forall i | 0 <= i < |launches| ensures Backed(launches[i].key, p, released) {
      assert Backed(launches[i].key, o, released);
    }
  }

  /** New statuses and deletion marks do not matter to the environments. */
  lemma StatusStep(c: Cloud, k: Key, o: Objects, p: Objects, released: map<Key, Annotations>, launches: seq<Launch>)
    requires StatusMoves(o, p, k) && ObjectsOk(o)
    requires EnvsOk(c, o) && AllGoneOk(c, o, released) && AllBacked(c, launches, o, released)
    ensures EnvsOk(c, p) && AllGoneOk(c, p, released) && AllBacked(c, launches, p, released)
  {
    forall j | j in p ensures EnvOk(c, j, p[j]) {
      assert EnvOk(c, j, o[j]);
    }
    forall j | Backed(j, o, released) ensures Backed(j, p, released) {
    }
    forall id | id in c.born ensures Backed(c.born[id].owner, p, released) {
      assert Backed(c.born[id].owner, o, released);
    }
    forall i | 0 <= i < |launches| ensures Backed(launches[i].key, p, released) {
      assert Backed(launches[i].key, o, released);
    }
  }

  // ----- where verdicts come from -----

  /** `b` is no verdict at all, or it was the one on `j` already in `w`, or it rests on a file copied since. */
  ghost predicate Traced(w: World, j: Key, b: Option<Report>) {
    || b.None?
    || b.value.copy >= |w.copies|
    || (w.mem.Some? && w.mem.value.key == j && w.mem.value.machine.status.basis == b)
    || (j in w.objects && w.objects[j].status.basis == b)
  }

  ghost predicate Verdicts(w: World, w': World) {
    && (forall j :: j in w'.objects ==> Traced(w, j, w'.objects[j].status.basis))
    && (forall i :: |w.commits| <= i < |w'.commits| ==>
      Traced(w, w'.commits[i].key, w'.commits[i].machine.status.basis))
    && (w'.mem.Some? ==> Traced(w, w'.mem.value.key, w'.mem.value.machine.status.basis))
  }

  lemma VerdictsCompose(w: World, v: World, w': World)
    requires Verdicts(w, v) && Verdicts(v, w')
    requires w.copies <= v.copies && w.commits <= v.commits <= w'.commits
    ensures Verdicts(w, w')
  {
    forall j, b | Traced(v, j, b) ensures Traced(w, j, b) {
    }
    forall i | |w.commits| <= i < |w'.commits|
      ensures Traced(w, w'.commits[i].key, w'.commits[i].machine.status.basis)
    {
      assert i < |v.commits| ==> w'.commits[i] == v.commits[i];
    }
  }

  /** A status update passes on what is in memory. */
  lemma RestsOk(w: World, w': World, k: Key, m: Status)
    requires BasesOk(w) && Grounded(w.copies, w.launches, k, m) && Traced(w, k, m.basis)
    requires w' == w.(objects := w'.objects, commits := w'.commits, mem := w'.mem, bill := w'.bill, last := w'.last)
    requires Rests(w.objects, w'.objects, w.commits, w'.commits, k, m)
    requires w'.mem.Some? && w'.mem.value.key == k && Derived(w'.mem.value.machine.status, m)
    ensures BasesOk(w') && Verdicts(w, w') && w.commits <= w'.commits
  {
    hide Worked, Broke;
    forall i | 0 <= i < |w'.commits|
      ensures Grounded(w'.copies, w'.launches, w'.commits[i].key, w'.commits[i].machine.status)
    {
      assert i < |w.commits| ==> w'.commits[i] == w.commits[i];
    }
  }

  // ----- steps of a pass -----

  /** Only the status, the deletion mark and the memory of `k` changed. */
  ghost predicate StatusOnly(w: World, w': World, k: Key) {
    && w' == w.(objects := w'.objects, commits := w'.commits, mem := w'.mem, bill := w'.bill, last := w'.last)
    && OnlyErrors(w.bill, w'.bill)
    && StatusMoves(w.objects, w'.objects, k)
    && w.commits <= w'.commits
    && Verdicts(w, w')
  }

  lemma StatusOnlyOk(w: World, w': World, k: Key)
    requires WorldOk(w) && StatusOnly(w, w', k) && BooksOk(w') && BasesOk(w')
    ensures WorldOk(w')
  {
    hide Verdicts, BasesOk;
    StatusStep(w.cloud, k, w.objects, w'.objects, w.released, w.launches);
  }

  /** What a Machine object keeps over a pass that does not let it go. */
  ghost predicate Evolves(p: Machine, q: Machine) {
    && q.spec == p.spec
    && (p.finalizer ==> q.finalizer)
    && (p.deleted ==> q.deleted)
    && (p.ann.vpc != NONE ==> q.ann.vpc == p.ann.vpc)
    && Progress(p.status.conds, q.status.conds)
  }

  /** A part of a creating pass for `k`, whose object is held by the finalizer. */
  ghost predicate Advances(w: World, w': World, k: Key) {
    && k in w.objects && k in w'.objects && w.objects[k].finalizer
    && w'.objects == w.objects[k := w'.objects[k]]
    && Evolves(w.objects[k], w'.objects[k])
    && w'.released == w.released && w'.setup == w.setup
    && w.commits <= w'.commits && w.launches <= w'.launches
    && Foreign(w'.cloud, k) == Foreign(w.cloud, k) && BornGrows(w.cloud, w'.cloud, k) && OthersRun(w.cloud, w'.cloud, k)
    && Verdicts(w, w')
  }

  /** Patching annotations passes on the verdict in memory or in the store. */
  lemma PatchesTrace(w: World, w': World)
    requires BasesOk(w) && w.mem.Some? && w'.mem.Some?
    requires AnnotationsMove(w.objects, w'.objects, w.mem.value, w'.mem.value)
    requires w'.commits == w.commits && w'.copies == w.copies && w'.launches == w.launches
    ensures BasesOk(w') && Verdicts(w, w')
  {
    hide Grounded;
    var o, p, k := w.objects, w'.objects, w.mem.value.key;
    assert forall j :: j in p ==> j in o && p[j].status == o[j].status;
    assert w'.mem.value.machine.status in {w.mem.value.machine.status, o[k].status};
  }

  /** The world after a series of AWS calls and annotation patches for a held Machine. */
  lemma SagaOk(w: World, w': World, k: Key)
    requires WorldOk(w) && w.mem.Some? && w'.mem.Some? && w.mem.value.key == k && k in w.objects
      && w.objects[k].finalizer
    requires AnnotationsMove(w.objects, w'.objects, w.mem.value, w'.mem.value)
    requires w' == w.(cloud := w'.cloud, objects := w'.objects, mem := w'.mem, removed := w'.removed, bill := w'.bill)
    requires CloudOk(w'.cloud) && BornGrows(w.cloud, w'.cloud, k) && Foreign(w'.cloud, k) == Foreign(w.cloud, k)
    requires OthersRun(w.cloud, w'.cloud, k)
    requires EnvOk(w'.cloud, k, w'.objects[k])
    requires w.objects[k].ann.vpc != NONE ==> w'.objects[k].ann.vpc == w.objects[k].ann.vpc
    ensures WorldOk(w') && Advances(w, w', k)
  {
    hide Foreign, CloudOk, EnvOk, StatusOk, BasesOk, Verdicts;
    PatchesTrace(w, w');
    PatchesKeep(w.objects, w'.objects, w.mem.value, w'.mem.value, w.commits);
    EnvStep(w.cloud, w'.cloud, k, w.objects, w'.objects, w.released, w.launches);
  }
}
