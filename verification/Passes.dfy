/** What one pass of the reconciler for one Machine may do to the world. */
module Passes {
  import opened Wrappers
  import opened Cloud
  import opened Machines
  import opened ScriptResult
  import opened Store
  import opened Sessions
  import opened Environment
  import opened SagaSteps
  import opened Hosts
  import opened Worlds

  function LastAnn(w: World, k: Key): Annotations {
    if k in w.objects then w.objects[k].ann
    else if k in w.released then w.released[k]
    else NO_ANNOTATIONS
  }

  ghost function Owed(w: World, k: Key): set<Id> { Debts(w.cloud, k, LastAnn(w, k)) }

  function FailedCalls(b: Bill): nat { b.patches + b.deletes }

  /** The recorded VPC is gone: by a completed rollback, or by cleanup. */
  ghost predicate Spent(w: World, k: Key) {
    LastAnn(w, k).vpc != NONE && LastAnn(w, k).vpc !in w.cloud.live
  }

  /** The stored conditions forbid another launch. */
  ghost predicate Blocked(w: World, k: Key) {
    k in w.objects
      && (IsTrue(w.objects[k].status.conds, MachineCreating) || IsTrue(w.objects[k].status.conds, MachineReady))
  }

  ghost predicate CreationHasFailed(w: World, k: Key) {
    k in w.objects && IsBroken(w.objects[k].status.conds)
  }

  ghost predicate Ending(w: World, k: Key) { k in w.objects && w.objects[k].deleted }

  // ----- the clauses of a pass -----

  /** Objects stay unless nothing was done for them or they are let go; annotations change for `k` only. */
  ghost predicate ObjectsKept(w: World, w': World, k: Key) {
    && (forall j :: j in w.objects ==>
          if j in w'.objects then Evolves(w.objects[j], w'.objects[j])
            && (j != k ==> w'.objects[j].ann == w.objects[j].ann)
          else !w.objects[j].finalizer || (j == k && k in w'.released))
    && (forall j :: j in w'.objects ==> j in w.objects)
  }

  /** Only docker machines of `k` are removed. If `k` is let go, its docker machine was removed and its VPC is gone. */
  ghost predicate Releases(w: World, w': World, k: Key) {
    && (forall n :: |w.removed| <= n < |w'.removed| ==> w'.removed[n] == k)
    && (forall j :: j in w.released ==> j in w'.released && w'.released[j] == w.released[j])
    && (forall j :: j in w'.released && j !in w.released ==>
          && j == k && k in w.objects
          && |w'.removed| > |w.removed|
          && w'.released[k].vpc !in w'.cloud.live)
  }

  ghost predicate History(w: World, w': World) {
    && w.commits <= w'.commits && w.launches <= w'.launches && w.copies <= w'.copies && w.removed <= w'.removed
    && w'.setup == w.setup
  }

  /** EC2 changes for `k` only, and not at all if `k` is not there. */
  ghost predicate Confined(w: World, w': World, k: Key) {
    && Foreign(w'.cloud, k) == Foreign(w.cloud, k) && BornGrows(w.cloud, w'.cloud, k) && OthersRun(w.cloud, w'.cloud, k)
    && (k !in w.objects ==> w'.cloud == w.cloud)
    && (Spent(w, k) ==> w'.cloud.born == w.cloud.born && Spent(w', k))
  }

  /** Every new debt was paid for by a failed call, every VPC by the annotation or a failed patch. */
  ghost predicate Accounted(w: World, w': World, k: Key) {
    && FailedCalls(w.bill) <= FailedCalls(w'.bill) && w.bill.undo <= w'.bill.undo && w.bill.releases <= w'.bill.releases
    && ErrorsGrow(w.bill, w'.bill)
    && w.bill.vpcs <= w'.bill.vpcs && w.bill.vpcPatches <= w'.bill.vpcPatches
    && |Owed(w', k)| + FailedCalls(w.bill) <= |Owed(w, k)| + FailedCalls(w'.bill)
    && w'.bill.vpcs + OneIfSet(LastAnn(w, k).vpc) + w.bill.vpcPatches
       <= w.bill.vpcs + OneIfSet(LastAnn(w', k).vpc) + w'.bill.vpcPatches
  }

  ghost predicate Effect(w: World, w': World, k: Key) {
    && ObjectsKept(w, w', k) && Releases(w, w', k) && History(w, w') && Confined(w, w', k) && Accounted(w, w', k)
    && Verdicts(w, w')
  }

  /** The target of cleanup stays the same until it is reached, and nothing new appears. */
  ghost predicate Winds(w: World, w': World, k: Key) {
    Ending(w, k) ==>
      var a := LastAnn(w, k);
      && LastAnn(w', k) == a && w'.cloud.born == w.cloud.born && (k in w'.objects ==> w'.objects[k].deleted)
      && w'.cloud.live.Keys <= w.cloud.live.Keys
      && Clean(w'.cloud, a).live == Clean(w.cloud, a).live
      && (Tidy(w.cloud, a) <==> Tidy(w'.cloud, a))
      && (CleansUp(w, w', k) ==> w'.cloud.live == Clean(w.cloud, a).live)
  }

  /** `rm` succeeded in this pass, no call failed against EC2's rules, and no leftover is in the way. */
  ghost predicate CleansUp(w: World, w': World, k: Key) {
    && Ending(w, k) && w.objects[k].spec.driver == AWS_DRIVER && Tidy(w.cloud, LastAnn(w, k))
    && w'.removed != w.removed && w'.bill.undo == w.bill.undo
  }

  /** After a cleanup without faults only the removal of the finalizer can still fail. */
  ghost predicate Finishes(w: World, w': World, k: Key) {
    CleansUp(w, w', k) ==> k in w'.released || w'.bill.releases > w.bill.releases
  }

  /** The launch was for the Machine as it is stored, and its environment is still what it was, or more. */
  ghost predicate Reflects(w: World, k: Key, l: Launch) {
    && l.key == k && k in w.objects && w.objects[k].finalizer
    && l.spec == w.objects[k].spec && l.ann == w.objects[k].ann
    && Populated(l.cloud, w.cloud, k)
  }

  /** A launch is on record, or it is in memory because no status was committed since. */
  ghost predicate Running(w: World, k: Key, l: Launch) {
    && Reflects(w, k, l)
    && w.mem.Some? && w.mem.value.key == k && IsTrue(w.mem.value.machine.status.conds, MachineCreating)
    && (Blocked(w, k) || |w.commits| == l.commitsBefore)
  }

  /** And so is how it ended. */
  ghost predicate Noted(w: World, k: Key, l: Launch) {
    && Running(w, k, l)
    && MachineReady in w.mem.value.machine.status.conds
    && w.mem.value.machine.status.conds[MachineReady] == if l.outcome.LaunchFailed? then False(CreationFailed) else True
  }

  /** At most one launch, for `k`, which was not blocked before and is noted after. */
  ghost predicate Launches(w: World, w': World, k: Key) {
    || w'.launches == w.launches
    || (|w'.launches| == |w.launches| + 1 && k in w.objects && !Blocked(w, k) && !Ending(w, k)
        && Noted(w', k, w'.launches[|w.launches|]))
  }

  /** At most one scp, for `k`, which is neither failed nor ending. */
  ghost predicate Copies(w: World, w': World, k: Key) {
    || w'.copies == w.copies
    || (|w'.copies| == |w.copies| + 1 && w'.copies[|w.copies|].key == k
        && k in w.objects && !CreationHasFailed(w, k) && !Ending(w, k))
  }

  /** `s` says what the copied file says, or that there is none yet. */
  ghost predicate VerdictOf(s: Status, file: Option<Report>) {
    && ClusterOperationComplete in s.conds
    && var v := s.conds[ClusterOperationComplete];
       if file.None? then v == False(WaitingForCompletion) && s.basis == None
       else
         && (FirstIntegerIs(file.value.lines, 0) ==> v == True && s.basis == file)
         && (forall n :: n != 0 && FirstIntegerIs(file.value.lines, n) ==>
               v == False(OperationFailed) && s.basis == file)
  }

  /** If a file was copied and could be opened, or could not be copied, memory says what it says. */
  ghost predicate Judges(w: World, w': World, k: Key) {
    |w'.copies| > |w.copies| && w'.bill.unread == w.bill.unread ==>
      && w'.mem.Some? && w'.mem.value.key == k
      && VerdictOf(w'.mem.value.machine.status, w'.copies[|w.copies|].file)
  }

  /** What is in memory is stored, with a phase. */
  ghost predicate Saved(w: World) {
    && w.mem.Some? && w.mem.value.key in w.objects
    && w.objects[w.mem.value.key].status.conds == w.mem.value.machine.status.conds
    && w.objects[w.mem.value.key].status.phase != Unset
  }

  /** A pass ends with an attempt to store what is in memory, which for a pass without failed requests is `k`. */
  ghost predicate Closes(w: World, w': World, k: Key) {
    k in w'.objects ==>
      && (|| w'.last == UpdateFailed
          || (w'.last == UpdateDone && Saved(w'))
          || (w'.last == ReadFailed && w'.mem.None?))
      && (w'.bill.requests == w.bill.requests ==> w'.last == UpdateDone && w'.mem.Some? && w'.mem.value.key == k)
  }

  /** Exact rollback: without annotations to start from, without a failed patch and with compensating calls failing only
      by EC2's rules, a pass completes the environment or leaves the account as it was. */
  ghost predicate RollsBack(w: World, w': World, k: Key) {
    LastAnn(w, k) == NO_ANNOTATIONS && LastAnn(w', k).subnet == NONE
    && w'.bill.patches == w.bill.patches && w'.bill.undo == w.bill.undo
    ==> w'.cloud.live == w.cloud.live && LastAnn(w', k).vpc !in w'.cloud.live
  }

  ghost predicate PassEffect(w: World, w': World, k: Key) {
    && Effect(w, w', k) && Winds(w, w', k) && Finishes(w, w', k) && Launches(w, w', k) && Copies(w, w', k)
    && RollsBack(w, w', k) && Judges(w, w', k)
  }

  /** The AWS environment could not be built: a call or an annotation patch failed, or EC2's rules or the region forbid
      it. */
  ghost predicate NotBuilt(w: World, w': World, k: Key) {
    && k in w.objects && w.objects[k].spec.driver == AWS_DRIVER
    && (w'.bill.calls > w.bill.calls || w'.bill.patches > w.bill.patches
        || !Buildable(w.cloud, w.objects[k].ann, w.objects[k].spec))
  }

  /** The auth secret is incomplete. */
  ghost predicate NoAuth(w: World, k: Key) {
    && w.mem.Some? && w.mem.value.key == k
    && AuthDataReady in w.mem.value.machine.status.conds && w.mem.value.machine.status.conds[AuthDataReady].False?
  }

  /** The copied file does not say 0. */
  ghost predicate Rejected(w: World, w': World) {
    && |w'.copies| > |w.copies| && w'.copies[|w.copies|].file.Some?
    && !FirstIntegerIs(w'.copies[|w.copies|].file.value.lines, 0)
  }

  /** Why a pass may report an error: a request or a command failed, the object went away, cleanup met a fault or a
      leftover, the environment could not be built, the secret is incomplete, or the script did not succeed. */
  ghost predicate Troubled(w: World, w': World, k: Key) {
    || w'.bill.requests > w.bill.requests || w'.bill.commands > w.bill.commands || k !in w'.objects
    || (Ending(w', k) && (w'.bill.undo > w.bill.undo || !Tidy(w.cloud, LastAnn(w, k))))
    || (!Ending(w, k) && (NotBuilt(w, w', k) || NoAuth(w', k) || Rejected(w, w')))
  }

  /** A pass without trouble does its work. */
  ghost predicate Progresses(w: World, w': World, k: Key) {
    !Troubled(w, w', k) ==> Served(w, w', k)
  }

  /** What a pass that reports success has achieved: nothing was left to do, or the first status is stored, or the
      Machine was let go, or it was launched and the outcome of a launch that worked has been looked for. */
  ghost predicate Served(w: World, w': World, k: Key) {
    k in w'.objects ==>
      && k in w.objects
      && var p, q := w.objects[k].status, w'.objects[k].status;
         if p.phase == Unset then q.phase != Unset
         else
           && !Ending(w, k) && Blocked(w', k)
           && (IsTrue(q.conds, MachineReady) ==> Polled(q.conds) && |w'.copies| > |w.copies|)
  }

  // ----- how the clauses combine -----

  /** EC2 and the annotations are untouched. */
  ghost predicate Quiet(w: World, w': World) {
    && w' == w.(objects := w'.objects, commits := w'.commits, mem := w'.mem, copies := w'.copies, bill := w'.bill,
                last := w'.last)
    && OnlyErrors(w.bill, w'.bill)
    && (forall j :: j in w.objects ==>
          if j in w'.objects then Evolves(w.objects[j], w'.objects[j]) && w'.objects[j].ann == w.objects[j].ann
          else !w.objects[j].finalizer)
    && (forall j :: j in w'.objects ==> j in w.objects)
    && History(w, w') && Verdicts(w, w')
  }

  /** The annotations of `k` stay as they are, and so do the resources as long as the environment is not complete. */
  ghost predicate Steady(w: World, w': World, k: Key) {
    && LastAnn(w', k) == LastAnn(w, k)
    && (LastAnn(w, k).subnet == NONE ==> w'.cloud.live == w.cloud.live)
    && w'.bill.patches == w.bill.patches && w'.bill.undo == w.bill.undo
  }

  lemma SteadyRollsBack(w: World, w': World, k: Key)
    requires WorldOk(w) && Steady(w, w', k)
    ensures RollsBack(w, w', k)
  {
    hide BooksOk, BasesOk, EnvsOk, AllGoneOk, AllBacked, LaunchOk;
    NoneIsDead(w.cloud);
  }

  lemma RollbackAfter(w: World, v: World, w': World, k: Key)
    requires Steady(w, v, k) && RollsBack(v, w', k)
    ensures RollsBack(w, w', k)
  {
    hide LastAnn;
  }

  lemma RollbackBefore(w: World, v: World, w': World, k: Key)
    requires RollsBack(w, v, k) && Steady(v, w', k)
    ensures RollsBack(w, w', k)
  {
    hide LastAnn;
  }

  lemma EvolvesPreorder(p: Machine, q: Machine, r: Machine)
    ensures Evolves(p, p)
    ensures Evolves(p, q) && Evolves(q, r) ==> Evolves(p, r)
  {
    ProgressPreorder(p.status.conds, q.status.conds, r.status.conds);
  }

  lemma StatusIsQuiet(w: World, w': World, j: Key)
    requires StatusOnly(w, w', j)
    ensures Quiet(w, w')
  {
    hide Verdicts;
    forall i | i in w.objects && i in w'.objects ensures Evolves(w.objects[i], w'.objects[i]) {
      EvolvesPreorder(w.objects[i], w.objects[i], w.objects[i]);
    }
  }

  lemma QuietKeepsAnn(w: World, w': World, k: Key)
    requires WorldOk(w) && Quiet(w, w')
    ensures LastAnn(w', k) == LastAnn(w, k)
  {
    assert k in w.objects ==> StoredOk(k, w.objects[k]);
  }

  lemma QuietIsSteady(w: World, w': World, k: Key)
    requires WorldOk(w) && Quiet(w, w')
    ensures Steady(w, w', k)
  {
    hide WorldOk;
    QuietKeepsAnn(w, w', k);
  }

  lemma StatusIsSteady(w: World, w': World, k: Key)
    requires WorldOk(w) && StatusOnly(w, w', k)
    ensures Steady(w, w', k)
  {
    hide WorldOk, StatusOnly, Steady, Quiet;
    StatusIsQuiet(w, w', k);
    QuietIsSteady(w, w', k);
  }

  lemma QuietIsEffect(w: World, w': World, k: Key)
    requires WorldOk(w) && Quiet(w, w')
    ensures Effect(w, w', k) && Winds(w, w', k)
  {
    hide Verdicts, BasesOk, CloudOk, EnvsOk, AllGoneOk, AllBacked, LaunchOk, CommitsOk, MemoryOk, StatusOk, Progress;
    QuietKeepsAnn(w, w', k);
    assert k in w.objects ==> StoredOk(k, w.objects[k]);
  }

  lemma ObjectsCompose(w: World, v: World, w': World, k: Key)
    requires ObjectsKept(w, v, k) && ObjectsKept(v, w', k) && Releases(v, w', k)
    ensures ObjectsKept(w, w', k)
  {
    hide Progress;
    forall j | j in w.objects && j in w'.objects ensures Evolves(w.objects[j], w'.objects[j]) {
      EvolvesPreorder(w.objects[j], v.objects[j], w'.objects[j]);
    }
  }

  lemma ReleasesCompose(w: World, v: World, w': World, k: Key)
    requires Releases(w, v, k) && Releases(v, w', k) && History(w, v) && History(v, w') && ObjectsKept(w, v, k)
    requires k in v.released ==> w'.cloud == v.cloud
    ensures Releases(w, w', k)
  {
    hide Evolves;
    forall n | |w.removed| <= n < |w'.removed| ensures w'.removed[n] == k {
      assert n < |v.removed| ==> w'.removed[n] == v.removed[n];
    }
  }

  lemma ConfinedCompose(w: World, v: World, w': World, k: Key)
    requires Confined(w, v, k) && Confined(v, w', k) && (k !in w.objects ==> k !in v.objects)
    ensures Confined(w, w', k)
  {
    hide Foreign;
  }

  lemma AccountsCompose(w: World, v: World, w': World, k: Key)
    requires Accounted(w, v, k) && Accounted(v, w', k)
    ensures Accounted(w, w', k)
  {
    hide Owed, LastAnn;
  }

  lemma ReleasedIsGone(w: World, k: Key)
    requires WorldOk(w) && k in w.released
    ensures k !in w.objects
  {}

  /** The effects of two parts of a pass add up. */
  lemma EffectCompose(w: World, v: World, w': World, k: Key)
    requires Effect(w, v, k) && Effect(v, w', k) && WorldOk(v)
    ensures Effect(w, w', k)
  {
    assert History(w, w') && (k !in w.objects ==> k !in v.objects) && (k !in v.objects ==> w'.cloud == v.cloud);
    hide WorldOk, ObjectsKept, Releases, Confined, Accounted, Verdicts;
    if k in v.released {
      ReleasedIsGone(v, k);
    }
    ObjectsCompose(w, v, w', k);
    ReleasesCompose(w, v, w', k);
    ConfinedCompose(w, v, w', k);
    AccountsCompose(w, v, w', k);
    VerdictsCompose(w, v, w');
  }

  lemma BlockedStays(w: World, w': World, k: Key)
    requires WorldOk(w) && Effect(w, w', k) && k in w'.objects
    ensures Blocked(w, k) ==> Blocked(w', k)
    ensures CreationHasFailed(w, k) ==> CreationHasFailed(w', k)
    ensures Ending(w, k) ==> Ending(w', k)
  {
  }

  /** A part of a creating pass. */
  lemma AdvanceEffect(w: World, w': World, k: Key, lost: set<Id>)
    requires WorldOk(w) && Advances(w, w', k) && w.copies <= w'.copies && w.removed <= w'.removed
    requires (forall n :: |w.removed| <= n < |w'.removed| ==> w'.removed[n] == k) && w.bill.releases <= w'.bill.releases
    requires ErrorsGrow(w.bill, w'.bill)
    requires Owed(w', k) <= Owed(w, k) + lost && FailedCalls(w.bill) + |lost| <= FailedCalls(w'.bill)
    requires w.bill.undo <= w'.bill.undo && w.bill.vpcs <= w'.bill.vpcs && w.bill.vpcPatches <= w'.bill.vpcPatches
    requires w'.bill.vpcs + OneIfSet(LastAnn(w, k).vpc) + w.bill.vpcPatches
             == w.bill.vpcs + OneIfSet(LastAnn(w', k).vpc) + w'.bill.vpcPatches
    requires Spent(w, k) ==> w'.cloud.born == w.cloud.born && Spent(w', k)
    ensures Effect(w, w', k)
  {
    hide Foreign, Owed, WorldOk, Progress, Verdicts, OthersRun;
    forall j | j in w.objects && j in w'.objects ensures Evolves(w.objects[j], w'.objects[j]) {
      EvolvesPreorder(w.objects[j], w.objects[j], w.objects[j]);
    }
    UnionSize(Owed(w, k), lost);
    SubsetSize(Owed(w', k), Owed(w, k) + lost);
  }

  /** The AWS calls and annotation patches of a pass, taken together. */
  lemma SagaEffect(w: World, w': World, k: Key, lost: set<Id>)
    requires WorldOk(w) && k in w.objects && w.objects[k].finalizer && w.objects[k].spec.driver == AWS_DRIVER
    requires w.mem.Some? && w'.mem.Some? && w.mem.value.key == k
    requires AnnotationsMove(w.objects, w'.objects, w.mem.value, w'.mem.value)
    requires w' == w.(cloud := w'.cloud, objects := w'.objects, mem := w'.mem, bill := w'.bill)
    requires var a, b := w.objects[k].ann, w'.objects[k].ann;
      && CloudOk(w'.cloud) && AnnOk(w'.cloud, k, b) && (b.subnet != NONE ==> EnvReady(w'.cloud, b))
      && (a.vpc != NONE ==> b.vpc == a.vpc)
      && (a.vpc != NONE && a.vpc !in w.cloud.live ==> w'.cloud == w.cloud)
      && Debts(w'.cloud, k, b) <= Debts(w.cloud, k, a) + lost
      && w'.bill.vpcs + OneIfSet(a.vpc) + w.bill.vpcPatches == w.bill.vpcs + OneIfSet(b.vpc) + w'.bill.vpcPatches
    requires Foreign(w'.cloud, k) == Foreign(w.cloud, k) && BornGrows(w.cloud, w'.cloud, k)
    requires w'.cloud.instances == w.cloud.instances
    requires FailedCalls(w.bill) + |lost| <= FailedCalls(w'.bill) && w.bill.undo <= w'.bill.undo
    requires w.bill.vpcs <= w'.bill.vpcs && w.bill.vpcPatches <= w'.bill.vpcPatches
    requires w'.bill.releases == w.bill.releases && ErrorsGrow(w.bill, w'.bill)
    ensures WorldOk(w') && Effect(w, w', k)
  {
    hide Debts, Foreign, CloudOk, EnvReady, AnnOk, BooksOk, EnvsOk, AllGoneOk, AllBacked, LaunchOk, BasesOk;
    hide Effect, Verdicts, BornGrows;
    SagaOk(w, w', k);
    AdvanceEffect(w, w', k, lost);
  }

  /** docker-machine adds groups and instances, which nobody's books list. */
  lemma PopulatedBooks(c: Cloud, d: Cloud, k: Key, p: Machine)
    requires CloudOk(c) && CloudOk(d) && Populated(c, d, k) && EnvOk(c, k, p)
    ensures EnvOk(d, k, p) && Debts(d, k, p.ann) <= Debts(c, k, p.ann)
  {
    var a := p.ann;
    NoneIsDead(d);
    if SomeSubnetIn(c, a.vpc) {
      var s :| IsSubnetIn(c, s, a.vpc);
      assert IsSubnetIn(d, s, a.vpc);
    }
    if EnvReady(c, a) {
      var t :| IsTableOf(c, t, a.vpc) && c.live[t].route == a.gateway;
      assert IsTableOf(d, t, a.vpc) && d.live[t].route == a.gateway;
    }
    forall id | id in c.live ensures Placed(c, id) {}
  }

  lemma VerdictsStay(w: World, w': World)
    requires w'.objects == w.objects && w'.commits == w.commits && w'.mem == w.mem && w'.copies == w.copies
    ensures Verdicts(w, w')
  {}

  lemma LaunchKeeps(w: World, w': World, k: Key, l: Launch)
    requires WorldOk(w) && k in w.objects && w.objects[k].finalizer
    requires w' == w.(cloud := w'.cloud, launches := w.launches + [l], bill := w'.bill) && OnlyErrors(w.bill, w'.bill)
    requires CloudOk(w'.cloud) && Populated(w.cloud, w'.cloud, k) && Foreign(w'.cloud, k) == Foreign(w.cloud, k)
    requires l.key == k && LaunchOk(w'.setup, l) && (Spent(w, k) ==> w'.cloud == w.cloud)
    ensures WorldOk(w') && Effect(w, w', k)
  {
    hide Foreign, CloudOk, ObjectsOk, CommitsOk, MemoryOk, BasesOk, LaunchOk, EnvOk, Debts, Progress, Verdicts;
    VerdictsStay(w, w');
    GroundsStay(w, w');
    PopulatedBooks(w.cloud, w'.cloud, k, w.objects[k]);
    EnvStep(w.cloud, w'.cloud, k, w.objects, w.objects, w.released, w.launches);
    EvolvesPreorder(w.objects[k], w.objects[k], w.objects[k]);
    AdvanceEffect(w, w', k, {});
    forall i | 0 <= i < |w'.launches|
      ensures Backed(w'.launches[i].key, w'.objects, w'.released) && LaunchOk(w'.setup, w'.launches[i])
    {
      assert i < |w.launches| ==> w'.launches[i] == w.launches[i];
    }
  }

  lemma NoGroundsNeeded(copies: seq<Copy>, launches: seq<Launch>, k: Key)
    ensures Grounded(copies, launches, k, EMPTY_STATUS)
  {}

  lemma StatusEffect(w: World, w': World, j: Key, k: Key)
    requires WorldOk(w) && StatusOnly(w, w', j)
    ensures Effect(w, w', k) && Winds(w, w', k)
  {
    StatusIsQuiet(w, w', j);
    QuietIsEffect(w, w', k);
  }

  /** Only the copy in memory changed. */
  lemma MemoryOnly(w: World, w': World, k: Key)
    requires WorldOk(w) && w' == w.(mem := w'.mem, bill := w'.bill) && OnlyErrors(w.bill, w'.bill)
    requires w'.mem.Some? ==> Traced(w, w'.mem.value.key, w'.mem.value.machine.status.basis)
    ensures StatusOnly(w, w', k) && Effect(w, w', k) && Winds(w, w', k)
  {
    StatusEffect(w, w', k, k);
  }

  lemma NothingHappens(w: World, k: Key)
    requires WorldOk(w)
    ensures Effect(w, w, k) && Winds(w, w, k) && RollsBack(w, w, k)
  {
    hide WorldOk, Effect, Winds, RollsBack;
    if w.mem.Some? {
      MemoryIsSound(w);
    }
    MemoryOnly(w, w, k);
    SteadyRollsBack(w, w, k);
  }

  lemma BillAside(w: World, w': World)
    requires WorldOk(w) && w' == w.(bill := w'.bill)
    ensures WorldOk(w')
  {
    hide CloudOk, ObjectsOk, CommitsOk, MemoryOk, EnvsOk, AllGoneOk, AllBacked, LaunchOk, Grounded;
  }

  lemma MemoryIsSound(w: World)
    requires WorldOk(w) && w.mem.Some?
    ensures StatusOk(w.mem.value.key.name, w.mem.value.machine)
    ensures Grounded(w.copies, w.launches, w.mem.value.key, w.mem.value.machine.status)
    ensures Traced(w, w.mem.value.key, w.mem.value.machine.status.basis)
  {}

  /** A status update keeps a launch on record. */
  lemma NotedStays(w: World, w': World, k: Key, l: Launch)
    requires WorldOk(w) && StatusOnly(w, w', k) && Noted(w, k, l)
    requires w'.mem.Some? && w'.mem.value.key == k
    requires SameButReady(w.mem.value.machine.status.conds, w'.mem.value.machine.status.conds)
    requires w'.commits == w.commits || (k in w'.objects && w'.mem.value.machine == w'.objects[k])
    ensures Noted(w', k, l)
  {
    hide Populated, Verdicts, BasesOk, CloudOk, EnvsOk, AllGoneOk, AllBacked, LaunchOk, CommitsOk, MemoryOk, StatusOk;
    assert k in w.objects ==> StoredOk(k, w.objects[k]);
  }

  /** Copying a file concerns nobody's books. */
  lemma CopyOk(w: World, w': World)
    requires WorldOk(w) && w' == w.(copies := w'.copies) && w.copies <= w'.copies
    ensures WorldOk(w')
  {
    hide CloudOk, ObjectsOk, CommitsOk, MemoryOk, EnvsOk, AllGoneOk, AllBacked, LaunchOk, BasesOk;
    GroundsStay(w, w');
  }

  /** What is known of the environment of the Machine in memory while its object is there. */
  lemma HeldEnvironment(w: World)
    requires WorldOk(w) && w.mem.Some? && w.mem.value.key in w.objects
    ensures var k, m := w.mem.value.key, w.mem.value.machine;
      && CloudOk(w.cloud) && AnnOk(w.cloud, k, m.ann) && (m.spec.driver != AWS_DRIVER ==> m.ann == NO_ANNOTATIONS)
      && m.spec == w.objects[k].spec && m.ann == w.objects[k].ann && (m.deleted ==> Ending(w, k))
  {
    assert EnvOk(w.cloud, w.mem.value.key, w.objects[w.mem.value.key]);
  }

  // ----- cleanup -----

  /** Instances do not matter to the books either. */
  lemma InstancesAside(c: Cloud, d: Cloud, k: Key, a: Annotations)
    requires d == c.(instances := d.instances)
    ensures Shrinks(d, d) && Debts(d, k, a) == Debts(c, k, a) && (AnnOk(c, k, a) ==> AnnOk(d, k, a))
    ensures Clean(d, a).live == Clean(c, a).live && (Tidy(c, a) <==> Tidy(d, a))
  {
    if SomeSubnetIn(c, a.vpc) {
      var s :| IsSubnetIn(c, s, a.vpc);
      assert IsSubnetIn(d, s, a.vpc);
    }
    assert Clean(d, a).live == Clean(c, a).live;
  }

  /** `rm` touches instances; what follows it shrinks the account towards its clean state. */
  lemma CleanupEffect(w: World, mid: Cloud, w': World, k: Key, lost: set<Id>)
    requires WorldOk(w) && w.mem.Some? && w.mem.value.key == k && Ending(w, k) && w.objects[k].finalizer
    requires w.mem.value.machine.ann == w.objects[k].ann
    requires w' == w.(cloud := w'.cloud, removed := w'.removed, bill := w'.bill)
    requires mid == w.cloud.(instances := mid.instances) && CloudOk(w'.cloud) && Shrinks(mid, w'.cloud)
    requires AnnOk(w'.cloud, k, w.objects[k].ann) && Foreign(w'.cloud, k) == Foreign(w.cloud, k)
    requires Debts(w'.cloud, k, w.objects[k].ann) <= Debts(mid, k, w.objects[k].ann) + lost
      && FailedCalls(w.bill) + |lost| <= FailedCalls(w'.bill)
    requires w.bill.undo <= w'.bill.undo && w'.bill.vpcs == w.bill.vpcs && w'.bill.vpcPatches == w.bill.vpcPatches
    requires w'.bill.releases == w.bill.releases && ErrorsGrow(w.bill, w'.bill)
    requires (w'.removed == w.removed || w'.removed == w.removed + [k])
    requires OthersRun(w.cloud, mid, k)
    ensures WorldOk(w') && Effect(w, w', k)
  {
    hide Foreign, CloudOk, AnnOk, EnvReady, ObjectsOk, CommitsOk, AllGoneOk, AllBacked, LaunchOk, StatusOk, Progress;
    hide Effect;
    hide BasesOk, Verdicts, Debts;
    assert EnvOk(w.cloud, k, w.objects[k]);
    InstancesAside(w.cloud, mid, k, w.objects[k].ann);
    SagaOk(w, w', k);
    AdvanceEffect(w, w', k, lost);
  }

  /** Cleanup neither adds leftovers nor removes those it does not reach. */
  lemma TidyStays(c: Cloud, mid: Cloud, d: Cloud, a: Annotations)
    requires CloudOk(c) && mid == c.(instances := mid.instances) && Shrinks(mid, d)
      && Clean(d, a).live == Clean(c, a).live
    ensures Tidy(c, a) <==> Tidy(d, a)
  {
    NoneIsDead(c);
    forall id | id in c.live && a.vpc != NONE && (c.live[id] == Subnet(a.vpc) || c.live[id] == Gateway(a.vpc))
      && id !in Names(a)
      ensures id in d.live && d.live[id] == c.live[id]
    {
      assert id in Clean(c, a).live;
      assert Clean(d, a).live[id] == d.live[id];
    }
  }

  /** Cleaning up when nothing is recorded takes nothing away. */
  lemma EndingRollsBack(w: World, w': World, k: Key)
    requires WorldOk(w) && WorldOk(w') && Ending(w, k) && Winds(w, w', k)
    ensures RollsBack(w, w', k)
  {
    hide BooksOk, BasesOk, EnvsOk, AllGoneOk, AllBacked, LaunchOk, Clean, Tidy, CleansUp;
    if LastAnn(w, k) == NO_ANNOTATIONS {
      CleanBlank(w.cloud);
      CleanBlank(w'.cloud);
    }
  }

  lemma CleanBlank(c: Cloud)
    requires CloudOk(c)
    ensures NONE !in c.live && Clean(c, NO_ANNOTATIONS).live == c.live
  {
    NoneIsDead(c);
    DeadVpcIsEmpty(c, NONE);
  }

  /** Once `rm` has succeeded, the recorded subnet is vacant and only leftovers are in the way of cleanup. */
  lemma RemovedIsReady(c: Cloud, k: Key, a: Annotations)
    requires CloudOk(c) && AnnOk(c, k, a) && k.name !in c.instances
    ensures CleanReady(c, a) <==> Tidy(c, a)
  {
    CleanReadyMeaning(c, k, a);
    NoneIsDead(c);
  }

  /** A leftover keeps the VPC alive. */
  lemma UntidyIsAlive(c: Cloud, a: Annotations)
    requires CloudOk(c) && !Tidy(c, a)
    ensures a.vpc != NONE && IsVpc(c, a.vpc)
  {
    var id :| id in c.live && a.vpc != NONE && (c.live[id] == Subnet(a.vpc) || c.live[id] == Gateway(a.vpc))
              && id !in Names(a);
    assert Placed(c, id);
  }

  lemma ShrinksKeys(c: Cloud, d: Cloud)
    requires Shrinks(c, d)
    ensures d.live.Keys <= c.live.Keys && d.born == c.born && d.instances == c.instances
  {}

  lemma CleanupWinds(w: World, mid: Cloud, w': World, k: Key, lost: set<Id>)
    requires WorldOk(w) && w.mem.Some? && w.mem.value.key == k && Ending(w, k) && w.objects[k].finalizer
    requires w.mem.value.machine.ann == w.objects[k].ann
    requires w' == w.(cloud := w'.cloud, removed := w'.removed, bill := w'.bill)
    requires mid == w.cloud.(instances := mid.instances) && CloudOk(w'.cloud) && Shrinks(mid, w'.cloud)
    requires AnnOk(w'.cloud, k, w.objects[k].ann) && Foreign(w'.cloud, k) == Foreign(w.cloud, k)
    requires Debts(w'.cloud, k, w.objects[k].ann) <= Debts(mid, k, w.objects[k].ann) + lost
    requires FailedCalls(w.bill) + |lost| <= FailedCalls(w'.bill)
    requires w.bill.undo <= w'.bill.undo && w'.bill.vpcs == w.bill.vpcs && w'.bill.vpcPatches == w.bill.vpcPatches
    requires w'.bill.releases == w.bill.releases && ErrorsGrow(w.bill, w'.bill)
    requires w'.removed == w.removed || w'.removed == w.removed + [k]
    requires OthersRun(w.cloud, mid, k)
    requires Clean(w'.cloud, w.objects[k].ann).live == Clean(mid, w.objects[k].ann).live
    requires CleansUp(w, w', k) ==> w'.cloud.live == Clean(mid, w.objects[k].ann).live
    ensures WorldOk(w') && Effect(w, w', k) && Winds(w, w', k)
  {
    CleanupEffect(w, mid, w', k, lost);
    InstancesAside(w.cloud, mid, k, w.objects[k].ann);
    ShrinksKeys(mid, w'.cloud);
    assert CloudOk(w.cloud);
    hide WorldOk, Effect, CloudOk, Clean, Tidy, Shrinks, CleansUp;
    TidyStays(w.cloud, mid, w'.cloud, w.objects[k].ann);
  }

  // ----- winding down, step by step -----

  /** The finalizer could not be removed. */
  lemma FailedRelease(w: World, v: World, w': World, k: Key)
    requires Effect(w, v, k) && WorldOk(v)
    requires w' == v.(bill := v.bill.(releases := v.bill.releases + 1, requests := v.bill.requests + 1),
                      last := w'.last)
    ensures WorldOk(w') && Effect(w, w', k)
  {
    hide CloudOk, ObjectsOk, CommitsOk, MemoryOk, EnvsOk, AllGoneOk, AllBacked, LaunchOk, Grounded;
    hide Evolves, Foreign, Debts, BornGrows, OthersRun, Traced;
  }

  lemma WindsAfter(w: World, v: World, w': World, k: Key)
    requires WorldOk(w) && StatusOnly(w, v, k) && Winds(v, w', k)
    ensures Winds(w, w', k)
  {
    assert k in w.objects ==> StoredOk(k, w.objects[k]);
  }

  lemma NothingFinishes(w: World, w': World, k: Key)
    requires w'.removed == w.removed
    ensures Finishes(w, w', k)
  {}

  lemma FinishesAfter(w: World, v: World, w': World, k: Key)
    requires WorldOk(w) && StatusOnly(w, v, k) && Finishes(v, w', k)
    ensures Finishes(w, w', k)
  {
    hide WorldOk, Verdicts, Tidy;
    StatusKeepsMarks(w, v, k);
    StatusIsQuiet(w, v, k);
    QuietKeepsAnn(w, v, k);
  }

  lemma WindsBefore(w: World, v: World, w': World, k: Key)
    requires Winds(w, v, k) && w'.cloud == v.cloud && w'.removed == v.removed && LastAnn(w', k) == LastAnn(v, k)
    requires w'.bill == v.bill.(releases := w'.bill.releases, requests := w'.bill.requests)
    requires k in w'.objects && Ending(w, k) ==> w'.objects[k].deleted
    ensures Winds(w, w', k)
  {
  }

  /** The object of `k` is gone with its finalizer. */
  ghost predicate LetsGo(v: World, w': World, k: Key) {
    && Ending(v, k) && v.objects[k].finalizer && v.objects[k].ann.vpc !in v.cloud.live
    && w' == v.(objects := v.objects - {k}, released := v.released[k := v.objects[k].ann],
                mem := Some(Loaded(k, v.objects[k].(finalizer := false))), last := w'.last)
  }

  lemma LetGoTrace(v: World, w': World, k: Key)
    requires LetsGo(v, w', k) && BasesOk(v)
    ensures BasesOk(w') && Verdicts(v, w')
  {
    hide Worked, Broke;
  }

  lemma LetGoOk(v: World, w': World, k: Key)
    requires WorldOk(v) && LetsGo(v, w', k) && BooksOk(w')
    ensures WorldOk(w') && k !in v.released && Verdicts(v, w')
  {
    hide Foreign, CloudOk, BooksOk, LaunchOk, EnvReady, BasesOk, Verdicts;
    LetGoTrace(v, w', k);
    assert k !in v.released;
    assert EnvOk(v.cloud, k, v.objects[k]);
    forall id | id in w'.cloud.born ensures Backed(w'.cloud.born[id].owner, w'.objects, w'.released) {
      assert Backed(v.cloud.born[id].owner, v.objects, v.released);
    }
    forall i | 0 <= i < |w'.launches| ensures Backed(w'.launches[i].key, w'.objects, w'.released) {
      assert Backed(v.launches[i].key, v.objects, v.released);
    }
  }

  /** Letting go of a Machine whose docker machine was removed and whose VPC is gone. */
  lemma ReleaseOk(w: World, v: World, w': World, k: Key)
    requires WorldOk(v) && Effect(w, v, k) && Winds(w, v, k) && |v.removed| > |w.removed|
    requires LetsGo(v, w', k) && BooksOk(w')
    ensures WorldOk(w') && Effect(w, w', k) && Winds(w, w', k)
  {
    hide WorldOk, BooksOk, Foreign, Debts, Evolves, BornGrows, Verdicts, OthersRun;
    LetGoOk(v, w', k);
    WindsBefore(w, v, w', k);
    VerdictsCompose(w, v, w');
  }

  // ----- the beginning of a pass -----

  /** Objects with the same verdicts or none, and memory kept or loaded from them. */
  lemma KeptTrace(w: World, v: World)
    requires v.commits == w.commits && v.copies == w.copies && v.launches == w.launches
    requires forall j :: j in v.objects ==>
      v.objects[j].status == EMPTY_STATUS || (j in w.objects && v.objects[j].status == w.objects[j].status)
    requires v.mem == w.mem
      || (v.mem.Some? && v.mem.value.key in v.objects && v.mem.value.machine == v.objects[v.mem.value.key])
    ensures Verdicts(w, v) && (BasesOk(w) ==> BasesOk(v))
  {
    hide Worked, Broke;
  }

  /** A read, during which the user may act, and which may replace the copy in memory. */
  lemma ReadOk(w: World, v: World, k: Key)
    requires WorldOk(w) && v == w.(objects := v.objects, mem := v.mem, bill := v.bill, last := v.last)
    requires OnlyErrors(w.bill, v.bill)
    requires UserActs(w.objects, v.objects, k)
    requires v.mem == w.mem || (k in v.objects && v.mem == Some(Loaded(k, v.objects[k])))
    ensures WorldOk(v) && StatusOnly(w, v, k) && PassEffect(w, v, k)
  {
    hide CloudOk, EnvsOk, AllGoneOk, AllBacked, LaunchOk, StatusOk, Effect, Winds, CommitsOk;
    UserKeeps(w.objects, v.objects, k, w.commits);
    MemoryStays(w, v, k);
    KeptTrace(w, v);
    hide BasesOk, Verdicts;
    if v.mem != w.mem {
      assert StoredOk(k, v.objects[k]);
      ProgressPreorder(v.objects[k].status.conds, v.objects[k].status.conds, v.objects[k].status.conds);
    }
    StatusOnlyOk(w, v, k);
    StatusEffect(w, v, k, k);
    StatusIsSteady(w, v, k);
    SteadyRollsBack(w, v, k);
  }

  lemma MemoryStays(w: World, v: World, k: Key)
    requires WorldOk(w) && UserActs(w.objects, v.objects, k)
    ensures MemoryOk(v.objects, w.mem)
  {
  }

  lemma PassAfterRead(w: World, v: World, w': World, k: Key)
    requires WorldOk(w) && WorldOk(v) && StatusOnly(w, v, k) && v.commits == w.commits && PassEffect(v, w', k)
    ensures PassEffect(w, w', k)
  {
    hide WorldOk, Winds, Finishes, Noted, RollsBack, Steady, VerdictOf;
    EffectErrors(v, w', k);
    hide Effect;
    StatusEffect(w, v, k, k);
    EffectCompose(w, v, w', k);
    WindsAfter(w, v, w', k);
    FinishesAfter(w, v, w', k);
    StatusKeepsMarks(w, v, k);
    StatusIsSteady(w, v, k);
    RollbackAfter(w, v, w', k);
  }

  lemma StatusKeepsMarks(w: World, v: World, k: Key)
    requires WorldOk(w) && StatusOnly(w, v, k)
    ensures Blocked(w, k) ==> Blocked(v, k)
    ensures CreationHasFailed(w, k) ==> CreationHasFailed(v, k)
    ensures Ending(w, k) ==> Ending(v, k)
  {
    assert k in w.objects ==> StoredOk(k, w.objects[k]);
  }

  lemma StoredIsOk(w: World, k: Key)
    requires WorldOk(w) && k in w.objects
    ensures StoredOk(k, w.objects[k]) && BasesOk(w)
  {}

  lemma EndingIsHeld(w: World, k: Key)
    requires WorldOk(w) && Ending(w, k)
    ensures w.objects[k].finalizer
  {
    assert StoredOk(k, w.objects[k]);
  }

  lemma LooseIsBlank(w: World, k: Key)
    requires WorldOk(w) && k in w.objects && !w.objects[k].finalizer
    ensures w.objects[k].ann == NO_ANNOTATIONS
  {
    assert StoredOk(k, w.objects[k]);
  }

  /** The finalizer of `k` was there, or was added to the object or to a new one made from the copy in memory. */
  ghost predicate Finalized(w: World, w': World, k: Key) {
    && k in w.objects && k in w'.objects
    && w' == w.(objects := w.objects[k := w'.objects[k]], mem := w'.mem, last := w'.last)
    && (var p, q := w.objects[k], w'.objects[k];
        if p.finalizer then q == p
        else
          && q.finalizer && q.spec == p.spec && q.ann == p.ann
          && q.status.conds == map[] && q.status in {p.status, EMPTY_STATUS})
    && (w'.mem == w.mem || w'.mem == Some(Loaded(k, w'.objects[k])))
  }

  lemma FinalizedIsQuiet(w: World, w': World, k: Key)
    requires WorldOk(w) && Finalized(w, w', k)
    ensures Quiet(w, w') && BasesOk(w')
  {
    hide WorldOk, BasesOk, Verdicts;
    assert BasesOk(w) && StoredOk(k, w.objects[k]) by { StoredIsOk(w, k); }
    hide StatusOk, Settled;
    KeptTrace(w, w');
    forall j | j in w.objects ensures Evolves(w.objects[j], w'.objects[j]) {
      EvolvesPreorder(w.objects[j], w.objects[j], w.objects[j]);
    }
  }

  lemma FinalizedStep(c: Cloud, k: Key, o: Objects, q: Machine, released: map<Key, Annotations>, launches: seq<Launch>)
    requires EnvsOk(c, o) && AllGoneOk(c, o, released) && AllBacked(c, launches, o, released)
    requires k in o && q.finalizer && q.spec == o[k].spec && q.ann == o[k].ann
    requires if o[k].finalizer then q == o[k] else q.ann == NO_ANNOTATIONS
    ensures var p := o[k := q]; EnvsOk(c, p) && AllGoneOk(c, p, released) && AllBacked(c, launches, p, released)
  {
    hide EnvReady, AnnOk, GoneOk;
    var p := o[k := q];
    assert EnvOk(c, k, o[k]);
    forall id | id in c.born ensures Backed(c.born[id].owner, p, released) {
      assert Backed(c.born[id].owner, o, released);
    }
    forall i | 0 <= i < |launches| ensures Backed(launches[i].key, p, released) {
      assert Backed(launches[i].key, o, released);
    }
  }

  lemma FinalizedOk(w: World, w': World, k: Key)
    requires WorldOk(w) && Finalized(w, w', k) && BooksOk(w')
    ensures WorldOk(w') && Quiet(w, w')
  {
    hide CloudOk, LaunchOk, BooksOk, EnvsOk, AllGoneOk, AllBacked, BasesOk, Quiet;
    FinalizedIsQuiet(w, w', k);
    if !w.objects[k].finalizer {
      LooseIsBlank(w, k);
    }
    FinalizedStep(w.cloud, k, w.objects, w'.objects[k], w.released, w.launches);
  }

  lemma CopyIsQuiet(w: World, w': World)
    requires w' == w.(mem := w'.mem, copies := w'.copies, bill := w'.bill) && w.copies <= w'.copies
    requires OnlyErrors(w.bill, w'.bill)
    requires w'.mem.Some? ==> Traced(w, w'.mem.value.key, w'.mem.value.machine.status.basis)
    ensures Quiet(w, w')
  {
    forall i | i in w.objects ensures Evolves(w.objects[i], w.objects[i]) {
      EvolvesPreorder(w.objects[i], w.objects[i], w.objects[i]);
    }
  }

  lemma CopyKeepsNoted(w: World, w': World, k: Key, l: Launch)
    requires w' == w.(mem := w'.mem, copies := w'.copies, bill := w'.bill) && Noted(w, k, l)
    requires w.mem.Some? && w'.mem.Some? && w'.mem.value.key == w.mem.value.key
    requires var c, d := w.mem.value.machine.status.conds, w'.mem.value.machine.status.conds;
      && (IsTrue(c, MachineCreating) ==> IsTrue(d, MachineCreating))
      && (MachineReady in c ==> MachineReady in d && d[MachineReady] == c[MachineReady])
    ensures Noted(w', k, l)
  {
  }

  lemma TroubledAfter(w: World, v: World, w': World, k: Key)
    requires WorldOk(w) && StatusOnly(w, v, k) && Troubled(v, w', k)
    ensures Troubled(w, w', k)
  {
    hide WorldOk, Tidy, Verdicts, Buildable, FirstIntegerIs, Progress;
    StatusIsQuiet(w, v, k);
    QuietKeepsAnn(w, v, k);
    StatusKeepsMarks(w, v, k);
  }

  lemma NotedIsThere(w: World, k: Key, l: Launch)
    requires Noted(w, k, l)
    ensures k in w.objects
  {}

  lemma MemoryKeepsAnn(w: World, w': World, k: Key)
    requires w' == w.(mem := w'.mem)
    ensures LastAnn(w', k) == LastAnn(w, k)
  {}

  lemma NotBuiltAfter(w: World, v: World, w': World, k: Key)
    requires StatusOnly(w, v, k) && NotBuilt(v, w', k)
    ensures NotBuilt(w, w', k)
  {
    hide Buildable, Verdicts, Progress;
  }

  /** A request that failed, or an object that went away, explains an error. */
  lemma RequestTrouble(w: World, w': World, k: Key)
    requires w'.bill.requests > w.bill.requests || k !in w'.objects
    ensures Troubled(w, w', k)
  {}

  /** Why `createMachine` may fail, seen from the beginning of the pass. */
  ghost predicate Failing(w: World, w': World, k: Key) {
    || w'.bill.requests > w.bill.requests || w'.bill.commands > w.bill.commands
    || NotBuilt(w, w', k) || NoAuth(w', k)
  }

  lemma FailureExplained(w: World, v: World, w': World, k: Key)
    requires Quiet(w, v) && k in w.objects && k in v.objects && Failing(v, w', k)
    ensures Failing(w, w', k)
  {
    hide Buildable, Verdicts;
  }

  /** It still explains the error after one more update. */
  lemma FailureStands(w: World, v: World, w': World, k: Key)
    requires Failing(w, v, k) && OnlyErrors(v.bill, w'.bill)
    requires v.mem.Some? && w'.mem.Some? && v.mem.value.key == k && w'.mem.value.key == k
    requires SameButReady(v.mem.value.machine.status.conds, w'.mem.value.machine.status.conds)
    ensures Failing(w, w', k)
  {
    hide Buildable;
  }

  /** A request or a command that fails later is a failure as well. */
  lemma FailingLater(w: World, v: World, w': World, k: Key)
    requires ErrorsGrow(w.bill, v.bill)
    ensures w'.bill.requests > v.bill.requests || w'.bill.commands > v.bill.commands ==> Failing(w, w', k)
  {
    hide NotBuilt;
  }

  /** A file that was read to the verdict leaves memory judged. */
  lemma JudgesStays(w: World, v: World, w': World, k: Key)
    requires Judges(w, v, k) && w'.copies == v.copies && w'.bill.unread == v.bill.unread
    requires v.mem.Some? && w'.mem.Some? && w'.mem.value.key == v.mem.value.key
    requires SameButReady(v.mem.value.machine.status.conds, w'.mem.value.machine.status.conds)
    requires w'.mem.value.machine.status.basis == v.mem.value.machine.status.basis
    ensures Judges(w, w', k)
  {
    hide FirstIntegerIs;
  }

  lemma EffectErrors(w: World, w': World, k: Key)
    requires Effect(w, w', k)
    ensures ErrorsGrow(w.bill, w'.bill) && w.bill.undo <= w'.bill.undo && w.copies <= w'.copies
  {}

  lemma TroubledBefore(w: World, v: World, w': World, k: Key)
    requires Troubled(w, v, k) && Effect(v, w', k) && Ending(w, k)
    ensures Troubled(w, w', k)
  {
    hide Tidy, Owed, Foreign, Verdicts;
  }

  /** The guard of `isScriptFinished` rules out a machine whose creation has failed. */
  lemma CopyAllowed(w: World, v: World, k: Key)
    requires WorldOk(w) && WorldOk(v) && Effect(w, v, k) && v.removed == w.removed
    requires v.mem.Some? && v.mem.value.key == k
    ensures IsTrue(v.mem.value.machine.status.conds, MachineReady) ==> !CreationHasFailed(w, k)
  {
    hide Foreign, CloudOk, CommitsOk, EnvsOk, GoneOk, AllBacked, LaunchOk, Accounted, Confined, BasesOk, Verdicts;
    assert k in w.objects ==> StoredOk(k, w.objects[k]);
  }
}