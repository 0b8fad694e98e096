/** What holds over every run. */
module Theorems {
  import opened Wrappers
  import opened Cloud
  import opened Machines
  import opened ScriptResult
  import opened Store
  import opened Sessions
  import opened Environment
  import opened Hosts
  import opened Arguments
  import opened Worlds
  import opened Passes
  import opened Runs

  lemma StepAt(run: Run, i: nat)
    requires IsRun(run) && i < |run.steps|
    ensures WorldOk(At(run, i)) && WorldOk(At(run, i + 1))
    ensures StepOk(At(run, i), run.steps[i].event, At(run, i + 1))
    ensures forall k :: run.steps[i].event != Pass(k) ==> Idle(At(run, i), At(run, i + 1), k)
  {
    hide WorldOk, StepOk, Idle;
    RunOk(run, i);
    RunOk(run, i + 1);
    assert GoesOn(run, i);
    forall k | run.steps[i].event != Pass(k) ensures Idle(At(run, i), At(run, i + 1), k) {
      OthersIdle(At(run, i), run.steps[i].event, At(run, i + 1), k);
    }
  }

  lemma PassOf(w: World, w': World, k: Key)
    requires WorldOk(w) && StepOk(w, Pass(k), w')
    ensures PassEffect(w, w', k) && Closes(w, w', k) && Progresses(w, w', k)
    ensures Effect(w, w', k) && Accounted(w, w', k) && Confined(w, w', k)
  {}

  // ----- accounting -----

  /** What the passes for `k` among the first `i` steps added to a counter. */
  function Charged(run: Run, i: nat, k: Key, counter: Bill -> nat): int
    requires i <= |run.steps|
  {
    if i == 0 then 0
    else
      Charged(run, i - 1, k, counter)
      + if run.steps[i - 1].event == Pass(k) then counter(At(run, i).bill) - counter(At(run, i - 1).bill) else 0
  }

  function VpcsMade(b: Bill): nat { b.vpcs }
  function FailedVpcPatches(b: Bill): nat { b.vpcPatches }

  lemma OwedByShare(w: World, w': World, k: Key)
    requires Idle(w, w', k)
    ensures Owed(w', k) == Owed(w, k)
  {
    var a := LastAnn(w, k);
    forall id
      ensures id in w.cloud.live && Mine(w.cloud, k, id) <==> id in Share(w.cloud, k)
      ensures id in w'.cloud.live && Mine(w'.cloud, k, id) <==> id in Share(w'.cloud, k)
    {
    }
    assert forall id :: id in Share(w.cloud, k) ==> w.cloud.live[id] == w'.cloud.live[id];
  }

  lemma NothingOwed(setup: Setup, k: Key)
    ensures Owed(Start(setup), k) == {}
  {}

  /** Leak accounting: what is live but unrecorded was paid for, one by one, by failed annotation patches
      and failed deletes of subnets and gateways. */
  lemma {:induction false} LeakAccounting(run: Run, i: nat, k: Key)
    requires IsRun(run) && i <= |run.steps|
    ensures |Owed(At(run, i), k)| <= Charged(run, i, k, FailedCalls)
    ensures |Unrecorded(At(run, i).cloud, k, LastAnn(At(run, i), k))| <= Charged(run, i, k, FailedCalls)
  {
    hide WorldOk, StepOk, PassEffect, Effect, Confined, Debts, Unrecorded;
    UnrecordedAreDebts(At(run, i).cloud, k, LastAnn(At(run, i), k));
    if i == 0 {
      NothingOwed(run.setup, k);
    } else {
      LeakAccounting(run, i - 1, k);
      StepAt(run, i - 1);
      if run.steps[i - 1].event == Pass(k) {
        PassOf(At(run, i - 1), At(run, i), k);
      } else {
        OwedByShare(At(run, i - 1), At(run, i), k);
      }
    }
  }

  /** VPC count: one VPC per Machine, and one more for every patch that failed to record one. */
  lemma {:induction false} VpcCount(run: Run, i: nat, k: Key)
    requires IsRun(run) && i <= |run.steps|
    ensures Charged(run, i, k, VpcsMade) <= OneIfSet(LastAnn(At(run, i), k).vpc) + Charged(run, i, k, FailedVpcPatches)
    ensures Charged(run, i, k, VpcsMade) <= 1 + Charged(run, i, k, FailedVpcPatches)
  {
    hide WorldOk, StepOk, PassEffect, Effect, Confined, Owed;
    if i > 0 {
      VpcCount(run, i - 1, k);
      StepAt(run, i - 1);
      if run.steps[i - 1].event == Pass(k) {
        PassOf(At(run, i - 1), At(run, i), k);
      }
    }
  }

  lemma SpentStays(run: Run, i: nat, k: Key)
    requires IsRun(run) && i < |run.steps| && Spent(At(run, i), k)
    ensures Spent(At(run, i + 1), k)
    ensures forall id :: Mine(At(run, i + 1).cloud, k, id) ==> Mine(At(run, i).cloud, k, id)
  {
    hide CloudOk, ObjectsOk, CommitsOk, MemoryOk, AllBacked, LaunchOk, Winds, Launches, Copies, Accounted;
    StepAt(run, i);
    var w, w' := At(run, i), At(run, i + 1);
    var v := LastAnn(w, k).vpc;
    if run.steps[i].event == Pass(k) {
      PassOf(w, w', k);
    } else {
      assert Idle(w, w', k);
      assert Mine(w.cloud, k, v);
      assert v in w'.cloud.live ==> v in Share(w'.cloud, k);
    }
  }

  /** Once the recorded VPC is gone, by a completed rollback or by cleanup, no pass creates anything for `k` again. */
  lemma {:induction false} NoCreationAfterRollback(run: Run, i: nat, j: nat, k: Key)
    requires IsRun(run) && i <= j <= |run.steps| && Spent(At(run, i), k)
    ensures Spent(At(run, j), k)
    ensures forall id :: Mine(At(run, j).cloud, k, id) ==> Mine(At(run, i).cloud, k, id)
    decreases j
  {
    hide StepOk, Spent;
    if i < j {
      NoCreationAfterRollback(run, i, j - 1, k);
      SpentStays(run, j - 1, k);
    }
  }

  /** Exact rollback: a pass that starts without annotations, has no failed patch and no compensating call failing
      against EC2's rules, and does not complete the environment, leaves the whole account as it was. If it recorded a
      VPC, that VPC is gone. */
  lemma ExactRollback(run: Run, i: nat, k: Key)
    requires IsRun(run) && i < |run.steps| && run.steps[i].event == Pass(k)
    requires LastAnn(At(run, i), k) == NO_ANNOTATIONS && LastAnn(At(run, i + 1), k).subnet == NONE
    requires At(run, i + 1).bill.patches == At(run, i).bill.patches && At(run, i + 1).bill.undo == At(run, i).bill.undo
    ensures At(run, i + 1).cloud.live == At(run, i).cloud.live
    ensures LastAnn(At(run, i + 1), k).vpc != NONE ==> Spent(At(run, i + 1), k)
  {
    hide WorldOk, StepOk, Effect, Winds, Finishes, Launches, Copies, Accounted, Confined, Idle, LastAnn;
    StepAt(run, i);
    PassOf(At(run, i), At(run, i + 1), k);
  }

  // ----- launches -----

  function LaunchesOf(s: seq<Launch>, k: Key): nat {
    if s == [] then 0 else LaunchesOf(s[..|s| - 1], k) + if s[|s| - 1].key == k then 1 else 0
  }

  /** Step `i` is a pass for `k` that ran create, and every status update in it after that failed, up to the last
      one. */
  predicate LostLaunch(run: Run, i: nat, k: Key)
    requires i < |run.steps|
  {
    && run.steps[i].event == Pass(k)
    && |At(run, i + 1).launches| > |At(run, i).launches|
    && |At(run, i + 1).commits| == At(run, i + 1).launches[|At(run, i).launches|].commitsBefore
    && At(run, i + 1).last == UpdateFailed && At(run, i + 1).bill.requests > At(run, i).bill.requests
  }

  function LostLaunches(run: Run, i: nat, k: Key): nat
    requires i <= |run.steps|
  {
    if i == 0 then 0 else LostLaunches(run, i - 1, k) + if LostLaunch(run, i - 1, k) then 1 else 0
  }

  /** What the launch guard can rely on from now on. */
  ghost predicate Barred(w: World, k: Key) { Blocked(w, k) || k in w.released }

  lemma OneMoreLaunch(w: World, w': World, k: Key)
    requires WorldOk(w) && WorldOk(w') && PassEffect(w, w', k) && Closes(w, w', k)
    ensures LaunchesOf(w'.launches, k) == LaunchesOf(w.launches, k) + |w'.launches| - |w.launches|
      && |w'.launches| >= |w.launches|
    ensures |w'.launches| > |w.launches| ==>
      && |w'.launches| == |w.launches| + 1 && !Barred(w, k)
      && (Barred(w', k)
          || (w'.last == UpdateFailed && w'.bill.requests > w.bill.requests
              && |w'.commits| == w'.launches[|w.launches|].commitsBefore))
    ensures Barred(w, k) ==> Barred(w', k)
  {
    hide CloudOk, CommitsOk, MemoryOk, AllBacked, LaunchOk, EnvsOk, GoneOk, Winds, Finishes, Copies, Judges;
    hide Confined, Owed, Populated, BasesOk, Verdicts;
    assert k in w.objects ==> StoredOk(k, w.objects[k]);
    if w'.launches != w.launches {
      var s := w'.launches;
      assert s[..|s| - 1] == w.launches;
    }
  }

  lemma OthersLaunch(w: World, e: Event, w': World, k: Key)
    requires WorldOk(w) && StepOk(w, e, w') && e != Pass(k)
    ensures LaunchesOf(w'.launches, k) == LaunchesOf(w.launches, k)
  {
    hide WorldOk, Winds, Copies, Accounted, Confined, ObjectsKept, Releases, Judges, Closes, Progresses, Populated;
    if w'.launches != w.launches {
      var s := w'.launches;
      assert s[..|s| - 1] == w.launches;
    }
  }

  /** Launch count: at most one, plus one for every pass whose later status updates all failed. */
  lemma {:induction false} LaunchCount(run: Run, i: nat, k: Key)
    requires IsRun(run) && i <= |run.steps|
    ensures LaunchesOf(At(run, i).launches, k) <= (if Barred(At(run, i), k) then 1 else 0) + LostLaunches(run, i, k)
    ensures LaunchesOf(At(run, i).launches, k) <= 1 + LostLaunches(run, i, k)
  {
    hide WorldOk, StepOk, PassEffect, LaunchesOf;
    if i == 0 {
      assert LaunchesOf(Start(run.setup).launches, k) == 0 by { NoLaunches(k); }
    } else {
      LaunchCount(run, i - 1, k);
      StepAt(run, i - 1);
      var w, w' := At(run, i - 1), At(run, i);
      if run.steps[i - 1].event == Pass(k) {
        PassOf(w, w', k);
        OneMoreLaunch(w, w', k);
      } else {
        OthersLaunch(w, run.steps[i - 1].event, w', k);
      }
    }
  }

  lemma NoLaunches(k: Key)
    ensures LaunchesOf([], k) == 0
  {}

  /** A committed MachineCreating or MachineReady blocks all further launches. */
  lemma {:induction false} BarredForGood(run: Run, i: nat, j: nat, k: Key)
    requires IsRun(run) && i <= j <= |run.steps| && Barred(At(run, i), k)
    ensures Barred(At(run, j), k) && LaunchesOf(At(run, j).launches, k) == LaunchesOf(At(run, i).launches, k)
    decreases j
  {
    hide WorldOk, StepOk, PassEffect, LaunchesOf;
    if i < j {
      BarredForGood(run, i, j - 1, k);
      StepAt(run, j - 1);
      var w, w' := At(run, j - 1), At(run, j);
      if run.steps[j - 1].event == Pass(k) {
        PassOf(w, w', k);
        OneMoreLaunch(w, w', k);
      } else {
        OthersLaunch(w, run.steps[j - 1].event, w', k);
      }
    }
  }

  lemma PopulatedReady(c: Cloud, d: Cloud, k: Key, a: Annotations)
    requires Populated(c, d, k) && EnvReady(c, a)
    ensures EnvReady(d, a)
  {
    var t :| IsTableOf(c, t, a.vpc) && c.live[t].route == a.gateway;
    assert IsTableOf(d, t, a.vpc) && d.live[t].route == a.gateway;
  }

  /** The command that a pass for `k` from `w` to `w'` ran: besides the driver and the name, each pair is listed as
      often as it is a parameter of the stored object, the script's, the secret's (for Google, encoded), the image's,
      or for AWS the recorded VPC's or subnet's; and for AWS everything the annotations name was in place and still
      is. */
  ghost predicate LaunchedWell(w: World, w': World, k: Key, l: Launch) {
    && l.key == k && k in w.objects && k in w'.objects && w'.objects[k].spec == w.objects[k].spec
    && var spec, a, args, inputs := w.objects[k].spec, w'.objects[k].ann, l.args, l.inputs;
       && |args| >= 4 && args[..3] == ["create", "--driver", spec.driver] && args[|args| - 1] == k.name
       && Paired(args[3..|args| - 1])
       && (forall key, value ::
             var image := Lookup(w'.setup.images, Lookup(spec.parameters, REGION));
             Decode(args[3..|args| - 1])[(key, value)] ==
             One(key in spec.parameters && spec.parameters[key] == value)
             + One(inputs.script == Some((key, value)))
             + One(key in inputs.secret
                   && value == if spec.driver == GOOGLE_DRIVER
                               then w'.setup.encode(inputs.secret[key]) else inputs.secret[key])
             + One(image != "" && key == "amazonec2-ami" && value == image)
             + One(spec.driver == AWS_DRIVER && a.vpc != NONE && key == "amazonec2-vpc-id" && value == a.vpc.text)
             + One(spec.driver == AWS_DRIVER && a.subnet != NONE
                   && key == "amazonec2-subnet-id" && value == a.subnet.text))
       && (inputs.script.Some? <==> spec.hasScript) && Complete(inputs.secret) && inputs.setup == w'.setup
       && (spec.driver == AWS_DRIVER ==>
             EnvReady(l.cloud, a) && EnvReady(w'.cloud, a) && CarriesIds(args, k.name, a))
  }

  lemma LaunchingStep(w: World, w': World, k: Key)
    requires WorldOk(w') && PassEffect(w, w', k) && w'.launches != w.launches
    ensures |w'.launches| == |w.launches| + 1 && LaunchedWell(w, w', k, w'.launches[|w.launches|])
  {
    hide CloudOk, BooksOk, BasesOk, EnvsOk, AllGoneOk, AllBacked, Paired, Decode, CarriesIds, EnvReady, Populated;
    hide Releases, Confined, Accounted, Verdicts, Winds, Finishes, Copies, Blocked, Judges, RollsBack;
    var l := w'.launches[|w.launches|];
    assert LaunchOk(w'.setup, l);
    if l.spec.driver == AWS_DRIVER {
      PopulatedReady(l.cloud, w'.cloud, k, l.ann);
    }
  }

  /** Step `j` is the pass that ran the `n`-th create command. */
  ghost predicate LaunchedBy(run: Run, j: nat, n: nat, l: Launch) {
    && j < |run.steps| && run.steps[j].event == Pass(l.key)
    && n == |At(run, j).launches| && At(run, j + 1).launches == At(run, j).launches + [l]
    && LaunchedWell(At(run, j), At(run, j + 1), l.key, l) && l.inputs.setup == run.setup
  }

  /** What the operator was built with stays the same. */
  lemma {:induction false} SetupStays(run: Run, i: nat)
    requires IsRun(run) && i <= |run.steps|
    ensures At(run, i).setup == run.setup
  {
    hide WorldOk, StepOk, Idle;
    if i > 0 {
      SetupStays(run, i - 1);
      StepAt(run, i - 1);
      SetupStep(At(run, i - 1), run.steps[i - 1].event, At(run, i));
    }
  }

  lemma SetupStep(w: World, e: Event, w': World)
    requires WorldOk(w) && StepOk(w, e, w')
    ensures w'.setup == w.setup
  {
    hide WorldOk, ObjectsKept, Releases, Confined, Accounted, Verdicts, Winds, Finishes, Launches, Copies, Judges;
    hide Closes, Progresses, RollsBack;
  }

  /** Launch precondition: every launch in any run was run by a pass for its Machine, and was well launched. */
  lemma {:induction false} LaunchPrecondition(run: Run, i: nat, n: nat)
    requires IsRun(run) && i <= |run.steps| && n < |At(run, i).launches|
    ensures exists j: nat :: j < i && LaunchedBy(run, j, n, At(run, i).launches[n])
  {
    hide WorldOk, StepOk, LaunchedWell, Idle, PassEffect;
    StepAt(run, i - 1);
    var w, w' := At(run, i - 1), At(run, i);
    var l := w'.launches[n];
    LaunchStep(w, run.steps[i - 1].event, w');
    SetupStays(run, i);
    if n < |w.launches| {
      LaunchPrecondition(run, i - 1, n);
      var j: nat :| j < i - 1 && LaunchedBy(run, j, n, w.launches[n]);
      assert LaunchedBy(run, j, n, l);
    } else {
      assert w'.launches == w.launches + [l];
      assert LaunchedBy(run, i - 1, n, l);
    }
  }

  lemma LaunchStep(w: World, e: Event, w': World)
    requires WorldOk(w) && WorldOk(w') && StepOk(w, e, w')
    ensures w.launches <= w'.launches && |w'.launches| <= |w.launches| + 1
    ensures |w'.launches| > |w.launches| ==>
      var l := w'.launches[|w.launches|];
      e == Pass(l.key) && LaunchedWell(w, w', l.key, l) && l.inputs.setup == w'.setup
  {
    hide WorldOk, Faithful, CarriesIds, EnvReady, ObjectsKept, Releases, Confined, Accounted, Verdicts, Winds;
    hide Finishes, Copies, Noted;
    if e.Pass? && w'.launches != w.launches {
      LaunchingStep(w, w', e.key);
    }
  }

  // ----- the finalizer -----

  /** Finalizer before resources: whatever was created, launched or recorded for `k`, its finalizer is stored
      until it was cleaned up and let go. */
  lemma FinalizerFirst(run: Run, i: nat, k: Key)
    requires IsRun(run) && i <= |run.steps|
    ensures var w := At(run, i);
      (exists id :: Mine(w.cloud, k, id)) || (exists n :: 0 <= n < |w.launches| && w.launches[n].key == k)
        || LastAnn(w, k) != NO_ANNOTATIONS
      ==> (k in w.objects && w.objects[k].finalizer) || k in w.released
  {
    hide StepOk, CloudOk, CommitsOk, MemoryOk, EnvsOk, AllGoneOk, LaunchOk;
    RunOk(run, i);
    var w := At(run, i);
    assert k in w.objects ==> StoredOk(k, w.objects[k]);
    if id :| Mine(w.cloud, k, id) {
      assert Backed(w.cloud.born[id].owner, w.objects, w.released);
    }
    if n :| 0 <= n < |w.launches| && w.launches[n].key == k {
      assert Backed(w.launches[n].key, w.objects, w.released);
    }
  }

  /** Finalizer safety: only a pass for `k` lets go of it, after a successful `docker-machine rm` of `k` in that pass,
      and then the recorded VPC is gone and nothing is left in it. */
  lemma FinalizerSafety(run: Run, i: nat, k: Key)
    requires IsRun(run) && i < |run.steps| && k in At(run, i + 1).released && k !in At(run, i).released
    ensures run.steps[i].event == Pass(k) && k !in At(run, i + 1).objects
    ensures |At(run, i + 1).removed| > |At(run, i).removed| && At(run, i + 1).removed[|At(run, i).removed|] == k
    ensures var c, v := At(run, i + 1).cloud, At(run, i + 1).released[k].vpc;
      v !in c.live && (v != NONE ==> forall id :: id in c.live ==> c.live[id].Home() != v)
  {
    hide StepOk, WorldOk;
    StepAt(run, i);
    ReleasingStep(At(run, i), run.steps[i].event, At(run, i + 1), k);
    var c := At(run, i + 1).cloud;
    if c.live != map[] {
      CloudIsOk(At(run, i + 1));
      DeadVpcIsEmpty(c, At(run, i + 1).released[k].vpc);
    }
  }

  lemma CloudIsOk(w: World)
    requires WorldOk(w)
    ensures CloudOk(w.cloud)
  {}

  lemma ReleasingStep(w: World, e: Event, w': World, k: Key)
    requires WorldOk(w) && WorldOk(w') && StepOk(w, e, w') && k in w'.released && k !in w.released
    ensures e == Pass(k) && |w'.removed| > |w.removed| && w'.removed[|w.removed|] == k
    ensures w'.released[k].vpc !in w'.cloud.live && k !in w'.objects
  {
    hide WorldOk, PassEffect, Effect, ObjectsKept, History, Confined, Accounted;
    ReleasedIsGone(w', k);
    if e.Pass? {
      PassOf(w, w', e.key);
      ReleaseOf(w, w', e.key);
    }
  }

  lemma ReleaseOf(w: World, w': World, k: Key)
    requires Effect(w, w', k)
    ensures Releases(w, w', k) && ObjectsKept(w, w', k) && History(w, w')
  {}

  lemma ReleasedStep(w: World, e: Event, w': World, k: Key)
    requires WorldOk(w) && StepOk(w, e, w') && k in w.released
    ensures k in w'.released && w'.released[k] == w.released[k]
  {
    hide WorldOk, PassEffect, Effect;
    if e.Pass? {
      PassOf(w, w', e.key);
      ReleaseOf(w, w', e.key);
    }
  }

  /** And it stays that way: a Machine that was let go does not come back, nor does its VPC. */
  lemma {:induction false} ReleasedForGood(run: Run, i: nat, j: nat, k: Key)
    requires IsRun(run) && i <= j <= |run.steps| && k in At(run, i).released
    ensures k in At(run, j).released && At(run, j).released[k] == At(run, i).released[k]
    ensures k !in At(run, j).objects && At(run, j).released[k].vpc !in At(run, j).cloud.live
    decreases j
  {
    hide StepOk, CloudOk, ObjectsOk, CommitsOk, MemoryOk, EnvsOk, AllBacked, LaunchOk;
    RunOk(run, j);
    if i < j {
      ReleasedForGood(run, i, j - 1, k);
      StepAt(run, j - 1);
      ReleasedStep(At(run, j - 1), run.steps[j - 1].event, At(run, j), k);
    }
  }

  // ----- progress -----

  lemma RetiredPass(w: World, w': World, k: Key)
    requires WorldOk(w) && StepOk(w, Pass(k), w') && Ending(w, k) && w.objects[k].status.phase != Unset
    requires w'.bill.requests == w.bill.requests && w'.bill.commands == w.bill.commands
    requires w'.bill.undo == w.bill.undo && Tidy(w.cloud, LastAnn(w, k))
    ensures k in w'.released
  {
    hide WorldOk, PassEffect, Effect, Accounted, Confined, Tidy, Releases, History, Closes;
    EndingIsHeld(w, k);
    PassOf(w, w', k);
    ReleaseOf(w, w', k);
  }

  /** Nothing fails in a pass from `w` to `w'`. */
  ghost predicate FaultFree(w: World, w': World) {
    && w'.bill.requests == w.bill.requests && w'.bill.commands == w.bill.commands && w'.bill.undo == w.bill.undo
    && w'.bill.calls == w.bill.calls && w'.bill.patches == w.bill.patches
  }

  /** Progress: a pass in which nothing fails lets go of a Machine marked for deletion whose account is tidy. It leaves
      any other Machine with a status; and if EC2's rules and the region let the environment be built, the secret is
      complete and no script result but 0 was found, it leaves the Machine launched, and the outcome of a launch that
      worked looked for. */
  lemma FaultFreePass(run: Run, i: nat, k: Key)
    requires IsRun(run) && i < |run.steps| && run.steps[i].event == Pass(k) && k in At(run, i).objects
    requires FaultFree(At(run, i), At(run, i + 1))
    ensures var w, w' := At(run, i), At(run, i + 1); var p := w.objects[k];
      && (Ending(w, k) && p.status.phase != Unset && Tidy(w.cloud, LastAnn(w, k)) ==> k in w'.released)
      && (k in w'.objects ==> w'.objects[k].status.phase != Unset)
      && (k in w'.objects && p.status.phase != Unset && !Ending(w', k)
          && (p.spec.driver == AWS_DRIVER ==> Buildable(w.cloud, p.ann, p.spec))
          && (AuthDataReady in w'.objects[k].status.conds ==> IsTrue(w'.objects[k].status.conds, AuthDataReady))
          && !Rejected(w, w')
          ==> && Blocked(w', k)
              && (IsTrue(w'.objects[k].status.conds, MachineReady) ==>
                    Polled(w'.objects[k].status.conds) && |w'.copies| > |w.copies|))
  {
    hide WorldOk, StepOk, Tidy, Polled, Blocked, Idle, LastAnn, PassEffect, Effect, Buildable, Rejected;
    StepAt(run, i);
    var w, w' := At(run, i), At(run, i + 1);
    PassOf(w, w', k);
    if Ending(w, k) && w.objects[k].status.phase != Unset && Tidy(w.cloud, LastAnn(w, k)) {
      RetiredPass(w, w', k);
    }
  }

  /** How a launch ended is stored by the very pass that ran it, unless a request to the API server failed in it: a
      failed one for good, as Failed; one that worked as MachineReady. */
  lemma LaunchSettled(run: Run, i: nat, k: Key)
    requires IsRun(run) && i < |run.steps| && run.steps[i].event == Pass(k)
    requires At(run, i + 1).launches != At(run, i).launches
    requires At(run, i + 1).bill.requests == At(run, i).bill.requests
    ensures var w, w' := At(run, i), At(run, i + 1);
      && k in w'.objects && |w'.launches| == |w.launches| + 1 && Blocked(w', k)
      && var p, c := w'.objects[k].status.phase, w'.objects[k].status.conds;
         if w'.launches[|w.launches|].outcome.LaunchFailed?
         then IsBroken(c) && p in {Failed, Terminating} else IsTrue(c, MachineReady)
  {
    hide WorldOk, StepOk, Effect, Accounted, Confined, Winds, Finishes, Copies, Judges, RollsBack, Progresses, Idle;
    hide Populated;
    StepAt(run, i);
    var w, w' := At(run, i), At(run, i + 1);
    PassOf(w, w', k);
    StoredIsOk(w', k);
    PhaseMeaning(k.name, w'.objects[k]);
  }

  /** What the copied file says is stored by the very pass that copied it, unless it could not be opened, the object
      went away or a request to the API server failed. */
  lemma VerdictSettled(run: Run, i: nat, k: Key)
    requires IsRun(run) && i < |run.steps| && run.steps[i].event == Pass(k) && k in At(run, i + 1).objects
    requires At(run, i + 1).copies != At(run, i).copies && At(run, i + 1).bill.unread == At(run, i).bill.unread
    requires At(run, i + 1).bill.requests == At(run, i).bill.requests
    ensures var w, w' := At(run, i), At(run, i + 1);
      && |w'.copies| == |w.copies| + 1 && w'.copies[|w.copies|].key == k
      && ClusterOperationComplete in w'.objects[k].status.conds
      && var file, v := w'.copies[|w.copies|].file, w'.objects[k].status.conds[ClusterOperationComplete];
         if file.None? then v == False(WaitingForCompletion)
         else
           && (FirstIntegerIs(file.value.lines, 0) ==> v == True)
           && (forall n :: n != 0 && FirstIntegerIs(file.value.lines, n) ==> v == False(OperationFailed))
  {
    hide WorldOk, StepOk, Effect, Accounted, Confined, Winds, Finishes, Launches, RollsBack, Progresses, Idle;
    hide FirstIntegerIs;
    StepAt(run, i);
    PassOf(At(run, i), At(run, i + 1), k);
  }

  /** Every MachineReady that is True, stored or committed, rests on a create command that worked; every CreationFailed
      on one that failed. */
  lemma OutcomeSoundness(run: Run, i: nat, k: Key)
    requires IsRun(run) && i <= |run.steps|
    ensures var w := At(run, i);
      && (k in w.objects ==> OutcomeOk(w.launches, k, w.objects[k].status.conds))
      && (forall n :: 0 <= n < |w.commits| && w.commits[n].key == k ==>
            OutcomeOk(w.launches, k, w.commits[n].machine.status.conds))
  {
    hide StepOk, CloudOk, BooksOk, EnvsOk, AllGoneOk, AllBacked, LaunchOk, Worked, Broke;
    RunOk(run, i);
    var w := At(run, i);
    if k in w.objects {
      assert Grounded(w.copies, w.launches, k, w.objects[k].status);
    }
    forall n | 0 <= n < |w.commits| && w.commits[n].key == k
      ensures OutcomeOk(w.launches, k, w.commits[n].machine.status.conds)
    {
      assert Grounded(w.copies, w.launches, k, w.commits[n].machine.status);
    }
  }

  ghost predicate OutcomeOk(launches: seq<Launch>, k: Key, c: Conditions) {
    (IsTrue(c, MachineReady) ==> Worked(launches, k)) && (IsBroken(c) ==> Broke(launches, k))
  }

  // ----- annotations and isolation -----

  /** Annotation order, and what it means for the guard of `createAWSEnvironment`. */
  lemma AnnotationOrder(run: Run, i: nat, k: Key)
    requires IsRun(run) && i <= |run.steps| && k in At(run, i).objects
    ensures var a := At(run, i).objects[k].ann;
      && (a.subnet != NONE ==> a.gateway != NONE) && (a.gateway != NONE ==> a.vpc != NONE)
      && (a.vpc != NONE && a.subnet != NONE && a.gateway != NONE <==> a.subnet != NONE)
  {
    hide StepOk, CloudOk, ObjectsOk, CommitsOk, MemoryOk, AllBacked, LaunchOk, AllGoneOk;
    RunOk(run, i);
    assert EnvOk(At(run, i).cloud, k, At(run, i).objects[k]);
    SubnetDecides(At(run, i).cloud, k, At(run, i).objects[k].ann);
  }

  /** Isolation: whatever happens to other Machines, the resources and annotations of `k` stay as they are. */
  lemma {:induction false} Isolation(run: Run, i: nat, j: nat, k: Key)
    requires IsRun(run) && i <= j <= |run.steps|
    requires forall n :: i <= n < j ==> run.steps[n].event != Pass(k)
    ensures Share(At(run, j).cloud, k) == Share(At(run, i).cloud, k) && LastAnn(At(run, j), k) == LastAnn(At(run, i), k)
    decreases j
  {
    hide WorldOk, StepOk, Share, LastAnn;
    if i < j {
      Isolation(run, i, j - 1, k);
      StepAt(run, j - 1);
    }
  }

  lemma InstancesStep(w: World, e: Event, w': World, name: string)
    requires WorldOk(w) && StepOk(w, e, w') && (e.Pass? ==> e.key.name != name)
    ensures name in w'.cloud.instances <==> name in w.cloud.instances
    ensures name in w.cloud.instances ==> w'.cloud.instances[name] == w.cloud.instances[name]
  {
    hide WorldOk, PassEffect, Effect, Accounted, Foreign, BornGrows;
    if e.Pass? {
      PassOf(w, w', e.key);
    }
  }

  /** Only passes for a Machine of that name start or stop the docker machine `name`. */
  lemma {:induction false} InstanceIsolation(run: Run, i: nat, j: nat, name: string)
    requires IsRun(run) && i <= j <= |run.steps|
    requires forall n :: i <= n < j && run.steps[n].event.Pass? ==> run.steps[n].event.key.name != name
    ensures var c, d := At(run, i).cloud.instances, At(run, j).cloud.instances;
      (name in c <==> name in d) && (name in c ==> d[name] == c[name])
    decreases j
  {
    hide WorldOk, StepOk, Idle;
    if i < j {
      InstanceIsolation(run, i, j - 1, name);
      StepAt(run, j - 1);
      InstancesStep(At(run, j - 1), run.steps[j - 1].event, At(run, j), name);
    }
  }

  // ----- phases -----

  /** Committed phases come in a fixed order, and MachineReady is never taken back. */
  lemma PhaseOrder(run: Run, i: nat, m: nat, n: nat)
    requires IsRun(run) && i <= |run.steps| && m < n < |At(run, i).commits|
      && At(run, i).commits[m].key == At(run, i).commits[n].key
    ensures var p, q := At(run, i).commits[m].machine.status, At(run, i).commits[n].machine.status;
      && p.phase !in {Unset, Pending} && q.phase !in {Unset, Pending}
      && (p.phase == Terminating ==> q.phase == Terminating)
      && (p.phase == Failed ==> q.phase in {Failed, Terminating})
      && (p.phase in {WaitingForScriptCompletion, Success, ClusterOperationFailed} ==> q.phase !in {InProgress, Failed})
      && (IsTrue(p.conds, MachineReady) ==> IsTrue(q.conds, MachineReady))
  {
    hide StepOk, CloudOk, ObjectsOk, MemoryOk, EnvsOk, AllGoneOk, AllBacked, LaunchOk, StatusOk, Settled;
    RunOk(run, i);
    var c := At(run, i).commits;
    assert SoundCommit(c[m]) && SoundCommit(c[n]);
    PhaseMeaning(c[m].key.name, c[m].machine);
    PhaseMeaning(c[n].key.name, c[n].machine);
    assert Leads(c[m].machine.status, c[n].machine.status);
  }

  /** The file behind a verdict on `k` was copied for `k`, from the docker machine of that name. */
  ghost predicate CopiedFor(w: World, k: Key, b: Option<Report>) {
    b.Some? && b.value.machine == k.name && b.value.copy < |w.copies| && w.copies[b.value.copy] == Copy(k, b)
  }

  /** Success soundness, and no mix-up of results: the verdict on a Machine rests on a file copied for that Machine. */
  lemma SuccessSoundness(run: Run, i: nat, n: nat)
    requires IsRun(run) && i <= |run.steps| && n < |At(run, i).commits|
    ensures var k, m := At(run, i).commits[n].key, At(run, i).commits[n].machine; var c := m.status.conds;
      && m.status.phase !in {Unset, Pending}
      && (m.status.phase == Success ==>
            && IsTrue(c, MachineReady) && IsTrue(c, ClusterOperationComplete) && IsTrue(c, AuthDataReady)
            && (m.spec.hasScript ==> IsTrue(c, ScriptReady)) && Worked(At(run, i).launches, k)
            && CopiedFor(At(run, i), k, m.status.basis) && FirstIntegerIs(m.status.basis.value.lines, 0))
      && (m.status.phase == ClusterOperationFailed ==>
            && CopiedFor(At(run, i), k, m.status.basis) && !FirstIntegerIs(m.status.basis.value.lines, 0))
  {
    hide StepOk, CloudOk, ObjectsOk, MemoryOk, EnvsOk, AllGoneOk, AllBacked, LaunchOk, StatusOk, Settled;
    hide FirstIntegerIs;
    RunOk(run, i);
    var x := At(run, i).commits[n];
    assert SoundCommit(x) && Grounded(At(run, i).copies, At(run, i).launches, x.key, x.machine.status);
    PhaseMeaning(x.key.name, x.machine);
    if x.machine.status.phase == ClusterOperationFailed && FirstIntegerIs(x.machine.status.basis.value.lines, 0) {
      var bad :| bad != 0 && FirstIntegerIs(x.machine.status.basis.value.lines, bad);
      FirstIntegerUnique(x.machine.status.basis.value.lines, 0, bad);
    }
  }

  /** A verdict committed in a pass rests on the file that this very pass copied for that Machine, unless it is the
      verdict that memory or the store held for it before the pass. A file left behind by an earlier pass never
      counts. */
  lemma VerdictOrigin(run: Run, i: nat, n: nat)
    requires IsRun(run) && i < |run.steps| && |At(run, i).commits| <= n < |At(run, i + 1).commits|
    requires At(run, i + 1).commits[n].machine.status.basis.Some?
    ensures run.steps[i].event.Pass?
    ensures var w, w' := At(run, i), At(run, i + 1); var k, b := w'.commits[n].key, w'.commits[n].machine.status.basis;
      || (k == run.steps[i].event.key && w'.copies == w.copies + [Copy(k, b)] && b.value.copy == |w.copies|)
      || (w.mem.Some? && w.mem.value.key == k && w.mem.value.machine.status.basis == b)
      || (k in w.objects && w.objects[k].status.basis == b)
  {
    hide StepOk, PassEffect, CloudOk, BooksOk, EnvsOk, AllGoneOk, AllBacked, LaunchOk, Idle;
    StepAt(run, i);
    var w, w' := At(run, i), At(run, i + 1);
    CommitOrigin(w, run.steps[i].event, w', n);
    assert Grounded(w'.copies, w'.launches, w'.commits[n].key, w'.commits[n].machine.status);
  }

  lemma CommitOrigin(w: World, e: Event, w': World, n: nat)
    requires WorldOk(w) && StepOk(w, e, w') && |w.commits| <= n < |w'.commits|
    ensures e.Pass? && w.copies <= w'.copies
    ensures w'.copies == w.copies || (|w'.copies| == |w.copies| + 1 && w'.copies[|w.copies|].key == e.key)
    ensures Traced(w, w'.commits[n].key, w'.commits[n].machine.status.basis)
  {
    hide WorldOk, ObjectsKept, Releases, Confined, Accounted, Winds, Finishes, Launches, Traced, Judges, RollsBack;
    hide Closes, Progresses;
  }

  ghost predicate CommittedFailed(w: World, k: Key, n: nat) {
    n < |w.commits| && w.commits[n].key == k && w.commits[n].machine.status.phase == Failed
  }

  lemma FailedIsBlocked(w: World, k: Key, n: nat)
    requires WorldOk(w) && CommittedFailed(w, k, n) && k in w.objects
    ensures CreationHasFailed(w, k) && Blocked(w, k)
  {
    hide CloudOk, MemoryOk, EnvsOk, AllGoneOk, AllBacked, LaunchOk, Settled;
    assert SoundCommit(w.commits[n]);
    PhaseMeaning(k.name, w.commits[n].machine);
    assert Leads(w.commits[n].machine.status, w.objects[k].status);
    assert StoredOk(k, w.objects[k]);
  }

  function CopiesOf(s: seq<Copy>, k: Key): nat {
    if s == [] then 0 else CopiesOf(s[..|s| - 1], k) + if s[|s| - 1].key == k then 1 else 0
  }

  lemma FailedStep(w: World, e: Event, w': World, k: Key, n: nat)
    requires WorldOk(w) && StepOk(w, e, w') && CommittedFailed(w, k, n)
    ensures CommittedFailed(w', k, n)
    ensures LaunchesOf(w'.launches, k) == LaunchesOf(w.launches, k) && CopiesOf(w'.copies, k) == CopiesOf(w.copies, k)
  {
    hide WorldOk, Winds, Accounted, Confined, ObjectsKept, Releases, LaunchesOf, Blocked, CreationHasFailed;
    hide Noted, Judges, Closes, Progresses, RollsBack;
    if e == Pass(k) {
      if k in w.objects {
        FailedIsBlocked(w, k, n);
      }
    } else {
      OthersLaunch(w, e, w', k);
      if w'.copies != w.copies {
        assert w'.copies[..|w'.copies| - 1] == w.copies;
      }
    }
  }

  /** After a committed Failed there is no further create or scp command. */
  lemma {:induction false} FailedStops(run: Run, i: nat, j: nat, k: Key, n: nat)
    requires IsRun(run) && i <= j <= |run.steps| && CommittedFailed(At(run, i), k, n)
    ensures CommittedFailed(At(run, j), k, n)
    ensures LaunchesOf(At(run, j).launches, k) == LaunchesOf(At(run, i).launches, k)
    ensures CopiesOf(At(run, j).copies, k) == CopiesOf(At(run, i).copies, k)
    decreases j
  {
    hide WorldOk, StepOk, LaunchesOf, CopiesOf, CommittedFailed, Idle;
    if i < j {
      FailedStops(run, i, j - 1, k, n);
      StepAt(run, j - 1);
      FailedStep(At(run, j - 1), run.steps[j - 1].event, At(run, j), k, n);
    }
  }

  // ----- resumable cleanup -----

  /** What cleanup of `k` leaves behind of its resources. */
  ghost function Goal(c: Cloud, k: Key, a: Annotations): map<Id, Resource> {
    map id | id in c.live && Mine(c, k, id) && !Doomed(c, a, id) :: c.live[id]
  }

  lemma GoalOfClean(c: Cloud, d: Cloud, k: Key, a: Annotations)
    requires Clean(c, a).live == Clean(d, a).live && c.born == d.born
    ensures Goal(c, k, a) == Goal(d, k, a)
  {
    forall id
      ensures id in Goal(c, k, a) <==> id in Clean(c, a).live && Mine(c, k, id)
      ensures id in Goal(d, k, a) <==> id in Clean(d, a).live && Mine(d, k, id)
    {
    }
    forall id | id in Goal(c, k, a) && id in Goal(d, k, a) ensures Goal(c, k, a)[id] == Goal(d, k, a)[id] {
      assert Clean(c, a).live[id] == Clean(d, a).live[id];
    }
  }

  /** The share of `k` decides what cleanup of `k` can do. */
  lemma ShareDecides(c: Cloud, d: Cloud, k: Key, a: Annotations)
    requires CloudOk(c) && CloudOk(d) && Share(c, k) == Share(d, k)
    requires a.vpc != NONE ==> Mine(c, k, a.vpc) && Mine(d, k, a.vpc)
    ensures Goal(c, k, a) == Goal(d, k, a) && (Tidy(c, a) <==> Tidy(d, a))
  {
    hide Goal, Tidy, CloudOk;
    GoalOfShare(c, k, a);
    GoalOfShare(d, k, a);
  }

  ghost function ShareGoal(s: map<Id, Resource>, a: Annotations): map<Id, Resource> {
    map id | id in s && !(id == a.vpc || ((s[id].Table? || s[id].Group?) && s[id].home == a.vpc)
                          || (a.subnet != NONE && (id == a.subnet || id == a.gateway))) :: s[id]
  }

  ghost predicate ShareTidy(s: map<Id, Resource>, a: Annotations) {
    forall id :: id in s && a.vpc != NONE && (s[id] == Subnet(a.vpc) || s[id] == Gateway(a.vpc)) ==> id in Names(a)
  }

  lemma GoalOfShare(c: Cloud, k: Key, a: Annotations)
    requires CloudOk(c) && (a.vpc != NONE ==> Mine(c, k, a.vpc))
    ensures Goal(c, k, a) == ShareGoal(Share(c, k), a) && (Tidy(c, a) <==> ShareTidy(Share(c, k), a))
  {
    var s := Share(c, k);
    assert forall id :: id in s <==> id in c.live && Mine(c, k, id);
    forall id | id in c.live && a.vpc != NONE && (c.live[id] == Subnet(a.vpc) || c.live[id] == Gateway(a.vpc))
      ensures id in s
    {
      assert Placed(c, id);
    }
  }

  lemma VpcIsMine(w: World, k: Key)
    requires WorldOk(w)
    ensures LastAnn(w, k).vpc != NONE ==> Mine(w.cloud, k, LastAnn(w, k).vpc)
  {
    hide CloudOk, ObjectsOk, CommitsOk, MemoryOk, AllBacked, LaunchOk;
    assert k in w.objects ==> EnvOk(w.cloud, k, w.objects[k]);
  }

  lemma EndingPass(w: World, w': World, k: Key)
    requires WorldOk(w) && PassEffect(w, w', k) && (Ending(w, k) || (k !in w.objects && k in w.released))
    ensures var a := LastAnn(w, k);
      LastAnn(w', k) == a && Goal(w'.cloud, k, a) == Goal(w.cloud, k, a) && (Tidy(w'.cloud, a) <==> Tidy(w.cloud, a))
    ensures Ending(w', k) || k in w'.released
  {
    hide WorldOk, Goal, Tidy, Clean, Accounted, Launches, Copies, Foreign, Evolves;
    if Ending(w, k) {
      EndingIsHeld(w, k);
      GoalOfClean(w.cloud, w'.cloud, k, LastAnn(w, k));
    }
  }

  lemma CleanupStep(w: World, e: Event, w': World, k: Key)
    requires WorldOk(w) && WorldOk(w') && StepOk(w, e, w') && (e != Pass(k) ==> Idle(w, w', k))
    requires Ending(w, k) || k in w.released
    ensures var a := LastAnn(w, k);
      LastAnn(w', k) == a && Goal(w'.cloud, k, a) == Goal(w.cloud, k, a) && (Tidy(w'.cloud, a) <==> Tidy(w.cloud, a))
    ensures Ending(w', k) || k in w'.released
  {
    hide StepOk, PassEffect, Effect, Goal, Tidy, CloudOk, ObjectsOk, CommitsOk, MemoryOk, EnvsOk, AllBacked, LaunchOk;
    hide Share;
    if e == Pass(k) {
      PassOf(w, w', k);
      EndingPass(w, w', k);
    } else {
      VpcIsMine(w, k);
      VpcIsMine(w', k);
      ShareDecides(w.cloud, w'.cloud, k, LastAnn(w, k));
    }
  }

  /** Resumable cleanup, first half: however often it is cut short, cleanup aims at the same account, and a leftover
      that it does not reach keeps the Machine from being let go. */
  lemma {:induction false} CleanupConserves(run: Run, i: nat, j: nat, k: Key)
    requires IsRun(run) && i <= j <= |run.steps| && Ending(At(run, i), k)
    ensures var a := LastAnn(At(run, i), k); var c, d := At(run, i).cloud, At(run, j).cloud;
      && LastAnn(At(run, j), k) == a && Goal(d, k, a) == Goal(c, k, a) && (Tidy(d, a) <==> Tidy(c, a))
      && (Ending(At(run, j), k) || (k in At(run, j).released && Tidy(c, a)))
    decreases j
  {
    hide StepOk, PassEffect, Goal, Tidy, CloudOk, ObjectsOk, CommitsOk, MemoryOk, EnvsOk, AllBacked, LaunchOk;
    if i < j {
      CleanupConserves(run, i, j - 1, k);
      StepAt(run, j - 1);
      CleanupStep(At(run, j - 1), run.steps[j - 1].event, At(run, j), k);
      if !Ending(At(run, j), k) && !Tidy(At(run, j).cloud, LastAnn(At(run, j), k)) {
        UntidyIsAlive(At(run, j).cloud, LastAnn(At(run, j), k));
      }
    }
  }

  /** Second half: if there is no such leftover, the first pass in which `rm` succeeds and calls to EC2 fail only by its
      rules reaches the account that an uninterrupted cleanup would have reached, and only the removal of the finalizer
      can still keep the Machine from being let go. */
  lemma CleanupCompletes(run: Run, i: nat, j: nat, k: Key)
    requires IsRun(run) && i <= j < |run.steps| && Ending(At(run, i), k) && Ending(At(run, j), k)
    requires At(run, j).objects[k].spec.driver == AWS_DRIVER && Tidy(At(run, i).cloud, LastAnn(At(run, i), k))
    requires run.steps[j].event == Pass(k)
    requires At(run, j + 1).removed != At(run, j).removed && At(run, j + 1).bill.undo == At(run, j).bill.undo
    ensures Share(At(run, j + 1).cloud, k) == Goal(At(run, i).cloud, k, LastAnn(At(run, i), k))
    ensures k in At(run, j + 1).released || At(run, j + 1).bill.releases > At(run, j).bill.releases
  {
    hide StepOk, Effect, Launches, Copies, WorldOk, Tidy, Clean, Goal, Share, Idle;
    CleanupConserves(run, i, j, k);
    StepAt(run, j);
    PassOf(At(run, j), At(run, j + 1), k);
    CleanShare(At(run, j).cloud, At(run, j + 1).cloud, k, LastAnn(At(run, i), k));
  }

  /** Nothing is left to clean up. */
  ghost predicate Cleaned(w: World, k: Key) {
    && (Ending(w, k) || k in w.released)
    && Share(w.cloud, k) == Goal(w.cloud, k, LastAnn(w, k))
  }

  lemma CleanStays(c: Cloud, d: Cloud, k: Key, a: Annotations)
    requires d.live.Keys <= c.live.Keys && d.born == c.born && Clean(d, a).live == Clean(c, a).live
    requires Share(c, k) == Goal(c, k, a)
    ensures Share(d, k) == Share(c, k)
  {
    forall id | id in Share(c, k) ensures id in Share(d, k) && Share(d, k)[id] == Share(c, k)[id] {
      assert id in Goal(c, k, a);
      assert id in Clean(c, a).live && Clean(c, a).live[id] == c.live[id];
      assert id in Clean(d, a).live && Clean(d, a).live[id] == d.live[id];
    }
    forall id | id in Share(d, k) ensures id in Share(c, k) {
      assert id in c.live.Keys;
    }
  }

  lemma CleanedPass(w: World, w': World, k: Key)
    requires PassEffect(w, w', k) && (Ending(w, k) || k !in w.objects)
      && Share(w.cloud, k) == Goal(w.cloud, k, LastAnn(w, k))
    ensures Share(w'.cloud, k) == Share(w.cloud, k)
  {
    hide Share, Goal, Clean, Tidy, Accounted, Launches, Copies, Foreign, Evolves, Finishes, Verdicts;
    if Ending(w, k) {
      CleanStays(w.cloud, w'.cloud, k, LastAnn(w, k));
    }
  }

  lemma CleanedStep(w: World, e: Event, w': World, k: Key)
    requires WorldOk(w) && WorldOk(w') && StepOk(w, e, w') && (e != Pass(k) ==> Idle(w, w', k)) && Cleaned(w, k)
    ensures Cleaned(w', k) && Share(w'.cloud, k) == Share(w.cloud, k) && LastAnn(w', k) == LastAnn(w, k)
  {
    hide WorldOk, StepOk, PassEffect, Effect, Accounted, Confined, Share, Goal, Tidy;
    CleanupStep(w, e, w', k);
    if e == Pass(k) {
      if k in w.released {
        ReleasedIsGone(w, k);
      }
      PassOf(w, w', k);
      CleanedPass(w, w', k);
    }
  }

  /** A further rerun of cleanup changes nothing, whatever fails: what was cleaned up stays just as it is. */
  lemma {:induction false} CleanedForGood(run: Run, i: nat, j: nat, k: Key)
    requires IsRun(run) && i <= j <= |run.steps| && Cleaned(At(run, i), k)
    ensures Cleaned(At(run, j), k) && Share(At(run, j).cloud, k) == Share(At(run, i).cloud, k)
    ensures LastAnn(At(run, j), k) == LastAnn(At(run, i), k)
    decreases j
  {
    hide WorldOk, StepOk, Cleaned, Share, LastAnn, Idle;
    if i < j {
      CleanedForGood(run, i, j - 1, k);
      StepAt(run, j - 1);
      CleanedStep(At(run, j - 1), run.steps[j - 1].event, At(run, j), k);
    }
  }

  lemma CleanShare(c: Cloud, d: Cloud, k: Key, a: Annotations)
    requires d.live == Clean(c, a).live && d.born == c.born
    ensures Share(d, k) == Goal(c, k, a)
  {
    forall id ensures id in Share(d, k) <==> id in Goal(c, k, a) {
    }
  }
}
