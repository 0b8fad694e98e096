/** The operator at work: whatever happens, it is one of the runs that the theorems speak about. */
module Operation {
  import opened Cloud
  import opened Machines
  import opened Worlds
  import opened Passes
  import opened Runs
  import opened Controller

  /** Extending a run by one step. */
  lemma Extend(run: Run, e: Event, w: World)
    requires IsRun(run) && StepOk(At(run, |run.steps|), e, w)
    ensures IsRun(More(run, e, w)) && At(More(run, e, w), |run.steps| + 1) == w
  {
    hide StepOk;
    var more := More(run, e, w);
    forall i: nat | i < |more.steps| ensures GoesOn(more, i) {
      assert At(more, i) == At(run, i);
      assert i < |run.steps| ==>
        GoesOn(run, i) && At(more, i + 1) == At(run, i + 1) && more.steps[i] == run.steps[i];
    }
  }

  function More(run: Run, e: Event, w: World): Run {
    run.(steps := run.steps + [Step(e, w)])
  }

  /** A user may create a Machine under a name that was never used before. */
  method UserMayCreate(r: MachineReconciler, k: Key, spec: Spec) returns (created: bool)
    requires r.Wired()
    modifies r.store`objects
    ensures created ==> StepOk(old(r.Now()), UserCreates(k, spec), r.Now())
    ensures !created ==> r.Now() == old(r.Now())
  {
    created := *;
    created := created
      && k !in r.store.objects && k !in r.store.released
      && (forall i | 0 <= i < |r.store.commits| :: r.store.commits[i].key != k)
      && (r.session.machineObj.Some? ==> r.session.machineObj.value.key != k);
    if created {
      r.store.objects := r.store.objects[k := NewMachine(spec)];
    }
  }

  /** The manager calls Reconcile for any Machine, again and again, while users create and delete Machines. */
  method Operate(r: MachineReconciler, rounds: nat) returns (ghost run: Run)
    requires r.Wired() && r.Now() == Start(r.setup)
    modifies r.ec2, r.store, r.host, r.session
    ensures IsRun(run) && At(run, |run.steps|) == r.Now()
    ensures forall i: nat :: i <= |run.steps| ==> WorldOk(At(run, i))
  {
    hide WorldOk, PassEffect, NewName;
    run := Run(r.setup, []);
    StartOk(r.setup);
    for n := 0 to rounds
      invariant IsRun(run) && At(run, |run.steps|) == r.Now() && WorldOk(r.Now())
    {
      ghost var w := r.Now();
      var k: Key, spec: Spec, turn: int := *, *, *;
      ghost var e;
      if turn == 0 {
        var ok := r.Reconcile(k);
        e := Pass(k);
      } else if turn == 1 {
        r.store.UserMayDelete(k);
        e := UserDeletes(k);
      } else {
        var created := UserMayCreate(r, k, spec);
        e := if created then UserCreates(k, spec) else UserDeletes(k);
      }
      Extend(run, e, r.Now());
      StepKeeps(w, e, r.Now());
      run := More(run, e, r.Now());
    }
    forall i: nat | i <= |run.steps| ensures WorldOk(At(run, i)) {
      RunOk(run, i);
    }
  }
}
