/** Runs: any number of Machines, reconciled in any order, with users creating and deleting them in between. */
module Runs {
  import opened Cloud
  import opened Machines
  import opened Store
  import opened Arguments
  import opened Sessions
  import opened Worlds
  import opened Passes

  datatype Event = Pass(key: Key) | UserCreates(key: Key, spec: Spec) | UserDeletes(key: Key)

  datatype Step = Step(event: Event, after: World)

  datatype Run = Run(setup: Setup, steps: seq<Step>)

  /** The world after `i` steps. */
  function At(run: Run, i: nat): World
    requires i <= |run.steps|
  {
    if i == 0 then Start(run.setup) else run.steps[i - 1].after
  }

  /** No Machine ever had this name. */
  ghost predicate NewName(w: World, k: Key) {
    && k !in w.objects && k !in w.released
    && (forall i :: 0 <= i < |w.commits| ==> w.commits[i].key != k)
    && (w.mem.Some? ==> w.mem.value.key != k)
  }

  function NewMachine(spec: Spec): Machine {
    Machine(spec, NO_ANNOTATIONS, false, false, EMPTY_STATUS)
  }

  /** A pass is known by the contract of `Reconcile`; the user's steps are spelled out. */
  ghost predicate StepOk(w: World, e: Event, w': World) {
    match e
    case Pass(k) =>
      WorldOk(w) ==> WorldOk(w') && PassEffect(w, w', k) && Closes(w, w', k) && Progresses(w, w', k)
    case UserCreates(k, spec) => NewName(w, k) && w' == w.(objects := w.objects[k := NewMachine(spec)])
    case UserDeletes(k) => UserActs(w.objects, w'.objects, k) && w' == w.(objects := w'.objects)
  }

  ghost predicate GoesOn(run: Run, i: nat)
    requires i < |run.steps|
  {
    StepOk(At(run, i), run.steps[i].event, At(run, i + 1))
  }

  ghost predicate IsRun(run: Run) {
    forall i: nat {:trigger GoesOn(run, i)} :: i < |run.steps| ==> GoesOn(run, i)
  }

  // ----- why names are not used again -----

  /** Memory may still hold the copy of a Machine that was let go. Creating a Machine of that name again keeps memory in
      step exactly if memory does not hold the name; otherwise the next status update, even in a pass that could not
      read the object, would write Terminating and the old machine's readiness to the new one. */
  lemma ReusedName(w: World, k: Key, spec: Spec)
    requires MemoryOk(w.objects, w.mem) && k !in w.objects
    requires w.mem.Some? && w.mem.value.key == k ==> w.mem.value.machine.deleted
    ensures MemoryOk(w.objects[k := NewMachine(spec)], w.mem) <==> !(w.mem.Some? && w.mem.value.key == k)
    ensures w.mem.Some? && w.mem.value.key == k ==>
      var was, written := w.mem.value.machine.status, Summarized(w.mem.value.machine).status;
      written.phase == Terminating && (IsTrue(written.conds, MachineReady) <==> IsTrue(was.conds, MachineReady))
  {
    hide StatusOk, WithSummary;
    if w.mem.Some? {
      SummaryKeeps(w.mem.value.machine.status.conds);
    }
  }

  // ----- every state of every run is in order -----

  lemma StartOk(setup: Setup)
    ensures WorldOk(Start(setup))
  {}

  lemma NewMachineOk(c: Cloud, k: Key, spec: Spec)
    requires CloudOk(c)
    ensures StoredOk(k, NewMachine(spec)) && EnvOk(c, k, NewMachine(spec))
  {
    NoneIsDead(c);
    assert WithSummary(map[]) == map[];
  }

  lemma CreatedOk(w: World, w': World, k: Key, spec: Spec)
    requires WorldOk(w) && StepOk(w, UserCreates(k, spec), w')
    ensures WorldOk(w')
  {
    hide CloudOk, LaunchOk, EnvOk, StoredOk, GoneOk, SoundCommit, Leads, InStep, StatusOk, Grounded;
    NoGroundsNeeded(w.copies, w.launches, k);
    NewMachineOk(w.cloud, k, spec);
    forall id | id in w.cloud.born ensures Backed(w.cloud.born[id].owner, w'.objects, w'.released) {
      assert Backed(w.cloud.born[id].owner, w.objects, w.released);
    }
    forall i | 0 <= i < |w.launches| ensures Backed(w.launches[i].key, w'.objects, w'.released) {
      assert Backed(w.launches[i].key, w.objects, w.released);
    }
  }

  lemma StepKeeps(w: World, e: Event, w': World)
    requires WorldOk(w) && StepOk(w, e, w')
    ensures WorldOk(w')
  {
    match e
    case Pass(_) =>
    case UserCreates(k, spec) => CreatedOk(w, w', k, spec);
    case UserDeletes(k) => ReadOk(w, w', k);
  }

  lemma {:induction false} RunOk(run: Run, i: nat)
    requires IsRun(run) && i <= |run.steps|
    ensures WorldOk(At(run, i))
  {
    hide WorldOk, StepOk;
    if i == 0 {
      StartOk(run.setup);
    } else {
      RunOk(run, i - 1);
      assert GoesOn(run, i - 1);
      StepKeeps(At(run, i - 1), run.steps[i - 1].event, run.steps[i - 1].after);
    }
  }

  /** Steps that are not a pass for `k` leave its resources, annotations and books alone. */
  ghost predicate Idle(w: World, w': World, k: Key) {
    && Share(w'.cloud, k) == Share(w.cloud, k)
    && LastAnn(w', k) == LastAnn(w, k)
    && (forall id :: Mine(w'.cloud, k, id) ==> Mine(w.cloud, k, id))
    && (forall id :: Mine(w.cloud, k, id) ==> Mine(w'.cloud, k, id))
    && (Blocked(w, k) ==> Blocked(w', k))
    && (CreationHasFailed(w, k) ==> CreationHasFailed(w', k))
    && (k in w.released <==> k in w'.released)
    && (Ending(w, k) ==> Ending(w', k))
  }

  lemma OthersPassIdle(w: World, w': World, j: Key, k: Key)
    requires WorldOk(w) && PassEffect(w, w', j) && j != k
    ensures Idle(w, w', k)
  {
    hide Foreign, Winds, Finishes, Accounted, Launches, Copies, Judges, Verdicts, OthersRun, BasesOk;
    hide EnvsOk, AllBacked, LaunchOk, GoneOk, CommitsOk, MemoryOk, StatusOk;
    assert k in w.objects ==> StoredOk(k, w.objects[k]);
    ShareKept(w.cloud, w'.cloud, j, k);
  }

  lemma OthersIdle(w: World, e: Event, w': World, k: Key)
    requires WorldOk(w) && StepOk(w, e, w') && e != Pass(k)
    ensures Idle(w, w', k)
  {
    hide PassEffect, EnvsOk, AllBacked, LaunchOk, GoneOk, CommitsOk, MemoryOk, CloudOk, BasesOk, StatusOk;
    assert k in w.objects ==> StoredOk(k, w.objects[k]);
    match e
    case Pass(j) => OthersPassIdle(w, w', j, k);
    case UserCreates(_, _) =>
    case UserDeletes(j) =>
  }
}
