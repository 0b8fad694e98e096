/** The reconcile loop of pkg/controller/machine_controller.go, with machine.go and cluster.go. */
module Controller {
  import opened Wrappers
  import opened Cloud
  import opened Ec2Api
  import opened Machines
  import opened ScriptResult
  import opened Store
  import opened Sessions
  import opened Environment
  import opened Aws
  import opened Arguments
  import opened Hosts
  import opened Worlds
  import opened Passes

  class MachineReconciler {
    const ec2: Ec2
    const store: MachineStore
    const host: Host
    const session: Session
    const aws: AwsEnvironment
    const setup: Setup

    constructor (setup: Setup)
      requires Lossless(setup.encode)
      ensures Wired() && this.setup == setup
      ensures Now() == Start(setup)
      ensures fresh(ec2) && fresh(store) && fresh(host) && fresh(session)
    {
      var e := new Ec2();
      var st := new MachineStore();
      var h := new Host();
      var se := new Session(st);
      var aw := new AwsEnvironment(e, se);
      ec2, store, host, session, aws := e, st, h, se, aw;
      this.setup := setup;
    }

    /** The parts are the same objects everywhere. */
    ghost predicate Wired() {
      session.store == store && aws.ec2 == ec2 && aws.session == session && Lossless(setup.encode)
    }

    ghost function Now(): World
      reads ec2, store, host, session
    {
      World(ec2.now, store.objects, store.released, store.commits, session.machineObj,
            host.launches, host.copies, host.removed,
            Bill(store.failedPatches, store.failedVpcPatches, ec2.failedDeletes, ec2.undoFaults, ec2.vpcsMade,
                 store.failedReleases, store.faults, host.faults, host.unread, ec2.callFaults),
            store.last, setup)
    }

    /** `updateMachineStatus`, seen from outside. */
    method UpdateMachineStatus() returns (ok: bool, ghost written: bool)
      requires Wired() && WorldOk(Now()) && session.machineObj.Some?
      modifies session`machineObj, store`objects, store`commits, store`faults, store`last
      ensures WorldOk(Now()) && session.machineObj.Some?
      ensures session.machineObj.value.key == old(session.machineObj).value.key
      ensures StatusOnly(old(Now()), Now(), session.machineObj.value.key)
      ensures store.last == if ok then UpdateDone else UpdateFailed
      ensures ok || store.faults > old(store.faults) || session.machineObj.value.key !in store.objects
      ensures SameButReady(old(session.machineObj).value.machine.status.conds,
                           session.machineObj.value.machine.status.conds)
      ensures session.machineObj.value.machine.status.basis == old(session.machineObj).value.machine.status.basis
      ensures if written
        then session.machineObj.value.key in store.objects
             && session.machineObj.value.machine == store.objects[session.machineObj.value.key]
             && |store.commits| > |old(store.commits)|
        else store.commits == old(store.commits)
             && UserActs(old(store.objects), store.objects, session.machineObj.value.key)
      ensures old(session.Held()) ==>
        && session.Held()
        && session.machineObj.value.machine.ann == old(session.machineObj).value.machine.ann
        && session.machineObj.value.machine.spec == old(session.machineObj).value.machine.spec
      ensures old(session.machineObj).value.machine.deleted ==> session.machineObj.value.machine.deleted
      ensures ok ==> Saved(Now())
      ensures ok && old(session.machineObj).value.machine.deleted ==>
        store.objects[session.machineObj.value.key].status.phase == Terminating
    {
      hide EnvsOk, AllGoneOk, AllBacked, CommitsOk, ObjectsOk, CloudOk, LaunchOk, StatusOk, UserActs, Progress;
      hide BasesOk, Verdicts, Rests, Grounded, SameButReady;
      ghost var w := Now();
      MemoryIsSound(w);
      ok, written := session.UpdateMachineStatus();
      RestsOk(w, Now(), session.machineObj.value.key, w.mem.value.machine.status);
      StatusOnlyOk(w, Now(), session.machineObj.value.key);
    }

    // ----- the environment -----

    /** The Machine in memory has a complete environment if its subnet is recorded. */
    ghost predicate Furnished()
      reads session, ec2
    {
      session.machineObj.Some?
      && var a := session.machineObj.value.machine.ann;
         a.subnet != NONE ==> EnvReady(ec2.now, a)
    }

    /** For AWS, `createPrerequisitesForMachine` builds the environment. */
    method BuildEnvironment() returns (ok: bool)
      requires Wired() && WorldOk(Now()) && session.Held() && Furnished()
      requires session.machineObj.value.machine.spec.driver == AWS_DRIVER
      modifies ec2`now, ec2`undoFaults, ec2`failedDeletes, ec2`vpcsMade, ec2`callFaults
      modifies session`machineObj, store`objects, store`released, store`failedPatches, store`failedVpcPatches
      ensures WorldOk(Now()) && session.Held() && Furnished()
      ensures AnnotationsMove(old(store.objects), store.objects,
                              old(session.machineObj).value, session.machineObj.value)
      ensures Effect(old(Now()), Now(), session.machineObj.value.key)
      ensures RollsBack(old(Now()), Now(), session.machineObj.value.key)
      ensures if ok then EnvReady(ec2.now, session.machineObj.value.machine.ann)
              else NotBuilt(old(Now()), Now(), session.machineObj.value.key)
    {
      hide Debts, Foreign, CloudOk, EnvReady, AnnOk, ObjectsOk, CommitsOk, AllGoneOk, AllBacked, LaunchOk, StatusOk;
      hide Progress, Effect, BasesOk, BornGrows, Buildable;
      ghost var w, k := Now(), session.machineObj.value.key;
      assert EnvOk(ec2.now, k, store.objects[k]);
      assert InStep(store.objects[k], session.machineObj.value.machine);
      hide WorldOk;
      ghost var lost;
      ok, lost := aws.CreateAwsEnvironment();
      if ok {
        ReadyHasSubnet(ec2.now, session.machineObj.value.machine.ann);
      }
      SagaEffect(w, Now(), k, lost);
    }

    /** `createPrerequisitesForMachine`. */
    method CreatePrerequisites() returns (ok: bool)
      requires Wired() && WorldOk(Now()) && session.Held() && Furnished()
      modifies ec2`now, ec2`undoFaults, ec2`failedDeletes, ec2`vpcsMade, ec2`callFaults
      modifies session`machineObj, store`objects, store`released, store`failedPatches, store`failedVpcPatches
      ensures WorldOk(Now()) && session.Held() && Furnished()
      ensures AnnotationsMove(old(store.objects), store.objects,
                              old(session.machineObj).value, session.machineObj.value)
      ensures Effect(old(Now()), Now(), session.machineObj.value.key)
      ensures RollsBack(old(Now()), Now(), session.machineObj.value.key)
      ensures ok && session.machineObj.value.machine.spec.driver == AWS_DRIVER ==>
        EnvReady(ec2.now, session.machineObj.value.machine.ann)
      ensures !ok ==> NotBuilt(old(Now()), Now(), session.machineObj.value.key)
    {
      hide WorldOk, Effect, RollsBack, EnvReady, BornGrows, NotBuilt;
      ok := true;
      if session.machineObj.value.machine.spec.driver == AWS_DRIVER {
        ok := BuildEnvironment();
      } else {
        NothingHappens(Now(), session.machineObj.value.key);
      }
    }

    /** Changes conditions in memory. */
    method Remember(m: Machine)
      requires Wired() && WorldOk(Now()) && session.machineObj.Some?
      requires var k, was := session.machineObj.value.key, session.machineObj.value.machine;
        && m == was.(status := m.status) && StatusOk(k.name, m)
        && was.status.conds != map[] && Progress(was.status.conds, m.status.conds)
        && (Derived(m.status, was.status) || Grounded(host.copies, host.launches, k, m.status))
      modifies session`machineObj
      ensures session.machineObj == Some(Loaded(old(session.machineObj).value.key, m))
      ensures WorldOk(Now()) && Now() == old(Now()).(mem := session.machineObj)
    {
      hide EnvsOk, AllGoneOk, AllBacked, CommitsOk, ObjectsOk, CloudOk, LaunchOk, StatusOk, Progress;
      var k := session.machineObj.value.key;
      if k in store.objects {
        ProgressPreorder(store.objects[k].status.conds, session.machineObj.value.machine.status.conds, m.status.conds);
      }
      session.machineObj := Some(Loaded(k, m));
    }

    /** The copy in memory is about to be launched. */
    ghost predicate Preparing()
      reads session, session.store
    {
      session.Held() && Started(session.machineObj.value.machine.status.conds)
    }

    // ----- arguments -----

    method MarkSecret(t: CondType, found: bool)
      requires Wired() && WorldOk(Now()) && Preparing()
      requires t == AuthDataReady || (t == ScriptReady && session.machineObj.value.machine.spec.hasScript)
      modifies session`machineObj
      ensures WorldOk(Now()) && Preparing() && Now() == old(Now()).(mem := session.machineObj)
      ensures
        var v := if found then True else False(if t == AuthDataReady then AuthDataNotFound else ScriptDataNotFound);
        var k, was := old(session.machineObj).value.key, old(session.machineObj).value.machine;
        session.machineObj == Some(Loaded(k, Mark(was, t, v)))
    {
      hide WorldOk, StatusOk, Progress;
      var k, m := session.machineObj.value.key, session.machineObj.value.machine;
      var v := if found then True else False(if t == AuthDataReady then AuthDataNotFound else ScriptDataNotFound);
      MemoryIsSound(Now());
      MarkSecretOk(k.name, m, t, v);
      Remember(Mark(m, t, v));
    }

    ghost predicate SecretsFound(m: Machine) {
      IsTrue(m.status.conds, AuthDataReady) && (m.spec.hasScript ==> IsTrue(m.status.conds, ScriptReady))
    }

    /** The auth arguments decode to the data of the secret. */
    ghost predicate AuthRead(m: Machine, auth: seq<string>, secret: map<string, string>) {
      && Complete(secret)
      && Encodes(auth, EntriesOf(Shown(secret, m.spec.driver == GOOGLE_DRIVER, setup.encode)))
    }

    /** `getAuthSecretArgs` and its mark: the secret may be missing or incomplete. */
    method ReadAuth() returns (ok: bool, auth: seq<string>)
      requires Wired() && WorldOk(Now()) && Preparing()
      modifies session`machineObj, store`faults, store`lastSecret
      ensures WorldOk(Now()) && Preparing()
      ensures Now() == old(Now()).(mem := session.machineObj, bill := old(Now()).bill.(requests := store.faults))
      ensures store.faults == old(store.faults) + if store.lastSecret.None? then 1 else 0
      ensures ok <==> store.lastSecret.Some? && Complete(store.lastSecret.value)
      ensures var k, was := old(session.machineObj).value.key, old(session.machineObj).value.machine;
        && session.machineObj ==
           Some(Loaded(k, Mark(was, AuthDataReady, if ok then True else False(AuthDataNotFound))))
        && (ok ==> AuthRead(was, auth, store.lastSecret.value))
    {
      hide WorldOk, Complete, EntriesOf, Shown, Lossless, Encodes;
      ghost var w := Now();
      auth := [];
      var args: Option<seq<string>> := None;
      var data := store.ReadSecret();
      BillAside(w, Now());
      if data.Some? {
        args := AuthArgs(data.value, session.machineObj.value.machine.spec.driver == GOOGLE_DRIVER, setup.encode);
      }
      MarkSecret(AuthDataReady, args.Some?);
      ok := args.Some?;
      if ok {
        auth := args.value;
      }
    }

    /** The secrets that `getMachineCreationArgs` reads: the script's flag/value pair and the auth arguments.
        They may be missing, and an auth secret may be incomplete. */
    method ReadSecrets() returns (ok: bool, script: Option<(string, string)>, auth: seq<string>)
      requires Wired() && WorldOk(Now()) && Preparing()
      modifies session`machineObj, store`faults, store`lastSecret
      ensures WorldOk(Now()) && Preparing() && store.faults >= old(store.faults)
      ensures Now() == old(Now()).(mem := session.machineObj, bill := old(Now()).bill.(requests := store.faults))
      ensures session.machineObj.value.key == old(session.machineObj).value.key
      ensures ok || store.faults > old(store.faults) || NoAuth(Now(), session.machineObj.value.key)
      ensures var m, was := session.machineObj.value.machine, old(session.machineObj).value.machine;
        && m == was.(status := m.status) && m.status.basis == was.status.basis
        && (if ok
            then && store.lastSecret.Some? && AuthRead(m, auth, store.lastSecret.value)
                 && SecretsFound(m) && (script.Some? <==> m.spec.hasScript)
            else m == Mark(was, ScriptReady, False(ScriptDataNotFound))
                 || (AuthDataReady in m.status.conds && m.status.conds[AuthDataReady] == False(AuthDataNotFound)))
    {
      hide WorldOk, Complete, EntriesOf, Shown, Encodes;
      ghost var w := Now();
      ok, script, auth := false, None, [];
      if session.machineObj.value.machine.spec.hasScript {
        script := store.ReadScript();
        BillAside(w, Now());
        MarkSecret(ScriptReady, script.Some?);
        if script.None? {
          return;
        }
      }
      ok, auth := ReadAuth();
    }

    /** The arguments say exactly what the object, the secrets and the image table say. */
    ghost predicate ArgsOk(k: Key, m: Machine, args: seq<string>, inputs: Inputs) {
      && Faithful(args, m.spec, k.name, m.ann, inputs)
      && inputs.setup == setup && Complete(inputs.secret)
      && (inputs.script.Some? <==> m.spec.hasScript)
      && (m.spec.driver == AWS_DRIVER && m.ann.vpc != NONE && m.ann.subnet != NONE ==> CarriesIds(args, k.name, m.ann))
    }

    /** The argument list for the Machine in memory. */
    method ComposeArgs(script: Option<(string, string)>, auth: seq<string>)
      returns (args: seq<string>, ghost inputs: Inputs)
      requires session.machineObj.Some? && store.lastSecret.Some?
      requires AuthRead(session.machineObj.value.machine, auth, store.lastSecret.value)
      requires script.Some? <==> session.machineObj.value.machine.spec.hasScript
      ensures ArgsOk(session.machineObj.value.key, session.machineObj.value.machine, args, inputs)
      ensures store.lastSecret == Some(inputs.secret)
    {
      hide CarriesIds, Faithful, Encodes, Complete, EntriesOf, Shown, Paired, Decode, Lookup;
      var m := session.machineObj.value.machine;
      inputs := Inputs(script, store.lastSecret.value, setup);
      ghost var secret := store.lastSecret.value;
      args := MachineArgs(m.spec, session.machineObj.value.key.name, script, auth, setup, m.ann, secret);
    }

    /** Commits the marks of the secrets. */
    method StorePrepared() returns (ok: bool)
      requires Wired() && WorldOk(Now()) && Preparing() && SecretsFound(session.machineObj.value.machine)
      modifies session`machineObj, store`objects, store`commits, store`faults, store`last
      ensures WorldOk(Now()) && Preparing() && SecretsFound(session.machineObj.value.machine)
      ensures session.machineObj.value.key == old(session.machineObj).value.key
      ensures session.machineObj.value.machine.ann == old(session.machineObj).value.machine.ann
      ensures session.machineObj.value.machine.spec == old(session.machineObj).value.machine.spec
      ensures Effect(old(Now()), Now(), session.machineObj.value.key)
      ensures Steady(old(Now()), Now(), session.machineObj.value.key)
      ensures ok ==> Saved(Now())
      ensures store.faults >= old(store.faults) && (ok || store.faults > old(store.faults))
    {
      hide WorldOk, Effect, Winds, StatusOnly, UserActs, Steady;
      ghost var w, k := Now(), session.machineObj.value.key;
      ghost var written;
      ok, written := UpdateMachineStatus();
      StatusEffect(w, Now(), k, k);
      StatusIsSteady(w, Now(), k);
      EffectErrors(w, Now(), k);
    }

    /** `getMachineCreationArgs`. */
    method GetMachineCreationArgs() returns (r: Option<seq<string>>, ghost inputs: Inputs)
      requires Wired() && WorldOk(Now()) && Preparing()
      modifies session`machineObj, store`objects, store`commits, store`faults, store`last, store`lastSecret
      ensures WorldOk(Now()) && session.Held()
      ensures session.machineObj.value.key == old(session.machineObj).value.key
      ensures r.Some? || store.faults > old(store.faults) || NoAuth(Now(), session.machineObj.value.key)
      ensures Effect(old(Now()), Now(), session.machineObj.value.key)
      ensures Steady(old(Now()), Now(), session.machineObj.value.key)
      ensures var m, was := session.machineObj.value.machine, old(session.machineObj).value.machine;
        && m.ann == was.ann && m.spec == was.spec
        && (r.Some? ==>
              && Preparing() && SecretsFound(m) && store.lastSecret == Some(inputs.secret) && Saved(Now())
              && ArgsOk(session.machineObj.value.key, m, r.value, inputs))
    {
      hide WorldOk, Effect, Winds, StatusOnly, CarriesIds, Faithful, Complete, LastAnn, AuthRead;
      ghost var w, k := Now(), session.machineObj.value.key;
      r, inputs := None, Inputs(None, map[], setup);
      var ok, script, auth := ReadSecrets();
      ghost var w1 := Now();
      MemoryOnly(w, w1, k);
      StatusIsSteady(w, w1, k);
      if ok {
        var args;
        args, inputs := ComposeArgs(script, auth);
        ok := StorePrepared();
        EffectCompose(w, w1, Now(), k);
        if ok {
          r := Some(args);
        }
      }
    }

    // ----- launching -----

    /** The arguments fit the environment, and the secrets were found. */
    ghost predicate ReadyToLaunch(args: seq<string>, inputs: Inputs)
      reads session, session.store, ec2
    {
      && Preparing()
      && var k, m := session.machineObj.value.key, session.machineObj.value.machine;
         && SecretsFound(m) && ArgsOk(k, m, args, inputs)
         && (m.spec.driver == AWS_DRIVER ==> EnvReady(ec2.now, m.ann))
    }

    /** The command itself, once MachineCreating is True in memory. */
    method RunCreate(args: seq<string>, ghost inputs: Inputs) returns (r: Outcome)
      requires Wired() && WorldOk(Now()) && ReadyToLaunch(args, inputs)
      modifies ec2`now, host`machines, host`launches, host`faults
      ensures WorldOk(Now())
      ensures Now() == old(Now()).(cloud := ec2.now, launches := host.launches,
                                   bill := old(Now()).bill.(commands := host.faults))
      ensures host.faults == old(host.faults) + if r.LaunchFailed? then 1 else 0
      ensures var k := session.machineObj.value.key;
        && Effect(old(Now()), Now(), k) && Steady(old(Now()), Now(), k)
        && |host.launches| == |old(host.launches)| + 1 && old(host.launches) <= host.launches
        && var l := host.launches[|old(host.launches)|];
           Reflects(Now(), k, l) && l.commitsBefore == |store.commits| && l.outcome == r
    {
      hide Foreign, ObjectsOk, CommitsOk, AllGoneOk, AllBacked, CloudOk, BasesOk, Routed, AnnOk, StatusOk, Progress;
      hide Populated, CarriesIds, Faithful, Effect, Accounted, Confined;
      var k, m := session.machineObj.value.key, session.machineObj.value.machine;
      ghost var w := Now();
      assert EnvOk(ec2.now, k, store.objects[k]);
      assert InStep(store.objects[k], m);
      r := host.DockerMachineCreate(k, m, args, ec2, inputs, |store.commits|);
      LaunchKeeps(w, Now(), k, host.launches[|w.launches|]);
    }

    /** Marks MachineCreating in memory and runs the command. */
    method StartMachine(args: seq<string>, ghost inputs: Inputs) returns (r: Outcome)
      requires Wired() && WorldOk(Now()) && ReadyToLaunch(args, inputs)
      modifies ec2`now, host`machines, host`launches, host`faults, session`machineObj
      ensures WorldOk(Now())
      ensures Now() == old(Now()).(cloud := ec2.now, launches := host.launches, mem := session.machineObj,
                                   bill := old(Now()).bill.(commands := host.faults))
      ensures host.faults == old(host.faults) + if r.LaunchFailed? then 1 else 0
      ensures var k, was := old(session.machineObj).value.key, old(session.machineObj).value.machine;
        session.machineObj == Some(Loaded(k, Mark(was, MachineCreating, True)))
      ensures var k := session.machineObj.value.key;
        && Effect(old(Now()), Now(), k) && Steady(old(Now()), Now(), k)
        && |host.launches| == |old(host.launches)| + 1
        && var l := host.launches[|old(host.launches)|];
           Running(Now(), k, l) && l.outcome == r
    {
      hide WorldOk, StatusOk, Progress, EnvReady, CarriesIds, Faithful, Effect, StatusOnly, Reflects;
      var k, m := session.machineObj.value.key, session.machineObj.value.machine;
      ghost var w := Now();
      MemoryIsSound(w);
      MarkSecretOk(k.name, m, MachineCreating, True);
      Remember(Mark(m, MachineCreating, True));
      ghost var w1 := Now();
      MemoryOnly(w, w1, k);
      r := RunCreate(args, inputs);
      EffectCompose(w, w1, Now(), k);
    }

    /** Marks MachineReady in memory, as the command ended: "already exists" counts as success. */
    method MarkLaunched(r: Outcome, ghost l: Launch)
      requires Wired() && WorldOk(Now()) && session.machineObj.Some?
      requires Running(Now(), session.machineObj.value.key, l) && l in host.launches && l.outcome == r
      requires Started(session.machineObj.value.machine.status.conds) && SecretsFound(session.machineObj.value.machine)
      modifies session`machineObj
      ensures WorldOk(Now()) && Now() == old(Now()).(mem := session.machineObj)
      ensures session.machineObj.Some? && session.machineObj.value.key == old(session.machineObj).value.key
      ensures Effect(old(Now()), Now(), session.machineObj.value.key) && Noted(Now(), session.machineObj.value.key, l)
    {
      hide WorldOk, StatusOk, Progress, Effect, StatusOnly, Populated;
      ghost var w := Now();
      var k, m := session.machineObj.value.key, session.machineObj.value.machine;
      var v := if r.LaunchFailed? then False(CreationFailed) else True;
      MemoryIsSound(w);
      MarkLaunchedOk(k.name, m, v);
      assert if r.LaunchFailed? then Broke(host.launches, k) else Worked(host.launches, k);
      Remember(Mark(m, MachineReady, v));
      MemoryOnly(w, Now(), k);
    }

    /** The last part of `createMachine`. */
    method LaunchMachine(args: seq<string>, ghost inputs: Inputs) returns (ok: bool)
      requires Wired() && WorldOk(Now()) && ReadyToLaunch(args, inputs)
      modifies ec2`now, host`machines, host`launches, host`faults
      modifies session`machineObj, store`objects, store`commits, store`faults, store`last
      ensures WorldOk(Now()) && session.machineObj.Some?
      ensures session.machineObj.value.key == old(session.machineObj).value.key
      ensures var k := session.machineObj.value.key;
        && Effect(old(Now()), Now(), k) && Steady(old(Now()), Now(), k)
        && |host.launches| == |old(host.launches)| + 1
        && var l, c := host.launches[|old(host.launches)|], session.machineObj.value.machine.status.conds;
           && Noted(Now(), k, l)
           && (if l.outcome.LaunchFailed? then !ok && IsBroken(c) else IsTrue(c, MachineReady))
      ensures ok ==> Saved(Now())
      ensures ok || store.faults > old(store.faults) || host.faults > old(host.faults)
      ensures host.copies == old(host.copies)
    {
      hide WorldOk, EnvReady, CarriesIds, Faithful, Effect, Running, Winds, LastAnn;
      ghost var w, k := Now(), session.machineObj.value.key;
      var r := StartMachine(args, inputs);
      ghost var w1, l := Now(), host.launches[|w.launches|];
      MarkLaunched(r, l);
      ghost var w2 := Now();
      EffectCompose(w, w1, w2, k);
      MemoryKeepsAnn(w1, w2, k);
      ok := false;
      if !r.LaunchFailed? {
        NotedIsThere(w2, k, l);
        ok := CommitMemory(k);
        NotedIsThere(Now(), k, l);
        EffectCompose(w, w2, Now(), k);
      }
    }

    /** The first part of `createMachine`: initial conditions and environment. */
    method PrepareMachine() returns (ok: bool)
      requires Wired() && WorldOk(Now()) && session.Held() && Furnished() && !Underway(session.machineObj.value.machine)
      modifies ec2`now, ec2`undoFaults, ec2`failedDeletes, ec2`vpcsMade, ec2`callFaults
      modifies session`machineObj, store`objects, store`commits, store`released
      modifies store`failedPatches, store`failedVpcPatches, store`faults, store`last
      ensures WorldOk(Now()) && session.machineObj.Some?
      ensures session.machineObj.value.key == old(session.machineObj).value.key
      ensures Effect(old(Now()), Now(), session.machineObj.value.key)
      ensures RollsBack(old(Now()), Now(), session.machineObj.value.key)
      ensures ok || store.faults > old(store.faults) || NotBuilt(old(Now()), Now(), session.machineObj.value.key)
      ensures ok ==>
        && Preparing()
        && store.objects[session.machineObj.value.key].status.conds == session.machineObj.value.machine.status.conds
        && (session.machineObj.value.machine.spec.driver == AWS_DRIVER ==>
              EnvReady(ec2.now, session.machineObj.value.machine.ann))
    {
      hide ObjectsOk, CommitsOk, MemoryOk, EnvsOk, AllGoneOk, AllBacked, CloudOk, LaunchOk, BasesOk, StatusOk;
      hide Progress, EnvReady, Effect, StatusMoves, Verdicts, Rests, Grounded, Derived, RollsBack, Steady, NotBuilt;
      ghost var w, k := Now(), session.machineObj.value.key;
      ok := session.SetInitialConditions();
      ghost var w1 := Now();
      NoGroundsNeeded(w.copies, w.launches, k);
      RestsOk(w, w1, k, EMPTY_STATUS);
      StatusOnlyOk(w, w1, k);
      StatusEffect(w, w1, k, k);
      StatusIsSteady(w, w1, k);
      SteadyRollsBack(w, w1, k);
      if ok {
        ok := CreatePrerequisites();
        EffectCompose(w, w1, Now(), k);
        RollbackAfter(w, w1, Now(), k);
        if !ok {
          NotBuiltAfter(w, w1, Now(), k);
        }
      }
    }

    /** `createMachine`, on a Machine that was just read and is not marked for deletion. */
    method CreateMachine() returns (ok: bool)
      requires Wired() && WorldOk(Now()) && session.Held() && Furnished()
      modifies ec2`now, ec2`undoFaults, ec2`failedDeletes, ec2`vpcsMade, ec2`callFaults
      modifies host`machines, host`launches, host`faults
      modifies session`machineObj, store`objects, store`commits, store`released
      modifies store`failedPatches, store`failedVpcPatches, store`faults, store`last, store`lastSecret
      ensures WorldOk(Now()) && session.machineObj.Some?
      ensures session.machineObj.value.key == old(session.machineObj).value.key
      ensures Effect(old(Now()), Now(), session.machineObj.value.key)
      ensures RollsBack(old(Now()), Now(), session.machineObj.value.key)
      ensures host.copies == old(host.copies)
      ensures ok ==> Underway(session.machineObj.value.machine)
      ensures
        || ok || store.faults > old(store.faults) || host.faults > old(host.faults)
        || NotBuilt(old(Now()), Now(), session.machineObj.value.key) || NoAuth(Now(), session.machineObj.value.key)
      ensures host.launches == old(host.launches) ||
        (&& !Underway(old(session.machineObj).value.machine)
         && |host.launches| == |old(host.launches)| + 1
         && Noted(Now(), session.machineObj.value.key, host.launches[|old(host.launches)|]))
    {
      hide WorldOk, Effect, RollsBack, Steady, Routed, CarriesIds, Faithful, Noted, NoAuth, IsBroken;
      ghost var w, k := Now(), session.machineObj.value.key;
      if Underway(session.machineObj.value.machine) {
        NothingHappens(w, k);
        return true;
      }
      ok := PrepareMachine();
      ghost var w1 := Now();
      if !ok {
        return;
      }
      var args; ghost var inputs;
      args, inputs := GetMachineCreationArgs();
      ghost var w2 := Now();
      EffectErrors(w, w1, k);
      EffectCompose(w, w1, w2, k);
      EffectErrors(w, w2, k);
      RollbackBefore(w, w1, w2, k);
      if args.None? {
        return false;
      }
      ok := LaunchMachine(args.value, inputs);
      EffectCompose(w, w2, Now(), k);
      RollbackBefore(w, w2, Now(), k);
    }

    /** The guard of `createMachine`. */
    predicate Underway(m: Machine) {
      IsTrue(m.status.conds, MachineCreating) || IsTrue(m.status.conds, MachineReady)
    }

    // ----- the result of the script -----

    /** Marks ClusterOperationComplete in memory. */
    method Conclude(v: Cond, basis: Option<Report>)
      requires Wired() && WorldOk(Now()) && session.machineObj.Some?
      requires IsTrue(session.machineObj.value.machine.status.conds, MachineReady)
      requires BaseOk(host.copies, session.machineObj.value.key, basis)
      requires match v
        case True => GoodBasis(session.machineObj.value.key.name, basis)
        case False(r) =>
          r == WaitingForCompletion || (r == OperationFailed && BadBasis(session.machineObj.value.key.name, basis))
      modifies session`machineObj
      ensures WorldOk(Now()) && Now() == old(Now()).(mem := session.machineObj)
      ensures session.machineObj ==
        Some(Loaded(old(session.machineObj).value.key, MarkOutcome(old(session.machineObj).value.machine, v, basis)))
    {
      hide WorldOk, StatusOk, Progress, GoodBasis, BadBasis;
      var m := session.machineObj.value.machine;
      MemoryIsSound(Now());
      MarkOutcomeOk(session.machineObj.value.key.name, m, v, basis);
      Remember(MarkOutcome(m, v, basis));
    }

    /** Nothing is marked, or one of the two verdicts on the file. */
    ghost predicate Concluded(was: Machine, m: Machine, file: Option<Report>) {
      || m == was || m == MarkOutcome(was, True, file) || m == MarkOutcome(was, False(OperationFailed), file)
    }

    /** The file that was just copied: its verdict is marked in memory and the file is removed. Nothing is marked only
        if the file could not be opened or no line is an integer. */
    method ReadResult() returns (ok: bool)
      requires Wired() && WorldOk(Now()) && session.machineObj.Some?
      requires IsTrue(session.machineObj.value.machine.status.conds, MachineReady)
      requires var k, n := session.machineObj.value.key, |host.copies| - 1;
        && n >= 0 && host.copies[n] == Copy(k, host.result)
        && host.result.Some? && host.result.value.machine == k.name && host.result.value.copy == n
      modifies session`machineObj, host`result, host`faults, host`unread
      ensures WorldOk(Now()) && host.faults >= old(host.faults) && host.unread >= old(host.unread)
      ensures Now() == old(Now()).(mem := session.machineObj,
                                   bill := old(Now()).bill.(commands := host.faults, unread := host.unread))
      ensures session.machineObj.Some? && session.machineObj.value.key == old(session.machineObj).value.key
      ensures var m, was := session.machineObj.value.machine, old(session.machineObj).value.machine;
        var file := old(host.result);
        if host.unread > old(host.unread) then m == was && !ok
        else
          && (FirstIntegerIs(file.value.lines, 0) ==> m == MarkOutcome(was, True, file))
          && (forall n :: n != 0 && FirstIntegerIs(file.value.lines, n) ==>
                m == MarkOutcome(was, False(OperationFailed), file) && !ok)
          && (NoIntegerBefore(file.value.lines, |file.value.lines|) ==> m == was && !ok)
      ensures Concluded(old(session.machineObj).value.machine, session.machineObj.value.machine, old(host.result))
      ensures ok ==> host.result == None && FirstIntegerIs(old(host.result).value.lines, 0)
      ensures ok || host.faults > old(host.faults) || !FirstIntegerIs(old(host.result).value.lines, 0)
    {
      hide WorldOk, FirstIntegerIs, NoIntegerBefore;
      ghost var w := Now();
      ghost var lines := host.result.value.lines;
      ok := false;
      var file := host.OpenResult();
      BillAside(w, Now());
      if file.Some? {
        var verdict := ScanForInteger(file.value.lines);
        VerdictIsUnique(lines, verdict);
        if verdict.Some? {
          Conclude(if verdict.value == 0 then True else False(OperationFailed), file);
          ghost var w1 := Now();
          var gone := host.RemoveResult();
          BillAside(w1, Now());
          ok := gone && verdict.value == 0;
        }
      }
    }

    /** What a look for the result does: without a file the Machine waits; a file that could be opened decides by its
        first integer; and otherwise nothing is marked. */
    ghost predicate Looked(was: Machine, m: Machine, file: Option<Report>, readable: bool, rekey: bool, ok: bool) {
      && (rekey <==> file.None?)
      && (rekey ==> ok && m == MarkOutcome(was, False(WaitingForCompletion), None))
      && (!rekey ==>
            var lines := file.value.lines;
            && Concluded(was, m, file) && (ok ==> readable && FirstIntegerIs(lines, 0))
            && if !readable then m == was
               else
                 && (FirstIntegerIs(lines, 0) ==> m == MarkOutcome(was, True, file))
                 && (forall n :: n != 0 && FirstIntegerIs(lines, n) ==>
                       m == MarkOutcome(was, False(OperationFailed), file))
                 && (NoIntegerBefore(lines, |lines|) ==> m == was))
    }

    /** Only ClusterOperationComplete changes, and it says what the file says. */
    lemma LookedMeans(was: Machine, m: Machine, file: Option<Report>, readable: bool, rekey: bool, ok: bool)
      requires Looked(was, m, file, readable, rekey, ok) && IsTrue(was.status.conds, MachineReady)
      requires ClusterOperationComplete in was.status.conds
      ensures SameButOutcome(was.status.conds, m.status.conds)
      ensures ok ==> Polled(m.status.conds)
      ensures readable ==> VerdictOf(m.status, file)
    {
      hide FirstIntegerIs, NoIntegerBefore;
    }

    ghost predicate SameButOutcome(c: Conditions, d: Conditions) {
      forall t :: t != ClusterOperationComplete ==> (t in c <==> t in d) && (t in c ==> c[t] == d[t])
    }

    /** `docker-machine scp`, and what follows if it brought a file. */
    method FetchResult() returns (rekey: bool, ok: bool)
      requires Wired() && WorldOk(Now()) && session.machineObj.Some?
      requires IsTrue(session.machineObj.value.machine.status.conds, MachineReady)
      modifies session`machineObj, host`result, host`copies, host`faults, host`unread
      ensures WorldOk(Now()) && host.faults >= old(host.faults) && host.unread >= old(host.unread)
      ensures Now() == old(Now()).(mem := session.machineObj, copies := host.copies,
                                   bill := old(Now()).bill.(commands := host.faults, unread := host.unread))
      ensures session.machineObj.Some? && session.machineObj.value.key == old(session.machineObj).value.key
      ensures |host.copies| == |old(host.copies)| + 1 && old(host.copies) <= host.copies
      ensures var copy, k := host.copies[|old(host.copies)|], session.machineObj.value.key;
        && copy.key == k
        && (copy.file.Some? ==> copy.file.value.machine == k.name && copy.file.value.copy == |old(host.copies)|)
        && Looked(old(session.machineObj).value.machine, session.machineObj.value.machine, copy.file,
                  host.unread == old(host.unread), rekey, ok)
        && (ok || host.faults > old(host.faults) || !FirstIntegerIs(copy.file.value.lines, 0))
    {
      hide WorldOk, FirstIntegerIs, NoIntegerBefore, MarkOutcome;
      ghost var w := Now();
      var copied := host.Scp(session.machineObj.value.key);
      CopyOk(w, Now());
      if copied {
        rekey := false;
        ok := ReadResult();
      } else {
        Conclude(False(WaitingForCompletion), None);
        rekey, ok := true, true;
      }
    }

    /** `isScriptFinished`. The lookups of conditions named Success and Failed never find anything. */
    method IsScriptFinished() returns (rekey: bool, ok: bool)
      requires Wired() && WorldOk(Now()) && session.machineObj.Some?
      modifies session`machineObj, host`result, host`copies, host`faults, host`unread
      ensures WorldOk(Now()) && host.faults >= old(host.faults) && host.unread >= old(host.unread)
      ensures Now() == old(Now()).(mem := session.machineObj, copies := host.copies,
                                   bill := old(Now()).bill.(commands := host.faults, unread := host.unread))
      ensures session.machineObj.Some? && session.machineObj.value.key == old(session.machineObj).value.key
      ensures Traced(old(Now()), session.machineObj.value.key, session.machineObj.value.machine.status.basis)
      ensures var k := session.machineObj.value.key;
        var m, was := session.machineObj.value.machine, old(session.machineObj).value.machine;
        && SameButOutcome(was.status.conds, m.status.conds)
        && (ok && IsTrue(was.status.conds, MachineReady) ==> Polled(m.status.conds))
        && if !IsTrue(was.status.conds, MachineReady)
           then host.copies == old(host.copies) && m == was && ok && !rekey && host.unread == old(host.unread)
           else
             && |host.copies| == |old(host.copies)| + 1 && old(host.copies) <= host.copies
             && var copy := host.copies[|old(host.copies)|];
                && copy.key == k
                && (copy.file.Some? ==> copy.file.value.machine == k.name && copy.file.value.copy == |old(host.copies)|)
                && Looked(was, m, copy.file, host.unread == old(host.unread), rekey, ok)
                && (host.unread == old(host.unread) ==> VerdictOf(m.status, copy.file))
                && (ok || host.faults > old(host.faults)
                    || (copy.file.Some? && !FirstIntegerIs(copy.file.value.lines, 0)))
    {
      hide WorldOk, FirstIntegerIs, NoIntegerBefore, Polled, VerdictOf;
      var c := session.machineObj.value.machine.status.conds;
      ghost var was := session.machineObj.value.machine;
      MemoryIsSound(Now());
      if !IsTrue(c, MachineReady) || IsTrue(c, NamedAfter(Success)) || IsTrue(c, NamedAfter(Failed)) {
        return false, true;
      }
      rekey, ok := FetchResult();
      LookedMeans(was, session.machineObj.value.machine, host.copies[|old(host.copies)|].file,
                  host.unread == old(host.unread), rekey, ok);
    }

    // ----- cleanup -----

    /** What the driver needs once the docker machine is gone. */
    method CleanForDriver(ghost a: Annotations) returns (ok: bool, ghost lost: set<Id>)
      requires Wired() && session.Held() && session.machineObj.value.machine.ann == a
      requires CloudOk(ec2.now) && AnnOk(ec2.now, session.machineObj.value.key, a)
      requires session.machineObj.value.key.name !in ec2.now.instances
      requires session.machineObj.value.machine.spec.driver != AWS_DRIVER ==> a.vpc == NONE
      modifies ec2`now, ec2`undoFaults, ec2`failedDeletes, host`faults, host`chores
      ensures var k := session.machineObj.value.key;
        && CloudOk(ec2.now) && AnnOk(ec2.now, k, a)
        && Foreign(ec2.now, k) == old(Foreign(ec2.now, session.machineObj.value.key))
        && Debts(ec2.now, k, a) <= old(Debts(ec2.now, session.machineObj.value.key, a)) + lost
        && (ok && session.machineObj.value.machine.spec.driver == AZURE_DRIVER ==> GroupDeleted(k) in host.chores)
      ensures Shrinks(old(ec2.now), ec2.now) && Clean(ec2.now, a) == old(Clean(ec2.now, a))
      ensures old(ec2.failedDeletes) + |lost| <= ec2.failedDeletes && ec2.undoFaults >= old(ec2.undoFaults)
      ensures host.faults >= old(host.faults) && old(host.chores) <= host.chores
      ensures ok ==> a.vpc !in ec2.now.live
      ensures session.machineObj.value.machine.spec.driver == AWS_DRIVER && ec2.undoFaults == old(ec2.undoFaults) ==>
        (ok <==> old(Tidy(ec2.now, a))) && (ok ==> ec2.now == old(Clean(ec2.now, a)))
      ensures ok || host.faults > old(host.faults) || ec2.undoFaults > old(ec2.undoFaults) || !old(Tidy(ec2.now, a))
    {
      hide Foreign, CloudOk, AnnOk, Debts, Clean, CleanReady, Tidy;
      ok, lost := true, {};
      NoneIsDead(ec2.now);
      if session.machineObj.value.machine.spec.driver == AWS_DRIVER {
        RemovedIsReady(ec2.now, session.machineObj.value.key, a);
        hide Shrinks;
        ok, lost := aws.CleanupAwsResources();
      } else if session.machineObj.value.machine.spec.driver == AZURE_DRIVER {
        ok := host.DeleteAzureGroup(session.machineObj.value.key);
      }
    }

    /** `docker-machine rm`, and then what the driver needs; `mid` is the account in between. */
    method RemoveAndClean(ghost a: Annotations) returns (ok: bool, ghost mid: Cloud, ghost lost: set<Id>)
      requires Wired() && session.Held() && session.machineObj.value.machine.ann == a
      requires CloudOk(ec2.now) && AnnOk(ec2.now, session.machineObj.value.key, a)
      requires session.machineObj.value.machine.spec.driver != AWS_DRIVER ==> a.vpc == NONE
      modifies ec2`now, ec2`undoFaults, ec2`failedDeletes, host`machines, host`removed, host`faults, host`chores
      ensures var k := session.machineObj.value.key;
        && mid == old(ec2.now).(instances := mid.instances) && OthersRun(old(ec2.now), mid, k)
        && CloudOk(ec2.now) && AnnOk(ec2.now, k, a)
        && Foreign(ec2.now, k) == old(Foreign(ec2.now, session.machineObj.value.key))
        && Debts(ec2.now, k, a) <= Debts(mid, k, a) + lost
        && (host.removed == old(host.removed) || host.removed == old(host.removed) + [k])
        && (ok && session.machineObj.value.machine.spec.driver == AZURE_DRIVER ==> GroupDeleted(k) in host.chores)
      ensures Shrinks(mid, ec2.now) && Clean(ec2.now, a).live == Clean(mid, a).live
      ensures old(ec2.failedDeletes) + |lost| <= ec2.failedDeletes && ec2.undoFaults >= old(ec2.undoFaults)
      ensures host.faults >= old(host.faults) && old(host.chores) <= host.chores
      ensures ok ==> host.removed != old(host.removed) && a.vpc !in ec2.now.live
      ensures session.machineObj.value.machine.spec.driver == AWS_DRIVER
              && host.removed != old(host.removed) && ec2.undoFaults == old(ec2.undoFaults)
        ==> (ok <==> Tidy(old(ec2.now), a)) && (ok ==> ec2.now == Clean(mid, a))
      ensures ok || host.faults > old(host.faults) || ec2.undoFaults > old(ec2.undoFaults) || !Tidy(old(ec2.now), a)
    {
      hide Foreign, CloudOk, AnnOk, Debts, Clean, Tidy, Shrinks, OthersRun;
      ghost var c := ec2.now;
      ok := host.DockerMachineRemove(session.machineObj.value.key, ec2);
      mid, lost := ec2.now, {};
      InstancesAside(c, mid, session.machineObj.value.key, a);
      if ok {
        ok, lost := CleanForDriver(a);
      }
    }

    /** `cleanupMachineResources`, of a Machine marked for deletion. */
    method CleanupMachineResources() returns (ok: bool)
      requires Wired() && WorldOk(Now()) && session.Held() && session.machineObj.value.machine.deleted
      modifies ec2`now, ec2`undoFaults, ec2`failedDeletes, host`machines, host`removed, host`faults, host`chores
      ensures WorldOk(Now()) && Now() == old(Now()).(cloud := ec2.now, removed := host.removed, bill := Now().bill)
      ensures Effect(old(Now()), Now(), session.machineObj.value.key)
      ensures Winds(old(Now()), Now(), session.machineObj.value.key)
      ensures var k, m := session.machineObj.value.key, session.machineObj.value.machine;
        && (ok ==>
              && host.removed == old(host.removed) + [k] && m.ann.vpc !in ec2.now.live
              && FilesRemoved(k) in host.chores
              && (m.spec.driver == AZURE_DRIVER ==> GroupDeleted(k) in host.chores))
        && (m.spec.driver == AWS_DRIVER && host.removed != old(host.removed)
            && ec2.undoFaults == old(ec2.undoFaults) ==>
              (ok <==> Tidy(old(ec2.now), m.ann)))
        && (ok || host.faults > old(host.faults) || ec2.undoFaults > old(ec2.undoFaults) || !Tidy(old(ec2.now), m.ann))
      ensures host.faults >= old(host.faults) && old(host.chores) <= host.chores
    {
      hide WorldOk, Effect, Winds, Tidy, Foreign, CloudOk, AnnOk, Debts, Clean, Shrinks, OthersRun;
      ghost var w := Now();
      HeldEnvironment(w);
      ok := host.RemoveFiles(session.machineObj.value.key);
      if !ok {
        MemoryIsSound(w);
        MemoryOnly(w, Now(), session.machineObj.value.key);
        BillAside(w, Now());
        return;
      }
      ghost var mid, lost;
      ok, mid, lost := RemoveAndClean(session.machineObj.value.machine.ann);
      CleanupWinds(w, mid, Now(), session.machineObj.value.key, lost);
    }

    /** Cleans up, and lets go of the Machine if that succeeds. */
    method CleanAndRelease() returns (ok: bool)
      requires Wired() && WorldOk(Now()) && session.Held() && session.machineObj.value.machine.deleted
      modifies ec2`now, ec2`undoFaults, ec2`failedDeletes, host`machines, host`removed, host`faults, host`chores
      modifies session`machineObj, store`objects, store`released
      modifies store`failedPatches, store`failedVpcPatches, store`failedReleases, store`faults, store`last
      ensures WorldOk(Now()) && session.machineObj.Some?
      ensures session.machineObj.value.key == old(session.machineObj).value.key
      ensures var k := session.machineObj.value.key;
        Effect(old(Now()), Now(), k) && Winds(old(Now()), Now(), k) && Finishes(old(Now()), Now(), k)
      ensures ok ==> session.machineObj.value.key !in store.objects
      ensures ok ==> session.machineObj.value.machine.status == old(store.objects)[session.machineObj.value.key].status
      ensures old(host.chores) <= host.chores
      ensures ok ==>
        && FilesRemoved(session.machineObj.value.key) in host.chores
        && (session.machineObj.value.machine.spec.driver == AZURE_DRIVER ==>
              GroupDeleted(session.machineObj.value.key) in host.chores)
      ensures ok || Troubled(old(Now()), Now(), session.machineObj.value.key)
    {
      hide EnvsOk, AllGoneOk, AllBacked, CloudOk, LaunchOk, BasesOk, CommitsOk, StatusOk, Progress, Effect, Winds, Tidy;
      hide NotBuilt, NoAuth, Rejected;
      ghost var w, k := Now(), session.machineObj.value.key;
      assert InStep(store.objects[k], session.machineObj.value.machine);
      ok := CleanupMachineResources();
      ghost var w1 := Now();
      if ok {
        ok := session.DropFinalizer();
        if ok {
          ReleaseOk(w, w1, Now(), k);
        } else {
          FailedRelease(w, w1, Now(), k);
          WindsBefore(w, w1, Now(), k);
        }
      }
    }

    /** `removeFinalizerAfterCleanup`. */
    method RemoveFinalizerAfterCleanup() returns (ok: bool)
      requires Wired() && WorldOk(Now()) && session.Held() && session.machineObj.value.machine.deleted
      modifies ec2`now, ec2`undoFaults, ec2`failedDeletes, host`machines, host`removed, host`faults, host`chores
      modifies session`machineObj, store`objects, store`commits, store`released
      modifies store`failedPatches, store`failedVpcPatches, store`failedReleases, store`faults, store`last
      ensures WorldOk(Now()) && session.machineObj.Some?
      ensures session.machineObj.value.key == old(session.machineObj).value.key
      ensures var k := session.machineObj.value.key;
        Effect(old(Now()), Now(), k) && Winds(old(Now()), Now(), k) && Finishes(old(Now()), Now(), k)
      ensures host.launches == old(host.launches) && host.copies == old(host.copies)
      ensures ok ==> session.machineObj.value.key !in store.objects
      ensures ok ==> session.machineObj.value.machine.status.phase == Terminating
      ensures old(host.chores) <= host.chores
      ensures ok ==>
        && FilesRemoved(session.machineObj.value.key) in host.chores
        && (session.machineObj.value.machine.spec.driver == AZURE_DRIVER ==>
              GroupDeleted(session.machineObj.value.key) in host.chores)
      ensures ok || Troubled(old(Now()), Now(), session.machineObj.value.key)
    {
      hide EnvsOk, AllGoneOk, AllBacked, CloudOk, LaunchOk, BasesOk, CommitsOk, ObjectsOk, StatusOk, Progress;
      hide Effect, Winds, Finishes, UserActs, Verdicts, SameButReady, NotBuilt, NoAuth, Rejected;
      ghost var w, k := Now(), session.machineObj.value.key;
      assert InStep(store.objects[k], session.machineObj.value.machine);
      ok := true;
      if session.machineObj.value.machine.finalizer {
        ghost var written;
        ok, written := UpdateMachineStatus();
        ghost var w1 := Now();
        StatusEffect(w, w1, k, k);
        NothingFinishes(w, w1, k);
        if !ok {
          return;
        }
        ok := CleanAndRelease();
        EffectCompose(w, w1, Now(), k);
        WindsAfter(w, w1, Now(), k);
        FinishesAfter(w, w1, Now(), k);
        if !ok {
          TroubledAfter(w, w1, Now(), k);
        }
      } else {
        assert false;
      }
    }

    // ----- the pass -----

    /** One more attempt to commit whatever is in memory: the end of every pass, and `requeueWithError`.
        Without anything in memory the original dereferences a nil pointer. */
    method CommitMemory(ghost k: Key) returns (ok: bool)
      requires Wired() && WorldOk(Now())
      modifies session`machineObj, store`objects, store`commits, store`faults, store`last
      ensures WorldOk(Now()) && Effect(old(Now()), Now(), k) && Winds(old(Now()), Now(), k)
      ensures Now() == old(Now()).(objects := store.objects, commits := store.commits, mem := session.machineObj,
                                   bill := old(Now()).bill.(requests := store.faults), last := store.last)
      ensures store.faults >= old(store.faults)
      ensures LastAnn(Now(), k) == old(LastAnn(Now(), k))
      ensures old(session.machineObj).None? ==> !ok && session.machineObj.None? && store.last == old(store.last)
      ensures old(session.machineObj).Some? ==>
        && session.machineObj.Some? && session.machineObj.value.key == old(session.machineObj).value.key
        && store.last == (if ok then UpdateDone else UpdateFailed)
        && (ok || store.faults > old(store.faults) || session.machineObj.value.key !in store.objects)
        && var s, was := session.machineObj.value.machine.status, old(session.machineObj).value.machine.status;
           SameButReady(was.conds, s.conds) && s.basis == was.basis
      ensures ok ==> Saved(Now())
      ensures forall l :: Noted(old(Now()), k, l) ==> Noted(Now(), k, l)
    {
      hide CommitsOk, EnvsOk, AllGoneOk, AllBacked, CloudOk, LaunchOk, StatusOk, Progress;
      hide Effect, Winds, UserActs, BasesOk, Verdicts, SameButReady;
      ghost var w := Now();
      if session.machineObj.None? {
        MemoryOnly(w, w, k);
        return false;
      }
      ghost var written;
      ok, written := UpdateMachineStatus();
      StatusEffect(w, Now(), session.machineObj.value.key, k);
      StatusIsQuiet(w, Now(), session.machineObj.value.key);
      QuietKeepsAnn(w, Now(), k);
      forall l | Noted(w, k, l) ensures Noted(Now(), k, l) {
        NotedStays(w, Now(), k, l);
      }
    }

    /** The object of `k` was just read. */
    ghost predicate JustRead(k: Key)
      reads session, store
    {
      k in store.objects && session.machineObj == Some(Loaded(k, store.objects[k]))
    }

    /** `ensureFinalizer`. */
    method EnsureFinalizer(k: Key) returns (ok: bool)
      requires Wired() && WorldOk(Now()) && JustRead(k) && !store.objects[k].deleted
      modifies session`machineObj, store`objects, store`released, store`failedPatches, store`failedVpcPatches
      modifies store`faults, store`last, store`failedReleases
      ensures WorldOk(Now()) && Quiet(old(Now()), Now()) && session.machineObj.Some?
      ensures session.machineObj.value.key == k
      ensures store.faults == old(store.faults) + if ok then 0 else 1
      ensures Effect(old(Now()), Now(), k)
      ensures ok ==> session.Held() && Furnished() && store.objects[k].spec == old(store.objects)[k].spec
      ensures session.machineObj.value.machine.status.conds == old(session.machineObj).value.machine.status.conds
      ensures host.copies == old(host.copies)
    {
      hide Foreign, CloudOk, CommitsOk, AllGoneOk, AllBacked, LaunchOk, StatusOk, Progress, EnvReady, AnnOk, Effect;
      hide BasesOk, Verdicts;
      ghost var w := Now();
      assert EnvOk(ec2.now, k, store.objects[k]);
      ok := session.EnsureFinalizer();
      if ok {
        FinalizedOk(w, Now(), k);
      } else {
        UserKeeps(w.objects, store.objects, k, w.commits);
        KeptTrace(w, Now());
        StatusOnlyOk(w, Now(), k);
        StatusIsQuiet(w, Now(), k);
      }
      QuietIsEffect(w, Now(), k);
    }

    /** The end of a pass: look for the outcome and commit it. */
    method Watch(ghost k: Key) returns (ok: bool)
      requires Wired() && WorldOk(Now()) && session.machineObj.Some? && session.machineObj.value.key == k
      modifies host`result, host`copies, host`faults, host`unread
      modifies session`machineObj, store`objects, store`commits, store`faults, store`last
      ensures WorldOk(Now()) && Effect(old(Now()), Now(), k)
      ensures Now() == old(Now()).(objects := store.objects, commits := store.commits,
                                   mem := session.machineObj, copies := host.copies, last := store.last,
                                   bill := Now().bill)
      ensures OnlyErrors(old(Now()).bill, Now().bill) && LastAnn(Now(), k) == old(LastAnn(Now(), k))
      ensures session.machineObj.Some? && session.machineObj.value.key == k
      ensures Closed() && Judges(old(Now()), Now(), k)
      ensures ok ==> store.last == UpdateDone
      ensures store.last == UpdateDone || store.faults > old(store.faults) || k !in store.objects
      ensures ok || store.faults > old(store.faults) || host.faults > old(host.faults)
              || Rejected(old(Now()), Now()) || k !in store.objects
      ensures forall l :: Noted(old(Now()), k, l) ==> Noted(Now(), k, l)
      ensures var was := old(session.machineObj).value.machine.status.conds;
        var c := session.machineObj.value.machine.status.conds;
        && (if IsTrue(was, MachineReady)
            then |host.copies| == |old(host.copies)| + 1 && host.copies[|old(host.copies)|].key == k
            else host.copies == old(host.copies))
        && (IsTrue(was, MachineCreating) <==> IsTrue(c, MachineCreating))
        && (IsTrue(was, MachineReady) <==> IsTrue(c, MachineReady))
        && (ok && IsTrue(c, MachineReady) ==> Polled(c))
    {
      hide WorldOk, Effect, Quiet, Noted, FirstIntegerIs, VerdictOf, Traced, Looked;
      ghost var w := Now();
      var rekey;
      rekey, ok := IsScriptFinished();
      ghost var w1 := Now();
      CopyIsQuiet(w, w1);
      QuietIsEffect(w, w1, k);
      QuietKeepsAnn(w, w1, k);
      forall l | Noted(w, k, l) ensures Noted(w1, k, l) {
        CopyKeepsNoted(w, w1, k, l);
      }
      var committed := CommitMemory(k);
      EffectCompose(w, w1, Now(), k);
      JudgesStays(w, w1, Now(), k);
      ok := ok && committed;
    }

    /** The last request was an attempt to store what is in memory, and what it stored is there. */
    ghost predicate Closed()
      reads ec2, store, host, session
    {
      store.last == UpdateFailed || (store.last == UpdateDone && Saved(Now()))
    }

    /** `createMachine` and what follows it in a pass. */
    method CreateAndWatch(k: Key) returns (ok: bool)
      requires Wired() && WorldOk(Now()) && session.Held() && Furnished() && session.machineObj.value.key == k
      modifies ec2`now, ec2`undoFaults, ec2`failedDeletes, ec2`vpcsMade, ec2`callFaults
      modifies host`machines, host`launches, host`result, host`copies, host`faults, host`unread
      modifies session`machineObj, store`objects, store`commits, store`released, store`failedPatches
      modifies store`failedVpcPatches, store`faults, store`last, store`lastSecret
      ensures WorldOk(Now()) && Effect(old(Now()), Now(), k) && RollsBack(old(Now()), Now(), k)
      ensures Judges(old(Now()), Now(), k) && Closes(old(Now()), Now(), k)
      ensures host.launches == old(host.launches) ||
        (&& !Underway(old(session.machineObj).value.machine)
         && |host.launches| == |old(host.launches)| + 1 && Noted(Now(), k, host.launches[|old(host.launches)|]))
      ensures host.copies == old(host.copies) ||
        (&& |host.copies| == |old(host.copies)| + 1 && host.copies[|old(host.copies)|].key == k
         && !old(CreationHasFailed(Now(), k)))
      ensures ok || Failing(old(Now()), Now(), k) || Rejected(old(Now()), Now()) || k !in store.objects
      ensures ok && k in store.objects ==>
        && Blocked(Now(), k)
        && (IsTrue(store.objects[k].status.conds, MachineReady) ==>
              Polled(store.objects[k].status.conds) && |host.copies| > |old(host.copies)|)
    {
      hide WorldOk, Effect, Polled, RollsBack, VerdictOf, Noted, NotBuilt, FirstIntegerIs, CreationHasFailed;
      ghost var w := Now();
      ok := CreateMachine();
      ghost var w1 := Now();
      EffectErrors(w, w1, k);
      if ok {
        CopyAllowed(w, w1, k);
        ok := Watch(k);
        FailingLater(w, w1, Now(), k);
      } else {
        var committed := CommitMemory(k);
        FailureStands(w, w1, Now(), k);
      }
      EffectCompose(w, w1, Now(), k);
      RollbackBefore(w, w1, Now(), k);
    }

    /** A pass for a Machine that is not marked for deletion, once it was read. */
    method Proceed(k: Key) returns (ok: bool)
      requires Wired() && WorldOk(Now()) && JustRead(k) && !store.objects[k].deleted
      modifies ec2`now, ec2`undoFaults, ec2`failedDeletes, ec2`vpcsMade, ec2`callFaults
      modifies host`machines, host`launches, host`result, host`copies, host`faults, host`unread
      modifies session`machineObj, store`objects, store`commits, store`released, store`failedPatches
      modifies store`failedVpcPatches, store`faults, store`last, store`lastSecret, store`failedReleases
      ensures WorldOk(Now()) && PassEffect(old(Now()), Now(), k)
      ensures Closes(old(Now()), Now(), k)
      ensures ok || Troubled(old(Now()), Now(), k)
      ensures ok && k in store.objects ==>
        && var c := store.objects[k].status.conds;
        && Blocked(Now(), k) && (IsTrue(c, MachineReady) ==> Polled(c) && |host.copies| > |old(host.copies)|)
    {
      hide WorldOk, Effect, Quiet, Polled, RollsBack, VerdictOf, Noted, NotBuilt, NoAuth, FirstIntegerIs;
      ghost var w := Now();
      ok := EnsureFinalizer(k);
      ghost var w1 := Now();
      EffectErrors(w, w1, k);
      QuietIsSteady(w, w1, k);
      if !ok {
        SteadyRollsBack(w, w1, k);
        var missing: bool := *;
        if missing && k !in store.objects {
          return true;
        }
        ok := CommitMemory(k);
        EffectCompose(w, w1, Now(), k);
        RollbackBefore(w, w1, Now(), k);
        return false;
      }
      BlockedStays(w, w1, k);
      ok := CreateAndWatch(k);
      EffectErrors(w1, Now(), k);
      EffectCompose(w, w1, Now(), k);
      RollbackAfter(w, w1, Now(), k);
      if !ok && Failing(w1, Now(), k) {
        FailureExplained(w, w1, Now(), k);
      }
    }

    /** A pass for a Machine that is marked for deletion, once it was read. */
    method Retire(k: Key) returns (ok: bool)
      requires Wired() && WorldOk(Now()) && JustRead(k) && store.objects[k].deleted
      modifies ec2`now, ec2`undoFaults, ec2`failedDeletes, host`machines, host`removed, host`faults, host`chores
      modifies session`machineObj, store`objects, store`commits, store`released
      modifies store`failedPatches, store`failedVpcPatches, store`failedReleases, store`faults, store`last
      ensures WorldOk(Now()) && PassEffect(old(Now()), Now(), k)
      ensures Closes(old(Now()), Now(), k)
      ensures ok ==> k !in store.objects
      ensures ok || Troubled(old(Now()), Now(), k)
    {
      hide WorldOk, Effect, Winds, Tidy, RollsBack, Troubled, SameButReady, VerdictOf;
      ghost var w := Now();
      EndingIsHeld(w, k);
      ok := RemoveFinalizerAfterCleanup();
      if !ok {
        ghost var w1 := Now();
        EffectErrors(w, w1, k);
        var committed := CommitMemory(k);
        EffectCompose(w, w1, Now(), k);
        if k in store.objects {
          BlockedStays(w, Now(), k);
        }
        WindsBefore(w, w1, Now(), k);
        TroubledBefore(w, w1, Now(), k);
      }
      EndingRollsBack(w, Now(), k);
    }

    /** A pass once the object was read. */
    method Dispatch(k: Key) returns (ok: bool)
      requires Wired() && WorldOk(Now()) && JustRead(k)
      modifies ec2`now, ec2`undoFaults, ec2`failedDeletes, ec2`vpcsMade, ec2`callFaults
      modifies host`machines, host`launches, host`result, host`copies, host`removed
      modifies host`faults, host`unread, host`chores
      modifies session`machineObj, store`objects, store`commits, store`released
      modifies store`failedPatches, store`failedVpcPatches, store`failedReleases
      modifies store`faults, store`last, store`lastSecret
      ensures WorldOk(Now()) && PassEffect(old(Now()), Now(), k)
      ensures Closes(old(Now()), Now(), k)
      ensures ok ==> Served(old(Now()), Now(), k)
      ensures ok || Troubled(old(Now()), Now(), k)
    {
      hide WorldOk, Effect, Winds, Polled, RollsBack, SameButReady, VerdictOf, Troubled;
      ghost var w := Now();
      if session.machineObj.value.machine.status.phase == Unset {
        ok := CommitMemory(k);
        SteadyRollsBack(w, Now(), k);
        if !ok {
          RequestTrouble(w, Now(), k);
        }
      } else if session.machineObj.value.machine.deleted {
        ok := Retire(k);
      } else {
        ok := Proceed(k);
      }
    }

    /** One pass for `k`. */
    method Reconcile(k: Key) returns (ok: bool)
      requires Wired() && WorldOk(Now())
      modifies ec2`now, ec2`undoFaults, ec2`failedDeletes, ec2`vpcsMade, ec2`callFaults
      modifies host`machines, host`launches, host`result, host`copies, host`removed
      modifies host`faults, host`unread, host`chores
      modifies session`machineObj, store`objects, store`commits, store`released
      modifies store`failedPatches, store`failedVpcPatches, store`failedReleases
      modifies store`faults, store`last, store`lastSecret
      ensures WorldOk(Now()) && PassEffect(old(Now()), Now(), k)
      ensures Closes(old(Now()), Now(), k)
      ensures ok ==> Served(old(Now()), Now(), k)
      ensures ok || Troubled(old(Now()), Now(), k)
      ensures Progresses(old(Now()), Now(), k)
    {
      hide WorldOk, Effect, Winds, Polled, RollsBack, SameButReady, VerdictOf, Troubled;
      ghost var w := Now();
      var got := store.Get(k, false);
      ghost var w1 := Now();
      ReadOk(w, w1, k);
      if got.NotFound? {
        return true;
      }
      if got.GetError? {
        ok := CommitMemory(k);
        SteadyRollsBack(w1, Now(), k);
        PassAfterRead(w, w1, Now(), k);
        RequestTrouble(w, Now(), k);
        return false;
      }
      session.machineObj := Some(Loaded(k, got.machine));
      ghost var w2 := Now();
      ReadOk(w, w2, k);
      ok := Dispatch(k);
      EffectErrors(w2, Now(), k);
      PassAfterRead(w, w2, Now(), k);
      if !ok {
        TroubledAfter(w, w2, Now(), k);
      }
    }
  }
}
