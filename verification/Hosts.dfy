/** The operator's host: the docker-machine command and the result file in /tmp. */
module Hosts {
  import opened Wrappers
  import opened Cloud
  import opened Ec2Api
  import opened Machines
  import opened ScriptResult
  import opened Environment
  import opened Arguments

  /** One `docker-machine create`: for whom, with which arguments, how things stood, and how it ended. */
  datatype Launch = Launch(
    key: Key, spec: Spec, args: seq<string>, inputs: Inputs, ann: Annotations, cloud: Cloud, commitsBefore: nat,
    outcome: Outcome)

  datatype Outcome = Launched | AlreadyExists | LaunchFailed

  /** One `docker-machine scp`: for whom, and the file it brought unless it failed. */
  datatype Copy = Copy(key: Key, file: Option<Report>)

  /** docker-machine adds a security group to the VPC and an instance to the subnet, or part of that. */
  ghost predicate Populated(c: Cloud, d: Cloud, k: Key) {
    && BornGrows(c, d, k)
    && (forall id :: id in c.live ==> id in d.live && d.live[id] == c.live[id])
    && (forall id :: id in d.live && id !in c.live ==> id !in c.born && d.live[id].Group?)
    && OthersRun(c, d, k)
  }

  /** What cleanup does on the host and for Azure. */
  datatype Chore = FilesRemoved(key: Key) | GroupDeleted(key: Key)

  class Host {
    var machines: set<string>
    var result: Option<Report>
    /** history: the create, scp and successful rm commands so far */
    ghost var launches: seq<Launch>
    var copies: seq<Copy>
    ghost var removed: seq<Key>
    ghost var chores: set<Chore>
    /** failures, which nobody else writes: all but those of scp, and result files that could not be opened */
    ghost var faults: nat
    ghost var unread: nat

    constructor ()
      ensures machines == {} && result == None && launches == [] && copies == [] && removed == []
      ensures faults == 0 && unread == 0 && chores == {}
    {
      machines, result, launches, copies, removed := {}, None, [], [], [];
      faults, unread, chores := 0, 0, {};
    }

    /** `docker-machine create`, with the 15 minute limit as one more way to fail. */
    method DockerMachineCreate(k: Key, m: Machine, args: seq<string>, ec2: Ec2,
                               ghost inputs: Inputs, ghost commitsBefore: nat)
      returns (r: Outcome)
      requires CloudOk(ec2.now)
      requires m.spec.driver == AWS_DRIVER ==> EnvReady(ec2.now, m.ann) && AnnOk(ec2.now, k, m.ann)
      modifies this`machines, this`launches, this`faults, ec2`now
      ensures launches == old(launches) + [Launch(k, m.spec, args, inputs, m.ann, old(ec2.now), commitsBefore, r)]
      ensures faults == old(faults) + if r.LaunchFailed? then 1 else 0
      ensures CloudOk(ec2.now) && Foreign(ec2.now, k) == old(Foreign(ec2.now, k))
      ensures Populated(old(ec2.now), ec2.now, k)
      ensures m.spec.driver != AWS_DRIVER ==> ec2.now == old(ec2.now)
      ensures r.Launched? ==> k.name in machines
    {
      hide Populated, Foreign, CloudOk;
      ghost var c := ec2.now;
      NothingPopulated(c, k);
      if k.name in machines {
        var known: bool := *;
        r := if known then AlreadyExists else LaunchFailed;
      } else {
        r := CreateAnew(k, m, ec2);
      }
      faults := faults + if r.LaunchFailed? then 1 else 0;
      launches := launches + [Launch(k, m.spec, args, inputs, m.ann, c, commitsBefore, r)];
    }

    /** The command for a name that is not taken. */
    method CreateAnew(k: Key, m: Machine, ec2: Ec2) returns (r: Outcome)
      requires CloudOk(ec2.now)
      requires m.spec.driver == AWS_DRIVER ==> EnvReady(ec2.now, m.ann) && AnnOk(ec2.now, k, m.ann)
      modifies this`machines, ec2`now
      ensures CloudOk(ec2.now) && Foreign(ec2.now, k) == old(Foreign(ec2.now, k))
      ensures Populated(old(ec2.now), ec2.now, k)
      ensures m.spec.driver != AWS_DRIVER ==> ec2.now == old(ec2.now)
      ensures r.Launched? || r.LaunchFailed?
      ensures r.Launched? ==> k.name in machines
    {
      hide Populated, Foreign, CloudOk;
      ghost var c := ec2.now;
      NothingPopulated(c, k);
      var done, registered, grouped, started: bool := *, *, *, *;
      if m.spec.driver == AWS_DRIVER {
        var x: Id := *;
        if (done || grouped) && Fresh(ec2.now, x) {
          ec2.now := Add(ec2.now, k, x, Group(m.ann.vpc, false));
          GroupPopulates(c, k, m.ann, x);
        }
        if done || started {
          InstancePopulates(c, ec2.now, k, m.ann);
          ec2.now := ec2.now.(instances := ec2.now.instances[k.name := m.ann.subnet]);
        }
      }
      if done || registered {
        machines := machines + {k.name};
      }
      r := if done then Launched else LaunchFailed;
    }

    /** `docker-machine rm`: success means that the machine and its instance are gone. */
    method DockerMachineRemove(k: Key, ec2: Ec2) returns (ok: bool)
      requires CloudOk(ec2.now)
      modifies this`machines, this`removed, this`faults, ec2`now
      ensures faults == old(faults) + if ok then 0 else 1
      ensures removed == if ok then old(removed) + [k] else old(removed)
      ensures CloudOk(ec2.now) && Foreign(ec2.now, k) == old(Foreign(ec2.now, k))
      ensures ec2.now.born == old(ec2.now).born && ec2.now.live == old(ec2.now).live
      ensures OthersRun(old(ec2.now), ec2.now, k)
      ensures ok ==> k.name !in machines && k.name !in ec2.now.instances
    {
      ok := *;
      var stopped: bool := *;
      if ok || stopped {
        ghost var c := ec2.now;
        ec2.now := ec2.now.(instances := ec2.now.instances - {k.name});
        InstancesFree(c, ec2.now, k);
      }
      faults := faults + if ok then 0 else 1;
      if ok {
        machines := machines - {k.name};
        removed := removed + [k];
      }
    }

    /** `docker-machine scp`: only success says anything about the file. */
    method Scp(k: Key) returns (ok: bool)
      modifies this`result, this`copies
      ensures copies == old(copies) + [Copy(k, if ok then result else None)]
      ensures ok ==> result.Some? && result.value.machine == k.name && result.value.copy == |old(copies)|
    {
      result := *;
      var lines: seq<string> := *;
      ok := *;
      if ok {
        result := Some(Report(k.name, lines, |copies|));
      }
      copies := copies + [Copy(k, if ok then result else None)];
    }

    method OpenResult() returns (r: Option<Report>)
      modifies this`faults, this`unread
      ensures r.Some? ==> r == result
      ensures faults == old(faults) + if r.Some? then 0 else 1
      ensures unread == old(unread) + if r.Some? then 0 else 1
    {
      var readable: bool := *;
      r := if readable then result else None;
      faults := faults + if r.Some? then 0 else 1;
      unread := unread + if r.Some? then 0 else 1;
    }

    method RemoveResult() returns (ok: bool)
      modifies this`result, this`faults
      ensures result == if ok then None else old(result)
      ensures faults == old(faults) + if ok then 0 else 1
    {
      ok := *;
      if ok {
        result := None;
      }
      faults := faults + if ok then 0 else 1;
    }

    /** `deleteFiles`. */
    method RemoveFiles(k: Key) returns (ok: bool)
      modifies this`faults, this`chores
      ensures faults == old(faults) + if ok then 0 else 1
      ensures chores == if ok then old(chores) + {FilesRemoved(k)} else old(chores)
    {
      ok := *;
      chores := if ok then chores + {FilesRemoved(k)} else chores;
      faults := faults + if ok then 0 else 1;
    }

    /** `deleteAzureResourceGroup`. */
    method DeleteAzureGroup(k: Key) returns (ok: bool)
      modifies this`faults, this`chores
      ensures faults == old(faults) + if ok then 0 else 1
      ensures chores == if ok then old(chores) + {GroupDeleted(k)} else old(chores)
    {
      ok := *;
      chores := if ok then chores + {GroupDeleted(k)} else chores;
      faults := faults + if ok then 0 else 1;
    }
  }

  lemma NothingPopulated(c: Cloud, k: Key)
    ensures Populated(c, c, k)
  {}

  lemma GroupPopulates(c: Cloud, k: Key, a: Annotations, x: Id)
    requires CloudOk(c) && EnvReady(c, a) && AnnOk(c, k, a) && Fresh(c, x)
    ensures var d := Add(c, k, x, Group(a.vpc, false));
      CloudOk(d) && Foreign(d, k) == Foreign(c, k) && Populated(c, d, k) && EnvReady(d, a) && AnnOk(d, k, a)
  {
    var d := Add(c, k, x, Group(a.vpc, false));
    AddOk(c, k, x, Group(a.vpc, false));
    NoneIsDead(d);
    assert x in c.live ==> Placed(c, x);
    var t :| IsTableOf(c, t, a.vpc) && c.live[t].route == a.gateway;
    assert IsTableOf(d, t, a.vpc) && d.live[t].route == a.gateway;
  }

  lemma InstancePopulates(c: Cloud, d: Cloud, k: Key, a: Annotations)
    requires CloudOk(d) && Populated(c, d, k) && EnvReady(d, a) && AnnOk(d, k, a)
    ensures var e := d.(instances := d.instances[k.name := a.subnet]);
      CloudOk(e) && Foreign(e, k) == Foreign(d, k) && Populated(c, e, k)
  {
    InstancesFree(d, d.(instances := d.instances[k.name := a.subnet]), k);
  }

  /** Instances alone decide nothing about who owns what. */
  lemma InstancesFree(c: Cloud, d: Cloud, k: Key)
    requires CloudOk(c) && d == c.(instances := d.instances)
    requires forall n :: n in d.instances ==> n == k.name || (n in c.instances && d.instances[n] == c.instances[n])
    requires k.name in d.instances ==>
      d.instances[k.name] in c.born && d.instances[k.name] in c.live && c.live[d.instances[k.name]].Subnet?
        && c.born[d.instances[k.name]].owner.name == k.name
    ensures CloudOk(d) && Foreign(d, k) == Foreign(c, k)
  {
    forall id | id in d.live ensures Placed(d, id) {
      assert Placed(c, id);
    }
    assert Foreign(d, k) == Foreign(c, k);
  }
}
