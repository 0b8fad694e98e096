/** The EC2 calls of pkg/controller/aws.go. Every call may fail for reasons of its own; a call that
    fails changes nothing. The ghost counters, which nobody else writes, tell the kinds of bad luck apart. */
module Ec2Api {
  import opened Cloud
  import opened Polling

  /** `Missing` is the error whose text contains "does not exist". */
  datatype Reply = Done | Missing | Refused

  datatype Created = Made(id: Id) | NotMade

  datatype TableRow = TableRow(id: Id, vpc: Id)

  class Ec2 {
    var now: Cloud
    /** successful CreateVpc calls */
    ghost var vpcsMade: nat
    /** DeleteSubnet and DeleteInternetGateway calls that failed although the resource was there */
    ghost var failedDeletes: nat
    /** compensating calls that failed although EC2's rules allow them */
    ghost var undoFaults: nat
    /** other calls that failed although EC2's rules allow them, and VPCs that did not become available */
    ghost var callFaults: nat

    constructor ()
      ensures now == Cloud(map[], map[], map[])
      ensures vpcsMade == 0 && failedDeletes == 0 && undoFaults == 0 && callFaults == 0
    {
      now := Cloud(map[], map[], map[]);
      vpcsMade, failedDeletes, undoFaults, callFaults := 0, 0, 0, 0;
    }

    /** A new VPC comes with a main route table and a default security group. */
    method CreateVpc(k: Key) returns (r: Created)
      requires CloudOk(now)
      modifies this`now, this`vpcsMade, this`callFaults
      ensures callFaults == old(callFaults) + if r.NotMade? then 1 else 0
      ensures CloudOk(now) && Foreign(now, k) == old(Foreign(now, k))
      ensures r.NotMade? ==> now == old(now) && vpcsMade == old(vpcsMade)
      ensures r.Made? ==> vpcsMade == old(vpcsMade) + 1
      ensures r.Made? ==> r.id !in old(now.born) && exists t, x :: IsNewVpc(old(now), now, k, r.id, t, x)
    {
      var v, t, x: Id := *, *, *;
      var trouble: bool := *;
      if trouble || !Fresh(now, v) || !Fresh(now, t) || !Fresh(now, x) || v == t || v == x || t == x {
        callFaults := callFaults + 1;
        return NotMade;
      }
      ghost var c := now;
      now := Add(Add(Add(now, k, v, Vpc), k, t, Table(v, NONE)), k, x, Group(v, true));
      assert IsNewVpc(c, now, k, v, t, x);
      NewVpcOk(c, now, k, v, t, x);
      vpcsMade := vpcsMade + 1;
      r := Made(v);
    }

    method CreateSubnet(k: Key, v: Id) returns (r: Created)
      requires CloudOk(now) && (IsVpc(now, v) ==> Mine(now, k, v))
      modifies this`now, this`callFaults
      ensures callFaults == old(callFaults) + if r.NotMade? && IsVpc(old(now), v) then 1 else 0
      ensures CloudOk(now) && Foreign(now, k) == old(Foreign(now, k))
      ensures r.NotMade? ==> now == old(now)
      ensures r.Made? ==> IsVpc(old(now), v) && Fresh(old(now), r.id) && now == Add(old(now), k, r.id, Subnet(v))
    {
      var s: Id := *;
      var trouble: bool := *;
      if !IsVpc(now, v) {
        return NotMade;
      }
      if trouble || !Fresh(now, s) {
        callFaults := callFaults + 1;
        return NotMade;
      }
      ghost var c := now;
      now := Add(now, k, s, Subnet(v));
      AddOk(c, k, s, Subnet(v));
      r := Made(s);
    }

    method CreateInternetGateway(k: Key) returns (r: Created)
      requires CloudOk(now)
      modifies this`now, this`callFaults
      ensures callFaults == old(callFaults) + if r.NotMade? then 1 else 0
      ensures CloudOk(now) && Foreign(now, k) == old(Foreign(now, k))
      ensures r.NotMade? ==> now == old(now)
      ensures r.Made? ==> Fresh(old(now), r.id) && now == Add(old(now), k, r.id, Gateway(NONE))
    {
      var g: Id := *;
      var trouble: bool := *;
      if trouble || !Fresh(now, g) {
        callFaults := callFaults + 1;
        return NotMade;
      }
      ghost var c := now;
      now := Add(now, k, g, Gateway(NONE));
      AddOk(c, k, g, Gateway(NONE));
      r := Made(g);
    }

    /** At most one gateway can be attached to a VPC. */
    method AttachInternetGateway(ghost k: Key, g: Id, v: Id) returns (ok: bool)
      requires CloudOk(now) && Mine(now, k, g) && (IsVpc(now, v) ==> Mine(now, k, v))
      modifies this`now, this`callFaults
      ensures callFaults == old(callFaults)
        + if !ok && IsVpc(old(now), v) && IsAttached(old(now), g, NONE) && Unattached(old(now), v) then 1 else 0
      ensures CloudOk(now) && Foreign(now, k) == old(Foreign(now, k))
      ensures !ok ==> now == old(now)
      ensures ok ==> IsVpc(old(now), v) && IsAttached(old(now), g, NONE) && Unattached(old(now), v)
                     && now == Put(old(now), g, Gateway(v))
    {
      assert g in now.live ==> Placed(now, g);
      var taken := exists h | h in now.live :: now.live[h] == Gateway(v);
      var trouble: bool := *;
      if taken || !IsVpc(now, v) || !IsAttached(now, g, NONE) {
        return false;
      }
      if trouble {
        callFaults := callFaults + 1;
        return false;
      }
      ghost var c := now;
      now := Put(now, g, Gateway(v));
      PutOk(c, k, g, now.live[g]);
      ok := true;
    }

    method DetachInternetGateway(ghost k: Key, g: Id, v: Id) returns (ok: bool)
      requires CloudOk(now) && (g in now.live ==> Mine(now, k, g))
      modifies this`now, this`undoFaults
      ensures CloudOk(now) && Foreign(now, k) == old(Foreign(now, k))
      ensures !ok ==> now == old(now)
      ensures ok ==> v != NONE && IsAttached(old(now), g, v) && now == Put(old(now), g, Gateway(NONE))
      ensures undoFaults == old(undoFaults) + if !ok && v != NONE && IsAttached(old(now), g, v) then 1 else 0
    {
      assert g in now.live ==> Placed(now, g);
      if v == NONE || !IsAttached(now, g, v) {
        return false;
      }
      if * {
        undoFaults := undoFaults + 1;
        return false;
      }
      ghost var c := now;
      now := Put(now, g, Gateway(NONE));
      PutOk(c, k, g, now.live[g]);
      ok := true;
    }

    /** A gateway cannot be deleted while it is attached. */
    method DeleteInternetGateway(ghost k: Key, g: Id) returns (r: Reply)
      requires CloudOk(now) && (g in now.live ==> Owned(now, GatewayKind, k, g))
      modifies this`now, this`undoFaults, this`failedDeletes
      ensures CloudOk(now) && Foreign(now, k) == old(Foreign(now, k))
      ensures r.Done? ==> IsAttached(old(now), g, NONE) && now == Drop(old(now), g)
      ensures !r.Done? ==> now == old(now)
      ensures r.Missing? ==> g !in old(now.live)
      ensures undoFaults == old(undoFaults) + if r.Refused?
        && (g !in old(now.live) || IsAttached(old(now), g, NONE)) then 1 else 0
      ensures failedDeletes == old(failedDeletes) + if r.Refused? && g in old(now.live) then 1 else 0
    {
      assert g in now.live ==> Placed(now, g);
      if g in now.live && now.live[g] != Gateway(NONE) {
        failedDeletes := failedDeletes + 1;
        return Refused;
      }
      if * {
        undoFaults := undoFaults + 1;
        if g in now.live { failedDeletes := failedDeletes + 1; }
        return Refused;
      }
      if g !in now.live {
        return Missing;
      }
      ghost var c := now;
      now := Drop(now, g);
      DropOk(c, k, g);
      r := Done;
    }

    /** A subnet cannot be deleted while an instance lives in it. */
    method DeleteSubnet(ghost k: Key, s: Id) returns (r: Reply)
      requires CloudOk(now) && (s in now.live ==> Owned(now, SubnetKind, k, s))
      modifies this`now, this`undoFaults, this`failedDeletes
      ensures CloudOk(now) && Foreign(now, k) == old(Foreign(now, k))
      ensures r.Done? ==> s in old(now.live) && Vacant(old(now), s) && now == Drop(old(now), s)
      ensures !r.Done? ==> now == old(now)
      ensures r.Missing? ==> s !in old(now.live)
      ensures undoFaults == old(undoFaults) + if r.Refused? && Vacant(old(now), s) then 1 else 0
      ensures failedDeletes == old(failedDeletes) + if r.Refused? && s in old(now.live) then 1 else 0
    {
      assert s in now.live ==> Placed(now, s);
      var busy := exists n | n in now.instances :: now.instances[n] == s;
      if busy {
        failedDeletes := failedDeletes + 1;
        return Refused;
      }
      if * {
        undoFaults := undoFaults + 1;
        if s in now.live { failedDeletes := failedDeletes + 1; }
        return Refused;
      }
      if s !in now.live {
        return Missing;
      }
      ghost var c := now;
      now := Drop(now, s);
      DropOk(c, k, s);
      r := Done;
    }

    /** A VPC cannot be deleted while a subnet, an attached gateway or a group other than the default one is in it. */
    method DeleteVpc(ghost k: Key, v: Id) returns (r: Reply)
      requires CloudOk(now) && (v in now.live ==> Owned(now, VpcKind, k, v))
      modifies this`now, this`undoFaults
      ensures CloudOk(now) && Foreign(now, k) == old(Foreign(now, k))
      ensures r.Done? ==> IsVpc(old(now), v) && VpcEmpty(old(now), v) && now == DropVpc(old(now), v)
      ensures !r.Done? ==> now == old(now)
      ensures r.Missing? ==> v !in old(now.live)
      ensures undoFaults == old(undoFaults) + if r.Refused?
        && (v !in old(now.live) || VpcEmpty(old(now), v)) then 1 else 0
    {
      assert v in now.live ==> Placed(now, v);
      if v in now.live && !VpcEmpty(now, v) {
        return Refused;
      }
      if * {
        undoFaults := undoFaults + 1;
        return Refused;
      }
      if v !in now.live {
        return Missing;
      }
      ghost var c := now;
      now := DropVpc(now, v);
      DropVpcOk(c, k, v);
      r := Done;
    }

    method CreateRoute(ghost k: Key, t: Id, g: Id) returns (ok: bool)
      requires CloudOk(now) && g != NONE && (t in now.live ==> Owned(now, TableKind, k, t))
      modifies this`now, this`callFaults
      ensures callFaults == old(callFaults)
        + if !ok && t in old(now.live) && old(now.live)[t].Table? && old(now.live)[t].route == NONE then 1 else 0
      ensures CloudOk(now) && Foreign(now, k) == old(Foreign(now, k))
      ensures !ok ==> now == old(now)
      ensures ok ==> t in old(now.live) && old(now.live)[t].Table? && old(now.live)[t].route == NONE
                     && now == Put(old(now), t, old(now.live)[t].(route := g))
    {
      assert t in now.live ==> Placed(now, t);
      var trouble: bool := *;
      if t !in now.live || now.live[t].route != NONE {
        return false;
      }
      if trouble {
        callFaults := callFaults + 1;
        return false;
      }
      ghost var c := now;
      now := Put(now, t, now.live[t].(route := g));
      PutOk(c, k, t, now.live[t]);
      ok := true;
    }

    method DeleteRoute(ghost k: Key, t: Id) returns (ok: bool)
      requires CloudOk(now) && (t in now.live ==> Owned(now, TableKind, k, t))
      modifies this`now, this`undoFaults
      ensures CloudOk(now) && Foreign(now, k) == old(Foreign(now, k))
      ensures !ok ==> now == old(now)
      ensures ok ==>
        t in old(now.live) && old(now.live)[t].Table? && now == Put(old(now), t, old(now.live)[t].(route := NONE))
      ensures undoFaults == old(undoFaults)
                            + if !ok && t in old(now.live) && old(now.live)[t].Table?
                              && old(now.live)[t].route != NONE then 1 else 0
    {
      assert t in now.live ==> Placed(now, t);
      if t !in now.live || now.live[t].route == NONE {
        return false;
      }
      if * {
        undoFaults := undoFaults + 1;
        return false;
      }
      ghost var c := now;
      now := Put(now, t, now.live[t].(route := NONE));
      PutOk(c, k, t, now.live[t]);
      ok := true;
    }

    /** The default group of a VPC cannot be deleted on its own. */
    method DeleteSecurityGroup(ghost k: Key, x: Id) returns (ok: bool)
      requires CloudOk(now) && (x in now.live ==> Owned(now, GroupKind, k, x))
      modifies this`now, this`undoFaults
      ensures CloudOk(now) && Foreign(now, k) == old(Foreign(now, k))
      ensures !ok ==> now == old(now)
      ensures ok ==>
        x in old(now.live) && old(now.live)[x].Group? && !old(now.live)[x].isDefault && now == Drop(old(now), x)
      ensures undoFaults == old(undoFaults)
                            + if !ok && x in old(now.live) && old(now.live)[x].Group?
                              && !old(now.live)[x].isDefault then 1 else 0
    {
      assert x in now.live ==> Placed(now, x);
      if x !in now.live || now.live[x].isDefault {
        return false;
      }
      if * {
        undoFaults := undoFaults + 1;
        return false;
      }
      ghost var c := now;
      now := Drop(now, x);
      DropOk(c, k, x);
      ok := true;
    }

    /** Lists every route table of the account, in any order. */
    method ListRouteTables() returns (rows: seq<TableRow>)
      ensures forall row :: row in rows <==> IsTableOf(now, row.id, row.vpc)
    {
      rows := [];
      var rest: set<Id> := set t | t in now.live && now.live[t].Table?;
      while rest != {}
        invariant forall t :: t in rest ==> t in now.live && now.live[t].Table?
        invariant forall row :: row in rows <==> IsTableOf(now, row.id, row.vpc) && row.id !in rest
        decreases |rest|
      {
        var t :| t in rest;
        rows := rows + [TableRow(t, now.live[t].home)];
        rest := rest - {t};
      }
    }

    /** DescribeRouteTables, on the way to a new route. */
    method DescribeRouteTables() returns (ok: bool, rows: seq<TableRow>)
      modifies this`callFaults
      ensures callFaults == old(callFaults) + if ok then 0 else 1
      ensures ok ==> forall row :: row in rows <==> IsTableOf(now, row.id, row.vpc)
    {
      ok := *;
      callFaults := callFaults + if ok then 0 else 1;
      rows := ListRouteTables();
    }

    /** DescribeRouteTables, on the way back. */
    method DescribeRouteTablesToUndo() returns (ok: bool, rows: seq<TableRow>)
      modifies this`undoFaults
      ensures undoFaults == old(undoFaults) + if ok then 0 else 1
      ensures ok ==> forall row :: row in rows <==> IsTableOf(now, row.id, row.vpc)
    {
      ok := *;
      undoFaults := undoFaults + if ok then 0 else 1;
      rows := ListRouteTables();
    }

    /** Lists the security groups of one VPC, in any order. */
    method DescribeSecurityGroups(v: Id) returns (ok: bool, ids: seq<Id>)
      modifies this`undoFaults
      ensures undoFaults == old(undoFaults) + if ok then 0 else 1
      ensures ok ==> forall x :: x in ids <==> IsGroupOf(now, x, v)
    {
      ids := [];
      ok := *;
      undoFaults := undoFaults + if ok then 0 else 1;
      var rest := set x | x in now.live && IsGroupOf(now, x, v);
      while rest != {}
        invariant forall x :: x in ids || x in rest <==> IsGroupOf(now, x, v)
        decreases |rest|
      {
        var x :| x in rest;
        ids := ids + [x];
        rest := rest - {x};
      }
    }

    /** `getVPC`: an error unless the VPC is there. */
    method GetVpc(v: Id) returns (ok: bool)
      modifies this`callFaults
      ensures ok ==> IsVpc(now, v)
      ensures callFaults == old(callFaults) + if !ok && IsVpc(now, v) then 1 else 0
    {
      ok := *;
      ok := ok && IsVpc(now, v);
      callFaults := callFaults + if !ok && IsVpc(now, v) then 1 else 0;
    }

    /** The answers that `getVPC` gives while the operator waits for a new VPC. */
    method Availability() returns (polls: nat -> Poll)
      modifies this`callFaults
      ensures callFaults == old(callFaults) + if SucceedsWithin(polls, 13) then 0 else 1
    {
      polls := *;
      ghost var fault := if SucceedsWithin(polls, 13) then 0 else 1;
      callFaults := callFaults + fault;
    }

    /** `awsEC2Client`, which reads the credentials, on the way to a new environment. */
    method Connect() returns (ok: bool)
      modifies this`callFaults
      ensures callFaults == old(callFaults) + if ok then 0 else 1
    {
      ok := *;
      callFaults := callFaults + if ok then 0 else 1;
    }

    /** `awsEC2Client`, on the way back. */
    method ConnectToUndo() returns (ok: bool)
      modifies this`undoFaults
      ensures undoFaults == old(undoFaults) + if ok then 0 else 1
    {
      ok := *;
      undoFaults := undoFaults + if ok then 0 else 1;
    }
  }
}
