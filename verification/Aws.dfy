/** The AWS saga of pkg/controller/aws.go: create, compensate, clean up. */
module Aws {
  import opened Wrappers
  import opened Cloud
  import opened Ec2Api
  import opened Machines
  import opened Store
  import opened Sessions
  import opened Environment
  import opened SagaSteps
  import opened Polling
  import opened Arguments

  /** The search loop of `createAwsRoute` and `deleteAwsRoute`: the last listed table of the VPC. */
  method LastTableOf(rows: seq<TableRow>, v: Id) returns (t: Option<Id>)
    ensures t.None? <==> forall i :: 0 <= i < |rows| ==> rows[i].vpc != v
    ensures t.Some? ==> exists i :: 0 <= i < |rows| && rows[i] == TableRow(t.value, v)
                                    && forall j :: i < j < |rows| ==> rows[j].vpc != v
  {
    t := None;
    for n := 0 to |rows|
      invariant t.None? <==> forall i :: 0 <= i < n ==> rows[i].vpc != v
      invariant t.Some? ==> exists i :: 0 <= i < n && rows[i] == TableRow(t.value, v)
                                        && forall j :: i < j < n ==> rows[j].vpc != v
    {
      if rows[n].vpc == v {
        t := Some(rows[n].id);
      }
    }
  }

  class AwsEnvironment {
    const ec2: Ec2
    const session: Session

    constructor (ec2: Ec2, session: Session)
      ensures this.ec2 == ec2 && this.session == session
    {
      this.ec2, this.session := ec2, session;
    }

    ghost function Key(): Key
      reads session
      requires session.machineObj.Some?
    {
      session.machineObj.value.key
    }

    ghost function Ann(): Annotations
      reads session
      requires session.machineObj.Some?
    {
      session.machineObj.value.machine.ann
    }

    ghost predicate Valid()
      reads session, session.store, ec2
    {
      && session.Held()
      && CloudOk(ec2.now)
      && AnnOk(ec2.now, Key(), Ann())
    }

    // ----- routes and gateways -----

    method CreateAwsRoute(ghost k: Key, v: Id, g: Id) returns (ok: bool)
      requires CloudOk(ec2.now) && IsVpc(ec2.now, v) && Mine(ec2.now, k, v) && g != NONE
      modifies ec2`now, ec2`callFaults
      ensures ec2.callFaults >= old(ec2.callFaults)
      ensures ok || ec2.callFaults > old(ec2.callFaults) || !old(Routable(ec2.now, v))
      ensures CloudOk(ec2.now) && Foreign(ec2.now, k) == old(Foreign(ec2.now, k))
      ensures !ok ==> ec2.now == old(ec2.now)
      ensures ok ==> exists t :: IsTableOf(old(ec2.now), t, v) && ec2.now == Put(old(ec2.now), t, Table(v, g))
    {
      var listed, rows := ec2.DescribeRouteTables();
      if !listed {
        return false;
      }
      var t := LastTableOf(rows, v);
      assert forall u :: IsTableOf(ec2.now, u, v) ==> TableRow(u, v) in rows;
      if t.None? {
        return false;
      }
      assert TableRow(t.value, v) in rows;
      assert IsTableOf(ec2.now, t.value, v);
      assert Placed(ec2.now, t.value);
      ok := ec2.CreateRoute(k, t.value, g);
    }

    method DeleteAwsRoute(ghost k: Key, v: Id) returns (ok: bool)
      requires CloudOk(ec2.now) && v != NONE && (IsVpc(ec2.now, v) ==> Mine(ec2.now, k, v))
      modifies ec2`now, ec2`undoFaults
      ensures CloudOk(ec2.now) && Foreign(ec2.now, k) == old(Foreign(ec2.now, k))
      ensures !ok ==> ec2.now == old(ec2.now)
      ensures ok ==> exists t :: IsTableOf(old(ec2.now), t, v) && ec2.now == Put(old(ec2.now), t, Table(v, NONE))
      ensures RouteFree(old(ec2.now), v) ==> ec2.now == old(ec2.now)
      ensures ec2.undoFaults >= old(ec2.undoFaults)
      ensures ec2.undoFaults == old(ec2.undoFaults) && OneTable(old(ec2.now), v) ==> RouteFree(ec2.now, v)
    {
      var listed, rows := ec2.DescribeRouteTablesToUndo();
      if !listed {
        return false;
      }
      var t := LastTableOf(rows, v);
      assert forall u :: IsTableOf(ec2.now, u, v) ==> TableRow(u, v) in rows;
      if t.None? {
        return false;
      }
      assert TableRow(t.value, v) in rows;
      assert IsTableOf(ec2.now, t.value, v);
      assert Placed(ec2.now, t.value);
      ok := ec2.DeleteRoute(k, t.value);
      assert RouteFree(old(ec2.now), v) ==> ec2.now.live == old(ec2.now).live;
    }

    /** Errors of the route and of the detach call are swallowed; "does not exist" counts as success. */
    method DeleteAwsInternetGateway(ghost k: Key, g: Id, v: Id) returns (ok: bool)
      requires CloudOk(ec2.now) && v != NONE && (IsVpc(ec2.now, v) ==> Mine(ec2.now, k, v))
      requires g in ec2.now.live ==>
        Owned(ec2.now, GatewayKind, k, g) && (ec2.now.live[g] == Gateway(v) || ec2.now.live[g] == Gateway(NONE))
      modifies ec2`now, ec2`undoFaults, ec2`failedDeletes
      ensures CloudOk(ec2.now) && Foreign(ec2.now, k) == old(Foreign(ec2.now, k))
      ensures GatewayUndone(old(ec2.now), ec2.now, g, v)
      ensures ok ==> g !in ec2.now.live
      ensures ec2.failedDeletes == old(ec2.failedDeletes) + if g in ec2.now.live then 1 else 0
      ensures ec2.undoFaults >= old(ec2.undoFaults)
      ensures ec2.undoFaults == old(ec2.undoFaults) ==> ok
      ensures ec2.undoFaults == old(ec2.undoFaults) && OneTable(old(ec2.now), v) ==> RouteFree(ec2.now, v)
      ensures ok && RouteFree(old(ec2.now), v) ==> ec2.now.live == old(ec2.now).live - {g}
    {
      var routeGone := DeleteAwsRoute(k, v);
      assert GatewayUndone(old(ec2.now), ec2.now, g, v);
      var detached := ec2.DetachInternetGateway(k, g, v);
      assert GatewayUndone(old(ec2.now), ec2.now, g, v);
      var reply := ec2.DeleteInternetGateway(k, g);
      ok := !reply.Refused?;
    }

    /** Beyond EC2 a saga step touches the annotations in store and memory, and notices a deletion. */
    twostate predicate Framed()
      requires old(session.machineObj).Some?
      reads session, session.store, ec2
    {
      && session.machineObj.Some? && Key() == old(Key())
      && session.machineObj.value.machine.spec == old(session.machineObj).value.machine.spec
      && AnnotationsMove(old(session.store.objects), session.store.objects,
                         old(session.machineObj).value, session.machineObj.value)
      && session.store.released == old(session.store.released)
      && ec2.now.instances == old(ec2.now).instances
      && Foreign(ec2.now, Key()) == old(Foreign(ec2.now, Key()))
      && BornGrows(old(ec2.now), ec2.now, Key())
    }

    /** Calls that failed and may leave something behind: annotation patches and deletes. */
    ghost function Failures(): nat
      reads session.store, ec2
    {
      session.store.failedPatches + ec2.failedDeletes
    }

    /** Attaches the new gateway `g` and gives it the default route; `c` is the account before `g`. */
    method ConnectGateway(ghost k: Key, g: Id, v: Id, ghost c: Cloud) returns (ok: bool)
      requires CloudOk(c) && Fresh(c, g) && IsVpc(c, v) && Mine(c, k, v)
      requires CloudOk(ec2.now) && ec2.now == Add(c, k, g, Gateway(NONE))
      modifies ec2`now, ec2`callFaults
      ensures CloudOk(ec2.now) && Foreign(ec2.now, k) == old(Foreign(ec2.now, k))
      ensures ok ==> Unattached(c, v)
      ensures ok ==> exists t :: IsTableOf(Add(c, k, g, Gateway(v)), t, v)
                                 && ec2.now == Put(Add(c, k, g, Gateway(v)), t, Table(v, g))
      ensures !ok ==> ec2.now == Add(c, k, g, Gateway(v)) || ec2.now == Add(c, k, g, Gateway(NONE))
      ensures ec2.callFaults >= old(ec2.callFaults)
      ensures ok || ec2.callFaults > old(ec2.callFaults) || !Open(c, v)
    {
      hide Routable, Foreign;
      NoneIsDead(c);
      if Open(c, v) {
        OpenToGateway(c, k, g, v);
      }
      ok := ec2.AttachInternetGateway(k, g, v);
      if ok {
        assert ec2.now == Add(c, k, g, Gateway(v));
        assert Unattached(c, v) by {
          assert g in c.live ==> Placed(c, g);
          assert forall h :: h in c.live && h != g ==> ec2.now.live[h] == c.live[h];
        }
        ok := CreateAwsRoute(k, v, g);
      }
    }

    /** The EC2 side of `createAwsInternetGateway`: a gateway that is attached and routed, or none. */
    method RaiseGateway(k: Key, ghost a: Annotations, v: Id) returns (r: Created, ghost lost: set<Id>)
      requires CloudOk(ec2.now) && AnnOk(ec2.now, k, a)
      requires v == a.vpc && IsVpc(ec2.now, v) && SomeSubnetIn(ec2.now, v)
      modifies ec2`now, ec2`undoFaults, ec2`failedDeletes, ec2`callFaults
      ensures ec2.callFaults >= old(ec2.callFaults)
      ensures r.Made? || ec2.callFaults > old(ec2.callFaults) || !old(Open(ec2.now, v))
      ensures CloudOk(ec2.now) && Foreign(ec2.now, k) == old(Foreign(ec2.now, k))
      ensures GatewaysAdded(old(ec2.now), ec2.now, k, v) && AnnOk(ec2.now, k, a)
      ensures ec2.undoFaults >= old(ec2.undoFaults)
      ensures Debts(ec2.now, k, a) <= old(Debts(ec2.now, k, a)) + lost
      ensures r.Made? ==>
        && AnnOk(ec2.now, k, a.(gateway := r.id)) && IsAttached(ec2.now, r.id, v) && Routed(ec2.now, v, r.id)
        && Debts(ec2.now, k, a.(gateway := r.id)) <= old(Debts(ec2.now, k, a))
        && lost == {r.id} && ec2.failedDeletes == old(ec2.failedDeletes) && ec2.undoFaults == old(ec2.undoFaults)
      ensures r.NotMade? ==> ec2.failedDeletes == old(ec2.failedDeletes) + |lost|
      ensures r.NotMade? && old(RouteFree(ec2.now, v)) && ec2.undoFaults == old(ec2.undoFaults)
        ==> SameResources(ec2.now, old(ec2.now))
    {
      hide Debts, Routable, Foreign, RouteFree;
      ghost var c := ec2.now;
      lost := {};
      NoneIsDead(c);
      AnnotationsOwn(c, k, a);
      var made := ec2.CreateInternetGateway(k);
      if made.NotMade? {
        AddedNothing(c, k, a);
        return NotMade, {};
      }
      var g := made.id;
      var raised := ConnectGateway(k, g, v, c);
      ghost var c2 := ec2.now;
      if !raised {
        var gone := DeleteAwsInternetGateway(k, g, v);
        GatewayTakenBack(c, ec2.now, k, a, g, c2.live[g]);
        return NotMade, if g in ec2.now.live then {g} else {};
      }
      ghost var d := Add(c, k, g, Gateway(v));
      ghost var t :| IsTableOf(d, t, v) && c2 == Put(d, t, Table(v, g));
      GatewayRaised(c, c2, k, a, g, t);
      return Made(g), {g};
    }

    /** `lost` are the gateways that this call could neither record nor delete. */
    method CreateAwsInternetGateway(v: Id) returns (ok: bool, ghost lost: set<Id>)
      requires Valid() && v == Ann().vpc && IsVpc(ec2.now, v) && SomeSubnetIn(ec2.now, v)
      modifies ec2`now, ec2`undoFaults, ec2`failedDeletes, ec2`callFaults
      ensures ec2.callFaults >= old(ec2.callFaults)
      ensures ok || ec2.callFaults > old(ec2.callFaults)
              || session.store.failedPatches > old(session.store.failedPatches)
              || !old(Open(ec2.now, v))
      modifies session`machineObj, session.store`objects, session.store`released, session.store`failedPatches
      modifies session.store`failedVpcPatches
      ensures Valid() && Framed()
      ensures GatewaysAdded(old(ec2.now), ec2.now, Key(), v)
      ensures Ann() == old(Ann()).(gateway := Ann().gateway)
      ensures ok ==> IsAttached(ec2.now, Ann().gateway, v) && Routed(ec2.now, v, Ann().gateway)
      ensures !ok ==> Ann() == old(Ann())
      ensures Debts(ec2.now, Key(), Ann()) <= old(Debts(ec2.now, Key(), Ann())) + lost
      ensures old(Failures()) + |lost| <= Failures()
      ensures session.store.failedPatches >= old(session.store.failedPatches) && ec2.undoFaults >= old(ec2.undoFaults)
      ensures session.store.failedVpcPatches == old(session.store.failedVpcPatches)
      ensures !ok && old(RouteFree(ec2.now, v)) && session.store.failedPatches == old(session.store.failedPatches)
        && ec2.undoFaults == old(ec2.undoFaults)
        ==> SameResources(ec2.now, old(ec2.now))
    {
      hide Debts;
      var made: Created;
      made, lost := RaiseGateway(session.machineObj.value.key, Ann(), v);
      if made.NotMade? {
        return false, lost;
      }
      ghost var mid;
      ok, mid := session.PatchAnnotation(GatewayField, made.id);
      if ok {
        lost := {};
      }
    }

    // ----- deleting -----

    /** Errors of the gateway are swallowed; "does not exist" counts as success. */
    method DeleteAwsSubnet(ghost k: Key, a: Annotations, s: Id) returns (ok: bool)
      requires CloudOk(ec2.now) && AnnOk(ec2.now, k, a) && a.vpc != NONE && Owned(ec2.now, SubnetKind, k, s)
      requires a.gateway != NONE && a.subnet == NONE && IsVpc(ec2.now, a.vpc) ==> OtherSubnetIn(ec2.now, a.vpc, s)
      modifies ec2`now, ec2`undoFaults, ec2`failedDeletes
      ensures CloudOk(ec2.now) && AnnOk(ec2.now, k, a) && Foreign(ec2.now, k) == old(Foreign(ec2.now, k))
      ensures SubnetUndone(old(ec2.now), ec2.now, a, s)
      ensures Debts(ec2.now, k, a) <= old(Debts(ec2.now, k, a)) + {a.gateway} * ec2.now.live.Keys
      ensures ok ==> s !in ec2.now.live
      ensures ec2.failedDeletes == old(ec2.failedDeletes)
                                   + (if s in ec2.now.live then 1 else 0) + (if a.gateway in ec2.now.live then 1 else 0)
      ensures ec2.undoFaults >= old(ec2.undoFaults)
      ensures ec2.undoFaults == old(ec2.undoFaults) ==> a.gateway !in ec2.now.live && (old(Vacant(ec2.now, s)) ==> ok)
      ensures !old(Vacant(ec2.now, s)) ==> s in ec2.now.live
      ensures a.gateway == NONE && ok ==> ec2.now.live == old(ec2.now).live - {s}
    {
      hide Debts;
      ghost var c := ec2.now;
      if a.gateway != NONE {
        var gone := DeleteAwsInternetGateway(k, a.gateway, a.vpc);
      }
      var reply := ec2.DeleteSubnet(k, s);
      ok := !reply.Refused?;
      assert SubnetUndone(c, ec2.now, a, s) by {
        NoneIsDead(c);
        assert s in c.live ==> Placed(c, s);
      }
      SubnetUndoneBooks(c, ec2.now, k, a, s);
    }

    /** The delete loop of `deleteSecurityGroup`: failures to delete a group are swallowed. */
    method DeleteSecurityGroups(ghost k: Key, v: Id) returns (ok: bool)
      requires CloudOk(ec2.now) && v != NONE && (IsVpc(ec2.now, v) ==> Mine(ec2.now, k, v))
      modifies ec2`now, ec2`undoFaults
      ensures CloudOk(ec2.now) && Foreign(ec2.now, k) == old(Foreign(ec2.now, k))
      ensures GroupsDropped(old(ec2.now), ec2.now, v)
      ensures ec2.undoFaults >= old(ec2.undoFaults)
      ensures ec2.undoFaults == old(ec2.undoFaults) ==> ok && forall x :: x in ec2.now.live ==>
        ec2.now.live[x] != Group(v, false)
    {
      var ids;
      ok, ids := ec2.DescribeSecurityGroups(v);
      if !ok {
        return;
      }
      for n := 0 to |ids|
        invariant CloudOk(ec2.now) && Foreign(ec2.now, k) == old(Foreign(ec2.now, k))
        invariant GroupsDropped(old(ec2.now), ec2.now, v)
        invariant ec2.undoFaults >= old(ec2.undoFaults)
        invariant ec2.undoFaults == old(ec2.undoFaults) ==>
          forall x :: x in ec2.now.live && ec2.now.live[x] == Group(v, false) ==> x in ids[n..]
      {
        assert IsGroupOf(old(ec2.now), ids[n], v);
        assert Placed(old(ec2.now), ids[n]);
        var gone := ec2.DeleteSecurityGroup(k, ids[n]);
      }
    }

    /** `deleteAwsVpc`, for rollback and cleanup alike. Whatever fails, the account that a complete
        cleanup leads to stays the same; if EC2's rules are the only obstacle, it is reached exactly
        when nothing unreachable sits in the VPC. */
    method DeleteAwsVpc(ghost k: Key, a: Annotations) returns (ok: bool, ghost lost: set<Id>)
      requires CloudOk(ec2.now) && AnnOk(ec2.now, k, a)
      modifies ec2`now, ec2`undoFaults, ec2`failedDeletes
      ensures CloudOk(ec2.now) && AnnOk(ec2.now, k, a) && Foreign(ec2.now, k) == old(Foreign(ec2.now, k))
      ensures ec2.now.born == old(ec2.now).born && ec2.now.instances == old(ec2.now).instances
      ensures Shrinks(old(ec2.now), ec2.now)
      ensures ok ==> a.vpc !in ec2.now.live
      ensures Clean(ec2.now, a) == old(Clean(ec2.now, a))
      ensures Debts(ec2.now, k, a) <= old(Debts(ec2.now, k, a)) + lost
      ensures old(ec2.failedDeletes) + |lost| <= ec2.failedDeletes
      ensures ec2.undoFaults >= old(ec2.undoFaults)
      ensures ec2.undoFaults == old(ec2.undoFaults) ==> (ok <==> old(CleanReady(ec2.now, a)))
      ensures ec2.undoFaults == old(ec2.undoFaults) && ok ==> ec2.now == old(Clean(ec2.now, a))
    {
      hide Debts, Foreign, CloudOk, AnnOk, Clean, CleanReady, Shrinks, SubnetUndone, GroupsDropped, Stripped, Vacant;
      ghost var c := ec2.now;
      lost := {};
      if a.vpc == NONE {
        NothingRecorded(c, k, a);
        return true, {};
      }
      AnnotationsOwn(c, k, a);
      if a.subnet != NONE {
        var gone := DeleteAwsSubnet(k, a, a.subnet);
        SubnetUndoneClean(c, ec2.now, a);
        lost := if a.gateway in ec2.now.live then {a.gateway} else {};
      }
      ghost var c1 := ec2.now;
      AnnotationsOwn(c1, k, a);
      ok := DeleteSecurityGroups(k, a.vpc);
      GroupsDroppedBooks(c1, ec2.now, k, a);
      ghost var d := ec2.now;
      ShrinksCompose(c, c1, d);
      if !ok {
        return;
      }
      if ec2.undoFaults == old(ec2.undoFaults) {
        IsStripped(c, c1, d, k, a);
        StrippedReady(c, d, k, a);
        if CleanReady(c, a) {
          StrippedClean(c, d, k, a);
        }
      }
      AnnotationsOwn(d, k, a);
      if IsVpc(d, a.vpc) && VpcEmpty(d, a.vpc) {
        VpcDroppedBooks(d, k, a);
        ShrinksCompose(c, d, DropVpc(d, a.vpc));
      }
      var reply := ec2.DeleteVpc(k, a.vpc);
      ok := !reply.Refused?;
    }

    // ----- creating -----

    /** The part of `createAwsSubnet` after the subnet `s` is there: connect and record it, or delete it. */
    method ConnectSubnet(v: Id, s: Id) returns (ok: bool, ghost lost: set<Id>)
      requires Valid() && v == Ann().vpc && IsVpc(ec2.now, v) && Ann().subnet == NONE
      requires IsSubnetIn(ec2.now, s, v) && Owned(ec2.now, SubnetKind, Key(), s)
      requires Ann().gateway != NONE ==> OtherSubnetIn(ec2.now, v, s)
      modifies ec2`now, ec2`undoFaults, ec2`failedDeletes, ec2`callFaults
      ensures ec2.callFaults >= old(ec2.callFaults)
      ensures ok || ec2.callFaults > old(ec2.callFaults)
              || session.store.failedPatches > old(session.store.failedPatches)
              || !old(Open(ec2.now, v))
      modifies session`machineObj, session.store`objects, session.store`released, session.store`failedPatches
      modifies session.store`failedVpcPatches
      ensures Valid() && Framed()
      ensures Ann().vpc == v && IsVpc(ec2.now, v)
      ensures if ok then EnvReady(ec2.now, Ann()) else Ann().subnet == NONE
      ensures Debts(ec2.now, Key(), Ann()) <= old(Debts(ec2.now, Key(), Ann())) - {s} + lost
      ensures old(Failures()) + |lost| <= Failures()
      ensures session.store.failedPatches >= old(session.store.failedPatches) && ec2.undoFaults >= old(ec2.undoFaults)
      ensures session.store.failedVpcPatches == old(session.store.failedVpcPatches)
      ensures !ok && old(RouteFree(ec2.now, v) && Ann().gateway == NONE && Vacant(ec2.now, s))
              && session.store.failedPatches == old(session.store.failedPatches)
                && ec2.undoFaults == old(ec2.undoFaults)
        ==> ec2.now.live == old(ec2.now).live - {s} && Ann() == old(Ann())
    {
      hide Debts, Foreign;
      ghost var k, a, c := Key(), Ann(), ec2.now;
      ok, lost := CreateAwsInternetGateway(v);
      ghost var c2 := ec2.now;
      if !ok {
        AddedKeepsOther(c, c2, k, v, s);
        var gone := DeleteAwsSubnet(k, session.machineObj.value.machine.ann, s);
        lost := SubnetTakenBack(c, c2, ec2.now, k, a, s, lost);
      } else {
        ghost var o, m := session.store.objects, session.machineObj.value;
        SubnetRecorded(c2, k, Ann(), s);
        ghost var mid;
        ok, mid := session.PatchAnnotation(SubnetField, s);
        MovesCompose(old(session.store.objects), o, session.store.objects,
                     old(session.machineObj).value, m, session.machineObj.value);
        if !ok {
          UnionSize(lost, {s});
          lost := lost + {s};
        }
      }
    }

    /** `createAwsSubnet`: subnet, gateway and route are all recorded and in place, or the subnet is not recorded. */
    method CreateAwsSubnet(v: Id) returns (ok: bool, ghost lost: set<Id>)
      requires Valid() && v == Ann().vpc && IsVpc(ec2.now, v) && Ann().subnet == NONE
      modifies ec2`now, ec2`undoFaults, ec2`failedDeletes, ec2`callFaults
      ensures ec2.callFaults >= old(ec2.callFaults)
      modifies session`machineObj, session.store`objects, session.store`released, session.store`failedPatches
      modifies session.store`failedVpcPatches
      ensures Valid() && Framed()
      ensures Ann().vpc == v && IsVpc(ec2.now, v)
      ensures var region := Lookup(old(session.machineObj).value.machine.spec.parameters, REGION);
        if region == "" then !ok && ec2.now == old(ec2.now) && Ann() == old(Ann())
        else ok || ec2.callFaults > old(ec2.callFaults)
             || session.store.failedPatches > old(session.store.failedPatches) || !old(Open(ec2.now, v))
      ensures if ok then EnvReady(ec2.now, Ann()) else Ann().subnet == NONE
      ensures Debts(ec2.now, Key(), Ann()) <= old(Debts(ec2.now, Key(), Ann())) + lost
      ensures old(Failures()) + |lost| <= Failures()
      ensures session.store.failedPatches >= old(session.store.failedPatches) && ec2.undoFaults >= old(ec2.undoFaults)
      ensures session.store.failedVpcPatches == old(session.store.failedVpcPatches)
      ensures !ok && old(RouteFree(ec2.now, v) && Ann().gateway == NONE)
              && session.store.failedPatches == old(session.store.failedPatches)
                && ec2.undoFaults == old(ec2.undoFaults)
        ==> SameResources(ec2.now, old(ec2.now)) && Ann() == old(Ann())
    {
      hide Debts, Foreign, CloudOk, EnvReady, AnnOk, Vacant, RouteFree, OtherSubnetIn;
      ghost var k, a, c := Key(), Ann(), ec2.now;
      ok, lost := false, {};
      NoneIsDead(c);
      AnnotationsOwn(c, k, a);
      if Lookup(session.machineObj.value.machine.spec.parameters, REGION) != "" {
        var made := ec2.CreateSubnet(session.machineObj.value.key, v);
        if made.Made? {
          SubnetStarted(c, ec2.now, k, a, made.id);
          ghost var d := ec2.now;
          ok, lost := ConnectSubnet(v, made.id);
          GrowsCompose(c, d, ec2.now, k);
        }
      }
    }

    /** A resource only the second half of `createAwsVpc` creates. */
    static ghost predicate IsPart(kind: Kind) { kind in {SubnetKind, GatewayKind} }

    /** The part of `createAwsVpc` after the VPC `v` is there: record it and wait for it, or take it back. */
    method RecordVpc(polls: nat -> Poll, v: Id, ghost c: Cloud) returns (ok: bool, ghost lost: set<Id>)
      requires Valid() && Ann() == NO_ANNOTATIONS && CloudOk(c)
      requires exists t, x :: IsNewVpc(c, ec2.now, Key(), v, t, x)
      modifies ec2`now, ec2`undoFaults, ec2`failedDeletes
      modifies session`machineObj, session.store`objects, session.store`released
      modifies session.store`failedPatches, session.store`failedVpcPatches
      ensures Valid() && Framed()
      ensures Ann() == NO_ANNOTATIONS || Ann() == Just(v)
      ensures session.store.failedVpcPatches + OneIfSet(Ann().vpc) == old(session.store.failedVpcPatches) + 1
      ensures ok <==> Ann() == Just(v) && SucceedsWithin(polls, 13)
      ensures ok ==> ec2.now == old(ec2.now)
      ensures Ann() == Just(v) || session.store.failedPatches > old(session.store.failedPatches)
      ensures ec2.now.born == old(ec2.now).born
      ensures Debts(ec2.now, Key(), Ann()) <= Debts(c, Key(), NO_ANNOTATIONS) + lost
      ensures old(Failures()) + |lost| <= Failures()
      ensures session.store.failedPatches >= old(session.store.failedPatches) && ec2.undoFaults >= old(ec2.undoFaults)
      ensures !ok && session.store.failedPatches == old(session.store.failedPatches)
        && ec2.undoFaults == old(ec2.undoFaults)
        ==> SameResources(ec2.now, c)
    {
      hide Debts, Foreign, CloudOk, AnnOk, Clean, CleanReady, RouteFree, IsNewVpc, Shrinks, UserActs;
      ghost var k, d := Key(), ec2.now;
      ghost var t, x :| IsNewVpc(c, d, k, v, t, x);
      VpcStarted(c, d, k, v, t, x);
      ghost var mid;
      ok, mid := session.PatchAnnotation(VpcField, v);
      if !ok {
        return false, {v};
      }
      lost := {};
      var asked;
      ok, asked := WaitForState(5, 60, polls);
      if !ok {
        VpcTakenBack(c, d, d, k, v, t, x);
        var gone;
        gone, lost := DeleteAwsVpc(k, session.machineObj.value.machine.ann);
      }
    }

    /** The first half of `createAwsVpc`: the recorded VPC, or else a new one that is recorded and waited for. */
    method FindOrCreateVpc(polls: nat -> Poll) returns (ok: bool, ghost lost: set<Id>)
      requires Valid()
      modifies ec2`now, ec2`undoFaults, ec2`failedDeletes, ec2`vpcsMade, ec2`callFaults
      ensures ec2.callFaults >= old(ec2.callFaults)
      modifies session`machineObj, session.store`objects, session.store`released, session.store`failedPatches
      modifies session.store`failedVpcPatches
      ensures Valid() && Framed()
      ensures ok ==> IsVpc(ec2.now, Ann().vpc)
      ensures ok || ec2.callFaults > old(ec2.callFaults)
              || session.store.failedPatches > old(session.store.failedPatches)
              || (if old(Ann()).vpc == NONE then !SucceedsWithin(polls, 13) else !IsVpc(old(ec2.now), old(Ann()).vpc))
      ensures ok && old(Ann()).vpc == NONE ==> Open(ec2.now, Ann().vpc)
      ensures old(Ann()).vpc != NONE ==> Ann() == old(Ann()) && ec2.now == old(ec2.now)
      ensures old(Ann()).vpc == NONE ==> Ann() == Just(Ann().vpc) && Ann().vpc !in old(ec2.now).live
      ensures old(Ann()).vpc == NONE && ok ==> SucceedsWithin(polls, 13)
      ensures forall id :: id in ec2.now.born && id !in old(ec2.now).born ==> !IsPart(ec2.now.born[id].kind)
      ensures ec2.vpcsMade + OneIfSet(old(Ann()).vpc) + old(session.store.failedVpcPatches)
              == old(ec2.vpcsMade) + OneIfSet(Ann().vpc) + session.store.failedVpcPatches
      ensures ec2.vpcsMade >= old(ec2.vpcsMade) && session.store.failedVpcPatches >= old(session.store.failedVpcPatches)
      ensures Debts(ec2.now, Key(), Ann()) <= old(Debts(ec2.now, Key(), Ann())) + lost
      ensures old(Failures()) + |lost| <= Failures()
      ensures session.store.failedPatches >= old(session.store.failedPatches) && ec2.undoFaults >= old(ec2.undoFaults)
      ensures old(Ann()).vpc == NONE && ok ==>
        RouteFree(ec2.now, Ann().vpc) && exists t, x :: IsNewVpc(old(ec2.now), ec2.now, Key(), Ann().vpc, t, x)
      ensures !ok && session.store.failedPatches == old(session.store.failedPatches)
        && ec2.undoFaults == old(ec2.undoFaults)
        ==> SameResources(ec2.now, old(ec2.now))
    {
      hide Debts, Foreign, CloudOk, AnnOk, Clean, CleanReady, RouteFree, IsNewVpc, Shrinks, UserActs;
      ghost var k, a, c := Key(), Ann(), ec2.now;
      ok, lost := false, {};
      NoneIsDead(c);
      AnnotationsBlank(c, k, a);
      if session.machineObj.value.machine.ann.vpc != NONE {
        ok := ec2.GetVpc(session.machineObj.value.machine.ann.vpc);
        return;
      }
      var made := ec2.CreateVpc(session.machineObj.value.key);
      if made.Made? {
        ghost var t, x :| IsNewVpc(c, ec2.now, k, made.id, t, x);
        VpcStarted(c, ec2.now, k, made.id, t, x);
        ok, lost := RecordVpc(polls, made.id, c);
      }
    }

    /** `createAwsVpc`. */
    method CreateAwsVpc(polls: nat -> Poll) returns (ok: bool, ghost lost: set<Id>)
      requires Valid() && (Ann().subnet != NONE ==> EnvReady(ec2.now, Ann()))
      modifies ec2`now, ec2`undoFaults, ec2`failedDeletes, ec2`vpcsMade, ec2`callFaults
      ensures ec2.callFaults >= old(ec2.callFaults)
      ensures session.store.failedPatches >= old(session.store.failedPatches)
      modifies session`machineObj, session.store`objects, session.store`released, session.store`failedPatches
      modifies session.store`failedVpcPatches
      ensures Valid() && Framed()
      ensures ok ==> EnvReady(ec2.now, Ann())
      ensures ok || ec2.callFaults > old(ec2.callFaults)
              || session.store.failedPatches > old(session.store.failedPatches)
              || (old(Ann()).vpc == NONE && !SucceedsWithin(polls, 13))
              || !old(Buildable(ec2.now, Ann(), session.machineObj.value.machine.spec))
      ensures old(Ann()).subnet == NONE && Lookup(old(session.machineObj).value.machine.spec.parameters, REGION) == ""
        ==> !ok
      ensures Ann().subnet != NONE ==> EnvReady(ec2.now, Ann())
      ensures old(Ann()).vpc != NONE ==> Ann().vpc == old(Ann()).vpc
      ensures old(Ann().vpc != NONE && !IsVpc(ec2.now, Ann().vpc)) ==>
        !ok && ec2.now == old(ec2.now) && Ann() == old(Ann())
      ensures old(Ann()).vpc == NONE && !SucceedsWithin(polls, 13) ==>
        !ok && forall id :: id in ec2.now.born && id !in old(ec2.now).born ==> !IsPart(ec2.now.born[id].kind)
      ensures ec2.vpcsMade + OneIfSet(old(Ann()).vpc) + old(session.store.failedVpcPatches)
              == old(ec2.vpcsMade) + OneIfSet(Ann().vpc) + session.store.failedVpcPatches
      ensures ec2.vpcsMade >= old(ec2.vpcsMade) && session.store.failedVpcPatches >= old(session.store.failedVpcPatches)
      ensures Debts(ec2.now, Key(), Ann()) <= old(Debts(ec2.now, Key(), Ann())) + lost
      ensures old(Failures()) + |lost| <= Failures() && ec2.undoFaults >= old(ec2.undoFaults)
      ensures old(Ann()) == NO_ANNOTATIONS && !ok
              && session.store.failedPatches == old(session.store.failedPatches)
                && ec2.undoFaults == old(ec2.undoFaults)
        ==> SameResources(ec2.now, old(ec2.now)) && Ann().vpc !in ec2.now.live
    {
      hide Debts, Foreign, CloudOk, AnnOk, EnvReady, CleanReady, Clean, RouteFree, BornGrows, AnnotationsMove;
      hide IsNewVpc, Shrinks;
      ghost var k, a, c := Key(), Ann(), ec2.now;
      if a.subnet != NONE {
        ReadyHasSubnet(c, a);
      }
      ok, lost := FindOrCreateVpc(polls);
      if !ok {
        return;
      }
      if session.machineObj.value.machine.ann.subnet == NONE {
        ghost var d, o, m, found := ec2.now, session.store.objects, session.machineObj.value, lost;
        ok, lost := CreateAwsSubnet(session.machineObj.value.machine.ann.vpc);
        MovesCompose(old(session.store.objects), o, session.store.objects,
                     old(session.machineObj).value, m, session.machineObj.value);
        GrowsCompose(c, d, ec2.now, k);
        UnionSize(found, lost);
        lost := found + lost;
        if !ok {
          ghost var e := ec2.now;
          var gone; ghost var more;
          gone, more := DeleteAwsVpc(k, session.machineObj.value.machine.ann);
          GrowsCompose(c, e, ec2.now, k);
          if a == NO_ANNOTATIONS && SameResources(e, d) && Ann() == Just(Ann().vpc) {
            ghost var t, x :| IsNewVpc(c, d, k, Ann().vpc, t, x);
            VpcTakenBack(c, d, e, k, Ann().vpc, t, x);
          }
          UnionSize(lost, more);
          lost := lost + more;
        }
      }
    }

    /** `createAWSEnvironment`. Reading the credentials may fail. */
    method CreateAwsEnvironment() returns (ok: bool, ghost lost: set<Id>)
      requires Valid() && (Ann().subnet != NONE ==> EnvReady(ec2.now, Ann()))
      modifies ec2`now, ec2`undoFaults, ec2`failedDeletes, ec2`vpcsMade, ec2`callFaults
      ensures ec2.callFaults >= old(ec2.callFaults)
      ensures session.store.failedPatches >= old(session.store.failedPatches)
      modifies session`machineObj, session.store`objects, session.store`released, session.store`failedPatches
      modifies session.store`failedVpcPatches
      ensures Valid() && Framed()
      ensures ok ==> EnvReady(ec2.now, Ann())
      ensures ok || ec2.callFaults > old(ec2.callFaults)
              || session.store.failedPatches > old(session.store.failedPatches)
              || !old(Buildable(ec2.now, Ann(), session.machineObj.value.machine.spec))
      ensures Ann().subnet != NONE ==> EnvReady(ec2.now, Ann())
      ensures old(Ann()).vpc != NONE ==> Ann().vpc == old(Ann()).vpc
      ensures old(Ann().vpc != NONE && !IsVpc(ec2.now, Ann().vpc)) ==>
        !ok && ec2.now == old(ec2.now) && Ann() == old(Ann())
      ensures ec2.vpcsMade + OneIfSet(old(Ann()).vpc) + old(session.store.failedVpcPatches)
              == old(ec2.vpcsMade) + OneIfSet(Ann().vpc) + session.store.failedVpcPatches
      ensures ec2.vpcsMade >= old(ec2.vpcsMade) && session.store.failedVpcPatches >= old(session.store.failedVpcPatches)
      ensures Debts(ec2.now, Key(), Ann()) <= old(Debts(ec2.now, Key(), Ann())) + lost
      ensures old(Failures()) + |lost| <= Failures() && ec2.undoFaults >= old(ec2.undoFaults)
      ensures old(Ann()) == NO_ANNOTATIONS && !ok
              && session.store.failedPatches == old(session.store.failedPatches)
              && ec2.undoFaults == old(ec2.undoFaults)
        ==> SameResources(ec2.now, old(ec2.now)) && Ann().vpc !in ec2.now.live
    {
      hide Debts, Foreign, CloudOk;
      NoneIsDead(ec2.now);
      var a := session.machineObj.value.machine.ann;
      ok, lost := true, {};
      if a.vpc != NONE && a.subnet != NONE && a.gateway != NONE {
        return;
      }
      ok := ec2.Connect();
      if ok {
        var polls: nat -> Poll := *;
        if a.vpc == NONE {
          polls := ec2.Availability();
        }
        ok, lost := CreateAwsVpc(polls);
      }
    }

    /** `cleanupAWSResources`. */
    method CleanupAwsResources() returns (ok: bool, ghost lost: set<Id>)
      requires Valid()
      modifies ec2`now, ec2`undoFaults, ec2`failedDeletes
      ensures CloudOk(ec2.now) && AnnOk(ec2.now, Key(), Ann())
        && Foreign(ec2.now, Key()) == old(Foreign(ec2.now, Key()))
      ensures ec2.now.born == old(ec2.now).born && ec2.now.instances == old(ec2.now).instances
      ensures Shrinks(old(ec2.now), ec2.now)
      ensures ok ==> Ann().vpc !in ec2.now.live
      ensures Debts(ec2.now, Key(), Ann()) <= old(Debts(ec2.now, Key(), Ann())) + lost
      ensures old(ec2.failedDeletes) + |lost| <= ec2.failedDeletes
      ensures Clean(ec2.now, Ann()) == old(Clean(ec2.now, Ann()))
      ensures ec2.undoFaults >= old(ec2.undoFaults)
      ensures ec2.undoFaults == old(ec2.undoFaults) ==> (ok <==> old(CleanReady(ec2.now, Ann())))
      ensures ec2.undoFaults == old(ec2.undoFaults) && ok ==> ec2.now == old(Clean(ec2.now, Ann()))
    {
      hide Debts, Foreign, CloudOk, Clean, CleanReady, AnnOk;
      var client := ec2.ConnectToUndo();
      if !client {
        return false, {};
      }
      ok, lost := DeleteAwsVpc(Key(), session.machineObj.value.machine.ann);
    }
  }
}
