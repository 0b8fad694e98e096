/** What single steps of the AWS saga do to the account and to the books kept about it. */
module SagaSteps {
  import opened Cloud
  import opened Machines
  import opened Environment

  /** In an open VPC a new gateway can be attached, and then be given the default route. */
  lemma OpenToGateway(c: Cloud, k: Key, g: Id, v: Id)
    requires CloudOk(c) && Open(c, v) && Fresh(c, g) && v != NONE
    ensures Unattached(Add(c, k, g, Gateway(NONE)), v) && Routable(Add(c, k, g, Gateway(v)), v)
  {
    assert g in c.live ==> Placed(c, g);
    var d := Add(c, k, g, Gateway(v));
    var t :| IsTableOf(c, t, v);
    assert IsTableOf(d, t, v);
  }

  lemma AddedKeepsAnn(c: Cloud, d: Cloud, k: Key, a: Annotations)
    requires CloudOk(c) && CloudOk(d) && AnnOk(c, k, a) && GatewaysAdded(c, d, k, a.vpc)
    ensures AnnOk(d, k, a)
    ensures SomeSubnetIn(c, a.vpc) ==> SomeSubnetIn(d, a.vpc)
  {
    NoneIsDead(d);
    if SomeSubnetIn(c, a.vpc) {
      var s :| IsSubnetIn(c, s, a.vpc);
      assert IsSubnetIn(d, s, a.vpc);
    }
  }

  lemma AddedNothing(c: Cloud, k: Key, a: Annotations)
    ensures GatewaysAdded(c, c, k, a.vpc)
  {}

  lemma AddedDebts(c: Cloud, d: Cloud, k: Key, a: Annotations, g: Id)
    requires CloudOk(c) && AnnOk(c, k, a) && GatewaysAdded(c, d, k, a.vpc)
    requires forall id :: id in d.live && id !in c.live ==> id == g
    ensures Debts(d, k, a) <= Debts(c, k, a) + {g} * d.live.Keys
  {
    forall id | id in Debts(d, k, a) && id in c.live
      ensures id in Debts(c, k, a)
    {
      assert Placed(c, id);
    }
  }

  /** A new gateway that was attached or not, and then taken back as far as possible. */
  lemma GatewayTakenBack(c: Cloud, d: Cloud, k: Key, a: Annotations, g: Id, r: Resource)
    requires CloudOk(c) && AnnOk(c, k, a) && a.vpc != NONE && Fresh(c, g) && r in {Gateway(a.vpc), Gateway(NONE)}
    requires CloudOk(d) && GatewayUndone(Add(c, k, g, r), d, g, a.vpc)
    ensures GatewaysAdded(c, d, k, a.vpc) && AnnOk(d, k, a)
    ensures Debts(d, k, a) <= Debts(c, k, a) + {g} * d.live.Keys
    ensures RouteFree(c, a.vpc) && g !in d.live ==> d.live == c.live
  {
    UndoneIsAdded(c, d, k, a.vpc, g, r);
    AddedKeepsAnn(c, d, k, a);
    AddedDebts(c, d, k, a, g);
  }

  lemma UndoneIsAdded(c: Cloud, d: Cloud, k: Key, v: Id, g: Id, r: Resource)
    requires CloudOk(c) && v != NONE && Fresh(c, g) && r in {Gateway(v), Gateway(NONE)}
    requires GatewayUndone(Add(c, k, g, r), d, g, v)
    ensures GatewaysAdded(c, d, k, v)
    ensures forall id :: id in d.live && id !in c.live ==> id == g
    ensures RouteFree(c, v) && g !in d.live ==> d.live == c.live
  {
    assert g !in c.live by { assert g in c.live ==> Placed(c, g); }
    var c1 := Add(c, k, g, r);
    forall id | id in c.live
      ensures id in d.live && (d.live[id] == c.live[id] || (IsTableOf(c, id, v) && IsTableOf(d, id, v)))
      ensures RouteFree(c, v) ==> d.live[id] == c.live[id]
    {
      assert id != g && c1.live[id] == c.live[id];
    }
  }

  /** A new gateway that was attached and given the default route, before and after it is recorded. */
  lemma GatewayRaised(c: Cloud, d: Cloud, k: Key, a: Annotations, g: Id, t: Id)
    requires CloudOk(c) && AnnOk(c, k, a) && IsVpc(c, a.vpc) && Fresh(c, g) && SomeSubnetIn(c, a.vpc)
      && Unattached(c, a.vpc)
    requires var c2 := Add(c, k, g, Gateway(a.vpc)); IsTableOf(c2, t, a.vpc) && d == Put(c2, t, Table(a.vpc, g))
    requires CloudOk(d)
    ensures GatewaysAdded(c, d, k, a.vpc) && AnnOk(d, k, a) && AnnOk(d, k, a.(gateway := g))
    ensures IsAttached(d, g, a.vpc) && Routed(d, a.vpc, g)
    ensures Debts(d, k, a) <= Debts(c, k, a) + {g}
    ensures Debts(d, k, a.(gateway := g)) <= Debts(c, k, a)
  {
    assert g !in c.live by { assert g in c.live ==> Placed(c, g); }
    assert Placed(c, a.vpc);
    AddedKeepsAnn(c, d, k, a);
    AddedDebts(c, d, k, a, g);
    assert IsTableOf(d, t, a.vpc) && d.live[t].route == g;
    RecordedDebts(c, d, k, a, g);
  }

  /** Recording the new gateway: the one recorded before, if live, is detached and was a debt already. */
  lemma RecordedDebts(c: Cloud, d: Cloud, k: Key, a: Annotations, g: Id)
    requires CloudOk(c) && AnnOk(c, k, a) && a.vpc != NONE && Unattached(c, a.vpc) && Fresh(c, g)
    requires Debts(d, k, a) <= Debts(c, k, a) + {g} && GatewaysAdded(c, d, k, a.vpc) && IsAttached(d, g, a.vpc)
    ensures Debts(d, k, a.(gateway := g)) <= Debts(c, k, a)
  {
    forall id | id in Debts(d, k, a.(gateway := g))
      ensures id in Debts(c, k, a)
    {
      assert id in c.live ==> Placed(c, id);
      if id == a.gateway && id != g {
        assert d.live[id] == Gateway(NONE);
      }
    }
  }

  // ----- a subnet, before and after it is recorded -----

  lemma SubnetStarted(c: Cloud, d: Cloud, k: Key, a: Annotations, s: Id)
    requires CloudOk(c) && AnnOk(c, k, a) && IsVpc(c, a.vpc) && Fresh(c, s) && a.subnet == NONE
      && d == Add(c, k, s, Subnet(a.vpc))
    ensures AnnOk(d, k, a) && SomeSubnetIn(d, a.vpc) && Debts(d, k, a) <= Debts(c, k, a) + {s}
    ensures a.gateway != NONE ==> OtherSubnetIn(d, a.vpc, s)
    ensures RouteFree(c, a.vpc) ==> RouteFree(d, a.vpc)
    ensures Open(c, a.vpc) ==> Open(d, a.vpc)
    ensures s !in c.live && Vacant(d, s) && BornGrows(c, d, k) && d.instances == c.instances
    ensures IsSubnetIn(d, s, a.vpc) && Owned(d, SubnetKind, k, s) && IsVpc(d, a.vpc) && d.live - {s} == c.live
  {
    NoneIsDead(c);
    assert s in c.live ==> Placed(c, s);
    assert IsSubnetIn(d, s, a.vpc);
    if a.gateway != NONE {
      var x :| IsSubnetIn(c, x, a.vpc);
      assert x != s && IsSubnetIn(d, x, a.vpc);
    }
    if Open(c, a.vpc) {
      var t :| IsTableOf(c, t, a.vpc);
      assert IsTableOf(d, t, a.vpc);
    }
  }

  lemma AddedKeepsOther(c: Cloud, d: Cloud, k: Key, v: Id, s: Id)
    requires GatewaysAdded(c, d, k, v)
    ensures OtherSubnetIn(c, v, s) ==> OtherSubnetIn(d, v, s)
  {
    if OtherSubnetIn(c, v, s) {
      var x :| x != s && IsSubnetIn(c, x, v);
      assert IsSubnetIn(d, x, v);
    }
  }

  lemma SubnetRecorded(d: Cloud, k: Key, a: Annotations, s: Id)
    requires CloudOk(d) && AnnOk(d, k, a) && a.subnet == NONE && a.gateway != NONE
    requires IsSubnetIn(d, s, a.vpc) && Owned(d, SubnetKind, k, s)
    ensures AnnOk(d, k, a.(subnet := s)) && Debts(d, k, a.(subnet := s)) <= Debts(d, k, a) - {s}
  {
    NoneIsDead(d);
  }

  /** The subnet `s` of a failed attempt was taken back as far as possible. */
  lemma SubnetTakenBack(c: Cloud, c2: Cloud, d: Cloud, k: Key, a: Annotations, s: Id, lost: set<Id>)
    returns (all: set<Id>)
    requires GatewaysAdded(c, c2, k, a.vpc) && SubnetUndone(c2, d, a, s) && IsVpc(c, a.vpc) && a.vpc != s
      && a.vpc != a.gateway
    requires Debts(c2, k, a) <= Debts(c, k, a) + lost
    requires Debts(d, k, a) <= Debts(c2, k, a) + {a.gateway} * d.live.Keys
    ensures BornGrows(c, d, k) && IsVpc(d, a.vpc)
    ensures Debts(d, k, a) <= Debts(c, k, a) - {s} + all
    ensures |all| <= |lost| + (if s in d.live then 1 else 0) + (if a.gateway in d.live then 1 else 0)
  {
    var stuck := (if s in d.live then {s} else {});
    var loose := (if a.gateway in d.live then {a.gateway} else {});
    UnionSize(lost, stuck);
    UnionSize(lost + stuck, loose);
    all := lost + stuck + loose;
    assert s !in d.live ==> s !in Debts(d, k, a);
  }

  lemma UnionSize<T>(a: set<T>, b: set<T>)
    ensures |a + b| <= |a| + |b|
  {
    assert a + b == a + (b - a);
    assert b == (b - a) + (b * a);
  }

  // ----- deleting -----

  lemma SubnetUndoneBooks(c: Cloud, d: Cloud, k: Key, a: Annotations, s: Id)
    requires CloudOk(c) && CloudOk(d) && AnnOk(c, k, a) && a.vpc != NONE && SubnetUndone(c, d, a, s)
    requires a.gateway != NONE && a.subnet == NONE && IsVpc(c, a.vpc) ==> OtherSubnetIn(c, a.vpc, s)
    requires Owned(c, SubnetKind, k, s)
    ensures AnnOk(d, k, a)
    ensures Debts(d, k, a) <= Debts(c, k, a) + {a.gateway} * d.live.Keys
  {
    if OtherSubnetIn(c, a.vpc, s) {
      var x :| x != s && IsSubnetIn(c, x, a.vpc);
      assert Placed(c, x);
      assert IsSubnetIn(d, x, a.vpc);
    }
  }

  lemma SubnetUndoneClean(c: Cloud, d: Cloud, a: Annotations)
    requires a.subnet != NONE && SubnetUndone(c, d, a, a.subnet)
    ensures Clean(d, a) == Clean(c, a) && Shrinks(c, d)
  {
    assert Clean(d, a).live == Clean(c, a).live;
  }

  lemma AnnotationsOwn(c: Cloud, k: Key, a: Annotations)
    requires AnnOk(c, k, a)
    ensures a.vpc != NONE ==> Owned(c, VpcKind, k, a.vpc)
    ensures a.subnet != NONE ==> Owned(c, SubnetKind, k, a.subnet)
    ensures Shrinks(c, c)
  {}

  /** With nothing recorded there is nothing to clean up. */
  lemma NothingRecorded(c: Cloud, k: Key, a: Annotations)
    requires CloudOk(c) && AnnOk(c, k, a) && a.vpc == NONE
    ensures NONE !in c.live && Clean(c, a) == c && CleanReady(c, a) && Shrinks(c, c)
  {
    NoneIsDead(c);
    DeadVpcIsEmpty(c, NONE);
    assert Clean(c, a).live == c.live;
  }

  lemma GroupsDroppedBooks(c: Cloud, d: Cloud, k: Key, a: Annotations)
    requires CloudOk(c) && AnnOk(c, k, a) && GroupsDropped(c, d, a.vpc)
    ensures AnnOk(d, k, a) && Debts(d, k, a) <= Debts(c, k, a) && Clean(d, a) == Clean(c, a) && Shrinks(c, d)
  {
    if SomeSubnetIn(c, a.vpc) {
      var s :| IsSubnetIn(c, s, a.vpc);
      assert IsSubnetIn(d, s, a.vpc);
    }
    assert Clean(d, a).live == Clean(c, a).live;
  }

  lemma VpcDroppedBooks(c: Cloud, k: Key, a: Annotations)
    requires CloudOk(c) && AnnOk(c, k, a) && IsVpc(c, a.vpc) && VpcEmpty(c, a.vpc)
    ensures var d := DropVpc(c, a.vpc);
      AnnOk(d, k, a) && Debts(d, k, a) <= Debts(c, k, a) && Clean(d, a) == Clean(c, a) && Shrinks(c, d)
  {
    assert Clean(DropVpc(c, a.vpc), a).live == Clean(c, a).live;
  }

  /** The state just before DeleteVpc when nothing but EC2's rules stood in the way so far. */
  ghost predicate Stripped(c: Cloud, d: Cloud, a: Annotations) {
    && d == c.(live := d.live)
    && (forall id :: id in d.live ==>
      id in c.live && !(a.subnet != NONE && id == a.gateway) && c.live[id] != Group(a.vpc, false)
                                      && (id == a.subnet ==> !Vacant(c, id)))
    && (forall id :: id in c.live && !Doomed(c, a, id) ==> id in d.live && d.live[id] == c.live[id])
    && (forall id :: id in d.live && d.live[id] != c.live[id] ==> IsTableOf(c, id, a.vpc) && IsTableOf(d, id, a.vpc))
    && (a.vpc in c.live ==> a.vpc in d.live)
    && (a.subnet in c.live && !Vacant(c, a.subnet) ==> a.subnet in d.live)
  }

  lemma IsStripped(c: Cloud, c1: Cloud, d: Cloud, k: Key, a: Annotations)
    requires CloudOk(c) && AnnOk(c, k, a) && a.vpc != NONE
    requires if a.subnet == NONE then c1 == c else
      SubnetUndone(c, c1, a, a.subnet) && a.gateway !in c1.live
        && (a.subnet in c1.live <==> a.subnet in c.live && !Vacant(c, a.subnet))
    requires GroupsDropped(c1, d, a.vpc) && forall x :: x in d.live ==> d.live[x] != Group(a.vpc, false)
    ensures Stripped(c, d, a)
  {
    NoneIsDead(c);
    assert a.vpc in c.live ==> Placed(c, a.vpc);
    assert a.gateway in c.live ==> Placed(c, a.gateway);
  }

  lemma StrippedReady(c: Cloud, d: Cloud, k: Key, a: Annotations)
    requires CloudOk(c) && AnnOk(c, k, a) && a.vpc != NONE && Stripped(c, d, a)
    ensures a.vpc in d.live ==> (VpcEmpty(d, a.vpc) <==> CleanReady(c, a))
    ensures a.vpc !in d.live ==> CleanReady(c, a)
  {
    assert a.vpc in c.live ==> Placed(c, a.vpc);
    if a.vpc !in c.live {
      DeadVpcIsEmpty(c, a.vpc);
    }
    if a.vpc in d.live && VpcEmpty(d, a.vpc) {
      forall id | id in c.live
        ensures c.live[id] == Subnet(a.vpc) ==> id == a.subnet
        ensures c.live[id] == Gateway(a.vpc) ==> a.subnet != NONE && id == a.gateway
      {
        assert !Doomed(c, a, id) ==> id in d.live;
      }
    }
  }

  lemma StrippedClean(c: Cloud, d: Cloud, k: Key, a: Annotations)
    requires CloudOk(c) && AnnOk(c, k, a) && a.vpc != NONE && Stripped(c, d, a) && CleanReady(c, a)
    ensures a.vpc !in d.live ==> d == Clean(c, a)
    ensures a.vpc in d.live ==> DropVpc(d, a.vpc) == Clean(c, a)
  {
    assert a.vpc in c.live ==> Placed(c, a.vpc);
    if a.vpc !in c.live {
      DeadVpcIsEmpty(c, a.vpc);
    }
    if a.vpc in d.live {
      assert DropVpc(d, a.vpc).live == Clean(c, a).live;
    } else {
      assert d.live == Clean(c, a).live;
    }
  }

  // ----- a VPC, before and after it is recorded -----

  function Just(v: Id): Annotations { Annotations(v, NONE, NONE) }

  lemma AnnotationsBlank(c: Cloud, k: Key, a: Annotations)
    requires AnnOk(c, k, a)
    ensures a.vpc == NONE ==> a == NO_ANNOTATIONS
  {}

  lemma VpcStarted(c: Cloud, d: Cloud, k: Key, v: Id, t: Id, x: Id)
    requires CloudOk(c) && IsNewVpc(c, d, k, v, t, x) && CloudOk(d)
    ensures AnnOk(d, k, NO_ANNOTATIONS) && AnnOk(d, k, Just(v)) && IsVpc(d, v) && RouteFree(d, v) && Open(d, v)
    ensures BornGrows(c, d, k) && d.instances == c.instances && v !in c.live && v != NONE
    ensures forall id :: id in d.born && id !in c.born ==> d.born[id].kind in {VpcKind, TableKind, GroupKind}
    ensures Debts(d, k, NO_ANNOTATIONS) <= Debts(c, k, NO_ANNOTATIONS) + {v}
    ensures Debts(d, k, Just(v)) <= Debts(c, k, NO_ANNOTATIONS)
  {
    NoneIsDead(d);
    assert v in c.live ==> Placed(c, v);
    assert IsTableOf(d, t, v);
    DeadVpcIsEmpty(c, v);
  }

  /** A new VPC with nothing in it can be cleaned up, and then the account is as it was. */
  lemma VpcTakenBack(c: Cloud, d: Cloud, e: Cloud, k: Key, v: Id, t: Id, x: Id)
    requires CloudOk(c) && IsNewVpc(c, d, k, v, t, x) && SameResources(e, d)
    ensures CleanReady(e, Just(v)) && Clean(e, Just(v)).live == c.live && e.instances == c.instances
  {
    NewVpcAlone(c, d, e, k, v, t, x);
    hide CloudOk, IsNewVpc, Doomed;
    assert forall id :: id in Clean(e, Just(v)).live <==> id in c.live;
  }

  /** Just what is new in the account sits in the new VPC, and none of it is a subnet or a gateway. */
  lemma NewVpcAlone(c: Cloud, d: Cloud, e: Cloud, k: Key, v: Id, t: Id, x: Id)
    requires CloudOk(c) && IsNewVpc(c, d, k, v, t, x) && SameResources(e, d)
    ensures e.instances == c.instances && NONE !in e.live
    ensures forall id :: id in c.live ==>
      id in e.live && e.live[id] == c.live[id] && e.live[id].Home() != v && !Doomed(e, Just(v), id)
    ensures forall id :: id in e.live && id !in c.live ==>
      Doomed(e, Just(v), id) && !e.live[id].Subnet? && !e.live[id].Gateway?
  {
    NoneIsDead(c);
    assert v in c.live ==> Placed(c, v);
    assert t in c.live ==> Placed(c, t);
    assert x in c.live ==> Placed(c, x);
    DeadVpcIsEmpty(c, v);
    assert e.live == c.live[v := Vpc][t := Table(v, NONE)][x := Group(v, true)];
  }
}
