/** What the annotations of one Machine promise about its AWS environment. */
module Environment {
  import opened Cloud
  import opened Machines
  import opened Arguments

  ghost predicate Routed(c: Cloud, v: Id, g: Id) {
    exists t :: IsTableOf(c, t, v) && c.live[t].route == g
  }

  /** The recorded VPC, subnet and gateway are live, the gateway is attached and the default route is set. */
  ghost predicate EnvReady(c: Cloud, a: Annotations) {
    && a.vpc != NONE && a.subnet != NONE && a.gateway != NONE
    && IsVpc(c, a.vpc) && IsSubnetIn(c, a.subnet, a.vpc) && IsAttached(c, a.gateway, a.vpc)
      && Routed(c, a.vpc, a.gateway)
  }

  lemma ReadyHasSubnet(c: Cloud, a: Annotations)
    requires EnvReady(c, a)
    ensures a.subnet != NONE && a.vpc != NONE && IsVpc(c, a.vpc)
  {}

  ghost predicate SomeSubnetIn(c: Cloud, v: Id) {
    exists s :: IsSubnetIn(c, s, v)
  }

  /** The annotations were set in order, name resources of this Machine, and a gateway recorded
      without a subnet means that an unrecorded subnet keeps the VPC alive. */
  ghost predicate AnnOk(c: Cloud, k: Key, a: Annotations) {
    && (a.subnet != NONE ==> a.gateway != NONE)
    && (a.gateway != NONE ==> a.vpc != NONE)
    && (a.vpc != NONE ==> Owned(c, VpcKind, k, a.vpc))
    && (a.subnet != NONE ==> Owned(c, SubnetKind, k, a.subnet))
    && (a.gateway != NONE ==> Owned(c, GatewayKind, k, a.gateway))
    && (a.subnet in c.live ==> c.live[a.subnet] == Subnet(a.vpc))
    && (a.gateway in c.live ==> c.live[a.gateway] == Gateway(a.vpc) || c.live[a.gateway] == Gateway(NONE))
    && (a.gateway != NONE && a.subnet == NONE && IsVpc(c, a.vpc) ==> SomeSubnetIn(c, a.vpc))
  }

  /** Because annotations are set in order, the three-way guard of `createAWSEnvironment` tests the subnet alone. */
  lemma SubnetDecides(c: Cloud, k: Key, a: Annotations)
    requires AnnOk(c, k, a)
    ensures a.vpc != NONE && a.subnet != NONE && a.gateway != NONE <==> a.subnet != NONE
  {}

  // ----- leaks -----

  predicate Costly(r: Resource) { r.Vpc? || r.Subnet? || r.Gateway? }

  function OneIfSet(id: Id): nat { if id != NONE then 1 else 0 }

  function Names(a: Annotations): set<Id> { {a.vpc, a.gateway, a.subnet} }

  /** Live VPCs, subnets and gateways created for `k` that its annotations do not name. */
  ghost function Unrecorded(c: Cloud, k: Key, a: Annotations): set<Id> {
    set id | id in c.live && Mine(c, k, id) && Costly(c.live[id]) && id !in Names(a)
  }

  /** The unrecorded ones, and a recorded gateway that is detached: a later retry may overwrite its record. */
  ghost function Debts(c: Cloud, k: Key, a: Annotations): set<Id> {
    set id | id in c.live && Mine(c, k, id) && Costly(c.live[id]) && (id !in Names(a) || c.live[id] == Gateway(NONE))
  }

  lemma UnrecordedAreDebts(c: Cloud, k: Key, a: Annotations)
    ensures |Unrecorded(c, k, a)| <= |Debts(c, k, a)|
  {
    SubsetSize(Unrecorded(c, k, a), Debts(c, k, a));
  }

  lemma SubsetSize<T>(a: set<T>, b: set<T>)
    requires a <= b
    ensures |a| <= |b|
  {
    assert b == a + (b - a);
  }

  // ----- rollback of a gateway -----

  ghost predicate RouteFree(c: Cloud, v: Id) {
    forall t :: IsTableOf(c, t, v) ==> c.live[t].route == NONE
  }

  /** EC2's rules allow `v` a default route. */
  ghost predicate Routable(c: Cloud, v: Id) {
    RouteFree(c, v) && exists t :: IsTableOf(c, t, v)
  }

  /** EC2's rules allow `v` a gateway and a default route. */
  ghost predicate Open(c: Cloud, v: Id) {
    Unattached(c, v) && Routable(c, v)
  }

  ghost predicate OneTable(c: Cloud, v: Id) {
    forall t, u :: IsTableOf(c, t, v) && IsTableOf(c, u, v) ==> t == u
  }

  /** EC2's rules and the region let the environment be completed. */
  ghost predicate Buildable(c: Cloud, a: Annotations, spec: Spec) {
    || a.subnet != NONE
    || (Lookup(spec.parameters, REGION) != "" && (a.vpc == NONE || (IsVpc(c, a.vpc) && Open(c, a.vpc))))
  }

  /** From `c` to `d` at most routes of `v` were cleared and the gateway `g` was detached or deleted. */
  ghost predicate GatewayUndone(c: Cloud, d: Cloud, g: Id, v: Id) {
    && d == c.(live := d.live)
    && (forall id :: id in d.live ==> id in c.live)
    && (forall id :: id in c.live && id != g ==>
          id in d.live && (d.live[id] == c.live[id] || (IsTableOf(c, id, v) && d.live[id] == Table(v, NONE))))
    && (g in d.live ==> d.live[g] == c.live[g] || d.live[g] == Gateway(NONE))
  }

  /** From `c` to `d` at most the subnet `s` was deleted and the recorded gateway was undone. */
  ghost predicate SubnetUndone(c: Cloud, d: Cloud, a: Annotations, s: Id) {
    && d == c.(live := d.live)
    && (forall id :: id in d.live ==> id in c.live)
    && (forall id :: id in c.live && id != s && id != a.gateway ==>
          id in d.live && (d.live[id] == c.live[id] || (IsTableOf(c, id, a.vpc) && d.live[id] == Table(a.vpc, NONE))))
    && (a.gateway in d.live ==> d.live[a.gateway] == c.live[a.gateway] || d.live[a.gateway] == Gateway(NONE))
    && (s in d.live ==> d.live[s] == c.live[s])
  }

  /** From `c` to `d` at most security groups of `v` were deleted. */
  ghost predicate GroupsDropped(c: Cloud, d: Cloud, v: Id) {
    && d == c.(live := d.live)
    && (forall id :: id in d.live ==> id in c.live && d.live[id] == c.live[id])
    && (forall id :: id in c.live && id !in d.live ==> IsGroupOf(c, id, v))
  }

  ghost predicate OtherSubnetIn(c: Cloud, v: Id, s: Id) {
    exists x :: x != s && IsSubnetIn(c, x, v)
  }

  /** From `c` to `d` at most gateways were added and routes of `v` changed. */
  ghost predicate GatewaysAdded(c: Cloud, d: Cloud, k: Key, v: Id) {
    && d.instances == c.instances
    && BornGrows(c, d, k)
    && (forall id :: id in c.live ==>
          id in d.live && (d.live[id] == c.live[id] || (IsTableOf(c, id, v) && IsTableOf(d, id, v))))
    && (forall id :: id in d.live && id !in c.live ==> id !in c.born && d.live[id].Gateway?)
  }

  // ----- cleanup -----

  /** The account once everything that cleanup reaches from the annotations is gone. */
  ghost function Clean(c: Cloud, a: Annotations): Cloud {
    c.(live := map id | id in c.live && !Doomed(c, a, id) :: c.live[id])
  }

  ghost predicate Doomed(c: Cloud, a: Annotations, id: Id) {
    || id == a.vpc || IsTableOf(c, id, a.vpc) || IsGroupOf(c, id, a.vpc)
    || (a.subnet != NONE && (id == a.subnet || id == a.gateway))
  }

  /** Nothing that cleanup does not reach keeps the recorded VPC alive. */
  ghost predicate CleanReady(c: Cloud, a: Annotations) {
    && (forall id :: id in c.live && a.vpc != NONE ==>
          && (c.live[id] == Subnet(a.vpc) ==> id == a.subnet)
          && (c.live[id] == Gateway(a.vpc) ==> a.subnet != NONE && id == a.gateway))
    && (a.subnet in c.live ==> Vacant(c, a.subnet))
  }

  /** No unrecorded subnet or attached gateway sits in the recorded VPC. */
  ghost predicate Tidy(c: Cloud, a: Annotations) {
    forall id :: id in c.live && a.vpc != NONE && (c.live[id] == Subnet(a.vpc) || c.live[id] == Gateway(a.vpc)) ==>
      id in Names(a)
  }

  /** On every state the operator can reach it is enough to look for unrecorded leftovers and running instances. */
  lemma CleanReadyMeaning(c: Cloud, k: Key, a: Annotations)
    requires CloudOk(c) && AnnOk(c, k, a)
    ensures CleanReady(c, a) <==> Tidy(c, a) && (a.subnet in c.live ==> Vacant(c, a.subnet))
  {
    forall id | id in c.live && a.vpc != NONE
      ensures Placed(c, id)
    {
    }
    if a.subnet == NONE && a.gateway != NONE && IsVpc(c, a.vpc) {
      var s :| IsSubnetIn(c, s, a.vpc);
      assert s !in Names(a);
    }
  }

  /** From `c` to `d` resources went away, gateways were detached and routes changed, and that is all. */
  ghost predicate Shrinks(c: Cloud, d: Cloud) {
    && d == c.(live := d.live)
    && forall id :: id in d.live ==>
         && id in c.live
         && (d.live[id] == c.live[id] || d.live[id] == Gateway(NONE) || (c.live[id].Table? && d.live[id].Table?))
  }

  lemma ShrinksCompose(c: Cloud, d: Cloud, e: Cloud)
    requires Shrinks(c, d) && Shrinks(d, e)
    ensures Shrinks(c, e)
  {
  }
}
