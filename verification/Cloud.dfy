/** The part of EC2 that the operator drives, as a value: which resources are live, where they sit,
    and (as history) for which Machine each id was created. */
module Cloud {

  /** An id handed out by EC2; `NONE` stands for the empty string of an unset annotation. */
  datatype Id = Id(text: string)
  const NONE: Id := Id("")

  /** Names a Machine object. */
  datatype Key = Key(namespace: string, name: string)

  datatype Kind = VpcKind | SubnetKind | GatewayKind | TableKind | GroupKind
  datatype Tag = Tag(kind: Kind, owner: Key)

  /** A gateway's `home` is the VPC it is attached to, or `NONE`; `route` is the gateway that the
      0.0.0.0/0 route of a route table points to, or `NONE` when the table has no such route. */
  datatype Resource =
    | Vpc
    | Subnet(home: Id)
    | Gateway(home: Id)
    | Table(home: Id, route: Id)
    | Group(home: Id, isDefault: bool)
  {
    /** The VPC this resource sits in. */
    function Home(): Id { if Vpc? then NONE else home }

    function Kind(): Kind {
      match this
      case Vpc => VpcKind
      case Subnet(_) => SubnetKind
      case Gateway(_) => GatewayKind
      case Table(_, _) => TableKind
      case Group(_, _) => GroupKind
    }
  }

  /** `born` only grows: it remembers every id ever handed out, so ids are never reused.
      `instances` maps the name of a docker machine to the subnet its instance lives in. */
  datatype Cloud = Cloud(born: map<Id, Tag>, live: map<Id, Resource>, instances: map<string, Id>)

  predicate IsVpc(c: Cloud, v: Id) { v in c.live && c.live[v].Vpc? }
  predicate IsSubnetIn(c: Cloud, s: Id, v: Id) { s in c.live && c.live[s] == Subnet(v) }
  predicate IsAttached(c: Cloud, g: Id, v: Id) { g in c.live && c.live[g] == Gateway(v) }
  predicate IsTableOf(c: Cloud, t: Id, v: Id) { t in c.live && c.live[t].Table? && c.live[t].home == v }
  predicate IsGroupOf(c: Cloud, x: Id, v: Id) { x in c.live && c.live[x].Group? && c.live[x].home == v }

  ghost predicate Mine(c: Cloud, k: Key, id: Id) {
    id in c.born && c.born[id].owner == k
  }

  ghost predicate Owned(c: Cloud, kind: Kind, k: Key, id: Id) {
    id in c.born && c.born[id] == Tag(kind, k)
  }

  /** A live resource has the kind it was created as and sits in a live VPC of the same Machine. */
  ghost predicate Placed(c: Cloud, id: Id) {
    && id in c.live
    && id in c.born
    && c.born[id].kind == c.live[id].Kind()
    && var v := c.live[id].Home();
       if v == NONE then c.live[id].Vpc? || c.live[id].Gateway? else IsVpc(c, v) && Mine(c, c.born[id].owner, v)
  }

  ghost predicate CloudOk(c: Cloud) {
    && NONE !in c.born
    && (forall id {:trigger Placed(c, id)} :: id in c.live ==> Placed(c, id))
    && (forall n :: n in c.instances ==>
          c.instances[n] in c.born && c.instances[n] in c.live && c.live[c.instances[n]].Subnet?
            && c.born[c.instances[n]].owner.name == n)
  }

  lemma NoneIsDead(c: Cloud)
    requires CloudOk(c)
    ensures NONE !in c.live
  {
    assert NONE in c.live ==> Placed(c, NONE);
  }

  /** Nothing sits in a VPC that is not there. */
  lemma DeadVpcIsEmpty(c: Cloud, v: Id)
    requires CloudOk(c) && !IsVpc(c, v)
    ensures forall id :: id in c.live && c.live[id].Home() == v ==>
      v == NONE && (c.live[id].Vpc? || c.live[id].Gateway?)
  {
    forall id | id in c.live && c.live[id].Home() == v
      ensures v == NONE && (c.live[id].Vpc? || c.live[id].Gateway?)
    {
      assert Placed(c, id);
    }
  }

  // ----- what the calls do when EC2 carries them out -----

  function Put(c: Cloud, id: Id, r: Resource): Cloud { c.(live := c.live[id := r]) }

  function Add(c: Cloud, k: Key, id: Id, r: Resource): Cloud {
    c.(born := c.born[id := Tag(r.Kind(), k)], live := c.live[id := r])
  }

  function Drop(c: Cloud, id: Id): Cloud { c.(live := c.live - {id}) }

  /** Deleting a VPC takes its route tables and security groups along. */
  function DropVpc(c: Cloud, v: Id): Cloud {
    c.(live := map id | id in c.live && id != v && !IsTableOf(c, id, v) && !IsGroupOf(c, id, v) :: c.live[id])
  }

  /** The same resources, whatever ids were used up meanwhile. */
  ghost predicate SameResources(c: Cloud, d: Cloud) {
    c.live == d.live && c.instances == d.instances
  }

  // ----- rules of EC2 -----

  ghost predicate Unattached(c: Cloud, v: Id) {
    forall g :: g in c.live ==> c.live[g] != Gateway(v)
  }

  /** DeleteVpc needs this: no subnet, no attached gateway, no group but the default one. */
  predicate VpcEmpty(c: Cloud, v: Id) {
    forall id | id in c.live ::
      c.live[id] != Subnet(v) && c.live[id] != Gateway(v) && c.live[id] != Group(v, false)
  }

  ghost predicate Vacant(c: Cloud, s: Id) {
    forall n :: n in c.instances ==> c.instances[n] != s
  }

  // ----- one Machine's share of the account, and everybody else's -----

  /** Every resource in the account that was not created for `k`. */
  ghost function Foreign(c: Cloud, k: Key): map<Id, Resource> {
    map id | id in c.live && !Mine(c, k, id) :: c.live[id]
  }

  /** Every resource in the account that was created for `k`. */
  ghost function Share(c: Cloud, k: Key): map<Id, Resource> {
    map id | id in c.live && Mine(c, k, id) :: c.live[id]
  }

  /** From `c` to `d` new ids were handed out for `k` only. */
  ghost predicate BornGrows(c: Cloud, d: Cloud, k: Key) {
    && (forall id :: id in c.born ==> id in d.born && d.born[id] == c.born[id])
    && (forall id :: id in d.born && id !in c.born ==> d.born[id].owner == k)
  }

  /** From `c` to `d` no docker machine under another name than that of `k` was started or stopped. */
  ghost predicate OthersRun(c: Cloud, d: Cloud, k: Key) {
    forall n :: n != k.name ==>
      (n in c.instances <==> n in d.instances) && (n in c.instances ==> c.instances[n] == d.instances[n])
  }

  lemma GrowsCompose(c: Cloud, d: Cloud, e: Cloud, k: Key)
    requires BornGrows(c, d, k) && (BornGrows(d, e, k) || e.born == d.born)
    ensures BornGrows(c, e, k)
  {}

  /** A change confined to resources of `k` leaves everybody else's alone. */
  lemma ForeignKept(c: Cloud, d: Cloud, k: Key)
    requires CloudOk(c) && BornGrows(c, d, k)
    requires forall id :: id in c.live && (id !in d.live || c.live[id] != d.live[id]) ==> Mine(c, k, id)
    requires forall id :: id in d.live && id !in c.live ==> Mine(d, k, id)
    ensures Foreign(c, k) == Foreign(d, k)
  {
    forall id | id in c.live ensures Placed(c, id) {}
  }

  /** The other way round: what was not created for `k` belongs to somebody, and stays as it is. */
  lemma ShareKept(c: Cloud, d: Cloud, k: Key, j: Key)
    requires CloudOk(c) && BornGrows(c, d, k) && Foreign(c, k) == Foreign(d, k) && j != k
    ensures Share(c, j) == Share(d, j)
  {
    forall id | id in c.live ensures Placed(c, id) {}
    forall id
      ensures id in Share(c, j) ==> id in Foreign(c, k) && Foreign(c, k)[id] == Share(c, j)[id]
      ensures id in Share(d, j) ==> id in Foreign(d, k) && Foreign(d, k)[id] == Share(d, j)[id]
    {
    }
    assert forall id :: id in Share(c, j) ==> id in Share(d, j);
    forall id | id in Share(d, j) ensures id in Share(c, j) {
      assert id in Foreign(c, k);
    }
  }

  // ----- every call keeps the account well formed and leaves other Machines alone -----

  predicate Fresh(c: Cloud, id: Id) { id !in c.born && id != NONE }

  ghost predicate IsNewVpc(c: Cloud, d: Cloud, k: Key, v: Id, t: Id, x: Id) {
    && Fresh(c, v) && Fresh(c, t) && Fresh(c, x) && v != t && v != x && t != x
    && d == Add(Add(Add(c, k, v, Vpc), k, t, Table(v, NONE)), k, x, Group(v, true))
  }

  ghost predicate HomeOk(c: Cloud, k: Key, r: Resource) {
    if r.Home() == NONE then r.Vpc? || r.Gateway? else IsVpc(c, r.Home()) && Mine(c, k, r.Home())
  }

  lemma AddOk(c: Cloud, k: Key, id: Id, r: Resource)
    requires CloudOk(c) && Fresh(c, id) && HomeOk(c, k, r)
    ensures CloudOk(Add(c, k, id, r)) && Foreign(Add(c, k, id, r), k) == Foreign(c, k)
  {
    var d := Add(c, k, id, r);
    assert id in c.live ==> Placed(c, id);
    forall i | i in d.live ensures Placed(d, i) {
      assert i != id ==> Placed(c, i);
    }
    ForeignKept(c, d, k);
  }

  lemma NewVpcOk(c: Cloud, d: Cloud, k: Key, v: Id, t: Id, x: Id)
    requires CloudOk(c) && IsNewVpc(c, d, k, v, t, x)
    ensures CloudOk(d) && Foreign(d, k) == Foreign(c, k)
  {
    var d1 := Add(c, k, v, Vpc);
    var d2 := Add(d1, k, t, Table(v, NONE));
    AddOk(c, k, v, Vpc);
    AddOk(d1, k, t, Table(v, NONE));
    AddOk(d2, k, x, Group(v, true));
  }

  lemma PutOk(c: Cloud, k: Key, id: Id, r: Resource)
    requires CloudOk(c) && id in c.live && Owned(c, r.Kind(), k, id) && !r.Vpc? && HomeOk(c, k, r)
    ensures CloudOk(Put(c, id, r)) && Foreign(Put(c, id, r), k) == Foreign(c, k)
  {
    var d := Put(c, id, r);
    assert Placed(c, id);
    forall i | i in d.live ensures Placed(d, i) {
      assert Placed(c, i);
    }
    ForeignKept(c, d, k);
  }

  lemma DropOk(c: Cloud, k: Key, id: Id)
    requires CloudOk(c) && id in c.live && Mine(c, k, id) && !c.live[id].Vpc? && Vacant(c, id)
    ensures CloudOk(Drop(c, id)) && Foreign(Drop(c, id), k) == Foreign(c, k)
  {
    var d := Drop(c, id);
    forall i | i in d.live ensures Placed(d, i) {
      assert Placed(c, i);
    }
    ForeignKept(c, d, k);
  }

  lemma DropVpcOk(c: Cloud, k: Key, v: Id)
    requires CloudOk(c) && IsVpc(c, v) && Mine(c, k, v) && VpcEmpty(c, v)
    ensures CloudOk(DropVpc(c, v)) && Foreign(DropVpc(c, v), k) == Foreign(c, k)
  {
    var d := DropVpc(c, v);
    forall i | i in c.live ensures Placed(c, i) && (i in d.live ==> Placed(d, i)) {
      assert Placed(c, i);
    }
    ForeignKept(c, d, k);
  }
}
