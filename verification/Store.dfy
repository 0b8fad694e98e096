/** The API server's copy of the Machine objects. Every request may fail, and a failed request changes
    nothing. Just before any request the user may ask for the deletion of the object in question. */
module Store {
  import opened Wrappers
  import opened Cloud
  import opened Machines

  type Objects = map<Key, Machine>

  datatype Field = VpcField | GatewayField | SubnetField

  /** The three transformations that the operator passes to CreateOrPatch. */
  datatype Change = AddFinalizer | RemoveFinalizer | Annotate(field: Field, id: Id)

  function Annotated(a: Annotations, field: Field, id: Id): Annotations {
    match field
    case VpcField => a.(vpc := id)
    case GatewayField => a.(gateway := id)
    case SubnetField => a.(subnet := id)
  }

  function Apply(m: Machine, change: Change): Machine {
    match change
    case AddFinalizer => m.(finalizer := true)
    case RemoveFinalizer => m.(finalizer := false)
    case Annotate(field, id) => m.(ann := Annotated(m.ann, field, id))
  }

  /** The user did nothing, or deleted `k`: an object with a finalizer is only marked, one without is gone. */
  ghost predicate UserActs(o: Objects, p: Objects, k: Key) {
    || p == o
    || (k in o && o[k].finalizer && p == o[k := o[k].(deleted := true)])
    || (k in o && !o[k].finalizer && p == o - {k})
  }

  datatype GetReply = Found(machine: Machine) | NotFound | GetError

  /** A status written to the API server. */
  datatype Commit = Commit(key: Key, machine: Machine)

  /** The last request of a pass that concerns the object: a read, a status update or a patch of the finalizer. */
  datatype Request = NoRequest | ReadDone | ReadFailed | UpdateDone | UpdateFailed | PatchDone | PatchFailed

  class MachineStore {
    var objects: Objects
    /** history: Machines whose finalizer the operator removed, with their last annotations, and all statuses written */
    var released: map<Key, Annotations>
    var commits: seq<Commit>
    /** annotation patches that failed, and those among them that were to record a VPC */
    ghost var failedPatches: nat
    ghost var failedVpcPatches: nat
    /** removals of a finalizer that failed */
    ghost var failedReleases: nat
    /** reads, status updates, patches of a finalizer and reads of secrets that failed */
    ghost var faults: nat
    ghost var last: Request
    /** the data of the auth secret as it was last read */
    ghost var lastSecret: Option<map<string, string>>

    constructor ()
      ensures objects == map[] && released == map[] && commits == []
      ensures failedPatches == 0 && failedVpcPatches == 0 && failedReleases == 0 && faults == 0
      ensures last == NoRequest
    {
      objects, released, commits := map[], map[], [];
      failedPatches, failedVpcPatches, failedReleases, faults := 0, 0, 0, 0;
      last, lastSecret := NoRequest, None;
    }

    method UserMayDelete(k: Key)
      modifies this`objects
      ensures UserActs(old(objects), objects, k)
    {
      var asks: bool := *;
      if asks && k in objects {
        if objects[k].finalizer {
          objects := objects[k := objects[k].(deleted := true)];
        } else {
          objects := objects - {k};
        }
      }
    }

    method Get(k: Key, ghost updating: bool) returns (r: GetReply)
      modifies this`objects, this`faults, this`last
      ensures faults == old(faults) + if r.GetError? then 1 else 0
      ensures last == if updating then UpdateFailed else if r.GetError? then ReadFailed else ReadDone
      ensures UserActs(old(objects), objects, k)
      ensures r.Found? ==> k in objects && r.machine == objects[k]
      ensures r.NotFound? ==> k !in objects
    {
      UserMayDelete(k);
      if * {
        faults := faults + 1;
        r := GetError;
      } else if k in objects {
        r := Found(objects[k]);
      } else {
        r := NotFound;
      }
      last := if updating then UpdateFailed else if r.GetError? then ReadFailed else ReadDone;
    }

    /** CreateOrPatch: an object that is no longer there is created again from the copy in hand,
        without its status. An object marked for deletion goes away with its finalizer. */
    method CreateOrPatch(k: Key, mine: Machine, change: Change) returns (r: Option<Machine>, ghost mid: Objects)
      modifies this`objects, this`released, this`failedPatches, this`failedVpcPatches
      ensures UserActs(old(objects), mid, k)
      ensures r.None? ==> objects == mid && released == old(released)
      ensures r.Some? ==>
        && r.value == Apply(if k in mid then mid[k] else mine.(deleted := false, status := EMPTY_STATUS), change)
        && (if r.value.deleted && !r.value.finalizer
            then objects == mid - {k} && released == old(released)[k := r.value.ann]
            else objects == mid[k := r.value] && released == old(released))
      ensures failedPatches == old(failedPatches) + if r.None? && change.Annotate? then 1 else 0
      ensures failedVpcPatches == old(failedVpcPatches) + if r.None? && change.Annotate?
        && change.field.VpcField? then 1 else 0
    {
      UserMayDelete(k);
      mid := objects;
      if * {
        if change.Annotate? {
          failedPatches := failedPatches + 1;
          if change.field.VpcField? { failedVpcPatches := failedVpcPatches + 1; }
        }
        return None, mid;
      }
      var m := Apply(if k in objects then objects[k] else mine.(deleted := false, status := EMPTY_STATUS), change);
      if m.deleted && !m.finalizer {
        objects := objects - {k};
        released := released[k := m.ann];
      } else {
        objects := objects[k := m];
      }
      r := Some(m);
    }

    /** The committer: writes the status of `mine` unless it is what the API server already has. */
    method CommitStatus(k: Key, seen: Status, mine: Machine) returns (ok: bool, written: bool)
      modifies this`objects, this`commits, this`faults, this`last
      ensures last == if ok then UpdateDone else UpdateFailed
      ensures faults >= old(faults) && (ok || faults > old(faults) || k !in objects)
      ensures written ==> ok
      ensures !written ==> UserActs(old(objects), objects, k) && commits == old(commits)
      ensures ok && !written ==>
        seen.conds == mine.status.conds && seen.phase == mine.status.phase && objects == old(objects)
      ensures written ==>
        && k in old(objects) && k in objects
        && UserActs(old(objects), objects[k := objects[k].(status := old(objects)[k].status)], k)
        && objects[k].status == mine.status
        && commits == old(commits) + [Commit(k, objects[k])]
    {
      var differs: bool := *;
      if !differs && seen.conds == mine.status.conds && seen.phase == mine.status.phase {
        last := UpdateDone;
        return true, false;
      }
      last := UpdateFailed;
      UserMayDelete(k);
      var trouble: bool := *;
      if trouble || k !in objects {
        faults := faults + if trouble then 1 else 0;
        return false, false;
      }
      ghost var o := objects;
      objects := objects[k := objects[k].(status := mine.status)];
      assert objects[k := objects[k].(status := old(objects)[k].status)] == o;
      commits := commits + [Commit(k, objects[k])];
      ok, written, last := true, true, UpdateDone;
    }

    /** `patchFinalizer`. */
    method PatchFinalizer(k: Key, mine: Machine, change: Change) returns (r: Option<Machine>, ghost mid: Objects)
      requires !change.Annotate?
      modifies this`objects, this`released, this`failedPatches, this`failedVpcPatches
      modifies this`failedReleases, this`faults, this`last
      ensures UserActs(old(objects), mid, k)
      ensures r.None? ==> objects == mid && released == old(released)
      ensures r.Some? ==>
        && r.value == Apply(if k in mid then mid[k] else mine.(deleted := false, status := EMPTY_STATUS), change)
        && (if r.value.deleted && !r.value.finalizer
            then objects == mid - {k} && released == old(released)[k := r.value.ann]
            else objects == mid[k := r.value] && released == old(released))
      ensures failedPatches == old(failedPatches) && failedVpcPatches == old(failedVpcPatches)
      ensures failedReleases == old(failedReleases) + if r.None? && change.RemoveFinalizer? then 1 else 0
      ensures faults == old(faults) + if r.None? then 1 else 0
      ensures last == if r.None? then PatchFailed else PatchDone
    {
      r, mid := CreateOrPatch(k, mine, change);
      failedReleases := failedReleases + if r.None? && change.RemoveFinalizer? then 1 else 0;
      faults := faults + if r.None? then 1 else 0;
      last := if r.None? then PatchFailed else PatchDone;
    }

    /** The data of the auth secret. */
    method ReadSecret() returns (r: Option<map<string, string>>)
      modifies this`faults, this`lastSecret
      ensures faults == old(faults) + if r.None? then 1 else 0
      ensures lastSecret == r
    {
      r := *;
      faults := faults + if r.None? then 1 else 0;
      lastSecret := r;
    }

    /** The flag/value pair of the startup script, with all that is on the way to it. */
    method ReadScript() returns (r: Option<(string, string)>)
      modifies this`faults
      ensures faults == old(faults) + if r.None? then 1 else 0
    {
      r := *;
      faults := faults + if r.None? then 1 else 0;
    }
  }
}
