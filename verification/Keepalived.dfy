/**
  The KeepAlived reconciler: every object gets a VRRP router id, the least one that no
  object of the same namespace was seen to hold, and keeps it.
 */
module Keepalived {
  import opened Api

  datatype KaSpec = KaSpec(vipV4: string, vipV6: string, subnet: string, nic: string, image: string)

  /** uid tells apart two objects that were created under the same key, version is the resource version. */
  datatype KeepAlived = KeepAlived(uid: nat, version: nat, spec: KaSpec, routerID: int)

  /** One stored version of an object. */
  datatype Entry = Entry(key: Key, ka: KeepAlived)

  /**
    The KeepAlived objects of the API server: the live ones and, because readers may lag behind,
    every version ever stored.
   */
  datatype Registry = Registry(live: map<Key, KeepAlived>, history: map<nat, Entry>, revision: nat)

  const MAX_ROUTER_ID := 255

  // ---------- the identifier ----------

  function LeastFreeFrom(used: set<int>, i: int): (id: Option<int>)
    decreases MAX_ROUTER_ID - i
  {
    if i > MAX_ROUTER_ID then None
    else if i !in used then Some(i)
    else LeastFreeFrom(used, i + 1)
  }

  function NextID(used: set<int>): Option<int> {
    LeastFreeFrom(used, 1)
  }

  /** Some(id) is the least positive id outside used; None means 1..255 are all in it. */
  ghost predicate IsLeastFree(used: set<int>, id: Option<int>) {
    match id
    case Some(i) => 1 <= i <= MAX_ROUTER_ID && i !in used && forall j :: 1 <= j < i ==> j in used
    case None => forall j :: 1 <= j <= MAX_ROUTER_ID ==> j in used
  }

  lemma {:induction false} LeastFreeFromIsLeast(used: set<int>, i: int)
    requires 1 <= i <= MAX_ROUTER_ID + 1
    requires forall j :: 1 <= j < i ==> j in used
    ensures IsLeastFree(used, LeastFreeFrom(used, i))
    decreases MAX_ROUTER_ID - i
  {
    if i <= MAX_ROUTER_ID && i in used {
      LeastFreeFromIsLeast(used, i + 1);
    }
  }

  lemma NextIDIsLeast(used: set<int>, id: Option<int>)
    ensures IsLeastFree(used, id) <==> id == NextID(used)
  {
    LeastFreeFromIsLeast(used, 1);
    var least := NextID(used);
    if IsLeastFree(used, id) && id.Some? && least.Some? {
      assert !(id.value < least.value) && !(least.value < id.value);
    }
  }

  method FindNextAvailableID(usedIDs: seq<int>) returns (id: Option<int>)
    ensures IsLeastFree((set x | x in usedIDs), id)
  {
    if |usedIDs| == 0 {
      return Some(1);
    }
    var usedSet := set x | x in usedIDs;
    var i := 1;
    while i <= MAX_ROUTER_ID
      invariant 1 <= i <= MAX_ROUTER_ID + 1
      invariant forall j :: 1 <= j < i ==> j in usedSet
    {
      if i !in usedSet {
        return Some(i);
      }
      i := i + 1;
    }
    return None;
  }

  // ---------- the registry ----------

  function Put(reg: Registry, key: Key, ka: KeepAlived): Registry {
    var stored := ka.(version := reg.revision);
    Registry(reg.live[key := stored], reg.history[reg.revision := Entry(key, stored)], reg.revision + 1)
  }

  /** The main endpoint refuses a write whose resource version is not the stored one. */
  predicate Accepted(reg: Registry, key: Key, ka: KeepAlived, up: bool) {
    up && key in reg.live && reg.live[key].version == ka.version
  }

  function Update(ep: Endpoints, reg: Registry, key: Key, ka: KeepAlived, up: bool): Registry {
    if !Accepted(reg, key, ka, up) then reg
    else Put(reg, key, if ep.Separate? then ka.(routerID := reg.live[key].routerID) else ka)
  }

  /** The ids the live objects of a namespace hold. */
  function LiveIDs(reg: Registry, ns: string): set<int> {
    set k | k in reg.live && k.ns == ns && reg.live[k].routerID != 0 :: reg.live[k].routerID
  }

  function AssignedIDs(list: seq<KeepAlived>): set<int> {
    set ka | ka in list && ka.routerID != 0 :: ka.routerID
  }

  /** An object of the listing has this id. */
  ghost predicate Held(list: seq<KeepAlived>, id: int) {
    exists ka :: ka in list && ka.routerID == id
  }

  /** The least id in 1..255 that no object of the listing has; None means that each of them has a holder. */
  ghost predicate IsLeastUnheld(list: seq<KeepAlived>, id: Option<int>) {
    match id
    case Some(i) => 1 <= i <= 255 && !Held(list, i) && forall j :: 1 <= j < i ==> Held(list, j)
    case None => forall j :: 1 <= j <= 255 ==> Held(list, j)
  }

  /** What the allocator picks from a listing. */
  lemma NextIDIsLeastUnheld(list: seq<KeepAlived>, id: Option<int>)
    ensures IsLeastUnheld(list, id) <==> id == NextID(AssignedIDs(list))
  {
    NextIDIsLeast(AssignedIDs(list), id);
    assert forall i :: 1 <= i <= 255 ==> (i in AssignedIDs(list) <==> Held(list, i));
    hide AssignedIDs, NextID, Held;
  }

  /** Some id in 1..255 has no holder in the listing. */
  ghost predicate HasRoom(list: seq<KeepAlived>) {
    exists i :: 1 <= i <= 255 && !Held(list, i)
  }

  lemma HasRoomIff(list: seq<KeepAlived>)
    ensures HasRoom(list) <==> NextID(AssignedIDs(list)).Some?
  {
    NextIDIsLeastUnheld(list, NextID(AssignedIDs(list)));
    hide AssignedIDs, NextID, Held;
  }

  /** The listing is that of all live objects of a namespace as the registry has them, each once, in any order. */
  ghost predicate IsListing(reg: Registry, ns: string, list: seq<KeepAlived>) {
    && (forall ka :: ka in list <==> exists k :: k in reg.live && k.ns == ns && reg.live[k] == ka)
    && |list| == |set k | k in reg.live && k.ns == ns|
  }

  class ApiServer {
    const endpoints: Endpoints
    var live: map<Key, KeepAlived>
    ghost var history: map<nat, Entry>
    var revision: nat

    ghost function Reg(): Registry
      reads this
    {
      Registry(live, history, revision)
    }

    constructor (endpoints: Endpoints)
      ensures this.endpoints == endpoints && Reg() == Registry(map[], map[], 0)
    {
      this.endpoints := endpoints;
      live, history, revision := map[], map[], 0;
    }

    /** Update on the main endpoint; up is false when the call fails on the way. */
    method UpdateKeepAlived(key: Key, ka: KeepAlived, up: bool) returns (ok: bool)
      modifies this
      ensures ok == Accepted(old(Reg()), key, ka, up)
      ensures Reg() == Update(endpoints, old(Reg()), key, ka, up)
    {
      if !up || key !in live || live[key].version != ka.version {
        return false;
      }
      var stored := ka.(version := revision);
      if endpoints.Separate? {
        stored := stored.(routerID := live[key].routerID);
      }
      live := live[key := stored];
      history := history[revision := Entry(key, stored)];
      revision := revision + 1;
      return true;
    }
  }

  // ---------- the reconciler ----------

  /** What a reconcile that read ka and listed the namespace writes. */
  function Assign(ep: Endpoints, reg: Registry, key: Key, ka: KeepAlived, list: seq<KeepAlived>, up: bool): Registry {
    match NextID(AssignedIDs(list))
    case None => reg
    case Some(id) => Update(ep, reg, key, ka.(routerID := id), up)
  }

  method SetRouterID(api: ApiServer, key: Key, ka: KeepAlived, list: Option<seq<KeepAlived>>, up: bool)
    returns (ok: bool)
    modifies api
    ensures list.None? ==> !ok && api.Reg() == old(api.Reg())
    ensures list.Some? ==> api.Reg() == Assign(api.endpoints, old(api.Reg()), key, ka, list.value, up)
    ensures ok <==> list.Some? && HasRoom(list.value) && Accepted(old(api.Reg()), key, ka, up)
    ensures ok && api.endpoints.Merged? ==>
              key in api.live && IsLeastUnheld(list.value, Some(api.live[key].routerID))
  {
    if list.None? {
      return false;
    }
    var kas := list.value;
    var assignedIDs: seq<int> := [];
    for n := 0 to |kas|
      invariant forall x :: x in assignedIDs <==> x in AssignedIDs(kas[..n])
    {
      if kas[n].routerID != 0 {
        assignedIDs := assignedIDs + [kas[n].routerID];
      }
      assert kas[..n + 1] == kas[..n] + [kas[n]];
    }
    assert kas[..|kas|] == kas;
    assert forall x :: x in assignedIDs <==> x in AssignedIDs(kas);
    var id := FindNextAvailableID(assignedIDs);
    assert (set x | x in assignedIDs) == AssignedIDs(kas);
    NextIDIsLeast(AssignedIDs(kas), id);
    NextIDIsLeastUnheld(kas, id);
    HasRoomIff(kas);
    if id.None? {
      return false;
    }
    ok := api.UpdateKeepAlived(key, ka.(routerID := id.value), up);
  }

  /**
    The whole reconcile. The replies of its two reads are parameters, so they may be as old as
    the reader's cache, and anything may have happened since.
   */
  method HandleAddOrUpdateKeepAlived(
    api: ApiServer, key: Key, get: Reply<KeepAlived>, list: Option<seq<KeepAlived>>, up: bool)
    returns (res: SyncState)
    modifies api
    ensures get.Failed? ==> res == Error
    ensures get.NotFound? || (get.Found? && get.value.routerID != 0) ==> res == Success
    ensures get.Found? && get.value.routerID == 0 && list.Some? ==>
              api.Reg() == Assign(api.endpoints, old(api.Reg()), key, get.value, list.value, up)
    ensures !(get.Found? && get.value.routerID == 0 && list.Some?) ==> api.Reg() == old(api.Reg())
    ensures get.Found? && get.value.routerID == 0 ==>
              res == if list.Some? && HasRoom(list.value) && Accepted(old(api.Reg()), key, get.value, up)
                     then Success else ErrorNoRetry
  {
    match get {
      case Failed => return Error;
      case NotFound => return Success;
      case Found(ka) =>
        if ka.routerID != 0 {
          return Success;
        }
        var ok := SetRouterID(api, key, ka, list, up);
        return if ok then Success else ErrorNoRetry;
    }
  }

  // ---------- exhaustion ----------

  function Holders(reg: Registry, ns: string): set<Key> {
    set k | k in reg.live && k.ns == ns && reg.live[k].routerID != 0
  }

  ghost predicate UniqueIDs(reg: Registry, ns: string) {
    && (forall k :: k in reg.live && k.ns == ns ==> 0 <= reg.live[k].routerID <= MAX_ROUTER_ID)
    && (forall j, k | j in Holders(reg, ns) && k in Holders(reg, ns) && j != k ::
          reg.live[j].routerID != reg.live[k].routerID)
  }

  lemma {:induction false} ImageSize(keys: set<Key>, id: map<Key, int>)
    requires keys <= id.Keys
    requires forall j, k :: j in keys && k in keys && j != k ==> id[j] != id[k]
    ensures |set k | k in keys :: id[k]| == |keys|
  {
    if keys != {} {
      var k :| k in keys;
      ImageSize(keys - {k}, id);
      assert (set j | j in keys :: id[j]) == (set j | j in keys - {k} :: id[j]) + {id[k]};
    }
  }

  /** The set 1..n. */
  function UpTo(n: nat): (s: set<int>)
    ensures forall i :: i in s <==> 1 <= i <= n
    ensures |s| == n
  {
    if n == 0 then {} else UpTo(n - 1) + {n}
  }

  lemma SubsetSize<T>(a: set<T>, b: set<T>)
    requires a <= b
    ensures |a| <= |b|
    ensures |a| == |b| <==> a == b
  {
    assert b == a + (b - a);
    assert |b| == |a| + |b - a|;
  }

  lemma Pigeonhole(ids: set<int>, n: nat)
    requires forall i :: i in ids ==> 1 <= i <= n
    ensures |ids| <= n
    ensures |ids| == n <==> forall i :: 1 <= i <= n ==> i in ids
  {
    SubsetSize(ids, UpTo(n));
    if forall i :: 1 <= i <= n ==> i in ids {
      assert ids == UpTo(n);
    }
  }

  lemma HoldersAndIDs(reg: Registry, ns: string)
    requires UniqueIDs(reg, ns)
    ensures |LiveIDs(reg, ns)| == |Holders(reg, ns)|
  {
    var id := map k | k in reg.live :: reg.live[k].routerID;
    ImageSize(Holders(reg, ns), id);
    var image := set k | k in Holders(reg, ns) :: id[k];
    forall i
      ensures i in image <==> i in LiveIDs(reg, ns)
    {
      if i in LiveIDs(reg, ns) {
        var k :| k in reg.live && k.ns == ns && reg.live[k].routerID != 0 && reg.live[k].routerID == i;
        assert k in Holders(reg, ns);
      }
    }
    assert image == LiveIDs(reg, ns);
  }

  /**
    With ids unique, an up-to-date listing of a namespace leaves no id exactly when 255 of its objects hold one,
    and never do more than 255.
   */
  lemma ExhaustedIff(reg: Registry, ns: string, list: seq<KeepAlived>)
    requires UniqueIDs(reg, ns) && IsListing(reg, ns, list)
    ensures |Holders(reg, ns)| <= MAX_ROUTER_ID
    ensures !HasRoom(list) <==> |Holders(reg, ns)| == MAX_ROUTER_ID
  {
    HoldersAndIDs(reg, ns);
    Pigeonhole(LiveIDs(reg, ns), MAX_ROUTER_ID);
    forall i | 1 <= i <= MAX_ROUTER_ID
      ensures i in LiveIDs(reg, ns) <==> Held(list, i)
    {
      ListingHolds(reg, ns, list, i);
    }
    hide Held, LiveIDs, Holders, IsListing, UniqueIDs;
  }

  /** An up-to-date listing shows exactly the ids that are held. */
  lemma ListingHolds(reg: Registry, ns: string, list: seq<KeepAlived>, i: int)
    requires IsListing(reg, ns, list) && i != 0
    ensures i in LiveIDs(reg, ns) <==> Held(list, i)
  {
    if i in LiveIDs(reg, ns) {
      var k :| k in reg.live && k.ns == ns && reg.live[k].routerID != 0 && reg.live[k].routerID == i;
      assert reg.live[k] in list;
    }
  }
}
