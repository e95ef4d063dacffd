/**
  Router ids and the workloads that carry them, over every run: users create, edit and delete
  KeepAliveds, the one KeepAlived worker reads, lists and writes, and the VpnGw reconciler writes
  workloads, each call at any time and each read as old as it likes.
 */
module VridSafety {
  import opened Api
  import opened GoStrings
  import opened Keepalived
  import opened GatewayTypes
  import opened GatewayWorkload
  import opened GatewayController
  import GatewaySamples
  import Status = GatewayStatus

  /** What the KeepAlived worker holds between its reads and its write. */
  datatype Flight = Idle | Listed(key: Key, read: KeepAlived, list: seq<KeepAlived>)

  /** The object a workload was built with: its key and which of the objects ever created under that key. */
  datatype Source = Source(key: Key, uid: nat)

  datatype Installed = Installed(workload: Workload, source: Option<Source>)

  datatype World = World(reg: Registry, flight: Flight, installed: map<(Kind, Key), Installed>)

  datatype Step =
    | CreateKa(key: Key, spec: KaSpec)
    | EditKa(key: Key, spec: KaSpec)
    | DeleteKa(key: Key)
    | ReadAndList(key: Key, version: nat, list: seq<KeepAlived>)   // Get returned that version, List that list
    | WriteID(up: bool)
    | Install(cfg: Config, replies: Replies, version: nat)         // a VpnGw reconcile that read that version
    | Uninstall(kind: Kind, key: Key)

  const EMPTY := World(Registry(map[], map[], 0), Idle, map[])

  // ---------- steps ----------

  function Create(reg: Registry, key: Key, spec: KaSpec): Registry {
    if key in reg.live then reg else Put(reg, key, KeepAlived(reg.revision, 0, spec, 0))
  }

  /** The version of a KeepAlived that some reader was given. */
  predicate WasStored(reg: Registry, key: Key, version: nat) {
    version in reg.history && reg.history[version].key == key
  }

  /** What the VpnGw reconciler is given for the KeepAlived its gateway names. */
  predicate Reads(reg: Registry, r: Replies, version: nat) {
    r.gw.Found? && r.gw.value.spec.keepalived != "" ==>
      match r.ka
      case None => true
      case Some(ka) => WasStored(reg, KaKey(r.gw.value), version) && reg.history[version].ka == ka
  }

  function KaKey(gw: VpnGw): Key {
    Key(gw.key.ns, gw.spec.keepalived)
  }

  function SourceOf(gw: VpnGw, r: Replies): Option<Source> {
    if gw.spec.keepalived != "" && r.ka.Some? then Some(Source(KaKey(gw), r.ka.value.uid)) else None
  }

  /** The workload writes of a reconcile that arrived. */
  function InstallAll(installed: map<(Kind, Key), Installed>, r: Replies, events: seq<Event>)
    : map<(Kind, Key), Installed>
  {
    if events == [] || r.gw.Failed? || r.gw.NotFound? then installed
    else
      var front := InstallAll(installed, r, events[..|events| - 1]);
      var e := events[|events| - 1];
      match Written(e.call)
      case None => front
      case Some(w) => if e.ok then front[(w.kind, w.key) := Installed(w, SourceOf(r.gw.value, r))] else front
  }

  function Next(ep: Endpoints, w: World, s: Step): World {
    match s
    case CreateKa(key, spec) => w.(reg := Create(w.reg, key, spec))
    case EditKa(key, spec) =>
      if key in w.reg.live then w.(reg := Put(w.reg, key, w.reg.live[key].(spec := spec))) else w
    case DeleteKa(key) => w.(reg := w.reg.(live := w.reg.live - {key}))
    case ReadAndList(key, version, list) =>
      if w.flight.Idle? && WasStored(w.reg, key, version) && w.reg.history[version].ka.routerID == 0
      then w.(flight := Listed(key, w.reg.history[version].ka, list))
      else w
    case WriteID(up) =>
      (match w.flight
       case Idle => w
       case Listed(key, read, list) => World(Assign(ep, w.reg, key, read, list, up), Idle, w.installed))
    case Install(cfg, r, version) =>
      if Reads(w.reg, r, version) then w.(installed := InstallAll(w.installed, r, Reconcile(cfg, r).1)) else w
    case Uninstall(kind, key) => w.(installed := w.installed - {(kind, key)})
  }

  function Run(ep: Endpoints, w: World, steps: seq<Step>): World
    decreases |steps|
  {
    if steps == [] then w else Run(ep, Next(ep, w, steps[0]), steps[1..])
  }

  /** A listing good enough to choose from: it shows every id that a live object of the namespace holds. */
  ghost predicate Covers(reg: Registry, key: Key, list: seq<KeepAlived>) {
    forall k :: k in reg.live && k.ns == key.ns && reg.live[k].routerID != 0 ==> Held(list, reg.live[k].routerID)
  }

  /** The runs in which every listing of the worker is up to date. Its Get may be as old as it likes. */
  ghost predicate Fresh(ep: Endpoints, w: World, steps: seq<Step>)
    decreases |steps|
  {
    steps == [] ||
    ((steps[0].ReadAndList? ==> IsListing(w.reg, steps[0].key.ns, steps[0].list)) &&
     Fresh(ep, Next(ep, w, steps[0]), steps[1..]))
  }

  /** The runs in which every listing of the worker is good enough. Its Get may be as old as it likes. */
  ghost predicate Covered(ep: Endpoints, w: World, steps: seq<Step>)
    decreases |steps|
  {
    steps == [] ||
    ((steps[0].ReadAndList? ==> Covers(w.reg, steps[0].key, steps[0].list)) &&
     Covered(ep, Next(ep, w, steps[0]), steps[1..]))
  }

  // ---------- the invariant ----------

  /** Every stored version is on record, under its own number. */
  ghost predicate Recorded(reg: Registry) {
    && (forall v :: v in reg.history ==>
        v < reg.revision && reg.history[v].ka.version == v && reg.history[v].ka.uid < reg.revision)
    && (forall k :: k in reg.live ==>
          reg.live[k].version in reg.history && reg.history[reg.live[k].version] == Entry(k, reg.live[k]))
  }

  ghost predicate InRange(reg: Registry) {
    forall v :: v in reg.history ==> 0 <= reg.history[v].ka.routerID <= MAX_ROUTER_ID
  }

  /** An object that ever held an id holds it as long as it lives. */
  ghost predicate Sticky(reg: Registry) {
    forall v, k :: v in reg.history && k in reg.live && SameObject(reg, v, k) && reg.history[v].ka.routerID != 0 ==>
      reg.live[k].routerID == reg.history[v].ka.routerID
  }

  ghost predicate SameObject(reg: Registry, v: nat, k: Key)
    requires v in reg.history && k in reg.live
  {
    reg.history[v].key == k && reg.history[v].ka.uid == reg.live[k].uid
  }

  ghost predicate Distinct(reg: Registry) {
    forall j, k :: j in reg.live && k in reg.live && j != k && j.ns == k.ns && reg.live[j].routerID != 0 ==>
      reg.live[j].routerID != reg.live[k].routerID
  }

  ghost predicate FlightInv(w: World) {
    w.flight.Listed? ==>
      && w.flight.read.routerID == 0
      && w.flight.read.version in w.reg.history
      && w.reg.history[w.flight.read.version] == Entry(w.flight.key, w.flight.read)
  }

  /** A workload with a source prints an id that its source held. */
  ghost predicate Printed(reg: Registry, i: Installed) {
    match i.source
    case None => VirtualRouterID(i.workload.containers) == None
    case Some(src) =>
      exists v ::
        && v in reg.history && reg.history[v].key == src.key && reg.history[v].ka.uid == src.uid
        && reg.history[v].ka.routerID != 0
        && VirtualRouterID(i.workload.containers) == Some(Itoa(reg.history[v].ka.routerID))
  }

  ghost predicate AllPrinted(reg: Registry, installed: map<(Kind, Key), Installed>) {
    forall n :: n in installed ==> Printed(reg, installed[n])
  }

  /** What every run keeps, however stale the reads and the listings. */
  ghost predicate Inv(w: World) {
    && Recorded(w.reg) && InRange(w.reg) && Sticky(w.reg)
    && FlightInv(w)
    && AllPrinted(w.reg, w.installed)
  }

  /** What the runs with good listings keep besides. */
  ghost predicate Apart(w: World) {
    Distinct(w.reg) && (w.flight.Listed? ==> Covers(w.reg, w.flight.key, w.flight.list))
  }

  // ---------- every step keeps it ----------

  /** A registry that only forgot live objects or added versions. */
  lemma PrintedGrows(reg: Registry, reg': Registry, i: Installed)
    requires forall v :: v in reg.history ==> v in reg'.history && reg'.history[v] == reg.history[v]
    requires Printed(reg, i)
    ensures Printed(reg', i)
  {
    if i.source.Some? {
      var v :|
        && v in reg.history && reg.history[v].key == i.source.value.key && reg.history[v].ka.uid == i.source.value.uid
        && reg.history[v].ka.routerID != 0
        && VirtualRouterID(i.workload.containers) == Some(Itoa(reg.history[v].ka.routerID));
      assert v in reg'.history;
    }
  }

  /**
    Storing a new version of an object keeps the registry's part of the invariant when the object
    is new, or keeps its id, or gets its first one.
   */
  lemma PutKeeps(reg: Registry, key: Key, ka: KeepAlived)
    requires Recorded(reg) && InRange(reg) && Sticky(reg)
    requires 0 <= ka.routerID <= MAX_ROUTER_ID
    requires key in reg.live ==> ka.uid == reg.live[key].uid && reg.live[key].routerID in {0, ka.routerID}
    requires key !in reg.live ==> ka.uid == reg.revision && ka.routerID == 0
    ensures var reg' := Put(reg, key, ka);
            && Recorded(reg') && InRange(reg') && Sticky(reg')
            && forall v :: v in reg.history ==> v in reg'.history && reg'.history[v] == reg.history[v]
  {
    var reg' := Put(reg, key, ka);
    forall v, k | v in reg'.history && k in reg'.live && SameObject(reg', v, k) && reg'.history[v].ka.routerID != 0
      ensures reg'.live[k].routerID == reg'.history[v].ka.routerID
    {
      if v in reg.history && k in reg.live {
        assert SameObject(reg, v, k);
      }
    }
  }

  lemma WriteKeeps(ep: Endpoints, w: World, up: bool)
    requires Inv(w) && w.flight.Listed?
    ensures Inv(Next(ep, w, WriteID(up)))
  {
    var f := w.flight;
    var id := NextID(AssignedIDs(f.list));
    if id.Some? && Accepted(w.reg, f.key, f.read, up) {
      NextIDIsLeast(AssignedIDs(f.list), id);
      assert w.reg.live[f.key] == f.read;
      var ka := if ep.Separate? then f.read else f.read.(routerID := id.value);
      PutKeeps(w.reg, f.key, ka);
      forall n | n in w.installed
        ensures Printed(Put(w.reg, f.key, ka), w.installed[n])
      {
        PrintedGrows(w.reg, Put(w.reg, f.key, ka), w.installed[n]);
      }
    }
  }

  lemma {:induction false} InstallKeeps(w: World, cfg: Config, r: Replies, version: nat, events: seq<Event>)
    requires Inv(w) && Reads(w.reg, r, version)
    requires forall e :: e in events ==> e in Reconcile(cfg, r).1
    ensures AllPrinted(w.reg, InstallAll(w.installed, r, events))
  {
    if events != [] && r.gw.Found? {
      var front, e := events[..|events| - 1], events[|events| - 1];
      InstallKeeps(w, cfg, r, version, front);
      var before, after := InstallAll(w.installed, r, front), InstallAll(w.installed, r, events);
      if Written(e.call).Some? {
        InstalledPrints(w, cfg, r, version, e);
        var i := Installed(Written(e.call).value, SourceOf(r.gw.value, r));
        assert after == before || after == before[(i.workload.kind, i.workload.key) := i];
        hide Inv, Reads, Reconcile, Printed, InstallAll;
        InsertPrinted(w.reg, before, (i.workload.kind, i.workload.key), i);
      }
    }
  }

  lemma InsertPrinted(reg: Registry, installed: map<(Kind, Key), Installed>, n: (Kind, Key), i: Installed)
    requires AllPrinted(reg, installed) && Printed(reg, i)
    ensures AllPrinted(reg, installed[n := i])
  {
    hide Printed;
  }

  lemma InstalledPrints(w: World, cfg: Config, r: Replies, version: nat, e: Event)
    requires Inv(w) && Reads(w.reg, r, version)
    requires e in Reconcile(cfg, r).1 && Written(e.call).Some? && r.gw.Found?
    ensures Printed(w.reg, Installed(Written(e.call).value, SourceOf(r.gw.value, r)))
  {
    WrittenWorkloadCarriesID(cfg, r, e);
    hide Reconcile, VirtualRouterID, WorkloadFor;
    if r.gw.value.spec.keepalived != "" {
      assert w.reg.history[version].ka == r.ka.value;
    }
  }

  lemma InstallStepKeeps(w: World, cfg: Config, r: Replies, version: nat)
    requires Inv(w) && Reads(w.reg, r, version)
    ensures Inv(w.(installed := InstallAll(w.installed, r, Reconcile(cfg, r).1)))
  {
    InstallKeeps(w, cfg, r, version, Reconcile(cfg, r).1);
    var w' := w.(installed := InstallAll(w.installed, r, Reconcile(cfg, r).1));
    hide Reconcile, AllPrinted, InstallAll, Reads;
    assert FlightInv(w');
  }

  lemma PutInWorld(w: World, key: Key, ka: KeepAlived)
    requires Inv(w)
    requires key in w.reg.live ==> ka == w.reg.live[key].(spec := ka.spec)
    requires key !in w.reg.live ==> ka.uid == w.reg.revision && ka.routerID == 0
    ensures Inv(w.(reg := Put(w.reg, key, ka)))
  {
    if key in w.reg.live {
      assert w.reg.history[w.reg.live[key].version].ka == w.reg.live[key];
    }
    PutKeeps(w.reg, key, ka);
    var w' := w.(reg := Put(w.reg, key, ka));
    forall n | n in w.installed
      ensures Printed(w'.reg, w.installed[n])
    {
      PrintedGrows(w.reg, w'.reg, w.installed[n]);
    }
  }

  lemma NextKeepsInv(ep: Endpoints, w: World, s: Step)
    requires Inv(w)
    ensures Inv(Next(ep, w, s))
  {
    match s {
      case CreateKa(key, spec) =>
        if key !in w.reg.live { PutInWorld(w, key, KeepAlived(w.reg.revision, 0, spec, 0)); }
      case EditKa(key, spec) =>
        if key in w.reg.live { PutInWorld(w, key, w.reg.live[key].(spec := spec)); }
      case DeleteKa(key) => DeleteKeeps(w, key);
      case ReadAndList(key, version, list) =>
      case WriteID(up) => if w.flight.Listed? { WriteKeeps(ep, w, up); }
      case Install(cfg, r, version) =>
        if Reads(w.reg, r, version) { InstallStepKeeps(w, cfg, r, version); }
      case Uninstall(kind, key) =>
    }
  }

  lemma DeleteKeeps(w: World, key: Key)
    requires Inv(w)
    ensures Inv(w.(reg := w.reg.(live := w.reg.live - {key})))
  {
    var reg' := w.reg.(live := w.reg.live - {key});
    forall v, k | v in reg'.history && k in reg'.live && SameObject(reg', v, k) && reg'.history[v].ka.routerID != 0
      ensures reg'.live[k].routerID == reg'.history[v].ka.routerID
    {
      assert SameObject(w.reg, v, k);
    }
    forall n | n in w.installed
      ensures Printed(reg', w.installed[n])
    {
      PrintedGrows(w.reg, reg', w.installed[n]);
    }
  }

  lemma {:induction false} RunKeepsInv(ep: Endpoints, w: World, steps: seq<Step>)
    requires Inv(w)
    ensures Inv(Run(ep, w, steps))
    decreases |steps|
  {
    if steps != [] {
      NextKeepsInv(ep, w, steps[0]);
      RunKeepsInv(ep, Next(ep, w, steps[0]), steps[1..]);
    }
  }

  lemma EmptyInv()
    ensures Inv(EMPTY) && Apart(EMPTY)
  {
  }

  /** An up-to-date listing is good enough. */
  lemma ListingCovers(reg: Registry, key: Key, list: seq<KeepAlived>)
    requires IsListing(reg, key.ns, list)
    ensures Covers(reg, key, list)
  {
    forall k | k in reg.live && k.ns == key.ns && reg.live[k].routerID != 0
      ensures Held(list, reg.live[k].routerID)
    {
      assert reg.live[k] in list;
    }
  }

  lemma {:induction false} FreshIsCovered(ep: Endpoints, w: World, steps: seq<Step>)
    requires Fresh(ep, w, steps)
    ensures Covered(ep, w, steps)
    decreases |steps|
  {
    if steps != [] {
      if steps[0].ReadAndList? {
        ListingCovers(w.reg, steps[0].key, steps[0].list);
      }
      hide Next, Covers, IsListing;
      FreshIsCovered(ep, Next(ep, w, steps[0]), steps[1..]);
    }
  }

  /** The next id of a list that covers the namespace belongs to no live object. */
  lemma NextIDIsFresh(reg: Registry, key: Key, list: seq<KeepAlived>, k: Key)
    requires Covers(reg, key, list) && NextID(AssignedIDs(list)).Some?
    requires k in reg.live && k.ns == key.ns
    ensures reg.live[k].routerID != NextID(AssignedIDs(list)).value
  {
    NextIDIsLeastUnheld(list, NextID(AssignedIDs(list)));
    hide NextID, AssignedIDs, Held;
  }

  lemma WriteKeepsApart(ep: Endpoints, w: World, up: bool)
    requires Inv(w) && Apart(w) && w.flight.Listed?
    ensures Apart(Next(ep, w, WriteID(up)))
  {
    var f := w.flight;
    var id := NextID(AssignedIDs(f.list));
    if id.Some? && Accepted(w.reg, f.key, f.read, up) {
      assert w.reg.live[f.key] == f.read;
      forall k | k in w.reg.live && k != f.key && k.ns == f.key.ns
        ensures w.reg.live[k].routerID != id.value
      {
        NextIDIsFresh(w.reg, f.key, f.list, k);
      }
    }
  }

  /** A registry whose live objects got no ids and moved to no other namespace is as good as before. */
  lemma ApartShrinks(w: World, w': World)
    requires Apart(w) && w'.flight == w.flight
    requires forall k :: k in w'.reg.live && w'.reg.live[k].routerID != 0 ==>
               k in w.reg.live && w.reg.live[k].routerID == w'.reg.live[k].routerID
    ensures Apart(w')
  {
    hide Held;
    forall j, k | j in w'.reg.live && k in w'.reg.live && j != k && j.ns == k.ns && w'.reg.live[j].routerID != 0
      ensures w'.reg.live[j].routerID != w'.reg.live[k].routerID
    {
      assert w'.reg.live[k].routerID != 0 ==> w.reg.live[j].routerID != w.reg.live[k].routerID;
    }
  }

  lemma NextKeepsApart(ep: Endpoints, w: World, s: Step)
    requires Inv(w) && Apart(w)
    requires s.ReadAndList? ==> Covers(w.reg, s.key, s.list)
    ensures Apart(Next(ep, w, s))
  {
    if s.WriteID? {
      if w.flight.Listed? {
        WriteKeepsApart(ep, w, s.up);
      }
    } else if !s.ReadAndList? {
      hide Apart, Inv, Reads, Reconcile, InstallAll;
      ApartShrinks(w, Next(ep, w, s));
    }
  }

  lemma {:induction false} RunKeepsApart(ep: Endpoints, w: World, steps: seq<Step>)
    requires Inv(w) && Apart(w) && Covered(ep, w, steps)
    ensures Apart(Run(ep, w, steps))
    decreases |steps|
  {
    if steps != [] {
      NextKeepsInv(ep, w, steps[0]);
      NextKeepsApart(ep, w, steps[0]);
      hide Next, Inv, Apart;
      RunKeepsApart(ep, Next(ep, w, steps[0]), steps[1..]);
    }
  }

  // ---------- safety over whole runs ----------

  /** On every run the ids of live objects lie in 0..255, 0 being none. */
  lemma IDsAreInRange(ep: Endpoints, steps: seq<Step>, key: Key)
    requires key in Run(ep, EMPTY, steps).reg.live
    ensures 0 <= Run(ep, EMPTY, steps).reg.live[key].routerID <= 255
  {
    EmptyInv();
    RunKeepsInv(ep, EMPTY, steps);
    var reg := Run(ep, EMPTY, steps).reg;
    assert reg.history[reg.live[key].version].ka == reg.live[key];
  }

  /** With good listings the ids of the live objects of a namespace are also pairwise different. */
  lemma IDsAreUnique(ep: Endpoints, steps: seq<Step>, ns: string)
    requires Covered(ep, EMPTY, steps)
    ensures UniqueIDs(Run(ep, EMPTY, steps).reg, ns)
  {
    EmptyInv();
    RunKeepsApart(ep, EMPTY, steps);
    var reg := Run(ep, EMPTY, steps).reg;
    forall k | k in reg.live
      ensures 0 <= reg.live[k].routerID <= MAX_ROUTER_ID
    {
      IDsAreInRange(ep, steps, k);
    }
  }

  lemma {:induction false} RunConcat(ep: Endpoints, w: World, first: seq<Step>, second: seq<Step>)
    ensures Run(ep, w, first + second) == Run(ep, Run(ep, w, first), second)
    decreases |first|
  {
    hide Next;
    if first == [] {
      assert first + second == second;
    } else {
      RunConcat(ep, Next(ep, w, first[0]), first[1..], second);
      assert (first + second)[1..] == first[1..] + second;
    }
  }

  ghost predicate Numbered(reg: Registry) {
    forall v :: v in reg.history ==> v < reg.revision
  }

  lemma {:induction false} HistoryGrows(ep: Endpoints, w: World, steps: seq<Step>, v: nat)
    requires Numbered(w.reg) && v in w.reg.history
    ensures v in Run(ep, w, steps).reg.history
    ensures Run(ep, w, steps).reg.history[v] == w.reg.history[v]
    decreases |steps|
  {
    if steps != [] {
      NextNumbers(ep, w, steps[0], v);
      hide Next, Numbered;
      HistoryGrows(ep, Next(ep, w, steps[0]), steps[1..], v);
    }
  }

  lemma NextNumbers(ep: Endpoints, w: World, s: Step, v: nat)
    requires Numbered(w.reg) && v in w.reg.history
    ensures Numbered(Next(ep, w, s).reg)
    ensures v in Next(ep, w, s).reg.history && Next(ep, w, s).reg.history[v] == w.reg.history[v]
  {
    hide InstallAll, Reconcile, Reads, NextID, AssignedIDs;
  }

  /** On every run an id, once given to an object, is the object's id for the rest of its life. */
  lemma IDNeverChanges(ep: Endpoints, first: seq<Step>, second: seq<Step>, key: Key)
    requires var before, after := Run(ep, EMPTY, first).reg, Run(ep, EMPTY, first + second).reg;
             key in before.live && key in after.live && before.live[key].uid == after.live[key].uid
    ensures var before, after := Run(ep, EMPTY, first).reg, Run(ep, EMPTY, first + second).reg;
            before.live[key].routerID != 0 ==> after.live[key].routerID == before.live[key].routerID
  {
    EmptyInv();
    RunConcat(ep, EMPTY, first, second);
    RunKeepsInv(ep, EMPTY, first);
    RunKeepsInv(ep, EMPTY, first + second);
    var w, after := Run(ep, EMPTY, first), Run(ep, EMPTY, first + second).reg;
    var v := w.reg.live[key].version;
    HistoryGrows(ep, w, second, v);
    assert SameObject(after, v, key);
  }

  /** The KeepAlived that a workload was built with is still alive. */
  ghost predicate SourceLives(reg: Registry, i: Installed) {
    i.source.Some? && i.source.value.key in reg.live && reg.live[i.source.value.key].uid == i.source.value.uid
  }

  /** On every run a workload whose KeepAlived lives carries that object's present id, a number in 1..255. */
  lemma WorkloadCarriesPresentID(ep: Endpoints, steps: seq<Step>, n: (Kind, Key))
    requires var w := Run(ep, EMPTY, steps); n in w.installed && SourceLives(w.reg, w.installed[n])
    ensures var w := Run(ep, EMPTY, steps);
            var id := w.reg.live[w.installed[n].source.value.key].routerID;
            1 <= id <= 255 && VirtualRouterID(w.installed[n].workload.containers) == Some(Itoa(id))
  {
    EmptyInv();
    RunKeepsInv(ep, EMPTY, steps);
    var w := Run(ep, EMPTY, steps);
    var i := w.installed[n];
    var src := i.source.value;
    assert Printed(w.reg, i);
    var v :| && v in w.reg.history && w.reg.history[v].key == src.key && w.reg.history[v].ka.uid == src.uid
             && w.reg.history[v].ka.routerID != 0
             && VirtualRouterID(i.workload.containers) == Some(Itoa(w.reg.history[v].ka.routerID));
    assert SameObject(w.reg, v, src.key);
  }

  /** Workloads built with different live KeepAliveds of one namespace never print the same virtual router id. */
  lemma NoSharedRouterID(ep: Endpoints, steps: seq<Step>, m: (Kind, Key), n: (Kind, Key))
    requires Covered(ep, EMPTY, steps)
    requires var w := Run(ep, EMPTY, steps);
             && m in w.installed && SourceLives(w.reg, w.installed[m])
             && n in w.installed && SourceLives(w.reg, w.installed[n])
             && w.installed[m].source.value.key != w.installed[n].source.value.key
             && w.installed[m].source.value.key.ns == w.installed[n].source.value.key.ns
    ensures var w := Run(ep, EMPTY, steps);
            VirtualRouterID(w.installed[m].workload.containers) != VirtualRouterID(w.installed[n].workload.containers)
  {
    EmptyInv();
    RunKeepsApart(ep, EMPTY, steps);
    WorkloadCarriesPresentID(ep, steps, m);
    WorkloadCarriesPresentID(ep, steps, n);
    var w := Run(ep, EMPTY, steps);
    var i, j := w.reg.live[w.installed[m].source.value.key].routerID,
        w.reg.live[w.installed[n].source.value.key].routerID;
    assert i != j;
    if Itoa(i) == Itoa(j) {
      ItoaInjective(i, j);
    }
  }

  /**
    With listings that are up to date, on every run: the ids of live objects of a namespace are in range and pairwise
    different, and workloads built with different live KeepAliveds of one namespace print different ids.
   */
  lemma FreshListingsSuffice(ep: Endpoints, steps: seq<Step>, m: (Kind, Key), n: (Kind, Key))
    requires Fresh(ep, EMPTY, steps)
    ensures forall ns: string :: UniqueIDs(Run(ep, EMPTY, steps).reg, ns)
    ensures var w := Run(ep, EMPTY, steps);
            && m in w.installed && SourceLives(w.reg, w.installed[m])
            && n in w.installed && SourceLives(w.reg, w.installed[n])
            && w.installed[m].source.value.key != w.installed[n].source.value.key
            && w.installed[m].source.value.key.ns == w.installed[n].source.value.key.ns ==>
              VirtualRouterID(w.installed[m].workload.containers) != VirtualRouterID(w.installed[n].workload.containers)
  {
    hide *;
    FreshIsCovered(ep, EMPTY, steps);
    forall ns: string
      ensures UniqueIDs(Run(ep, EMPTY, steps).reg, ns)
    {
      IDsAreUnique(ep, steps, ns);
    }
    var w := Run(ep, EMPTY, steps);
    if m in w.installed && n in w.installed &&
       SourceLives(w.reg, w.installed[m]) && SourceLives(w.reg, w.installed[n]) {
      SourceHas(w, m);
      SourceHas(w, n);
      var a, b := w.installed[m].source.value.key, w.installed[n].source.value.key;
      if a != b && a.ns == b.ns {
        NoSharedRouterID(ep, steps, m, n);
      }
    }
  }

  lemma SourceHas(w: World, n: (Kind, Key))
    requires n in w.installed && SourceLives(w.reg, w.installed[n])
    ensures w.installed[n].source.Some?
  {
  }

  // ---------- the hypotheses ----------

  /** Every live id that no listed object has comes after one that no listed object has either. */
  ghost predicate LeavesAGap(reg: Registry, key: Key, list: seq<KeepAlived>) {
    forall k :: k in reg.live && k.ns == key.ns && reg.live[k].routerID != 0 && !Held(list, reg.live[k].routerID) ==>
      exists j :: 1 <= j < reg.live[k].routerID && !Held(list, j)
  }

  /** The id chosen from a listing is taken exactly when the listing misses a live id and shows all ids below it. */
  lemma GapIff(reg: Registry, key: Key, list: seq<KeepAlived>, id: int)
    requires Recorded(reg) && InRange(reg) && IsLeastUnheld(list, Some(id))
    ensures LeavesAGap(reg, key, list) <==> forall k :: k in reg.live && k.ns == key.ns ==> reg.live[k].routerID != id
  {
    hide Held;
    forall k | k in reg.live && reg.live[k].routerID != 0
      ensures 1 <= reg.live[k].routerID
    {
      assert reg.history[reg.live[k].version].ka == reg.live[k];
    }
    if forall k :: k in reg.live && k.ns == key.ns ==> reg.live[k].routerID != id {
      forall k | k in reg.live && k.ns == key.ns && reg.live[k].routerID != 0 && !Held(list, reg.live[k].routerID)
        ensures exists j :: 1 <= j < reg.live[k].routerID && !Held(list, j)
      {
        assert id < reg.live[k].routerID;
      }
    }
  }

  /**
    One write keeps the ids of a namespace apart exactly when every live id missing from its listing
    comes after a free one. A listing that shows all live ids has that property.
   */
  lemma WriteKeepsDistinctIff(reg: Registry, key: Key, read: KeepAlived, list: seq<KeepAlived>)
    requires Recorded(reg) && InRange(reg) && Distinct(reg)
    requires key in reg.live && reg.live[key] == read && read.routerID == 0
    requires HasRoom(list)
    ensures Distinct(Assign(Merged, reg, key, read, list, true)) <==> LeavesAGap(reg, key, list)
    ensures Covers(reg, key, list) ==> LeavesAGap(reg, key, list)
  {
    HasRoomIff(list);
    var id := NextID(AssignedIDs(list)).value;
    NextIDIsLeastUnheld(list, Some(id));
    GapIff(reg, key, list, id);
    var reg' := Assign(Merged, reg, key, read, list, true);
    assert reg'.live == reg.live[key := reg'.live[key]] && reg'.live[key].routerID == id;
    hide LeavesAGap, Held, NextID, AssignedIDs, Assign, HasRoom;
    if k :| k in reg.live && k.ns == key.ns && reg.live[k].routerID == id {
      assert k in reg'.live && reg'.live[k].routerID == id;
    }
  }

  /**
    An accepted write gives its object the id that an installed workload prints exactly if that id is the least
    one that no listed object has. For a workload whose KeepAlived is gone nothing else is in the way.
   */
  lemma WriteSharesIff(w: World, n: (Kind, Key), i: int)
    requires Inv(w) && w.flight.Listed? && Accepted(w.reg, w.flight.key, w.flight.read, true)
    requires HasRoom(w.flight.list)
    requires n in w.installed && VirtualRouterID(w.installed[n].workload.containers) == Some(Itoa(i))
    ensures var w' := Next(Merged, w, WriteID(true));
            && w'.installed == w.installed && w.flight.key in w'.reg.live
            && var given := w'.reg.live[w.flight.key].routerID;
               (VirtualRouterID(w'.installed[n].workload.containers) == Some(Itoa(given)) <==>
                  IsLeastUnheld(w.flight.list, Some(i)))
  {
    HasRoomIff(w.flight.list);
    var id := NextID(AssignedIDs(w.flight.list)).value;
    NextIDIsLeastUnheld(w.flight.list, Some(i));
    hide NextID, AssignedIDs, IsLeastUnheld, VirtualRouterID, Itoa, Inv, HasRoom;
    if Itoa(i) == Itoa(id) {
      ItoaInjective(i, id);
    }
  }

  ghost predicate NoSources(installed: map<(Kind, Key), Installed>) {
    forall n :: n in installed ==> installed[n].source == None
  }

  ghost predicate NothingAssigned(w: World) {
    && (forall v :: v in w.reg.history ==> w.reg.history[v].ka.routerID == 0)
    && (forall k :: k in w.reg.live ==> w.reg.live[k].routerID == 0)
    && NoSources(w.installed)
  }

  lemma WrittenWithoutSource(w: World, cfg: Config, r: Replies, version: nat, e: Event)
    requires NothingAssigned(w) && Reads(w.reg, r, version)
    requires e in Reconcile(cfg, r).1 && Written(e.call).Some?
    ensures r.gw.Found? && SourceOf(r.gw.value, r) == None
  {
    WrittenWorkloadCarriesID(cfg, r, e);
    hide Reconcile, VirtualRouterID, WorkloadFor;
  }

  lemma {:induction false} InstallsWithoutSource(w: World, cfg: Config, r: Replies, version: nat, events: seq<Event>)
    requires NothingAssigned(w) && Reads(w.reg, r, version)
    requires forall e :: e in events ==> e in Reconcile(cfg, r).1
    ensures NoSources(InstallAll(w.installed, r, events))
  {
    if events != [] && r.gw.Found? {
      var e := events[|events| - 1];
      InstallsWithoutSource(w, cfg, r, version, events[..|events| - 1]);
      if Written(e.call).Some? {
        WrittenWithoutSource(w, cfg, r, version, e);
      }
      hide Reconcile, Reads, SourceOf;
      var before, after := InstallAll(w.installed, r, events[..|events| - 1]), InstallAll(w.installed, r, events);
      assert after == before || (Written(e.call).Some? &&
        after == before[(Written(e.call).value.kind, Written(e.call).value.key) :=
                          Installed(Written(e.call).value, None)]);
    }
  }

  lemma NextAssignsNothing(w: World, s: Step)
    requires NothingAssigned(w)
    ensures NothingAssigned(Next(Separate, w, s))
  {
    if s.Install? {
      if Reads(w.reg, s.replies, s.version) {
        InstallsWithoutSource(w, s.cfg, s.replies, s.version, Reconcile(s.cfg, s.replies).1);
      }
      hide InstallAll, Reconcile, Reads, NoSources;
    } else {
      hide InstallAll, Reconcile, Reads, NextID, AssignedIDs;
    }
  }

  /**
    With the status subresource on, as the KeepAlived type asks for, the write loses the id: on no
    run does any object ever have one, and no workload with a KeepAlived is ever installed.
   */
  lemma {:induction false} SeparateEndpointsNeverAssign(w: World, steps: seq<Step>)
    requires NothingAssigned(w)
    ensures NothingAssigned(Run(Separate, w, steps))
    decreases |steps|
  {
    if steps != [] {
      NextAssignsNothing(w, steps[0]);
      hide Next, NothingAssigned;
      SeparateEndpointsNeverAssign(Next(Separate, w, steps[0]), steps[1..]);
    }
  }

  /** The reconciler's method is the two steps of its worker, one after the other. */
  lemma HandlerIsTwoSteps(ep: Endpoints, w: World, key: Key, version: nat, list: seq<KeepAlived>, up: bool)
    requires w.flight == Idle && WasStored(w.reg, key, version)
    ensures var ka := w.reg.history[version].ka;
            Run(ep, w, [ReadAndList(key, version, list), WriteID(up)]) ==
            if ka.routerID != 0 then w else w.(reg := Assign(ep, w.reg, key, ka, list, up))
  {
    var read, write := ReadAndList(key, version, list), WriteID(up);
    RunStep(ep, w, read, [write]);
    RunStep(ep, Next(ep, w, read), write, []);
    assert [read] + [write] == [read, write] && [write] + [] == [write];
    hide Assign, Run;
  }

  lemma RunStep(ep: Endpoints, w: World, s: Step, rest: seq<Step>)
    ensures Run(ep, w, [s] + rest) == Run(ep, Next(ep, w, s), rest)
  {
    hide Next;
    assert ([s] + rest)[1..] == rest;
  }

  // ---------- what happens without the hypotheses ----------

  const KA_SPEC := GatewaySamples.KA_SPEC


  lemma NothingAssignedYet(list: seq<KeepAlived>)
    requires forall ka :: ka in list ==> ka.routerID == 0
    ensures NextID(AssignedIDs(list)) == Some(1)
  {
    assert AssignedIDs(list) == {};
  }

  /** The world after somebody's reconcile gave the object of this key the id 1. */
  function Assigned1(w: World, key: Key): World
    requires key in w.reg.live
  {
    w.(reg := Put(w.reg, key, w.reg.live[key].(routerID := 1)))
  }

  /** One reconcile of an object that nobody has touched, from a listing without ids, gives it the id 1. */
  lemma AssignGives1(w: World, key: Key, list: seq<KeepAlived>)
    requires w.flight == Idle && key in w.reg.live && WasStored(w.reg, key, w.reg.live[key].version)
    requires w.reg.history[w.reg.live[key].version].ka == w.reg.live[key] && w.reg.live[key].routerID == 0
    requires forall ka :: ka in list ==> ka.routerID == 0
    ensures var listed := Next(Merged, w, ReadAndList(key, w.reg.live[key].version, list));
            Next(Merged, listed, WriteID(true)) == Assigned1(w, key)
  {
    NothingAssignedYet(list);
    hide NextID, AssignedIDs, Put;
  }

  /** A gateway of its own for a KeepAlived. */
  function GatewayFor(ka: Key): VpnGw {
    VpnGw(Key(ka.ns, "gw-" + ka.name), GatewaySamples.SslSpec(ka.name, "static", "1", "ssl"), Status.NEW_STATUS)
  }

  /** The replies to the first reconcile of that gateway, which ends with its second read. */
  function RepliesFor(ka: Key, read: KeepAlived): Replies {
    Replies(Found(GatewayFor(ka)), Some(read), NotFound, true, None, None, {}, Failed, true)
  }

  function InstallFor(ka: Key, read: KeepAlived, version: nat): Step {
    Install(GatewaySamples.PortConfig(), RepliesFor(ka, read), version)
  }

  /** The name of the workload of that gateway. */
  function WorkloadKey(ka: Key): (Kind, Key) {
    (DaemonSet, GatewayFor(ka).key)
  }

  lemma BuildsOne(ka: Key, read: KeepAlived) returns (workload: Workload)
    requires ka.name != "" && read.spec == KA_SPEC && read.routerID != 0
    ensures Reconcile(GatewaySamples.PortConfig(), RepliesFor(ka, read)).1 == [Event(CreateWorkload(workload), true)]
    ensures workload.kind == DaemonSet && workload.key == GatewayFor(ka).key
    ensures VirtualRouterID(workload.containers) == Some(Itoa(read.routerID))
  {
    var cfg, r := GatewaySamples.PortConfig(), RepliesFor(ka, read);
    var gw := GatewayFor(ka);
    GatewaySamples.SslIsFine(gw, ka.name, "static", "1", "ssl");
    assert KindOf(gw) == DaemonSet by { assert |"static"| != |"statefulset"|; }
    hide PortsParse, VirtualRouterID, GatewaySamples.PortConfig, Containers, Labels, Annotations, Volumes, PayloadOf,
         StatusWrite;
    WorkloadCarriesRouterID(cfg, gw, Some(read), map[]);
    workload := WorkloadFor(cfg, gw, Some(read), map[]).value;
    assert Gate(r) == None && KeepalivedOf(gw, r) == Some(read);
    hide Gate;
  }

  /** The workload of that gateway gets the id of the version that its reconcile read. */
  lemma InstallsOne(w: World, ka: Key, version: nat)
    requires WasStored(w.reg, ka, version) && ka.name != ""
    requires w.reg.history[version].ka.spec == KA_SPEC && w.reg.history[version].ka.routerID != 0
    ensures var read := w.reg.history[version].ka;
            var after := Next(Merged, w, InstallFor(ka, read, version));
            && after.reg == w.reg && after.flight == w.flight
            && WorkloadKey(ka) in after.installed
            && after.installed == w.installed[WorkloadKey(ka) := after.installed[WorkloadKey(ka)]]
            && after.installed[WorkloadKey(ka)].source == Some(Source(ka, read.uid))
            && VirtualRouterID(after.installed[WorkloadKey(ka)].workload.containers) == Some(Itoa(read.routerID))
  {
    var read := w.reg.history[version].ka;
    var r := RepliesFor(ka, read);
    var workload := BuildsOne(ka, read);
    InstallAllOne(w.installed, r, workload);
    assert KaKey(GatewayFor(ka)) == ka && SourceOf(GatewayFor(ka), r) == Some(Source(ka, read.uid));
    assert Reads(w.reg, r, version);
    hide Reconcile, VirtualRouterID, Reads, InstallAll, SourceOf;
  }

  lemma InstallAllOne(installed: map<(Kind, Key), Installed>, r: Replies, workload: Workload)
    requires r.gw.Found?
    ensures InstallAll(installed, r, [Event(CreateWorkload(workload), true)]) ==
            installed[(workload.kind, workload.key) := Installed(workload, SourceOf(r.gw.value, r))]
  {
    var events := [Event(CreateWorkload(workload), true)];
    assert events[..0] == [];
    assert InstallAll(installed, r, []) == installed;
  }

  /** Two installed workloads of one namespace that print the same id. */
  ghost predicate Share(w: World, m: (Kind, Key), n: (Kind, Key)) {
    && m != n && m in w.installed && n in w.installed && m.1.ns == n.1.ns
    && VirtualRouterID(w.installed[m].workload.containers) == VirtualRouterID(w.installed[n].workload.containers)
    && VirtualRouterID(w.installed[m].workload.containers).Some?
  }

  // ---------- a stale listing ----------

  const A := KeepAlived(0, 0, KA_SPEC, 0)
  const B := KeepAlived(1, 1, KA_SPEC, 0)

  lemma ListsBoth(a: Key, b: Key, reg: Registry)
    requires a != b && a.ns == b.ns && reg.live == map[a := A, b := B]
    ensures IsListing(reg, a.ns, [A, B])
  {
    assert (set k | k in reg.live && k.ns == a.ns) == {a, b};
    assert reg.live[a] == A && reg.live[b] == B;
    assert [A, B][0] == A && [A, B][1] == B;
  }

  function BothCreated(a: Key, b: Key): World {
    World(Registry(map[a := A, b := B], map[0 := Entry(a, A), 1 := Entry(b, B)], 2), Idle, map[])
  }

  lemma AfterCreating(a: Key, b: Key)
    requires a != b
    ensures Next(Merged, Next(Merged, EMPTY, CreateKa(a, KA_SPEC)), CreateKa(b, KA_SPEC)) == BothCreated(a, b)
  {
  }

  /** Two ids from one old listing, and the workloads of the two gateways. */
  lemma TwoFromOneListing(a: Key, b: Key)
    requires a != b && a.ns == b.ns && a.name != "" && b.name != "" && WorkloadKey(a) != WorkloadKey(b)
    ensures var w1 := Assigned1(BothCreated(a, b), a);
            var w2 := Assigned1(w1, b);
            var w3 := Next(Merged, w2, InstallFor(a, w2.reg.live[a], 2));
            var w4 := Next(Merged, w3, InstallFor(b, w2.reg.live[b], 3));
            && Share(w4, WorkloadKey(a), WorkloadKey(b))
            && SourceLives(w4.reg, w4.installed[WorkloadKey(a)]) && SourceLives(w4.reg, w4.installed[WorkloadKey(b)])
            && w4.installed[WorkloadKey(a)].source.value.key == a && w4.installed[WorkloadKey(b)].source.value.key == b
  {
    var w2 := Assigned1(Assigned1(BothCreated(a, b), a), b);
    var w3 := Next(Merged, w2, InstallFor(a, w2.reg.live[a], 2));
    assert w2.reg.history[2].ka == w2.reg.live[a] && w2.reg.history[3].ka == w2.reg.live[b];
    InstallsOne(w2, a, 2);
    hide Next, VirtualRouterID, Itoa, InstallFor;
    InstallsOne(w3, b, 3);
  }

  function StaleWork(a: Key, b: Key): seq<Step> {
    [ReadAndList(a, 0, [A, B]), WriteID(true)] + [ReadAndList(b, 1, [A, B]), WriteID(true)]
  }

  lemma RunStaleWork(a: Key, b: Key)
    requires a != b
    ensures Run(Merged, BothCreated(a, b), StaleWork(a, b)) == Assigned1(Assigned1(BothCreated(a, b), a), b)
  {
    var w0, w1 := BothCreated(a, b), Assigned1(BothCreated(a, b), a);
    AssignGives1(w0, a, [A, B]);
    AssignGives1(w1, b, [A, B]);
    RunConcat(Merged, w0, [ReadAndList(a, 0, [A, B]), WriteID(true)], [ReadAndList(b, 1, [A, B]), WriteID(true)]);
    RunPair(w0, [ReadAndList(a, 0, [A, B]), WriteID(true)]);
    RunPair(w1, [ReadAndList(b, 1, [A, B]), WriteID(true)]);
    hide Next, Run, Assigned1;
  }

  /**
    A worker whose cache still shows what there was before its own last write gives out the same id
    twice: both of its listings are those of all objects right after the second one was created. The run ends with
    two workloads of different live KeepAliveds that print one id.
   */
  lemma StaleListingDuplicates(ns: string) returns (steps: seq<Step>, m: (Kind, Key), n: (Kind, Key))
    ensures |steps| == 8
    ensures forall s :: s in steps && s.ReadAndList? ==> IsListing(Run(Merged, EMPTY, steps[..2]).reg, ns, s.list)
    ensures var w := Run(Merged, EMPTY, steps);
            && Share(w, m, n)
            && SourceLives(w.reg, w.installed[m]) && SourceLives(w.reg, w.installed[n])
            && w.installed[m].source.value.key != w.installed[n].source.value.key
  {
    hide *;
    var a, b := Key(ns, "a"), Key(ns, "b");
    TwoKeys(ns);
    m, n := WorkloadKey(a), WorkloadKey(b);
    StaleKeys(a, b);
    var w2 := Assigned1(Assigned1(BothCreated(a, b), a), b);
    var create := [CreateKa(a, KA_SPEC), CreateKa(b, KA_SPEC)];
    var install := [InstallFor(a, w2.reg.live[a], 2), InstallFor(b, w2.reg.live[b], 3)];
    steps := create + (StaleWork(a, b) + install);
    StaleLists(a, b, w2.reg.live[a], w2.reg.live[b]);
    AfterCreating(a, b);
    TwoFromOneListing(a, b);
    RunStaleWork(a, b);
    RunPair(EMPTY, create);
    RunConcat(Merged, EMPTY, create, StaleWork(a, b) + install);
    RunConcat(Merged, BothCreated(a, b), StaleWork(a, b), install);
    RunPair(w2, install);
  }

  lemma TwoKeys(ns: string)
    ensures Key(ns, "a") != Key(ns, "b") && WorkloadKey(Key(ns, "a")) != WorkloadKey(Key(ns, "b"))
  {
    var a, b := Key(ns, "a"), Key(ns, "b");
    assert a.name[0] != b.name[0] && GatewayFor(a).key.name[3] != GatewayFor(b).key.name[3];
  }

  lemma StaleKeys(a: Key, b: Key)
    requires a != b
    ensures a in BothCreated(a, b).reg.live && b in BothCreated(a, b).reg.live
    ensures a in Assigned1(BothCreated(a, b), a).reg.live && b in Assigned1(BothCreated(a, b), a).reg.live
    ensures var w2 := Assigned1(Assigned1(BothCreated(a, b), a), b); a in w2.reg.live && b in w2.reg.live
  {
  }

  lemma StaleLists(a: Key, b: Key, first: KeepAlived, second: KeepAlived)
    requires a != b && a.ns == b.ns
    ensures var create := [CreateKa(a, KA_SPEC), CreateKa(b, KA_SPEC)];
            var steps := create + (StaleWork(a, b) + [InstallFor(a, first, 2), InstallFor(b, second, 3)]);
            && |steps| == 8 && steps[..2] == create
            && forall s :: s in steps && s.ReadAndList? ==> IsListing(BothCreated(a, b).reg, a.ns, s.list)
  {
    ListsBoth(a, b, BothCreated(a, b).reg);
    hide IsListing, BothCreated;
    var create := [CreateKa(a, KA_SPEC), CreateKa(b, KA_SPEC)];
    var install := [InstallFor(a, first, 2), InstallFor(b, second, 3)];
    var steps := create + (StaleWork(a, b) + install);
    forall s | s in steps && s.ReadAndList?
      ensures s.list == [A, B]
    {
      assert s in create || s in StaleWork(a, b) || s in install;
    }
  }

  lemma RunPair(w: World, steps: seq<Step>)
    requires |steps| == 2
    ensures Run(Merged, w, steps) == Next(Merged, Next(Merged, w, steps[0]), steps[1])
  {
    RunStep(Merged, w, steps[0], [steps[1]]);
    RunStep(Merged, Next(Merged, w, steps[0]), steps[1], []);
    assert [steps[0]] + [steps[1]] == steps && [steps[1]] + [] == [steps[1]];
    hide Next;
  }

  // ---------- an id given out again ----------

  const B2 := KeepAlived(2, 2, KA_SPEC, 0)

  function OneCreated(a: Key): World {
    World(Registry(map[a := A], map[0 := Entry(a, A)], 1), Idle, map[])
  }

  /** The world with the workload that its first reconcile installs for the gateway of a KeepAlived. */
  function WithWorkload(w: World, ka: Key, version: nat): World
    requires ka in w.reg.live
  {
    Next(Merged, w, InstallFor(ka, w.reg.live[ka], version))
  }

  /** The first object, its id and its workload; then it goes, and another one comes. */
  lemma FirstLife(a: Key, b: Key) returns (w: World, v: World)
    requires a != b && a.name != ""
    ensures w == WithWorkload(Assigned1(OneCreated(a), a), a, 1)
    ensures v == Next(Merged, Next(Merged, w, DeleteKa(a)), CreateKa(b, KA_SPEC))
    ensures v.flight == Idle && v.reg.live == map[b := B2] && WasStored(v.reg, b, 2) && v.reg.history[2].ka == B2
    ensures v.reg.revision == 3 && v.installed == w.installed && WorkloadKey(a) in w.installed
    ensures w.installed[WorkloadKey(a)].source == Some(Source(a, 0))
    ensures VirtualRouterID(w.installed[WorkloadKey(a)].workload.containers) == Some(Itoa(1))
    ensures Next(Merged, Next(Merged, w, DeleteKa(a)), CreateKa(b, KA_SPEC)) == v
  {
    var w1 := Assigned1(OneCreated(a), a);
    InstallsOne(w1, a, 1);
    w := WithWorkload(w1, a, 1);
    v := Next(Merged, Next(Merged, w, DeleteKa(a)), CreateKa(b, KA_SPEC));
    hide VirtualRouterID, Itoa, Reconcile, InstallAll, Reads;
    assert w.reg == w1.reg && w.reg.revision == 2 && w.reg.live - {a} == map[];
  }

  lemma SecondLife(a: Key, b: Key, v: World)
    requires a != b && a.ns == b.ns && b.name != "" && WorkloadKey(a) != WorkloadKey(b)
    requires v.flight == Idle && v.reg.live == map[b := B2] && WasStored(v.reg, b, 2) && v.reg.history[2].ka == B2
    requires v.reg.revision == 3 && WorkloadKey(a) in v.installed
    requires v.installed[WorkloadKey(a)].source == Some(Source(a, 0))
    requires VirtualRouterID(v.installed[WorkloadKey(a)].workload.containers) == Some(Itoa(1))
    ensures var w := WithWorkload(Assigned1(v, b), b, 3);
            && Share(w, WorkloadKey(a), WorkloadKey(b))
            && !SourceLives(w.reg, w.installed[WorkloadKey(a)]) && SourceLives(w.reg, w.installed[WorkloadKey(b)])
  {
    var w := Assigned1(v, b);
    assert w.reg.history[3].ka == w.reg.live[b];
    hide Next, VirtualRouterID, Itoa, InstallFor;
    InstallsOne(w, b, 3);
  }

  /**
    With listings that are up to date, the id of a deleted object is given out again at once, and its workload, if
    it is still there, prints the same id as the workload of the new one.
   */
  lemma DeletedIDIsReused(ns: string) returns (steps: seq<Step>, m: (Kind, Key), n: (Kind, Key))
    ensures Fresh(Merged, EMPTY, steps)
    ensures var w := Run(Merged, EMPTY, steps);
            Share(w, m, n) && !SourceLives(w.reg, w.installed[m]) && SourceLives(w.reg, w.installed[n])
  {
    var a, b := Key(ns, "a"), Key(ns, "b");
    TwoKeys(ns);
    m, n := WorkloadKey(a), WorkloadKey(b);
    var w1 := Assigned1(OneCreated(a), a);
    var w, v := FirstLife(a, b);
    SecondLife(a, b, v);
    var second := CreateInstall(b, 2, B2, InstallFor(b, Assigned1(v, b).reg.live[b], 3));
    var first := CreateInstall(a, 0, A, InstallFor(a, w1.reg.live[a], 1));
    steps := first + ([DeleteKa(a)] + second);
    assert Next(Merged, EMPTY, CreateKa(a, KA_SPEC)) == OneCreated(a);
    AssignGives1(OneCreated(a), a, [A]);
    AssignGives1(v, b, [B2]);
    assert OneCreated(a).reg.live == map[a := A];
    hide Next, Share, SourceLives, InstallFor, Fresh;
    RunCreateInstall(EMPTY, a, 0, A, InstallFor(a, w1.reg.live[a], 1));
    RunConcat(Merged, EMPTY, first, [DeleteKa(a)] + second);
    RunStep(Merged, w, DeleteKa(a), second);
    RunCreateInstall(Next(Merged, w, DeleteKa(a)), b, 2, B2, InstallFor(b, Assigned1(v, b).reg.live[b], 3));
    FreshCons(w, DeleteKa(a), second);
    FreshConcat(EMPTY, first, [DeleteKa(a)] + second);
  }

  /** An object is created, gets an id from a listing that shows only itself, and its workload is installed. */
  function CreateInstall(key: Key, version: nat, ka: KeepAlived, install: Step): seq<Step> {
    [CreateKa(key, KA_SPEC)] + ([ReadAndList(key, version, [ka])] + ([WriteID(true)] + [install]))
  }

  lemma ListsOne(reg: Registry, key: Key, ka: KeepAlived)
    requires reg.live == map[key := ka]
    ensures IsListing(reg, key.ns, [ka])
  {
    assert (set k | k in reg.live && k.ns == key.ns) == {key};
    assert reg.live[key] == ka && ka in [ka];
  }

  /** While it is the only live object, that listing is up to date. */
  lemma RunCreateInstall(w: World, key: Key, version: nat, ka: KeepAlived, install: Step)
    requires !install.ReadAndList?
    requires Next(Merged, w, CreateKa(key, KA_SPEC)).reg.live == map[key := ka]
    ensures Run(Merged, w, CreateInstall(key, version, ka, install)) ==
            Next(Merged, Next(Merged, Next(Merged, Next(Merged, w, CreateKa(key, KA_SPEC)),
              ReadAndList(key, version, [ka])), WriteID(true)), install)
    ensures Fresh(Merged, w, CreateInstall(key, version, ka, install))
  {
    var create, read, write := CreateKa(key, KA_SPEC), ReadAndList(key, version, [ka]), WriteID(true);
    var w1 := Next(Merged, w, create);
    var w2 := Next(Merged, w1, read);
    var w3 := Next(Merged, w2, write);
    ListsOne(w1.reg, key, ka);
    hide Next, IsListing;
    RunStep(Merged, w, create, [read] + ([write] + [install]));
    RunStep(Merged, w1, read, [write] + [install]);
    RunStep(Merged, w2, write, [install]);
    RunStep(Merged, w3, install, []);
    assert [install] + [] == [install];
    FreshCons(w3, install, []);
    FreshCons(w2, write, [install]);
    FreshCons(w1, read, [write] + [install]);
    FreshCons(w, create, [read] + ([write] + [install]));
  }

  lemma FreshCons(w: World, s: Step, rest: seq<Step>)
    requires s.ReadAndList? ==> IsListing(w.reg, s.key.ns, s.list)
    requires Fresh(Merged, Next(Merged, w, s), rest)
    ensures Fresh(Merged, w, [s] + rest)
  {
    assert ([s] + rest)[1..] == rest;
    hide Next, IsListing;
  }

  lemma {:induction false} FreshConcat(w: World, first: seq<Step>, second: seq<Step>)
    requires Fresh(Merged, w, first) && Fresh(Merged, Run(Merged, w, first), second)
    ensures Fresh(Merged, w, first + second)
    decreases |first|
  {
    hide Next, IsListing;
    if first == [] {
      assert first + second == second;
    } else {
      FreshConcat(Next(Merged, w, first[0]), first[1..], second);
      assert (first + second)[1..] == first[1..] + second;
    }
  }
}
