/**
  Runs of a Debugger: edits by users, reconciles with arbitrary replies, removal and re-creation.
  When does a status that agrees with the specification vouch for the workload?
 */
module DebuggerConvergence {
  import opened Api
  import opened GatewayTypes
  import opened DebuggerTypes
  import opened DebuggerWorkload
  import opened DebuggerController
  import Selectors

  datatype Event =
    | Create(name: string, spec: DebuggerSpec)
    | Edit(spec: DebuggerSpec)
    | Remove
    | Collect
    | Reconcile(r: Replies)

  /** Collect is the garbage collection of the workloads of a removed Debugger. */
  function Next(w: World, e: Event): World {
    match e
    case Create(name, spec) =>
      if w.debugger.Some? then w else w.(debugger := Some(Debugger(name, spec, NEW_STATUS)))
    case Edit(spec) => Interfere(w, Edited(spec))
    case Remove => w.(debugger := None)
    case Collect => if w.debugger.Some? then w else World(None, None, None)
    case Reconcile(r) => Step(w, r).0
  }

  function Run(w: World, events: seq<Event>): World
    decreases |events|
  {
    if events == [] then w else Run(Next(w, events[0]), events[1..])
  }

  // ---------- the promise ----------

  /** The workload was built for this name from a specification with these mirrored fields. */
  ghost predicate BuiltFrom(workload: Workload, name: string, m: Mirrored) {
    exists s: DebuggerSpec, pinger: Option<Pinger>, kept: map<string, string>, cms: ConfigMaps ::
      && SpecMirror(s) == m
      && (s.enablePinger ==> pinger.Some?)
      && workload == WorkloadOnWire(WorkloadFor(name, s, pinger, kept, cms))
  }

  /** A workload built from m carries the mirrors that m shows, and only those. */
  lemma BuiltFromCarries(workload: Workload, name: string, m: Mirrored, n: Mirrored)
    requires BuiltFrom(workload, name, m)
    ensures Carries(workload, n) <==> Shows(m, n)
  {
    hide WorkloadFor, WorkloadOnWire, Carries, Shows, SpecMirror;
    var s: DebuggerSpec, pinger: Option<Pinger>, kept: map<string, string>, cms: ConfigMaps :|
      && SpecMirror(s) == m
      && (s.enablePinger ==> pinger.Some?)
      && workload == WorkloadOnWire(WorkloadFor(name, s, pinger, kept, cms));
    CarriesIff(name, s, pinger, kept, cms, n);
    CarriesOnWire(WorkloadFor(name, s, pinger, kept, cms), n);
  }

  /** The specification with its empty lists left out. */
  function WireSpec(s: DebuggerSpec): DebuggerSpec {
    s.(tolerations := OnWire(s.tolerations), affinity := AffinityOnWire(s.affinity))
  }

  lemma WireSpecContainers(name: string, s: DebuggerSpec, pinger: Option<Pinger>, cms: ConfigMaps)
    requires s.enablePinger ==> pinger.Some?
    ensures Containers(name, s, pinger, cms) == Containers(name, WireSpec(s), pinger, cms)
    ensures Volumes(s, cms) == Volumes(WireSpec(s), cms)
  {
    assert Envs(name, s, pinger) == Envs(name, WireSpec(s), pinger);
    assert Mounts(s, cms) == Mounts(WireSpec(s), cms);
    hide Envs, Mounts;
  }

  lemma WireSpecBuilds(
    name: string, s: DebuggerSpec, pinger: Option<Pinger>, kept: map<string, string>, cms: ConfigMaps)
    requires s.enablePinger ==> pinger.Some?
    ensures WorkloadOnWire(WorkloadFor(name, s, pinger, kept, cms)) ==
            WorkloadOnWire(WorkloadFor(name, WireSpec(s), pinger, kept, cms))
  {
    WireSpecContainers(name, s, pinger, cms);
    assert Annotations(s, kept) == Annotations(WireSpec(s), kept);
    AffinityIsOnWire(s.affinity);
    hide Containers, Volumes, Annotations, Selectors.Fold, AffinityOnWire;
  }

  lemma AffinityIsOnWire(a: Affinity)
    ensures AffinityOnWire(AffinityOnWire(a)) == AffinityOnWire(a)
    ensures AffinityOnWire(a) == Affinity(None, None, None) <==> a == Affinity(None, None, None)
  {
  }

  /** Empty lists make no difference to a stored workload, so a status that leaves them out still describes it. */
  lemma BuiltFromOnWire(workload: Workload, name: string, m: Mirrored)
    requires BuiltFrom(workload, name, m)
    ensures BuiltFrom(workload, name, MirrorOnWire(m))
  {
    hide WorkloadFor, WorkloadOnWire;
    var s: DebuggerSpec, pinger: Option<Pinger>, kept: map<string, string>, cms: ConfigMaps :|
      && SpecMirror(s) == m
      && (s.enablePinger ==> pinger.Some?)
      && workload == WorkloadOnWire(WorkloadFor(name, s, pinger, kept, cms));
    assert SpecMirror(WireSpec(s)) == MirrorOnWire(m);
    WireSpecBuilds(name, s, pinger, kept, cms);
    hide SpecMirror, MirrorOnWire;
    assert workload == WorkloadOnWire(WorkloadFor(name, WireSpec(s), pinger, kept, cms));
  }

  /** The workload of the kind that m asks for is there and was built from m. */
  ghost predicate Placed(w: World, m: Mirrored) {
    && w.debugger.Some?
    && WorkloadOf(w, KindOf(m.workloadType)).Some?
    && BuiltFrom(WorkloadOf(w, KindOf(m.workloadType)).value, w.debugger.value.name, m)
  }

  /** The workload of the kind that m asks for is there and carries m. */
  ghost predicate Tells(w: World, m: Mirrored) {
    WorkloadOf(w, KindOf(m.workloadType)).Some? && Carries(WorkloadOf(w, KindOf(m.workloadType)).value, m)
  }

  predicate UpToDate(w: World) {
    w.debugger.Some? && Valid(w.debugger.value) && !IsChanged(w.debugger.value)
  }

  /** The status is that of a new object, or the workload is what the status says. */
  ghost predicate Kept(w: World) {
    w.debugger.Some? ==>
      var st := w.debugger.value.status;
      st.cpu == "" || Placed(w, StatusMirror(st))
  }

  /**
    A reconcile that stores a workload also stores the status, from the same mirrored fields,
    unless the object is gone by then.
   */
  predicate Clean(w: World, r: Replies) {
    Writes(w, r) ==>
      || r.window.Deleted?
      || (&& (r.window.Edited? ==> SpecMirror(r.window.spec) == SpecMirror(w.debugger.value.spec))
          && r.againOk && r.statusOk)
  }

  predicate CleanRun(w: World, events: seq<Event>)
    decreases |events|
  {
    events == [] || ((events[0].Reconcile? ==> Clean(w, events[0].r)) && CleanRun(Next(w, events[0]), events[1..]))
  }

  // ---------- one reconcile ----------

  lemma WhenIdle(w: World, r: Replies)
    requires !Writes(w, r)
    ensures Step(w, r).0 == w
  {
    hide Gate, IsChanged, Built, Record;
  }

  /** What a reconcile that writes leaves behind before it turns to the status. */
  lemma WhenWriting(w: World, r: Replies)
    requires Writes(w, r)
    ensures var put := Put(w, Built(w, r));
            && Step(w, r) == Record(Interfere(put, r.window), r)
            && put.debugger == w.debugger
            && Placed(put, SpecMirror(w.debugger.value.spec))
            && WorkloadOf(put, KindOf(w.debugger.value.spec.workloadType)) == Some(WorkloadOnWire(Built(w, r)))
            && forall kind :: kind != KindOf(w.debugger.value.spec.workloadType) ==>
                WorkloadOf(put, kind) == WorkloadOf(w, kind)
  {
    var d := w.debugger.value;
    assert SpecMirror(d.spec).workloadType == d.spec.workloadType;
    hide WorkloadFor, WorkloadOnWire, IsChanged, Gate, Record, SpecMirror, PingerOf;
    var kept := if WorkloadOf(w, KindOf(d.spec.workloadType)).Some? then r.kept else map[];
    var built := WorkloadFor(d.name, d.spec, PingerOf(d.spec, r), kept, r.atBuild);
    assert BuiltFrom(WorkloadOnWire(built), d.name, SpecMirror(d.spec));
  }

  /** What the recording does when its read and its write succeed. */
  lemma WhenRecording(w: World, r: Replies)
    requires w.debugger.Some? && r.againOk && r.statusOk
    ensures var d := w.debugger.value;
            var after := Record(w, r).0;
            && Record(w, r).1 == Success
            && after == w.(debugger := after.debugger)
            && after.debugger.Some?
            && after.debugger.value == d.(status := after.debugger.value.status)
            && StatusMirror(after.debugger.value.status) ==
                 (if IsChanged(d) then MirrorOnWire(SpecMirror(d.spec)) else SpecMirror(d.spec))
            && after.debugger.value.status.subnet == d.status.subnet
            && (IsChanged(after.debugger.value) <==> IsChanged(d) && Lossy(d.spec))
  {
    IsChangedIff(w.debugger.value);
    IsChangedIff(Record(w, r).0.debugger.value);
    hide IsChanged;
  }

  /** A clean reconcile keeps the promise. */
  lemma StepKeeps(w: World, r: Replies)
    requires Kept(w) && Clean(w, r)
    ensures Kept(Step(w, r).0)
  {
    if !Writes(w, r) {
      WhenIdle(w, r);
    } else {
      WhenWriting(w, r);
      hide Gate, Built, IsChanged, SpecMirror, Placed;
      if r.window.Deleted? {
        assert Step(w, r).0.debugger.None?;
      } else {
        RecordingKeeps(Put(w, Built(w, r)), r);
      }
    }
  }

  lemma RecordingKeeps(put: World, r: Replies)
    requires put.debugger.Some? && Placed(put, SpecMirror(put.debugger.value.spec)) && !r.window.Deleted?
    requires r.window.Edited? ==> SpecMirror(r.window.spec) == SpecMirror(put.debugger.value.spec)
    requires r.againOk && r.statusOk
    ensures Kept(Record(Interfere(put, r.window), r).0)
  {
    var seen := Interfere(put, r.window);
    WhenRecording(seen, r);
    PlacedOnWire(seen, SpecMirror(put.debugger.value.spec));
    hide BuiltFrom, Record, IsChanged, SpecMirror, StatusMirror, MirrorOnWire, Lossy;
  }

  lemma PlacedOnWire(w: World, m: Mirrored)
    requires Placed(w, m)
    ensures Placed(w, MirrorOnWire(m))
  {
    BuiltFromOnWire(WorkloadOf(w, KindOf(m.workloadType)).value, w.debugger.value.name, m);
    hide BuiltFrom;
  }

  lemma NextKeeps(w: World, e: Event)
    requires Kept(w) && (e.Reconcile? ==> Clean(w, e.r))
    ensures Kept(Next(w, e))
  {
    if e.Reconcile? {
      StepKeeps(w, e.r);
    }
    hide BuiltFrom, Step, Clean, StatusMirror;
  }

  lemma {:induction false} RunKeeps(w: World, events: seq<Event>)
    requires Kept(w) && CleanRun(w, events)
    ensures Kept(Run(w, events))
    decreases |events|
  {
    if events != [] {
      NextKeeps(w, events[0]);
      RunKeeps(Next(w, events[0]), events[1..]);
    }
  }

  // ---------- main results ----------

  const NOTHING := World(None, None, None)

  /**
    On every clean run, a valid Debugger whose status agrees with its specification has a workload
    of its present type, built from exactly its mirrored fields, and the workload says so itself.
   */
  lemma UpToDateMeansPlaced(events: seq<Event>)
    requires CleanRun(NOTHING, events) && UpToDate(Run(NOTHING, events))
    ensures var w := Run(NOTHING, events);
            var m := SpecMirror(w.debugger.value.spec);
            Placed(w, m) && Tells(w, m)
  {
    RunKeeps(NOTHING, events);
    var w := Run(NOTHING, events);
    var m := SpecMirror(w.debugger.value.spec);
    IsChangedIff(w.debugger.value);
    assert w.debugger.value.status.cpu != "";
    PlacedTells(w, m);
  }

  lemma PlacedTells(w: World, m: Mirrored)
    requires Placed(w, m)
    ensures Tells(w, m)
  {
    ShowsItself(m);
    BuiltFromCarries(WorkloadOf(w, KindOf(m.workloadType)).value, w.debugger.value.name, m, m);
    hide Carries, Shows, BuiltFrom;
  }

  /**
    Whatever happened before, one undisturbed reconcile of a changed Debugger makes its workload right.
    The Debugger then counts as unchanged, unless it has a list that its status cannot hold. Its config
    maps are mounted exactly if they could be read at the build.
   */
  lemma OneReconcileSuffices(w: World, r: Replies)
    requires Writes(w, r) && r.window.Quiet? && r.againOk && r.statusOk
    ensures var (after, state) := Step(w, r);
            var m := SpecMirror(w.debugger.value.spec);
            && state == Success
            && after.debugger.Some? && after.debugger.value.spec == w.debugger.value.spec
            && Placed(after, m) && Tells(after, m)
            && (UpToDate(after) <==> !Lossy(w.debugger.value.spec))
            && (MountsConfig(WorkloadOf(after, KindOf(m.workloadType)).value, m) <==>
                  Readable(w.debugger.value.spec, r.atBuild))
  {
    WhenWriting(w, r);
    var d := w.debugger.value;
    var put, after := Put(w, Built(w, r)), Step(w, r).0;
    WhenRecording(put, r);
    BuiltMounts(w, r);
    GateNeedsValid(d, r);
    assert SpecMirror(d.spec).workloadType == d.spec.workloadType;
    hide BuiltFrom, Carries, MountsConfig, Built, Record, IsChanged, SpecMirror, StatusMirror, Gate, Readable, Lossy;
    assert Placed(after, SpecMirror(d.spec));
    PlacedTells(after, SpecMirror(d.spec));
  }

  lemma GateNeedsValid(d: Debugger, r: Replies)
    requires Gate(d, r) == None
    ensures Valid(d)
  {
    hide Valid;
  }

  lemma BuiltMounts(w: World, r: Replies)
    requires w.debugger.Some? && Gate(w.debugger.value, r) == None
    ensures MountsConfig(WorkloadOnWire(Built(w, r)), SpecMirror(w.debugger.value.spec)) <==>
            Readable(w.debugger.value.spec, r.atBuild)
  {
    var d := w.debugger.value;
    var kept := if WorkloadOf(w, KindOf(d.spec.workloadType)).Some? then r.kept else map[];
    BuiltMountsIff(d.name, d.spec, PingerOf(d.spec, r), kept, r.atBuild);
    hide MountsConfig, WorkloadFor, WorkloadOnWire, Readable;
  }

  // ---------- what being up to date does not promise ----------

  predicate OnlyReconciles(events: seq<Event>) {
    forall e :: e in events ==> e.Reconcile?
  }

  /** A Debugger that counts as unchanged is never touched again, whatever became of its workload. */
  lemma {:induction false} UnchangedIsInert(w: World, events: seq<Event>)
    requires w.debugger.Some? && !IsChanged(w.debugger.value) && OnlyReconciles(events)
    ensures Run(w, events) == w
    decreases |events|
  {
    if events != [] {
      assert events[0] in events;
      WhenIdle(w, events[0].r);
      UnchangedIsInert(w, events[1..]);
    }
  }

  /** An edit of the subnet or of the selector alone never reaches the workload. */
  lemma UnmirroredEditIsIgnored(w: World, spec: DebuggerSpec, events: seq<Event>)
    requires w.debugger.Some? && !IsChanged(w.debugger.value) && OnlyReconciles(events)
    requires SpecMirror(spec) == SpecMirror(w.debugger.value.spec)
    ensures var after := Run(Next(w, Edit(spec)), events);
            after.pod == w.pod && after.ds == w.ds && after.debugger.Some? && !IsChanged(after.debugger.value)
  {
    var edited := Next(w, Edit(spec));
    IsChangedIff(w.debugger.value);
    IsChangedIff(edited.debugger.value);
    UnchangedIsInert(edited, events);
  }

  /** What the workloads say about a mirror n once a reconcile has stored the one built from m. */
  lemma TellsAfterWriting(w: World, r: Replies, n: Mirrored)
    requires Writes(w, r)
    ensures var m := SpecMirror(w.debugger.value.spec);
            Tells(Put(w, Built(w, r)), n) <==>
              if KindOf(m.workloadType) == KindOf(n.workloadType) then Shows(m, n) else Tells(w, n)
  {
    var d := w.debugger.value;
    WhenWriting(w, r);
    assert SpecMirror(d.spec).workloadType == d.spec.workloadType;
    hide SpecMirror, BuiltFrom, Carries, Shows, Built, Put;
    BuiltFromCarries(WorkloadOf(Put(w, Built(w, r)), KindOf(d.spec.workloadType)).value, d.name, SpecMirror(d.spec), n);
  }

  /**
    An edit between the reconciler's first read and its status refetch. The reconcile succeeds and, unless
    the edit has a list that the status cannot hold, the Debugger counts as unchanged from then on and is never
    touched again. The workload carries the edit exactly if the type stayed and what was built from the
    specification before shows it all the same, or the type changed and the other workload happens to carry it.
   */
  lemma WindowEditIff(w: World, r: Replies, events: seq<Event>)
    requires Writes(w, r) && r.window.Edited? && r.againOk && r.statusOk && OnlyReconciles(events)
    ensures var d, edit := w.debugger.value, r.window.spec;
            var (after, state) := Step(w, r);
            var m, n := SpecMirror(d.spec), SpecMirror(edit);
            && state == Success
            && after.debugger.Some? && after.debugger.value.spec == edit
            && (IsChanged(after.debugger.value) <==> IsChanged(d.(spec := edit)) && Lossy(edit))
            && (!IsChanged(after.debugger.value) ==> Run(after, events) == after)
            && (Tells(after, n) <==>
                if KindOf(m.workloadType) == KindOf(n.workloadType) then Shows(m, n) else Tells(w, n))
  {
    var put := Put(w, Built(w, r));
    var seen, after := Interfere(put, r.window), Step(w, r).0;
    WhenWriting(w, r);
    WhenRecording(seen, r);
    TellsAfterWriting(w, r, SpecMirror(r.window.spec));
    if !IsChanged(after.debugger.value) {
      UnchangedIsInert(after, events);
    }
    hide Carries, Shows, Built, Record, IsChanged, Gate, BuiltFrom, SpecMirror, Lossy;
    assert after.pod == put.pod && after.ds == put.ds;
  }

  /**
    The same without a race: a status write that fails, followed by an edit back to the mirrored fields
    that the status still shows. The Debugger counts as unchanged, and the workload is that of the
    abandoned specification unless it shows the other one too.
   */
  lemma RevertAfterFailedWriteIff(w: World, r: Replies, spec: DebuggerSpec, events: seq<Event>)
    requires Writes(w, r) && r.window.Quiet? && !(r.againOk && r.statusOk) && OnlyReconciles(events)
    requires SpecMirror(spec) == StatusMirror(w.debugger.value.status)
    ensures Step(w, r).1 == Error
    ensures var reverted := Next(Step(w, r).0, Edit(spec));
            var m, n := SpecMirror(w.debugger.value.spec), SpecMirror(spec);
            && reverted.debugger.Some? && !IsChanged(reverted.debugger.value)
            && Run(reverted, events) == reverted
            && (Tells(reverted, n) <==>
                if KindOf(m.workloadType) == KindOf(n.workloadType) then Shows(m, n) else Tells(w, n))
  {
    var put := Put(w, Built(w, r));
    WhenWriting(w, r);
    assert Record(put, r) == (put, Error);
    var reverted := Next(put, Edit(spec));
    IsChangedIff(reverted.debugger.value);
    UnchangedIsInert(reverted, events);
    TellsAfterWriting(w, r, SpecMirror(spec));
    hide Carries, Shows, Built, Record, IsChanged, Gate, BuiltFrom, SpecMirror, StatusMirror;
    assert reverted.pod == put.pod && reverted.ds == put.ds;
  }

  /** Up to date, yet the workload of its type is missing or says something else. */
  ghost predicate Stranded(w: World) {
    UpToDate(w) && !Tells(w, SpecMirror(w.debugger.value.spec))
  }

  /** A specification without anything that it does not need. */
  function PodSpec(image: string): DebuggerSpec {
    DebuggerSpec(WORKLOAD_TYPE_POD, "1", "1Gi", "", "", false, image, None, None, Affinity(None, None, None),
                 "", false, "", false, false, "", "", "")
  }

  function AllWell(window: Window): Replies {
    Replies(true, map[], None, true, map[], map[], true, window, true, true)
  }

  lemma PodSpecPasses(d: Debugger, image: string, r: Replies)
    requires d.spec == PodSpec(image) && image != "" && d.status.subnet == ""
    ensures Valid(d) && Gate(d, r) == None && !Lossy(d.spec)
  {
  }

  /** A run from nothing with one edit at the wrong moment, which ends with the old image in the workload for good. */
  lemma WindowEditStrands(events: seq<Event>)
    requires OnlyReconciles(events)
    ensures Stranded(Run(NOTHING, [Create("d", PodSpec("a")), Reconcile(AllWell(Edited(PodSpec("b"))))] + events))
  {
    var first, second := Create("d", PodSpec("a")), Reconcile(AllWell(Edited(PodSpec("b"))));
    var w := Next(NOTHING, first);
    var after := Next(w, second);
    assert "a" != "b" by { assert "a"[0] != "b"[0]; }
    PodSpecPasses(w.debugger.value, "a", second.r);
    assert IsChanged(w.debugger.value);
    WindowEditIff(w, second.r, events);
    PodSpecPasses(after.debugger.value, "b", second.r);
    assert !Shows(SpecMirror(PodSpec("a")), SpecMirror(PodSpec("b")));
    assert ([first, second] + events)[1..] == [second] + events;
    assert ([second] + events)[1..] == events;
    hide Next, Step, Valid, Tells, IsChanged, Gate, Shows;
    assert Run(NOTHING, [first, second] + events) == Run(w, [second] + events) == Run(after, events) == after;
  }

  /** A reconcile never touches the workload of the other kind: after a change of type the old one stays behind. */
  lemma OtherKindIsLeftBehind(w: World, r: Replies, kind: Kind)
    requires w.debugger.Some? && kind != KindOf(w.debugger.value.spec.workloadType)
    ensures WorkloadOf(Step(w, r).0, kind) == WorkloadOf(w, kind)
  {
    hide IsChanged, Gate;
  }

  // ---------- lists that the status cannot hold ----------

  predicate Undisturbed(events: seq<Event>) {
    forall e :: e in events ==> e.Reconcile? && e.r.window.Quiet?
  }

  lemma LossyStaysChangedOnce(w: World, r: Replies)
    requires w.debugger.Some? && Lossy(w.debugger.value.spec) && IsChanged(w.debugger.value) && r.window.Quiet?
    ensures var after := Step(w, r).0;
            && after.debugger.Some? && after.debugger.value.spec == w.debugger.value.spec
            && IsChanged(after.debugger.value)
  {
    if !Writes(w, r) {
      WhenIdle(w, r);
    } else {
      WhenWriting(w, r);
      var put := Put(w, Built(w, r));
      if r.againOk && r.statusOk {
        WhenRecording(put, r);
      }
      hide Built, Gate, Lossy, WithMirror, StatusOnWire;
    }
  }

  /**
    A Debugger with an empty list of tolerations, or an affinity with an empty list, never comes to rest:
    it counts as changed after any number of undisturbed reconciles, and every one that can writes again.
   */
  lemma {:induction false} LossyNeverSettles(w: World, events: seq<Event>)
    requires w.debugger.Some? && Lossy(w.debugger.value.spec) && IsChanged(w.debugger.value) && Undisturbed(events)
    ensures var after := Run(w, events);
            && after.debugger.Some? && after.debugger.value.spec == w.debugger.value.spec
            && IsChanged(after.debugger.value)
            && forall r: Replies :: r.getOk && Gate(after.debugger.value, r) == None && r.workloadOk && r.putOk ==>
                Writes(after, r)
    decreases |events|
  {
    if events != [] {
      assert events[0] in events;
      LossyStaysChangedOnce(w, events[0].r);
      hide IsChanged, Lossy, Step, Gate;
      LossyNeverSettles(Next(w, events[0]), events[1..]);
    }
  }

  // ---------- what a status never holds ----------

  /** No subnet, and no list that is empty without being nil. */
  ghost predicate PlainStatus(w: World) {
    w.debugger.Some? ==>
      var st := w.debugger.value.status;
      st.subnet == "" && st == StatusOnWire(st)
  }

  lemma {:induction false} StatusStaysPlain(w: World, events: seq<Event>)
    requires PlainStatus(w)
    ensures PlainStatus(Run(w, events))
    decreases |events|
  {
    if events != [] {
      NextStaysPlain(w, events[0]);
      StatusStaysPlain(Next(w, events[0]), events[1..]);
    }
  }

  lemma NextStaysPlain(w: World, e: Event)
    requires PlainStatus(w)
    ensures PlainStatus(Next(w, e))
  {
    hide IsChanged, Gate, Built;
  }

  /** Whatever runs came before, the guard against a changed subnet lets every subnet pass. */
  lemma SubnetGuardNeverFires(events: seq<Event>, spec: DebuggerSpec)
    requires Run(NOTHING, events).debugger.Some?
    ensures var d := Run(NOTHING, events).debugger.value;
            && d.status.subnet == ""
            && forall subnet :: spec.subnet != "" && subnet != "" ==>
                 (Valid(d.(spec := spec)) <==> Valid(d.(spec := spec.(subnet := subnet))))
  {
    StatusStaysPlain(NOTHING, events);
  }

  /** Whatever runs came before, a Debugger with a list that its status cannot hold counts as changed. */
  lemma LossyIsChanged(events: seq<Event>)
    requires var w := Run(NOTHING, events); w.debugger.Some? && Lossy(w.debugger.value.spec)
    ensures IsChanged(Run(NOTHING, events).debugger.value)
  {
    StatusStaysPlain(NOTHING, events);
    IsChangedIff(Run(NOTHING, events).debugger.value);
  }
}
