/**
  Concrete runs of one gateway, in all but the last of which every call succeeds, that end with an unchanged
  gateway whose workload is not what the specification asks for, and stay there.
 */
module GatewayMisled {
  import opened Api
  import opened GatewayTypes
  import Status = GatewayStatus
  import opened GatewayWorkload
  import opened GatewayController
  import opened GatewayReading
  import opened GatewayRuns
  import opened GatewayConvergence
  import opened GatewaySamples
  import Admission
  import Keepalived

  /** Unchanged, with a workload of its kind that carries something else. */
  ghost predicate Misled(x: Extent, w: World) {
    && w.gw.Some? && !HasToRebuild(w)
    && !Tells(x, w, KindOf(w.gw.value), SpecFields(w.gw.value.spec))
  }

  function SpecOf(w: World): VpnGwSpec {
    if w.gw.Some? then w.gw.value.spec else GwSpec("", "", "")
  }

  function GwSpec(workloadType: string, cpu: string, image: string): VpnGwSpec {
    SslSpec("ka", workloadType, cpu, image)
  }

  const KA := Keepalived.KeepAlived(0, 0, KA_SPEC, 7)

  /** Every call succeeds. */
  function Well(window: Window): Answers {
    Answers(Some(KA), true, map[], true, None, None, {}, window, true, true)
  }

  lemma GwGate(w: World, workloadType: string, cpu: string, image: string, window: Window)
    requires w.gw.Some? && w.gw.value.spec == GwSpec(workloadType, cpu, image) && cpu != "" && image != ""
    ensures Gate(RepliesOf(w, Well(window))) == None && PortsParse(PortConfig(), w.gw.value)
  {
    SslIsFine(w.gw.value, "ka", workloadType, cpu, image);
    hide PortsParse, Admission.FirstBroken, PortConfig;
  }

  lemma GwSucceeds(w: World, workloadType: string, cpu: string, image: string, window: Window)
    requires w.gw.Some? && w.gw.value.spec == GwSpec(workloadType, cpu, image) && cpu != "" && image != ""
    ensures Succeeds(PortConfig(), w, Well(window))
  {
    GwGate(w, workloadType, cpu, image, window);
    GwBuild(w, workloadType, cpu, image, window);
    hide Gate, BuildOf, StatusWrite, PortConfig, Conns, PayloadOf;
  }

  lemma GwBuild(w: World, workloadType: string, cpu: string, image: string, window: Window)
    requires w.gw.Some? && w.gw.value.spec == GwSpec(workloadType, cpu, image) && cpu != "" && image != ""
    ensures var r := RepliesOf(w, Well(window));
            var build := BuildOf(PortConfig(), w.gw.value, KeepalivedOf(w.gw.value, r), r.workload);
            build.Nothing? || build.Write?
  {
    GwGate(w, workloadType, cpu, image, window);
    hide Gate, PortsParse, PortConfig, Status.IsChanged, WorkloadFor;
    assert w.gw.value.spec.keepalived != "";
  }

  /** A round of copying without a residual leaves such a gateway unchanged. */
  lemma GwSettlesIff(ep: Endpoints, gw: VpnGw, workloadType: string, cpu: string, image: string)
    requires gw.spec == GwSpec(workloadType, cpu, image)
    ensures Status.Sync(ep, gw, None).spec == gw.spec
    ensures gw.status.ipsecVpnImage == "" ==> (!Status.IsChanged(Status.Sync(ep, gw, None), None) <==> NoResidual(gw))
    ensures gw.status.ipsecVpnImage == "" ==> Status.Sync(ep, gw, None).status.ipsecVpnImage == ""
    ensures gw.status.enableSslVpn ==> Status.Sync(ep, gw, None).status.enableSslVpn
  {
    Status.ResidualIff(ep, gw, None);
  }

  lemma RunFirst(ep: Endpoints, cfg: Config, w: World, act: Action, rest: seq<Action>)
    ensures Run(ep, cfg, w, [act] + rest) == Run(ep, cfg, Next(ep, cfg, w, act), rest)
  {
    hide Next;
    assert ([act] + rest)[1..] == rest;
  }

  lemma RunTwo(ep: Endpoints, cfg: Config, w: World, one: Action, two: Action)
    ensures Run(ep, cfg, w, [one] + [two]) == Next(ep, cfg, Next(ep, cfg, w, one), two)
  {
    RunFirst(ep, cfg, w, one, [two]);
    hide Next;
    assert [two] == [two] + [];
    RunFirst(ep, cfg, Next(ep, cfg, w, one), two, []);
  }

  /** What a reconcile of such a gateway leaves behind when every call succeeds. */
  lemma GwReconciled(
    ep: Endpoints, w: World, workloadType: string, cpu: string, image: string, window: Window, spec: VpnGwSpec)
    requires w.gw.Some? && w.gw.value.spec == GwSpec(workloadType, cpu, image) && cpu != "" && image != ""
    requires Refetched(w.gw.value, window) == Some(w.gw.value.(spec := spec))
    ensures var first, after := w.gw.value, Reconciled(ep, PortConfig(), w, Well(window));
            && after.gw == Some(Status.Sync(ep, first.(spec := spec), None))
            && (HasToRebuild(w) ==>
                  Placed(Full, PortConfig(), after, first.key, KindOf(first), SpecFields(first.spec)))
            && (!HasToRebuild(w) ==> WorkloadOf(after, KindOf(first)) == WorkloadOf(w, KindOf(first)))
            && forall other :: other != KindOf(first) ==> WorkloadOf(after, other) == WorkloadOf(w, other)
  {
    GwSucceeds(w, workloadType, cpu, image, window);
    OnSuccess(ep, PortConfig(), w, Well(window));
    assert Conns(w.gw.value, RepliesOf(w, Well(window))) == None;
    hide Reconciled, Succeeds, HasToRebuild, BuiltFrom, SpecFields, Status.Sync, Conns, PortConfig;
  }

  lemma Kinds()
    ensures "static" != "statefulset" && "1" != "2" && "a" != "b"
  {
    assert |"static"| != |"statefulset"| && "1"[0] != "2"[0] && "a"[0] != "b"[0];
  }

  lemma NextIs(ep: Endpoints, cfg: Config, w: World, key: Key, spec: VpnGwSpec, a: Answers)
    ensures Next(ep, cfg, NOTHING, Create(key, spec)) == Created(key, spec)
    ensures Next(ep, cfg, w, Handle(a)) == Reconciled(ep, cfg, w, a)
  {
    hide Reconciled;
  }

  /** Once misled, undisturbed reconciles change nothing. */
  lemma MisledStays(x: Extent, ep: Endpoints, cfg: Config, w: World, later: seq<Action>)
    requires Misled(x, w) && !SpecOf(w).enableIPSecVpn && Undisturbed(later)
    ensures Misled(x, Run(ep, cfg, w, later))
  {
    UnchangedIsInert(ep, cfg, w, later);
  }

  /** A workload built from f does not carry fields that f does not show. */
  lemma PlacedTellsNot(x: Extent, cfg: Config, w: World, key: Key, kind: Kind, f: Fields, g: Fields)
    requires Placed(Full, cfg, w, key, kind, f) && !Shows(x, kind, f, g)
    ensures !Tells(x, w, kind, g)
  {
    BuiltFromAgrees(x, cfg, WorkloadOf(w, kind).value, key, kind, f, f);
    BuiltFromCarries(x, cfg, WorkloadOf(w, kind).value, key, kind, f, g);
    hide BuiltFrom, Carries, Shows;
  }

  // ---------- an edit in the window ----------

  function Created(key: Key, spec: VpnGwSpec): World {
    World(Some(VpnGw(key, spec, Status.NEW_STATUS)), None, None)
  }

  /** The first reconcile of a new gateway, with or without an edit on its way. */
  lemma FirstReconcile(ep: Endpoints, key: Key, workloadType: string, cpu: string, cpu': string, window: Window)
    requires cpu != ""
    requires window == if cpu == cpu' then Quiet else Edited(GwSpec(workloadType, cpu', "a"))
    ensures var one, two := GwSpec(workloadType, cpu, "a"), GwSpec(workloadType, cpu', "a");
            var w := Created(key, one);
            var after := Reconciled(ep, PortConfig(), w, Well(window));
            var kind := KindOf(VpnGw(key, one, Status.NEW_STATUS));
            && Succeeds(PortConfig(), w, Well(window))
            && after.gw == Some(Status.Sync(ep, VpnGw(key, two, Status.NEW_STATUS), None))
            && after.gw.value.spec == two && !Status.IsChanged(after.gw.value, None)
            && Placed(Full, PortConfig(), after, key, kind, SpecFields(one))
            && forall other :: other != kind ==> WorkloadOf(after, other) == None
  {
    var one, two := GwSpec(workloadType, cpu, "a"), GwSpec(workloadType, cpu', "a");
    var w := Created(key, one);
    GwSucceeds(w, workloadType, cpu, "a", window);
    GwReconciled(ep, w, workloadType, cpu, "a", window, two);
    GwSettlesIff(ep, VpnGw(key, two, Status.NEW_STATUS), workloadType, cpu', "a");
    assert NoResidual(VpnGw(key, two, Status.NEW_STATUS));
    assert HasToRebuild(w);
    hide Reconciled, PortConfig, GwSpec, Succeeds, BuiltFrom, SpecFields, Status.Sync, Status.IsChanged, NoResidual,
         HasToRebuild;
  }

  lemma EditedInWindow(ep: Endpoints, key: Key)
    ensures var w := Created(key, GwSpec("static", "1", "a"));
            var window := Edited(GwSpec("static", "2", "a"));
            var after := Reconciled(ep, PortConfig(), w, Well(window));
            && Succeeds(PortConfig(), w, Well(window))
            && Misled(Basic, after) && !SpecOf(after).enableIPSecVpn
  {
    var one, two := GwSpec("static", "1", "a"), GwSpec("static", "2", "a");
    Kinds();
    FirstReconcile(ep, key, "static", "1", "2", Edited(two));
    var after := Reconciled(ep, PortConfig(), Created(key, one), Well(Edited(two)));
    assert KindOf(after.gw.value) == DaemonSet && !two.enableIPSecVpn;
    assert KindOf(VpnGw(key, one, Status.NEW_STATUS)) == DaemonSet;
    assert !Shows(Basic, DaemonSet, SpecFields(one), SpecFields(two));
    hide Reconciled, PortConfig, GwSpec, Shows, SpecFields, BuiltFrom, Carries, Succeeds, Status.IsChanged, KindOf,
         Status.Sync;
    PlacedTellsNot(Basic, PortConfig(), after, key, DaemonSet, SpecFields(one), SpecFields(two));
  }

  /**
    One reconcile of a new gateway, which succeeds although its CPU was edited before the refetch: the gateway is
    unchanged with the new CPU, and its workload has the old one.
   */
  lemma WindowEditMisleads(ep: Endpoints, key: Key, later: seq<Action>)
    requires Undisturbed(later)
    ensures var create := Create(key, GwSpec("static", "1", "a"));
            var work := Handle(Well(Edited(GwSpec("static", "2", "a"))));
            && Succeeds(PortConfig(), Next(ep, PortConfig(), NOTHING, create), work.a)
            && Misled(Basic, Run(ep, PortConfig(), NOTHING, [create] + ([work] + later)))
  {
    hide *;
    var cfg := PortConfig();
    var create, work := Create(key, GwSpec("static", "1", "a")), Handle(Well(Edited(GwSpec("static", "2", "a"))));
    EditedInWindow(ep, key);
    var w := Created(key, create.spec);
    NextIs(ep, cfg, w, key, create.spec, work.a);
    RunFirst(ep, cfg, NOTHING, create, [work] + later);
    RunFirst(ep, cfg, w, work, later);
    MisledStays(Basic, ep, cfg, Reconciled(ep, cfg, w, work.a), later);
  }

  // ---------- a change of type and back ----------

  /** An undisturbed reconcile of such a gateway whose fields are all copied, or already were. */
  lemma QuietRound(ep: Endpoints, w: World, workloadType: string, cpu: string, image: string)
    requires w.gw.Some? && w.gw.value.spec == GwSpec(workloadType, cpu, image) && cpu != "" && image != ""
    requires NoResidual(w.gw.value) && w.gw.value.status.ipsecVpnImage == ""
    ensures var gw, after := w.gw.value, Reconciled(ep, PortConfig(), w, Well(Quiet));
            && Succeeds(PortConfig(), w, Well(Quiet))
            && after.gw.Some? && after.gw.value.spec == gw.spec && after.gw.value.key == gw.key
            && !Status.IsChanged(after.gw.value, None) && after.gw.value.status.ipsecVpnImage == ""
            && (HasToRebuild(w) ==> Placed(Full, PortConfig(), after, gw.key, KindOf(gw), SpecFields(gw.spec)))
            && forall other :: other != KindOf(gw) ==> WorkloadOf(after, other) == WorkloadOf(w, other)
  {
    GwSucceeds(w, workloadType, cpu, image, Quiet);
    GwReconciled(ep, w, workloadType, cpu, image, Quiet, w.gw.value.spec);
    GwSettlesIff(ep, w.gw.value, workloadType, cpu, image);
    RecordsIff(ep, w.gw.value, None);
    hide Reconciled, Succeeds, HasToRebuild, BuiltFrom, SpecFields, StatusFields, Status.Sync, PortConfig, NoResidual,
         Status.IsChanged, GwSpec;
  }

  /** From a new StatefulSet gateway to an unchanged DaemonSet one with another CPU; the StatefulSet is still there. */
  lemma BothKinds(ep: Endpoints, key: Key) returns (w: World)
    ensures var cfg, first := PortConfig(), Created(key, GwSpec("statefulset", "1", "a"));
            var edited := Next(ep, cfg, Reconciled(ep, cfg, first, Well(Quiet)), Revise(GwSpec("static", "2", "a")));
            && Succeeds(cfg, first, Well(Quiet)) && Succeeds(cfg, edited, Well(Quiet))
            && w == Reconciled(ep, cfg, edited, Well(Quiet))
    ensures w.gw.Some? && w.gw.value.spec == GwSpec("static", "2", "a") && !Status.IsChanged(w.gw.value, None)
    ensures Placed(Full, PortConfig(), w, key, StatefulSet, SpecFields(GwSpec("statefulset", "1", "a")))
  {
    var cfg, one, two := PortConfig(), GwSpec("statefulset", "1", "a"), GwSpec("static", "2", "a");
    var first := Created(key, one);
    Kinds();
    assert KindOf(first.gw.value) == StatefulSet && NoResidual(first.gw.value) && HasToRebuild(first);
    QuietRound(ep, first, "statefulset", "1", "a");
    var between := Reconciled(ep, cfg, first, Well(Quiet));
    var edited := Next(ep, cfg, between, Revise(two));
    assert edited.gw.Some? && edited.gw.value == between.gw.value.(spec := two) && edited.sts == between.sts;
    assert NoResidual(edited.gw.value) && KindOf(edited.gw.value) == DaemonSet;
    hide Reconciled, Succeeds, HasToRebuild, BuiltFrom, SpecFields, PortConfig, NoResidual, Status.IsChanged, GwSpec,
         KindOf;
    QuietRound(ep, edited, "static", "2", "a");
    w := Reconciled(ep, cfg, edited, Well(Quiet));
    assert WorkloadOf(w, StatefulSet) == WorkloadOf(between, StatefulSet);
  }

  /** Back to the first type, with the new CPU. */
  lemma BackToOldKind(ep: Endpoints, key: Key, w: World)
    requires w.gw.Some? && w.gw.value.spec == GwSpec("static", "2", "a") && !Status.IsChanged(w.gw.value, None)
    requires Placed(Full, PortConfig(), w, key, StatefulSet, SpecFields(GwSpec("statefulset", "1", "a")))
    ensures var back := Next(ep, PortConfig(), w, Revise(GwSpec("statefulset", "2", "a")));
            Misled(Basic, back) && !SpecOf(back).enableIPSecVpn
  {
    var before, spec := GwSpec("statefulset", "1", "a"), GwSpec("statefulset", "2", "a");
    var back := Next(ep, PortConfig(), w, Revise(spec));
    Kinds();
    assert back == w.(gw := Some(w.gw.value.(spec := spec)));
    assert Watch(spec) == Watch(w.gw.value.spec) && w.gw.value.status.keepalived != "";
    StaysUnchangedIff(w.gw.value, spec);
    assert KindOf(back.gw.value) == StatefulSet && !spec.enableIPSecVpn;
    assert !Shows(Basic, StatefulSet, SpecFields(before), SpecFields(spec));
    hide PortConfig, GwSpec, Shows, SpecFields, BuiltFrom, Carries, Status.IsChanged, KindOf, Watch;
    PlacedTellsNot(Basic, PortConfig(), back, key, StatefulSet, SpecFields(before), SpecFields(spec));
  }

  /**
    A StatefulSet gateway becomes a DaemonSet gateway with another CPU and then a StatefulSet gateway again: it is
    unchanged, and the StatefulSet left over from the beginning has the old CPU.
   */
  lemma ChangeOfKindMisleads(ep: Endpoints, key: Key, later: seq<Action>)
    requires Undisturbed(later)
    ensures var one, two, three :=
              GwSpec("statefulset", "1", "a"), GwSpec("static", "2", "a"), GwSpec("statefulset", "2", "a");
            var work := Handle(Well(Quiet));
            var w := Next(ep, PortConfig(), NOTHING, Create(key, one));
            && Succeeds(PortConfig(), w, work.a)
            && Succeeds(PortConfig(), Run(ep, PortConfig(), w, [work] + [Revise(two)]), work.a)
            && Misled(Basic, Run(ep, PortConfig(), NOTHING,
                 [Create(key, one)] + ([work] + ([Revise(two)] + ([work] + ([Revise(three)] + later))))))
  {
    hide *;
    var cfg, one, two, three :=
      PortConfig(), GwSpec("statefulset", "1", "a"), GwSpec("static", "2", "a"), GwSpec("statefulset", "2", "a");
    var work := Handle(Well(Quiet));
    var w := BothKinds(ep, key);
    BackToOldKind(ep, key, w);
    var first := Created(key, one);
    var between := Reconciled(ep, cfg, first, Well(Quiet));
    var edited := Next(ep, cfg, between, Revise(two));
    NextIs(ep, cfg, first, key, one, Well(Quiet));
    NextIs(ep, cfg, edited, key, one, Well(Quiet));
    var rest := [Revise(three)] + later;
    RunFirst(ep, cfg, NOTHING, Create(key, one), [work] + ([Revise(two)] + ([work] + rest)));
    RunFirst(ep, cfg, first, work, [Revise(two)] + ([work] + rest));
    RunFirst(ep, cfg, between, Revise(two), [work] + rest);
    RunFirst(ep, cfg, edited, work, rest);
    RunFirst(ep, cfg, w, Revise(three), later);
    RunTwo(ep, cfg, first, work, Revise(two));
    MisledStays(Basic, ep, cfg, Next(ep, cfg, w, Revise(three)), later);
  }

  // ---------- an image and back ----------

  lemma ImageAndBack(ep: Endpoints, key: Key)
    ensures var cfg, first := PortConfig(), Created(key, GwSpec("static", "1", "a"));
            var edited := Next(ep, cfg, Reconciled(ep, cfg, first, Well(Quiet)), Revise(GwSpec("static", "1", "b")));
            var back := Next(ep, cfg, Reconciled(ep, cfg, edited, Well(Quiet)), Revise(GwSpec("static", "1", "a")));
            && Succeeds(cfg, first, Well(Quiet)) && Succeeds(cfg, edited, Well(Quiet))
            && Misled(Full, back) && !SpecOf(back).enableIPSecVpn
  {
    var cfg, a, b := PortConfig(), GwSpec("static", "1", "a"), GwSpec("static", "1", "b");
    var first := Created(key, a);
    Kinds();
    FirstReconcile(ep, key, "static", "1", "1", Quiet);
    var w := Reconciled(ep, cfg, first, Well(Quiet));
    SyncIsOnWire(ep, VpnGw(key, a, Status.NEW_STATUS));
    var edited := Next(ep, cfg, w, Revise(b));
    assert edited.gw == Some(w.gw.value.(spec := b));
    GwSucceeds(edited, "static", "1", "b", Quiet);
    assert SpecFields(b).basics == SpecFields(a).basics && !Shows(Full, DaemonSet, SpecFields(b), SpecFields(a));
    assert KindOf(w.gw.value) == DaemonSet && KindOf(w.gw.value.(spec := b)) == DaemonSet && !a.enableIPSecVpn;
    ShowsItself(Full, DaemonSet, SpecFields(a));
    hide Reconciled, Succeeds, BuiltFrom, SpecFields, PortConfig, Status.IsChanged, GwSpec, KindOf, Shows, Carries,
         Status.Sync, Status.StatusOnWire, NoResidual;
    RevertIff(ep, cfg, w, b, Well(Quiet), Well(Quiet));
  }

  lemma SyncIsOnWire(ep: Endpoints, gw: VpnGw)
    requires Status.StatusOnWire(gw.status) == gw.status
    ensures Status.StatusOnWire(Status.Sync(ep, gw, None).status) == Status.Sync(ep, gw, None).status
  {
  }

  /** An image is changed and, once the workload runs the new one, changed back: the workload keeps the new one. */
  lemma RevertedImageMisleads(ep: Endpoints, key: Key, later: seq<Action>)
    requires Undisturbed(later)
    ensures var a, b, work := GwSpec("static", "1", "a"), GwSpec("static", "1", "b"), Handle(Well(Quiet));
            var w := Next(ep, PortConfig(), NOTHING, Create(key, a));
            && Succeeds(PortConfig(), w, work.a)
            && Succeeds(PortConfig(), Run(ep, PortConfig(), w, [work] + [Revise(b)]), work.a)
            && Misled(Full, Run(ep, PortConfig(), NOTHING,
                 [Create(key, a)] + ([work] + ([Revise(b)] + ([work] + ([Revise(a)] + later))))))
  {
    hide *;
    var cfg, a, b, work := PortConfig(), GwSpec("static", "1", "a"), GwSpec("static", "1", "b"), Handle(Well(Quiet));
    ImageAndBack(ep, key);
    var first := Created(key, a);
    var w := Reconciled(ep, cfg, first, Well(Quiet));
    var edited := Next(ep, cfg, w, Revise(b));
    var after := Reconciled(ep, cfg, edited, Well(Quiet));
    NextIs(ep, cfg, first, key, a, Well(Quiet));
    NextIs(ep, cfg, edited, key, a, Well(Quiet));
    var rest := [Revise(a)] + later;
    RunFirst(ep, cfg, NOTHING, Create(key, a), [work] + ([Revise(b)] + ([work] + rest)));
    RunFirst(ep, cfg, first, work, [Revise(b)] + ([work] + rest));
    RunFirst(ep, cfg, w, Revise(b), [work] + rest);
    RunFirst(ep, cfg, edited, work, rest);
    RunFirst(ep, cfg, after, Revise(a), later);
    RunTwo(ep, cfg, first, work, Revise(b));
    MisledStays(Full, ep, cfg, Next(ep, cfg, after, Revise(a)), later);
  }

  // ---------- a failed write and back ----------

  /** Every call succeeds but the last, which records the status. */
  function Unrecorded(): Answers {
    Well(Quiet).(statusOk := false)
  }

  /** A reconcile of such a gateway with another CPU stores the workload and then fails to record the status. */
  lemma GwFails(w: World, workloadType: string, cpu: string, image: string)
    requires w.gw.Some? && w.gw.value.spec == GwSpec(workloadType, cpu, image) && cpu != "" && image != ""
    requires w.gw.value.status.cpu != cpu
    ensures Builds(PortConfig(), w, Unrecorded()) && !Succeeds(PortConfig(), w, Unrecorded())
  {
    var cfg, r := PortConfig(), RepliesOf(w, Unrecorded());
    GwGate(w, workloadType, cpu, image, Quiet);
    assert RepliesOf(w, Well(Quiet)) == r.(statusOk := true);
    assert Gate(r) == None;
    assert Status.IsChanged(w.gw.value, None);
    GwMustBuild(w, workloadType, cpu, image);
    GwWrites(w.gw.value, Conns(w.gw.value, r));
    if Succeeds(cfg, w, Unrecorded()) {
      SuccessFacts(cfg, w, Unrecorded());
    }
    hide Gate, Succeeds, BuildOf, PortConfig, Conns, PayloadOf, Rereads, Status.Writes, GwSpec, Status.IsChanged;
  }

  lemma GwMustBuild(w: World, workloadType: string, cpu: string, image: string)
    requires w.gw.Some? && w.gw.value.spec == GwSpec(workloadType, cpu, image) && cpu != "" && image != ""
    requires Status.IsChanged(w.gw.value, None)
    ensures var r := RepliesOf(w, Unrecorded());
            BuildOf(PortConfig(), w.gw.value, KeepalivedOf(w.gw.value, r), r.workload).Write?
  {
    GwGate(w, workloadType, cpu, image, Quiet);
    hide Gate, PortsParse, PortConfig, Status.IsChanged, WorkloadFor;
    assert w.gw.value.spec.keepalived != "";
  }

  lemma GwWrites(gw: VpnGw, conns: Status.Connections)
    requires gw.status.cpu != gw.spec.cpu
    ensures Status.Writes(gw, conns)
  {
  }

  /** The gateway has been reconciled, and its CPU is changed. */
  lemma CpuChanged(ep: Endpoints, key: Key) returns (edited: World)
    ensures var cfg, first := PortConfig(), Created(key, GwSpec("static", "1", "a"));
            && Succeeds(cfg, first, Well(Quiet))
            && edited == Next(ep, cfg, Reconciled(ep, cfg, first, Well(Quiet)), Revise(GwSpec("static", "2", "a")))
    ensures edited.gw.Some? && edited.gw.value.spec == GwSpec("static", "2", "a")
    ensures var reverted := edited.gw.value.(spec := GwSpec("static", "1", "a"));
            !Status.IsChanged(reverted, None) && reverted.status.cpu == "1"
  {
    var cfg, one, two := PortConfig(), GwSpec("static", "1", "a"), GwSpec("static", "2", "a");
    FirstReconcile(ep, key, "static", "1", "1", Quiet);
    var w := Reconciled(ep, cfg, Created(key, one), Well(Quiet));
    edited := Next(ep, cfg, w, Revise(two));
    UnchangedFields(w.gw.value);
    hide Reconciled, PortConfig, Succeeds, BuiltFrom, SpecFields, StatusFields, Status.Sync, Status.IsChanged,
         NoResidual, KindOf;
    assert edited.gw == Some(w.gw.value.(spec := two));
    assert edited.gw.value.(spec := one) == w.gw.value;
  }

  lemma CpuIsShown()
    ensures var one, two := GwSpec("static", "1", "a"), GwSpec("static", "2", "a");
            && !Shows(Basic, DaemonSet, SpecFields(two), SpecFields(one)) && !one.enableIPSecVpn
            && forall gw: VpnGw :: gw.spec in {one, two} ==> KindOf(gw) == DaemonSet
  {
    Kinds();
  }

  lemma RevertMisleads(x: Extent, ep: Endpoints, cfg: Config, w: World, a: Answers, spec: VpnGwSpec)
    requires Builds(cfg, w, a) && !Succeeds(cfg, w, a) && a.window.Quiet?
    requires !Status.IsChanged(w.gw.value.(spec := spec), None)
    requires KindOf(w.gw.value.(spec := spec)) == KindOf(w.gw.value)
    requires !Shows(x, KindOf(w.gw.value), SpecFields(w.gw.value.spec), SpecFields(spec))
    ensures var back := Next(ep, cfg, Reconciled(ep, cfg, w, a), Revise(spec));
            Misled(x, back) && SpecOf(back) == spec
  {
    hide Reconciled, Next, Succeeds, Builds, BuiltFrom, SpecFields, Status.IsChanged, KindOf, Shows, Carries;
    RevertAfterFailedBuildIff(x, ep, cfg, w, a, spec, a);
  }

  lemma CpuAndBack(ep: Endpoints, key: Key)
    ensures var cfg, first := PortConfig(), Created(key, GwSpec("static", "1", "a"));
            var edited := Next(ep, cfg, Reconciled(ep, cfg, first, Well(Quiet)), Revise(GwSpec("static", "2", "a")));
            var back := Next(ep, cfg, Reconciled(ep, cfg, edited, Unrecorded()), Revise(GwSpec("static", "1", "a")));
            && Succeeds(cfg, first, Well(Quiet))
            && Builds(cfg, edited, Unrecorded()) && !Succeeds(cfg, edited, Unrecorded())
            && Misled(Basic, back) && !SpecOf(back).enableIPSecVpn
  {
    var cfg, one := PortConfig(), GwSpec("static", "1", "a");
    Kinds();
    CpuIsShown();
    var edited := CpuChanged(ep, key);
    GwFails(edited, "static", "2", "a");
    hide *;
    RevertMisleads(Basic, ep, cfg, edited, Unrecorded(), one);
  }

  /**
    The CPU of a gateway is changed; the workload gets the new one, but the status write fails, and the CPU is
    changed back. The gateway is unchanged and its workload keeps the CPU that was given up.
   */
  lemma FailedWriteMisleads(ep: Endpoints, key: Key, later: seq<Action>)
    requires Undisturbed(later)
    ensures var one, two := GwSpec("static", "1", "a"), GwSpec("static", "2", "a");
            var work, fail := Handle(Well(Quiet)), Handle(Unrecorded());
            var w := Next(ep, PortConfig(), NOTHING, Create(key, one));
            var edited := Run(ep, PortConfig(), w, [work] + [Revise(two)]);
            && Succeeds(PortConfig(), w, work.a)
            && Builds(PortConfig(), edited, fail.a) && !Succeeds(PortConfig(), edited, fail.a)
            && Misled(Basic, Run(ep, PortConfig(), NOTHING,
                 [Create(key, one)] + ([work] + ([Revise(two)] + ([fail] + ([Revise(one)] + later))))))
  {
    hide *;
    var cfg, one, two := PortConfig(), GwSpec("static", "1", "a"), GwSpec("static", "2", "a");
    var work, fail := Handle(Well(Quiet)), Handle(Unrecorded());
    CpuAndBack(ep, key);
    var first := Created(key, one);
    var w := Reconciled(ep, cfg, first, Well(Quiet));
    var edited := Next(ep, cfg, w, Revise(two));
    var after := Reconciled(ep, cfg, edited, Unrecorded());
    NextIs(ep, cfg, first, key, one, Well(Quiet));
    NextIs(ep, cfg, edited, key, one, Unrecorded());
    var rest := [Revise(one)] + later;
    RunFirst(ep, cfg, NOTHING, Create(key, one), [work] + ([Revise(two)] + ([fail] + rest)));
    RunFirst(ep, cfg, first, work, [Revise(two)] + ([fail] + rest));
    RunFirst(ep, cfg, w, Revise(two), [fail] + rest);
    RunFirst(ep, cfg, edited, fail, rest);
    RunFirst(ep, cfg, after, Revise(one), later);
    RunTwo(ep, cfg, first, work, Revise(two));
    MisledStays(Basic, ep, cfg, Next(ep, cfg, after, Revise(one)), later);
  }
}
