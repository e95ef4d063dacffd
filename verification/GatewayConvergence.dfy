/**
  What a reconcile of a gateway makes of its workload and its status, and what an unchanged gateway
  therefore says about its workload.
 */
module GatewayConvergence {
  import opened Api
  import opened GatewayTypes
  import opened GatewayStatus
  import opened GatewayWorkload
  import opened GatewayController
  import opened GatewayReading
  import opened GatewayRuns
  import Admission
  import Keepalived

  /** The workload was built for this gateway under some specification of its kind with these fields. */
  ghost predicate BuiltFrom(x: Extent, cfg: Config, workload: Workload, key: Key, kind: Kind, f: Fields) {
    exists gw: VpnGw, ka: Option<Keepalived.KeepAlived>, kept: map<string, string> ::
      && gw.key == key && KindOf(gw) == kind && HasVpn(gw.spec) && Agrees(x, SpecFields(gw.spec), f)
      && WorkloadFor(cfg, gw, ka, kept).Some?
      && workload == WorkloadOnWire(WorkloadFor(cfg, gw, ka, kept).value)
  }

  /** A workload built from f carries the fields that f shows, and only those. */
  lemma BuiltFromCarries(x: Extent, cfg: Config, workload: Workload, key: Key, kind: Kind, f: Fields, g: Fields)
    requires BuiltFrom(x, cfg, workload, key, kind, f)
    ensures Carries(x, workload, g) <==> Shows(x, kind, f, g)
  {
    hide WorkloadFor, WorkloadOnWire, SpecFields, ShowsBasics, ShowsRest;
    var gw: VpnGw, ka: Option<Keepalived.KeepAlived>, kept: map<string, string> :|
      && gw.key == key && KindOf(gw) == kind && HasVpn(gw.spec) && Agrees(x, SpecFields(gw.spec), f)
      && WorkloadFor(cfg, gw, ka, kept).Some?
      && workload == WorkloadOnWire(WorkloadFor(cfg, gw, ka, kept).value);
    CarriesIff(x, cfg, gw, ka, kept, g);
    ShowsAgrees(x, kind, SpecFields(gw.spec), f, g);
  }

  lemma ShowsAgrees(x: Extent, kind: Kind, e: Fields, f: Fields, g: Fields)
    requires Agrees(x, e, f)
    ensures Shows(x, kind, e, g) <==> Shows(x, kind, f, g)
  {
  }

  lemma BuiltFromAgrees(x: Extent, cfg: Config, workload: Workload, key: Key, kind: Kind, f: Fields, g: Fields)
    requires BuiltFrom(Full, cfg, workload, key, kind, f) && Agrees(x, f, g)
    ensures BuiltFrom(x, cfg, workload, key, kind, g)
  {
    hide WorkloadFor, WorkloadOnWire, SpecFields;
  }

  /** The workload of this kind is there and carries the fields. */
  ghost predicate Tells(x: Extent, w: World, kind: Kind, f: Fields) {
    WorkloadOf(w, kind).Some? && Carries(x, WorkloadOf(w, kind).value, f)
  }

  /** The workload of this kind is there and was built for the key from the fields. */
  ghost predicate Placed(x: Extent, cfg: Config, w: World, key: Key, kind: Kind, f: Fields) {
    WorkloadOf(w, kind).Some? && BuiltFrom(x, cfg, WorkloadOf(w, kind).value, key, kind, f)
  }

  // ---------- one reconcile ----------

  /** The reconcile of a live gateway ends in success. */
  predicate Succeeds(cfg: Config, w: World, a: Answers) {
    w.gw.Some? && Gate(RepliesOf(w, a)) == None && Reconcile(cfg, RepliesOf(w, a)).0 == Done(Success)
  }

  /** The reconcile stores a workload. */
  predicate Builds(cfg: Config, w: World, a: Answers) {
    var r := RepliesOf(w, a);
    w.gw.Some? && Gate(r) == None && !r.workload.Failed? && PlanOf(cfg, r).build.Write? && r.putOk
  }

  /** A reconcile that passes the gate builds a workload when there is none or the gateway has changed. */
  predicate HasToRebuild(w: World)
    requires w.gw.Some?
  {
    IsChanged(w.gw.value, None) || WorkloadOf(w, KindOf(w.gw.value)).None?
  }

  lemma GateNeedsVpn(r: Replies)
    requires r.gw.Found? && Gate(r) == None
    ensures HasVpn(r.gw.value.spec) && r.gw.value.spec.cpu != ""
  {
    assert Admission.FirstBroken(r.gw.value.spec) == None;
    assert !Admission.Breaks(r.gw.value.spec, Admission.NeedsOneVpn);
    assert !Admission.Breaks(r.gw.value.spec, Admission.NeedsCPU);
  }

  /** What a reconcile that stores a workload stores. */
  lemma BuildsFromSpec(ep: Endpoints, cfg: Config, w: World, a: Answers)
    requires Builds(cfg, w, a)
    ensures var gw, r := w.gw.value, RepliesOf(w, a);
            var after := WithBuild(ep, w, r, PlanOf(cfg, r));
            && after.gw == w.gw
            && Placed(Full, cfg, after, gw.key, KindOf(gw), SpecFields(gw.spec))
            && forall kind :: kind != KindOf(gw) ==> WorkloadOf(after, kind) == WorkloadOf(w, kind)
  {
    var gw, r := w.gw.value, RepliesOf(w, a);
    GateNeedsVpn(r);
    var ka := KeepalivedOf(gw, r);
    var kept := if r.workload.Found? then r.workload.value else map[];
    hide SpecFields, Gate, IsChanged, WorkloadOnWire, HasVpn;
    var built := Written(PlanOf(cfg, r).build.call);
    assert WorkloadFor(cfg, gw, ka, kept) == built;
    assert built.value.kind == KindOf(gw);
    hide WorkloadFor, PlanOf;
    assert BuiltFrom(Full, cfg, WorkloadOnWire(built.value), gw.key, KindOf(gw), SpecFields(gw.spec));
  }

  lemma NothingBuilt(ep: Endpoints, cfg: Config, w: World, a: Answers)
    requires w.gw.Some? && !Builds(cfg, w, a)
    ensures var r := RepliesOf(w, a); WithBuild(ep, w, r, PlanOf(cfg, r)) == w
  {
    hide Gate, PlanOf;
  }

  /** What a successful reconcile came by: it read the gateway again, stored what it had to, and nothing failed. */
  lemma SuccessFacts(cfg: Config, w: World, a: Answers)
    requires Succeeds(cfg, w, a)
    ensures var r := RepliesOf(w, a);
            var plan := PlanOf(cfg, r);
            && Rereads(r, plan) && !r.again.Failed?
            && plan.write == StatusWrite(Conns(w.gw.value, r), r.again)
            && (plan.write.Some? ==> r.statusOk)
            && (Builds(cfg, w, a) <==> HasToRebuild(w))
            && r.again == (match Refetched(w.gw.value, a.window) case Some(gw) => Found(gw) case None => NotFound)
  {
    RefreshFails(w.gw.value, RepliesOf(w, a), PlanOf(cfg, RepliesOf(w, a)).text);
    hide Gate, Refresh, StatusWrite, WorkloadFor, PayloadOf, IsChanged, PortsParse;
  }

  lemma RefreshFails(gw: VpnGw, r: Replies, text: Option<string>)
    ensures Refresh(gw, r, text).0 in {None, Some(Error)}
  {
  }

  /**
    What a successful reconcile leaves behind. The gateway is the one it read again, after a round of
    copying; the workload was built from the one it read first, if it had to be built, and is the old one
    otherwise; the workload of the other kind is untouched.
   */
  lemma OnSuccess(ep: Endpoints, cfg: Config, w: World, a: Answers)
    requires Succeeds(cfg, w, a)
    ensures var first, after := w.gw.value, Reconciled(ep, cfg, w, a);
            var again, kind := Refetched(first, a.window), KindOf(first);
            && after.gw == (if again.Some? then Some(Sync(ep, again.value, Conns(first, RepliesOf(w, a)))) else None)
            && (HasToRebuild(w) ==> Placed(Full, cfg, after, first.key, kind, SpecFields(first.spec)))
            && (!HasToRebuild(w) ==> WorkloadOf(after, kind) == WorkloadOf(w, kind))
            && forall other :: other != kind ==> WorkloadOf(after, other) == WorkloadOf(w, other)
  {
    var r := RepliesOf(w, a);
    StepIs(ep, cfg, w, a);
    SuccessFacts(cfg, w, a);
    if HasToRebuild(w) {
      BuildsFromSpec(ep, cfg, w, a);
    } else {
      NothingBuilt(ep, cfg, w, a);
    }
    RecordsRefetched(ep, WithBuild(ep, w, r, PlanOf(cfg, r)), w, r, PlanOf(cfg, r), a.window);
    hide Reconciled, Rereads, WithBuild, PlanOf, BuiltFrom, SpecFields, Succeeds, Builds, Conns, HasToRebuild, Sync,
         StatusWrite, RepliesOf, StoredBy;
  }

  /** The gateway half: interference, and the write of the mirror if there is something to write. */
  lemma RecordsRefetched(ep: Endpoints, put: World, w: World, r: Replies, plan: Plan, window: Window)
    requires w.gw.Some? && put.gw == w.gw && Rereads(r, plan) && WithBuild(ep, w, r, plan) == put
    requires r.gw == Found(w.gw.value)
    requires r.again == (match Refetched(w.gw.value, window) case Some(gw) => Found(gw) case None => NotFound)
    requires plan.write == StatusWrite(Conns(w.gw.value, r), r.again) && (plan.write.Some? ==> r.statusOk)
    ensures var again, after := Refetched(w.gw.value, window), StoredBy(ep, w, r, plan, window);
            && after.gw == (if again.Some? then Some(Sync(ep, again.value, Conns(w.gw.value, r))) else None)
            && after.sts == put.sts && after.ds == put.ds
  {
    hide Rereads, WithBuild, Mirror, Stored, Conns, Gate;
  }

  /** A reconcile that does not succeed leaves the status as it is, and the workloads too unless it stored one. */
  lemma OnFailure(ep: Endpoints, cfg: Config, w: World, a: Answers)
    requires w.gw.Some? && !Succeeds(cfg, w, a)
    ensures var first, after := w.gw.value, Reconciled(ep, cfg, w, a);
            && (after.gw.None? || after.gw == w.gw || after.gw == Refetched(first, a.window))
            && (!Builds(cfg, w, a) ==> after.sts == w.sts && after.ds == w.ds)
            && (Builds(cfg, w, a) ==>
                  Placed(Full, cfg, World(w.gw, after.sts, after.ds), first.key, KindOf(first), SpecFields(first.spec)))
            && (a.window.Quiet? ==> after.gw == w.gw)
            && (forall kind :: WorkloadOf(w, kind).Some? ==> WorkloadOf(after, kind).Some?)
            && (forall other :: other != KindOf(first) ==> WorkloadOf(after, other) == WorkloadOf(w, other))
  {
    var r := RepliesOf(w, a);
    StepIs(ep, cfg, w, a);
    FailureWritesNoStatus(cfg, w, a);
    if Builds(cfg, w, a) {
      BuildsFromSpec(ep, cfg, w, a);
    } else {
      NothingBuilt(ep, cfg, w, a);
    }
    hide Reconciled, Rereads, WithBuild, PlanOf, BuiltFrom, SpecFields, Succeeds, Builds;
  }

  lemma FailureWritesNoStatus(cfg: Config, w: World, a: Answers)
    requires w.gw.Some? && !Succeeds(cfg, w, a)
    ensures var r := RepliesOf(w, a);
            var plan := PlanOf(cfg, r);
            !(Rereads(r, plan) && !r.again.Failed? && plan.write.Some? && r.statusOk)
  {
    hide Gate, Refresh, StatusWrite, BuildOf, PayloadOf;
  }

  // ---------- when a reconcile gets it right ----------

  /**
    After any successful reconcile of a gateway that is still there, whatever edit it met on the way. The
    status records the specification that was read again: its basic fields always, all fields exactly if no
    residual is left. The workload of the kind that this specification asks for carries the fields exactly if,
    when it was rebuilt, the specification that was read first shows them, and otherwise if it did before.
   */
  lemma RoundIff(x: Extent, ep: Endpoints, cfg: Config, w: World, a: Answers)
    requires Succeeds(cfg, w, a) && !a.window.Removed?
    ensures var first, second := w.gw.value, Refetched(w.gw.value, a.window).value;
            var after, kind := Reconciled(ep, cfg, w, a), KindOf(second);
            var f, g := SpecFields(first.spec), SpecFields(second.spec);
            && after.gw.Some? && KindOf(after.gw.value) == kind && SpecFields(after.gw.value.spec) == g
            && StatusFields(after.gw.value.status).basics == g.basics
            && (StatusFields(after.gw.value.status) == g <==> NoResidual(second))
            && (Tells(x, after, kind, g) <==>
                  if kind == KindOf(first) && HasToRebuild(w) then Shows(x, kind, f, g) else Tells(x, w, kind, g))
  {
    var first, second := w.gw.value, Refetched(w.gw.value, a.window).value;
    var conns := Conns(first, RepliesOf(w, a));
    OnSuccess(ep, cfg, w, a);
    RecordsIff(ep, second, conns);
    var after, f, g := Reconciled(ep, cfg, w, a), SpecFields(first.spec), SpecFields(second.spec);
    if KindOf(second) == KindOf(first) && HasToRebuild(w) {
      BuiltFromAgrees(x, cfg, WorkloadOf(after, KindOf(first)).value, first.key, KindOf(first), f, f);
      BuiltFromCarries(x, cfg, WorkloadOf(after, KindOf(first)).value, first.key, KindOf(first), f, g);
    }
    hide Reconciled, BuiltFrom, Carries, Shows, SpecFields, StatusFields, NoResidual, HasToRebuild, Sync, Succeeds,
         Conns;
  }

  /**
    After a successful reconcile that nobody disturbed, the workload was built from the specification exactly if
    the gateway had changed, or had no workload of its kind, or had one that was built from these fields anyway.
   */
  lemma PlacedIff(x: Extent, ep: Endpoints, cfg: Config, w: World, a: Answers)
    requires Succeeds(cfg, w, a) && a.window.Quiet?
    ensures var gw, f := w.gw.value, SpecFields(w.gw.value.spec);
            Placed(x, cfg, Reconciled(ep, cfg, w, a), gw.key, KindOf(gw), f) <==>
              || IsChanged(gw, None)
              || WorkloadOf(w, KindOf(gw)).None?
              || Placed(x, cfg, w, gw.key, KindOf(gw), f)
  {
    var gw, f := w.gw.value, SpecFields(w.gw.value.spec);
    OnSuccess(ep, cfg, w, a);
    if HasToRebuild(w) {
      BuiltFromAgrees(x, cfg, WorkloadOf(Reconciled(ep, cfg, w, a), KindOf(gw)).value, gw.key, KindOf(gw), f, f);
    }
    hide Reconciled, BuiltFrom, IsChanged, SpecFields, Succeeds;
  }

  // ---------- runs ----------

  datatype Action =
    | Create(key: Key, spec: VpnGwSpec)
    | Revise(spec: VpnGwSpec)
    | Remove
    | Collect                // the workloads of a removed gateway
    | Lose(kind: Kind)       // somebody deletes a workload
    | Handle(a: Answers)

  function Next(ep: Endpoints, cfg: Config, w: World, act: Action): World {
    match act
    case Create(key, spec) => if w.gw.Some? then w else w.(gw := Some(VpnGw(key, spec, NEW_STATUS)))
    case Revise(spec) => Interfere(w, Edited(spec))
    case Remove => w.(gw := None)
    case Collect => if w.gw.Some? then w else World(None, None, None)
    case Lose(kind) => if kind.StatefulSet? then w.(sts := None) else w.(ds := None)
    case Handle(a) => Reconciled(ep, cfg, w, a)
  }

  function Run(ep: Endpoints, cfg: Config, w: World, acts: seq<Action>): World
    decreases |acts|
  {
    if acts == [] then w else Run(ep, cfg, Next(ep, cfg, w, acts[0]), acts[1..])
  }

  /** An edit asks for the same kind of workload, or for one of which there is none left over. */
  predicate FindsNoOther(w: World, spec: VpnGwSpec) {
    w.gw.Some? ==>
      var kind := KindOf(w.gw.value.(spec := spec));
      kind == KindOf(w.gw.value) || WorkloadOf(w, kind).None?
  }

  /**
    The fields of the last build whose reconcile did not succeed, until one succeeds. Such a build is made up for by
    the next success, which finds the gateway changed, unless an edit made it look unchanged before.
   */
  function NextOwed(cfg: Config, w: World, owed: Option<Fields>, act: Action): Option<Fields> {
    match act
    case Handle(a) =>
      if Succeeds(cfg, w, a) then None
      else if Builds(cfg, w, a) then Some(SpecFields(w.gw.value.spec))
      else owed
    case Create(_, _) => if w.gw.Some? then owed else None
    case Revise(_) => owed
    case Remove => None
    case Collect => owed
    case Lose(_) => owed
  }

  /**
    Once there is a status, an edit finds no workload of another kind, and while a failed build is outstanding it
    leaves the gateway changed or asks for what was built.
   */
  predicate EditIsFine(x: Extent, w: World, owed: Option<Fields>, spec: VpnGwSpec) {
    w.gw.Some? && w.gw.value.status.cpu != "" ==>
      var gw := w.gw.value.(spec := spec);
      && FindsNoOther(w, spec)
      && (owed.Some? && KindOf(gw) == KindOf(w.gw.value) ==>
            IsChanged(gw, None) || Agrees(x, owed.value, SpecFields(spec)))
  }

  /**
    Edits are fine, also those that meet a reconcile which then fails. When a reconcile succeeds, the gateway is
    gone or has the fields that it had when it was read first; a claim about all fields needs besides that no residual
    is left where a workload is built. Reconciles may fail wherever they like.
   */
  predicate Clean(x: Extent, cfg: Config, w: World, owed: Option<Fields>, act: Action) {
    match act
    case Revise(spec) => EditIsFine(x, w, owed, spec)
    case Handle(a) =>
      if !Succeeds(cfg, w, a) then a.window.Edited? ==> EditIsFine(x, w, NextOwed(cfg, w, owed, act), a.window.spec)
      else
        a.window.Removed? ||
        var second := Refetched(w.gw.value, a.window).value;
        && FindsNoOther(w, second.spec)
        && Agrees(x, SpecFields(w.gw.value.spec), SpecFields(second.spec))
        && (x.Full? && Builds(cfg, w, a) ==> NoResidual(second))
    case Create(_, _) => true
    case Remove => true
    case Collect => true
    case Lose(_) => true
  }

  predicate CleanRun(x: Extent, ep: Endpoints, cfg: Config, w: World, owed: Option<Fields>, acts: seq<Action>)
    decreases |acts|
  {
    acts == [] ||
    (Clean(x, cfg, w, owed, acts[0]) &&
     CleanRun(x, ep, cfg, Next(ep, cfg, w, acts[0]), NextOwed(cfg, w, owed, acts[0]), acts[1..]))
  }

  /** The status is that of a new object, or the workload, if there is one, was built from what the status says. */
  ghost predicate Kept(x: Extent, cfg: Config, w: World) {
    w.gw.Some? ==>
      var gw := w.gw.value;
      || gw.status.cpu == ""
      || WorkloadOf(w, KindOf(gw)).None?
      || Placed(x, cfg, w, gw.key, KindOf(gw), StatusFields(gw.status))
  }

  /** The workload was built by a reconcile that failed, and the gateway is changed or asks for what was built. */
  ghost predicate Owing(x: Extent, cfg: Config, w: World, owed: Option<Fields>) {
    && owed.Some? && w.gw.Some?
    && var gw := w.gw.value;
       && Placed(x, cfg, w, gw.key, KindOf(gw), owed.value)
       && (IsChanged(gw, None) || Agrees(x, owed.value, SpecFields(gw.spec)))
  }

  ghost predicate KeptOrOwing(x: Extent, cfg: Config, w: World, owed: Option<Fields>) {
    Kept(x, cfg, w) || Owing(x, cfg, w, owed)
  }

  /** Of an unchanged gateway the workload is what the status says, whether or not its last build failed. */
  lemma UnchangedIsKept(x: Extent, cfg: Config, w: World, owed: Option<Fields>)
    requires KeptOrOwing(x, cfg, w, owed) && w.gw.Some? && !IsChanged(w.gw.value, None)
    ensures Kept(x, cfg, w)
  {
    UnchangedFields(w.gw.value);
    if Owing(x, cfg, w, owed) {
      var gw := w.gw.value;
      PlacedAgrees(x, cfg, WorkloadOf(w, KindOf(gw)).value, gw.key, KindOf(gw), owed.value, StatusFields(gw.status));
    }
    hide IsChanged, BuiltFrom, SpecFields, StatusFields;
  }

  lemma SuccessKeeps(x: Extent, ep: Endpoints, cfg: Config, w: World, owed: Option<Fields>, a: Answers)
    requires w.gw.Some? && (HasToRebuild(w) || Kept(x, cfg, w))
    requires Clean(x, cfg, w, owed, Handle(a)) && Succeeds(cfg, w, a) && !a.window.Removed?
    ensures Kept(x, cfg, Reconciled(ep, cfg, w, a))
  {
    var first, second := w.gw.value, Refetched(w.gw.value, a.window).value;
    var after, kind := Reconciled(ep, cfg, w, a), KindOf(w.gw.value);
    OnSuccess(ep, cfg, w, a);
    SuccessFacts(cfg, w, a);
    GateNeedsVpn(RepliesOf(w, a));
    RecordsIff(ep, second, Conns(first, RepliesOf(w, a)));
    if KindOf(second) == kind {
      var recorded := StatusFields(after.gw.value.status);
      if HasToRebuild(w) {
        RebuiltAgrees(x, first, second, recorded);
        BuiltFromAgrees(x, cfg, WorkloadOf(after, kind).value, first.key, kind, SpecFields(first.spec), recorded);
      } else {
        UnchangedFields(first);
        StillAgrees(x, first, second, recorded);
        PlacedAgrees(x, cfg, WorkloadOf(w, kind).value, first.key, kind, StatusFields(first.status), recorded);
      }
    }
    hide Reconciled, BuiltFrom, SpecFields, StatusFields, Sync, Succeeds, Builds, Gate, IsChanged, NoResidual,
         HasToRebuild, Rereads, PlanOf, Conns;
  }

  lemma RebuiltAgrees(x: Extent, first: VpnGw, second: VpnGw, recorded: Fields)
    requires Agrees(x, SpecFields(first.spec), SpecFields(second.spec))
    requires recorded.basics == SpecFields(second.spec).basics
    requires recorded == SpecFields(second.spec) <==> NoResidual(second)
    requires x.Full? ==> NoResidual(second)
    ensures Agrees(x, SpecFields(first.spec), recorded)
  {
    hide SpecFields, NoResidual;
  }

  lemma StillAgrees(x: Extent, first: VpnGw, second: VpnGw, recorded: Fields)
    requires Agrees(x, SpecFields(first.spec), SpecFields(second.spec)) && second.status == first.status
    requires StatusFields(first.status) == SpecFields(first.spec)
    requires recorded.basics == SpecFields(second.spec).basics
    requires recorded == SpecFields(second.spec) <==> NoResidual(second)
    ensures Agrees(x, StatusFields(first.status), recorded)
  {
    assert x.Full? ==> NoResidual(second);
    hide NoResidual;
  }

  lemma PlacedAgrees(x: Extent, cfg: Config, workload: Workload, key: Key, kind: Kind, f: Fields, g: Fields)
    requires BuiltFrom(x, cfg, workload, key, kind, f) && Agrees(x, f, g)
    ensures BuiltFrom(x, cfg, workload, key, kind, g)
  {
    hide WorkloadFor, WorkloadOnWire, SpecFields;
  }

  lemma ReviseKeeps(x: Extent, cfg: Config, w: World, owed: Option<Fields>, spec: VpnGwSpec)
    requires KeptOrOwing(x, cfg, w, owed) && EditIsFine(x, w, owed, spec)
    ensures KeptOrOwing(x, cfg, Interfere(w, Edited(spec)), owed)
  {
    hide IsChanged, BuiltFrom, SpecFields, StatusFields;
  }

  /** A build whose reconcile fails is owed. */
  lemma FailureOwes(x: Extent, ep: Endpoints, cfg: Config, w: World, a: Answers)
    requires w.gw.Some? && Builds(cfg, w, a) && !Succeeds(cfg, w, a)
    requires var owed := Some(SpecFields(w.gw.value.spec)); a.window.Edited? ==> EditIsFine(x, w, owed, a.window.spec)
    ensures KeptOrOwing(x, cfg, Reconciled(ep, cfg, w, a), Some(SpecFields(w.gw.value.spec)))
  {
    var first, after := w.gw.value, Reconciled(ep, cfg, w, a);
    var owed := Some(SpecFields(first.spec));
    OnFailure(ep, cfg, w, a);
    var built := World(w.gw, after.sts, after.ds);
    BuiltFromAgrees(x, cfg, WorkloadOf(built, KindOf(first)).value, first.key, KindOf(first), owed.value, owed.value);
    assert Owing(x, cfg, built, owed) by { hide BuiltFrom, SpecFields, IsChanged; }
    if after.gw != w.gw && after.gw.Some? {
      hide Reconciled, BuiltFrom, SpecFields, StatusFields, IsChanged, Succeeds, Builds;
      assert EditIsFine(x, built, owed, a.window.spec);
      ReviseKeeps(x, cfg, built, owed, a.window.spec);
    }
  }

  lemma HandleKeeps(x: Extent, ep: Endpoints, cfg: Config, w: World, owed: Option<Fields>, a: Answers)
    requires KeptOrOwing(x, cfg, w, owed) && Clean(x, cfg, w, owed, Handle(a))
    ensures KeptOrOwing(x, cfg, Reconciled(ep, cfg, w, a), NextOwed(cfg, w, owed, Handle(a)))
  {
    if w.gw.None? {
      StepIs(ep, cfg, w, a);
    } else if Succeeds(cfg, w, a) {
      if a.window.Removed? {
        OnSuccess(ep, cfg, w, a);
      } else {
        if !HasToRebuild(w) {
          UnchangedIsKept(x, cfg, w, owed);
        }
        SuccessKeeps(x, ep, cfg, w, owed, a);
      }
    } else if Builds(cfg, w, a) {
      FailureOwes(x, ep, cfg, w, a);
    } else {
      OnFailure(ep, cfg, w, a);
      if a.window.Edited? {
        ReviseKeeps(x, cfg, w, owed, a.window.spec);
      }
      hide Reconciled, BuiltFrom, StatusFields, SpecFields, Succeeds, Builds, IsChanged;
    }
  }

  /** What is owed at the end of a run. */
  function OwedAfter(ep: Endpoints, cfg: Config, w: World, owed: Option<Fields>, acts: seq<Action>): Option<Fields>
    decreases |acts|
  {
    if acts == [] then owed
    else OwedAfter(ep, cfg, Next(ep, cfg, w, acts[0]), NextOwed(cfg, w, owed, acts[0]), acts[1..])
  }

  lemma {:induction false} RunKeeps(
    x: Extent, ep: Endpoints, cfg: Config, w: World, owed: Option<Fields>, acts: seq<Action>)
    requires KeptOrOwing(x, cfg, w, owed) && CleanRun(x, ep, cfg, w, owed, acts)
    ensures KeptOrOwing(x, cfg, Run(ep, cfg, w, acts), OwedAfter(ep, cfg, w, owed, acts))
    decreases |acts|
  {
    if acts != [] {
      NextKeeps(x, ep, cfg, w, owed, acts[0]);
      hide KeptOrOwing, Next, NextOwed, Clean;
      RunKeeps(x, ep, cfg, Next(ep, cfg, w, acts[0]), NextOwed(cfg, w, owed, acts[0]), acts[1..]);
    }
  }

  lemma NextKeeps(x: Extent, ep: Endpoints, cfg: Config, w: World, owed: Option<Fields>, act: Action)
    requires KeptOrOwing(x, cfg, w, owed) && Clean(x, cfg, w, owed, act)
    ensures KeptOrOwing(x, cfg, Next(ep, cfg, w, act), NextOwed(cfg, w, owed, act))
  {
    if act.Handle? {
      HandleKeeps(x, ep, cfg, w, owed, act.a);
    } else if act.Revise? {
      ReviseKeeps(x, cfg, w, owed, act.spec);
    }
    hide BuiltFrom, Reconciled, StatusFields, Succeeds, Builds, SpecFields, NoResidual, IsChanged;
  }

  // ---------- what being unchanged promises ----------

  const NOTHING := World(None, None, None)

  /** The action takes no workload away and asks for no other kind. */
  predicate LosesNothing(w: World, act: Action) {
    match act
    case Lose(_) => false
    case Revise(spec) => w.gw.Some? ==> KindOf(w.gw.value.(spec := spec)) == KindOf(w.gw.value)
    case Handle(a) =>
      w.gw.Some? && a.window.Edited? ==> KindOf(w.gw.value.(spec := a.window.spec)) == KindOf(w.gw.value)
    case Create(_, _) => true
    case Remove => true
    case Collect => true
  }

  predicate LosslessRun(ep: Endpoints, cfg: Config, w: World, acts: seq<Action>)
    decreases |acts|
  {
    acts == [] || (LosesNothing(w, acts[0]) && LosslessRun(ep, cfg, Next(ep, cfg, w, acts[0]), acts[1..]))
  }

  ghost predicate Present(w: World) {
    w.gw.Some? ==> w.gw.value.status.cpu == "" || WorkloadOf(w, KindOf(w.gw.value)).Some?
  }

  lemma NextIsPresent(ep: Endpoints, cfg: Config, w: World, act: Action)
    requires Present(w) && LosesNothing(w, act)
    ensures Present(Next(ep, cfg, w, act))
  {
    if act.Handle? {
      StepIs(ep, cfg, w, act.a);
      if w.gw.Some? {
        if Succeeds(cfg, w, act.a) {
          OnSuccess(ep, cfg, w, act.a);
          if !act.a.window.Removed? {
            RecordsIff(ep, Refetched(w.gw.value, act.a.window).value, Conns(w.gw.value, RepliesOf(w, act.a)));
          }
        } else {
          OnFailure(ep, cfg, w, act.a);
        }
      }
    }
    hide Reconciled, BuiltFrom, StatusFields, SpecFields, Succeeds, Builds, Sync, Conns, NoResidual, StoredBy;
  }

  lemma {:induction false} RunIsPresent(ep: Endpoints, cfg: Config, w: World, acts: seq<Action>)
    requires Present(w) && LosslessRun(ep, cfg, w, acts)
    ensures Present(Run(ep, cfg, w, acts))
    decreases |acts|
  {
    if acts != [] {
      NextIsPresent(ep, cfg, w, acts[0]);
      hide Present, Next, LosesNothing;
      RunIsPresent(ep, cfg, Next(ep, cfg, w, acts[0]), acts[1..]);
    }
  }

  /**
    On every clean run, under either endpoint semantics: the workload of an unchanged gateway, unless it is
    missing, was built from exactly the gateway's present fields and says so itself. It is not missing
    if nothing was lost.
   */
  lemma UnchangedMeansPlaced(x: Extent, ep: Endpoints, cfg: Config, acts: seq<Action>)
    requires CleanRun(x, ep, cfg, NOTHING, None, acts)
    requires var w := Run(ep, cfg, NOTHING, acts);
             w.gw.Some? && w.gw.value.spec.cpu != "" && !IsChanged(w.gw.value, None)
    ensures var w := Run(ep, cfg, NOTHING, acts);
            var gw := w.gw.value;
            var kind, f := KindOf(gw), SpecFields(gw.spec);
            && (WorkloadOf(w, kind).Some? ==> Placed(x, cfg, w, gw.key, kind, f) && Tells(x, w, kind, f))
            && (LosslessRun(ep, cfg, NOTHING, acts) ==> WorkloadOf(w, kind).Some?)
  {
    var w := Run(ep, cfg, NOTHING, acts);
    var gw := w.gw.value;
    var kind, f := KindOf(gw), SpecFields(gw.spec);
    RunKeeps(x, ep, cfg, NOTHING, None, acts);
    UnchangedIsKept(x, cfg, w, OwedAfter(ep, cfg, NOTHING, None, acts));
    if LosslessRun(ep, cfg, NOTHING, acts) {
      RunIsPresent(ep, cfg, NOTHING, acts);
    }
    UnchangedFields(gw);
    if WorkloadOf(w, kind).Some? {
      BuiltFromCarries(x, cfg, WorkloadOf(w, kind).value, gw.key, kind, f, f);
      ShowsItself(x, kind, f);
    }
    hide Run, CleanRun, LosslessRun, IsChanged, Carries, Shows, BuiltFrom, SpecFields, StatusFields;
  }

  lemma ShowsItself(x: Extent, kind: Kind, f: Fields)
    ensures Shows(x, kind, f, f)
  {
  }

  // ---------- what it does not promise ----------

  lemma NothingToBuild(cfg: Config, w: World, a: Answers)
    requires w.gw.Some? && !HasToRebuild(w)
    ensures !Builds(cfg, w, a)
  {
    hide IsChanged, Gate;
  }

  /**
    An unchanged gateway that has a workload keeps it as it is, whatever a reconcile is told, its KeepAlived
    included.
   */
  lemma UnchangedKeepsWorkload(ep: Endpoints, cfg: Config, w: World, a: Answers)
    requires w.gw.Some? && !HasToRebuild(w)
    ensures Reconciled(ep, cfg, w, a).sts == w.sts && Reconciled(ep, cfg, w, a).ds == w.ds
  {
    NothingToBuild(cfg, w, a);
    if Succeeds(cfg, w, a) {
      OnSuccess(ep, cfg, w, a);
      assert WorkloadOf(w, StatefulSet) == WorkloadOf(Reconciled(ep, cfg, w, a), StatefulSet);
      assert WorkloadOf(w, DaemonSet) == WorkloadOf(Reconciled(ep, cfg, w, a), DaemonSet);
    } else {
      OnFailure(ep, cfg, w, a);
    }
    hide Reconciled, Succeeds, Builds, HasToRebuild, BuiltFrom;
  }

  /** A reconcile never touches the workload of the other kind. */
  lemma OtherKindIsLeftBehind(ep: Endpoints, cfg: Config, w: World, a: Answers, kind: Kind)
    requires w.gw.Some? && kind != KindOf(w.gw.value)
    ensures WorkloadOf(Reconciled(ep, cfg, w, a), kind) == WorkloadOf(w, kind)
  {
    if Succeeds(cfg, w, a) {
      OnSuccess(ep, cfg, w, a);
    } else {
      OnFailure(ep, cfg, w, a);
    }
    hide Reconciled, Succeeds, Builds, HasToRebuild, BuiltFrom;
  }

  /** What the change test reads of a specification. */
  datatype Watched = Watched(
    cpu: string,
    memory: string,
    qosBandwidth: string,
    replicas: int,
    selector: Option<seq<string>>,
    tolerations: Option<seq<Toleration>>,
    affinity: Affinity,
    enableSslVpn: bool,
    sslVpnCipher: string,
    sslVpnProto: string,
    sslVpnSubnetCidr: string,
    sslVpnImage: string,
    enableIPSecVpn: bool,
    ipsecVpnImage: string,
    ipsecConnections: Option<seq<string>>)

  function Watch(s: VpnGwSpec): Watched {
    Watched(s.cpu, s.memory, s.qosBandwidth, s.replicas, s.selector, s.tolerations, s.affinity, s.enableSslVpn,
            s.sslVpnCipher, s.sslVpnProto, s.sslVpnSubnetCidr, s.sslVpnImage, s.enableIPSecVpn, s.ipsecVpnImage,
            s.ipsecConnections)
  }

  /** Of an unchanged gateway, the edits that keep it so: no watched field, and no first KeepAlived. */
  lemma StaysUnchangedIff(gw: VpnGw, spec: VpnGwSpec)
    requires !IsChanged(gw, None)
    ensures !IsChanged(gw.(spec := spec), None) <==>
            Watch(spec) == Watch(gw.spec) && (gw.status.keepalived == "" ==> spec.keepalived == "")
  {
  }

  /**
    An edit of secrets, of the SSL authentication, of the switch between pre-shared key and certificate, of the
    default key, of the KeepAlived once there is one, or of the type within its kind never reaches the workload.
   */
  lemma UnwatchedEditIsIgnored(ep: Endpoints, cfg: Config, w: World, spec: VpnGwSpec, a: Answers)
    requires w.gw.Some? && !HasToRebuild(w) && KindOf(w.gw.value.(spec := spec)) == KindOf(w.gw.value)
    requires Watch(spec) == Watch(w.gw.value.spec) && (w.gw.value.status.keepalived == "" ==> spec.keepalived == "")
    ensures var after := Reconciled(ep, cfg, Next(ep, cfg, w, Revise(spec)), a); after.sts == w.sts && after.ds == w.ds
  {
    StaysUnchangedIff(w.gw.value, spec);
    hide IsChanged, Reconciled, Watch;
    UnchangedKeepsWorkload(ep, cfg, Next(ep, cfg, w, Revise(spec)), a);
  }

  predicate Undisturbed(acts: seq<Action>) {
    forall act :: act in acts ==> act.Handle? && act.a.window.Quiet?
  }

  lemma UnchangedStep(ep: Endpoints, cfg: Config, w: World, a: Answers)
    requires w.gw.Some? && !HasToRebuild(w) && !w.gw.value.spec.enableIPSecVpn && a.window.Quiet?
    ensures Reconciled(ep, cfg, w, a) == w
  {
    UnchangedKeepsWorkload(ep, cfg, w, a);
    if Succeeds(cfg, w, a) {
      OnSuccess(ep, cfg, w, a);
      assert Sync(ep, w.gw.value, None) == w.gw.value;
      assert Conns(w.gw.value, RepliesOf(w, a)) == None;
    } else {
      OnFailure(ep, cfg, w, a);
    }
    hide Reconciled, Succeeds, Builds, HasToRebuild, BuiltFrom, Sync, Conns;
  }

  /** Without IPsec, undisturbed reconciles of an unchanged gateway that has a workload change nothing at all. */
  lemma {:induction false} UnchangedIsInert(ep: Endpoints, cfg: Config, w: World, acts: seq<Action>)
    requires w.gw.Some? && !HasToRebuild(w) && !w.gw.value.spec.enableIPSecVpn && Undisturbed(acts)
    ensures Run(ep, cfg, w, acts) == w
    decreases |acts|
  {
    if acts != [] {
      assert acts[0] in acts;
      UnchangedStep(ep, cfg, w, acts[0].a);
      hide HasToRebuild, Reconciled;
      UnchangedIsInert(ep, cfg, w, acts[1..]);
    }
  }

  /** What changing fields that are not always copied does to the status: nothing. */
  lemma EditIsNotCopied(ep: Endpoints, gw: VpnGw, spec: VpnGwSpec, conns: Connections)
    requires !IsChanged(gw, None) && StatusOnWire(gw.status) == gw.status
    requires SpecFields(spec).basics == SpecFields(gw.spec).basics
    ensures var edited := gw.(spec := spec);
            && !IsChanged(Sync(ep, edited, conns).(spec := gw.spec), None)
            && (NoResidual(edited) <==> SpecFields(spec) == SpecFields(gw.spec))
            && (SpecFields(spec) != SpecFields(gw.spec) ==> IsChanged(edited, None))
  {
    hide AffinityOnWire;
  }

  /**
    Of an unchanged gateway, an edit of cipher, protocol, subnet or images alone, one undisturbed successful
    reconcile, and an edit back. No residual is left by the reconcile exactly if these fields did not change. If
    they did, the gateway counts as unchanged again and keeps the workload that was built in between, which
    carries the fields exactly if it shows no difference.
   */
  lemma RevertIff(ep: Endpoints, cfg: Config, w: World, spec: VpnGwSpec, a: Answers, later: Answers)
    requires w.gw.Some? && !IsChanged(w.gw.value, None) && StatusOnWire(w.gw.value.status) == w.gw.value.status
    requires KindOf(w.gw.value.(spec := spec)) == KindOf(w.gw.value)
    requires SpecFields(spec).basics == SpecFields(w.gw.value.spec).basics
    requires SpecFields(spec) != SpecFields(w.gw.value.spec)
    requires a.window.Quiet? && Succeeds(cfg, Next(ep, cfg, w, Revise(spec)), a)
    ensures var gw, edited := w.gw.value, Next(ep, cfg, w, Revise(spec));
            var reverted := Next(ep, cfg, Reconciled(ep, cfg, edited, a), Revise(gw.spec));
            var kind, f, g := KindOf(gw), SpecFields(spec), SpecFields(gw.spec);
            && !NoResidual(edited.gw.value)
            && reverted.gw.Some? && reverted.gw.value.spec == gw.spec && !IsChanged(reverted.gw.value, None)
            && Placed(Full, cfg, reverted, gw.key, kind, f)
            && (Tells(Full, reverted, kind, g) <==> Shows(Full, kind, f, g))
            && WorkloadOf(Reconciled(ep, cfg, reverted, later), kind) == WorkloadOf(reverted, kind)
  {
    var gw, edited := w.gw.value, Next(ep, cfg, w, Revise(spec));
    var conns := Conns(edited.gw.value, RepliesOf(edited, a));
    EditIsNotCopied(ep, gw, spec, conns);
    RecordsIff(ep, edited.gw.value, conns);
    OnSuccess(ep, cfg, edited, a);
    var reverted := Next(ep, cfg, Reconciled(ep, cfg, edited, a), Revise(gw.spec));
    BuiltFromCarries(Full, cfg, WorkloadOf(reverted, KindOf(gw)).value, gw.key, KindOf(gw), SpecFields(spec),
                     SpecFields(gw.spec));
    hide Reconciled, Succeeds, BuiltFrom, Carries, Shows, SpecFields, StatusFields, IsChanged, Sync, Conns, NoResidual,
         StatusOnWire;
    UnchangedKeepsWorkload(ep, cfg, reverted, later);
  }

  /**
    A build whose reconcile fails before the status is recorded, and then an edit that makes the gateway look
    unchanged, back to what the status shows. The gateway keeps what was built, which carries its fields exactly if it
    shows them; after a change of kind, the workload that was there already decides. No reconcile changes it from then
    on.
   */
  lemma RevertAfterFailedBuildIff(
    x: Extent, ep: Endpoints, cfg: Config, w: World, a: Answers, spec: VpnGwSpec, later: Answers)
    requires Builds(cfg, w, a) && !Succeeds(cfg, w, a) && a.window.Quiet?
    requires !IsChanged(w.gw.value.(spec := spec), None)
    ensures var gw, back := w.gw.value, Next(ep, cfg, Reconciled(ep, cfg, w, a), Revise(spec));
            var kind := KindOf(gw.(spec := spec));
            && back.gw == Some(gw.(spec := spec)) && !IsChanged(back.gw.value, None)
            && (kind == KindOf(gw) ==> Placed(Full, cfg, back, gw.key, kind, SpecFields(gw.spec)))
            && (Tells(x, back, kind, SpecFields(spec)) <==>
                  if kind == KindOf(gw) then Shows(x, kind, SpecFields(gw.spec), SpecFields(spec))
                  else Tells(x, w, kind, SpecFields(spec)))
            && (WorkloadOf(back, kind).Some? ==>
                  WorkloadOf(Reconciled(ep, cfg, back, later), kind) == WorkloadOf(back, kind))
  {
    var gw, after := w.gw.value, Reconciled(ep, cfg, w, a);
    OnFailure(ep, cfg, w, a);
    var back := Next(ep, cfg, after, Revise(spec));
    var kind, f := KindOf(gw.(spec := spec)), SpecFields(gw.spec);
    if kind == KindOf(gw) {
      var built := WorkloadOf(back, kind).value;
      BuiltFromAgrees(x, cfg, built, gw.key, kind, f, f);
      BuiltFromCarries(x, cfg, built, gw.key, kind, f, SpecFields(spec));
    }
    hide Reconciled, Succeeds, Builds, BuiltFrom, Carries, Shows, SpecFields, IsChanged;
    if WorkloadOf(back, kind).Some? {
      UnchangedKeepsWorkload(ep, cfg, back, later);
    }
  }

  // ---------- stores that refuse to relabel ----------

  /**
    The labels of a workload are also its selector, which an API server does not let an update change: an update
    with other labels is refused.
   */
  predicate RefusesRelabelling(cfg: Config, w: World, a: Answers) {
    w.gw.Some? ==>
      var build, stored := PlanOf(cfg, RepliesOf(w, a)).build, WorkloadOf(w, KindOf(w.gw.value));
      && build.Write? && build.call.UpdateWorkload? && stored.Some?
      && stored.value.labels != build.call.workload.labels
      ==> !a.putOk
  }

  lemma BuiltHasLabels(cfg: Config, w: World, a: Answers)
    requires w.gw.Some? && PlanOf(cfg, RepliesOf(w, a)).build.Write?
    ensures var build := PlanOf(cfg, RepliesOf(w, a)).build;
            Written(build.call).Some? && Written(build.call).value.labels == Labels(w.gw.value)
  {
    hide IsChanged, Labels, Annotations, Containers, Volumes, PortsParse, StatusWrite, PayloadOf;
  }

  /** A changed gateway with a workload of its kind never has nothing to build, nor a workload to create. */
  lemma HasToUpdate(cfg: Config, w: World, a: Answers)
    requires w.gw.Some? && IsChanged(w.gw.value, None) && WorkloadOf(w, KindOf(w.gw.value)).Some? && a.getOk
    ensures var build := PlanOf(cfg, RepliesOf(w, a)).build;
            !build.Nothing? && (build.Write? ==> build.call.UpdateWorkload?)
  {
    hide IsChanged, WorkloadFor, PortsParse, StatusWrite, PayloadOf;
  }

  /** A changed gateway whose workload has other labels than it asks for gets nowhere. */
  lemma RelabellingStep(ep: Endpoints, cfg: Config, w: World, a: Answers)
    requires w.gw.Some? && IsChanged(w.gw.value, None)
    requires WorkloadOf(w, KindOf(w.gw.value)).Some?
    requires WorkloadOf(w, KindOf(w.gw.value)).value.labels != Labels(w.gw.value)
    requires RefusesRelabelling(cfg, w, a)
    ensures Reconciled(ep, cfg, w, a) == w && !Succeeds(cfg, w, a)
  {
    StepIs(ep, cfg, w, a);
    if a.getOk {
      HasToUpdate(cfg, w, a);
    }
    if PlanOf(cfg, RepliesOf(w, a)).build.Write? {
      BuiltHasLabels(cfg, w, a);
    }
    if Succeeds(cfg, w, a) {
      SuccessFacts(cfg, w, a);
    }
    hide IsChanged, Gate, Refresh, Labels, PlanOf, StatusWrite, Reconciled, Succeeds, HasToRebuild, Builds, Conns;
  }

  predicate SameSwitches(b: Basics, c: Basics) {
    b.enableSslVpn == c.enableSslVpn && b.enableIPSecVpn == c.enableIPSecVpn
  }

  /** A workload has the labels of a gateway exactly if it was built for the same switches. */
  lemma LabelsIff(x: Extent, cfg: Config, w: World, kind: Kind, f: Fields, gw: VpnGw)
    requires Placed(x, cfg, w, gw.key, kind, f)
    ensures WorkloadOf(w, kind).value.labels == Labels(gw) <==> SameSwitches(f.basics, SpecFields(gw.spec).basics)
  {
    var built: VpnGw, ka: Option<Keepalived.KeepAlived>, kept: map<string, string> :|
      && built.key == gw.key && KindOf(built) == kind && HasVpn(built.spec) && Agrees(x, SpecFields(built.spec), f)
      && WorkloadFor(cfg, built, ka, kept).Some?
      && WorkloadOf(w, kind).value == WorkloadOnWire(WorkloadFor(cfg, built, ka, kept).value);
    SwitchesSay(built, f.basics);
    SwitchesSay(gw, f.basics);
    hide Annotations, Containers, Volumes, PortsParse, SaysOfSwitches;
  }

  /** In a world with such a gateway, undisturbed reconciles change nothing, and none of them succeeds. */
  lemma {:induction false} RelabellingIsRefused(ep: Endpoints, cfg: Config, w: World, acts: seq<Action>)
    requires w.gw.Some? && IsChanged(w.gw.value, None)
    requires WorkloadOf(w, KindOf(w.gw.value)).Some?
    requires WorkloadOf(w, KindOf(w.gw.value)).value.labels != Labels(w.gw.value)
    requires Undisturbed(acts) && forall act :: act in acts ==> RefusesRelabelling(cfg, w, act.a)
    ensures Run(ep, cfg, w, acts) == w && forall act :: act in acts ==> !Succeeds(cfg, w, act.a)
    decreases |acts|
  {
    if acts != [] {
      assert acts[0] in acts && forall act :: act in acts ==> act == acts[0] || act in acts[1..];
      RelabellingStep(ep, cfg, w, acts[0].a);
      hide IsChanged, Labels, RefusesRelabelling, Succeeds, Reconciled;
      RelabellingIsRefused(ep, cfg, w, acts[1..]);
    }
  }

  /**
    The workload of a gateway is in place, and then a VPN is switched on or off. The labels that the edit asks for
    differ exactly if a switch does; on a store that refuses to relabel, no undisturbed reconcile then succeeds or
    changes anything, however many there are.
   */
  lemma SwitchIsRefusedForGood(
    x: Extent, ep: Endpoints, cfg: Config, w: World, spec: VpnGwSpec, acts: seq<Action>)
    requires w.gw.Some? && !IsChanged(w.gw.value, None)
    requires Placed(x, cfg, w, w.gw.value.key, KindOf(w.gw.value), SpecFields(w.gw.value.spec))
    requires KindOf(w.gw.value.(spec := spec)) == KindOf(w.gw.value)
    requires Undisturbed(acts)
    requires forall act :: act in acts ==> RefusesRelabelling(cfg, Next(ep, cfg, w, Revise(spec)), act.a)
    ensures var gw, edited := w.gw.value, Next(ep, cfg, w, Revise(spec));
            var same := SameSwitches(SpecFields(gw.spec).basics, SpecFields(spec).basics);
            && edited.gw == Some(gw.(spec := spec))
            && (WorkloadOf(edited, KindOf(gw)).value.labels == Labels(edited.gw.value) <==> same)
            && (!same ==>
                  && Run(ep, cfg, edited, acts) == edited
                  && forall act :: act in acts ==> !Succeeds(cfg, edited, act.a))
  {
    var gw, edited := w.gw.value, Next(ep, cfg, w, Revise(spec));
    assert edited == w.(gw := Some(gw.(spec := spec)));
    LabelsIff(x, cfg, edited, KindOf(gw), SpecFields(gw.spec), edited.gw.value);
    if !SameSwitches(SpecFields(gw.spec).basics, SpecFields(spec).basics) {
      SwitchIsChange(gw, spec);
      hide *;
      RelabellingIsRefused(ep, cfg, edited, acts);
    }
  }

  lemma SwitchIsChange(gw: VpnGw, spec: VpnGwSpec)
    requires !IsChanged(gw, None) && !SameSwitches(SpecFields(gw.spec).basics, SpecFields(spec).basics)
    ensures IsChanged(gw.(spec := spec), None)
  {
  }
}
