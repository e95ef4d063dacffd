/**
  Runs of a gateway: what users, other controllers and the reconciler do to it and to its workloads,
  and what one reconcile leaves behind.
 */
module GatewayRuns {
  import opened Api
  import opened GatewayTypes
  import opened IpsecEncoding
  import opened GatewayStatus
  import opened GatewayWorkload
  import opened GatewayController
  import opened GatewayReading
  import Admission
  import Keepalived

  /** What the API server holds for one name. */
  datatype World = World(gw: Option<VpnGw>, sts: Option<Workload>, ds: Option<Workload>)

  function WorkloadOf(w: World, kind: Kind): Option<Workload> {
    if kind.StatefulSet? then w.sts else w.ds
  }

  /** What somebody else does between the reconciler's first read and the one before its status write. */
  datatype Window = Quiet | Edited(spec: VpnGwSpec) | Removed

  /** The part of a reconcile's replies that the world does not settle. */
  datatype Answers = Answers(
    ka: Option<Keepalived.KeepAlived>,
    getOk: bool,
    kept: map<string, string>,
    putOk: bool,
    conns: Option<seq<IpsecConn>>,
    pods: Option<seq<Pod>>,
    execFails: set<string>,
    window: Window,
    againOk: bool,
    statusOk: bool)

  /** The gateway as the status update reads it. */
  function Refetched(gw: VpnGw, window: Window): Option<VpnGw> {
    match window
    case Quiet => Some(gw)
    case Edited(spec) => Some(gw.(spec := spec))
    case Removed => None
  }

  function RepliesOf(w: World, a: Answers): Replies {
    Replies(
      if w.gw.Some? then Found(w.gw.value) else NotFound,
      a.ka,
      if !a.getOk then Failed
      else if w.gw.Some? && WorkloadOf(w, KindOf(w.gw.value)).Some? then Found(a.kept) else NotFound,
      a.putOk, a.conns, a.pods, a.execFails,
      if !a.againOk then Failed
      else if w.gw.Some? && Refetched(w.gw.value, a.window).Some? then Found(Refetched(w.gw.value, a.window).value)
      else NotFound,
      a.statusOk)
  }

  /** What one call leaves behind. */
  function Apply(ep: Endpoints, w: World, e: Event): World {
    if !e.ok then w
    else match e.call
      case CreateWorkload(workload) => PutWorkload(w, workload)
      case UpdateWorkload(workload) => PutWorkload(w, workload)
      case Exec(_, _, _) => w
      case PutStatus(newGw) => if w.gw.Some? then w.(gw := Some(Stored(ep, w.gw.value, newGw))) else w
  }

  function PutWorkload(w: World, workload: Workload): World {
    if workload.kind.StatefulSet? then w.(sts := Some(WorkloadOnWire(workload)))
    else w.(ds := Some(WorkloadOnWire(workload)))
  }

  function Interfere(w: World, window: Window): World {
    if w.gw.Some? then w.(gw := Refetched(w.gw.value, window)) else w
  }

  /**
    The calls of a reconcile, one by one. The interference comes before the status write, or at the end of
    a reconcile that got as far as reading the gateway again and had nothing to write.
   */
  function ApplyAll(ep: Endpoints, w: World, events: seq<Event>, window: Window): World
    decreases |events|
  {
    if events == [] then w
    else if events[0].call.PutStatus? then ApplyAll(ep, Apply(ep, Interfere(w, window), events[0]), events[1..], Quiet)
    else ApplyAll(ep, Apply(ep, w, events[0]), events[1..], window)
  }

  predicate WritesStatus(events: seq<Event>) {
    exists e :: e in events && e.call.PutStatus?
  }

  /** The reconcile gets as far as reading the gateway again. */
  predicate Rereads(r: Replies, plan: Plan) {
    && Gate(r) == None && !r.workload.Failed?
    && (plan.build.Nothing? || (plan.build.Write? && r.putOk))
    && Refresh(r.gw.value, r, plan.text).0 == None
  }

  function Reconciled(ep: Endpoints, cfg: Config, w: World, a: Answers): World {
    var r := RepliesOf(w, a);
    var events := Reconcile(cfg, r).1;
    var after := ApplyAll(ep, w, events, a.window);
    if Rereads(r, PlanOf(cfg, r)) && !WritesStatus(events) then Interfere(after, a.window) else after
  }

  // ---------- one reconcile ----------

  function ApplyCalls(ep: Endpoints, w: World, events: seq<Event>): World
    decreases |events|
  {
    if events == [] then w else ApplyCalls(ep, Apply(ep, w, events[0]), events[1..])
  }

  lemma {:induction false} ApplyPrefix(ep: Endpoints, w: World, some: seq<Event>, more: seq<Event>, window: Window)
    requires forall e :: e in some ==> !e.call.PutStatus?
    ensures ApplyAll(ep, w, some + more, window) == ApplyAll(ep, ApplyCalls(ep, w, some), more, window)
    decreases |some|
  {
    hide Apply;
    if some == [] {
      assert some + more == more;
    } else {
      assert some[0] in some;
      assert (some + more)[1..] == some[1..] + more && (some + more)[0] == some[0];
      ApplyPrefix(ep, Apply(ep, w, some[0]), some[1..], more, window);
    }
  }

  lemma {:induction false} ApplyExecs(ep: Endpoints, w: World, put: seq<Event>, execs: seq<Event>)
    requires |put| <= 1 && forall e :: e in execs ==> e.call.Exec?
    ensures ApplyCalls(ep, w, put + execs) == if put == [] then w else Apply(ep, w, put[0])
    decreases |put|, |execs|
  {
    if put != [] {
      assert (put + execs)[1..] == [] + execs;
      ApplyExecs(ep, Apply(ep, w, put[0]), [], execs);
    } else if execs != [] {
      assert execs[0] in execs;
      assert [] + execs == execs && [] + execs[1..] == execs[1..];
      ApplyExecs(ep, w, [], execs[1..]);
    } else {
      assert put + execs == [];
    }
  }

  /** The world with the workload that a plan stores. */
  function WithBuild(ep: Endpoints, w: World, r: Replies, plan: Plan): World {
    if Gate(r) == None && !r.workload.Failed? && plan.build.Write? && r.putOk
    then Apply(ep, w, Event(plan.build.call, true)) else w
  }

  /** What a reconcile with this plan leaves behind. */
  function StoredBy(ep: Endpoints, w: World, r: Replies, plan: Plan, window: Window): World {
    var put := WithBuild(ep, w, r, plan);
    if !Rereads(r, plan) then put
    else
      var seen := Interfere(put, window);
      if !r.again.Failed? && plan.write.Some? && r.statusOk
      then Apply(ep, seen, Event(PutStatus(plan.write.value), true))
      else seen
  }

  lemma PlanCalls(r: Replies, plan: Plan) returns (put: seq<Event>, execs: seq<Event>, status: seq<Event>)
    requires r.gw.Found? && (plan.build.Write? ==> Written(plan.build.call).Some?)
    ensures ReconcileWith(r, plan).1 == put + execs + status
    ensures put == if Gate(r) == None && !r.workload.Failed? && plan.build.Write?
                   then [Event(plan.build.call, r.putOk)] else []
    ensures forall e :: e in put ==> !e.call.PutStatus?
    ensures forall e :: e in execs ==> e.call.Exec?
    ensures status == if Rereads(r, plan) && !r.again.Failed? && plan.write.Some?
                      then [Event(PutStatus(plan.write.value), r.statusOk)] else []
  {
    put, execs, status := [], [], [];
    if Gate(r) == None && !r.workload.Failed? {
      if plan.build.Write? {
        put := [Event(plan.build.call, r.putOk)];
      }
      if plan.build.Nothing? || (plan.build.Write? && r.putOk) {
        execs := Refresh(r.gw.value, r, plan.text).1;
        forall e | e in execs
          ensures e.call.Exec?
        {
          RefreshCommands(r.gw.value, r, plan.text, e);
        }
        if Rereads(r, plan) {
          status := Status(r, plan.write).1;
        }
      }
      hide Refresh, Gate;
      assert put + (execs + status) == put + execs + status;
    }
  }

  lemma ApplyStatus(ep: Endpoints, w: World, status: seq<Event>, window: Window)
    requires |status| <= 1 && forall e :: e in status ==> e.call.PutStatus?
    ensures ApplyAll(ep, w, status, window) == if status == [] then w else Apply(ep, Interfere(w, window), status[0])
  {
    if status != [] {
      assert status[0] in status;
      assert status[1..] == [];
    }
  }

  lemma StatusIsWritten(put: seq<Event>, execs: seq<Event>, status: seq<Event>)
    requires forall e :: e in put + execs ==> !e.call.PutStatus?
    requires forall e :: e in status ==> e.call.PutStatus?
    ensures WritesStatus(put + execs + status) <==> status != []
  {
    if status != [] {
      assert status[0] in put + execs + status;
    }
  }

  /** One reconcile as the reconciler's method does it, in terms of its plan. */
  lemma StepIs(ep: Endpoints, cfg: Config, w: World, a: Answers)
    ensures w.gw.None? ==> Reconciled(ep, cfg, w, a) == w
    ensures w.gw.Some? ==>
              var r := RepliesOf(w, a); Reconciled(ep, cfg, w, a) == StoredBy(ep, w, r, PlanOf(cfg, r), a.window)
  {
    var r := RepliesOf(w, a);
    if w.gw.Some? {
      var plan := PlanOf(cfg, r);
      PlanFacts(cfg, r);
      var put, execs, status := PlanCalls(r, plan);
      hide PlanOf, ReconcileWith, Rereads, Gate;
      assert forall e: Event :: e in put + execs ==> !e.call.PutStatus?;
      ApplyPrefix(ep, w, put + execs, status, a.window);
      ApplyExecs(ep, w, put, execs);
      ApplyStatus(ep, ApplyCalls(ep, w, put + execs), status, a.window);
      StatusIsWritten(put, execs, status);
    }
  }
}
