/**
  The VpnGw reconciler. Every reply of the API server and of the pods is a parameter, so that
  whatever other actors do between two calls is covered; what the reconciler does to the world
  is the list of calls its client recorded.
 */
module GatewayController {
  import opened Api
  import opened GatewayTypes
  import opened IpsecEncoding
  import opened GatewayStatus
  import opened GatewayWorkload
  import Admission
  import GoStrings
  import Keepalived

  datatype Pod = Pod(name: string, labels: map<string, string>, running: bool)

  /** A call that changes something. */
  datatype Call =
    | CreateWorkload(workload: Workload)
    | UpdateWorkload(workload: Workload)
    | Exec(ns: string, pod: string, command: string)
    | PutStatus(gw: VpnGw)

  datatype Event = Event(call: Call, ok: bool)

  /** A reconcile that dereferences nil panics and leaves without a result. */
  datatype Outcome = Done(state: SyncState) | Panicked

  datatype Replies = Replies(
    gw: Reply<VpnGw>,
    ka: Option<Keepalived.KeepAlived>,
    workload: Reply<map<string, string>>,   // the annotations of the workload that exists
    putOk: bool,
    conns: Option<seq<IpsecConn>>,
    pods: Option<seq<Pod>>,                 // the pods of the gateway's namespace
    execFails: set<string>,                 // the pods on which the command fails
    again: Reply<VpnGw>,                    // the gateway as the status update reads it
    statusOk: bool)

  class Client {
    var events: seq<Event>

    constructor ()
      ensures events == []
    {
      events := [];
    }

    method Do(call: Call, ok: bool)
      modifies this
      ensures events == old(events) + [Event(call, ok)]
    {
      events := events + [Event(call, ok)];
    }
  }

  // ---------- the specification: outcome and calls of one reconcile ----------

  predicate ValidKeepalived(ka: Keepalived.KeepAlived) {
    ka.spec.image != "" && (ka.spec.vipV4 != "" || ka.spec.vipV6 != "")
  }

  /** How a reconcile ends before it touches anything, if it does. */
  function Gate(r: Replies): Option<SyncState> {
    match r.gw
    case Failed => Some(ErrorNoRetry)
    case NotFound => Some(Success)
    case Found(gw) =>
      if Admission.FirstBroken(gw.spec).Some? then Some(ErrorNoRetry)
      else if gw.spec.keepalived == "" then None
      else if r.ka.None? then Some(Error)
      else if !ValidKeepalived(r.ka.value) then Some(ErrorNoRetry)
      else if r.ka.value.routerID == 0 then Some(Error)
      else None
  }

  /** The KeepAlived that a reconcile which passed the gate works with. */
  function KeepalivedOf(gw: VpnGw, r: Replies): Option<Keepalived.KeepAlived> {
    if gw.spec.keepalived == "" then None else r.ka
  }

  /** The StatefulSet builder would be handed a nil KeepAlived. */
  predicate NilKeepalived(gw: VpnGw, ka: Option<Keepalived.KeepAlived>) {
    KindOf(gw).StatefulSet? && ka.None?
  }

  /**
    What the workload stage comes to: no change; a nil dereference; a nil workload that the client
    refuses to create; or one write.
   */
  datatype Build = Nothing | Panics | Refused | Write(call: Call)

  function BuildOf(
    cfg: Config, gw: VpnGw, ka: Option<Keepalived.KeepAlived>, workload: Reply<map<string, string>>): Build {
    if !(workload.NotFound? || (workload.Found? && IsChanged(gw, None))) then Nothing
    else if NilKeepalived(gw, ka) then Panics
    else if !PortsParse(cfg, gw) then if workload.NotFound? then Refused else Panics
    else match workload
      case NotFound => Write(CreateWorkload(WorkloadFor(cfg, gw, ka, map[]).value))
      case Found(kept) => Write(UpdateWorkload(WorkloadFor(cfg, gw, ka, kept).value))
  }

  function RefreshCommand(gw: VpnGw, connections: string): string {
    (if gw.spec.ipsecEnablePSK then "/connection.sh refresh-psk " else "/connection.sh refresh-x509 ") + connections
  }

  /** Runs the command on one pod after the other and stops at the first failure. */
  function ExecAll(ns: string, pods: seq<Pod>, command: string, fails: set<string>): seq<Event> {
    if pods == [] then []
    else
      var first := Event(Exec(ns, pods[0].name, command), pods[0].name !in fails);
      if !first.ok then [first] else [first] + ExecAll(ns, pods[1..], command, fails)
  }

  predicate AnyFails(pods: seq<Pod>, fails: set<string>) {
    exists p :: p in pods && p.name in fails
  }

  predicate AllRunning(pods: seq<Pod>) {
    forall p :: p in pods ==> p.running
  }

  /** The printed list, if the connections of a listing are all acceptable. */
  function Payload(gw: VpnGw, conns: seq<IpsecConn>): Option<string> {
    if Accepts(gw, conns) then Some(Encode(Records(gw, conns))) else None
  }

  function PayloadOf(r: Replies): Option<string> {
    if r.gw.Found? && r.conns.Some? then Payload(r.gw.value, r.conns.value) else None
  }

  /** The connections stage, given the printed list: None means go on, and the calls it made. */
  function Refresh(gw: VpnGw, r: Replies, text: Option<string>): (Option<SyncState>, seq<Event>) {
    if !gw.spec.enableIPSecVpn then (None, [])
    else if r.conns.None? || r.conns.value == [] || text.None? then (Some(Error), [])
    else
      RefreshPodsSpec(gw.key.ns, PodsOf(gw, r), RefreshCommand(gw, text.value), r.execFails)
  }

  /** The labels by which a gateway finds its pods. */
  function PodSelector(gw: VpnGw): map<string, string> {
    var enableVPN := if gw.spec.enableIPSecVpn then ENABLE_IPSEC_VPN_LABEL else ENABLE_SSL_VPN_LABEL;
    map[enableVPN := "true", VPN_GW_LABEL := gw.key.name]
  }

  predicate Selects(selector: map<string, string>, labels: map<string, string>) {
    forall k :: k in selector ==> k in labels && labels[k] == selector[k]
  }

  /** What a List with MatchingLabels returns. */
  function Matching(selector: map<string, string>, pods: seq<Pod>): seq<Pod> {
    if pods == [] then []
    else (if Selects(selector, pods[0].labels) then [pods[0]] else []) + Matching(selector, pods[1..])
  }

  function PodsOf(gw: VpnGw, r: Replies): seq<Pod> {
    if r.pods.Some? then Matching(PodSelector(gw), r.pods.value) else []
  }

  /** What makes a pod one of this gateway's: its name, and the VPN in question, IPsec before SSL. */
  predicate IsPodOf(gw: VpnGw, labels: map<string, string>) {
    && "vpn-gw" in labels && labels["vpn-gw"] == gw.key.name
    && (gw.spec.enableIPSecVpn ==> "enable-ipsec-vpn" in labels && labels["enable-ipsec-vpn"] == "true")
    && (!gw.spec.enableIPSecVpn ==> "enable-ssl-vpn" in labels && labels["enable-ssl-vpn"] == "true")
  }

  lemma SelectsIff(gw: VpnGw, labels: map<string, string>)
    ensures Selects(PodSelector(gw), labels) <==> IsPodOf(gw, labels)
  {
    assert |ENABLE_SSL_VPN_LABEL| == 14 && |ENABLE_IPSEC_VPN_LABEL| == 16 && |VPN_GW_LABEL| == 6;
    assert VPN_GW_LABEL in PodSelector(gw);
    assert (if gw.spec.enableIPSecVpn then ENABLE_IPSEC_VPN_LABEL else ENABLE_SSL_VPN_LABEL) in PodSelector(gw);
  }

  /** Of the listed pods, those of the gateway match, each as often as it is listed, and no others. */
  lemma {:induction false} MatchingIff(gw: VpnGw, pods: seq<Pod>, p: Pod)
    ensures multiset(Matching(PodSelector(gw), pods))[p] == if IsPodOf(gw, p.labels) then multiset(pods)[p] else 0
    ensures p in Matching(PodSelector(gw), pods) <==> p in pods && IsPodOf(gw, p.labels)
  {
    if pods != [] {
      MatchingIff(gw, pods[1..], p);
      SelectsIff(gw, pods[0].labels);
      assert pods == [pods[0]] + pods[1..];
      hide IsPodOf, Selects, PodSelector;
    }
  }

  /** Matching pods come in the order of the listing. */
  lemma {:induction false} MatchingConcat(selector: map<string, string>, some: seq<Pod>, more: seq<Pod>)
    ensures Matching(selector, some + more) == Matching(selector, some) + Matching(selector, more)
    decreases |some|
  {
    if some == [] {
      assert some + more == more;
    } else {
      assert (some + more)[1..] == some[1..] + more;
      MatchingConcat(selector, some[1..], more);
    }
  }

  function RefreshPodsSpec(ns: string, pods: seq<Pod>, command: string, fails: set<string>)
    : (Option<SyncState>, seq<Event>)
  {
    (if AnyFails(pods, fails) || pods == [] || !AllRunning(pods) then Some(Error) else None,
     ExecAll(ns, pods, command, fails))
  }

  function Names(conns: seq<IpsecConn>): seq<string> {
    seq(|conns|, n requires 0 <= n < |conns| => conns[n].key.name)
  }

  /** The connection names handed to the status update; nil when there is nothing to hand over. */
  function Conns(gw: VpnGw, r: Replies): Connections {
    if gw.spec.enableIPSecVpn && r.conns.Some? && r.conns.value != [] then Some(Names(r.conns.value)) else None
  }

  /** The object that the status update stores, if it stores one. */
  function StatusWrite(conns: Connections, again: Reply<VpnGw>): Option<VpnGw> {
    if again.Found? && Writes(again.value, conns) then Some(Mirror(again.value, conns)) else None
  }

  function Status(r: Replies, write: Option<VpnGw>): (SyncState, seq<Event>) {
    if r.again.Failed? then (Error, [])
    else if write.None? then (Success, [])
    else (if r.statusOk then Success else Error, [Event(PutStatus(write.value), r.statusOk)])
  }

  function AfterWorkload(gw: VpnGw, r: Replies, plan: Plan): (SyncState, seq<Event>) {
    var (stop, execs) := Refresh(gw, r, plan.text);
    if stop.Some? then (stop.value, execs)
    else
      var (state, calls) := Status(r, plan.write);
      (state, execs + calls)
  }

  /** What a reconcile that goes all the way builds, prints and stores. */
  datatype Plan = Plan(build: Build, text: Option<string>, write: Option<VpnGw>)

  function PlanOf(cfg: Config, r: Replies): Plan {
    if !r.gw.Found? then Plan(Nothing, None, None)
    else
      var gw := r.gw.value;
      Plan(BuildOf(cfg, gw, KeepalivedOf(gw, r), r.workload), PayloadOf(r), StatusWrite(Conns(gw, r), r.again))
  }

  /** The outcome and the calls of a whole reconcile, given its plan. */
  function ReconcileWith(r: Replies, plan: Plan): (Outcome, seq<Event>) {
    if Gate(r).Some? then (Done(Gate(r).value), [])
    else if r.workload.Failed? then (Done(Error), [])
    else if plan.build.Panics? then (Panicked, [])
    else if plan.build.Refused? then (Done(Error), [])
    else
      var put := if plan.build.Write? then [Event(plan.build.call, r.putOk)] else [];
      if put != [] && !r.putOk then (Done(Error), put)
      else
        var (state, calls) := AfterWorkload(r.gw.value, r, plan);
        (Done(state), put + calls)
  }

  function Reconcile(cfg: Config, r: Replies): (Outcome, seq<Event>) {
    ReconcileWith(r, PlanOf(cfg, r))
  }

  // ---------- the reconciler ----------

  method HandleAddOrUpdateWorkload(
    client: Client, cfg: Config, gw: VpnGw, ka: Option<Keepalived.KeepAlived>,
    workload: Reply<map<string, string>>, putOk: bool)
    returns (err: Option<Outcome>, ghost build: Build)
    modifies client
    ensures build == BuildOf(cfg, gw, ka, workload)
    ensures workload.Failed? ==> build.Nothing?
    ensures err == if workload.Failed? then Some(Done(Error))
                   else if build.Panics? then Some(Panicked)
                   else if build.Refused? then Some(Done(Error))
                   else if build.Write? && !putOk then Some(Done(Error))
                   else None
    ensures client.events == old(client.events) + if build.Write? then [Event(build.call, putOk)] else []
  {
    build := BuildOf(cfg, gw, ka, workload);
    if workload.Failed? {
      return Some(Done(Error)), build;
    }
    var needToCreate := workload.NotFound?;
    if !needToCreate && !IsChanged(gw, None) {
      return None, build;
    }
    var kept := if needToCreate then map[] else workload.value;
    var built: Option<Workload>;
    if gw.spec.workloadType == "statefulset" {
      if ka.None? {
        return Some(Panicked), build;
      }
      built := StatefulSetForVpnGw(cfg, gw, ka.value, kept);
    } else {
      built := DaemonsetForVpnGw(cfg, gw, ka, kept);
    }
    if built.None? {
      return if needToCreate then Some(Done(Error)) else Some(Panicked), build;
    }
    client.Do(if needToCreate then CreateWorkload(built.value) else UpdateWorkload(built.value), putOk);
    return if putOk then None else Some(Done(Error)), build;
  }

  /** All pods that match, and whether one of them, or all of them, are missing. */
  method GetVpnGwPodNames(gw: VpnGw, all: Option<seq<Pod>>) returns (podNames: seq<string>, bad: bool)
    ensures var pods := if all.Some? then Matching(PodSelector(gw), all.value) else [];
            && |podNames| == |pods|
            && (forall n :: 0 <= n < |podNames| ==> podNames[n] == pods[n].name)
            && (bad <==> pods == [] || !AllRunning(pods))
    ensures NamesOwnPods(gw, all, podNames, bad)
  {
    hide Matching, Selects, NamesOwnPods;
    var enableVPN := ENABLE_SSL_VPN_LABEL;
    if gw.spec.enableIPSecVpn {
      enableVPN := ENABLE_IPSEC_VPN_LABEL;
    }
    if all.None? {
      NoPodNames(gw);
      return [], true;
    }
    var pods := Matching(map[enableVPN := "true", VPN_GW_LABEL := gw.key.name], all.value);
    podNames := [];
    var badPodNames: seq<string> := [];
    for n := 0 to |pods|
      invariant |podNames| == n
      invariant forall m :: 0 <= m < n ==> podNames[m] == pods[m].name
      invariant badPodNames == [] <==> forall m :: 0 <= m < n ==> pods[m].running
    {
      var pod := pods[n];
      if !pod.running {
        badPodNames := badPodNames + [pod.name];
      }
      podNames := podNames + [pod.name];
    }
    OwnPodNames(gw, all.value, pods, podNames, |podNames| == 0 || |badPodNames| > 0);
    if |podNames| == 0 {
      return [], true;
    }
    return podNames, |badPodNames| > 0;
  }

  /** The names are those of all listed pods of the gateway; bad says that there is none, or that one does not run. */
  ghost predicate NamesOwnPods(gw: VpnGw, all: Option<seq<Pod>>, podNames: seq<string>, bad: bool) {
    var own := set p | all.Some? && p in all.value && IsPodOf(gw, p.labels);
    && (forall name :: name in podNames <==> exists p :: p in own && p.name == name)
    && (bad <==> own == {} || exists p :: p in own && !p.running)
  }

  lemma NoPodNames(gw: VpnGw)
    ensures NamesOwnPods(gw, None, [], true)
  {
    hide IsPodOf;
  }

  lemma OwnPodNames(gw: VpnGw, all: seq<Pod>, pods: seq<Pod>, podNames: seq<string>, bad: bool)
    requires pods == Matching(PodSelector(gw), all)
    requires |podNames| == |pods| && forall n :: 0 <= n < |podNames| ==> podNames[n] == pods[n].name
    requires bad <==> pods == [] || !AllRunning(pods)
    ensures NamesOwnPods(gw, Some(all), podNames, bad)
  {
    OwnPods(gw, all);
    hide Matching, PodSelector, IsPodOf;
    var own := set p | p in all && IsPodOf(gw, p.labels);
    assert forall p :: p in own <==> p in pods;
    assert own == {} <==> pods == [];
    forall name | exists p :: p in pods && p.name == name
      ensures name in podNames
    {
      var n :| 0 <= n < |pods| && pods[n].name == name;
      assert podNames[n] == name;
    }
  }

  lemma OwnPods(gw: VpnGw, pods: seq<Pod>)
    ensures forall p :: p in Matching(PodSelector(gw), pods) <==> p in pods && IsPodOf(gw, p.labels)
    ensures Matching(PodSelector(gw), pods) == [] <==> forall p :: p in pods ==> !IsPodOf(gw, p.labels)
  {
    hide Matching, PodSelector, IsPodOf;
    var own := Matching(PodSelector(gw), pods);
    forall p
      ensures p in own <==> p in pods && IsPodOf(gw, p.labels)
    {
      MatchingIff(gw, pods, p);
    }
    assert own != [] ==> own[0] in own;
  }

  method ExecOnPods(
    client: Client, ns: string, podNames: seq<string>, command: string, ghost pods: seq<Pod>, fails: set<string>)
    returns (failed: bool)
    requires |podNames| == |pods| && forall n :: 0 <= n < |pods| ==> podNames[n] == pods[n].name
    modifies client
    ensures client.events == old(client.events) + ExecAll(ns, pods, command, fails)
    ensures failed <==> AnyFails(pods, fails)
  {
    for n := 0 to |podNames|
      invariant client.events + ExecAll(ns, pods[n..], command, fails) ==
                old(client.events) + ExecAll(ns, pods, command, fails)
      invariant forall m :: 0 <= m < n ==> pods[m].name !in fails
    {
      assert pods[n..][1..] == pods[n + 1..];
      client.Do(Exec(ns, podNames[n], command), podNames[n] !in fails);
      if podNames[n] in fails {
        assert pods[n] in pods;
        return true;
      }
    }
    return false;
  }

  method RefreshPods(client: Client, gw: VpnGw, all: Option<seq<Pod>>, command: string, fails: set<string>)
    returns (stop: Option<SyncState>)
    modifies client
    ensures var pods := if all.Some? then Matching(PodSelector(gw), all.value) else [];
            && stop == RefreshPodsSpec(gw.key.ns, pods, command, fails).0
            && client.events == old(client.events) + RefreshPodsSpec(gw.key.ns, pods, command, fails).1
  {
    hide Matching;
    var podNames, podsBad := GetVpnGwPodNames(gw, all);
    ghost var pods := if all.Some? then Matching(PodSelector(gw), all.value) else [];
    var failed := ExecOnPods(client, gw.key.ns, podNames, command, pods, fails);
    return if failed || podsBad then Some(Error) else None;
  }

  method ConnectionNames(conns: seq<IpsecConn>) returns (names: seq<string>)
    ensures names == Names(conns)
  {
    names := [];
    for n := 0 to |conns|
      invariant |names| == n
      invariant forall m :: 0 <= m < n ==> names[m] == conns[m].key.name
    {
      names := names + [conns[n].key.name];
    }
  }

  method RefreshConnections(client: Client, gw: VpnGw, r: Replies)
    returns (stop: Option<SyncState>, conns: Connections, ghost text: Option<string>)
    requires r.gw == Found(gw)
    modifies client
    ensures text == PayloadOf(r)
    ensures stop == Refresh(gw, r, text).0
    ensures client.events == old(client.events) + Refresh(gw, r, text).1
    ensures stop.None? ==> conns == Conns(gw, r)
  {
    hide Accepts, Encode, Records;
    conns, text := None, PayloadOf(r);
    if !gw.spec.enableIPSecVpn {
      return None, None, text;
    }
    if r.conns.None? || |r.conns.value| == 0 {
      return Some(Error), None, text;
    }
    var verdict := ValidateIPSecConns(gw, r.conns.value);
    assert text == if verdict.Accepted? then Some(verdict.connections) else None;
    if verdict.Rejected? {
      return Some(Error), None, text;
    }
    stop := RefreshPods(client, gw, r.pods, RefreshCommand(gw, verdict.connections), r.execFails);
    if stop.Some? {
      return stop, None, text;
    }
    var names := ConnectionNames(r.conns.value);
    return None, Some(names), text;
  }

  method UpdateVpnGW(client: Client, conns: Connections, r: Replies)
    returns (state: SyncState, ghost write: Option<VpnGw>)
    modifies client
    ensures write == StatusWrite(conns, r.again)
    ensures state == Status(r, write).0
    ensures client.events == old(client.events) + Status(r, write).1
  {
    write := StatusWrite(conns, r.again);
    match r.again {
      case Failed => return Error, write;
      case NotFound => return Success, write;
      case Found(gw) =>
        var newGw, changed := CopyStatus(gw, conns);
        if !changed {
          return Success, write;
        }
        client.Do(PutStatus(newGw), r.statusOk);
        return if r.statusOk then Success else Error, write;
    }
  }

  /** The checks that come before the first write. */
  method Admit(r: Replies) returns (stop: Option<SyncState>, ka: Option<Keepalived.KeepAlived>)
    requires r.gw.Found?
    ensures stop == Gate(r)
    ensures stop.None? ==> ka == KeepalivedOf(r.gw.value, r)
  {
    ka := None;
    var gw := r.gw.value;
    if Admission.FirstBroken(gw.spec).Some? {
      return Some(ErrorNoRetry), None;
    }
    if gw.spec.keepalived != "" {
      if r.ka.None? {
        return Some(Error), None;
      }
      ka := r.ka;
      if !ValidKeepalived(ka.value) {
        return Some(ErrorNoRetry), None;
      }
      if ka.value.routerID == 0 {
        return Some(Error), None;
      }
    }
    return None, ka;
  }

  /** The stages after the workload: pods, then status. */
  method RefreshAndRecord(client: Client, gw: VpnGw, r: Replies, ghost build: Build)
    returns (state: SyncState, ghost plan: Plan)
    requires r.gw == Found(gw)
    modifies client
    ensures plan == Plan(build, PayloadOf(r), StatusWrite(Conns(gw, r), r.again))
    ensures state == AfterWorkload(gw, r, plan).0
    ensures client.events == old(client.events) + AfterWorkload(gw, r, plan).1
  {
    hide PayloadOf, StatusWrite, Refresh, Status;
    var stop, conns, text := RefreshConnections(client, gw, r);
    plan := Plan(build, text, StatusWrite(Conns(gw, r), r.again));
    if stop.Some? {
      return stop.value, plan;
    }
    var done, write := UpdateVpnGW(client, conns, r);
    plan := Plan(build, text, write);
    return done, plan;
  }

  /** The stages of a gateway that passed the gate. */
  method Deploy(client: Client, cfg: Config, gw: VpnGw, ka: Option<Keepalived.KeepAlived>, r: Replies)
    returns (out: Outcome, ghost plan: Plan)
    requires r.gw == Found(gw) && Gate(r) == None && ka == KeepalivedOf(gw, r)
    modifies client
    ensures plan == Plan(BuildOf(cfg, gw, ka, r.workload), PayloadOf(r), StatusWrite(Conns(gw, r), r.again))
    ensures out == ReconcileWith(r, plan).0
    ensures client.events == old(client.events) + ReconcileWith(r, plan).1
  {
    hide BuildOf, PayloadOf, StatusWrite;
    var err, build := HandleAddOrUpdateWorkload(client, cfg, gw, ka, r.workload, r.putOk);
    if err.Some? {
      plan := Plan(build, PayloadOf(r), StatusWrite(Conns(gw, r), r.again));
      return err.value, plan;
    }
    ghost var put := if build.Write? then [Event(build.call, r.putOk)] else [];
    var state: SyncState;
    state, plan := RefreshAndRecord(client, gw, r, build);
    assert ReconcileWith(r, plan) == (Done(state), put + AfterWorkload(gw, r, plan).1);
    return Done(state), plan;
  }

  method HandleAddOrUpdateVpnGw(client: Client, cfg: Config, r: Replies) returns (out: Outcome)
    modifies client
    ensures out == Reconcile(cfg, r).0
    ensures client.events == old(client.events) + Reconcile(cfg, r).1
  {
    if r.gw.Failed? {
      return Done(ErrorNoRetry);
    }
    if r.gw.NotFound? {
      return Done(Success);
    }
    var stop, ka := Admit(r);
    if stop.Some? {
      return Done(stop.value);
    }
    ghost var plan: Plan;
    out, plan := Deploy(client, cfg, r.gw.value, ka, r);
  }

  // ---------- what a reconcile guarantees ----------

  /** The workload that a call writes, if it writes one. */
  function Written(call: Call): Option<Workload> {
    if call.CreateWorkload? || call.UpdateWorkload? then Some(call.workload) else None
  }

  lemma {:induction false} ExecAllRan(ns: string, pods: seq<Pod>, command: string, fails: set<string>)
    requires forall p :: p in pods ==> p.name !in fails
    ensures ExecAll(ns, pods, command, fails) ==
            seq(|pods|, n requires 0 <= n < |pods| => Event(Exec(ns, pods[n].name, command), true))
  {
    if pods != [] {
      ExecAllRan(ns, pods[1..], command, fails);
    }
  }

  lemma SuccessWith(r: Replies, plan: Plan)
    returns (put: seq<Event>, execs: seq<Event>, status: seq<Event>)
    requires r.gw.Found? && r.gw.value.spec.enableIPSecVpn
    requires ReconcileWith(r, plan).0 == Done(Success)
    ensures ReconcileWith(r, plan).1 == put + execs + status
    ensures forall e :: e in put + execs + status ==> e.ok
    ensures put == if plan.build.Write? then [Event(plan.build.call, true)] else []
    ensures r.conns.Some? && r.conns.value != [] && plan.text.Some?
    ensures r.pods.Some? && PodsOf(r.gw.value, r) != [] && AllRunning(PodsOf(r.gw.value, r))
    ensures |execs| == |PodsOf(r.gw.value, r)|
    ensures forall n :: 0 <= n < |execs| ==>
              execs[n].call == Exec(r.gw.value.key.ns, PodsOf(r.gw.value, r)[n].name,
                                    RefreshCommand(r.gw.value, plan.text.value))
    ensures status == if plan.write.Some? && !r.again.Failed? then [Event(PutStatus(plan.write.value), true)] else []
  {
    var gw := r.gw.value;
    put := if plan.build.Write? then [Event(plan.build.call, r.putOk)] else [];
    execs := Refresh(gw, r, plan.text).1;
    status := Status(r, plan.write).1;
    ExecAllRan(gw.key.ns, PodsOf(gw, r), RefreshCommand(gw, plan.text.value), r.execFails);
    assert put + (execs + status) == put + execs + status;
  }

  lemma PlanFacts(cfg: Config, r: Replies)
    requires r.gw.Found?
    ensures var gw, plan := r.gw.value, PlanOf(cfg, r);
            && Reconcile(cfg, r) == ReconcileWith(r, plan)
            && (plan.build.Write? ==> Written(plan.build.call).Some?)
            && (r.conns.Some? && plan.text.Some? ==>
                  Accepts(gw, r.conns.value) && plan.text.value == Encode(Records(gw, r.conns.value)))
            && (plan.write.Some? ==> r.again.Found?)
            && (gw.spec.enableIPSecVpn && r.conns.Some? && r.conns.value != [] ==>
                  plan.write == StatusWrite(Some(Names(r.conns.value)), r.again))
  {
    hide Accepts, Encode, Records, Names, Mirror;
  }

  /**
    Success for a live gateway with IPsec on means that all of it happened: the listed connections
    were all acceptable, at least one pod matched and all of them ran, the encoded list was executed
    once on each of them in list order, and only then the status was written. No call failed.
   */
  lemma SuccessMeansDone(cfg: Config, r: Replies) returns (put: seq<Event>, execs: seq<Event>, status: seq<Event>)
    requires r.gw.Found? && r.gw.value.spec.enableIPSecVpn
    requires Reconcile(cfg, r).0 == Done(Success)
    ensures Reconcile(cfg, r).1 == put + execs + status
    ensures forall e :: e in put + execs + status ==> e.ok
    ensures |put| <= 1 && forall e :: e in put ==> Written(e.call).Some?
    ensures r.conns.Some? && Accepts(r.gw.value, r.conns.value)
    ensures r.pods.Some? && PodsOf(r.gw.value, r) != [] && AllRunning(PodsOf(r.gw.value, r))
    ensures |execs| == |PodsOf(r.gw.value, r)|
    ensures forall n :: 0 <= n < |execs| ==>
              execs[n].call == Exec(r.gw.value.key.ns, PodsOf(r.gw.value, r)[n].name,
                                    RefreshCommand(r.gw.value, Encode(Records(r.gw.value, r.conns.value))))
    ensures status == match StatusWrite(Some(Names(r.conns.value)), r.again)
                      case Some(newGw) => [Event(PutStatus(newGw), true)]
                      case None => []
  {
    hide *;
    PlanFacts(cfg, r);
    put, execs, status := SuccessWith(r, PlanOf(cfg, r));
  }

  lemma {:induction false} ExecAllCommands(ns: string, pods: seq<Pod>, command: string, fails: set<string>, e: Event)
    requires e in ExecAll(ns, pods, command, fails)
    ensures e.call.Exec? && e.call.command == command && e.call.ns == ns
    ensures exists p :: p in pods && e == Event(Exec(ns, p.name, command), p.name !in fails)
  {
    assert pods != [] ==> pods[0] in pods;
    if pods != [] && e != ExecAll(ns, pods, command, fails)[0] {
      ExecAllCommands(ns, pods[1..], command, fails, e);
    }
  }

  lemma RefreshCommands(gw: VpnGw, r: Replies, text: Option<string>, e: Event)
    requires e in Refresh(gw, r, text).1
    ensures e.call.Exec? && text.Some? && r.conns.Some? && e.call.command == RefreshCommand(gw, text.value)
    ensures e.call.ns == gw.key.ns && exists p :: p in PodsOf(gw, r) && p.name == e.call.pod
  {
    ExecAllCommands(gw.key.ns, PodsOf(gw, r), RefreshCommand(gw, text.value), r.execFails, e);
  }

  lemma CommandsWith(r: Replies, plan: Plan, e: Event)
    requires e in ReconcileWith(r, plan).1 && e.call.Exec?
    requires plan.build.Write? ==> Written(plan.build.call).Some?
    ensures r.gw.Found? && r.conns.Some? && plan.text.Some?
    ensures e.call.command == RefreshCommand(r.gw.value, plan.text.value)
    ensures e.call.ns == r.gw.value.key.ns && exists p :: p in PodsOf(r.gw.value, r) && p.name == e.call.pod
  {
    hide Refresh, PodsOf;
    RefreshCommands(r.gw.value, r, plan.text, e);
  }

  /**
    Whatever the labels said and however the reconcile ended, a command that was executed encodes
    connections of this gateway only, and was executed on a pod of this gateway.
   */
  lemma CommandsAreOwn(cfg: Config, r: Replies, e: Event)
    requires e in Reconcile(cfg, r).1 && e.call.Exec?
    ensures r.gw.Found? && r.conns.Some?
    ensures e.call.command == RefreshCommand(r.gw.value, Encode(Records(r.gw.value, r.conns.value)))
    ensures forall con :: con in r.conns.value ==> con.spec.vpnGw == r.gw.value.key.name
    ensures e.call.ns == r.gw.value.key.ns && r.pods.Some?
    ensures exists p :: p in r.pods.value && IsPodOf(r.gw.value, p.labels) && p.name == e.call.pod
  {
    CommandsWith(r, PlanOf(cfg, r), e);
    OwnPods(r.gw.value, r.pods.value);
    hide Matching, IsPodOf;
    forall con | con in r.conns.value
      ensures con.spec.vpnGw == r.gw.value.key.name
    {
      assert Acceptable(r.gw.value, con);
    }
  }

  lemma WrittenWith(r: Replies, plan: Plan, e: Event)
    requires e in ReconcileWith(r, plan).1 && Written(e.call).Some?
    ensures Gate(r) == None && r.gw.Found? && plan.build == Write(e.call)
  {
    if e in Refresh(r.gw.value, r, plan.text).1 {
      RefreshCommands(r.gw.value, r, plan.text, e);
    }
  }

  /** A workload is written for a gateway that names a KeepAlived only with that object's id, which is never 0. */
  lemma WrittenWorkloadCarriesID(cfg: Config, r: Replies, e: Event)
    requires e in Reconcile(cfg, r).1 && Written(e.call).Some?
    ensures r.gw.Found?
    ensures var gw, w := r.gw.value, Written(e.call).value;
            && (gw.spec.keepalived == "" ==> VirtualRouterID(w.containers) == None)
            && (gw.spec.keepalived != "" ==>
                  r.ka.Some? && r.ka.value.routerID != 0 &&
                  VirtualRouterID(w.containers) == Some(GoStrings.Itoa(r.ka.value.routerID)))
            && exists kept :: WorkloadFor(cfg, gw, KeepalivedOf(gw, r), kept) == Some(w)
  {
    WrittenWith(r, PlanOf(cfg, r), e);
    var kept := if r.workload.Found? then r.workload.value else map[];
    var ka := KeepalivedOf(r.gw.value, r);
    assert WorkloadFor(cfg, r.gw.value, ka, kept) == Some(Written(e.call).value);
    WorkloadCarriesRouterID(cfg, r.gw.value, ka, kept);
  }

  /**
    A workload is created when there is none and replaced when the gateway has changed. Its annotations are those that
    the replaced one had, but for the three that the gateway and its KeepAlived decide.
   */
  lemma WrittenKeepsAnnotations(cfg: Config, r: Replies, e: Event, k: string)
    requires e in Reconcile(cfg, r).1 && Written(e.call).Some?
    ensures r.gw.Found? && !r.workload.Failed?
    ensures e.call.CreateWorkload? <==> r.workload.NotFound?
    ensures e.call.UpdateWorkload? ==> IsChanged(r.gw.value, None)
    ensures var gw, stored := r.gw.value, Written(e.call).value.annotations;
            if k == LOGICAL_SWITCH then
              k in stored && stored[k] == if gw.spec.keepalived != "" && r.ka.Some? then r.ka.value.spec.subnet else ""
            else if k == INGRESS_RATE || k == EGRESS_RATE then k in stored && stored[k] == gw.spec.qosBandwidth
            else if r.workload.Found? && k in r.workload.value then k in stored && stored[k] == r.workload.value[k]
            else k !in stored
  {
    WrittenWith(r, PlanOf(cfg, r), e);
    assert |INGRESS_RATE| == 30 && |EGRESS_RATE| == 29 && |LOGICAL_SWITCH| == 32;
    hide Gate, ReconcileWith, IsChanged, PayloadOf, StatusWrite, PortsParse, Containers, Volumes, Labels;
  }

  /** The connections that a status write records, when it records any: their names, in the order of the listing. */
  lemma NamesAreRecorded(cfg: Config, r: Replies, e: Event)
    requires e in Reconcile(cfg, r).1 && e.call.PutStatus?
    ensures r.gw.Found? && r.again.Found?
    ensures var again, spec, status := r.again.value, e.call.gw.spec, e.call.gw.status;
            if r.gw.value.spec.enableIPSecVpn && again.status.enableIPSecVpn then
              && r.conns.Some? && r.conns.value != []
              && spec.ipsecConnections.Some? && |spec.ipsecConnections.value| == |r.conns.value|
              && (forall n :: 0 <= n < |r.conns.value| ==> spec.ipsecConnections.value[n] == r.conns.value[n].key.name)
              && status.ipsecConnections ==
                   if again.spec.ipsecConnections != spec.ipsecConnections then spec.ipsecConnections
                   else again.status.ipsecConnections
            else
              spec.ipsecConnections == again.spec.ipsecConnections &&
              status.ipsecConnections == again.status.ipsecConnections
  {
    StatusWith(r, PlanOf(cfg, r), e);
    hide ReconcileWith, Gate, BuildOf, PayloadOf, Writes, Refresh;
  }

  lemma StatusWith(r: Replies, plan: Plan, e: Event)
    requires e in ReconcileWith(r, plan).1 && e.call.PutStatus?
    requires plan.build.Write? ==> Written(plan.build.call).Some?
    ensures r.gw.Found? && plan.write == Some(e.call.gw) && Gate(r) == None
    ensures r.gw.value.spec.enableIPSecVpn ==> r.conns.Some? && r.conns.value != []
  {
    if e in Refresh(r.gw.value, r, plan.text).1 {
      RefreshCommands(r.gw.value, r, plan.text, e);
    }
  }

  lemma {:induction false} ExecAllLast(ns: string, pods: seq<Pod>, command: string, fails: set<string>, n: nat)
    requires n < |ExecAll(ns, pods, command, fails)|
    ensures var execs := ExecAll(ns, pods, command, fails);
            && execs[n].call.Exec?
            && (n < |execs| - 1 ==> execs[n].ok)
            && (!execs[n].ok ==> AnyFails(pods, fails))
  {
    if pods[0].name in fails {
      assert pods[0] in pods;
    } else if n > 0 {
      ExecAllLast(ns, pods[1..], command, fails, n - 1);
    }
  }

  lemma RefreshLast(gw: VpnGw, r: Replies, text: Option<string>, n: nat)
    requires n < |Refresh(gw, r, text).1|
    ensures var execs := Refresh(gw, r, text).1;
            && execs[n].call.Exec?
            && (n < |execs| - 1 ==> execs[n].ok)
            && (!execs[n].ok ==> Refresh(gw, r, text).0 == Some(Error))
  {
    ExecAllLast(gw.key.ns, PodsOf(gw, r), RefreshCommand(gw, text.value), r.execFails, n);
    hide ExecAll, PodsOf, RefreshCommand;
  }

  lemma AfterWorkloadLast(gw: VpnGw, r: Replies, plan: Plan, n: nat)
    requires n < |AfterWorkload(gw, r, plan).1|
    ensures var (state, calls) := AfterWorkload(gw, r, plan);
            && Written(calls[n].call).None?
            && (n < |calls| - 1 ==> calls[n].ok && !calls[n].call.PutStatus?)
            && (state == Success ==> calls[n].ok)
  {
    var (stop, execs) := Refresh(gw, r, plan.text);
    if n < |execs| {
      RefreshLast(gw, r, plan.text, n);
    }
    hide Refresh;
  }

  lemma OnlyTheLastFailsWith(r: Replies, plan: Plan, n: nat)
    requires n < |ReconcileWith(r, plan).1|
    ensures var events := ReconcileWith(r, plan).1;
            && (n < |events| - 1 ==> events[n].ok && (n > 0 || !plan.build.Write? ==> !events[n].call.PutStatus?))
            && (n > 0 ==> Written(events[n].call).None?)
            && (n == 0 && plan.build.Write? ==> events[n].call == plan.build.call)
            && (ReconcileWith(r, plan).0 == Done(Success) ==> events[n].ok)
  {
    assert Gate(r) == None ==> r.gw.Found?;
    hide AfterWorkload, Gate, Written;
    if Gate(r) == None && !r.workload.Failed? && !plan.build.Panics? && !plan.build.Refused? {
      var (state, calls) := AfterWorkload(r.gw.value, r, plan);
      if plan.build.Write? {
        assert ReconcileWith(r, plan).1[0] == Event(plan.build.call, r.putOk);
        if n > 0 {
          assert r.putOk && ReconcileWith(r, plan) == (Done(state), [Event(plan.build.call, true)] + calls);
          AfterWorkloadLast(r.gw.value, r, plan, n - 1);
        }
      } else {
        assert ReconcileWith(r, plan) == (Done(state), [] + calls);
        AfterWorkloadLast(r.gw.value, r, plan, n);
      }
    }
  }

  /** Only the last call of a reconcile can fail; a workload write comes first, a status write last. */
  lemma OnlyTheLastFails(cfg: Config, r: Replies, n: nat)
    requires n < |Reconcile(cfg, r).1|
    ensures var events := Reconcile(cfg, r).1;
            && (n < |events| - 1 ==> events[n].ok && !events[n].call.PutStatus?)
            && (n > 0 ==> Written(events[n].call).None?)
            && (Reconcile(cfg, r).0 == Done(Success) ==> events[n].ok)
  {
    if r.gw.Found? {
      PlanFacts(cfg, r);
    }
    hide PlanOf, ReconcileWith;
    OnlyTheLastFailsWith(r, PlanOf(cfg, r), n);
  }

  /** There is a workload to build. */
  predicate HasToBuild(r: Replies) {
    Gate(r) == None && (r.workload.NotFound? || (r.workload.Found? && IsChanged(r.gw.value, None)))
  }

  /**
    A reconcile panics exactly when it has a workload to build and dereferences a nil: the KeepAlived of
    a StatefulSet for a gateway that names none, which validation lets pass, or an updated workload that
    was not built because a configured port does not parse.
   */
  lemma PanicsIff(cfg: Config, r: Replies)
    ensures Reconcile(cfg, r).0 == Panicked <==>
            && HasToBuild(r)
            && ((r.gw.value.spec.workloadType == "statefulset" && r.gw.value.spec.keepalived == "")
                || (r.workload.Found? && !PortsParse(cfg, r.gw.value)))
  {
    if Gate(r) == None {
      assert KeepalivedOf(r.gw.value, r).None? <==> r.gw.value.spec.keepalived == "";
    }
  }

  // ---------- how a reconcile ends ----------

  /** The KeepAlived that a gateway names, if it names one, is there, complete and has an id. */
  predicate KeepalivedReady(gw: VpnGw, ka: Option<Keepalived.KeepAlived>) {
    gw.spec.keepalived == "" ||
    (ka.Some? && ka.value.routerID != 0 && ka.value.spec.image != "" &&
     !(ka.value.spec.vipV4 == "" && ka.value.spec.vipV6 == ""))
  }

  ghost predicate Passes(r: Replies) {
    r.gw.Found? && Admission.Admissible(r.gw.value.spec) && KeepalivedReady(r.gw.value, r.ka)
  }

  lemma GateIff(r: Replies)
    ensures Gate(r) == None <==> Passes(r)
    ensures Gate(r) == Some(Success) <==> r.gw.NotFound?
    ensures Gate(r) == Some(ErrorNoRetry) <==>
            || r.gw.Failed?
            || (r.gw.Found? && !Admission.Admissible(r.gw.value.spec))
            || (r.gw.Found? && r.gw.value.spec.keepalived != "" && r.ka.Some? &&
                (r.ka.value.spec.image == "" || (r.ka.value.spec.vipV4 == "" && r.ka.value.spec.vipV6 == "")))
  {
    if r.gw.Found? {
      Admission.ValidatorsAgree(r.gw.value.spec);
    }
    hide Admission.FirstBroken, Admission.Admissible;
  }

  /** The workload is there and up to date, or can be built and is taken. */
  predicate WorkloadGoesThrough(cfg: Config, r: Replies)
    requires r.gw.Found?
  {
    var gw := r.gw.value;
    var put := (gw.spec.workloadType == "statefulset" ==> gw.spec.keepalived != "") && PortsParse(cfg, gw) && r.putOk;
    match r.workload
    case Failed => false
    case NotFound => put
    case Found(_) => IsChanged(gw, None) ==> put
  }

  /** The connections are there and acceptable, and all pods of the gateway, at least one, run and take the list. */
  ghost predicate ConnectionsGoThrough(r: Replies)
    requires r.gw.Found?
  {
    var gw := r.gw.value;
    && r.conns.Some? && r.conns.value != [] && Accepts(gw, r.conns.value)
    && r.pods.Some? && (exists p :: p in r.pods.value && IsPodOf(gw, p.labels))
    && forall p :: p in r.pods.value && IsPodOf(gw, p.labels) ==> p.running && p.name !in r.execFails
  }

  /** The gateway is gone by then, or has nothing to record, or the record is taken. */
  predicate StatusGoesThrough(r: Replies)
    requires r.gw.Found?
  {
    match r.again
    case Failed => false
    case NotFound => true
    case Found(again) => Writes(again, Conns(r.gw.value, r)) ==> r.statusOk
  }

  lemma BuildIff(cfg: Config, r: Replies)
    requires Gate(r) == None && r.gw.Found?
    ensures var build := PlanOf(cfg, r).build;
            !r.workload.Failed? && (build.Nothing? || (build.Write? && r.putOk)) <==> WorkloadGoesThrough(cfg, r)
  {
    assert KeepalivedOf(r.gw.value, r).None? <==> r.gw.value.spec.keepalived == "";
    hide Gate, PayloadOf, StatusWrite, IsChanged, PortsParse, WorkloadFor;
  }

  lemma RefreshIff(r: Replies)
    requires r.gw.Found?
    ensures Refresh(r.gw.value, r, PayloadOf(r)).0 == None <==>
            (r.gw.value.spec.enableIPSecVpn ==> ConnectionsGoThrough(r))
  {
    if r.pods.Some? {
      OwnPods(r.gw.value, r.pods.value);
    }
    hide IsPodOf, Accepts, Records, Encode, Matching, RefreshCommand, ExecAll, PodSelector;
    assert PayloadOf(r).Some? <==> r.conns.Some? && Accepts(r.gw.value, r.conns.value);
    var own := PodsOf(r.gw.value, r);
    assert own != [] ==> own[0] in own;
    assert r.pods.None? ==> own == [];
    assert AnyFails(own, r.execFails) <==> exists p :: p in own && p.name in r.execFails;
  }

  /** A reconcile succeeds exactly if the gateway is gone or passes the checks and all three stages go through. */
  lemma SucceedsIff(cfg: Config, r: Replies)
    ensures Reconcile(cfg, r).0 == Done(Success) <==>
            || r.gw.NotFound?
            || (Passes(r)
                && WorkloadGoesThrough(cfg, r)
                && (r.gw.value.spec.enableIPSecVpn ==> ConnectionsGoThrough(r))
                && StatusGoesThrough(r))
  {
    GateIff(r);
    if Gate(r) == None {
      BuildIff(cfg, r);
      RefreshIff(r);
      RefreshStops(r.gw.value, r, PayloadOf(r));
      StatusIff(r);
      PlanHas(cfg, r);
    }
    hide Gate, PlanOf, Passes, WorkloadGoesThrough, ConnectionsGoThrough, StatusGoesThrough, Refresh, PayloadOf, Status,
         StatusWrite, Conns;
  }

  lemma RefreshStops(gw: VpnGw, r: Replies, text: Option<string>)
    ensures Refresh(gw, r, text).0 in {None, Some(Error)}
  {
    hide AnyFails, AllRunning, PodsOf, ExecAll;
  }

  lemma PlanHas(cfg: Config, r: Replies)
    requires r.gw.Found?
    ensures PlanOf(cfg, r).text == PayloadOf(r)
    ensures PlanOf(cfg, r).write == StatusWrite(Conns(r.gw.value, r), r.again)
  {
    hide BuildOf, PayloadOf, StatusWrite, Conns;
  }

  lemma StatusIff(r: Replies)
    requires r.gw.Found?
    ensures Status(r, StatusWrite(Conns(r.gw.value, r), r.again)).0 in {Success, Error}
    ensures Status(r, StatusWrite(Conns(r.gw.value, r), r.again)).0 == Success <==> StatusGoesThrough(r)
  {
    hide Writes, Conns, Mirror;
  }

  /** A reconcile is not retried exactly if its gateway cannot be read, or it or its KeepAlived is not valid. */
  lemma NotRetriedIff(cfg: Config, r: Replies)
    ensures Reconcile(cfg, r).0 == Done(ErrorNoRetry) <==>
            || r.gw.Failed?
            || (r.gw.Found? && !Admission.Admissible(r.gw.value.spec))
            || (r.gw.Found? && r.gw.value.spec.keepalived != "" && r.ka.Some? &&
                (r.ka.value.spec.image == "" || (r.ka.value.spec.vipV4 == "" && r.ka.value.spec.vipV6 == "")))
  {
    GateIff(r);
    if Gate(r) == None {
      RefreshStops(r.gw.value, r, PlanOf(cfg, r).text);
    }
    hide Gate, PlanOf, Refresh, Admission.Admissible;
  }

  const NO_CONFIG := Config("", "", "500", "4500", "")

  /** An admissible gateway whose every reconcile panics as long as its StatefulSet is missing. */
  lemma StatefulSetWithoutKeepalivedPanics(r: Replies)
    requires r.gw == Found(PLAIN_GW.(spec := PLAIN_SPEC.(workloadType := "statefulset"))) && r.workload.NotFound?
    ensures Admission.Admissible(r.gw.value.spec) && Reconcile(NO_CONFIG, r) == (Panicked, [])
  {
    assert Admission.FirstBroken(r.gw.value.spec) == None;
    assert Gate(r) == None;
    PanicsIff(NO_CONFIG, r);
  }

  /**
    A workload that somebody deleted is created again by the next reconcile that passes the gate, unless
    it cannot be built; then there is no call at all.
   */
  lemma DeletedWorkloadIsRecreated(cfg: Config, r: Replies)
    requires Gate(r) == None && r.workload.NotFound?
    ensures Reconcile(cfg, r).1 != [] <==>
        !NilKeepalived(r.gw.value, KeepalivedOf(r.gw.value, r)) && PortsParse(cfg, r.gw.value)
    ensures Reconcile(cfg, r).1 != [] ==> Reconcile(cfg, r).1[0].call.CreateWorkload?
  {
    hide PortsParse;
  }

  /**
    A gateway finds the pods of the workloads that are built for it and for gateways of its name elsewhere, as far as
    they have the VPN that it looks for, and no others.
   */
  lemma OwnPodsMatchIff(gw: VpnGw, other: VpnGw)
    requires Admission.Admissible(gw.spec)
    ensures Selects(PodSelector(gw), Labels(gw))
    ensures Selects(PodSelector(gw), Labels(other)) <==>
            other.key.name == gw.key.name &&
            if gw.spec.enableIPSecVpn then other.spec.enableIPSecVpn else other.spec.enableSslVpn
  {
    assert !Admission.Breaks(gw.spec, Admission.NeedsOneVpn);
    assert |ENABLE_SSL_VPN_LABEL| == 14 && |ENABLE_IPSEC_VPN_LABEL| == 16 && |VPN_GW_LABEL| == 6;
    assert |"true"| != |"false"|;
    SelectsIff(gw, Labels(gw));
    SelectsIff(gw, Labels(other));
    hide Selects, PodSelector;
  }
}
