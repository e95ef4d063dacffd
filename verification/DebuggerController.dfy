/**
  The Debugger reconciler: its gate, the writing of the workload, the recording of the status, and
  what a Debugger that counts as up to date says about its workload.
 */
module DebuggerController {
  import opened Api
  import opened DebuggerTypes
  import opened DebuggerWorkload
  import GatewayTypes

  /** What the API server holds for one name. */
  datatype World = World(debugger: Option<Debugger>, pod: Option<Workload>, ds: Option<Workload>)

  function WorkloadOf(w: World, kind: Kind): Option<Workload> {
    if kind.Pod? then w.pod else w.ds
  }

  /** What somebody else does between the reconciler's first read and the one before its status write. */
  datatype Window = Quiet | Edited(spec: DebuggerSpec) | Deleted

  /** The replies to one reconcile's calls, in the order of the calls. */
  datatype Replies = Replies(
    getOk: bool,
    atCheck: ConfigMaps,
    pinger: Option<Pinger>,
    workloadOk: bool,
    kept: map<string, string>,
    atBuild: ConfigMaps,
    putOk: bool,
    window: Window,
    againOk: bool,
    statusOk: bool)

  // ---------- the gate ----------

  predicate Valid(d: Debugger) {
    var s := d.spec;
    && s.cpu != "" && s.memory != "" && s.image != ""
    && s.workloadType in {WORKLOAD_TYPE_POD, WORKLOAD_TYPE_DAEMONSET}
    && (s.nodeName != "" ==> s.workloadType == WORKLOAD_TYPE_POD)
    && (s.enableConfigMap ==> s.configMap != "")
    && (s.enablePinger ==> s.pinger != "")
    && d.status.subnet in {"", s.subnet}
    && !(s.hostNetwork && s.subnet != "")
  }

  method ValidateDebugger(d: Debugger) returns (ok: bool)
    ensures ok <==> Valid(d)
  {
    var s := d.spec;
    if s.cpu == "" {
      return false;
    }
    if s.memory == "" {
      return false;
    }
    if s.image == "" {
      return false;
    }
    if s.workloadType == "" {
      return false;
    }
    if s.workloadType != WORKLOAD_TYPE_DAEMONSET && s.workloadType != WORKLOAD_TYPE_POD {
      return false;
    }
    if s.workloadType == WORKLOAD_TYPE_DAEMONSET {
      if s.nodeName != "" {
        return false;
      }
    }
    if s.enableConfigMap && s.configMap == "" {
      return false;
    }
    if s.enablePinger && s.pinger == "" {
      return false;
    }
    if d.status.subnet != "" && d.status.subnet != s.subnet {
      return false;
    }
    if s.hostNetwork && s.subnet != "" {
      return false;
    }
    return true;
  }

  predicate ValidPinger(p: Pinger, enablePinger: bool) {
    enablePinger && !p.deleting ==>
      p.image != "" && (p.ping != "" || p.tcpPing != "" || p.udpPing != "" || p.dns != "")
  }

  method ValidatePinger(p: Pinger, enablePinger: bool) returns (ok: bool)
    ensures ok <==> ValidPinger(p, enablePinger)
  {
    if !enablePinger {
      return true;
    }
    if p.deleting {
      return true;
    }
    if p.image == "" {
      return false;
    }
    if p.ping == "" && p.tcpPing == "" && p.udpPing == "" && p.dns == "" {
      return false;
    }
    return true;
  }

  /** checkConfigMapWithState: a missing config map is worth a retry, one without data is not. */
  function CheckConfigMap(cms: ConfigMaps, name: string): Option<SyncState> {
    if name !in cms then Some(Error)
    else if cms[name].None? then Some(ErrorNoRetry)
    else None
  }

  function CheckPinger(s: DebuggerSpec, r: Replies): Option<SyncState> {
    if s.pinger == "" then None
    else if r.pinger.None? then Some(Error)
    else if !ValidPinger(r.pinger.value, s.enablePinger) then Some(ErrorNoRetry)
    else None
  }

  function Gate(d: Debugger, r: Replies): Option<SyncState> {
    var s := d.spec;
    if !Valid(d) then Some(ErrorNoRetry)
    else if NeedsScripts(s) && CheckConfigMap(r.atCheck, s.configMap).Some? then CheckConfigMap(r.atCheck, s.configMap)
    else if s.runAt != "" && CheckConfigMap(r.atCheck, s.runAt).Some? then CheckConfigMap(r.atCheck, s.runAt)
    else if s.debuggerConfig != "" && CheckConfigMap(r.atCheck, s.debuggerConfig).Some? then
      CheckConfigMap(r.atCheck, s.debuggerConfig)
    else CheckPinger(s, r)
  }

  /** The Pinger that the builders get: none unless the specification names one. */
  function PingerOf(s: DebuggerSpec, r: Replies): Option<Pinger> {
    if s.pinger == "" then None else r.pinger
  }

  method Admit(d: Debugger, r: Replies) returns (stop: Option<SyncState>, pinger: Option<Pinger>)
    ensures stop == Gate(d, r)
    ensures stop.None? ==> pinger == PingerOf(d.spec, r) && (d.spec.enablePinger ==> pinger.Some?)
  {
    var s := d.spec;
    pinger := None;
    var valid := ValidateDebugger(d);
    if !valid {
      return Some(ErrorNoRetry), None;
    }
    if s.enableConfigMap && s.configMap != "" {
      stop := CheckConfigMap(r.atCheck, s.configMap);
      if stop.Some? {
        return;
      }
    }
    if s.runAt != "" {
      stop := CheckConfigMap(r.atCheck, s.runAt);
      if stop.Some? {
        return;
      }
    }
    if s.debuggerConfig != "" {
      stop := CheckConfigMap(r.atCheck, s.debuggerConfig);
      if stop.Some? {
        return;
      }
    }
    if s.pinger != "" {
      pinger := r.pinger;
      if pinger.None? {
        return Some(Error), None;
      }
      var ok := ValidatePinger(pinger.value, s.enablePinger);
      if !ok {
        return Some(ErrorNoRetry), None;
      }
    }
    return None, pinger;
  }

  // ---------- one reconcile as a function of the world ----------

  /** The reconcile gets as far as storing a workload. */
  predicate Writes(w: World, r: Replies) {
    && r.getOk
    && w.debugger.Some?
    && Gate(w.debugger.value, r) == None
    && IsChanged(w.debugger.value)
    && r.workloadOk
    && r.putOk
  }

  function Built(w: World, r: Replies): (built: Workload)
    requires w.debugger.Some? && Gate(w.debugger.value, r) == None
    ensures built.kind == KindOf(w.debugger.value.spec.workloadType)
  {
    var d := w.debugger.value;
    var kept := if WorkloadOf(w, KindOf(d.spec.workloadType)).Some? then r.kept else map[];
    WorkloadFor(d.name, d.spec, PingerOf(d.spec, r), kept, r.atBuild)
  }

  function Put(w: World, workload: Workload): World {
    if workload.kind.Pod? then w.(pod := Some(WorkloadOnWire(workload)))
    else w.(ds := Some(WorkloadOnWire(workload)))
  }

  function Interfere(w: World, window: Window): World {
    match window
    case Quiet => w
    case Edited(spec) => if w.debugger.Some? then w.(debugger := Some(w.debugger.value.(spec := spec))) else w
    case Deleted => w.(debugger := None)
  }

  function Record(w: World, r: Replies): (World, SyncState) {
    if !r.againOk then (w, Error)
    else if w.debugger.None? then (w, Success)
    else
      var d := w.debugger.value;
      if !IsChanged(d) then (w, Success)
      else if !r.statusOk then (w, Error)
      else (w.(debugger := Some(d.(status := StatusOnWire(WithMirror(d.status, SpecMirror(d.spec)))))), Success)
  }

  function Step(w: World, r: Replies): (World, SyncState) {
    if !r.getOk then (w, ErrorNoRetry)
    else if w.debugger.None? then (w, Success)
    else
      var stop := Gate(w.debugger.value, r);
      if stop.Some? then (w, stop.value)
      else if !IsChanged(w.debugger.value) then (w, Success)
      else if !r.workloadOk || !r.putOk then (w, Error)
      else Record(Interfere(Put(w, Built(w, r)), r.window), r)
  }

  // ---------- the reconciler ----------

  /** The body of UpdateDebugger between its read and its write, field by field. */
  method CopyStatus(d: Debugger) returns (newDebugger: Debugger, changed: bool)
    ensures newDebugger == d.(status := WithMirror(d.status, SpecMirror(d.spec)))
    ensures changed <==> IsChanged(d)
  {
    var s, st := d.spec, d.status;
    changed := false;
    var cpu, memory, image, qosBandwidth, workloadType, enablePinger, pinger, enableConfigMap, configMap, enableSys,
        tolerations, affinity, nodeName, hostNetwork, runAt, debuggerConfig;
    cpu, changed := CopyField(s.cpu, st.cpu, changed);
    memory, changed := CopyField(s.memory, st.memory, changed);
    image, changed := CopyField(s.image, st.image, changed);
    qosBandwidth, changed := CopyField(s.qosBandwidth, st.qosBandwidth, changed);
    workloadType, changed := CopyField(s.workloadType, st.workloadType, changed);
    enablePinger, changed := CopyField(s.enablePinger, st.enablePinger, changed);
    pinger, changed := CopyField(s.pinger, st.pinger, changed);
    enableConfigMap, changed := CopyField(s.enableConfigMap, st.enableConfigMap, changed);
    configMap, changed := CopyField(s.configMap, st.configMap, changed);
    enableSys, changed := CopyField(s.enableSys, st.enableSys, changed);
    tolerations, changed := CopyField(s.tolerations, st.tolerations, changed);
    affinity, changed := CopyField(s.affinity, st.affinity, changed);
    nodeName, changed := CopyField(s.nodeName, st.nodeName, changed);
    hostNetwork, changed := CopyField(s.hostNetwork, st.hostNetwork, changed);
    runAt, changed := CopyField(s.runAt, st.runAt, changed);
    debuggerConfig, changed := CopyField(s.debuggerConfig, st.debuggerConfig, changed);
    newDebugger := d.(status := DebuggerStatus(
      workloadType, cpu, memory, qosBandwidth, st.subnet, hostNetwork, image, tolerations, affinity, nodeName,
      enableConfigMap, configMap, enablePinger, pinger, enableSys, runAt, debuggerConfig));
  }

  class Store {
    var debugger: Option<Debugger>
    var pod: Option<Workload>
    var ds: Option<Workload>

    constructor ()
      ensures Contents() == World(None, None, None)
    {
      debugger, pod, ds := None, None, None;
    }

    ghost function Contents(): World
      reads this
    {
      World(debugger, pod, ds)
    }

    method HandleAddOrUpdatePod(d: Debugger, pinger: Option<Pinger>, r: Replies) returns (failed: bool)
      requires KindOf(d.spec.workloadType).Pod? && (d.spec.enablePinger ==> pinger.Some?)
      modifies `pod
      ensures failed <==> !r.workloadOk || ((old(pod).None? || IsChanged(d)) && !r.putOk)
      ensures pod == if r.workloadOk && r.putOk && (old(pod).None? || IsChanged(d))
                     then Some(WorkloadOnWire(WorkloadFor(d.name, d.spec, pinger,
                         if old(pod).Some? then r.kept else map[], r.atBuild)))
                     else old(pod)
    {
      hide WorkloadFor, IsChanged, Carries, WorkloadOnWire;
      if !r.workloadOk {
        return true;
      }
      if pod.None? {
        var newPod := GetDebuggerPod(d.name, d.spec, pinger, map[], r.atBuild);
        if !r.putOk {
          return true;
        }
        pod := Some(WorkloadOnWire(newPod));
        return false;
      }
      if IsChanged(d) {
        var newPod := GetDebuggerPod(d.name, d.spec, pinger, r.kept, r.atBuild);
        if !r.putOk {
          return true;
        }
        pod := Some(WorkloadOnWire(newPod));
      }
      return false;
    }

    method HandleAddOrUpdateDaemonset(d: Debugger, pinger: Option<Pinger>, r: Replies) returns (failed: bool)
      requires KindOf(d.spec.workloadType).DaemonSet? && (d.spec.enablePinger ==> pinger.Some?)
      modifies `ds
      ensures failed <==> !r.workloadOk || ((old(ds).None? || IsChanged(d)) && !r.putOk)
      ensures ds == if r.workloadOk && r.putOk && (old(ds).None? || IsChanged(d))
                    then Some(WorkloadOnWire(WorkloadFor(d.name, d.spec, pinger,
                        if old(ds).Some? then r.kept else map[], r.atBuild)))
                    else old(ds)
    {
      hide WorkloadFor, IsChanged, Carries, WorkloadOnWire;
      if !r.workloadOk {
        return true;
      }
      if ds.None? {
        var newDs := GetDebuggerDaemonset(d.name, d.spec, pinger, map[], r.atBuild);
        if !r.putOk {
          return true;
        }
        ds := Some(WorkloadOnWire(newDs));
        return false;
      }
      if IsChanged(d) {
        var newDs := GetDebuggerDaemonset(d.name, d.spec, pinger, r.kept, r.atBuild);
        if !r.putOk {
          return true;
        }
        ds := Some(WorkloadOnWire(newDs));
      }
      return false;
    }

    /** The step of whoever else writes to the API server. */
    method Intervene(window: Window)
      modifies `debugger
      ensures Contents() == Interfere(old(Contents()), window)
    {
      match window {
        case Quiet =>
        case Edited(spec) =>
          if debugger.Some? {
            debugger := Some(debugger.value.(spec := spec));
          }
        case Deleted =>
          debugger := None;
      }
    }

    method UpdateDebugger(r: Replies) returns (failed: bool)
      modifies `debugger
      ensures Contents() == Record(old(Contents()), r).0
      ensures failed <==> Record(old(Contents()), r).1 == Error
    {
      hide IsChanged, WithMirror, SpecMirror, StatusOnWire;
      if !r.againOk {
        return true;
      }
      if debugger.None? {
        return false;
      }
      var newDebugger, changed := CopyStatus(debugger.value);
      if !changed {
        return false;
      }
      if !r.statusOk {
        return true;
      }
      debugger := Some(newDebugger.(status := StatusOnWire(newDebugger.status)));
      return false;
    }

    method HandleAddOrUpdateDebugger(r: Replies) returns (state: SyncState)
      modifies this
      ensures (Contents(), state) == Step(old(Contents()), r)
    {
      hide WorkloadFor, IsChanged, Gate, Record, WorkloadOnWire;
      if !r.getOk {
        return ErrorNoRetry;
      }
      if debugger.None? {
        return Success;
      }
      var d := debugger.value;
      var stop, pinger := Admit(d, r);
      if stop.Some? {
        return stop.value;
      }
      if !IsChanged(d) {
        return Success;
      }
      var failed: bool;
      if d.spec.workloadType == WORKLOAD_TYPE_POD {
        failed := HandleAddOrUpdatePod(d, pinger, r);
      } else {
        failed := HandleAddOrUpdateDaemonset(d, pinger, r);
      }
      if failed {
        return Error;
      }
      Intervene(r.window);
      RecordStates(Contents(), r);
      failed := UpdateDebugger(r);
      return if failed then Error else Success;
    }
  }

  lemma RecordStates(w: World, r: Replies)
    ensures Record(w, r).1 != ErrorNoRetry
  {
  }

  // ---------- how a reconcile ends ----------

  /** A config map that the specification asks for: the scripts, the tasks and the configuration. */
  predicate Needs(s: DebuggerSpec, name: string) {
    || (s.enableConfigMap && s.configMap != "" && name == s.configMap)
    || (s.runAt != "" && name == s.runAt)
    || (s.debuggerConfig != "" && name == s.debuggerConfig)
  }

  ghost predicate MapsReady(s: DebuggerSpec, cms: ConfigMaps) {
    forall name: string :: Needs(s, name) ==> name in cms && cms[name].Some?
  }

  /** The Pinger has something to probe. */
  predicate Probes(p: Pinger) {
    !(p.ping == "" && p.tcpPing == "" && p.udpPing == "" && p.dns == "")
  }

  /** A Pinger is asked for, there, and either not used, on its way out, or with an image and something to probe. */
  predicate PingerReady(s: DebuggerSpec, pinger: Option<Pinger>) {
    s.pinger == "" ||
    (pinger.Some? &&
     (!s.enablePinger || pinger.value.deleting ||
      (pinger.value.image != "" && Probes(pinger.value))))
  }

  /** The gate lets pass exactly valid Debuggers whose config maps have data and whose Pinger will do. */
  lemma GateIff(d: Debugger, r: Replies)
    ensures Gate(d, r) == None <==> Valid(d) && MapsReady(d.spec, r.atCheck) && PingerReady(d.spec, r.pinger)
    ensures Gate(d, r) in {None, Some(Error), Some(ErrorNoRetry)}
  {
    var s := d.spec;
    hide Valid;
    assert s.enableConfigMap && s.configMap != "" ==> Needs(s, s.configMap);
    assert s.runAt != "" ==> Needs(s, s.runAt);
    assert s.debuggerConfig != "" ==> Needs(s, s.debuggerConfig);
  }

  /**
    Which obstacle decides: an invalid Debugger is not retried. Otherwise a reconcile is retried only if something is
    missing, and given up only if something that is there has no data or is not valid.
   */
  lemma GateTells(d: Debugger, r: Replies)
    ensures !Valid(d) ==> Gate(d, r) == Some(ErrorNoRetry)
    ensures Gate(d, r) == Some(Error) ==>
              (exists name: string :: Needs(d.spec, name) && name !in r.atCheck) ||
              (d.spec.pinger != "" && r.pinger.None?)
    ensures Valid(d) && Gate(d, r) == Some(ErrorNoRetry) ==>
              (exists name: string :: Needs(d.spec, name) && name in r.atCheck && r.atCheck[name].None?) ||
              (d.spec.pinger != "" && r.pinger.Some?)
    ensures Valid(d) && MapsReady(d.spec, r.atCheck) && d.spec.pinger != "" && r.pinger.None? ==>
              Gate(d, r) == Some(Error)
  {
    var s := d.spec;
    hide Valid;
    assert s.enableConfigMap && s.configMap != "" ==> Needs(s, s.configMap);
    assert s.runAt != "" ==> Needs(s, s.runAt);
    assert s.debuggerConfig != "" ==> Needs(s, s.debuggerConfig);
  }

  /** Once the workload is stored: the Debugger is gone, or its status needs no write, or the write is taken. */
  predicate RecordGoesThrough(d: Debugger, r: Replies) {
    r.againOk &&
    match r.window
    case Quiet => r.statusOk
    case Edited(spec) => IsChanged(d.(spec := spec)) ==> r.statusOk
    case Deleted => true
  }

  /**
    A reconcile succeeds exactly if the Debugger is gone, or passes the gate and is up to date, or passes it and every
    call that follows goes through.
   */
  lemma SucceedsIff(w: World, r: Replies)
    ensures Step(w, r).1 == Success <==>
            r.getOk &&
            (w.debugger.None? ||
             (Valid(w.debugger.value) && MapsReady(w.debugger.value.spec, r.atCheck) &&
              PingerReady(w.debugger.value.spec, r.pinger) &&
              (!IsChanged(w.debugger.value) ||
               (r.workloadOk && r.putOk && RecordGoesThrough(w.debugger.value, r)))))
  {
    if w.debugger.Some? {
      GateIff(w.debugger.value, r);
      if Gate(w.debugger.value, r) == None && IsChanged(w.debugger.value) {
        RecordIff(w, Built(w, r), r);
      }
    }
    hide Gate, Valid, MapsReady, PingerReady, IsChanged, RecordGoesThrough, Record, Built, Put, Interfere;
  }

  lemma RecordIff(w: World, built: Workload, r: Replies)
    requires w.debugger.Some? && IsChanged(w.debugger.value)
    ensures Record(Interfere(Put(w, built), r.window), r).1 == Success <==> RecordGoesThrough(w.debugger.value, r)
  {
    hide IsChanged, WorkloadOnWire, WithMirror, SpecMirror;
  }

  /** A reconcile is given up exactly if the Debugger cannot be read or the gate says so. */
  lemma NotRetriedIff(w: World, r: Replies)
    ensures Step(w, r).1 == ErrorNoRetry <==>
            !r.getOk || (w.debugger.Some? && Gate(w.debugger.value, r) == Some(ErrorNoRetry))
  {
    if r.getOk && w.debugger.Some? && Gate(w.debugger.value, r) == None {
      RecordStates(Interfere(Put(w, Built(w, r)), r.window), r);
    }
    hide Gate, IsChanged, Record, Built, Put, Interfere;
  }

  /**
    What a reconcile builds: containers with the probes of the Pinger that the specification names, and the annotations
    of the workload of that kind, if there is one.
   */
  lemma BuiltSays(w: World, r: Replies, c: Container, k: string)
    requires w.debugger.Some? && Gate(w.debugger.value, r) == None && c in Built(w, r).containers
    ensures var d := w.debugger.value;
            && Built(w, r).name == d.name
            && (d.spec.pinger != "" ==>
                  && r.pinger.Some?
                  && SourceOf(c.env, "PING") == Some(Literal(r.pinger.value.ping))
                  && SourceOf(c.env, "TCP_PING") == Some(Literal(r.pinger.value.tcpPing))
                  && SourceOf(c.env, "UDP_PING") == Some(Literal(r.pinger.value.udpPing))
                  && SourceOf(c.env, "DNS") == Some(Literal(r.pinger.value.dns)))
            && (k !in {GatewayTypes.LOGICAL_SWITCH, GatewayTypes.INGRESS_RATE, GatewayTypes.EGRESS_RATE} ==>
                  var there := WorkloadOf(w, KindOf(d.spec.workloadType)).Some?;
                  && (k in Built(w, r).annotations <==> there && k in r.kept)
                  && (k in Built(w, r).annotations ==> Built(w, r).annotations[k] == r.kept[k]))
  {
    var d := w.debugger.value;
    GateIff(d, r);
    var kept := if WorkloadOf(w, KindOf(d.spec.workloadType)).Some? then r.kept else map[];
    var pinger := PingerOf(d.spec, r);
    assert d.spec.enablePinger ==> pinger.Some?;
    assert Built(w, r) == WorkloadFor(d.name, d.spec, pinger, kept, r.atBuild);
    hide Gate, MapsReady, WorkloadFor, SourceOf, Built;
    VariablesSay(d.name, d.spec, pinger, kept, r.atBuild, c);
    WorkloadSays(d.name, d.spec, pinger, kept, r.atBuild);
    KeepsAnnotations(d.name, d.spec, pinger, kept, r.atBuild, k);
  }
}
