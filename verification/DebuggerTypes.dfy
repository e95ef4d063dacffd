/** The Debugger object: its specification, its status, and the part of each that mirrors the other. */
module DebuggerTypes {
  import opened Api
  import opened GatewayTypes

  datatype DebuggerSpec = DebuggerSpec(
    workloadType: string,
    cpu: string,
    memory: string,
    qosBandwidth: string,
    subnet: string,
    hostNetwork: bool,
    image: string,
    selector: Option<seq<string>>,
    tolerations: Option<seq<Toleration>>,
    affinity: Affinity,
    nodeName: string,
    enablePinger: bool,
    pinger: string,
    enableConfigMap: bool,
    enableSys: bool,
    configMap: string,
    runAt: string,
    debuggerConfig: string)

  datatype DebuggerStatus = DebuggerStatus(
    workloadType: string,
    cpu: string,
    memory: string,
    qosBandwidth: string,
    subnet: string,
    hostNetwork: bool,
    image: string,
    tolerations: Option<seq<Toleration>>,
    affinity: Affinity,
    nodeName: string,
    enableConfigMap: bool,
    configMap: string,
    enablePinger: bool,
    pinger: string,
    enableSys: bool,
    runAt: string,
    debuggerConfig: string)

  datatype Debugger = Debugger(name: string, spec: DebuggerSpec, status: DebuggerStatus)

  datatype Pinger = Pinger(
    deleting: bool, image: string, enableMetrics: bool, ping: string, tcpPing: string, udpPing: string, dns: string)

  const WORKLOAD_TYPE_POD := "pod"
  const WORKLOAD_TYPE_DAEMONSET := "daemonset"

  const NEW_STATUS := DebuggerStatus("", "", "", "", "", false, "", None, Affinity(None, None, None),
                                     "", false, "", false, "", false, "", "")

  /** The fields that specification and status have in common and that a reconcile keeps equal. */
  datatype Mirrored = Mirrored(
    workloadType: string,
    cpu: string,
    memory: string,
    qosBandwidth: string,
    hostNetwork: bool,
    image: string,
    tolerations: Option<seq<Toleration>>,
    affinity: Affinity,
    nodeName: string,
    enablePinger: bool,
    pinger: string,
    enableConfigMap: bool,
    configMap: string,
    enableSys: bool,
    runAt: string,
    debuggerConfig: string)

  function SpecMirror(s: DebuggerSpec): Mirrored {
    Mirrored(s.workloadType, s.cpu, s.memory, s.qosBandwidth, s.hostNetwork, s.image, s.tolerations, s.affinity,
             s.nodeName, s.enablePinger, s.pinger, s.enableConfigMap, s.configMap, s.enableSys, s.runAt,
             s.debuggerConfig)
  }

  function StatusMirror(s: DebuggerStatus): Mirrored {
    Mirrored(s.workloadType, s.cpu, s.memory, s.qosBandwidth, s.hostNetwork, s.image, s.tolerations, s.affinity,
             s.nodeName, s.enablePinger, s.pinger, s.enableConfigMap, s.configMap, s.enableSys, s.runAt,
             s.debuggerConfig)
  }

  /** A status that says what m says; what it says about the subnet stays. */
  function WithMirror(st: DebuggerStatus, m: Mirrored): DebuggerStatus {
    DebuggerStatus(m.workloadType, m.cpu, m.memory, m.qosBandwidth, st.subnet, m.hostNetwork, m.image, m.tolerations,
                   m.affinity, m.nodeName, m.enableConfigMap, m.configMap, m.enablePinger, m.pinger, m.enableSys,
                   m.runAt, m.debuggerConfig)
  }

  /** What the status endpoint stores of a status. */
  function StatusOnWire(st: DebuggerStatus): DebuggerStatus {
    st.(tolerations := OnWire(st.tolerations), affinity := AffinityOnWire(st.affinity))
  }

  function MirrorOnWire(m: Mirrored): Mirrored {
    m.(tolerations := OnWire(m.tolerations), affinity := AffinityOnWire(m.affinity))
  }

  /** A specification with a list that the status cannot hold: empty, but not nil. */
  predicate Lossy(s: DebuggerSpec) {
    s.tolerations == Some([]) || s.affinity != AffinityOnWire(s.affinity)
  }

  predicate IsChanged(d: Debugger) {
    || d.spec.cpu != d.status.cpu
    || d.spec.memory != d.status.memory
    || d.spec.image != d.status.image
    || d.spec.qosBandwidth != d.status.qosBandwidth
    || d.spec.workloadType != d.status.workloadType
    || d.spec.enableConfigMap != d.status.enableConfigMap
    || d.spec.configMap != d.status.configMap
    || d.spec.enablePinger != d.status.enablePinger
    || d.spec.enableSys != d.status.enableSys
    || d.spec.pinger != d.status.pinger
    || d.spec.nodeName != d.status.nodeName
    || d.spec.hostNetwork != d.status.hostNetwork
    || d.spec.runAt != d.status.runAt
    || d.spec.debuggerConfig != d.status.debuggerConfig
    || d.spec.tolerations != d.status.tolerations
    || d.spec.affinity != d.status.affinity
  }

  lemma IsChangedIff(d: Debugger)
    ensures IsChanged(d) <==> SpecMirror(d.spec) != StatusMirror(d.status)
  {
  }
}
