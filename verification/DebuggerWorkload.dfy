/** The Pod or DaemonSet built for a Debugger. */
module DebuggerWorkload {
  import opened Api
  import opened GatewayTypes
  import opened DebuggerTypes
  import opened Selectors

  datatype Source = Literal(value: string) | FieldRef(path: string) | ConfigKey(configMap: string, key: string)

  datatype EnvVar = EnvVar(name: string, source: Source)

  datatype Mount = Mount(name: string, path: string, readOnly: bool)

  datatype Volume =
    | HostPath(name: string, path: string)
    | ConfigMapItems(name: string, items: set<string>, mode: int)
    | ConfigMapAll(name: string)

  datatype Container = Container(
    name: string, image: string, cpu: string, memory: string, env: seq<EnvVar>, mounts: seq<Mount>)

  datatype Kind = Pod | DaemonSet

  datatype Workload = Workload(
    kind: Kind,
    name: string,
    annotations: map<string, string>,
    nodeName: string,
    hostNetwork: bool,
    containers: seq<Container>,
    volumes: seq<Volume>,
    nodeSelector: Option<map<string, string>>,
    tolerations: Option<seq<Toleration>>,
    affinity: Option<Affinity>)

  /** The config maps of the namespace by name, each with the keys of its data; None is nil data. */
  type ConfigMaps = map<string, Option<set<string>>>

  /** A directory or file of the host: the volume's name, its path, and whether it is mounted read-only. */
  type HostPaths = seq<(string, string, bool)>

  const BASE_PATHS: HostPaths := [
    ("host-run-ovs", "/var/run/openvswitch", true), ("host-run-ovn", "/var/run/ovn", true),
    ("host-config-openvswitch", "/etc/openvswitch", true), ("host-log-openvswitch", "/var/log/openvswitch", true),
    ("host-log-ovn", "/var/log/ovn", true), ("host-log-kube-ovn", "/var/log/kube-ovn", true),
    ("host-log-kube-combo", "/var/log/kube-combo", false), ("localtime", "/etc/localtime", true),
    ("kube-ovn-tls", "/var/run/tls", true)]

  const SYS_PATHS: HostPaths := [
    ("etc-systemd", "/etc/systemd/system", true), ("run-systemd", "/run/systemd/system", false),
    ("var-run-systemd", "/var/run/systemd/system", true),
    ("usr-local-lib-systemd", "/usr/local/lib/systemd/system", true),
    ("usr-lib-systemd", "/usr/lib/systemd/system", false), ("lib-systemd", "/lib/systemd/system", false),
    ("cgroup", "/sys/fs/cgroup", true), ("var-log-journal", "/var/log/journal", false)]

  function HostVolumes(paths: HostPaths): seq<Volume> {
    seq(|paths|, n requires 0 <= n < |paths| => HostPath(paths[n].0, paths[n].1))
  }

  function HostMounts(paths: HostPaths): seq<Mount> {
    seq(|paths|, n requires 0 <= n < |paths| => Mount(paths[n].0, paths[n].1, paths[n].2))
  }

  const SCRIPTS_PATH := "/scripts"
  const TASKS_PATH := "/tasks"
  const SCRIPTS_MODE := 493   // 0755

  predicate IsScript(key: string) {
    |key| >= 3 && key[|key| - 3..] == ".sh"
  }

  function Scripts(data: Option<set<string>>): set<string> {
    if data.None? then {} else set key | key in data.value && IsScript(key)
  }

  predicate NeedsScripts(s: DebuggerSpec) {
    s.enableConfigMap && s.configMap != ""
  }

  /** The config maps the builder reads are there. */
  predicate Readable(s: DebuggerSpec, cms: ConfigMaps) {
    (NeedsScripts(s) ==> s.configMap in cms) && (s.runAt != "" ==> s.runAt in cms)
  }

  function Volumes(s: DebuggerSpec, cms: ConfigMaps): seq<Volume> {
    if !Readable(s, cms) then []
    else
      HostVolumes(BASE_PATHS)
      + (if s.enableSys then HostVolumes(SYS_PATHS) else [])
      + (if NeedsScripts(s) then [ConfigMapItems(s.configMap, Scripts(cms[s.configMap]), SCRIPTS_MODE)] else [])
      + (if s.runAt != "" then [ConfigMapAll(s.runAt)] else [])
  }

  function Mounts(s: DebuggerSpec, cms: ConfigMaps): seq<Mount> {
    if !Readable(s, cms) then []
    else
      HostMounts(BASE_PATHS)
      + (if s.enableSys then HostMounts(SYS_PATHS) else [])
      + (if NeedsScripts(s) then [Mount(s.configMap, SCRIPTS_PATH, true)] else [])
      + (if s.runAt != "" then [Mount(s.runAt, TASKS_PATH, true)] else [])
  }

  /** getVolumesMounts: a config map that cannot be read empties both lists without an error. */
  method GetVolumesMounts(s: DebuggerSpec, cms: ConfigMaps) returns (volumes: seq<Volume>, mounts: seq<Mount>)
    ensures volumes == Volumes(s, cms) && mounts == Mounts(s, cms)
  {
    hide HostVolumes, HostMounts, Scripts;
    volumes, mounts := HostVolumes(BASE_PATHS), HostMounts(BASE_PATHS);
    if s.enableSys {
      volumes, mounts := volumes + HostVolumes(SYS_PATHS), mounts + HostMounts(SYS_PATHS);
    }
    if s.enableConfigMap && s.configMap != "" {
      if s.configMap !in cms {
        return [], [];
      }
      volumes := volumes + [ConfigMapItems(s.configMap, Scripts(cms[s.configMap]), SCRIPTS_MODE)];
      mounts := mounts + [Mount(s.configMap, SCRIPTS_PATH, true)];
    }
    if s.runAt != "" {
      if s.runAt !in cms {
        return [], [];
      }
      volumes := volumes + [ConfigMapAll(s.runAt)];
      mounts := mounts + [Mount(s.runAt, TASKS_PATH, true)];
    }
  }

  /** Mounts and volumes name the same things in the same order; what is of the host is mounted where it is there. */
  lemma MountsAreVolumes(s: DebuggerSpec, cms: ConfigMaps)
    ensures |Mounts(s, cms)| == |Volumes(s, cms)|
    ensures forall n :: 0 <= n < |Mounts(s, cms)| ==> Mounts(s, cms)[n].name == Volumes(s, cms)[n].name
    ensures forall n :: 0 <= n < |Mounts(s, cms)| && Volumes(s, cms)[n].HostPath? ==>
              Mounts(s, cms)[n].path == Volumes(s, cms)[n].path
  {
  }

  /** The log directory of the operator and, when the system is looked at, four directories of it can be written. */
  const WRITABLE: set<string> := {
    "/var/log/kube-combo", "/run/systemd/system", "/usr/lib/systemd/system", "/lib/systemd/system", "/var/log/journal"}

  lemma WritableDiffer(p: string)
    requires p in WRITABLE
    ensures |p| in {16, 19, 23} && (|p| == 19 ==> p[1] in {'v', 'r', 'l'})
    ensures (|p| == 23 ==> p[1] == 'u') && (|p| == 16 ==> p[1] == 'v')
  {
  }

  lemma WritableBasePaths(n: nat)
    requires n < |BASE_PATHS|
    ensures !BASE_PATHS[n].2 <==> BASE_PATHS[n].1 in WRITABLE
  {
    if BASE_PATHS[n].1 in WRITABLE {
      WritableDiffer(BASE_PATHS[n].1);
    }
  }

  lemma WritableSysPaths(n: nat)
    requires n < |SYS_PATHS|
    ensures !SYS_PATHS[n].2 <==> SYS_PATHS[n].1 in WRITABLE
  {
    if SYS_PATHS[n].1 in WRITABLE {
      WritableDiffer(SYS_PATHS[n].1);
    }
  }

  lemma WritableMountsIff(s: DebuggerSpec, cms: ConfigMaps, m: Mount)
    requires m in Mounts(s, cms)
    ensures !m.readOnly <==> m.path in WRITABLE
  {
    assert "/scripts" !in WRITABLE && "/tasks" !in WRITABLE by {
      assert forall p :: p in WRITABLE ==> |p| >= 16;
    }
    assert |SCRIPTS_PATH| == 8 && |TASKS_PATH| == 6;
    forall n: nat | n < |BASE_PATHS| { WritableBasePaths(n); }
    forall n: nat | n < |SYS_PATHS| { WritableSysPaths(n); }
    hide Scripts;
  }

  const HOST_CHECK_LIST := "HOST_CHECK_LIST"

  function BoolString(b: bool): string {
    if b then "true" else "false"
  }

  function Envs(name: string, s: DebuggerSpec, pinger: Option<Pinger>): seq<EnvVar> {
    OwnEnvs(name, s) + PingerEnvs(pinger) + ConfigEnvs(s.debuggerConfig)
  }

  function OwnEnvs(name: string, s: DebuggerSpec): seq<EnvVar> {
    [EnvVar("POD_NAME", FieldRef("metadata.name")),
     EnvVar("POD_NAMESPACE", FieldRef("metadata.namespace")),
     EnvVar("NODE_NAME", FieldRef("spec.nodeName")),
     EnvVar("POD_IP", FieldRef("status.podIP")),
     EnvVar("HOST_IP", FieldRef("status.hostIP")),
     EnvVar("HOST_NETWORK", Literal(BoolString(s.hostNetwork))),
     EnvVar(HOST_CHECK_LIST, Literal(BoolString(s.enableSys))),
     EnvVar("DS_NAME", Literal(if s.workloadType == WORKLOAD_TYPE_DAEMONSET then name else "")),
     EnvVar("SUBNET", Literal(if s.hostNetwork then "" else s.subnet))]
  }

  function PingerEnvs(pinger: Option<Pinger>): seq<EnvVar> {
    match pinger
    case None => []
    case Some(p) =>
      [EnvVar("ENABLE_METRICS", Literal(BoolString(p.enableMetrics))),
       EnvVar("PING", Literal(p.ping)),
       EnvVar("TCP_PING", Literal(p.tcpPing)),
       EnvVar("UDP_PING", Literal(p.udpPing)),
       EnvVar("DNS", Literal(p.dns))]
  }

  const CONFIG_KEYS: seq<string> := [
    "LOG_LEVEL", "LOG_FILE", "LOG_FLAG", "EIS_API_PORT", "EIS_API_SVC", "REGISTER", "REPORT", "TERMINATE"]

  function ConfigEnvs(debuggerConfig: string): seq<EnvVar> {
    if debuggerConfig == "" then []
    else
      seq(|CONFIG_KEYS|, n requires 0 <= n < |CONFIG_KEYS| =>
        EnvVar(CONFIG_KEYS[n], ConfigKey(debuggerConfig, CONFIG_KEYS[n])))
  }

  function Annotations(s: DebuggerSpec, kept: map<string, string>): map<string, string> {
    kept[LOGICAL_SWITCH := s.subnet][INGRESS_RATE := s.qosBandwidth][EGRESS_RATE := s.qosBandwidth]
  }

  function Containers(name: string, s: DebuggerSpec, pinger: Option<Pinger>, cms: ConfigMaps): seq<Container>
    requires s.enablePinger ==> pinger.Some?
  {
    var env, mounts := Envs(name, s, pinger), Mounts(s, cms);
    [Container("debug", s.image, s.cpu, s.memory, env, mounts)]
    + if s.enablePinger then [Container("ping", pinger.value.image, s.cpu, s.memory, env, mounts)] else []
  }

  function KindOf(workloadType: string): Kind {
    if workloadType == WORKLOAD_TYPE_POD then Pod else DaemonSet
  }

  /** Only a DaemonSet gets the scheduling constraints, and only a Pod the node name. */
  function WorkloadFor(
    name: string, s: DebuggerSpec, pinger: Option<Pinger>, kept: map<string, string>, cms: ConfigMaps): Workload
    requires s.enablePinger ==> pinger.Some?
  {
    var containers, volumes := Containers(name, s, pinger, cms), Volumes(s, cms);
    match KindOf(s.workloadType)
    case Pod =>
      Workload(Pod, name, Annotations(s, kept), s.nodeName, s.hostNetwork, containers, volumes, None, None, None)
    case DaemonSet =>
      Workload(DaemonSet, name, Annotations(s, kept), "", s.hostNetwork, containers, volumes,
               if s.selector.Some? && |s.selector.value| > 0 then Some(Fold(s.selector.value)) else None,
               if s.tolerations.Some? && |s.tolerations.value| > 0 then s.tolerations else None,
               if s.affinity == Affinity(None, None, None) then None else Some(s.affinity))
  }

  /** What the API server stores of a workload. */
  function WorkloadOnWire(w: Workload): Workload {
    w.(nodeSelector := if w.nodeSelector == Some(map[]) then None else w.nodeSelector,
       affinity := if w.affinity.Some? then Some(AffinityOnWire(w.affinity.value)) else None)
  }

  /** What both builders start from. */
  method BuildContainers(name: string, s: DebuggerSpec, pinger: Option<Pinger>, cms: ConfigMaps)
    returns (containers: seq<Container>, volumes: seq<Volume>)
    requires s.enablePinger ==> pinger.Some?
    ensures containers == Containers(name, s, pinger, cms) && volumes == Volumes(s, cms)
  {
    hide Envs, Mounts, Volumes;
    var mounts: seq<Mount>;
    volumes, mounts := GetVolumesMounts(s, cms);
    var envs := Envs(name, s, pinger);
    containers := [Container("debug", s.image, s.cpu, s.memory, envs, mounts)];
    if s.enablePinger {
      containers := containers + [Container("ping", pinger.value.image, s.cpu, s.memory, envs, mounts)];
    }
  }

  method GetDebuggerPod(
    name: string, s: DebuggerSpec, pinger: Option<Pinger>, kept: map<string, string>, cms: ConfigMaps)
    returns (pod: Workload)
    requires s.enablePinger ==> pinger.Some?
    requires KindOf(s.workloadType).Pod?
    ensures pod == WorkloadFor(name, s, pinger, kept, cms) && Carries(pod, SpecMirror(s))
  {
    CarriesIff(name, s, pinger, kept, cms, SpecMirror(s));
    hide Containers, Volumes, Annotations, Carries, Shows;
    assert Shows(SpecMirror(s), SpecMirror(s)) by { ShowsItself(SpecMirror(s)); }
    var containers, volumes := BuildContainers(name, s, pinger, cms);
    return Workload(Pod, name, Annotations(s, kept), s.nodeName, s.hostNetwork, containers, volumes, None, None, None);
  }

  method GetDebuggerDaemonset(
    name: string, s: DebuggerSpec, pinger: Option<Pinger>, kept: map<string, string>, cms: ConfigMaps)
    returns (ds: Workload)
    requires s.enablePinger ==> pinger.Some?
    requires KindOf(s.workloadType).DaemonSet?
    ensures ds == WorkloadFor(name, s, pinger, kept, cms) && Carries(ds, SpecMirror(s))
  {
    CarriesIff(name, s, pinger, kept, cms, SpecMirror(s));
    hide Containers, Volumes, Annotations, Fold, Carries, Shows;
    assert Shows(SpecMirror(s), SpecMirror(s)) by { ShowsItself(SpecMirror(s)); }
    var containers, volumes := BuildContainers(name, s, pinger, cms);
    var nodeSelector: Option<map<string, string>> := None;
    var tolerations: Option<seq<Toleration>> := None;
    var affinity: Option<Affinity> := None;
    if s.selector.Some? && |s.selector.value| > 0 {
      var selectors := ParseSelectors(s.selector.value);
      nodeSelector := Some(selectors);
    }
    if s.tolerations.Some? && |s.tolerations.value| > 0 {
      tolerations := s.tolerations;
    }
    if s.affinity.node.Some? || s.affinity.pod.Some? || s.affinity.antiPod.Some? {
      affinity := Some(s.affinity);
    }
    return Workload(DaemonSet, name, Annotations(s, kept), "", s.hostNetwork, containers, volumes,
                    nodeSelector, tolerations, affinity);
  }

  // ---------- reading a workload ----------

  /** The variable comes from the config map of this name. */
  predicate FromConfig(e: EnvVar, debuggerConfig: string) {
    debuggerConfig != "" && e.name in CONFIG_KEYS && e.source == ConfigKey(debuggerConfig, e.name)
  }

  /** What an environment says about the mirrored fields. */
  ghost predicate EnvSays(env: seq<EnvVar>, enableSys: bool, debuggerConfig: string) {
    && (exists e :: e in env && e.name == HOST_CHECK_LIST)
    && (forall e :: e in env && e.name == HOST_CHECK_LIST ==> e.source == Literal(BoolString(enableSys)))
    && (forall e :: e in env && e.source.ConfigKey? <==> FromConfig(e, debuggerConfig))
  }

  /** What the containers say about the mirrored fields. */
  ghost predicate ContainersCarry(containers: seq<Container>, m: Mirrored) {
    && |containers| == (if m.enablePinger then 2 else 1)
    && containers[0].image == m.image
    && forall c :: c in containers ==>
        c.cpu == m.cpu && c.memory == m.memory && EnvSays(c.env, m.enableSys, m.debuggerConfig)
  }

  function NonEmpty<T>(list: Option<seq<T>>): Option<seq<T>> {
    if list.Some? && |list.value| > 0 then list else None
  }

  /** The affinity of a workload as the API server has it; none is the one without pointers. */
  function AffinityOf(w: Workload): Affinity {
    if w.affinity.Some? then AffinityOnWire(w.affinity.value) else Affinity(None, None, None)
  }

  /** What a workload says about the mirrored fields, read off the workload itself. */
  ghost predicate Carries(w: Workload, m: Mirrored) {
    && w.kind == KindOf(m.workloadType)
    && ContainersCarry(w.containers, m)
    && w.hostNetwork == m.hostNetwork
    && INGRESS_RATE in w.annotations && w.annotations[INGRESS_RATE] == m.qosBandwidth
    && EGRESS_RATE in w.annotations && w.annotations[EGRESS_RATE] == m.qosBandwidth
    && (w.kind.Pod? ==> w.nodeName == m.nodeName)
    && (w.kind.DaemonSet? ==>
        NonEmpty(w.tolerations) == NonEmpty(m.tolerations) && AffinityOf(w) == AffinityOnWire(m.affinity))
  }

  /** A workload built from m is also what n asks for. */
  predicate Shows(m: Mirrored, n: Mirrored) {
    && KindOf(m.workloadType) == KindOf(n.workloadType)
    && m.image == n.image && m.cpu == n.cpu && m.memory == n.memory
    && m.enablePinger == n.enablePinger && m.enableSys == n.enableSys && m.debuggerConfig == n.debuggerConfig
    && m.hostNetwork == n.hostNetwork && m.qosBandwidth == n.qosBandwidth
    && (KindOf(m.workloadType).Pod? ==> m.nodeName == n.nodeName)
    && (KindOf(m.workloadType).DaemonSet? ==>
          && NonEmpty(m.tolerations) == NonEmpty(n.tolerations)
          && AffinityOnWire(m.affinity) == AffinityOnWire(n.affinity))
  }

  lemma ShowsItself(m: Mirrored)
    ensures Shows(m, m)
  {
  }

  lemma ConfigEnvsIff(s: string, e: EnvVar)
    ensures e in ConfigEnvs(s) <==> FromConfig(e, s)
  {
    if FromConfig(e, s) {
      var n :| 0 <= n < |CONFIG_KEYS| && CONFIG_KEYS[n] == e.name;
      assert ConfigEnvs(s)[n] == e;
    }
  }

  lemma OwnEnvsSay(name: string, s: DebuggerSpec)
    ensures forall e :: e in OwnEnvs(name, s) ==> !e.source.ConfigKey?
    ensures forall e :: e in OwnEnvs(name, s) && |e.name| == |HOST_CHECK_LIST| ==>
              e == EnvVar(HOST_CHECK_LIST, Literal(BoolString(s.enableSys)))
    ensures EnvVar(HOST_CHECK_LIST, Literal(BoolString(s.enableSys))) in OwnEnvs(name, s)
  {
    assert OwnEnvs(name, s)[6] == EnvVar(HOST_CHECK_LIST, Literal(BoolString(s.enableSys)));
  }

  lemma PingerEnvsSay(pinger: Option<Pinger>)
    ensures forall e :: e in PingerEnvs(pinger) ==> !e.source.ConfigKey? && |e.name| != |HOST_CHECK_LIST|
  {
  }

  lemma ConfigKeysSay(e: EnvVar, s: string)
    requires FromConfig(e, s)
    ensures |e.name| != |HOST_CHECK_LIST|
  {
    assert forall n :: 0 <= n < |CONFIG_KEYS| ==> |CONFIG_KEYS[n]| <= 12;
  }

  /** The one variable that says whether the host is checked, and the ones that come from a config map. */
  lemma EnvsSay(name: string, s: DebuggerSpec, pinger: Option<Pinger>, e: EnvVar)
    ensures e in Envs(name, s, pinger) && e.name == HOST_CHECK_LIST <==>
            e == EnvVar(HOST_CHECK_LIST, Literal(BoolString(s.enableSys)))
    ensures e in Envs(name, s, pinger) && e.source.ConfigKey? <==> FromConfig(e, s.debuggerConfig)
  {
    OwnEnvsSay(name, s);
    PingerEnvsSay(pinger);
    ConfigEnvsIff(s.debuggerConfig, e);
    if FromConfig(e, s.debuggerConfig) {
      ConfigKeysSay(e, s.debuggerConfig);
    }
    hide OwnEnvs, PingerEnvs, ConfigEnvs, BoolString;
  }

  /** The facts of EnvsSay determine what an environment says. */
  lemma EnvSaysOf(env: seq<EnvVar>, sys: bool, config: string, enableSys: bool, debuggerConfig: string)
    requires forall e :: e in env && e.name == HOST_CHECK_LIST <==>
        e == EnvVar(HOST_CHECK_LIST, Literal(BoolString(sys)))
    requires forall e :: e in env && e.source.ConfigKey? <==> FromConfig(e, config)
    ensures EnvSays(env, enableSys, debuggerConfig) <==> sys == enableSys && config == debuggerConfig
  {
    var check := EnvVar(HOST_CHECK_LIST, Literal(BoolString(sys)));
    assert check in env;
    assert BoolString(enableSys) == BoolString(sys) <==> enableSys == sys by {
      assert |"true"| != |"false"|;
    }
    var level := CONFIG_KEYS[0];
    var mine, yours := EnvVar(level, ConfigKey(config, level)), EnvVar(level, ConfigKey(debuggerConfig, level));
    assert config != "" <==> FromConfig(mine, config);
    assert debuggerConfig != "" <==> FromConfig(yours, debuggerConfig);
    assert FromConfig(mine, debuggerConfig) ==> config == debuggerConfig;
    assert FromConfig(yours, config) ==> config == debuggerConfig;
    hide FromConfig, BoolString;
  }

  lemma EnvSaysIff(name: string, s: DebuggerSpec, pinger: Option<Pinger>, enableSys: bool, debuggerConfig: string)
    ensures EnvSays(Envs(name, s, pinger), enableSys, debuggerConfig) <==>
            s.enableSys == enableSys && s.debuggerConfig == debuggerConfig
  {
    hide Envs, BoolString, FromConfig, EnvSays;
    forall e
      ensures e in Envs(name, s, pinger) && e.name == HOST_CHECK_LIST <==>
              e == EnvVar(HOST_CHECK_LIST, Literal(BoolString(s.enableSys)))
      ensures e in Envs(name, s, pinger) && e.source.ConfigKey? <==> FromConfig(e, s.debuggerConfig)
    {
      EnvsSay(name, s, pinger, e);
    }
    EnvSaysOf(Envs(name, s, pinger), s.enableSys, s.debuggerConfig, enableSys, debuggerConfig);
  }

  lemma AnnotationsSay(s: DebuggerSpec, kept: map<string, string>)
    ensures INGRESS_RATE in Annotations(s, kept) && Annotations(s, kept)[INGRESS_RATE] == s.qosBandwidth
    ensures EGRESS_RATE in Annotations(s, kept) && Annotations(s, kept)[EGRESS_RATE] == s.qosBandwidth
  {
    assert |INGRESS_RATE| != |EGRESS_RATE|;
  }

  lemma ContainersSay(name: string, s: DebuggerSpec, pinger: Option<Pinger>, cms: ConfigMaps, n: Mirrored)
    requires s.enablePinger ==> pinger.Some?
    ensures ContainersCarry(Containers(name, s, pinger, cms), n) <==>
            && s.enablePinger == n.enablePinger && s.image == n.image && s.cpu == n.cpu && s.memory == n.memory
            && s.enableSys == n.enableSys && s.debuggerConfig == n.debuggerConfig
  {
    EnvSaysIff(name, s, pinger, n.enableSys, n.debuggerConfig);
    hide Envs, Mounts, EnvSays;
    var containers := Containers(name, s, pinger, cms);
    assert containers[0] in containers;
    assert forall c :: c in containers ==> c.cpu == s.cpu && c.memory == s.memory && c.env == Envs(name, s, pinger);
  }

  /** Storing a workload does not change what it carries. */
  lemma CarriesOnWire(w: Workload, n: Mirrored)
    ensures Carries(WorkloadOnWire(w), n) <==> Carries(w, n)
  {
    hide ContainersCarry;
  }

  /** A workload carries exactly the mirrors that ask for the same as the one it was built from. */
  lemma CarriesIff(
    name: string, s: DebuggerSpec, pinger: Option<Pinger>, kept: map<string, string>, cms: ConfigMaps, n: Mirrored)
    requires s.enablePinger ==> pinger.Some?
    ensures Carries(WorkloadFor(name, s, pinger, kept, cms), n) <==> Shows(SpecMirror(s), n)
  {
    AnnotationsSay(s, kept);
    ContainersSay(name, s, pinger, cms, n);
    hide Annotations, Containers, ContainersCarry, Volumes, Fold, AffinityOnWire;
    assert AffinityOnWire(Affinity(None, None, None)) == Affinity(None, None, None) by { NoAffinityOnWire(); }
  }

  // ---------- reading the mounted config maps ----------

  predicate WantsScripts(m: Mirrored) {
    m.enableConfigMap && m.configMap != ""
  }

  /** The volumes that come from config maps are exactly those that m asks for. */
  ghost predicate VolumesSay(volumes: seq<Volume>, m: Mirrored) {
    && (forall v :: v in volumes && v.ConfigMapItems? ==> WantsScripts(m) && v.name == m.configMap)
    && (WantsScripts(m) ==> exists v :: v in volumes && v.ConfigMapItems?)
    && (forall v :: v in volumes && v.ConfigMapAll? <==> m.runAt != "" && v == ConfigMapAll(m.runAt))
  }

  /** What is mounted for scripts and for tasks is exactly what m asks for. */
  ghost predicate MountsSay(mounts: seq<Mount>, m: Mirrored) {
    && (forall mount :: mount in mounts && mount.path == SCRIPTS_PATH <==>
        WantsScripts(m) && mount == Mount(m.configMap, SCRIPTS_PATH, true))
    && (forall mount :: mount in mounts && mount.path == TASKS_PATH <==>
        m.runAt != "" && mount == Mount(m.runAt, TASKS_PATH, true))
  }

  /** The config maps of the mirrored fields, and no others, are volumes and are mounted in every container. */
  ghost predicate MountsConfig(w: Workload, m: Mirrored) {
    VolumesSay(w.volumes, m) && forall c :: c in w.containers ==> MountsSay(c.mounts, m)
  }

  predicate SameConfig(m: Mirrored, n: Mirrored) {
    && WantsScripts(m) == WantsScripts(n)
    && (WantsScripts(n) ==> m.configMap == n.configMap)
    && m.runAt == n.runAt
  }

  /** What the config maps that could be read at the build make of the mirror of s. */
  predicate Provides(s: DebuggerSpec, cms: ConfigMaps, n: Mirrored) {
    if Readable(s, cms) then SameConfig(SpecMirror(s), n) else !WantsScripts(n) && n.runAt == ""
  }

  lemma HostPathsElsewhere(paths: HostPaths)
    requires paths == BASE_PATHS || paths == SYS_PATHS
    ensures forall m :: m in HostMounts(paths) ==> |m.path| > |SCRIPTS_PATH|
    ensures forall v :: v in HostVolumes(paths) ==> v.HostPath?
  {
    assert forall n :: 0 <= n < |BASE_PATHS| ==> |BASE_PATHS[n].1| > 8;
    assert forall n :: 0 <= n < |SYS_PATHS| ==> |SYS_PATHS[n].1| > 8;
  }

  /** The lists that come from the host, and the parts that come from config maps. */
  lemma Parts(s: DebuggerSpec, cms: ConfigMaps) returns (volumes: seq<Volume>, mounts: seq<Mount>)
    requires Readable(s, cms)
    ensures Volumes(s, cms) == volumes
              + (if NeedsScripts(s) then [ConfigMapItems(s.configMap, Scripts(cms[s.configMap]), SCRIPTS_MODE)] else [])
              + (if s.runAt != "" then [ConfigMapAll(s.runAt)] else [])
    ensures Mounts(s, cms) == mounts
              + (if NeedsScripts(s) then [Mount(s.configMap, SCRIPTS_PATH, true)] else [])
              + (if s.runAt != "" then [Mount(s.runAt, TASKS_PATH, true)] else [])
    ensures forall v :: v in volumes ==> v.HostPath?
    ensures forall m :: m in mounts ==> |m.path| > |SCRIPTS_PATH|
  {
    volumes := HostVolumes(BASE_PATHS) + if s.enableSys then HostVolumes(SYS_PATHS) else [];
    mounts := HostMounts(BASE_PATHS) + if s.enableSys then HostMounts(SYS_PATHS) else [];
    HostPathsElsewhere(BASE_PATHS);
    HostPathsElsewhere(SYS_PATHS);
    hide HostVolumes, HostMounts;
  }

  /** The config maps that m asks for, after volumes of the host. */
  function WithConfigVolumes(host: seq<Volume>, m: Mirrored, scripts: set<string>): seq<Volume> {
    host + (if WantsScripts(m) then [ConfigMapItems(m.configMap, scripts, SCRIPTS_MODE)] else [])
    + (if m.runAt != "" then [ConfigMapAll(m.runAt)] else [])
  }

  function WithConfigMounts(host: seq<Mount>, m: Mirrored): seq<Mount> {
    host + (if WantsScripts(m) then [Mount(m.configMap, SCRIPTS_PATH, true)] else [])
    + (if m.runAt != "" then [Mount(m.runAt, TASKS_PATH, true)] else [])
  }

  lemma ConfigVolumesSay(host: seq<Volume>, m: Mirrored, scripts: set<string>, n: Mirrored)
    requires forall v :: v in host ==> v.HostPath?
    ensures VolumesSay(WithConfigVolumes(host, m, scripts), n) <==> SameConfig(m, n)
  {
    var all := WithConfigVolumes(host, m, scripts);
    assert WantsScripts(m) ==> all[|host|].ConfigMapItems?;
    assert m.runAt != "" ==> all[|all| - 1] == ConfigMapAll(m.runAt);
    assert ConfigMapAll(n.runAt) in all <==> ConfigMapAll(n.runAt) in all && ConfigMapAll(n.runAt).ConfigMapAll?;
  }

  lemma ConfigMountsSay(host: seq<Mount>, m: Mirrored, n: Mirrored)
    requires forall mount :: mount in host ==> |mount.path| > |SCRIPTS_PATH|
    ensures MountsSay(WithConfigMounts(host, m), n) <==> SameConfig(m, n)
  {
    assert |SCRIPTS_PATH| == 8 && |TASKS_PATH| == 6;
    var all := WithConfigMounts(host, m);
    forall mount
      ensures mount in all && mount.path == SCRIPTS_PATH <==>
          WantsScripts(m) && mount == Mount(m.configMap, SCRIPTS_PATH, true)
      ensures mount in all && mount.path == TASKS_PATH <==> m.runAt != "" && mount == Mount(m.runAt, TASKS_PATH, true)
    {
      assert WantsScripts(m) ==> all[|host|] == Mount(m.configMap, SCRIPTS_PATH, true);
      assert m.runAt != "" ==> all[|all| - 1] == Mount(m.runAt, TASKS_PATH, true);
    }
    hide WithConfigMounts;
    var scripts, tasks := Mount(n.configMap, SCRIPTS_PATH, true), Mount(n.runAt, TASKS_PATH, true);
    assert scripts in all <==> scripts in all && scripts.path == SCRIPTS_PATH;
    assert tasks in all <==> tasks in all && tasks.path == TASKS_PATH;
    assert WantsScripts(m) ==> Mount(m.configMap, SCRIPTS_PATH, true) in all;
    assert m.runAt != "" ==> Mount(m.runAt, TASKS_PATH, true) in all;
  }

  lemma VolumesSayIff(s: DebuggerSpec, cms: ConfigMaps, n: Mirrored)
    ensures VolumesSay(Volumes(s, cms), n) <==> Provides(s, cms, n)
  {
    if Readable(s, cms) {
      var volumes, mounts := Parts(s, cms);
      var scripts := if NeedsScripts(s) then Scripts(cms[s.configMap]) else {};
      assert Volumes(s, cms) == WithConfigVolumes(volumes, SpecMirror(s), scripts);
      hide Volumes, Mounts, Scripts, WithConfigVolumes, VolumesSay, SameConfig;
      ConfigVolumesSay(volumes, SpecMirror(s), scripts, n);
    } else {
      assert ConfigMapAll(n.runAt) !in Volumes(s, cms);
    }
  }

  lemma MountsSayIff(s: DebuggerSpec, cms: ConfigMaps, n: Mirrored)
    ensures MountsSay(Mounts(s, cms), n) <==> Provides(s, cms, n)
  {
    if Readable(s, cms) {
      var volumes, mounts := Parts(s, cms);
      assert Mounts(s, cms) == WithConfigMounts(mounts, SpecMirror(s));
      hide Volumes, Mounts, WithConfigMounts, MountsSay, SameConfig;
      ConfigMountsSay(mounts, SpecMirror(s), n);
    } else {
      assert Mount(n.configMap, SCRIPTS_PATH, true) !in Mounts(s, cms);
      assert Mount(n.runAt, TASKS_PATH, true) !in Mounts(s, cms);
    }
  }

  /** A workload mounts exactly the config maps of the mirrors that ask for what the build could provide. */
  lemma MountsConfigIff(
    name: string, s: DebuggerSpec, pinger: Option<Pinger>, kept: map<string, string>, cms: ConfigMaps, n: Mirrored)
    requires s.enablePinger ==> pinger.Some?
    ensures MountsConfig(WorkloadOnWire(WorkloadFor(name, s, pinger, kept, cms)), n) <==> Provides(s, cms, n)
  {
    VolumesSayIff(s, cms, n);
    MountsSayIff(s, cms, n);
    hide Envs, Mounts, Volumes, VolumesSay, MountsSay, Provides, Annotations, Fold;
    var w := WorkloadOnWire(WorkloadFor(name, s, pinger, kept, cms));
    assert w.volumes == Volumes(s, cms) && w.containers == Containers(name, s, pinger, cms);
    assert w.containers[0] in w.containers && w.containers[0].mounts == Mounts(s, cms);
    assert forall c :: c in w.containers ==> c.mounts == Mounts(s, cms);
  }

  /**
    The config maps of the specification are volumes and mounts exactly when all of them could be read at the
    build.
   */
  lemma BuiltMountsIff(
    name: string, s: DebuggerSpec, pinger: Option<Pinger>, kept: map<string, string>, cms: ConfigMaps)
    requires s.enablePinger ==> pinger.Some?
    ensures MountsConfig(WorkloadOnWire(WorkloadFor(name, s, pinger, kept, cms)), SpecMirror(s)) <==> Readable(s, cms)
  {
    MountsConfigIff(name, s, pinger, kept, cms, SpecMirror(s));
    hide MountsConfig, WorkloadFor, WorkloadOnWire;
  }

  // ---------- the variables, by name ----------

  /** What a container finds under the name of a variable: the first one counts. */
  function SourceOf(env: seq<EnvVar>, name: string): Option<Source> {
    if env == [] then None
    else if env[0].name == name then Some(env[0].source)
    else SourceOf(env[1..], name)
  }

  lemma {:induction false} SourceAt(env: seq<EnvVar>, n: nat, m: nat)
    requires m <= n < |env|
    requires forall k :: 0 <= k < n ==> env[k].name != env[n].name
    ensures SourceOf(env[m..], env[n].name) == Some(env[n].source)
    decreases n - m
  {
    assert env[m..][1..] == env[m + 1..] && env[m..][0] == env[m];
    if m < n {
      SourceAt(env, n, m + 1);
    }
  }

  lemma SourceFirst(env: seq<EnvVar>, n: nat)
    requires n < |env|
    requires forall k :: 0 <= k < n ==> env[k].name != env[n].name
    ensures SourceOf(env, env[n].name) == Some(env[n].source)
  {
    assert env[0..] == env;
    SourceAt(env, n, 0);
  }

  const VARIABLES: seq<string> := [
    "POD_NAME", "POD_NAMESPACE", "NODE_NAME", "POD_IP", "HOST_IP", "HOST_NETWORK", "HOST_CHECK_LIST", "DS_NAME",
    "SUBNET", "ENABLE_METRICS", "PING", "TCP_PING", "UDP_PING", "DNS"]

  lemma VariablesDiffer()
    ensures forall j, k :: 0 <= j < k < 14 ==> VARIABLES[j] != VARIABLES[k]
  {
    var v := VARIABLES;
    assert |v[0]| == 8 && |v[1]| == 13 && |v[2]| == 9 && |v[3]| == 6 && |v[4]| == 7 && |v[5]| == 12 && |v[6]| == 15;
    assert |v[7]| == 7 && |v[8]| == 6 && |v[9]| == 14 && |v[10]| == 4 && |v[11]| == 8 && |v[12]| == 8 && |v[13]| == 3;
    assert v[3][0] == 'P' && v[8][0] == 'S' && v[4][0] == 'H' && v[7][0] == 'D';
    assert v[0][0] == 'P' && v[11][0] == 'T' && v[12][0] == 'U';
  }

  /** The variables that a Debugger sets itself, whatever comes after them. */
  lemma OwnVariables(name: string, s: DebuggerSpec, more: seq<EnvVar>)
    ensures var env := OwnEnvs(name, s) + more;
            && SourceOf(env, "POD_NAME") == Some(FieldRef("metadata.name"))
            && SourceOf(env, "POD_NAMESPACE") == Some(FieldRef("metadata.namespace"))
            && SourceOf(env, "NODE_NAME") == Some(FieldRef("spec.nodeName"))
            && SourceOf(env, "POD_IP") == Some(FieldRef("status.podIP"))
            && SourceOf(env, "HOST_IP") == Some(FieldRef("status.hostIP"))
            && SourceOf(env, "HOST_NETWORK") == Some(Literal(if s.hostNetwork then "true" else "false"))
            && SourceOf(env, "HOST_CHECK_LIST") == Some(Literal(if s.enableSys then "true" else "false"))
            && SourceOf(env, "DS_NAME") == Some(Literal(if s.workloadType == "daemonset" then name else ""))
            && SourceOf(env, "SUBNET") == Some(Literal(if s.hostNetwork then "" else s.subnet))
  {
    var env := OwnEnvs(name, s) + more;
    VariablesDiffer();
    assert forall k :: 0 <= k < 9 ==> env[k].name == VARIABLES[k];
    hide SourceOf;
    SourceFirst(env, 0);
    SourceFirst(env, 1);
    SourceFirst(env, 2);
    SourceFirst(env, 3);
    SourceFirst(env, 4);
    SourceFirst(env, 5);
    SourceFirst(env, 6);
    SourceFirst(env, 7);
    SourceFirst(env, 8);
  }

  /** The variables that come from a Pinger. */
  lemma PingerVariables(name: string, s: DebuggerSpec, p: Pinger, more: seq<EnvVar>)
    ensures var env := OwnEnvs(name, s) + PingerEnvs(Some(p)) + more;
            && SourceOf(env, "ENABLE_METRICS") == Some(Literal(if p.enableMetrics then "true" else "false"))
            && SourceOf(env, "PING") == Some(Literal(p.ping))
            && SourceOf(env, "TCP_PING") == Some(Literal(p.tcpPing))
            && SourceOf(env, "UDP_PING") == Some(Literal(p.udpPing))
            && SourceOf(env, "DNS") == Some(Literal(p.dns))
  {
    var env := OwnEnvs(name, s) + PingerEnvs(Some(p)) + more;
    VariablesDiffer();
    assert forall k :: 0 <= k < 14 ==> env[k].name == VARIABLES[k];
    hide SourceOf;
    SourceFirst(env, 9);
    SourceFirst(env, 10);
    SourceFirst(env, 11);
    SourceFirst(env, 12);
    SourceFirst(env, 13);
  }

  /** A key of a config map is a script if its name ends like one; only scripts are mounted, and executable. */
  predicate EndsInSh(key: string) {
    |key| >= 3 && key[|key| - 3] == '.' && key[|key| - 2] == 's' && key[|key| - 1] == 'h'
  }

  lemma ScriptsAreMounted(s: DebuggerSpec, cms: ConfigMaps, v: Volume, key: string)
    requires v in Volumes(s, cms) && v.ConfigMapItems?
    ensures s.enableConfigMap && s.configMap != "" && s.configMap in cms && v.name == s.configMap
    ensures v.mode == 7 * 64 + 5 * 8 + 5
    ensures key in v.items <==> cms[s.configMap].Some? && key in cms[s.configMap].value && EndsInSh(key)
  {
    HostPathsElsewhere(BASE_PATHS);
    HostPathsElsewhere(SYS_PATHS);
    hide HostVolumes;
    assert |key| >= 3 ==> key[|key| - 3..] == [key[|key| - 3], key[|key| - 2], key[|key| - 1]];
    assert IsScript(key) <==> EndsInSh(key);
  }

  /** The rest of a workload: its containers in order, and what only a Pod or only a DaemonSet has. */
  lemma WorkloadSays(
    name: string, s: DebuggerSpec, pinger: Option<Pinger>, kept: map<string, string>, cms: ConfigMaps)
    requires s.enablePinger ==> pinger.Some?
    ensures var w := WorkloadFor(name, s, pinger, kept, cms);
            && w.name == name && (w.kind.Pod? <==> s.workloadType == "pod")
            && w.nodeName == (if w.kind.Pod? then s.nodeName else "")
            && (w.nodeSelector.Some? <==> w.kind.DaemonSet? && NonEmpty(s.selector).Some?)
            && (w.nodeSelector.Some? ==> IsSelection(s.selector.value, w.nodeSelector.value))
            && (w.kind.Pod? ==> w.tolerations == None && w.affinity == None)
            && |w.containers| == (if s.enablePinger then 2 else 1)
            && w.containers[0].name == "debug" && w.containers[0].image == s.image
            && (s.enablePinger ==> w.containers[1].name == "ping" && w.containers[1].image == pinger.value.image)
  {
    if s.selector.Some? {
      FoldSelects(s.selector.value);
    }
    hide Envs, Mounts, Volumes, Fold, IsSelection, Annotations;
  }

  /** The annotations that the specification decides, and the ones that were there. */
  lemma KeepsAnnotations(
    name: string, s: DebuggerSpec, pinger: Option<Pinger>, kept: map<string, string>, cms: ConfigMaps, k: string)
    requires s.enablePinger ==> pinger.Some?
    ensures var stored := WorkloadFor(name, s, pinger, kept, cms).annotations;
            if k == LOGICAL_SWITCH then k in stored && stored[k] == s.subnet
            else if k in {INGRESS_RATE, EGRESS_RATE} then k in stored && stored[k] == s.qosBandwidth
            else (k in stored <==> k in kept) && (k in kept ==> stored[k] == kept[k])
  {
    assert |INGRESS_RATE| == 30 && |EGRESS_RATE| == 29 && |LOGICAL_SWITCH| == 32;
    hide Containers, Volumes, Fold;
  }

  /** Every container of a workload has these variables. */
  lemma VariablesSay(
    name: string, s: DebuggerSpec, pinger: Option<Pinger>, kept: map<string, string>, cms: ConfigMaps, c: Container)
    requires s.enablePinger ==> pinger.Some?
    requires c in WorkloadFor(name, s, pinger, kept, cms).containers
    ensures c.cpu == s.cpu && c.memory == s.memory
    ensures SourceOf(c.env, "POD_NAME") == Some(FieldRef("metadata.name"))
    ensures SourceOf(c.env, "POD_NAMESPACE") == Some(FieldRef("metadata.namespace"))
    ensures SourceOf(c.env, "NODE_NAME") == Some(FieldRef("spec.nodeName"))
    ensures SourceOf(c.env, "POD_IP") == Some(FieldRef("status.podIP"))
    ensures SourceOf(c.env, "HOST_IP") == Some(FieldRef("status.hostIP"))
    ensures SourceOf(c.env, "HOST_NETWORK") == Some(Literal(if s.hostNetwork then "true" else "false"))
    ensures SourceOf(c.env, "HOST_CHECK_LIST") == Some(Literal(if s.enableSys then "true" else "false"))
    ensures SourceOf(c.env, "DS_NAME") == Some(Literal(if s.workloadType == "daemonset" then name else ""))
    ensures SourceOf(c.env, "SUBNET") == Some(Literal(if s.hostNetwork then "" else s.subnet))
    ensures pinger.Some? ==>
              var p := pinger.value;
              && SourceOf(c.env, "ENABLE_METRICS") == Some(Literal(if p.enableMetrics then "true" else "false"))
              && SourceOf(c.env, "PING") == Some(Literal(p.ping))
              && SourceOf(c.env, "TCP_PING") == Some(Literal(p.tcpPing))
              && SourceOf(c.env, "UDP_PING") == Some(Literal(p.udpPing))
              && SourceOf(c.env, "DNS") == Some(Literal(p.dns))
  {
    assert c.cpu == s.cpu && c.memory == s.memory && c.env == Envs(name, s, pinger) by {
      hide Envs, Mounts, Volumes, Fold, Annotations;
    }
    var own, ping, config := OwnEnvs(name, s), PingerEnvs(pinger), ConfigEnvs(s.debuggerConfig);
    assert Envs(name, s, pinger) == own + (ping + config) == own + ping + config;
    hide *;
    OwnVariables(name, s, ping + config);
    if pinger.Some? {
      PingerVariables(name, s, pinger.value, config);
    }
  }
}
