/** The workload built for a gateway: a StatefulSet, or a DaemonSet that installs static pods. */
module GatewayWorkload {
  import opened Api
  import opened GoStrings
  import opened GatewayTypes
  import opened Selectors
  import opened Keepalived

  datatype EnvVar = EnvVar(name: string, value: string)

  datatype Port = Port(name: string, protocol: string, number: int)

  datatype Container = Container(
    name: string, image: string, cpu: string, memory: string, ports: seq<Port>, env: seq<EnvVar>, mounts: seq<string>)

  datatype Kind = StatefulSet | DaemonSet

  datatype Workload = Workload(
    kind: Kind,
    key: Key,
    replicas: Option<int>,
    labels: map<string, string>,
    annotations: map<string, string>,
    containers: seq<Container>,
    volumes: seq<string>,
    hostNetwork: bool,
    nodeSelector: Option<map<string, string>>,
    tolerations: Option<seq<Toleration>>,
    affinity: Option<Affinity>)

  /** The settings of the reconciler that reach a workload. */
  datatype Config = Config(
    sslVpnTCP: string, sslVpnUDP: string, ipsecIsakmpPort: string, ipsecNatPort: string, k8sManifestsPath: string)

  const ENABLE_SSL_VPN_LABEL := "enable-ssl-vpn"
  const ENABLE_IPSEC_VPN_LABEL := "enable-ipsec-vpn"
  const SSL_VPN_SERVER := "ssl-vpn"
  const IPSEC_VPN_SERVER := "ipsec-vpn"
  const KEEPALIVED_SERVER := "keepalived"
  const KEEPALIVED_VIRTUAL_ROUTER_ID := "KEEPALIVED_VIRTUAL_ROUTER_ID"
  const K8S_MANIFESTS := "k8s-manifests"
  const SSL_VPN_CACHE := "openvpn-cache"
  const IPSEC_VPN_CACHE := "strongswan-cache"

  // ---------- the parts ----------

  function SslVpnPort(cfg: Config, gw: VpnGw): string {
    if gw.spec.sslVpnProto == "tcp" then cfg.sslVpnTCP else cfg.sslVpnUDP
  }

  /** The number of a port that parses. */
  function PortOf(text: string): int {
    var port := GetPort(text);
    if port.Some? then port.value else 0
  }

  /** strings.ToUpper on the protocols that validation lets pass. */
  function ToUpper(s: string): string {
    seq(|s|, n requires 0 <= n < |s| => if 'a' <= s[n] <= 'z' then s[n] - 32 as char else s[n])
  }

  function SslContainer(cfg: Config, gw: VpnGw, kind: Kind, vip: string): Container {
    var s := gw.spec;
    Container(
      SSL_VPN_SERVER, s.sslVpnImage, s.cpu, s.memory,
      [Port(SSL_VPN_SERVER, ToUpper(s.sslVpnProto), PortOf(SslVpnPort(cfg, gw)))],
      [EnvVar("SSL_VPN_PROTO", s.sslVpnProto),
       EnvVar("SSL_VPN_PORT", SslVpnPort(cfg, gw)),
       EnvVar("SSL_VPN_CIPHER", s.sslVpnCipher),
       EnvVar("SSL_VPN_AUTH", s.sslVpnAuth),
       EnvVar("SSL_VPN_SUBNET_CIDR", s.sslVpnSubnetCidr),
       EnvVar("KEEPALIVED_VIP", vip),
       EnvVar("K8S_MANIFESTS_PATH", cfg.k8sManifestsPath),
       EnvVar("SSL_VPN_IMAGE", s.sslVpnImage)],
      (if kind.DaemonSet? then [K8S_MANIFESTS, SSL_VPN_CACHE] else []) + [s.sslVpnSecret, s.dhSecret])
  }

  function SslVolumes(gw: VpnGw, kind: Kind): seq<string> {
    (if kind.DaemonSet? then [SSL_VPN_CACHE] else []) + [gw.spec.sslVpnSecret, gw.spec.dhSecret]
  }

  function IPSecSecrets(gw: VpnGw): seq<string> {
    if gw.spec.ipsecEnablePSK then [] else [gw.spec.ipsecSecret]
  }

  function IPSecContainer(cfg: Config, gw: VpnGw, kind: Kind): Container {
    var s := gw.spec;
    Container(
      IPSEC_VPN_SERVER, s.ipsecVpnImage, s.cpu, s.memory,
      [Port("isakmp", "UDP", PortOf(cfg.ipsecIsakmpPort)), Port("nat", "UDP", PortOf(cfg.ipsecNatPort))],
      [EnvVar("K8S_MANIFESTS_PATH", cfg.k8sManifestsPath), EnvVar("IPSEC_VPN_IMAGE", s.ipsecVpnImage)],
      (if kind.DaemonSet? then [K8S_MANIFESTS, IPSEC_VPN_CACHE] else []) + IPSecSecrets(gw))
  }

  function IPSecVolumes(gw: VpnGw, kind: Kind): seq<string> {
    (if kind.DaemonSet? then [IPSEC_VPN_CACHE] else []) + IPSecSecrets(gw)
  }

  function KeepalivedContainer(gw: VpnGw, ka: KeepAlived): Container {
    Container(
      KEEPALIVED_SERVER, ka.spec.image, gw.spec.cpu, gw.spec.memory,
      [],
      [EnvVar("KEEPALIVED_VIP", ka.spec.vipV4),
       EnvVar(KEEPALIVED_VIRTUAL_ROUTER_ID, Itoa(ka.routerID)),
       EnvVar("KEEPALIVED_NIC", ka.spec.nic)],
      [])
  }

  function BoolString(b: bool): string {
    if b then "true" else "false"
  }

  function Labels(gw: VpnGw): map<string, string> {
    map[ENABLE_SSL_VPN_LABEL := BoolString(gw.spec.enableSslVpn),
        ENABLE_IPSEC_VPN_LABEL := BoolString(gw.spec.enableIPSecVpn),
        VPN_GW_LABEL := gw.key.name]
  }

  function Annotations(gw: VpnGw, ka: Option<KeepAlived>, kept: map<string, string>): map<string, string> {
    kept[LOGICAL_SWITCH := if ka.Some? then ka.value.spec.subnet else ""]
        [INGRESS_RATE := gw.spec.qosBandwidth]
        [EGRESS_RATE := gw.spec.qosBandwidth]
  }

  function NonEmpty<T>(list: Option<seq<T>>): Option<seq<T>> {
    if list.Some? && |list.value| > 0 then list else None
  }

  // ---------- the whole ----------

  function KindOf(gw: VpnGw): Kind {
    if gw.spec.workloadType == "statefulset" then StatefulSet else DaemonSet
  }

  predicate PortsParse(cfg: Config, gw: VpnGw) {
    && (gw.spec.enableSslVpn ==> GetPort(SslVpnPort(cfg, gw)).Some?)
    && (gw.spec.enableIPSecVpn ==> GetPort(cfg.ipsecIsakmpPort).Some? && GetPort(cfg.ipsecNatPort).Some?)
  }

  function Containers(cfg: Config, gw: VpnGw, ka: Option<KeepAlived>, kind: Kind): seq<Container> {
    (if gw.spec.enableSslVpn then [SslContainer(cfg, gw, kind, if ka.Some? then ka.value.spec.vipV4 else "")] else [])
    + (if gw.spec.enableIPSecVpn then [IPSecContainer(cfg, gw, kind)] else [])
    + (if ka.Some? then [KeepalivedContainer(gw, ka.value)] else [])
  }

  function Volumes(gw: VpnGw, kind: Kind): seq<string> {
    (if gw.spec.enableSslVpn then SslVolumes(gw, kind) else [])
    + (if gw.spec.enableIPSecVpn then IPSecVolumes(gw, kind) else [])
    + (if kind.DaemonSet? then [K8S_MANIFESTS] else [])
  }

  /** What a build amounts to. None is the nil that a builder returns for a port that does not parse. */
  function WorkloadFor(cfg: Config, gw: VpnGw, ka: Option<KeepAlived>, kept: map<string, string>): Option<Workload> {
    var kind := KindOf(gw);
    if !PortsParse(cfg, gw) then None
    else Some(Workload(
      kind,
      gw.key,
      if kind.StatefulSet? then Some(gw.spec.replicas) else None,
      Labels(gw),
      Annotations(gw, ka, kept),
      Containers(cfg, gw, ka, kind),
      Volumes(gw, kind),
      kind.DaemonSet?,
      if NonEmpty(gw.spec.selector).Some? then Some(Fold(gw.spec.selector.value)) else None,
      NonEmpty(gw.spec.tolerations),
      if gw.spec.affinity == Affinity(None, None, None) then None else Some(gw.spec.affinity)))
  }

  /** The scheduling constraints, which both builders set last. */
  method Scheduling(gw: VpnGw)
    returns (
      nodeSelector: Option<map<string, string>>, tolerations: Option<seq<Toleration>>, affinity: Option<Affinity>)
    ensures nodeSelector == if NonEmpty(gw.spec.selector).Some? then Some(Fold(gw.spec.selector.value)) else None
    ensures tolerations == NonEmpty(gw.spec.tolerations)
    ensures affinity == if gw.spec.affinity == Affinity(None, None, None) then None else Some(gw.spec.affinity)
  {
    nodeSelector, tolerations, affinity := None, None, None;
    if gw.spec.selector.Some? && |gw.spec.selector.value| > 0 {
      var selectors := ParseSelectors(gw.spec.selector.value);
      nodeSelector := Some(selectors);
    }
    if gw.spec.tolerations.Some? && |gw.spec.tolerations.value| > 0 {
      tolerations := gw.spec.tolerations;
    }
    if gw.spec.affinity.node.Some? || gw.spec.affinity.pod.Some? || gw.spec.affinity.antiPod.Some? {
      affinity := Some(gw.spec.affinity);
    }
  }

  /** The StatefulSet builder reads the KeepAlived without asking whether there is one. */
  method StatefulSetForVpnGw(cfg: Config, gw: VpnGw, ka: KeepAlived, kept: map<string, string>)
    returns (sts: Option<Workload>)
    requires KindOf(gw).StatefulSet?
    ensures sts == WorkloadFor(cfg, gw, Some(ka), kept)
  {
    hide SslContainer, IPSecContainer, KeepalivedContainer, SslVolumes, IPSecVolumes, Labels, Annotations,
         Fold, NonEmpty, GetPort, SslVpnPort;
    var containers: seq<Container> := [];
    var volumes: seq<string> := [];
    if gw.spec.enableSslVpn {
      var port := GetPort(SslVpnPort(cfg, gw));
      if port.None? {
        return None;
      }
      volumes := volumes + SslVolumes(gw, StatefulSet);
      containers := containers + [SslContainer(cfg, gw, StatefulSet, ka.spec.vipV4)];
    }
    if gw.spec.enableIPSecVpn {
      var isakmp, natt := GetPort(cfg.ipsecIsakmpPort), GetPort(cfg.ipsecNatPort);
      if isakmp.None? || natt.None? {
        return None;
      }
      volumes := volumes + IPSecVolumes(gw, StatefulSet);
      containers := containers + [IPSecContainer(cfg, gw, StatefulSet)];
    }
    containers := containers + [KeepalivedContainer(gw, ka)];
    assert containers == Containers(cfg, gw, Some(ka), StatefulSet) && volumes == Volumes(gw, StatefulSet);
    var nodeSelector, tolerations, affinity := Scheduling(gw);
    return Some(Workload(StatefulSet, gw.key, Some(gw.spec.replicas), Labels(gw), Annotations(gw, Some(ka), kept),
                         containers, volumes, false, nodeSelector, tolerations, affinity));
  }

  method DaemonsetForVpnGw(cfg: Config, gw: VpnGw, ka: Option<KeepAlived>, kept: map<string, string>)
    returns (ds: Option<Workload>)
    requires KindOf(gw).DaemonSet?
    ensures ds == WorkloadFor(cfg, gw, ka, kept)
  {
    var v4Vip := "";
    if ka.Some? {
      v4Vip := ka.value.spec.vipV4;
    }
    hide SslContainer, IPSecContainer, KeepalivedContainer, SslVolumes, IPSecVolumes, Labels, Annotations,
         Fold, NonEmpty, GetPort, SslVpnPort;
    var containers: seq<Container> := [];
    var volumes: seq<string> := [];
    if gw.spec.enableSslVpn {
      var port := GetPort(SslVpnPort(cfg, gw));
      if port.None? {
        return None;
      }
      volumes := volumes + SslVolumes(gw, DaemonSet);
      containers := containers + [SslContainer(cfg, gw, DaemonSet, v4Vip)];
    }
    if gw.spec.enableIPSecVpn {
      var isakmp, natt := GetPort(cfg.ipsecIsakmpPort), GetPort(cfg.ipsecNatPort);
      if isakmp.None? || natt.None? {
        return None;
      }
      volumes := volumes + IPSecVolumes(gw, DaemonSet);
      containers := containers + [IPSecContainer(cfg, gw, DaemonSet)];
    }
    volumes := volumes + [K8S_MANIFESTS];
    if ka.Some? {
      containers := containers + [KeepalivedContainer(gw, ka.value)];
    }
    assert containers == Containers(cfg, gw, ka, DaemonSet) && volumes == Volumes(gw, DaemonSet);
    var nodeSelector, tolerations, affinity := Scheduling(gw);
    return Some(Workload(DaemonSet, gw.key, None, Labels(gw), Annotations(gw, ka, kept),
                         containers, volumes, true, nodeSelector, tolerations, affinity));
  }

  // ---------- what a workload says ----------

  function Lookup(env: seq<EnvVar>, name: string): Option<string> {
    if env == [] then None
    else if env[0].name == name then Some(env[0].value)
    else Lookup(env[1..], name)
  }

  /** The virtual router id that the keepalived container of a workload is started with, if it has one. */
  function VirtualRouterID(containers: seq<Container>): Option<string> {
    if containers == [] then None
    else if containers[0].name == KEEPALIVED_SERVER then Lookup(containers[0].env, KEEPALIVED_VIRTUAL_ROUTER_ID)
    else VirtualRouterID(containers[1..])
  }

  lemma KeepalivedEnv(gw: VpnGw, ka: KeepAlived)
    ensures Lookup(KeepalivedContainer(gw, ka).env, KEEPALIVED_VIRTUAL_ROUTER_ID) == Some(Itoa(ka.routerID))
  {
    var env := KeepalivedContainer(gw, ka).env;
    assert |env[0].name| == 14 && |KEEPALIVED_VIRTUAL_ROUTER_ID| == 28;
    assert env[1..][0] == EnvVar(KEEPALIVED_VIRTUAL_ROUTER_ID, Itoa(ka.routerID));
  }

  lemma {:induction false} VirtualRouterIDLast(containers: seq<Container>, last: seq<Container>)
    requires forall c :: c in containers ==> c.name != KEEPALIVED_SERVER
    ensures VirtualRouterID(containers + last) == VirtualRouterID(last)
  {
    if containers == [] {
      assert containers + last == last;
    } else {
      VirtualRouterIDLast(containers[1..], last);
      assert (containers + last)[1..] == containers[1..] + last;
    }
  }

  /** A workload carries a virtual router id exactly when it was built with a KeepAlived, and then that one's. */
  lemma WorkloadCarriesRouterID(cfg: Config, gw: VpnGw, ka: Option<KeepAlived>, kept: map<string, string>)
    requires WorkloadFor(cfg, gw, ka, kept).Some?
    ensures VirtualRouterID(WorkloadFor(cfg, gw, ka, kept).value.containers) ==
            if ka.Some? then Some(Itoa(ka.value.routerID)) else None
  {
    var kind := KindOf(gw);
    var vip := if ka.Some? then ka.value.spec.vipV4 else "";
    var servers := (if gw.spec.enableSslVpn then [SslContainer(cfg, gw, kind, vip)] else [])
                   + (if gw.spec.enableIPSecVpn then [IPSecContainer(cfg, gw, kind)] else []);
    assert |SSL_VPN_SERVER| == 7 && |IPSEC_VPN_SERVER| == 9 && |KEEPALIVED_SERVER| == 10;
    if ka.Some? {
      VirtualRouterIDLast(servers, [KeepalivedContainer(gw, ka.value)]);
      KeepalivedEnv(gw, ka.value);
    } else {
      VirtualRouterIDLast(servers, []);
      assert servers + [] == servers;
    }
  }

  /** The API server refuses a pod that mounts a volume it does not declare; no built workload does. */
  lemma MountsHaveVolumes(
    cfg: Config, gw: VpnGw, ka: Option<KeepAlived>, kept: map<string, string>, c: Container, m: string)
    requires WorkloadFor(cfg, gw, ka, kept).Some?
    requires c in WorkloadFor(cfg, gw, ka, kept).value.containers && m in c.mounts
    ensures m in WorkloadFor(cfg, gw, ka, kept).value.volumes
  {
    var w := WorkloadFor(cfg, gw, ka, kept).value;
    if gw.spec.enableSslVpn && m in SslVolumes(gw, w.kind) {
      assert forall v :: v in SslVolumes(gw, w.kind) ==> v in w.volumes;
    } else if gw.spec.enableIPSecVpn && m in IPSecVolumes(gw, w.kind) {
      assert forall v :: v in IPSecVolumes(gw, w.kind) ==> v in w.volumes;
    } else {
      assert w.kind.DaemonSet? ==> w.volumes[|w.volumes| - 1] == K8S_MANIFESTS;
    }
  }

  /** Every port that a built workload declares is a legal one. */
  lemma PortsAreLegal(cfg: Config, gw: VpnGw, ka: Option<KeepAlived>, kept: map<string, string>, c: Container, p: Port)
    requires WorkloadFor(cfg, gw, ka, kept).Some?
    requires c in WorkloadFor(cfg, gw, ka, kept).value.containers && p in c.ports
    ensures 1 <= p.number <= 65535
  {
    hide GetPort;
  }
}
