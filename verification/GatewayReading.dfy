/** What a gateway's specification, its status and a workload say about the fields that all three have. */
module GatewayReading {
  import opened Api
  import opened GatewayTypes
  import opened GatewayStatus
  import opened GatewayWorkload
  import opened GoStrings
  import Keepalived
  import Selectors

  /** The fields that every round copies into the status. */
  datatype Basics = Basics(
    cpu: string,
    memory: string,
    qosBandwidth: string,
    replicas: int,
    enableSslVpn: bool,
    enableIPSecVpn: bool,
    selector: Option<seq<string>>,
    tolerations: Option<seq<Toleration>>,
    affinity: Affinity)

  /** The fields that are copied only when SSL VPN is switched. */
  datatype Ssl = Ssl(cipher: string, proto: string, subnetCidr: string, image: string)

  /** The image is copied only when IPsec is switched. */
  datatype Fields = Fields(basics: Basics, ssl: Ssl, ipsecImage: string)

  /** Lists that are empty without being nil count as nil. */
  function SpecFields(s: VpnGwSpec): Fields {
    Fields(
      Basics(s.cpu, s.memory, s.qosBandwidth, s.replicas, s.enableSslVpn, s.enableIPSecVpn,
             OnWire(s.selector), OnWire(s.tolerations), AffinityOnWire(s.affinity)),
      Ssl(s.sslVpnCipher, s.sslVpnProto, s.sslVpnSubnetCidr, s.sslVpnImage),
      s.ipsecVpnImage)
  }

  function StatusFields(s: VpnGwStatus): Fields {
    Fields(
      Basics(s.cpu, s.memory, s.qosBandwidth, s.replicas, s.enableSslVpn, s.enableIPSecVpn,
             OnWire(s.selector), OnWire(s.tolerations), AffinityOnWire(s.affinity)),
      Ssl(s.sslVpnCipher, s.sslVpnProto, s.sslVpnSubnetCidr, s.sslVpnImage),
      s.ipsecVpnImage)
  }

  /** How much of the fields a claim is about. */
  datatype Extent = Basic | Full

  predicate Agrees(x: Extent, f: Fields, g: Fields) {
    f.basics == g.basics && (x.Full? ==> f == g)
  }

  /** The next round copies everything that differs: what differs belongs to a VPN that was just switched. */
  predicate NoResidual(gw: VpnGw) {
    && (SslDiffers(gw) ==> SslFlips(gw))
    && (gw.status.ipsecVpnImage != gw.spec.ipsecVpnImage ==> IPSecFlips(gw))
  }

  /** A round leaves a status with the basic fields of the specification, and with all of them exactly in this case. */
  lemma RecordsIff(ep: Endpoints, gw: VpnGw, conns: Connections)
    ensures var after := Sync(ep, gw, conns);
            && SpecFields(after.spec) == SpecFields(gw.spec)
            && StatusFields(after.status).basics == SpecFields(gw.spec).basics
            && (StatusFields(after.status) == SpecFields(gw.spec) <==> NoResidual(gw))
            && after.key == gw.key && KindOf(after) == KindOf(gw)
  {
    AffinityIsOnWire(gw.spec.affinity);
    AffinityIsOnWire(gw.status.affinity);
    hide AffinityOnWire;
  }

  lemma AffinityIsOnWire(a: Affinity)
    ensures AffinityOnWire(AffinityOnWire(a)) == AffinityOnWire(a)
  {
  }

  /** An unchanged gateway's status has all the fields, so that nothing is left to copy. */
  lemma UnchangedFields(gw: VpnGw)
    requires !IsChanged(gw, None)
    ensures StatusFields(gw.status) == SpecFields(gw.spec) && NoResidual(gw) && gw.status.cpu == gw.spec.cpu
  {
  }

  // ---------- reading a workload ----------

  /** What the API server stores of a workload. */
  function WorkloadOnWire(w: Workload): Workload {
    w.(nodeSelector := if w.nodeSelector == Some(map[]) then None else w.nodeSelector,
       affinity := if w.affinity.Some? then Some(AffinityOnWire(w.affinity.value)) else None)
  }

  function Named(containers: seq<Container>, name: string): Option<Container> {
    if containers == [] then None
    else if containers[0].name == name then Some(containers[0])
    else Named(containers[1..], name)
  }

  function Value(env: seq<EnvVar>, name: string): string {
    var found := Lookup(env, name);
    if found.Some? then found.value else ""
  }

  /** What the SSL VPN server is started with, if there is one. */
  function SslOf(containers: seq<Container>): Option<Ssl> {
    match Named(containers, SSL_VPN_SERVER)
    case None => None
    case Some(c) =>
      Some(Ssl(Value(c.env, "SSL_VPN_CIPHER"), Value(c.env, "SSL_VPN_PROTO"), Value(c.env, "SSL_VPN_SUBNET_CIDR"),
               c.image))
  }

  /** The image of the IPsec server, if there is one. */
  function IPSecImageOf(containers: seq<Container>): Option<string> {
    match Named(containers, IPSEC_VPN_SERVER)
    case None => None
    case Some(c) => Some(c.image)
  }

  function SelectorOf(w: Workload): map<string, string> {
    if w.nodeSelector.Some? then w.nodeSelector.value else map[]
  }

  function Selected(selector: Option<seq<string>>): map<string, string> {
    if selector.Some? then Selectors.Fold(selector.value) else map[]
  }

  /** The affinity of a workload as the API server has it; none is the one without pointers. */
  function AffinityOf(w: Workload): Affinity {
    if w.affinity.Some? then AffinityOnWire(w.affinity.value) else Affinity(None, None, None)
  }

  /** What a workload says about the fields, read off the workload itself. */
  ghost predicate Carries(x: Extent, w: Workload, f: Fields) {
    CarriesBasics(w, f.basics) && (x.Full? ==> CarriesRest(w.containers, f))
  }

  ghost predicate CarriesBasics(w: Workload, b: Basics) {
    && (forall c :: c in w.containers ==> c.cpu == b.cpu && c.memory == b.memory)
    && SaysOfSwitches(w.labels, b)
    && SaysOfRates(w.annotations, b)
    && (w.kind.StatefulSet? ==> w.replicas == Some(b.replicas))
    && SelectorOf(w) == Selected(b.selector)
    && w.tolerations == b.tolerations
    && AffinityOf(w) == b.affinity
  }

  predicate SaysOfSwitches(labels: map<string, string>, b: Basics) {
    && ENABLE_SSL_VPN_LABEL in labels && labels[ENABLE_SSL_VPN_LABEL] == BoolString(b.enableSslVpn)
    && ENABLE_IPSEC_VPN_LABEL in labels && labels[ENABLE_IPSEC_VPN_LABEL] == BoolString(b.enableIPSecVpn)
  }

  predicate SaysOfRates(annotations: map<string, string>, b: Basics) {
    && INGRESS_RATE in annotations && annotations[INGRESS_RATE] == b.qosBandwidth
    && EGRESS_RATE in annotations && annotations[EGRESS_RATE] == b.qosBandwidth
  }

  predicate CarriesRest(containers: seq<Container>, f: Fields) {
    && SslOf(containers) == (if f.basics.enableSslVpn then Some(f.ssl) else None)
    && IPSecImageOf(containers) == (if f.basics.enableIPSecVpn then Some(f.ipsecImage) else None)
  }

  /** A workload of this kind built from f is also what g asks for. */
  predicate Shows(x: Extent, kind: Kind, f: Fields, g: Fields) {
    ShowsBasics(kind, f.basics, g.basics) && (x.Full? ==> ShowsRest(f, g))
  }

  predicate ShowsBasics(kind: Kind, b: Basics, c: Basics) {
    && b.cpu == c.cpu && b.memory == c.memory && b.qosBandwidth == c.qosBandwidth
    && b.enableSslVpn == c.enableSslVpn && b.enableIPSecVpn == c.enableIPSecVpn
    && (kind.StatefulSet? ==> b.replicas == c.replicas)
    && Selected(b.selector) == Selected(c.selector)
    && b.tolerations == c.tolerations
    && b.affinity == c.affinity
  }

  predicate ShowsRest(f: Fields, g: Fields) {
    (f.basics.enableSslVpn ==> f.ssl == g.ssl) && (f.basics.enableIPSecVpn ==> f.ipsecImage == g.ipsecImage)
  }

  lemma SwitchesSay(gw: VpnGw, b: Basics)
    ensures SaysOfSwitches(Labels(gw), b) <==>
            gw.spec.enableSslVpn == b.enableSslVpn && gw.spec.enableIPSecVpn == b.enableIPSecVpn
  {
    assert |ENABLE_SSL_VPN_LABEL| == 14 && |ENABLE_IPSEC_VPN_LABEL| == 16 && |VPN_GW_LABEL| == 6;
    assert |"true"| != |"false"|;
  }

  lemma RatesSay(gw: VpnGw, ka: Option<Keepalived.KeepAlived>, kept: map<string, string>, b: Basics)
    ensures SaysOfRates(Annotations(gw, ka, kept), b) <==> gw.spec.qosBandwidth == b.qosBandwidth
  {
    assert |INGRESS_RATE| != |EGRESS_RATE|;
  }

  lemma ResourcesSay(cfg: Config, gw: VpnGw, ka: Option<Keepalived.KeepAlived>)
    ensures forall c :: c in Containers(cfg, gw, ka, KindOf(gw)) ==> c.cpu == gw.spec.cpu && c.memory == gw.spec.memory
    ensures HasVpn(gw.spec) ==> Containers(cfg, gw, ka, KindOf(gw)) != []
  {
    hide SslVolumes, IPSecSecrets, PortOf, ToUpper, SslVpnPort;
  }

  predicate HasVpn(s: VpnGwSpec) {
    s.enableSslVpn || s.enableIPSecVpn
  }

  lemma NamedConcat(some: seq<Container>, more: seq<Container>, name: string)
    ensures |some| == 0 ==> some + more == more
    ensures |some| == 1 ==>
              Named(some + more, name) == if some[0].name == name then Some(some[0]) else Named(more, name)
  {
    if |some| == 0 {
      assert some + more == more;
    } else if |some| == 1 {
      assert (some + more)[1..] == more;
    }
  }

  lemma ServersSay(cfg: Config, gw: VpnGw, ka: Option<Keepalived.KeepAlived>)
    ensures var containers := Containers(cfg, gw, ka, KindOf(gw));
            && Named(containers, SSL_VPN_SERVER) ==
                 (if gw.spec.enableSslVpn
                  then Some(SslContainer(cfg, gw, KindOf(gw), if ka.Some? then ka.value.spec.vipV4 else "")) else None)
            && Named(containers, IPSEC_VPN_SERVER) ==
                 (if gw.spec.enableIPSecVpn then Some(IPSecContainer(cfg, gw, KindOf(gw))) else None)
            && Named(containers, KEEPALIVED_SERVER) ==
                 (if ka.Some? then Some(KeepalivedContainer(gw, ka.value)) else None)
  {
    assert |SSL_VPN_SERVER| == 7 && |IPSEC_VPN_SERVER| == 9 && |KEEPALIVED_SERVER| == 10;
    var ssl := if gw.spec.enableSslVpn
               then [SslContainer(cfg, gw, KindOf(gw), if ka.Some? then ka.value.spec.vipV4 else "")] else [];
    var ipsec := if gw.spec.enableIPSecVpn then [IPSecContainer(cfg, gw, KindOf(gw))] else [];
    var last := if ka.Some? then [KeepalivedContainer(gw, ka.value)] else [];
    assert Containers(cfg, gw, ka, KindOf(gw)) == ssl + (ipsec + last);
    assert ssl != [] ==> ssl[0].name == SSL_VPN_SERVER;
    assert ipsec != [] ==> ipsec[0].name == IPSEC_VPN_SERVER;
    assert last != [] ==> last[0].name == KEEPALIVED_SERVER;
    hide SslContainer, IPSecContainer, KeepalivedContainer, Containers;
    NamedConcat(ssl, ipsec + last, SSL_VPN_SERVER);
    NamedConcat(ssl, ipsec + last, IPSEC_VPN_SERVER);
    NamedConcat(ipsec, last, SSL_VPN_SERVER);
    NamedConcat(ipsec, last, IPSEC_VPN_SERVER);
    NamedConcat(ssl, ipsec + last, KEEPALIVED_SERVER);
    NamedConcat(ipsec, last, KEEPALIVED_SERVER);
    NamedConcat(last, [], SSL_VPN_SERVER);
    NamedConcat(last, [], IPSEC_VPN_SERVER);
    NamedConcat(last, [], KEEPALIVED_SERVER);
    assert last + [] == last;
  }

  lemma SslEnvSays(cfg: Config, gw: VpnGw, kind: Kind, vip: string)
    ensures var env := SslContainer(cfg, gw, kind, vip).env;
            && Value(env, "SSL_VPN_CIPHER") == gw.spec.sslVpnCipher
            && Value(env, "SSL_VPN_PROTO") == gw.spec.sslVpnProto
            && Value(env, "SSL_VPN_SUBNET_CIDR") == gw.spec.sslVpnSubnetCidr
  {
    var env := SslContainer(cfg, gw, kind, vip).env;
    assert |env[0].name| == 13 && |env[1].name| == 12 && |env[2].name| == 14;
    assert |env[3].name| == 12 && |env[4].name| == 19;
    assert |"SSL_VPN_CIPHER"| == 14 && |"SSL_VPN_PROTO"| == 13 && |"SSL_VPN_SUBNET_CIDR"| == 19;
    hide SslContainer;
    assert Lookup(env[2..], "SSL_VPN_CIPHER") == Some(env[2].value);
    assert env[1..][1..] == env[2..] && env[1..][0] == env[1];
    assert Lookup(env[1..], "SSL_VPN_CIPHER") == Lookup(env[2..], "SSL_VPN_CIPHER");
    assert env[4..][0] == env[4] && env[3..][0] == env[3] && env[3..][1..] == env[4..] && env[2..][1..] == env[3..];
    assert Lookup(env[4..], "SSL_VPN_SUBNET_CIDR") == Some(env[4].value);
    assert Lookup(env[3..], "SSL_VPN_SUBNET_CIDR") == Lookup(env[4..], "SSL_VPN_SUBNET_CIDR");
    assert Lookup(env[2..], "SSL_VPN_SUBNET_CIDR") == Lookup(env[3..], "SSL_VPN_SUBNET_CIDR");
    assert Lookup(env[1..], "SSL_VPN_SUBNET_CIDR") == Lookup(env[2..], "SSL_VPN_SUBNET_CIDR");
  }

  lemma RestSays(cfg: Config, gw: VpnGw, ka: Option<Keepalived.KeepAlived>)
    ensures var containers := Containers(cfg, gw, ka, KindOf(gw));
            && SslOf(containers) == (if gw.spec.enableSslVpn then Some(SpecFields(gw.spec).ssl) else None)
            && IPSecImageOf(containers) == (if gw.spec.enableIPSecVpn then Some(gw.spec.ipsecVpnImage) else None)
  {
    ServersSay(cfg, gw, ka);
    SslEnvSays(cfg, gw, KindOf(gw), if ka.Some? then ka.value.spec.vipV4 else "");
    hide Containers, Named, Value;
  }

  /** A workload carries exactly the fields that ask for the same as those it was built from. */
  lemma CarriesIff(
    x: Extent, cfg: Config, gw: VpnGw, ka: Option<Keepalived.KeepAlived>, kept: map<string, string>, f: Fields)
    requires WorkloadFor(cfg, gw, ka, kept).Some? && HasVpn(gw.spec)
    ensures Carries(x, WorkloadOnWire(WorkloadFor(cfg, gw, ka, kept).value), f) <==>
            Shows(x, KindOf(gw), SpecFields(gw.spec), f)
  {
    SwitchesSay(gw, f.basics);
    RatesSay(gw, ka, kept, f.basics);
    ResourcesSay(cfg, gw, ka);
    RestSays(cfg, gw, ka);
    NoAffinityOnWire();
    AffinityIsOnWire(gw.spec.affinity);
    var containers := Containers(cfg, gw, ka, KindOf(gw));
    assert containers[0] in containers;
    hide Labels, Annotations, Containers, Volumes, PortsParse, Selectors.Fold, BoolString, AffinityOnWire, SslOf,
         IPSecImageOf, SaysOfSwitches, SaysOfRates;
  }

  // ---------- the containers, by name, variable and mount ----------

  /** A variable of this name decides over later ones of the same name. */
  lemma LookupStep(env: seq<EnvVar>, n: nat, name: string)
    requires n < |env|
    ensures Lookup(env[n..], name) == if env[n].name == name then Some(env[n].value) else Lookup(env[n + 1..], name)
  {
    assert env[n..][1..] == env[n + 1..] && env[n..][0] == env[n];
  }

  /** Where a name stands in a list of variables that has it once. */
  lemma {:induction false} LookupAt(env: seq<EnvVar>, n: nat, m: nat)
    requires m <= n < |env|
    requires forall k :: 0 <= k < n ==> env[k].name != env[n].name
    ensures Lookup(env[m..], env[n].name) == Some(env[n].value)
    decreases n - m
  {
    LookupStep(env, m, env[n].name);
    if m < n {
      LookupAt(env, n, m + 1);
    }
  }

  lemma LookupFirst(env: seq<EnvVar>, n: nat)
    requires n < |env|
    requires forall k :: 0 <= k < n ==> env[k].name != env[n].name
    ensures Lookup(env, env[n].name) == Some(env[n].value)
  {
    assert env[0..] == env;
    LookupAt(env, n, 0);
  }

  lemma SslNames(env: seq<EnvVar>)
    requires |env| == 8 && env[0].name == "SSL_VPN_PROTO" && env[1].name == "SSL_VPN_PORT"
    requires env[2].name == "SSL_VPN_CIPHER" && env[3].name == "SSL_VPN_AUTH" && env[4].name == "SSL_VPN_SUBNET_CIDR"
    requires env[5].name == "KEEPALIVED_VIP" && env[6].name == "K8S_MANIFESTS_PATH" && env[7].name == "SSL_VPN_IMAGE"
    ensures forall j, k :: 0 <= j < k < 8 ==> env[j].name != env[k].name
  {
    assert |env[0].name| == 13 && |env[1].name| == 12 && |env[2].name| == 14 && |env[3].name| == 12;
    assert |env[4].name| == 19 && |env[5].name| == 14 && |env[6].name| == 18 && |env[7].name| == 13;
    assert env[1].name[8] != env[3].name[8] && env[2].name[0] != env[5].name[0] && env[0].name[8] != env[7].name[8];
  }

  /** The SSL VPN server listens where its protocol says, knows its settings and mounts both secrets. */
  lemma SslServerSays(
    cfg: Config, gw: VpnGw, ka: Option<Keepalived.KeepAlived>, kept: map<string, string>, mount: string)
    requires WorkloadFor(cfg, gw, ka, kept).Some?
    ensures var c := Named(WorkloadFor(cfg, gw, ka, kept).value.containers, "ssl-vpn");
            if !gw.spec.enableSslVpn then c == None
            else
              var port := if gw.spec.sslVpnProto == "tcp" then cfg.sslVpnTCP else cfg.sslVpnUDP;
              && c.Some? && c.value.image == gw.spec.sslVpnImage
              && c.value.cpu == gw.spec.cpu && c.value.memory == gw.spec.memory
              && |c.value.ports| == 1 && c.value.ports[0].name == "ssl-vpn"
              && GetPort(port) == Some(c.value.ports[0].number)
              && (gw.spec.sslVpnProto == "tcp" ==> c.value.ports[0].protocol == "TCP")
              && (gw.spec.sslVpnProto == "udp" ==> c.value.ports[0].protocol == "UDP")
              && Lookup(c.value.env, "SSL_VPN_PROTO") == Some(gw.spec.sslVpnProto)
              && Lookup(c.value.env, "SSL_VPN_PORT") == Some(port)
              && Lookup(c.value.env, "SSL_VPN_CIPHER") == Some(gw.spec.sslVpnCipher)
              && Lookup(c.value.env, "SSL_VPN_AUTH") == Some(gw.spec.sslVpnAuth)
              && Lookup(c.value.env, "SSL_VPN_SUBNET_CIDR") == Some(gw.spec.sslVpnSubnetCidr)
              && Lookup(c.value.env, "KEEPALIVED_VIP") == Some(if ka.Some? then ka.value.spec.vipV4 else "")
              && Lookup(c.value.env, "K8S_MANIFESTS_PATH") == Some(cfg.k8sManifestsPath)
              && Lookup(c.value.env, "SSL_VPN_IMAGE") == Some(gw.spec.sslVpnImage)
              && (mount in c.value.mounts <==>
                    || mount == gw.spec.sslVpnSecret
                    || mount == gw.spec.dhSecret
                    || (gw.spec.workloadType != "statefulset" && mount in {"k8s-manifests", "openvpn-cache"}))
  {
    ServersSay(cfg, gw, ka);
    if gw.spec.enableSslVpn {
      var c := SslContainer(cfg, gw, KindOf(gw), if ka.Some? then ka.value.spec.vipV4 else "");
      ToUpperIs();
      SslNames(c.env);
      assert PortsParse(cfg, gw);
      hide Containers, Named, Lookup, ToUpper, GetPort;
      LookupFirst(c.env, 0);
      LookupFirst(c.env, 1);
      LookupFirst(c.env, 2);
      LookupFirst(c.env, 3);
      LookupFirst(c.env, 4);
      LookupFirst(c.env, 5);
      LookupFirst(c.env, 6);
      LookupFirst(c.env, 7);
    }
  }

  lemma ToUpperIs()
    ensures ToUpper("tcp") == "TCP" && ToUpper("udp") == "UDP"
  {
  }

  /** The IPsec server listens on its two ports and mounts its certificate exactly if it needs one. */
  lemma IPSecServerSays(
    cfg: Config, gw: VpnGw, ka: Option<Keepalived.KeepAlived>, kept: map<string, string>, mount: string)
    requires WorkloadFor(cfg, gw, ka, kept).Some?
    ensures var c := Named(WorkloadFor(cfg, gw, ka, kept).value.containers, "ipsec-vpn");
            if !gw.spec.enableIPSecVpn then c == None
            else
              && c.Some? && c.value.image == gw.spec.ipsecVpnImage
              && c.value.cpu == gw.spec.cpu && c.value.memory == gw.spec.memory
              && |c.value.ports| == 2
              && c.value.ports[0].name == "isakmp" && GetPort(cfg.ipsecIsakmpPort) == Some(c.value.ports[0].number)
              && c.value.ports[1].name == "nat" && GetPort(cfg.ipsecNatPort) == Some(c.value.ports[1].number)
              && c.value.ports[0].protocol == c.value.ports[1].protocol == "UDP"
              && Lookup(c.value.env, "K8S_MANIFESTS_PATH") == Some(cfg.k8sManifestsPath)
              && Lookup(c.value.env, "IPSEC_VPN_IMAGE") == Some(gw.spec.ipsecVpnImage)
              && (mount in c.value.mounts <==>
                    || (!gw.spec.ipsecEnablePSK && mount == gw.spec.ipsecSecret)
                    || (gw.spec.workloadType != "statefulset" && mount in {"k8s-manifests", "strongswan-cache"}))
  {
    ServersSay(cfg, gw, ka);
    if gw.spec.enableIPSecVpn {
      var c := IPSecContainer(cfg, gw, KindOf(gw));
      assert |c.env[0].name| == 18 && |c.env[1].name| == 15;
      assert PortsParse(cfg, gw);
      hide Containers, Named, Lookup, GetPort;
      LookupFirst(c.env, 0);
      LookupFirst(c.env, 1);
    }
  }

  /** The keepalived container runs the KeepAlived's image, on its interface, for its address, with its id. */
  lemma KeepalivedSays(cfg: Config, gw: VpnGw, ka: Option<Keepalived.KeepAlived>, kept: map<string, string>)
    requires WorkloadFor(cfg, gw, ka, kept).Some?
    ensures var c := Named(WorkloadFor(cfg, gw, ka, kept).value.containers, "keepalived");
            if ka.None? then c == None
            else
              && c.Some? && c.value.image == ka.value.spec.image
              && c.value.cpu == gw.spec.cpu && c.value.memory == gw.spec.memory
              && c.value.ports == [] && c.value.mounts == []
              && Lookup(c.value.env, "KEEPALIVED_VIP") == Some(ka.value.spec.vipV4)
              && Lookup(c.value.env, "KEEPALIVED_VIRTUAL_ROUTER_ID") == Some(Itoa(ka.value.routerID))
              && Lookup(c.value.env, "KEEPALIVED_NIC") == Some(ka.value.spec.nic)
  {
    ServersSay(cfg, gw, ka);
    if ka.Some? {
      var c := KeepalivedContainer(gw, ka.value);
      assert |c.env[0].name| == 14 && |c.env[1].name| == 28 && |c.env[2].name| == 14;
      assert c.env[0].name[11] != c.env[2].name[11];
      hide Containers, Named, Lookup, Itoa;
      LookupFirst(c.env, 0);
      LookupFirst(c.env, 1);
      LookupFirst(c.env, 2);
    }
  }

  /** The rest of a workload: what it is, whose it is, how it is found, and exactly the volumes that it declares. */
  lemma WorkloadSays(
    cfg: Config, gw: VpnGw, ka: Option<Keepalived.KeepAlived>, kept: map<string, string>, volume: string)
    requires WorkloadFor(cfg, gw, ka, kept).Some?
    ensures var w := WorkloadFor(cfg, gw, ka, kept).value;
            var onHost := gw.spec.workloadType != "statefulset";
            && (w.kind.DaemonSet? <==> onHost) && w.key == gw.key && (w.hostNetwork <==> onHost)
            && "vpn-gw" in w.labels && w.labels["vpn-gw"] == gw.key.name
            && LOGICAL_SWITCH in w.annotations
            && w.annotations[LOGICAL_SWITCH] == (if ka.Some? then ka.value.spec.subnet else "")
            && (volume in w.volumes <==>
                  || (gw.spec.enableSslVpn && volume in {gw.spec.sslVpnSecret, gw.spec.dhSecret})
                  || (gw.spec.enableSslVpn && onHost && volume == "openvpn-cache")
                  || (gw.spec.enableIPSecVpn && !gw.spec.ipsecEnablePSK && volume == gw.spec.ipsecSecret)
                  || (gw.spec.enableIPSecVpn && onHost && volume == "strongswan-cache")
                  || (onHost && volume == "k8s-manifests"))
  {
    assert |INGRESS_RATE| == 30 && |EGRESS_RATE| == 29 && |LOGICAL_SWITCH| == 32;
    assert |ENABLE_SSL_VPN_LABEL| == 14 && |ENABLE_IPSEC_VPN_LABEL| == 16 && |VPN_GW_LABEL| == 6;
    hide PortsParse, Containers, BoolString;
  }
}
