/** The VpnGw and IpsecConn objects. A nil-able slice is an Option: nil and empty differ. */
module GatewayTypes {
  import opened Api

  datatype Toleration = Toleration(key: string, operator: string, value: string, effect: string)

  /**
    What one of the three pointers of corev1.Affinity points to, abbreviated: empties says whether
    some list in it is empty without being nil where its JSON leaves empty lists out.
   */
  datatype Terms = Terms(text: string, empties: bool)

  datatype Affinity = Affinity(node: Option<Terms>, pod: Option<Terms>, antiPod: Option<Terms>)

  function TermsOnWire(t: Option<Terms>): Option<Terms> {
    if t.Some? then Some(Terms(t.value.text, false)) else None
  }

  function AffinityOnWire(a: Affinity): Affinity {
    Affinity(TermsOnWire(a.node), TermsOnWire(a.pod), TermsOnWire(a.antiPod))
  }

  lemma NoAffinityOnWire()
    ensures AffinityOnWire(Affinity(None, None, None)) == Affinity(None, None, None)
  {
  }

  datatype VpnGwSpec = VpnGwSpec(
    keepalived: string,
    workloadType: string,
    cpu: string,
    memory: string,
    qosBandwidth: string,
    replicas: int,
    selector: Option<seq<string>>,
    tolerations: Option<seq<Toleration>>,
    affinity: Affinity,
    enableSslVpn: bool,
    sslVpnSecret: string,
    dhSecret: string,
    sslVpnCipher: string,
    sslVpnAuth: string,
    sslVpnProto: string,
    sslVpnSubnetCidr: string,
    sslVpnImage: string,
    enableIPSecVpn: bool,
    ipsecSecret: string,
    ipsecConnections: Option<seq<string>>,
    ipsecVpnImage: string,
    ipsecEnablePSK: bool,
    defaultPSK: string)

  /** The status fields that the reconciler reads or writes. */
  datatype VpnGwStatus = VpnGwStatus(
    keepalived: string,
    cpu: string,
    memory: string,
    qosBandwidth: string,
    replicas: int,
    selector: Option<seq<string>>,
    tolerations: Option<seq<Toleration>>,
    affinity: Affinity,
    enableSslVpn: bool,
    sslVpnCipher: string,
    sslVpnProto: string,
    sslVpnSubnetCidr: string,
    sslVpnImage: string,
    enableIPSecVpn: bool,
    ipsecVpnImage: string,
    ipsecConnections: Option<seq<string>>)

  datatype VpnGw = VpnGw(key: Key, spec: VpnGwSpec, status: VpnGwStatus)

  datatype IpsecConnSpec = IpsecConnSpec(
    vpnGw: string,
    auth: string,
    ikeVersion: string,
    ikeProposals: string,
    localCN: string,
    localVIP: string,
    localGateway: string,
    localGatewayNic: string,
    localEIP: string,
    localPrivateCidrs: string,
    remoteCN: string,
    remoteEIP: string,
    remotePrivateCidrs: string,
    espProposals: string)

  datatype IpsecConn = IpsecConn(key: Key, labels: map<string, string>, spec: IpsecConnSpec)

  const VPN_GW_LABEL := "vpn-gw"

  // the annotations by which the network plugin is told about a workload
  const LOGICAL_SWITCH := "ovn.kubernetes.io/logical_switch"
  const INGRESS_RATE := "ovn.kubernetes.io/ingress_rate"
  const EGRESS_RATE := "ovn.kubernetes.io/egress_rate"
}
