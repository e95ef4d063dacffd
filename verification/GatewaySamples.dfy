/** Gateways with everything that they need, for concrete runs. */
module GatewaySamples {
  import opened Api
  import opened GatewayTypes
  import opened GatewayWorkload
  import Admission
  import GoStrings
  import Keepalived

  /** An SSL gateway that names a KeepAlived. */
  function SslSpec(keepalived: string, workloadType: string, cpu: string, image: string): VpnGwSpec {
    VpnGwSpec(keepalived, workloadType, cpu, "1Gi", "", 2, None, None, Affinity(None, None, None),
              true, "secret", "dh", "cipher", "auth", "udp", "10.240.0.0/16", image,
              false, "", None, "", false, "")
  }

  const KA_SPEC := Keepalived.KaSpec("192.0.2.1", "", "", "", "keepalived")

  function PortConfig(): Config {
    Config("", GoStrings.Itoa(1194), "", "", "")
  }

  lemma SslIsFine(gw: VpnGw, keepalived: string, workloadType: string, cpu: string, image: string)
    requires gw.spec == SslSpec(keepalived, workloadType, cpu, image) && cpu != "" && image != ""
    ensures Admission.FirstBroken(gw.spec) == None && PortsParse(PortConfig(), gw)
  {
    assert Admission.FirstBroken(gw.spec) == None;
    GoStrings.PortRoundTrip(1194);
    assert gw.spec.sslVpnProto != "tcp" by { assert "udp"[0] != "tcp"[0]; }
    hide GoStrings.GetPort, GoStrings.Itoa;
  }
}
