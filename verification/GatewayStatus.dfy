/**
  What a gateway's status mirrors: the test that a gateway has changed, the copying of
  specification fields into the status, and how far repeated copying converges.
 */
module GatewayStatus {
  import opened Api
  import opened GatewayTypes
  import opened Admission

  /** The names handed to the status update: nil, or what the loop over a non-empty listing appended. */
  type Connections = conns: Option<seq<string>> | conns != Some([]) witness None

  predicate SslDiffers(gw: VpnGw) {
    || gw.status.sslVpnCipher != gw.spec.sslVpnCipher
    || gw.status.sslVpnProto != gw.spec.sslVpnProto
    || gw.status.sslVpnSubnetCidr != gw.spec.sslVpnSubnetCidr
    || gw.status.sslVpnImage != gw.spec.sslVpnImage
  }

  predicate SslFlips(gw: VpnGw) {
    gw.status.enableSslVpn != gw.spec.enableSslVpn
  }

  predicate IPSecFlips(gw: VpnGw) {
    gw.status.enableIPSecVpn != gw.spec.enableIPSecVpn
  }

  predicate IsChanged(gw: VpnGw, conns: Connections) {
    || (gw.status.keepalived == "" && gw.spec.keepalived != "")
    || gw.status.cpu != gw.spec.cpu
    || gw.status.memory != gw.spec.memory
    || gw.status.qosBandwidth != gw.spec.qosBandwidth
    || gw.status.replicas != gw.spec.replicas
    || SslFlips(gw)
    || SslDiffers(gw)
    || IPSecFlips(gw)
    || gw.status.ipsecVpnImage != gw.spec.ipsecVpnImage
    || (gw.status.enableIPSecVpn && conns != None)
    || gw.spec.ipsecConnections != conns
    || gw.spec.selector != gw.status.selector
    || gw.spec.tolerations != gw.status.tolerations
    || gw.spec.affinity != gw.status.affinity
  }

  // ---------- copying ----------

  /** The connection list is recorded only when the status already said that IPsec is on. */
  predicate RecordsConnections(gw: VpnGw, conns: Connections) {
    gw.status.enableIPSecVpn && conns != None && gw.spec.ipsecConnections != conns
  }

  /** The object that one round of copying asks the API server to store. */
  function Mirror(gw: VpnGw, conns: Connections): VpnGw {
    var spec, st, record := gw.spec, gw.status, RecordsConnections(gw, conns);
    VpnGw(
      gw.key,
      if record then spec.(ipsecConnections := conns) else spec,
      VpnGwStatus(
        if st.keepalived == "" then spec.keepalived else st.keepalived,
        spec.cpu, spec.memory, spec.qosBandwidth, spec.replicas,
        spec.selector, spec.tolerations, spec.affinity,
        spec.enableSslVpn,
        if SslFlips(gw) then spec.sslVpnCipher else st.sslVpnCipher,
        if SslFlips(gw) then spec.sslVpnProto else st.sslVpnProto,
        if SslFlips(gw) then spec.sslVpnSubnetCidr else st.sslVpnSubnetCidr,
        if SslFlips(gw) then spec.sslVpnImage else st.sslVpnImage,
        spec.enableIPSecVpn,
        if IPSecFlips(gw) then spec.ipsecVpnImage else st.ipsecVpnImage,
        if record then conns else st.ipsecConnections))
  }

  /** The body of UpdateVpnGW between its read and its write, field by field. */
  method CopyStatus(gw: VpnGw, conns: Connections) returns (newGw: VpnGw, changed: bool)
    ensures newGw == Mirror(gw, conns)
    ensures changed <==> newGw != gw
  {
    changed := false;
    var VpnGwStatus(keepalived, cpu, memory, qosBandwidth, replicas, selector, tolerations, affinity,
                    enableSslVpn, sslVpnCipher, sslVpnProto, sslVpnSubnetCidr, sslVpnImage,
                    enableIPSecVpn, ipsecVpnImage, ipsecConnections) := gw.status;
    var specConnections := gw.spec.ipsecConnections;
    if gw.status.keepalived == "" && gw.spec.keepalived != "" {
      keepalived := gw.spec.keepalived;
      changed := true;
    }
    cpu, changed := CopyField(gw.spec.cpu, gw.status.cpu, changed);
    memory, changed := CopyField(gw.spec.memory, gw.status.memory, changed);
    qosBandwidth, changed := CopyField(gw.spec.qosBandwidth, gw.status.qosBandwidth, changed);
    replicas, changed := CopyField(gw.spec.replicas, gw.status.replicas, changed);
    if gw.status.enableSslVpn != gw.spec.enableSslVpn {
      enableSslVpn := gw.spec.enableSslVpn;
      sslVpnCipher, changed := CopyField(gw.spec.sslVpnCipher, gw.status.sslVpnCipher, changed);
      sslVpnProto, changed := CopyField(gw.spec.sslVpnProto, gw.status.sslVpnProto, changed);
      sslVpnSubnetCidr, changed := CopyField(gw.spec.sslVpnSubnetCidr, gw.status.sslVpnSubnetCidr, changed);
      sslVpnImage, changed := CopyField(gw.spec.sslVpnImage, gw.status.sslVpnImage, changed);
      changed := true;
    }
    if gw.status.enableIPSecVpn != gw.spec.enableIPSecVpn {
      enableIPSecVpn := gw.spec.enableIPSecVpn;
      ipsecVpnImage, changed := CopyField(gw.spec.ipsecVpnImage, gw.status.ipsecVpnImage, changed);
      changed := true;
    }
    if gw.status.enableIPSecVpn && conns != None {
      if gw.spec.ipsecConnections != conns {
        specConnections, ipsecConnections := conns, conns;
        changed := true;
      }
    }
    selector, changed := CopyField(gw.spec.selector, gw.status.selector, changed);
    tolerations, changed := CopyField(gw.spec.tolerations, gw.status.tolerations, changed);
    affinity, changed := CopyField(gw.spec.affinity, gw.status.affinity, changed);
    newGw := VpnGw(gw.key, gw.spec.(ipsecConnections := specConnections),
                   VpnGwStatus(keepalived, cpu, memory, qosBandwidth, replicas, selector, tolerations, affinity,
                               enableSslVpn, sslVpnCipher, sslVpnProto, sslVpnSubnetCidr, sslVpnImage,
                               enableIPSecVpn, ipsecVpnImage, ipsecConnections));
  }

  function SpecOnWire(spec: VpnGwSpec): VpnGwSpec {
    spec.(selector := OnWire(spec.selector), tolerations := OnWire(spec.tolerations),
          affinity := AffinityOnWire(spec.affinity), ipsecConnections := OnWire(spec.ipsecConnections))
  }

  function StatusOnWire(st: VpnGwStatus): VpnGwStatus {
    st.(selector := OnWire(st.selector), tolerations := OnWire(st.tolerations),
        affinity := AffinityOnWire(st.affinity), ipsecConnections := OnWire(st.ipsecConnections))
  }

  /**
    What the API server holds after the status endpoint took newGw: the status as its JSON has it,
    and under merged endpoints the specification too.
   */
  function Stored(ep: Endpoints, gw: VpnGw, newGw: VpnGw): VpnGw {
    VpnGw(gw.key, if ep.Merged? then SpecOnWire(newGw.spec) else gw.spec, StatusOnWire(newGw.status))
  }

  /** An UpdateVpnGW with nothing to copy issues no write. */
  predicate Writes(gw: VpnGw, conns: Connections) {
    Mirror(gw, conns) != gw
  }

  /** One UpdateVpnGW whose write, if it issues one, arrives. */
  function Sync(ep: Endpoints, gw: VpnGw, conns: Connections): VpnGw {
    if Writes(gw, conns) then Stored(ep, gw, Mirror(gw, conns)) else gw
  }

  function Syncs(ep: Endpoints, gw: VpnGw, conns: Connections, n: nat): VpnGw {
    if n == 0 then gw else Sync(ep, Syncs(ep, gw, conns, n - 1), conns)
  }

  // ---------- convergence ----------

  /** A specification with a list that the status cannot hold: empty, but not nil. */
  predicate Lossy(spec: VpnGwSpec) {
    spec.selector == Some([]) || spec.tolerations == Some([]) || spec.affinity != AffinityOnWire(spec.affinity)
  }

  /** What IsChanged still sees right after a round of copying. */
  lemma ResidualIff(ep: Endpoints, gw: VpnGw, conns: Connections)
    ensures IsChanged(Sync(ep, gw, conns), None) <==>
            || (SslDiffers(gw) && !SslFlips(gw))
            || (gw.status.ipsecVpnImage != gw.spec.ipsecVpnImage && !IPSecFlips(gw))
            || ListsConnections(ep, gw, conns)
            || (ep.Separate? && Writes(gw, conns) && Lossy(gw.spec))
  {
  }

  /** The specification lists connections after the round. */
  predicate ListsConnections(ep: Endpoints, gw: VpnGw, conns: Connections) {
    match ep
    case Separate => gw.spec.ipsecConnections != None
    case Merged =>
      || RecordsConnections(gw, conns)
      || OnWire(gw.spec.ipsecConnections) != None
      || (gw.spec.ipsecConnections == Some([]) && !Writes(gw, conns))
  }

  /** Two rounds are always enough for the stored object, whatever the endpoints do. */
  lemma {:induction false} StoredFixpoint(ep: Endpoints, gw: VpnGw, conns: Connections, n: nat)
    requires n >= 2
    ensures Syncs(ep, gw, conns, n) == Syncs(ep, gw, conns, 2)
  {
    var one := Sync(ep, gw, conns);
    var two := Sync(ep, one, conns);
    assert Syncs(ep, gw, conns, 1) == one;
    assert Syncs(ep, gw, conns, 2) == two;
    assert Sync(ep, two, conns) == two;
    if n > 2 {
      StoredFixpoint(ep, gw, conns, n - 1);
    }
  }

  /** One round is enough unless it is the round that turns IPsec on with connections to record. */
  lemma OneRoundIff(ep: Endpoints, gw: VpnGw, conns: Connections)
    ensures Syncs(ep, gw, conns, 2) == Syncs(ep, gw, conns, 1) <==>
            !(!gw.status.enableIPSecVpn && gw.spec.enableIPSecVpn && conns != None &&
              gw.spec.ipsecConnections != conns &&
              (ep.Merged? || gw.status.ipsecConnections != conns))
  {
    assert Syncs(ep, gw, conns, 1) == Sync(ep, gw, conns);
    assert Syncs(ep, gw, conns, 2) == Sync(ep, Sync(ep, gw, conns), conns);
  }

  /** A gateway with IPsec on whose specification does not already list the connections. */
  predicate Unlisted(gw: VpnGw, conns: Connections) {
    gw.spec.enableIPSecVpn && conns != None && gw.spec.ipsecConnections != conns
  }

  /**
    Writes stop after two rounds when the specification is stored with the status. When it is not,
    they go on for ever exactly for a gateway that writes at all and either never gets its connections
    listed or has a list that its status cannot hold.
   */
  lemma WritesStopIff(ep: Endpoints, gw: VpnGw, conns: Connections, n: nat)
    requires n >= 2
    ensures Writes(Syncs(ep, gw, conns, n), conns) <==>
            ep.Separate? && (Unlisted(gw, conns) || (Lossy(gw.spec) && Writes(gw, conns)))
  {
    StoredFixpoint(ep, gw, conns, n);
    assert Syncs(ep, gw, conns, 1) == Sync(ep, gw, conns);
    assert Syncs(ep, gw, conns, 2) == Sync(ep, Sync(ep, gw, conns), conns);
  }

  // ---------- with admitted edits ----------

  /** A run of one gateway: admitted specification edits, and rounds of copying. */
  datatype Step = Edit(spec: VpnGwSpec) | Round(conns: Connections)

  function Next(ep: Endpoints, gw: VpnGw, s: Step): VpnGw {
    match s
    case Edit(spec) => gw.(spec := spec)
    case Round(conns) => Sync(ep, gw, conns)
  }

  ghost predicate Admitted(gw: VpnGw, s: Step) {
    s.Edit? ==> UpdateAdmissible(gw.spec, s.spec)
  }

  function Run(ep: Endpoints, gw: VpnGw, steps: seq<Step>): VpnGw
    decreases |steps|
  {
    if steps == [] then gw else Run(ep, Next(ep, gw, steps[0]), steps[1..])
  }

  ghost predicate AdmittedRun(ep: Endpoints, gw: VpnGw, steps: seq<Step>)
    decreases |steps|
  {
    steps == [] || (Admitted(gw, steps[0]) && AdmittedRun(ep, Next(ep, gw, steps[0]), steps[1..]))
  }

  const NEW_STATUS := VpnGwStatus("", "", "", "", 0, None, None, Affinity(None, None, None),
                                  false, "", "", "", "", false, "", None)

  /**
    The status never contradicts the specification in a field that admission guards: it has the
    specification's value or none yet, and while SSL VPN is on it has it.
   */
  ghost predicate Faithful(gw: VpnGw) {
    && Admissible(gw.spec)
    && gw.status.keepalived in {"", gw.spec.keepalived}
    && gw.status.sslVpnProto in {"", gw.spec.sslVpnProto}
    && gw.status.sslVpnSubnetCidr in {"", gw.spec.sslVpnSubnetCidr}
    && (gw.status.enableSslVpn ==> gw.status.sslVpnProto != "" && gw.status.sslVpnSubnetCidr != "")
  }

  lemma {:induction false} FaithfulRun(ep: Endpoints, gw: VpnGw, steps: seq<Step>)
    requires Faithful(gw) && AdmittedRun(ep, gw, steps)
    ensures Faithful(Run(ep, gw, steps))
    decreases |steps|
  {
    if steps != [] {
      var next := Next(ep, gw, steps[0]);
      match steps[0] {
        case Edit(spec) =>
          assert Keeps(gw.spec, spec, Keepalived);
          assert Keeps(gw.spec, spec, SslVpnProto);
          assert Keeps(gw.spec, spec, SslVpnSubnetCidr);
        case Round(conns) =>
          assert !Breaks(gw.spec, NeedsProto) && !Breaks(gw.spec, NeedsSubnetCidr);
          AdmissibleButForLists(gw.spec, next.spec);
      }
      FaithfulRun(ep, next, steps[1..]);
    }
  }

  lemma AdmissibleButForLists(spec: VpnGwSpec, spec': VpnGwSpec)
    requires Admissible(spec)
    requires spec' == spec.(ipsecConnections := spec'.ipsecConnections, selector := spec'.selector,
                            tolerations := spec'.tolerations, affinity := spec'.affinity)
    ensures Admissible(spec')
  {
    forall rule: Rule
      ensures !Breaks(spec', rule)
    {
      assert !Breaks(spec, rule);
    }
  }

  /**
    The fields of the status that a round leaves behind the specification. Protocol and subnet can be
    missing, never wrong, and only while SSL VPN is off; cipher and images stay as they were unless the VPN
    they belong to was just switched.
   */
  ghost predicate Residual(before: VpnGw, after: VpnGw) {
    && after.status.keepalived == after.spec.keepalived
    && (after.status.sslVpnProto != after.spec.sslVpnProto <==>
          !SslFlips(before) && before.status.sslVpnProto == "" && before.spec.sslVpnProto != "")
    && (after.status.sslVpnSubnetCidr != after.spec.sslVpnSubnetCidr <==>
          !SslFlips(before) && before.status.sslVpnSubnetCidr == "" && before.spec.sslVpnSubnetCidr != "")
    && (after.spec.enableSslVpn ==>
          && after.status.sslVpnProto == after.spec.sslVpnProto
          && after.status.sslVpnSubnetCidr == after.spec.sslVpnSubnetCidr)
    && (after.status.sslVpnCipher != after.spec.sslVpnCipher <==>
          !SslFlips(before) && before.status.sslVpnCipher != before.spec.sslVpnCipher)
    && (after.status.sslVpnImage != after.spec.sslVpnImage <==>
          !SslFlips(before) && before.status.sslVpnImage != before.spec.sslVpnImage)
    && (after.status.ipsecVpnImage != after.spec.ipsecVpnImage <==>
          !IPSecFlips(before) && before.status.ipsecVpnImage != before.spec.ipsecVpnImage)
  }

  lemma FaithfulResidual(ep: Endpoints, gw: VpnGw, conns: Connections)
    requires Faithful(gw)
    ensures Residual(gw, Sync(ep, gw, conns))
  {
    hide Admissible, OnWire, AffinityOnWire;
  }

  /** On any admitted run from a new gateway a round leaves exactly these fields behind. */
  lemma AdmittedResidual(ep: Endpoints, gw: VpnGw, steps: seq<Step>, conns: Connections)
    requires Admissible(gw.spec) && gw.status == NEW_STATUS && AdmittedRun(ep, gw, steps)
    ensures Residual(Run(ep, gw, steps), Sync(ep, Run(ep, gw, steps), conns))
  {
    FaithfulRun(ep, gw, steps);
    hide *;
    FaithfulResidual(ep, Run(ep, gw, steps), conns);
  }

  // ---------- gateways that stay changed ----------

  /** An IPsec gateway with nothing set that it does not need. */
  const PLAIN_SPEC := VpnGwSpec("", "static", "1", "1Gi", "", 2, None, None, Affinity(None, None, None),
                                false, "", "", "", "", "udp", "", "",
                                true, "secret", None, "strongswan", false, "")

  const PLAIN_GW := VpnGw(Key("ns", "gw"), PLAIN_SPEC, NEW_STATUS)

  lemma PlainIsAdmissible()
    ensures Admissible(PLAIN_SPEC)
  {
    assert FirstBroken(PLAIN_SPEC) == None;
  }

  /**
    A gateway without SSL VPN that got the default protocol never has it in its status: it counts as
    changed after every number of rounds.
   */
  lemma {:induction false} DefaultProtoStaysStale(ep: Endpoints, conns: Connections, n: nat)
    ensures Admissible(PLAIN_GW.spec) && PLAIN_GW.status == NEW_STATUS
    ensures Syncs(ep, PLAIN_GW, conns, n).status.sslVpnProto == "" != Syncs(ep, PLAIN_GW, conns, n).spec.sslVpnProto
    ensures IsChanged(Syncs(ep, PLAIN_GW, conns, n), None)
  {
    PlainIsAdmissible();
    SslStaysOff(ep, PLAIN_GW, conns, n);
  }

  lemma {:induction false} SslStaysOff(ep: Endpoints, gw: VpnGw, conns: Connections, n: nat)
    requires !gw.spec.enableSslVpn && !gw.status.enableSslVpn
    ensures var after := Syncs(ep, gw, conns, n);
            && !after.spec.enableSslVpn && !after.status.enableSslVpn
            && after.spec.sslVpnProto == gw.spec.sslVpnProto
            && after.status.sslVpnProto == gw.status.sslVpnProto
  {
    if n > 0 {
      SslStaysOff(ep, gw, conns, n - 1);
    }
  }

  /** A gateway that writes its status on every round, because its connections never reach its specification. */
  lemma {:induction false} ConnectionsAreWrittenForEver(n: nat)
    ensures Admissible(PLAIN_GW.spec)
    ensures Writes(Syncs(Separate, PLAIN_GW, Some(["conn"]), n), Some(["conn"]))
  {
    PlainIsAdmissible();
    WritesForEver(PLAIN_GW, Some(["conn"]), n);
  }

  /** A gateway that writes its status on every round, because the status cannot hold its empty selector. */
  lemma {:induction false} EmptySelectorIsWrittenForEver(n: nat)
    ensures var gw := PLAIN_GW.(spec := PLAIN_SPEC.(selector := Some([])));
            Admissible(gw.spec) && Writes(Syncs(Separate, gw, None, n), None)
  {
    PlainIsAdmissible();
    AdmissibleButForLists(PLAIN_SPEC, PLAIN_SPEC.(selector := Some([])));
    WritesForEver(PLAIN_GW.(spec := PLAIN_SPEC.(selector := Some([]))), None, n);
  }

  lemma {:induction false} WritesForEver(gw: VpnGw, conns: Connections, n: nat)
    requires Unlisted(gw, conns) || (Lossy(gw.spec) && Writes(gw, conns))
    ensures Writes(Syncs(Separate, gw, conns, n), conns)
  {
    if n >= 2 {
      WritesStopIff(Separate, gw, conns, n);
    } else if n == 1 {
      assert Syncs(Separate, gw, conns, 1) == Sync(Separate, gw, conns);
    }
  }
}
