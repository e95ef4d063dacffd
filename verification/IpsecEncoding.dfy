/**
  The connection list that a gateway sends to its pods: validated connection by connection and
  printed as ':'-terminated records of space-separated fields.
 */
module IpsecEncoding {
  import opened Api
  import opened GoStrings
  import opened GatewayTypes

  datatype Fault =
    | NoDefaultPSK | NoESPProposals | NotThisGateway | NoAuth | NoIkeVersion | NoIKEProposals
    | NoLocalVIP | NoLocalEIP | NoLocalPrivateCidrs | NoRemoteEIP | NoRemotePrivateCidrs
    | NoCommonName | NoLocalGatewayNic | NoConnections

  datatype Verdict = Accepted(connections: string) | Rejected(fault: Fault)

  // ---------- what is accepted ----------

  /** What the gateway demands of each connection it lists. */
  predicate Acceptable(gw: VpnGw, con: IpsecConn) {
    var c := con.spec;
    && c.vpnGw == gw.key.name != ""
    && c.auth != "" && c.ikeVersion != "" && c.ikeProposals != ""
    && c.localVIP != "" && c.localEIP != "" && c.localPrivateCidrs != ""
    && c.remoteEIP != "" && c.remotePrivateCidrs != ""
    && (gw.spec.ipsecEnablePSK ==> c.espProposals != "")
    && (c.auth == "pubkey" ==> c.localCN != "" && c.remoteCN != "")
    && (c.auth == "psk" && gw.spec.workloadType == "static" && c.localGateway != "" ==> c.localGatewayNic != "")
  }

  /** Only these two kinds of connection are printed; any other auth is accepted and dropped. */
  predicate Printed(con: IpsecConn) {
    con.spec.auth == "pubkey" || con.spec.auth == "psk"
  }

  predicate Accepts(gw: VpnGw, conns: seq<IpsecConn>) {
    && (gw.spec.ipsecEnablePSK ==> gw.spec.defaultPSK != "")
    && (forall con :: con in conns ==> Acceptable(gw, con))
    && (exists con :: con in conns && Printed(con))
  }

  // ---------- what is printed ----------

  function Fields(gw: VpnGw, con: IpsecConn): seq<string> {
    var c := con.spec;
    if c.auth == "pubkey" then
      [con.key.name, c.auth, c.ikeVersion, c.ikeProposals, c.localCN, c.localEIP, c.localPrivateCidrs,
       c.remoteCN, c.remoteEIP, c.remotePrivateCidrs]
    else
      [con.key.name, c.auth, c.ikeVersion, c.ikeProposals, c.localVIP, c.localEIP, c.localPrivateCidrs,
       c.remoteEIP, c.remotePrivateCidrs, gw.spec.defaultPSK, c.espProposals]
      + if c.localGateway != "" && c.localGatewayNic != "" then [c.localGateway, c.localGatewayNic] else []
  }

  /** The records of a connection list, in list order. */
  function Records(gw: VpnGw, conns: seq<IpsecConn>): seq<seq<string>> {
    if conns == [] then []
    else
      var last := conns[|conns| - 1];
      Records(gw, conns[..|conns| - 1]) + if Printed(last) then [Fields(gw, last)] else []
  }

  lemma {:induction false} RecordLengths(gw: VpnGw, conns: seq<IpsecConn>, r: seq<string>)
    requires r in Records(gw, conns)
    ensures |r| == 10 || |r| == 11 || |r| == 13
  {
    var last := conns[|conns| - 1];
    if !(Printed(last) && r == Fields(gw, last)) {
      RecordLengths(gw, conns[..|conns| - 1], r);
    }
  }

  function Encode(records: seq<seq<string>>): string {
    if records == [] then ""
    else Join(records[0], ' ') + ":" + Encode(records[1..])
  }

  lemma {:induction false} EncodeSnoc(records: seq<seq<string>>, r: seq<string>)
    ensures Encode(records + [r]) == Encode(records) + (Join(r, ' ') + ":")
  {
    if records == [] {
      assert records + [r] == [r];
    } else {
      EncodeSnoc(records[1..], r);
      assert (records + [r])[1..] == records[1..] + [r];
    }
  }

  lemma {:induction false} RecordsNonEmpty(gw: VpnGw, conns: seq<IpsecConn>)
    ensures Records(gw, conns) != [] <==> exists con :: con in conns && Printed(con)
  {
    if conns != [] {
      var front, last := conns[..|conns| - 1], conns[|conns| - 1];
      RecordsNonEmpty(gw, front);
      assert conns == front + [last];
      if Printed(last) {
        assert last in conns;
      }
    }
  }

  // ---------- the loop ----------

  /** What each fault of a connection means. */
  predicate Faulty(gw: VpnGw, con: IpsecConn, fault: Fault) {
    var c := con.spec;
    match fault
    case NoESPProposals => gw.spec.ipsecEnablePSK && c.espProposals == ""
    case NoIKEProposals => c.ikeProposals == ""
    case NotThisGateway => c.vpnGw == "" || c.vpnGw != gw.key.name
    case NoAuth => c.auth == ""
    case NoIkeVersion => c.ikeVersion == ""
    case NoLocalVIP => c.localVIP == ""
    case NoLocalEIP => c.localEIP == ""
    case NoLocalPrivateCidrs => c.localPrivateCidrs == ""
    case NoRemoteEIP => c.remoteEIP == ""
    case NoRemotePrivateCidrs => c.remotePrivateCidrs == ""
    case NoCommonName => c.auth == "pubkey" && (c.remoteCN == "" || c.localCN == "")
    case NoLocalGatewayNic =>
      c.auth == "psk" && gw.spec.workloadType == "static" && c.localGateway != "" && c.localGatewayNic == ""
    case NoDefaultPSK => false
    case NoConnections => false
  }

  /** The fail-fast checks of one connection. */
  method CheckConnection(gw: VpnGw, con: IpsecConn) returns (fault: Option<Fault>)
    ensures fault.None? <==> Acceptable(gw, con)
    ensures fault.Some? ==> Faulty(gw, con, fault.value)
  {
    var c := con.spec;
    if gw.spec.ipsecEnablePSK {
      if c.espProposals == "" { return Some(NoESPProposals); }
      if c.ikeProposals == "" { return Some(NoIKEProposals); }
    }
    if c.vpnGw == "" || c.vpnGw != gw.key.name { return Some(NotThisGateway); }
    if c.auth == "" { return Some(NoAuth); }
    if c.ikeVersion == "" { return Some(NoIkeVersion); }
    if c.ikeProposals == "" { return Some(NoIKEProposals); }
    if c.localVIP == "" { return Some(NoLocalVIP); }
    if c.localEIP == "" { return Some(NoLocalEIP); }
    if c.localPrivateCidrs == "" { return Some(NoLocalPrivateCidrs); }
    if c.remoteEIP == "" { return Some(NoRemoteEIP); }
    if c.remotePrivateCidrs == "" { return Some(NoRemotePrivateCidrs); }
    if c.auth == "pubkey" {
      if c.remoteCN == "" || c.localCN == "" { return Some(NoCommonName); }
    }
    if c.auth == "psk" && gw.spec.workloadType == "static" {
      if c.localGateway != "" && c.localGatewayNic == "" { return Some(NoLocalGatewayNic); }
    }
    return None;
  }

  /** Some complaint about the list, given that not all of it is accepted. */
  ghost predicate Explains(gw: VpnGw, conns: seq<IpsecConn>, fault: Fault) {
    if gw.spec.ipsecEnablePSK && gw.spec.defaultPSK == "" then fault == NoDefaultPSK
    else if forall con :: con in conns ==> Acceptable(gw, con) then fault == NoConnections
    else exists n :: 0 <= n < |conns| && Faulty(gw, conns[n], fault) &&
                     forall m :: 0 <= m < n ==> Acceptable(gw, conns[m])
  }

  /** fmt.Sprintf with one %s verb for each field and a space between verbs. */
  function Sprintf(fields: seq<string>): string {
    Join(fields, ' ')
  }

  method PrintPubkey(con: IpsecConn) returns (text: string)
    requires con.spec.auth == "pubkey"
    ensures forall gw :: text == Join(Fields(gw, con), ' ') + ":"
  {
    var c := con.spec;
    text := Sprintf([con.key.name, c.auth, c.ikeVersion, c.ikeProposals, c.localCN, c.localEIP, c.localPrivateCidrs,
                     c.remoteCN, c.remoteEIP, c.remotePrivateCidrs]) + ":";
  }

  method PrintPSK(gw: VpnGw, con: IpsecConn) returns (text: string)
    requires con.spec.auth == "psk"
    ensures text == Join(Fields(gw, con), ' ') + ":"
  {
    var c := con.spec;
    var fields := [con.key.name, c.auth, c.ikeVersion, c.ikeProposals, c.localVIP, c.localEIP, c.localPrivateCidrs,
                   c.remoteEIP, c.remotePrivateCidrs, gw.spec.defaultPSK, c.espProposals];
    text := Sprintf(fields);
    if c.localGateway != "" && c.localGatewayNic != "" {
      AppendTwo(fields, c.localGateway, c.localGatewayNic);
      assert Fields(gw, con) == fields + [c.localGateway, c.localGatewayNic];
      text := text + " " + c.localGateway + " " + c.localGatewayNic + ":";
    } else {
      assert Fields(gw, con) == fields;
      text := text + ":";
    }
  }

  /** What one connection adds to the list: a terminated record, or nothing. */
  function Line(gw: VpnGw, con: IpsecConn): string {
    if Printed(con) then Join(Fields(gw, con), ' ') + ":" else ""
  }

  function Append(connections: string, line: string): string {
    connections + line
  }

  lemma EncodeEmpty(records: seq<seq<string>>)
    ensures Encode(records) == "" <==> records == []
  {
  }

  lemma EncodeStep(gw: VpnGw, conns: seq<IpsecConn>, n: nat, line: string)
    requires n < |conns| && line == Line(gw, conns[n])
    ensures Encode(Records(gw, conns[..n + 1])) == Append(Encode(Records(gw, conns[..n])), line)
  {
    RecordsSnoc(gw, conns, n);
    var before, r := Records(gw, conns[..n]), Fields(gw, conns[n]);
    if Printed(conns[n]) {
      EncodeSnoc(before, r);
      assert Records(gw, conns[..n + 1]) == before + [r];
    } else {
      assert Records(gw, conns[..n + 1]) == before;
      assert Encode(before) + line == Encode(before);
    }
  }

  method PrintConnection(gw: VpnGw, con: IpsecConn) returns (text: string)
    ensures text == Line(gw, con)
  {
    text := "";
    if con.spec.auth == "pubkey" {
      text := PrintPubkey(con);
      assert text == Join(Fields(gw, con), ' ') + ":";
    }
    if con.spec.auth == "psk" {
      text := PrintPSK(gw, con);
    }
  }

  lemma AppendTwo(fields: seq<string>, a: string, b: string)
    requires |fields| >= 1
    ensures Join(fields + [a, b], ' ') == Join(fields, ' ') + " " + a + " " + b
  {
    JoinAppend(fields, ' ', a);
    JoinAppend(fields + [a], ' ', b);
    assert fields + [a] + [b] == fields + [a, b];
  }

  lemma RecordsSnoc(gw: VpnGw, conns: seq<IpsecConn>, n: nat)
    requires n < |conns|
    ensures Records(gw, conns[..n + 1]) ==
            Records(gw, conns[..n]) + if Printed(conns[n]) then [Fields(gw, conns[n])] else []
  {
    assert conns[..n + 1][..n] == conns[..n];
  }

  /** The loop: the text of the whole list, or the first complaint and the number of the connection it is about. */
  method PrintConnections(gw: VpnGw, conns: seq<IpsecConn>)
    returns (fault: Option<Fault>, at: nat, connections: string)
    ensures fault.None? ==> connections == Encode(Records(gw, conns))
    ensures fault.None? <==> forall con :: con in conns ==> Acceptable(gw, con)
    ensures fault.Some? ==> at < |conns| && Faulty(gw, conns[at], fault.value)
    ensures fault.Some? ==> forall m :: 0 <= m < at ==> Acceptable(gw, conns[m])
  {
    connections := "";
    assert Records(gw, conns[..0]) == [] && Encode([]) == "";
    hide Acceptable, Faulty, Records, Encode, Line, Append;
    for n := 0 to |conns|
      invariant forall m :: 0 <= m < n ==> Acceptable(gw, conns[m])
      invariant connections == Encode(Records(gw, conns[..n]))
    {
      fault := CheckConnection(gw, conns[n]);
      if fault.Some? {
        assert conns[n] in conns;
        return fault, n, "";
      }
      var text := PrintConnection(gw, conns[n]);
      EncodeStep(gw, conns, n, text);
      connections := Append(connections, text);
    }
    assert conns[..|conns|] == conns;
    return None, 0, connections;
  }

  /** The verdict on a list, with the first complaint when there is one. */
  method ValidateIPSecConns(gw: VpnGw, conns: seq<IpsecConn>) returns (verdict: Verdict)
    ensures verdict.Accepted? <==> Accepts(gw, conns)
    ensures verdict.Accepted? ==> verdict.connections == Encode(Records(gw, conns))
    ensures verdict.Rejected? ==> Explains(gw, conns, verdict.fault)
  {
    hide Acceptable, Faulty, Printed, Records, Encode;
    if gw.spec.ipsecEnablePSK && gw.spec.defaultPSK == "" {
      return Rejected(NoDefaultPSK);
    }
    var fault, at, connections := PrintConnections(gw, conns);
    if fault.Some? {
      return Rejected(fault.value);
    }
    RecordsNonEmpty(gw, conns);
    EncodeEmpty(Records(gw, conns));
    if connections == "" {
      return Rejected(NoConnections);
    }
    return Accepted(connections);
  }

  // ---------- reading it back ----------

  /** Splits at the terminator, drops the empty rest, and splits every record at its spaces. */
  function Decode(connections: string): seq<seq<string>> {
    var parts := Split(connections, ':');
    seq(|parts| - 1, n requires 0 <= n < |parts| - 1 => Split(parts[n], ' '))
  }

  predicate Clean(field: string) {
    ' ' !in field && ':' !in field
  }

  predicate AllClean(records: seq<seq<string>>) {
    forall r, f :: r in records && f in r ==> Clean(f)
  }

  lemma {:induction false} SplitEncode(records: seq<seq<string>>)
    requires AllClean(records)
    ensures |Split(Encode(records), ':')| == |records| + 1
    ensures forall n :: 0 <= n < |records| ==> Split(Encode(records), ':')[n] == Join(records[n], ' ')
    ensures Split(Encode(records), ':')[|records|] == ""
  {
    if records != [] {
      var line, rest := Join(records[0], ' '), Encode(records[1..]);
      assert forall r :: r in records[1..] ==> r in records;
      SplitEncode(records[1..]);
      LineIsFree(records[0]);
      assert Encode(records) == line + [':'] + rest;
      hide *;
      SplitFree(line, ':');
      SplitConcat(line, rest, ':');
      assert Split(Encode(records), ':') == [line] + Split(rest, ':');
    }
  }

  lemma LineIsFree(fields: seq<string>)
    requires forall f :: f in fields ==> Clean(f)
    ensures ':' !in Join(fields, ' ')
  {
    forall f | f in fields
      ensures ':' !in f
    {
      assert Clean(f);
    }
    JoinFree(fields, ' ', ':');
  }

  lemma DecodedIsClean(connections: string)
    ensures AllClean(Decode(connections))
  {
    var parts := Split(connections, ':');
    forall r, f | r in Decode(connections) && f in r
      ensures Clean(f)
    {
      var n :| 0 <= n < |parts| - 1 && r == Split(parts[n], ' ');
      SplitParts(connections, ':', parts[n]);
      SplitParts(parts[n], ' ', f);
    }
  }

  /** The list is read back as it was printed exactly when no printed field contains a separator. */
  lemma DecodeEncodeIff(records: seq<seq<string>>)
    requires forall r :: r in records ==> |r| >= 1
    ensures Decode(Encode(records)) == records <==> AllClean(records)
  {
    DecodedIsClean(Encode(records));
    if AllClean(records) {
      SplitEncode(records);
      forall n | 0 <= n < |records|
        ensures Decode(Encode(records))[n] == records[n]
      {
        forall p | p in records[n]
          ensures ' ' !in p
        {
          assert Clean(p);
        }
        SplitJoin(records[n], ' ');
      }
      assert Decode(Encode(records)) == records;
    }
  }

  /** Two accepted lists with clean fields that print alike carry the same records in the same order. */
  lemma EncodingInjective(gw: VpnGw, conns: seq<IpsecConn>, gw': VpnGw, conns': seq<IpsecConn>)
    requires AllClean(Records(gw, conns)) && AllClean(Records(gw', conns'))
    requires Encode(Records(gw, conns)) == Encode(Records(gw', conns'))
    ensures Records(gw, conns) == Records(gw', conns')
  {
    forall r | r in Records(gw, conns) { RecordLengths(gw, conns, r); }
    forall r | r in Records(gw', conns') { RecordLengths(gw', conns', r); }
    DecodeEncodeIff(Records(gw, conns));
    DecodeEncodeIff(Records(gw', conns'));
  }

  // ---------- accepted lists that cannot be read back ----------

  /** A connection that is acceptable to gw whatever these three fields are, as long as they are not empty. */
  function Sample(gw: VpnGw, localCN: string, localEIP: string, remoteEIP: string): IpsecConn {
    IpsecConn(Key(gw.key.ns, "conn"), map[],
              IpsecConnSpec(gw.key.name, "pubkey", "2", "aes256", localCN, "10.0.0.2", "", "", localEIP, "10.0.0.0/16",
                            "sun", remoteEIP, "10.1.0.0/16", "aes256"))
  }

  lemma SampleAccepted(gw: VpnGw, localCN: string, localEIP: string, remoteEIP: string)
    requires gw.key.name != "" && (gw.spec.ipsecEnablePSK ==> gw.spec.defaultPSK != "")
    requires localCN != "" && localEIP != "" && remoteEIP != ""
    ensures var con := Sample(gw, localCN, localEIP, remoteEIP);
            Accepts(gw, [con]) && Records(gw, [con]) == [Fields(gw, con)]
  {
    var con := Sample(gw, localCN, localEIP, remoteEIP);
    hide Fields;
    assert con in [con] && Printed(con);
    assert [con][..0] == [];
    assert Records(gw, [con]) == Records(gw, []) + [Fields(gw, con)];
  }

  /** Every gateway accepts a list that does not read back: an IPv6 address is enough. */
  lemma AddressBreaksTheList(gw: VpnGw) returns (conns: seq<IpsecConn>)
    requires gw.key.name != "" && (gw.spec.ipsecEnablePSK ==> gw.spec.defaultPSK != "")
    ensures Accepts(gw, conns) && conns[0].spec.remoteEIP == "2001:db8::1"
    ensures Decode(Encode(Records(gw, conns))) != Records(gw, conns)
  {
    var con := Sample(gw, "moon", "192.0.2.1", "2001:db8::1");
    conns := [con];
    SampleAccepted(gw, "moon", "192.0.2.1", "2001:db8::1");
    var fields := Fields(gw, con);
    assert fields[8] == "2001:db8::1" && fields[8][4] == ':';
    assert !Clean(fields[8]) && fields[8] in fields && fields in Records(gw, conns);
    hide Fields, Clean, Accepts, Records;
    DecodeEncodeIff(Records(gw, conns));
  }

  /** Every gateway accepts two lists that differ in two fields of one record and print alike. */
  lemma DifferentListsPrintAlike(gw: VpnGw) returns (a: seq<IpsecConn>, b: seq<IpsecConn>)
    requires gw.key.name != "" && (gw.spec.ipsecEnablePSK ==> gw.spec.defaultPSK != "")
    ensures Accepts(gw, a) && Accepts(gw, b)
    ensures Records(gw, a) != Records(gw, b) && Encode(Records(gw, a)) == Encode(Records(gw, b))
  {
    a := [Sample(gw, "C=CH CN=moon", "192.0.2.1", "192.0.2.2")];
    b := [Sample(gw, "C=CH", "CN=moon 192.0.2.1", "192.0.2.2")];
    SampleAccepted(gw, "C=CH CN=moon", "192.0.2.1", "192.0.2.2");
    SampleAccepted(gw, "C=CH", "CN=moon 192.0.2.1", "192.0.2.2");
    var f, g := Fields(gw, a[0]), Fields(gw, b[0]);
    assert |f[4]| == 12 && |g[4]| == 4;
    assert f[4] + " " + f[5] == g[4] + " " + g[5];
    assert f[..4] == g[..4] && f[6..] == g[6..];
    hide *;
    PrintAlike(f, g);
    EncodeSnoc([], f);
    EncodeSnoc([], g);
    assert [] + [f] == [f] && [] + [g] == [g];
  }

  /** Moving a separator from one field to the next does not show. */
  lemma PrintAlike(f: seq<string>, g: seq<string>)
    requires |f| == |g| > 6 && f[..4] == g[..4] && f[6..] == g[6..]
    requires f[4] + " " + f[5] == g[4] + " " + g[5]
    ensures Join(f, ' ') == Join(g, ' ')
  {
    var front, back := f[..4], f[6..];
    assert f == front + [f[4], f[5]] + back && g == front + [g[4], g[5]] + back;
    hide Join;
    MiddleJoin(front, f[4], f[5], back);
    MiddleJoin(front, g[4], g[5], back);
  }

  lemma MiddleJoin(front: seq<string>, x: string, y: string, back: seq<string>)
    requires |front| >= 1 && |back| >= 1
    ensures Join(front + [x, y] + back, ' ') == Join(front, ' ') + [' '] + (x + " " + y) + [' '] + Join(back, ' ')
  {
    assert Join([x, y], ' ') == x + " " + y;
    JoinConcat(front, ' ', [x, y]);
    JoinConcat(front + [x, y], ' ', back);
  }
}
