/**
  The other end of the connection list: the script in the gateway's pods that takes it apart again, field by field,
  and whether it gets what the connections ask for.
 */
module ConnectionScript {
  import opened Api
  import opened GoStrings
  import opened GatewayTypes
  import opened IpsecEncoding
  import opened GatewayController

  /** What the script writes down for one connection, with one constructor for each of its two modes. */
  datatype Setting =
    | X509(
        name: string, auth: string, ikeVersion: string, ikeProposals: string,
        localCN: string, localEIP: string, localPrivateCidrs: string,
        remoteCN: string, remoteEIP: string, remotePrivateCidrs: string)
    | PSK(
        name: string, auth: string, ikeVersion: string, ikeProposals: string,
        localVIP: string, localEIP: string, localPrivateCidrs: string,
        remoteEIP: string, remotePrivateCidrs: string,
        defaultPSK: string, espProposals: string, localVipGateway: string, localGatewayNic: string)

  // ---------- the script ----------

  function DropEmpty(words: seq<string>): seq<string> {
    if words == [] then [] else (if words[0] == "" then [] else [words[0]]) + DropEmpty(words[1..])
  }

  /** read -a with a space as IFS: spaces in a row count as one. */
  function Words(line: string): seq<string> {
    DropEmpty(Split(line, ' '))
  }

  /** read -a with a colon as IFS: one line, split at colons, the last of which may end it. */
  function Lines(text: string): seq<string> {
    var parts := Split(Split(text, '\n')[0], ':');
    if parts[|parts| - 1] == "" then parts[..|parts| - 1] else parts
  }

  /** A word that is not there is an unset variable, at which the script stops. */
  function ReadX509(conn: seq<string>): Option<Setting> {
    if |conn| < 10 then None
    else Some(X509(conn[0], conn[1], conn[2], conn[3], conn[4], conn[5], conn[6], conn[7], conn[8], conn[9]))
  }

  function ReadPSK(conn: seq<string>): Option<Setting> {
    if |conn| < 11 then None
    else
      Some(PSK(conn[0], conn[1], conn[2], conn[3], conn[4], conn[5], conn[6], conn[7], conn[8], conn[9], conn[10],
               if |conn| == 13 then conn[11] else "", if |conn| == 13 then conn[12] else ""))
  }

  function ReadOne(psk: bool, line: string): Option<Setting> {
    if psk then ReadPSK(Words(line)) else ReadX509(Words(line))
  }

  /** The loop over the records; it gets to the end only if every record can be read. */
  function ReadAll(psk: bool, lines: seq<string>): Option<seq<Setting>> {
    if lines == [] then Some([])
    else
      var front, last := ReadAll(psk, lines[..|lines| - 1]), ReadOne(psk, lines[|lines| - 1]);
      if front.None? || last.None? then None else Some(front.value + [last.value])
  }

  function Reads(psk: bool, connections: string): Option<seq<Setting>> {
    ReadAll(psk, Lines(connections))
  }

  /** The script by its command line. */
  function Runs(command: string): Option<seq<Setting>> {
    var args := Split(command, ' ');
    if |args| < 2 || args[0] != "/connection.sh" then None
    else if args[1] == "refresh-psk" then Reads(true, Join(args[2..], ' '))
    else if args[1] == "refresh-x509" then Reads(false, Join(args[2..], ' '))
    else None
  }

  // ---------- what it should get ----------

  function WantedX509(con: IpsecConn): Setting {
    var c := con.spec;
    X509(
      name := con.key.name, auth := c.auth, ikeVersion := c.ikeVersion, ikeProposals := c.ikeProposals,
      localCN := c.localCN, localEIP := c.localEIP, localPrivateCidrs := c.localPrivateCidrs,
      remoteCN := c.remoteCN, remoteEIP := c.remoteEIP, remotePrivateCidrs := c.remotePrivateCidrs)
  }

  function WantedPSK(gw: VpnGw, con: IpsecConn): Setting {
    var c := con.spec;
    var both := c.localGateway != "" && c.localGatewayNic != "";
    PSK(
      name := con.key.name, auth := c.auth, ikeVersion := c.ikeVersion, ikeProposals := c.ikeProposals,
      localVIP := c.localVIP, localEIP := c.localEIP, localPrivateCidrs := c.localPrivateCidrs,
      remoteEIP := c.remoteEIP, remotePrivateCidrs := c.remotePrivateCidrs,
      defaultPSK := gw.spec.defaultPSK, espProposals := c.espProposals,
      localVipGateway := if both then c.localGateway else "", localGatewayNic := if both then c.localGatewayNic else "")
  }

  /** What a gateway asks of its pods for a connection, in the mode of the gateway. */
  function Wanted(gw: VpnGw, con: IpsecConn): Setting {
    if gw.spec.ipsecEnablePSK then WantedPSK(gw, con) else WantedX509(con)
  }

  function WantedAll(gw: VpnGw, conns: seq<IpsecConn>): seq<Setting> {
    if conns == [] then []
    else
      var last := conns[|conns| - 1];
      WantedAll(gw, conns[..|conns| - 1]) + if Printed(last) then [Wanted(gw, last)] else []
  }

  /** The connection authenticates the way the gateway does. */
  predicate Matches(gw: VpnGw, con: IpsecConn) {
    con.spec.auth == if gw.spec.ipsecEnablePSK then "psk" else "pubkey"
  }

  /** The record of a connection, read by position in the mode of its own authentication, is the connection. */
  lemma RecordReadsBack(gw: VpnGw, con: IpsecConn)
    ensures con.spec.auth == "pubkey" ==> ReadX509(Fields(gw, con)) == Some(WantedX509(con))
    ensures con.spec.auth == "psk" ==> ReadPSK(Fields(gw, con)) == Some(WantedPSK(gw, con))
  {
    assert "pubkey" != "psk" by { assert "pubkey"[1] != "psk"[1]; }
  }

  // ---------- one record ----------

  lemma {:induction false} DropNone(words: seq<string>)
    requires "" !in words
    ensures DropEmpty(words) == words
  {
    if words != [] {
      DropNone(words[1..]);
    }
  }

  lemma {:induction false} DropLater(some: seq<string>, more: seq<string>)
    requires "" !in some
    ensures DropEmpty(some + more) == some + DropEmpty(more)
    decreases |some|
  {
    if some == [] {
      assert some + more == more;
    } else {
      assert (some + more)[1..] == some[1..] + more;
      DropLater(some[1..], more);
    }
  }

  /** Every field of a record that is read in its own mode is there. */
  lemma FieldsAreThere(gw: VpnGw, con: IpsecConn)
    requires Acceptable(gw, con) && Printed(con) && con.key.name != "" && Matches(gw, con)
    requires gw.spec.ipsecEnablePSK ==> gw.spec.defaultPSK != ""
    ensures "" !in Fields(gw, con)
  {
    assert "pubkey" != "psk" by { assert "pubkey"[1] != "psk"[1]; }
  }

  /** The address and the networks of the other side tell a record that is read in the wrong mode. */
  lemma WrongMode(gw: VpnGw, con: IpsecConn)
    requires Acceptable(gw, con) && Printed(con) && con.key.name != "" && !Matches(gw, con)
    requires con.spec.remoteEIP != con.spec.remotePrivateCidrs
    ensures gw.spec.ipsecEnablePSK ==> ReadPSK(DropEmpty(Fields(gw, con))) == None
    ensures !gw.spec.ipsecEnablePSK ==> ReadX509(DropEmpty(Fields(gw, con))) != Some(WantedX509(con))
  {
    assert "pubkey" != "psk" by { assert "pubkey"[1] != "psk"[1]; }
    var fields := Fields(gw, con);
    if gw.spec.ipsecEnablePSK {
      DropNone(fields);
    } else {
      DropLater(fields[..9], fields[9..]);
      assert fields == fields[..9] + fields[9..];
      assert fields[8] == con.spec.remotePrivateCidrs;
    }
    hide DropEmpty;
  }

  function ReadWords(psk: bool, conn: seq<string>): Option<Setting> {
    if psk then ReadPSK(conn) else ReadX509(conn)
  }

  lemma RecordReadsIff(gw: VpnGw, con: IpsecConn)
    requires Acceptable(gw, con) && Printed(con) && con.key.name != ""
    requires gw.spec.ipsecEnablePSK ==> gw.spec.defaultPSK != ""
    requires con.spec.remoteEIP != con.spec.remotePrivateCidrs
    ensures ReadWords(gw.spec.ipsecEnablePSK, DropEmpty(Fields(gw, con))) == Some(Wanted(gw, con)) <==> Matches(gw, con)
  {
    if Matches(gw, con) {
      FieldsAreThere(gw, con);
      DropNone(Fields(gw, con));
      RecordReadsBack(gw, con);
    } else {
      WrongMode(gw, con);
    }
    hide Fields, Acceptable, DropEmpty, ReadPSK, ReadX509, WantedPSK, WantedX509;
  }

  // ---------- the whole list ----------

  /** A field that neither the separators of the list nor the end of a line cut. */
  predicate Plain(field: string) {
    Clean(field) && '\n' !in field
  }

  predicate AllPlain(records: seq<seq<string>>) {
    forall r, f :: r in records && f in r ==> Plain(f)
  }

  function Joined(records: seq<seq<string>>): seq<string> {
    seq(|records|, n requires 0 <= n < |records| => Join(records[n], ' '))
  }

  lemma {:induction false} OneLine(records: seq<seq<string>>)
    requires AllPlain(records)
    ensures '\n' !in Encode(records)
  {
    if records != [] {
      assert records[0] in records && forall r :: r in records[1..] ==> r in records;
      OneLine(records[1..]);
      assert forall f :: f in records[0] ==> Plain(f) && '\n' !in f;
      JoinFree(records[0], ' ', '\n');
    }
  }

  lemma LinesOfEncoded(records: seq<seq<string>>)
    requires AllPlain(records)
    ensures Lines(Encode(records)) == Joined(records)
  {
    assert AllClean(records) by {
      assert forall r, f :: r in records && f in r ==> Plain(f);
    }
    OneLine(records);
    SplitFree(Encode(records), '\n');
    SplitEncode(records);
    hide Encode, Split, Join;
    var parts := Split(Encode(records), ':');
    assert parts[..|parts| - 1] == Joined(records);
  }

  lemma WordsOfRecord(record: seq<string>)
    requires |record| >= 1 && forall f :: f in record ==> Plain(f)
    ensures Words(Join(record, ' ')) == DropEmpty(record)
  {
    assert forall f :: f in record ==> Plain(f) && ' ' !in f;
    SplitJoin(record, ' ');
    hide Split, Join, DropEmpty;
  }

  /** The list as a whole is read back exactly if every record is. */
  lemma {:induction false} ReadsList(gw: VpnGw, conns: seq<IpsecConn>)
    requires forall con :: con in conns ==> Readable(gw, con)
    requires AllPlain(Records(gw, conns))
    ensures ReadAll(gw.spec.ipsecEnablePSK, Joined(Records(gw, conns))) == Some(WantedAll(gw, conns)) <==>
            AllMatch(gw, conns)
    decreases |conns|
  {
    if conns == [] {
      assert Joined(Records(gw, conns)) == [];
    } else {
      var front, last := conns[..|conns| - 1], conns[|conns| - 1];
      assert conns == front + [last];
      RecordsSplit(gw, conns);
      WantedSplit(gw, conns);
      MatchSnoc(gw, front, last);
      ReadsList(gw, front);
      if Printed(last) {
        LastReadsIff(gw, conns);
        hide *;
        var line := Join(Fields(gw, last), ' ');
        JoinedSnoc(Records(gw, front), Fields(gw, last));
        ReadAllSnocIff(gw.spec.ipsecEnablePSK, Joined(Records(gw, front)), line, WantedAll(gw, front),
                       Wanted(gw, last));
      } else {
        hide *;
      }
    }
  }

  lemma WantedSplit(gw: VpnGw, conns: seq<IpsecConn>)
    requires conns != []
    ensures var front, last := conns[..|conns| - 1], conns[|conns| - 1];
            && (Printed(last) ==> WantedAll(gw, conns) == WantedAll(gw, front) + [Wanted(gw, last)])
            && (!Printed(last) ==> WantedAll(gw, conns) == WantedAll(gw, front))
  {
    hide Wanted;
  }

  lemma JoinedSnoc(records: seq<seq<string>>, record: seq<string>)
    ensures Joined(records + [record]) == Joined(records) + [Join(record, ' ')]
  {
    hide Join;
  }

  ghost predicate AllMatch(gw: VpnGw, conns: seq<IpsecConn>) {
    forall con :: con in conns && Printed(con) ==> Matches(gw, con)
  }

  lemma MatchSnoc(gw: VpnGw, front: seq<IpsecConn>, last: IpsecConn)
    ensures AllMatch(gw, front + [last]) <==> AllMatch(gw, front) && (Printed(last) ==> Matches(gw, last))
  {
    hide Printed, Matches;
    assert last in front + [last];
    assert forall con :: con in front + [last] <==> con in front || con == last;
  }

  /** What a connection needs to be told apart from others: a name, and an address that is not a list of networks. */
  predicate Readable(gw: VpnGw, con: IpsecConn) {
    && Acceptable(gw, con) && (gw.spec.ipsecEnablePSK ==> gw.spec.defaultPSK != "")
    && con.key.name != "" && con.spec.remoteEIP != con.spec.remotePrivateCidrs
  }

  lemma ReadAllSnoc(psk: bool, lines: seq<string>, line: string)
    ensures ReadAll(psk, lines + [line]) ==
            if ReadAll(psk, lines).Some? && ReadOne(psk, line).Some?
            then Some(ReadAll(psk, lines).value + [ReadOne(psk, line).value]) else None
  {
    assert (lines + [line])[..|lines|] == lines;
    hide ReadOne;
  }

  lemma ReadAllSnocIff(psk: bool, lines: seq<string>, line: string, some: seq<Setting>, one: Setting)
    ensures ReadAll(psk, lines + [line]) == Some(some + [one]) <==>
            ReadAll(psk, lines) == Some(some) && ReadOne(psk, line) == Some(one)
  {
    ReadAllSnoc(psk, lines, line);
    hide ReadOne, ReadAll;
    if ReadAll(psk, lines + [line]) == Some(some + [one]) {
      var read := ReadAll(psk, lines).value + [ReadOne(psk, line).value];
      assert read[..|read| - 1] == some && read[|read| - 1] == one;
    }
  }

  lemma LastReadsIff(gw: VpnGw, conns: seq<IpsecConn>)
    requires conns != [] && Printed(conns[|conns| - 1]) && Readable(gw, conns[|conns| - 1])
    requires AllPlain(Records(gw, conns))
    ensures var last := conns[|conns| - 1];
            ReadOne(gw.spec.ipsecEnablePSK, Join(Fields(gw, last), ' ')) == Some(Wanted(gw, last)) <==>
            Matches(gw, last)
  {
    var last := conns[|conns| - 1];
    var record := Fields(gw, last);
    assert |record| >= 1;
    RecordReadsIff(gw, last);
    assert record in Records(gw, conns) by { RecordsSplit(gw, conns); }
    hide Words, DropEmpty, Join, Fields, Records, Matches, Wanted;
    assert forall f :: f in record ==> Plain(f);
    WordsOfRecord(record);
  }

  lemma RecordsSplit(gw: VpnGw, conns: seq<IpsecConn>)
    requires conns != []
    ensures var front, last := conns[..|conns| - 1], conns[|conns| - 1];
            && (Printed(last) ==> Records(gw, conns) == Records(gw, front) + [Fields(gw, last)])
            && (!Printed(last) ==> Records(gw, conns) == Records(gw, front))
            && (AllPlain(Records(gw, conns)) ==> AllPlain(Records(gw, front)))
  {
  }

  /**
    Of an accepted list with plain fields, the script gets what each connection asks for, in list order, exactly if
    every printed connection authenticates the way the gateway does, which nothing checks. An address is not a list
    of networks.
   */
  lemma ScriptReadsIff(gw: VpnGw, conns: seq<IpsecConn>)
    requires Accepts(gw, conns) && AllPlain(Records(gw, conns))
    requires forall con :: con in conns ==> con.key.name != "" && con.spec.remoteEIP != con.spec.remotePrivateCidrs
    ensures Reads(gw.spec.ipsecEnablePSK, Encode(Records(gw, conns))) == Some(WantedAll(gw, conns)) <==>
            AllMatch(gw, conns)
  {
    hide Acceptable, Matches, Records, Encode, AllPlain, ReadAll, Lines, Printed;
    ReadsList(gw, conns);
    LinesOfEncoded(Records(gw, conns));
  }

  function Mode(gw: VpnGw): string {
    if gw.spec.ipsecEnablePSK then "refresh-psk" else "refresh-x509"
  }

  lemma CommandParts(gw: VpnGw, connections: string)
    ensures RefreshCommand(gw, connections) == "/connection.sh" + [' '] + (Mode(gw) + [' '] + connections)
    ensures ' ' !in "/connection.sh" && ' ' !in Mode(gw)
    ensures (Mode(gw) == "refresh-psk" <==> gw.spec.ipsecEnablePSK)
    ensures (Mode(gw) == "refresh-x509" <==> !gw.spec.ipsecEnablePSK)
  {
    assert "refresh-psk" != "refresh-x509" by { assert "refresh-psk"[8] != "refresh-x509"[8]; }
    assert RefreshCommand(gw, connections) == "/connection.sh " + (Mode(gw) + " ") + connections;
  }

  /** The command that a gateway executes starts the script in the gateway's mode and hands it the list. */
  lemma CommandRuns(gw: VpnGw, connections: string)
    ensures Runs(RefreshCommand(gw, connections)) == Reads(gw.spec.ipsecEnablePSK, connections)
  {
    var script, mode, args := "/connection.sh", Mode(gw), Split(connections, ' ');
    CommandParts(gw, connections);
    hide RefreshCommand, Split, Join, Reads, Mode;
    SplitConcat(script, mode + [' '] + connections, ' ');
    SplitConcat(mode, connections, ' ');
    SplitFree(script, ' ');
    SplitFree(mode, ' ');
    JoinSplit(connections, ' ');
    assert ([script] + ([mode] + args))[2..] == args;
  }

  // ---------- accepted lists in the wrong mode ----------

  lemma ReadsOneRecord(psk: bool, record: seq<string>)
    requires |record| >= 1 && forall f :: f in record ==> Plain(f)
    ensures Reads(psk, Encode([record])) ==
            match ReadWords(psk, DropEmpty(record))
            case None => None
            case Some(setting) => Some([setting])
  {
    var line := Join(record, ' ');
    hide *;
    PlainOne(record);
    LinesOfEncoded([record]);
    WordsOfRecord(record);
    JoinedSnoc([], record);
    ReadAllSnoc(psk, [], line);
    OneLineRead(psk, line);
    ReadsLines(psk, Encode([record]));
    assert [] + [record] == [record] && Joined([]) + [line] == [] + [line];
    var one := ReadWords(psk, DropEmpty(record));
    assert one.Some? ==> [] + [one.value] == [one.value];
  }

  lemma ReadsLines(psk: bool, text: string)
    ensures Reads(psk, text) == ReadAll(psk, Lines(text))
  {
    hide ReadAll, Lines;
  }

  lemma PlainOne(record: seq<string>)
    requires forall f :: f in record ==> Plain(f)
    ensures AllPlain([record])
  {
    hide Plain;
  }

  lemma OneLineRead(psk: bool, line: string)
    ensures ReadOne(psk, line) == ReadWords(psk, Words(line))
    ensures ReadAll(psk, []) == Some([]) && Joined([]) == []
  {
    hide Words, ReadPSK, ReadX509;
  }

  const CERTIFICATE_RECORD := [
    "conn", "pubkey", "2", "aes256", "moon", "192.0.2.1", "10.0.0.0/16", "sun", "192.0.2.2", "10.1.0.0/16"]

  const KEY_RECORD := [
    "conn", "psk", "2", "aes256", "10.0.0.2", "192.0.2.1", "10.0.0.0/16", "192.0.2.2", "10.1.0.0/16"]

  lemma SampleRecords(f: string)
    requires f in CERTIFICATE_RECORD || f in KEY_RECORD || f == "aes256"
    ensures Plain(f) && f != ""
  {
  }

  /** Every gateway with a pre-shared key accepts a connection with certificates, at which its script stops. */
  lemma CertificatesStopTheScript(gw: VpnGw) returns (con: IpsecConn)
    requires gw.key.name != "" && gw.spec.ipsecEnablePSK && gw.spec.defaultPSK != ""
    ensures Accepts(gw, [con]) && Reads(gw.spec.ipsecEnablePSK, Encode(Records(gw, [con]))) == None
  {
    con := Sample(gw, "moon", "192.0.2.1", "192.0.2.2");
    SampleAccepted(gw, "moon", "192.0.2.1", "192.0.2.2");
    var record := Fields(gw, con);
    assert record == CERTIFICATE_RECORD;
    hide Accepts, Records, Fields, Encode, Plain, Reads, DropEmpty;
    forall f | f in record
      ensures Plain(f) && f != ""
    {
      SampleRecords(f);
    }
    ReadsOneRecord(true, record);
    DropNone(record);
  }

  /**
    Every gateway without one accepts a connection with a pre-shared key, of which its script takes the networks of
    the other side for its address.
   */
  lemma KeysAreMisread(gw: VpnGw) returns (con: IpsecConn)
    requires gw.key.name != "" && !gw.spec.ipsecEnablePSK && Plain(gw.spec.defaultPSK)
    ensures Accepts(gw, [con]) && con.spec.remoteEIP == "192.0.2.2" && con.spec.remotePrivateCidrs == "10.1.0.0/16"
    ensures var read := Reads(gw.spec.ipsecEnablePSK, Encode(Records(gw, [con])));
            read.Some? && |read.value| == 1 && read.value[0].X509? && read.value[0].remoteEIP == "10.1.0.0/16"
  {
    var sample := Sample(gw, "moon", "192.0.2.1", "192.0.2.2");
    con := sample.(spec := sample.spec.(auth := "psk"));
    var record := Fields(gw, con);
    var rest := [gw.spec.defaultPSK, "aes256"];
    assert "psk"[0] == "pubkey"[0] && "psk"[1] != "pubkey"[1];
    assert record == KEY_RECORD + rest;
    assert con in [con] && [con][..0] == [] && Acceptable(gw, con);
    assert Records(gw, [con]) == Records(gw, []) + [record] == [record];
    hide Records, Fields, Encode, Plain, Reads, DropEmpty, Acceptable;
    forall f | f in record
      ensures Plain(f) && (f in KEY_RECORD ==> f != "")
    {
      if f != gw.spec.defaultPSK || f in KEY_RECORD {
        SampleRecords(f);
      }
    }
    ReadsOneRecord(false, record);
    DropLater(KEY_RECORD, rest);
    RestReads(gw.spec.defaultPSK);
  }

  lemma RestReads(defaultPSK: string)
    ensures |DropEmpty([defaultPSK, "aes256"])| >= 1
  {
    assert [defaultPSK, "aes256"][1..] == ["aes256"];
  }
}
