/**
  The IpsecConn reconciler copies spec.vpnGw into a label, and a gateway finds its connections
  by that label. This module shows when the label can be trusted as an index.
 */
module LabelIndex {
  import opened Api
  import opened GatewayTypes
  import opened IpsecEncoding
  import opened GatewayController
  import ConnectionScript
  import GatewayWorkload

  function LabelsForIpsecConnection(con: IpsecConn): map<string, string> {
    map[VPN_GW_LABEL := con.spec.vpnGw]
  }

  // ---------- the merge patch ----------

  predicate Drops(read: map<string, string>, want: map<string, string>, k: string) {
    k in read && k !in want
  }

  predicate Sets(read: map<string, string>, want: map<string, string>, k: string) {
    k in want && (k !in read || read[k] != want[k])
  }

  /** A merge patch carries only the difference between what was read and what is wanted. */
  function Patched(read: map<string, string>, want: map<string, string>, stored: map<string, string>)
    : map<string, string>
  {
    map k | k in stored.Keys + want.Keys && !Drops(read, want, k) && (Sets(read, want, k) || k in stored) ::
      if Sets(read, want, k) then want[k] else stored[k]
  }

  class ConnStore {
    var conns: map<Key, IpsecConn>

    constructor ()
      ensures conns == map[]
    {
      conns := map[];
    }

    /** Patch without an optimistic lock: it lands on whatever object has the key now. */
    method Patch(key: Key, read: IpsecConn, labels: map<string, string>, up: bool) returns (ok: bool)
      modifies this
      ensures ok <==> up && key in old(conns)
      ensures conns == if ok then Relabelled(old(conns), key, Patched(read.labels, labels, old(conns)[key].labels))
                       else old(conns)
    {
      ok := up && key in conns;
      if ok {
        var stored := conns[key];
        conns := conns[key := stored.(labels := Patched(read.labels, labels, stored.labels))];
      }
    }
  }

  function Relabelled(conns: map<Key, IpsecConn>, key: Key, labels: map<string, string>): map<Key, IpsecConn>
    requires key in conns
  {
    conns[key := conns[key].(labels := labels)]
  }

  /** The validation only logs: an invalid connection is labelled like any other. */
  method HandleAddOrUpdateIpsecConnection(store: ConnStore, key: Key, get: Reply<IpsecConn>, up: bool)
    returns (res: SyncState)
    modifies store
    ensures !get.Found? ==> store.conns == old(store.conns) && res == if get.Failed? then Error else Success
    ensures get.Found? ==> res == if up && key in old(store.conns) then Success else Error
    ensures get.Found? ==> store.conns == PatchWith(old(store.conns), key, get.value, up)
  {
    match get {
      case Failed => return Error;
      case NotFound => return Success;
      case Found(con) =>
        var ok := store.Patch(key, con, LabelsForIpsecConnection(con), up);
        return if ok then Success else Error;
    }
  }

  function PatchWith(conns: map<Key, IpsecConn>, key: Key, read: IpsecConn, up: bool): map<Key, IpsecConn> {
    if up && key in conns then
      Relabelled(conns, key, Patched(read.labels, LabelsForIpsecConnection(read), conns[key].labels))
    else conns
  }

  // ---------- runs ----------

  /** The one reconcile under way: what it read, and whether that is still what is stored. */
  datatype Flight = Flight(key: Key, read: IpsecConn, current: bool)

  /** settled holds the keys of connections patched by a reconcile that read them as they are now. */
  datatype Index = Index(conns: map<Key, IpsecConn>, flight: Option<Flight>, settled: set<Key>)

  datatype Step =
    | Put(con: IpsecConn)                  // create, or edit the specification or the labels
    | Delete(key: Key)
    | Read(key: Key, reply: IpsecConn)     // the reply may be out of date
    | Patch(up: bool)

  function Touched(ix: Index, key: Key): Option<Flight> {
    if ix.flight.Some? && ix.flight.value.key == key then Some(ix.flight.value.(current := false)) else ix.flight
  }

  function Next(ix: Index, s: Step): Index {
    match s
    case Put(con) => Index(ix.conns[con.key := con], Touched(ix, con.key), ix.settled - {con.key})
    case Delete(key) => Index(ix.conns - {key}, Touched(ix, key), ix.settled - {key})
    case Read(key, reply) => ix.(flight := Some(Flight(key, reply, key in ix.conns && ix.conns[key] == reply)))
    case Patch(up) =>
      if ix.flight.None? then ix
      else
        var f := ix.flight.value;
        Index(PatchWith(ix.conns, f.key, f.read, up), None,
              if !up then ix.settled else if f.current then ix.settled + {f.key} else ix.settled - {f.key})
  }

  function Run(ix: Index, steps: seq<Step>): Index
    decreases |steps|
  {
    if steps == [] then ix else Run(Next(ix, steps[0]), steps[1..])
  }

  ghost predicate Labelled(con: IpsecConn) {
    VPN_GW_LABEL in con.labels && con.labels[VPN_GW_LABEL] == con.spec.vpnGw
  }

  ghost predicate Inv(ix: Index) {
    && (forall k :: k in ix.settled ==> k in ix.conns && Labelled(ix.conns[k]))
    && (ix.flight.Some? && ix.flight.value.current ==>
          ix.flight.value.key in ix.conns && ix.conns[ix.flight.value.key] == ix.flight.value.read)
  }

  /** A patch made from the stored object leaves the gateway label and nothing else. */
  lemma PatchedFromCurrent(con: IpsecConn)
    ensures Patched(con.labels, LabelsForIpsecConnection(con), con.labels) == LabelsForIpsecConnection(con)
  {
  }

  /**
    A patch puts right what its reader saw wrong, and leaves alone what the reader saw right or what concerns neither
    what was read nor what is wanted.
   */
  lemma PatchLaws(read: map<string, string>, want: map<string, string>, stored: map<string, string>, k: string)
    ensures k in want && !(k in read && read[k] == want[k]) ==>
              k in Patched(read, want, stored) && Patched(read, want, stored)[k] == want[k]
    ensures k in read && k !in want ==> k !in Patched(read, want, stored)
    ensures (k in want && k in read && read[k] == want[k]) || (k !in want && k !in read) ==>
              (k in Patched(read, want, stored) <==> k in stored) &&
              (k in stored ==> Patched(read, want, stored)[k] == stored[k])
    ensures Patched(read, want, read) == want
  {
    assert Patched(read, want, read).Keys == want.Keys;
  }

  /**
    After a patch from an old read, the gateway's label is that of the present specification exactly if the read had
    this gateway in its specification too, and either had another label or the stored label is right as it is.
   */
  lemma StalePatchIff(read: IpsecConn, stored: IpsecConn)
    ensures var after := stored.(labels := Patched(read.labels, LabelsForIpsecConnection(read), stored.labels));
            Labelled(after) <==>
              if Labelled(read) then Labelled(stored) else read.spec.vpnGw == stored.spec.vpnGw
  {
    PatchLaws(read.labels, LabelsForIpsecConnection(read), stored.labels, VPN_GW_LABEL);
    hide Patched;
  }

  lemma NextKeepsInv(ix: Index, s: Step)
    requires Inv(ix)
    ensures Inv(Next(ix, s))
  {
    if s.Patch? && ix.flight.Some? && ix.flight.value.current {
      PatchedFromCurrent(ix.flight.value.read);
    }
  }

  lemma {:induction false} RunKeepsInv(ix: Index, steps: seq<Step>)
    requires Inv(ix)
    ensures Inv(Run(ix, steps))
    decreases |steps|
  {
    if steps != [] {
      NextKeepsInv(ix, steps[0]);
      RunKeepsInv(Next(ix, steps[0]), steps[1..]);
    }
  }

  const EMPTY := Index(map[], None, {})

  /** A connection that the gateway's listing returns; listing ignores namespaces. */
  predicate HasLabel(con: IpsecConn, gateway: string) {
    VPN_GW_LABEL in con.labels && con.labels[VPN_GW_LABEL] == gateway
  }

  /** Whatever happened before, once every connection is settled the label is exactly the field. */
  lemma IndexAgrees(steps: seq<Step>, key: Key, gateway: string)
    requires var ix := Run(EMPTY, steps);
             ix.settled == ix.conns.Keys && key in ix.conns
    ensures var con := Run(EMPTY, steps).conns[key];
            HasLabel(con, gateway) <==> con.spec.vpnGw == gateway
  {
    RunKeepsInv(EMPTY, steps);
  }

  /** One reconcile of each of the keys, with nothing in between. */
  function Rounds(ix: Index, keys: seq<Key>): seq<Step>
    requires forall k :: k in keys ==> k in ix.conns
    decreases |keys|
  {
    if keys == [] then []
    else
      [Read(keys[0], ix.conns[keys[0]]), Patch(true)] + Rounds(Round(ix, keys[0]), keys[1..])
  }

  function Round(ix: Index, key: Key): Index
    requires key in ix.conns
  {
    Next(Next(ix, Read(key, ix.conns[key])), Patch(true))
  }

  lemma RoundSettles(ix: Index, key: Key)
    requires key in ix.conns
    ensures var next := Round(ix, key);
            && next.settled == ix.settled + {key}
            && next.conns.Keys == ix.conns.Keys
            && forall k :: k in ix.conns ==> next.conns[k].spec == ix.conns[k].spec
  {
    hide Patched;
  }

  lemma RunTwo(ix: Index, a: Step, b: Step, rest: seq<Step>)
    ensures Run(ix, [a, b] + rest) == Run(Next(Next(ix, a), b), rest)
  {
    hide Next;
    assert ([a, b] + rest)[1..] == [b] + rest;
    assert ([b] + rest)[1..] == rest;
  }

  lemma RunRounds(ix: Index, keys: seq<Key>)
    requires keys != [] && forall k :: k in keys ==> k in ix.conns
    ensures keys[0] in ix.conns
    ensures forall k :: k in keys[1..] ==> k in Round(ix, keys[0]).conns
    ensures Run(ix, Rounds(ix, keys)) == Run(Round(ix, keys[0]), Rounds(Round(ix, keys[0]), keys[1..]))
  {
    RoundSettles(ix, keys[0]);
    assert forall k :: k in keys[1..] ==> k in keys;
    hide Next, Run;
    RunTwo(ix, Read(keys[0], ix.conns[keys[0]]), Patch(true), Rounds(Round(ix, keys[0]), keys[1..]));
  }

  lemma {:induction false} RoundsSettle(ix: Index, keys: seq<Key>)
    requires forall k :: k in keys ==> k in ix.conns
    ensures var after := Run(ix, Rounds(ix, keys));
            && after.settled == ix.settled + (set k | k in keys)
            && after.conns.Keys == ix.conns.Keys
            && forall k :: k in ix.conns ==> after.conns[k].spec == ix.conns[k].spec
    decreases |keys|
  {
    if keys != [] {
      hide *;
      RoundSettles(ix, keys[0]);
      RunRounds(ix, keys);
      RoundsSettle(Round(ix, keys[0]), keys[1..]);
      assert (set k | k in keys) == {keys[0]} + set k | k in keys[1..];
    }
  }

  /** When edits stop, one reconcile of every connection is enough, from any state a run can reach. */
  lemma QuiescenceIndexes(steps: seq<Step>, keys: seq<Key>, gateway: string)
    requires var ix := Run(EMPTY, steps); (set k | k in keys) == ix.conns.Keys
    ensures var ix := Run(EMPTY, steps);
            var after := Run(ix, Rounds(ix, keys)).conns;
            && after.Keys == ix.conns.Keys
            && forall k :: k in after ==> (HasLabel(after[k], gateway) <==> ix.conns[k].spec.vpnGw == gateway)
  {
    var ix := Run(EMPTY, steps);
    RunKeepsInv(EMPTY, steps);
    assert forall k :: k in keys ==> k in (set k | k in keys);
    RoundsSettle(ix, keys);
    RunKeepsInv(ix, Rounds(ix, keys));
  }

  // ---------- namespaces ----------

  /** Neither listing nor validation nor printing looks at the namespace of a connection. */
  lemma NamespaceIsIgnored(gw: VpnGw, con: IpsecConn, ns: string)
    ensures var moved := con.(key := Key(ns, con.key.name));
            && (HasLabel(moved, gw.key.name) <==> HasLabel(con, gw.key.name))
            && (Acceptable(gw, moved) <==> Acceptable(gw, con))
            && (Printed(moved) <==> Printed(con))
            && Fields(gw, moved) == Fields(gw, con)
  {
  }

  /** Every gateway accepts, and sends to its pods, a connection of a namespace that is not its own. */
  lemma ForeignConnectionIsSent(gw: VpnGw) returns (con: IpsecConn)
    requires gw.key.name != "" && (gw.spec.ipsecEnablePSK ==> gw.spec.defaultPSK != "")
    ensures con.key.ns != gw.key.ns && HasLabel(con, gw.key.name)
    ensures Payload(gw, [con]) == Some(Encode([Fields(gw, con)]))
  {
    var own := Sample(gw, "moon", "192.0.2.1", "192.0.2.2").(labels := map[VPN_GW_LABEL := gw.key.name]);
    con := own.(key := Key(gw.key.ns + "x", own.key.name));
    assert |con.key.ns| != |gw.key.ns|;
    NamespaceIsIgnored(gw, own, con.key.ns);
    assert Acceptable(gw, con) && Printed(con) && con in [con];
    assert [con][..0] == [];
    hide Acceptable, Fields;
    assert Records(gw, [con]) == Records(gw, []) + [Fields(gw, con)];
    assert Records(gw, [con]) == [Fields(gw, con)];
  }

  // ---------- end to end ----------

  /** The reply to the gateway's listing: the connections of the store that carry its label, each once, in any order. */
  ghost predicate Lists(conns: map<Key, IpsecConn>, gateway: string, list: seq<IpsecConn>) {
    && (forall con :: con in list <==> con in conns.Values && HasLabel(con, gateway))
    && (forall m, n :: 0 <= m < n < |list| ==> list[m] != list[n])
  }

  /** The connections of a list that are printed. */
  function PrintedOf(list: seq<IpsecConn>): set<IpsecConn> {
    set con | con in list && Printed(con)
  }

  /** A list without repetitions prints one record for each printable connection. */
  lemma {:induction false} OneRecordEach(gw: VpnGw, list: seq<IpsecConn>)
    requires forall m, n :: 0 <= m < n < |list| ==> list[m] != list[n]
    ensures |Records(gw, list)| == |PrintedOf(list)|
    decreases |list|
  {
    if list != [] {
      var front, last := list[..|list| - 1], list[|list| - 1];
      assert list == front + [last];
      OneRecordEach(gw, front);
      assert last !in front;
      assert PrintedOf(list) == if Printed(last) then PrintedOf(front) + {last} else PrintedOf(front);
    } else {
      assert PrintedOf(list) == {};
    }
  }

  /** The printable connections of a store whose specification names the gateway. */
  function OwnPrinted(conns: map<Key, IpsecConn>, gateway: string): set<IpsecConn> {
    set con | con in conns.Values && con.spec.vpnGw == gateway && Printed(con)
  }

  /** The command was executed without error on each of the gateway's listed pods, at least one, and nowhere else. */
  ghost predicate RanOnOwnPods(gw: VpnGw, pods: seq<Pod>, events: seq<Event>, command: string) {
    && (exists p :: p in pods && IsPodOf(gw, p.labels))
    && (forall p :: p in pods && IsPodOf(gw, p.labels) ==> Event(Exec(gw.key.ns, p.name, command), true) in events)
    && (forall e :: e in events && e.call.Exec? ==>
          exists p :: p in pods && IsPodOf(gw, p.labels) && e == Event(Exec(gw.key.ns, p.name, command), true))
  }

  lemma ExecsRun(
    own: seq<Pod>, put: seq<Event>, execs: seq<Event>, status: seq<Event>, ns: string, command: string, p: Pod)
    requires |execs| == |own|
    requires forall n :: 0 <= n < |execs| ==> execs[n] == Event(Exec(ns, own[n].name, command), true)
    requires p in own
    ensures Event(Exec(ns, p.name, command), true) in put + execs + status
  {
    var n :| 0 <= n < |own| && own[n] == p;
    assert execs[n] in execs;
  }

  lemma ExecsOnly(
    own: seq<Pod>, put: seq<Event>, execs: seq<Event>, status: seq<Event>, ns: string, command: string, e: Event)
    requires |execs| == |own|
    requires forall n :: 0 <= n < |execs| ==> execs[n] == Event(Exec(ns, own[n].name, command), true)
    requires forall e :: e in put + status ==> !e.call.Exec?
    requires e in put + execs + status && e.call.Exec?
    ensures exists p :: p in own && e == Event(Exec(ns, p.name, command), true)
  {
    assert e in put + status || e in execs;
    var n :| 0 <= n < |execs| && execs[n] == e;
    assert own[n] in own;
  }

  lemma PodsMatch(r: Replies)
    requires r.gw.Found? && r.pods.Some?
    ensures PodsOf(r.gw.value, r) == Matching(PodSelector(r.gw.value), r.pods.value)
  {
    hide Matching, PodSelector;
  }

  lemma WrittenIsNotExec(call: Call)
    requires Written(call).Some?
    ensures !call.Exec?
  {
  }

  lemma SuccessParts(cfg: GatewayWorkload.Config, r: Replies)
    returns (put: seq<Event>, execs: seq<Event>, status: seq<Event>)
    requires r.gw.Found? && r.gw.value.spec.enableIPSecVpn && Reconcile(cfg, r).0 == Done(Success)
    ensures r.conns.Some? && Accepts(r.gw.value, r.conns.value) && r.pods.Some?
    ensures Reconcile(cfg, r).1 == put + execs + status
    ensures forall e :: e in put + status ==> !e.call.Exec?
    ensures var own := Matching(PodSelector(r.gw.value), r.pods.value);
            var command := RefreshCommand(r.gw.value, Encode(Records(r.gw.value, r.conns.value)));
            && own != [] && |execs| == |own|
            && forall n :: 0 <= n < |execs| ==>
                 execs[n] == Event(Exec(r.gw.value.key.ns, own[n].name, command), true)
  {
    hide *;
    put, execs, status := SuccessMeansDone(cfg, r);
    PodsMatch(r);
    forall e | e in put
      ensures !e.call.Exec?
    {
      WrittenIsNotExec(e.call);
    }
    forall n | 0 <= n < |execs|
      ensures execs[n].ok
    {
      assert execs[n] in put + execs + status;
    }
    assert forall e :: e in put + status ==> e in put || e in status;
  }

  lemma SuccessRuns(cfg: GatewayWorkload.Config, r: Replies)
    requires r.gw.Found? && r.gw.value.spec.enableIPSecVpn && Reconcile(cfg, r).0 == Done(Success)
    ensures r.conns.Some? && Accepts(r.gw.value, r.conns.value) && r.pods.Some?
    ensures RanOnOwnPods(r.gw.value, r.pods.value, Reconcile(cfg, r).1,
                         RefreshCommand(r.gw.value, Encode(Records(r.gw.value, r.conns.value))))
  {
    var gw := r.gw.value;
    hide Reconcile, Matching, IsPodOf, RefreshCommand, Encode, Records, Accepts, PodSelector;
    var put, execs, status := SuccessParts(cfg, r);
    var own := Matching(PodSelector(gw), r.pods.value);
    OwnPods(gw, r.pods.value);
    assert own[0] in own;
    var command := RefreshCommand(gw, Encode(Records(gw, r.conns.value)));
    forall p | p in own
      ensures Event(Exec(gw.key.ns, p.name, command), true) in put + execs + status
    {
      ExecsRun(own, put, execs, status, gw.key.ns, command, p);
    }
    forall e: Event | e in put + execs + status && e.call.Exec? {
      ExecsOnly(own, put, execs, status, gw.key.ns, command, e);
    }
  }

  /**
    A settled index, a listing taken from it, clean fields and a successful reconcile: every pod of the gateway was
    sent a list that decodes to the records of the listing in its order, one for each printable connection whose
    specification names the gateway.
   */
  lemma ListIsSent(steps: seq<Step>, cfg: GatewayWorkload.Config, r: Replies) returns (connections: string)
    requires var ix := Run(EMPTY, steps);
             ix.settled == ix.conns.Keys && r.gw.Found? && r.conns.Some? &&
             Lists(ix.conns, r.gw.value.key.name, r.conns.value)
    requires r.gw.value.spec.enableIPSecVpn && Reconcile(cfg, r).0 == Done(Success)
    requires AllClean(Records(r.gw.value, r.conns.value))
    ensures r.pods.Some? && RanOnOwnPods(r.gw.value, r.pods.value, Reconcile(cfg, r).1,
                                         RefreshCommand(r.gw.value, connections))
    ensures Decode(connections) == Records(r.gw.value, r.conns.value)
    ensures var own := OwnPrinted(Run(EMPTY, steps).conns, r.gw.value.key.name);
            && |Decode(connections)| == |own|
            && forall record :: record in Decode(connections) <==>
                exists con :: con in own && record == Fields(r.gw.value, con)
  {
    var gw, list := r.gw.value, r.conns.value;
    connections := Encode(Records(gw, list));
    assert forall m, n :: 0 <= m < n < |list| ==> list[m] != list[n];
    hide *;
    SuccessRuns(cfg, r);
    Readable(gw, list);
    OneRecordEach(gw, list);
    OwnIsListed(steps, gw, list);
    forall record { RecordsMember(gw, list, record); }
  }

  lemma {:induction false} RecordsMember(gw: VpnGw, list: seq<IpsecConn>, record: seq<string>)
    ensures record in Records(gw, list) <==> exists con :: con in PrintedOf(list) && record == Fields(gw, con)
  {
    if list != [] {
      var front, last := list[..|list| - 1], list[|list| - 1];
      RecordsMember(gw, front, record);
      assert list == front + [last];
      assert PrintedOf(list) == if Printed(last) then PrintedOf(front) + {last} else PrintedOf(front);
      hide Fields, Printed, PrintedOf;
    }
  }

  lemma {:induction false} WantedMember(gw: VpnGw, list: seq<IpsecConn>, s: ConnectionScript.Setting)
    ensures |ConnectionScript.WantedAll(gw, list)| == |Records(gw, list)|
    ensures s in ConnectionScript.WantedAll(gw, list) <==>
            exists con :: con in PrintedOf(list) && s == ConnectionScript.Wanted(gw, con)
  {
    if list != [] {
      var front, last := list[..|list| - 1], list[|list| - 1];
      WantedMember(gw, front, s);
      assert list == front + [last];
      assert PrintedOf(list) == if Printed(last) then PrintedOf(front) + {last} else PrintedOf(front);
      hide ConnectionScript.Wanted, Printed, Fields, PrintedOf;
    }
  }

  /**
    A settled index, a listing taken from it, plain fields, connections that authenticate the way the gateway does, and
    a successful reconcile: the script in every pod of the gateway, and in no other pod, was started once with a list of
    which it reads what each connection asks for whose specification names the gateway, and nothing else.
   */
  lemma EndToEnd(steps: seq<Step>, cfg: GatewayWorkload.Config, r: Replies)
    returns (command: string, settings: seq<ConnectionScript.Setting>)
    requires var ix := Run(EMPTY, steps);
             ix.settled == ix.conns.Keys && r.gw.Found? && r.conns.Some? &&
             Lists(ix.conns, r.gw.value.key.name, r.conns.value)
    requires r.gw.value.spec.enableIPSecVpn && Reconcile(cfg, r).0 == Done(Success)
    requires ConnectionScript.AllPlain(Records(r.gw.value, r.conns.value))
    requires ConnectionScript.AllMatch(r.gw.value, r.conns.value)
    requires forall con :: con in r.conns.value ==>
               con.key.name != "" && con.spec.remoteEIP != con.spec.remotePrivateCidrs
    ensures r.pods.Some? && RanOnOwnPods(r.gw.value, r.pods.value, Reconcile(cfg, r).1, command)
    ensures ConnectionScript.Runs(command) == Some(settings)
    ensures var own := OwnPrinted(Run(EMPTY, steps).conns, r.gw.value.key.name);
            && |settings| == |own|
            && forall s :: s in settings <==> exists con :: con in own && s == ConnectionScript.Wanted(r.gw.value, con)
  {
    var gw, list := r.gw.value, r.conns.value;
    assert forall m, n :: 0 <= m < n < |list| ==> list[m] != list[n];
    hide *;
    command := RefreshCommand(gw, Encode(Records(gw, list)));
    settings := ConnectionScript.WantedAll(gw, list);
    SuccessRuns(cfg, r);
    ConnectionScript.CommandRuns(gw, Encode(Records(gw, list)));
    ConnectionScript.ScriptReadsIff(gw, list);
    OneRecordEach(gw, list);
    OwnIsListed(steps, gw, list);
    forall s { WantedMember(gw, list, s); }
    LengthIs(gw, list);
  }

  lemma LengthIs(gw: VpnGw, list: seq<IpsecConn>)
    ensures |ConnectionScript.WantedAll(gw, list)| == |Records(gw, list)|
  {
    WantedMember(gw, list, ConnectionScript.X509("", "", "", "", "", "", "", "", "", ""));
  }

  lemma Readable(gw: VpnGw, list: seq<IpsecConn>)
    requires AllClean(Records(gw, list))
    ensures Decode(Encode(Records(gw, list))) == Records(gw, list)
  {
    forall record | record in Records(gw, list)
      ensures |record| >= 1
    {
      RecordLengths(gw, list, record);
    }
    DecodeEncodeIff(Records(gw, list));
  }

  lemma OwnIsListed(steps: seq<Step>, gw: VpnGw, list: seq<IpsecConn>)
    requires var ix := Run(EMPTY, steps); ix.settled == ix.conns.Keys && Lists(ix.conns, gw.key.name, list)
    ensures OwnPrinted(Run(EMPTY, steps).conns, gw.key.name) == PrintedOf(list)
  {
    var conns := Run(EMPTY, steps).conns;
    forall con | con in conns.Values
      ensures con in list <==> con.spec.vpnGw == gw.key.name
    {
      var key :| key in conns && conns[key] == con;
      IndexAgrees(steps, key, gw.key.name);
    }
  }
}
