/** The loop of the pinger container: check, then wait for the timer or for the stop signal. */
module Pinger {
  import opened Api

  datatype Configuration = Configuration(
    mode: string,
    exitCode: int,
    ping: string,
    tcpPing: string,
    udpPing: string,
    enableNodeIPCheck: bool,
    dnsLookup: string)

  const SERVER := "server"

  // ---------- one check ----------

  /** What each probe would return in one round; None is no error. */
  datatype Probes = Probes(
    external: Option<string>,
    ipPorts: Option<string>,
    pods: Option<string>,
    nodes: Option<string>,
    dns: Option<string>)

  /** The probes that this configuration runs, in the order in which they run. */
  function Enabled(c: Configuration, p: Probes): seq<Option<string>> {
    var external := if c.ping != "" then [p.external] else [];
    var ports := if c.tcpPing != "" || c.udpPing != "" then external + [p.ipPorts] else external;
    var pods := ports + [p.pods];
    var nodes := if c.enableNodeIPCheck then pods + [p.nodes] else pods;
    if c.dnsLookup != "" then nodes + [p.dns] else nodes
  }

  /** The last error of a list. */
  ghost predicate IsLastError(probes: seq<Option<string>>, err: Option<string>) {
    match err
    case None => forall e :: e in probes ==> e.None?
    case Some(_) =>
      exists n :: 0 <= n < |probes| && probes[n] == err && forall m :: n < m < |probes| ==> probes[m].None?
  }

  lemma LastErrorAppend(probes: seq<Option<string>>, err: Option<string>, e: Option<string>)
    requires IsLastError(probes, err)
    ensures IsLastError(probes + [e], if e.Some? then e else err)
  {
    var more := probes + [e];
    if e.Some? {
      assert more[|probes|] == e;
    } else if err.Some? {
      var n :| 0 <= n < |probes| && probes[n] == err && forall m :: n < m < |probes| ==> probes[m].None?;
      assert more[n] == err;
    }
  }

  lemma LastErrorIsUnique(probes: seq<Option<string>>, some: Option<string>, other: Option<string>)
    requires IsLastError(probes, some) && IsLastError(probes, other)
    ensures some == other
  {
  }

  /** The later a probe runs, the more its error counts. */
  function Latest(c: Configuration, p: Probes): Option<string> {
    if c.dnsLookup != "" && p.dns.Some? then p.dns
    else if c.enableNodeIPCheck && p.nodes.Some? then p.nodes
    else if p.pods.Some? then p.pods
    else if (c.tcpPing != "" || c.udpPing != "") && p.ipPorts.Some? then p.ipPorts
    else if c.ping != "" && p.external.Some? then p.external
    else None
  }

  lemma AppendIf(b: bool, probes: seq<Option<string>>, err: Option<string>, e: Option<string>)
    returns (more: seq<Option<string>>, last: Option<string>)
    requires IsLastError(probes, err)
    ensures more == (if b then probes + [e] else probes) && last == if b && e.Some? then e else err
    ensures IsLastError(more, last)
  {
    LastErrorAppend(probes, err, e);
    more, last := if b then probes + [e] else probes, if b && e.Some? then e else err;
  }

  lemma LatestIsLast(c: Configuration, p: Probes)
    ensures IsLastError(Enabled(c, p), Latest(c, p))
  {
    assert IsLastError([], None);
    hide IsLastError;
    var probes, err := AppendIf(c.ping != "", [], None, p.external);
    assert probes == if c.ping != "" then [p.external] else [];
    probes, err := AppendIf(c.tcpPing != "" || c.udpPing != "", probes, err, p.ipPorts);
    probes, err := AppendIf(true, probes, err, p.pods);
    probes, err := AppendIf(c.enableNodeIPCheck, probes, err, p.nodes);
    probes, err := AppendIf(c.dnsLookup != "", probes, err, p.dns);
    assert probes == Enabled(c, p) && err == Latest(c, p);
  }

  /** No enabled probe hides another: an error is reported if there is one, and it is the last one. */
  method Check(c: Configuration, p: Probes) returns (err: Option<string>)
    ensures IsLastError(Enabled(c, p), err)
    ensures err == Latest(c, p)
  {
    LatestIsLast(c, p);
    assert IsLastError([], None);
    hide IsLastError, Latest;
    var errHappens := false;
    var happenErr: Option<string> := None;
    ghost var done: seq<Option<string>> := [];
    if c.ping != "" {
      errHappens, happenErr, done := Probe(errHappens, happenErr, p.external, done);
    }
    if c.tcpPing != "" || c.udpPing != "" {
      errHappens, happenErr, done := Probe(errHappens, happenErr, p.ipPorts, done);
    }
    errHappens, happenErr, done := Probe(errHappens, happenErr, p.pods, done);
    if c.enableNodeIPCheck {
      errHappens, happenErr, done := Probe(errHappens, happenErr, p.nodes, done);
    }
    if c.dnsLookup != "" {
      errHappens, happenErr, done := Probe(errHappens, happenErr, p.dns, done);
    }
    assert done == Enabled(c, p);
    hide Enabled;
    LastErrorIsUnique(done, happenErr, Latest(c, p));
    if errHappens {
      return happenErr;
    }
    return None;
  }

  /** One probe and what it does to the two variables of the check. */
  method Probe(errHappens: bool, happenErr: Option<string>, err: Option<string>, ghost done: seq<Option<string>>)
    returns (errHappens': bool, happenErr': Option<string>, ghost done': seq<Option<string>>)
    requires IsLastError(done, happenErr) && (errHappens <==> happenErr.Some?)
    ensures done' == done + [err]
    ensures IsLastError(done', happenErr') && (errHappens' <==> happenErr'.Some?)
  {
    LastErrorAppend(done, happenErr, err);
    errHappens', happenErr', done' := errHappens, happenErr, done + [err];
    if err.Some? {
      errHappens', happenErr' := true, err;
    }
  }

  /** A check fails exactly when an enabled probe does. */
  predicate Fails(c: Configuration, p: Probes) {
    exists e :: e in Enabled(c, p) && e.Some?
  }

  /** Each probe under its own switch; the one of the pods has none. */
  lemma FailsIff(c: Configuration, p: Probes)
    ensures Fails(c, p) <==>
            || (c.ping != "" && p.external.Some?)
            || (c.tcpPing != "" && p.ipPorts.Some?)
            || (c.udpPing != "" && p.ipPorts.Some?)
            || p.pods.Some?
            || (c.enableNodeIPCheck && p.nodes.Some?)
            || (c.dnsLookup != "" && p.dns.Some?)
  {
    var external := if c.ping != "" then [p.external] else [];
    var ports := if c.tcpPing != "" || c.udpPing != "" then [p.ipPorts] else [];
    var nodes := if c.enableNodeIPCheck then [p.nodes] else [];
    var dns := if c.dnsLookup != "" then [p.dns] else [];
    assert Enabled(c, p) == external + ports + [p.pods] + nodes + dns;
    hide Enabled;
    forall e: Option<string>
      ensures e in Enabled(c, p) <==> e in external || e in ports || e == p.pods || e in nodes || e in dns
    {
    }
  }

  lemma LastErrorIff(c: Configuration, p: Probes, err: Option<string>)
    requires IsLastError(Enabled(c, p), err)
    ensures err.Some? <==> Fails(c, p)
  {
    if err.Some? {
      var n :| 0 <= n < |Enabled(c, p)| && Enabled(c, p)[n] == err;
      assert Enabled(c, p)[n] in Enabled(c, p);
    }
  }

  // ---------- the loop ----------

  /** What ends one wait: the stop signal or the timer. */
  datatype Wake = Stop | Tick

  /** Where a run of the loop is after the given wakes. */
  datatype Outcome = OneShot | Stopped | Exit(code: int) | Waiting

  /**
    The loop for as many wakes as are given, with the number of checks it made. Probes are numbered
    by check.
   */
  method StartPinger(c: Configuration, probes: nat -> Probes, wakes: seq<Wake>) returns (out: Outcome, checks: nat)
    ensures checks >= 1
    ensures c.mode != SERVER ==> out == OneShot && checks == 1
    ensures c.mode == SERVER ==> (out, checks) == Serve(c, probes, wakes, 0)
  {
    var errHappens := false;
    checks := 0;
    while true
      invariant checks <= |wakes|
      invariant checks > 0 ==> c.mode == SERVER
      invariant errHappens ==> c.exitCode == 0
      invariant Serve(c, probes, wakes, checks) == Serve(c, probes, wakes, 0)
      decreases |wakes| - checks
    {
      var err := Check(c, probes(checks));
      LastErrorIff(c, probes(checks), err);
      if err.Some? {
        errHappens := true;
      }
      if c.mode != SERVER {
        return OneShot, checks + 1;
      }
      if checks == |wakes| {
        return Waiting, checks + 1;
      }
      checks := checks + 1;
      match wakes[checks - 1] {
        case Stop =>
          return Stopped, checks;
        case Tick =>
          if errHappens && c.exitCode != 0 {
            return Exit(c.exitCode), checks;
          }
      }
    }
  }

  /**
    The loop of server mode without memory: only the check just made counts. That it equals the loop
    with its flag, which is never cleared, is part of what StartPinger ensures.
   */
  function Serve(c: Configuration, probes: nat -> Probes, wakes: seq<Wake>, n: nat): (Outcome, nat)
    requires n <= |wakes|
    decreases |wakes| - n
  {
    if n == |wakes| then (Waiting, n + 1)
    else if wakes[n].Stop? then (Stopped, n + 1)
    else if Fails(c, probes(n)) && c.exitCode != 0 then (Exit(c.exitCode), n + 1)
    else Serve(c, probes, wakes, n + 1)
  }

  /** The first wake that ends the loop, if there is one. */
  predicate Ends(c: Configuration, probes: nat -> Probes, wakes: seq<Wake>, n: nat)
    requires n < |wakes|
  {
    wakes[n].Stop? || (Fails(c, probes(n)) && c.exitCode != 0)
  }

  /**
    A server ends at the first wake that is a stop or that follows a failed check with an exit code
    set, and then a stop wins: it exits with the code exactly when that wake is the timer.
   */
  lemma {:induction false} ServeEndsFirst(c: Configuration, probes: nat -> Probes, wakes: seq<Wake>, n: nat)
    requires n <= |wakes|
    ensures var (out, checks) := Serve(c, probes, wakes, n);
            && n < checks <= |wakes| + 1
            && (forall m :: n <= m < checks - 1 ==> !Ends(c, probes, wakes, m))
            && (out.Waiting? <==> checks == |wakes| + 1)
            && (checks <= |wakes| ==> Ends(c, probes, wakes, checks - 1))
            && (out.Stopped? <==> checks <= |wakes| && wakes[checks - 1].Stop?)
            && (out == Exit(c.exitCode) <==> checks <= |wakes| && wakes[checks - 1].Tick?)
            && (out.Exit? <==> out == Exit(c.exitCode))
            && !out.OneShot?
    decreases |wakes| - n
  {
    if n < |wakes| && !Ends(c, probes, wakes, n) {
      ServeEndsFirst(c, probes, wakes, n + 1);
    }
  }

  /** Check n fails, and until the wake after it only the timer fires. */
  ghost predicate FailsInTime(c: Configuration, probes: nat -> Probes, wakes: seq<Wake>, n: nat) {
    n < |wakes| && Fails(c, probes(n)) && forall m :: 0 <= m <= n ==> wakes[m].Tick?
  }

  /** A server leaves with its exit code exactly when it has one and a check fails before any stop. */
  lemma ExitsIff(c: Configuration, probes: nat -> Probes, wakes: seq<Wake>)
    ensures Serve(c, probes, wakes, 0).0.Exit? <==> c.exitCode != 0 && exists n: nat :: FailsInTime(c, probes, wakes, n)
  {
    ServeEndsFirst(c, probes, wakes, 0);
    hide Fails, Serve;
    var (out, checks) := Serve(c, probes, wakes, 0);
    if out.Exit? {
      forall m | 0 <= m <= checks - 1
        ensures wakes[m].Tick?
      {
        assert m < checks - 1 ==> !Ends(c, probes, wakes, m);
      }
      assert Ends(c, probes, wakes, checks - 1);
      assert FailsInTime(c, probes, wakes, checks - 1);
    } else if c.exitCode != 0 {
      forall n: nat
        ensures !FailsInTime(c, probes, wakes, n)
      {
        if n < checks - 1 {
          assert !Ends(c, probes, wakes, n);
        } else if checks <= |wakes| {
          assert wakes[checks - 1].Stop?;
        }
      }
    }
  }
}
