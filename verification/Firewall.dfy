/** The packet filter generated for tunnel-core hosts, under first-match, jump and return semantics. */
module Firewall {
  import opened Options
  import opened Ports

  datatype Transport = Tcp | OtherTransport

  datatype State = New | Established | Invalid

  /** A packet arriving at INPUT; Established stands for RELATED too. */
  datatype Packet = Packet(transport: Transport, state: State, dport: nat, onLoopback: bool, src: nat, dst: nat)

  /** 127.0.0.0/8 */
  predicate Loopback(address: nat): (b: bool)
    ensures b <==> 0x7f00_0000 <= address <= 0x7fff_ffff
  {
    address / 0x100_0000 == 127
  }

  /** What the rate limiters say at the moment the packet arrives: each token rule has a bucket of its own, the
      recency lists are by port. */
  datatype Limits = Limits(tokenLeft: Protocol -> bool, tooRecent: nat -> bool) {
    /** No limiter stops a connection to the port. */
    predicate Allow(ports: map<Protocol, nat>, port: nat) {
      !tooRecent(port) && forall q <- ports :: q.IsMeek() && ports[q] == port ==> tokenLeft(q)
    }
  }

  datatype Verdict = Accept | Drop | Reset

  datatype Match =
    | Always
    | AnyTcp
    | InState(state: State)
    | SpoofedSource
    | SpoofedDestination
    | NewTcpTo(port: nat)
    | NewTcpOnLoopbackTo(address: nat, port: nat)
    | NewTcpWithToken(protocol: Protocol, port: nat)
    | NewTcpTooRecent(port: nat)

  /** A jump carries the rules of the chain it enters. */
  datatype Action = Decide(verdict: Verdict) | Continue | Return | Jump(chain: seq<Rule>)

  datatype Rule = Rule(when: Match, then_: Action)

  predicate NewTcp(p: Packet) { p.transport.Tcp? && p.state.New? }

  predicate Matches(m: Match, p: Packet, limits: Limits) {
    match m
    case Always => true
    case AnyTcp => p.transport.Tcp?
    case InState(s) => p.state == s
    case SpoofedSource => Loopback(p.src) && !p.onLoopback
    case SpoofedDestination => Loopback(p.dst) && !p.onLoopback
    case NewTcpTo(port) => NewTcp(p) && p.dport == port
    case NewTcpOnLoopbackTo(address, port) => NewTcp(p) && p.dport == port && p.onLoopback && p.dst == address
    case NewTcpWithToken(q, port) => NewTcp(p) && p.dport == port && limits.tokenLeft(q)
    case NewTcpTooRecent(port) => NewTcp(p) && p.dport == port && limits.tooRecent(port)
  }

  /** What one rule does with a packet. */
  datatype Step = Decided(verdict: Verdict) | Passed | Returned

  function Apply(r: Rule, p: Packet, limits: Limits): Step
    decreases r
  {
    if !Matches(r.when, p, limits) then Passed
    else match r.then_
      case Decide(v) => Decided(v)
      case Continue => Passed
      case Return => Returned
      case Jump(chain) =>
        var inner := Walk(chain, p, limits);
        if inner.Some? then Decided(inner.value) else Passed
  }

  /** The verdict of a chain; None when the packet runs off its end or returns. */
  function Walk(rules: seq<Rule>, p: Packet, limits: Limits): Option<Verdict>
    decreases rules
  {
    if rules == [] then None
    else
      match Apply(rules[0], p, limits)
      case Decided(v) => Some(v)
      case Passed => Walk(rules[1..], p, limits)
      case Returned => None
  }

  // ---- The generated rules ----

  /** Noting the connection, dropping a third within the minute, else accepting. */
  function RecentRules(port: nat): seq<Rule> {
    [Rule(NewTcpTo(port), Continue), Rule(NewTcpTooRecent(port), Decide(Drop)), Rule(NewTcpTo(port), Decide(Accept))]
  }

  /** Accepting while the token bucket lasts. */
  function TokenRules(q: Protocol, port: nat): seq<Rule> {
    [Rule(NewTcpWithToken(q, port), Decide(Accept))]
  }

  function ProtocolRules(p: Protocol, port: nat): seq<Rule> {
    if p.IsMeek() then TokenRules(p, port) else RecentRules(port)
  }

  /** The rules for the protocols in the order the port map is iterated in. */
  function PortRules(order: seq<Protocol>, ports: map<Protocol, nat>): seq<Rule>
    requires forall p <- order :: p in ports
  {
    if order == [] then []
    else PortRules(order[..|order| - 1], ports) + ProtocolRules(order[|order| - 1], ports[order[|order| - 1]])
  }

  const RETURN_RULE := [Rule(Always, Return)]

  function WebPort(host: Host, server: Server): nat {
    if host.flavour.Native? then server.webPort else 1025
  }

  function RateLimitChain(host: Host, server: Server, order: seq<Protocol>, ports: map<Protocol, nat>): seq<Rule>
    requires forall p <- order :: p in ports
  {
    (if server.caps.handshake then RecentRules(WebPort(host, server)) else []) + PortRules(order, ports) + RETURN_RULE
  }

  /** The order lists every protocol of the map. */
  predicate Iterates(order: seq<Protocol>, ports: map<Protocol, nat>) {
    (forall p <- order :: p in ports) && (forall p <- ports :: p in order)
  }

  lemma NoPortRules(ports: map<Protocol, nat>)
    ensures PortRules([], ports) == []
  {
  }

  lemma OneMorePortRule(order: seq<Protocol>, i: nat, ports: map<Protocol, nat>)
    requires i < |order| && forall p <- order :: p in ports
    ensures order[i] in ports
    ensures PortRules(order[..i + 1], ports) == PortRules(order[..i], ports) + ProtocolRules(order[i], ports[order[i]])
  {
    assert order[i] in order && order[..i + 1][..i] == order[..i];
  }

  method BuildRateLimitChain(host: Host, server: Server, order: seq<Protocol>) returns (rules: seq<Rule>)
    requires MeekConfigured(host, server)
    requires Iterates(order, SupportedPorts(host, server, host.flavour.Native?, true))
    ensures rules == RateLimitChain(host, server, order, SupportedPorts(host, server, host.flavour.Native?, true))
  {
    hide SupportedPorts, RecentRules, ProtocolRules, PortRules;
    var ports := GetSupportedProtocolPorts(host, server, host.flavour.Native?, true);
    rules := [];
    if server.caps.handshake {
      rules := rules + RecentRules(WebPort(host, server));
    }
    ghost var web := rules;
    NoPortRules(ports);
    for i := 0 to |order|
      invariant rules == web + PortRules(order[..i], ports)
    {
      OneMorePortRule(order, i, ports);
      rules := rules + ProtocolRules(order[i], ports[order[i]]);
    }
    assert order[..|order|] == order;
    rules := rules + RETURN_RULE;
  }

  /** INPUT, with the rate-limit chain entered on native hosts only. */
  function Input(host: Host, server: Server, rateLimit: seq<Rule>): seq<Rule> {
    [Rule(InState(Established), Decide(Accept)),
     Rule(SpoofedSource, Decide(Drop)),
     Rule(SpoofedDestination, Decide(Drop)),
     Rule(NewTcpTo(host.managementPort), Decide(Accept))]
    + (if host.flavour.Native?
       then [Rule(NewTcpOnLoopbackTo(server.address, server.webPort), Decide(Accept)), Rule(Always, Jump(rateLimit))]
       else [])
    + [Rule(AnyTcp, Decide(Reset)), Rule(Always, Decide(Drop))]
  }

  // ---- Walking ----

  lemma {:induction false} WalkConcat(a: seq<Rule>, b: seq<Rule>, p: Packet, limits: Limits)
    requires forall r <- a :: r.then_ != Return
    ensures Walk(a + b, p, limits) == var v := Walk(a, p, limits); if v.Some? then v else Walk(b, p, limits)
  {
    if a == [] {
      assert a + b == b;
    } else {
      assert (a + b)[1..] == a[1..] + b;
      WalkConcat(a[1..], b, p, limits);
    }
  }

  lemma WalkNothing(p: Packet, limits: Limits)
    ensures Walk([], p, limits) == None
  {
  }

  lemma WalkOne(r: Rule, rest: seq<Rule>, p: Packet, limits: Limits)
    ensures Walk([r] + rest, p, limits) ==
            match Apply(r, p, limits)
            case Decided(v) => Some(v)
            case Passed => Walk(rest, p, limits)
            case Returned => None
  {
    assert ([r] + rest)[1..] == rest;
  }

  lemma RecentVerdict(port: nat, p: Packet, limits: Limits)
    ensures Walk(RecentRules(port), p, limits) ==
            if NewTcp(p) && p.dport == port then Some(if limits.tooRecent(port) then Drop else Accept) else None
  {
    var a, b := Rule(NewTcpTo(port), Continue), Rule(NewTcpTooRecent(port), Decide(Drop));
    var c := Rule(NewTcpTo(port), Decide(Accept));
    assert RecentRules(port) == [a] + ([b] + ([c] + []));
    WalkOne(a, [b] + ([c] + []), p, limits);
    WalkOne(b, [c] + [], p, limits);
    WalkOne(c, [], p, limits);
  }

  lemma TokenVerdict(q: Protocol, port: nat, p: Packet, limits: Limits)
    ensures Walk(TokenRules(q, port), p, limits) ==
            if NewTcp(p) && p.dport == port && limits.tokenLeft(q) then Some(Accept) else None
  {
    var t := Rule(NewTcpWithToken(q, port), Decide(Accept));
    assert TokenRules(q, port) == [t] + [];
    WalkOne(t, [], p, limits);
  }

  /** What a protocol's own rules say about a new connection to its port: the token bucket of a meek protocol
      lets it by when empty, the recency limit of the others drops it. */
  function Limited(q: Protocol, port: nat, limits: Limits): Option<Verdict> {
    if q.IsMeek() then (if limits.tokenLeft(q) then Some(Accept) else None)
    else Some(if limits.tooRecent(port) then Drop else Accept)
  }

  /** The first protocol on the port that decides, in the order of the map. */
  function FirstOf(order: seq<Protocol>, ports: map<Protocol, nat>, port: nat, limits: Limits): Option<Verdict>
    requires forall q <- order :: q in ports
  {
    if order == [] then None
    else
      var n := |order| - 1;
      var earlier := FirstOf(order[..n], ports, port, limits);
      if earlier.None? && ports[order[n]] == port then Limited(order[n], port, limits) else earlier
  }

  /** Whatever the limiters say, the port rules give a new connection the verdict of the first protocol on its
      port that decides, and let everything else by. */
  lemma {:induction false} PortsVerdict(order: seq<Protocol>, ports: map<Protocol, nat>, p: Packet, limits: Limits)
    requires forall q <- order :: q in ports
    ensures forall r <- PortRules(order, ports) :: r.then_ != Return
    ensures Walk(PortRules(order, ports), p, limits) ==
            if NewTcp(p) then FirstOf(order, ports, p.dport, limits) else None
  {
    hide Walk, Matches;
    if order == [] {
      WalkNothing(p, limits);
    } else {
      var n := |order| - 1;
      PortsVerdict(order[..n], ports, p, limits);
      var port := ports[order[n]];
      WalkConcat(PortRules(order[..n], ports), ProtocolRules(order[n], port), p, limits);
      RecentVerdict(port, p, limits);
      TokenVerdict(order[n], port, p, limits);
    }
  }

  /** A port no protocol has is decided by none; with the limiters' consent one that a protocol has is accepted. */
  lemma {:induction false} FirstOfAllowed(order: seq<Protocol>, ports: map<Protocol, nat>, port: nat, limits: Limits)
    requires forall q <- order :: q in ports
    ensures (forall q <- order :: ports[q] != port) ==> FirstOf(order, ports, port, limits) == None
    ensures limits.Allow(ports, port) && (exists q <- order :: ports[q] == port) ==>
              FirstOf(order, ports, port, limits) == Some(Accept)
  {
    if order != [] {
      var n := |order| - 1;
      FirstOfAllowed(order[..n], ports, port, limits);
      assert order == order[..n] + [order[n]];
    }
  }

  /** A port that one protocol alone has is decided by that protocol. */
  lemma {:induction false} FirstOfUnique(order: seq<Protocol>, ports: map<Protocol, nat>, q: Protocol, limits: Limits)
    requires (forall x <- order :: x in ports) && q in order && forall x <- order :: ports[x] == ports[q] ==> x == q
    ensures FirstOf(order, ports, ports[q], limits) == Limited(q, ports[q], limits)
  {
    var n := |order| - 1;
    if q in order[..n] {
      FirstOfUnique(order[..n], ports, q, limits);
    } else {
      assert order == order[..n] + [order[n]];
      FirstOfAllowed(order[..n], ports, ports[q], limits);
    }
  }

  /** The ports a rate-limit chain opens. */
  ghost predicate Opened(host: Host, server: Server, ports: map<Protocol, nat>, port: nat) {
    (server.caps.handshake && port == WebPort(host, server)) || exists q <- ports :: ports[q] == port
  }

  /** The verdict of the rate-limit chain: the web port comes first, then the protocols in order. */
  function ChainSays(host: Host, server: Server, order: seq<Protocol>, ports: map<Protocol, nat>, port: nat,
                     limits: Limits)
    : Option<Verdict>
    requires forall q <- order :: q in ports
  {
    if server.caps.handshake && port == WebPort(host, server) then Some(if limits.tooRecent(port) then Drop else Accept)
    else FirstOf(order, ports, port, limits)
  }

  lemma ChainVerdict(host: Host, server: Server, order: seq<Protocol>, ports: map<Protocol, nat>, p: Packet,
                     limits: Limits)
    requires forall q <- order :: q in ports
    ensures Walk(RateLimitChain(host, server, order, ports), p, limits) ==
            if NewTcp(p) then ChainSays(host, server, order, ports, p.dport, limits) else None
  {
    hide Walk;
    var web := if server.caps.handshake then RecentRules(WebPort(host, server)) else [];
    WalkNothing(p, limits);
    PortsVerdict(order, ports, p, limits);
    RecentVerdict(WebPort(host, server), p, limits);
    WalkConcat(web, PortRules(order, ports) + RETURN_RULE, p, limits);
    WalkConcat(PortRules(order, ports), RETURN_RULE, p, limits);
    WalkOne(Rule(Always, Return), [], p, limits);
    assert [Rule(Always, Return)] + [] == RETURN_RULE;
    assert web + PortRules(order, ports) + RETURN_RULE == web + (PortRules(order, ports) + RETURN_RULE);
  }

  lemma InputShape(host: Host, server: Server, rateLimit: seq<Rule>, e: Rule, x: Rule, y: Rule, m: Rule,
                   body: seq<Rule>)
    requires e == Rule(InState(Established), Decide(Accept)) && x == Rule(SpoofedSource, Decide(Drop))
    requires y == Rule(SpoofedDestination, Decide(Drop)) && m == Rule(NewTcpTo(host.managementPort), Decide(Accept))
    requires var tail := [Rule(AnyTcp, Decide(Reset))] + ([Rule(Always, Decide(Drop))] + []);
             body == if host.flavour.Native?
               then [Rule(NewTcpOnLoopbackTo(server.address, server.webPort), Decide(Accept))]
                    + ([Rule(Always, Jump(rateLimit))] + tail)
               else tail
    ensures Input(host, server, rateLimit) == [e] + ([x] + ([y] + ([m] + body)))
  {
  }

  predicate ToWeb(server: Server, p: Packet) {
    p.dst == server.address && p.dport == server.webPort
  }

  /** What INPUT does, given the verdict of the rate-limit chain. */
  lemma InputVerdict(host: Host, server: Server, rateLimit: seq<Rule>, p: Packet, limits: Limits)
    ensures Walk(Input(host, server, rateLimit), p, limits) == Some(
              if p.state.Established? then Accept
              else if !p.onLoopback && (Loopback(p.src) || Loopback(p.dst)) then Drop
              else if NewTcp(p) && p.dport == host.managementPort then Accept
              else if host.flavour.Native? && NewTcp(p) && p.onLoopback && ToWeb(server, p) then Accept
              else if host.flavour.Native? && Walk(rateLimit, p, limits).Some? then Walk(rateLimit, p, limits).value
              else if p.transport.Tcp? then Reset else Drop)
  {
    var e := Rule(InState(Established), Decide(Accept));
    var x, y := Rule(SpoofedSource, Decide(Drop)), Rule(SpoofedDestination, Decide(Drop));
    var m := Rule(NewTcpTo(host.managementPort), Decide(Accept));
    var w := Rule(NewTcpOnLoopbackTo(server.address, server.webPort), Decide(Accept));
    var j := Rule(Always, Jump(rateLimit));
    var t, d := Rule(AnyTcp, Decide(Reset)), Rule(Always, Decide(Drop));
    var tail := [t] + ([d] + []);
    var body := if host.flavour.Native? then [w] + ([j] + tail) else tail;
    hide Walk, Input;
    InputShape(host, server, rateLimit, e, x, y, m, body);
    WalkOne(e, [x] + ([y] + ([m] + body)), p, limits);
    WalkOne(x, [y] + ([m] + body), p, limits);
    WalkOne(y, [m] + body, p, limits);
    WalkOne(m, body, p, limits);
    WalkOne(w, [j] + tail, p, limits);
    WalkOne(j, tail, p, limits);
    WalkOne(t, [d] + [], p, limits);
    WalkOne(d, [], p, limits);
  }

  /** The packet is a new TCP connection from outside. */
  predicate FromOutside(p: Packet) {
    NewTcp(p) && !p.onLoopback && !Loopback(p.src) && !Loopback(p.dst)
  }

  /** What a native host does with a new connection from outside, for every state of the limiters and every order
      of the port map: management is accepted, then the web port and the protocols decide, and the rest is reset. */
  lemma NativeVerdict(host: Host, server: Server, order: seq<Protocol>, ports: map<Protocol, nat>, p: Packet,
                      limits: Limits)
    requires host.flavour.Native? && Iterates(order, ports) && FromOutside(p)
    ensures var chain := ChainSays(host, server, order, ports, p.dport, limits);
            Walk(Input(host, server, RateLimitChain(host, server, order, ports)), p, limits) ==
            Some(if p.dport == host.managementPort then Accept else if chain.Some? then chain.value else Reset)
  {
    hide Walk, RateLimitChain;
    ChainVerdict(host, server, order, ports, p, limits);
    InputVerdict(host, server, RateLimitChain(host, server, order, ports), p, limits);
  }

  /** The public ports of a server's tunnel protocols. */
  predicate ListensOn(host: Host, server: Server, port: nat) {
    || (server.caps.ssh && port == server.sshPort)
    || (server.caps.ossh && port == server.osshPort)
    || (server.caps.frontedMeek && port == 443)
    || (server.caps.frontedMeek && host.alternateFrontingHosts != {} && port == 80)
    || ((server.caps.unfrontedMeek || server.caps.sessionTicket) && host.meekPort == Some(port))
  }

  lemma ListeningPorts(host: Host, server: Server, port: nat)
    requires MeekConfigured(host, server)
    ensures var ports := SupportedPorts(host, server, true, true);
            (exists q <- ports :: ports[q] == port) <==> ListensOn(host, server, port)
  {
    hide SupportedPorts;
    PortsAre(host, server, true, true);
    var ports := SupportedPorts(host, server, true, true);
    assert server.caps.ssh ==> ports[Ssh] == server.sshPort;
    assert server.caps.ossh ==> ports[Ossh] == server.osshPort;
    assert server.caps.frontedMeek ==> ports[FrontedMeek] == 443;
    assert server.caps.frontedMeek && host.alternateFrontingHosts != {} ==> ports[FrontedMeekHttp] == 80;
    assert server.caps.sessionTicket ==> ports[SessionTicket] == host.meekPort.value;
    assert server.caps.unfrontedMeek && host.meekPort == Some(443) ==> ports[UnfrontedMeekHttps] == 443;
    assert server.caps.unfrontedMeek && host.meekPort != Some(443) ==> ports[UnfrontedMeek] == host.meekPort.value;
  }

  /** What a native host does with a new connection to a port that one protocol alone has: SSH and OSSH drop it when
      its sender was there too recently, the meek protocols reset it when their token bucket is empty. */
  lemma ProtocolVerdict(host: Host, server: Server, order: seq<Protocol>, ports: map<Protocol, nat>, q: Protocol,
                        p: Packet, limits: Limits)
    requires host.flavour.Native? && Iterates(order, ports) && FromOutside(p) && q in ports && p.dport == ports[q]
    requires forall x <- ports :: ports[x] == ports[q] ==> x == q
    requires p.dport != host.managementPort && !(server.caps.handshake && p.dport == server.webPort)
    ensures Walk(Input(host, server, RateLimitChain(host, server, order, ports)), p, limits) ==
            Some(match q
                 case Ssh => if limits.tooRecent(p.dport) then Drop else Accept
                 case Ossh => if limits.tooRecent(p.dport) then Drop else Accept
                 case _ => if limits.tokenLeft(q) then Accept else Reset)
  {
    hide Walk, FirstOf, RateLimitChain, Input;
    NativeVerdict(host, server, order, ports, p, limits);
    FirstOfUnique(order, ports, q, limits);
  }

  /** On a native host, with no limiter in the way, a new connection from outside is accepted exactly on the
      management port, the web port if handshakes are served, and the ports of the supported protocols. */
  lemma NativeAccepts(host: Host, server: Server, order: seq<Protocol>, p: Packet, limits: Limits)
    requires MeekConfigured(host, server) && host.flavour.Native?
    requires Iterates(order, SupportedPorts(host, server, true, true))
    requires FromOutside(p) && limits.Allow(SupportedPorts(host, server, true, true), p.dport)
    ensures var ports := SupportedPorts(host, server, true, true);
            Walk(Input(host, server, RateLimitChain(host, server, order, ports)), p, limits) ==
            Some(if p.dport == host.managementPort || (server.caps.handshake && p.dport == server.webPort)
                    || ListensOn(host, server, p.dport)
                 then Accept else Reset)
  {
    hide Walk, SupportedPorts, FirstOf, RateLimitChain, Input;
    var ports := SupportedPorts(host, server, true, true);
    ListeningPorts(host, server, p.dport);
    NativeVerdict(host, server, order, ports, p, limits);
    FirstOfAllowed(order, ports, p.dport, limits);
  }

  /** Whatever the limiters say, a port that is not opened is never accepted from outside: it is reset. */
  lemma ClosedPortsReset(host: Host, server: Server, order: seq<Protocol>, ports: map<Protocol, nat>, p: Packet,
                         limits: Limits)
    requires Iterates(order, ports) && FromOutside(p)
    requires p.dport != host.managementPort && !Opened(host, server, ports, p.dport)
    ensures Walk(Input(host, server, RateLimitChain(host, server, order, ports)), p, limits) == Some(Reset)
  {
    hide Walk, FirstOf, RateLimitChain;
    FirstOfAllowed(order, ports, p.dport, limits);
    ChainVerdict(host, server, order, ports, p, limits);
    InputVerdict(host, server, RateLimitChain(host, server, order, ports), p, limits);
  }

  /** On a container host INPUT never enters the rate-limit chain: only management connections are accepted. */
  lemma DockerAccepts(host: Host, server: Server, chain: seq<Rule>, p: Packet, limits: Limits)
    requires host.flavour.Docker? && FromOutside(p)
    ensures Walk(Input(host, server, chain), p, limits) ==
            Some(if p.dport == host.managementPort then Accept else Reset)
  {
    hide Walk;
    InputVerdict(host, server, chain, p, limits);
  }

  /** The chain generated for a container host, which nothing enters, is for the ports inside the container. */
  lemma DockerChainAccepts(host: Host, server: Server, order: seq<Protocol>, p: Packet, limits: Limits)
    requires MeekConfigured(host, server) && host.flavour.Docker? && NewTcp(p)
    requires Iterates(order, SupportedPorts(host, server, false, true))
    requires limits.Allow(SupportedPorts(host, server, false, true), p.dport)
    ensures var ports := SupportedPorts(host, server, false, true);
            Walk(RateLimitChain(host, server, order, ports), p, limits) ==
            if || (server.caps.handshake && p.dport == 1025)
               || (server.caps.ssh && p.dport == 1026)
               || (server.caps.ossh && p.dport == 1027)
               || (server.caps.frontedMeek && p.dport == 1028)
               || (server.caps.unfrontedMeek && host.meekPort != Some(443) && p.dport == 1029)
               || (server.caps.frontedMeek && host.alternateFrontingHosts != {} && p.dport == 1030)
               || (server.caps.unfrontedMeek && host.meekPort == Some(443) && p.dport == 1031)
               || (server.caps.sessionTicket && p.dport == 1032)
            then Some(Accept) else None
  {
    hide Walk, SupportedPorts, FirstOf, RateLimitChain;
    var ports := SupportedPorts(host, server, false, true);
    PortsAre(host, server, false, true);
    ChainVerdict(host, server, order, ports, p, limits);
    FirstOfAllowed(order, ports, p.dport, limits);
    forall q <- ports
      ensures q in order
    {
    }
  }

  // ---- Load limiting ----

  function LimitRules(order: seq<Protocol>, ports: map<Protocol, nat>): seq<Rule>
    requires forall p <- order :: p in ports
  {
    if order == [] then []
    else LimitRules(order[..|order| - 1], ports) + [Rule(NewTcpTo(ports[order[|order| - 1]]), Decide(Reset))]
  }

  method BuildLimitLoadChain(host: Host, server: Server, order: seq<Protocol>) returns (rules: seq<Rule>)
    requires MeekConfigured(host, server)
    requires Iterates(order, SupportedPorts(host, server, host.flavour.Native?, false))
    ensures rules == LimitRules(order, SupportedPorts(host, server, host.flavour.Native?, false)) + RETURN_RULE
  {
    hide SupportedPorts;
    var ports := GetSupportedProtocolPorts(host, server, host.flavour.Native?, false);
    rules := [];
    for i := 0 to |order|
      invariant rules == LimitRules(order[..i], ports)
    {
      assert order[i] in order && order[..i + 1][..i] == order[..i];
      rules := rules + [Rule(NewTcpTo(ports[order[i]]), Decide(Reset))];
    }
    assert order[..|order|] == order;
    rules := rules + RETURN_RULE;
  }

  lemma {:induction false} LimitVerdict(order: seq<Protocol>, ports: map<Protocol, nat>, p: Packet, limits: Limits)
    requires forall q <- order :: q in ports
    ensures forall r <- LimitRules(order, ports) :: r.then_ != Return
    ensures Walk(LimitRules(order, ports), p, limits) ==
            if NewTcp(p) && exists q <- order :: ports[q] == p.dport then Some(Reset) else None
  {
    if order != [] {
      var n := |order| - 1;
      LimitVerdict(order[..n], ports, p, limits);
      var r := Rule(NewTcpTo(ports[order[n]]), Decide(Reset));
      WalkConcat(LimitRules(order[..n], ports), [r], p, limits);
      WalkOne(r, [], p, limits);
      assert [r] + [] == [r];
      assert order == order[..n] + [order[n]];
    }
  }

  /** The port SSH or OSSH listens on, on the host or inside the container. */
  predicate TunnelPort(host: Host, server: Server, port: nat) {
    if host.flavour.Native?
    then (server.caps.ssh && port == server.sshPort) || (server.caps.ossh && port == server.osshPort)
    else (server.caps.ssh && port == 1026) || (server.caps.ossh && port == 1027)
  }

  /** With the jump at the head, exactly the new SSH and OSSH connections are reset; every other packet,
      established or for meek, keeps the verdict it had. */
  lemma LimitLoadResets(host: Host, server: Server, order: seq<Protocol>, input: seq<Rule>, p: Packet, limits: Limits)
    requires MeekConfigured(host, server) && Iterates(order, SupportedPorts(host, server, host.flavour.Native?, false))
    ensures var ports := SupportedPorts(host, server, host.flavour.Native?, false);
            Walk([Rule(Always, Jump(LimitRules(order, ports) + RETURN_RULE))] + input, p, limits) ==
            if NewTcp(p) && TunnelPort(host, server, p.dport) then Some(Reset) else Walk(input, p, limits)
    ensures forall q <- SupportedPorts(host, server, host.flavour.Native?, false) :: q == Ssh || q == Ossh
  {
    PortsAre(host, server, host.flavour.Native?, false);
    hide SupportedPorts, Walk;
    var ports := SupportedPorts(host, server, host.flavour.Native?, false);
    LimitVerdict(order, ports, p, limits);
    WalkConcat(LimitRules(order, ports), RETURN_RULE, p, limits);
    WalkOne(Rule(Always, Jump(LimitRules(order, ports) + RETURN_RULE)), input, p, limits);
  }

  // ---- Port forwarding ----

  /** One DNAT rule for packets from outside to the server's address. */
  datatype Forward = Forward(from: nat, to: nat)

  /** HTTPS goes to the web server, unless meek or OSSH uses port 443; alternates go to the OSSH port. */
  predicate ForwardsWeb(host: Host, server: Server)
    requires server.caps.handshake && server.caps.Meek() ==> host.meekPort.Some?
  {
    && server.caps.handshake
    && !((server.caps.Meek() && host.meekPort.value == 443) || (server.caps.ossh && server.osshPort == 443))
  }

  method BuildForwards(host: Host, server: Server) returns (rules: seq<Forward>)
    requires server.caps.handshake && server.caps.Meek() ==> host.meekPort.Some?
    ensures rules == Forwards(host, server)
  {
    hide AlternateForwards;
    rules := [];
    if server.caps.handshake {
      if !((server.caps.Meek() && host.meekPort.value == 443) || (server.caps.ossh && server.osshPort == 443)) {
        rules := rules + [Forward(443, server.webPort)];
      }
    }
    ghost var web := rules;
    var alternates := server.alternateOsshPorts;
    NoForwards(server.osshPort);
    for i := 0 to |alternates|
      invariant rules == web + AlternateForwards(alternates[..i], server.osshPort)
    {
      OneMoreForward(alternates, i, server.osshPort);
      rules := rules + [Forward(alternates[i], server.osshPort)];
    }
    assert alternates[..|alternates|] == alternates;
  }

  function AlternateForwards(alternates: seq<nat>, to: nat): seq<Forward> {
    if alternates == [] then []
    else AlternateForwards(alternates[..|alternates| - 1], to) + [Forward(alternates[|alternates| - 1], to)]
  }

  lemma NoForwards(to: nat)
    ensures AlternateForwards([], to) == []
  {
  }

  lemma OneMoreForward(alternates: seq<nat>, i: nat, to: nat)
    requires i < |alternates|
    ensures AlternateForwards(alternates[..i + 1], to) ==
            AlternateForwards(alternates[..i], to) + [Forward(alternates[i], to)]
  {
    assert alternates[..i + 1][..i] == alternates[..i];
  }

  function Forwards(host: Host, server: Server): seq<Forward>
    requires server.caps.handshake && server.caps.Meek() ==> host.meekPort.Some?
  {
    (if ForwardsWeb(host, server) then [Forward(443, server.webPort)] else [])
    + AlternateForwards(server.alternateOsshPorts, server.osshPort)
  }

  /** The port a packet ends up at: the first forward that matches, else its own. */
  function Translate(rules: seq<Forward>, port: nat): nat {
    if rules == [] then port
    else if rules[0].from == port then rules[0].to
    else Translate(rules[1..], port)
  }

  lemma {:induction false} TranslateConcat(a: seq<Forward>, b: seq<Forward>, port: nat)
    ensures Translate(a + b, port) == if exists f <- a :: f.from == port then Translate(a, port) else Translate(b, port)
  {
    if a == [] {
      assert a + b == b;
    } else {
      assert (a + b)[1..] == a[1..] + b;
      TranslateConcat(a[1..], b, port);
    }
  }

  lemma {:induction false} AlternatesTranslate(alternates: seq<nat>, to: nat, port: nat)
    ensures Translate(AlternateForwards(alternates, to), port) == if port in alternates then to else port
    ensures (exists f <- AlternateForwards(alternates, to) :: f.from == port) <==> port in alternates
  {
    if alternates != [] {
      var n := |alternates| - 1;
      AlternatesTranslate(alternates[..n], to, port);
      TranslateConcat(AlternateForwards(alternates[..n], to), [Forward(alternates[n], to)], port);
      assert alternates == alternates[..n] + [alternates[n]];
      assert [Forward(alternates[n], to)][1..] == [];
    }
  }

  /** A client that connects to the advertised OSSH port reaches the OSSH port, except when that advertised
      port is an alternate 443 which the web server's forward takes first. */
  lemma AdvertisedPortReachesOssh(host: Host, server: Server)
    requires server.caps.ossh
    requires server.caps.handshake && server.caps.Meek() ==> host.meekPort.Some?
    ensures var alternates := server.alternateOsshPorts;
            AdvertisedOsshPort(server) ==
            if alternates == [] || server.caps.frontedMeek || server.caps.unfrontedMeek || server.caps.sessionTicket
            then server.osshPort else alternates[|alternates| - 1]
    ensures Translate(Forwards(host, server), AdvertisedOsshPort(server)) == server.osshPort
       <==> !(ForwardsWeb(host, server) && AdvertisedOsshPort(server) == 443) || server.webPort == server.osshPort
  {
    var port := AdvertisedOsshPort(server);
    var web := if ForwardsWeb(host, server) then [Forward(443, server.webPort)] else [];
    TranslateConcat(web, AlternateForwards(server.alternateOsshPorts, server.osshPort), port);
    AlternatesTranslate(server.alternateOsshPorts, server.osshPort, port);
    assert ForwardsWeb(host, server) ==> web[0] in web && web[1..] == [];
  }

  /** Where a connection from outside ends up: HTTPS at the web server if handshakes are served and neither meek nor
      OSSH uses 443, else an alternate port at OSSH, else where it was sent. */
  lemma ForwardedTo(host: Host, server: Server, port: nat)
    requires server.caps.handshake && server.caps.Meek() ==> host.meekPort.Some?
    ensures var meek := server.caps.frontedMeek || server.caps.unfrontedMeek || server.caps.sessionTicket;
            Translate(Forwards(host, server), port) ==
            if port == 443 && server.caps.handshake && !(meek && host.meekPort == Some(443))
               && !(server.caps.ossh && server.osshPort == 443) then server.webPort
            else if port in server.alternateOsshPorts then server.osshPort
            else port
  {
    var web := if ForwardsWeb(host, server) then [Forward(443, server.webPort)] else [];
    TranslateConcat(web, AlternateForwards(server.alternateOsshPorts, server.osshPort), port);
    AlternatesTranslate(server.alternateOsshPorts, server.osshPort, port);
    assert ForwardsWeb(host, server) ==> web[0] in web && web[1..] == [];
  }

  /** A server whose advertised alternate port leads to its web server. */
  lemma AlternateTakenByWeb()
    ensures var caps := Capabilities(true, false, false, true, true, false, false, false);
            var host, server := Host(22, Native, None, {}), Server(1, caps, 8080, 22, 995, [443]);
            && AdvertisedOsshPort(server) == 443
            && Translate(Forwards(host, server), AdvertisedOsshPort(server)) == 8080 != server.osshPort
  {
    var caps := Capabilities(true, false, false, true, true, false, false, false);
    var host, server := Host(22, Native, None, {}), Server(1, caps, 8080, 22, 995, [443]);
    assert Forwards(host, server)[0] == Forward(443, 8080);
  }
}
