/** The ports a tunnel-core server listens on, what its server entry tells clients, and how new servers are set up. */
module Ports {
  import opened Options

  datatype Capabilities = Capabilities(
    handshake: bool, sshApi: bool, vpn: bool, ssh: bool, ossh: bool,
    frontedMeek: bool, unfrontedMeek: bool, sessionTicket: bool)
  {
    predicate Meek() { frontedMeek || unfrontedMeek || sessionTicket }
  }

  datatype Flavour = Native | Docker

  datatype Host = Host(managementPort: nat, flavour: Flavour, meekPort: Option<nat>,
                       alternateFrontingHosts: set<string>)

  datatype Server = Server(
    address: nat, caps: Capabilities, webPort: nat, sshPort: nat, osshPort: nat, alternateOsshPorts: seq<nat>)

  datatype Protocol =
    | Ssh | Ossh | FrontedMeek | UnfrontedMeek | FrontedMeekHttp | UnfrontedMeekHttps | SessionTicket
  {
    predicate IsMeek() { !Ssh? && !Ossh? }
  }

  /** Unfronted meek needs the host to have a meek port. */
  predicate MeekConfigured(host: Host, server: Server) {
    server.caps.unfrontedMeek || server.caps.sessionTicket ==> host.meekPort.Some?
  }

  /** Protocols in the order they are considered, with the port each has inside a container. */
  const PLAIN_PROTOCOLS: seq<(Protocol, nat)> := [(Ssh, 1026), (Ossh, 1027)]
  const MEEK_PROTOCOLS: seq<(Protocol, nat)> :=
    [(FrontedMeek, 1028), (UnfrontedMeek, 1029), (FrontedMeekHttp, 1030), (UnfrontedMeekHttps, 1031),
     (SessionTicket, 1032)]

  // ---- Specification ----

  predicate Supports(host: Host, server: Server, p: Protocol)
    requires MeekConfigured(host, server)
  {
    match p
    case Ssh => server.caps.ssh
    case Ossh => server.caps.ossh
    case FrontedMeek => server.caps.frontedMeek
    case UnfrontedMeek => server.caps.unfrontedMeek && host.meekPort.value != 443
    case FrontedMeekHttp => server.caps.frontedMeek && host.alternateFrontingHosts != {}
    case UnfrontedMeekHttps => server.caps.unfrontedMeek && host.meekPort.value == 443
    case SessionTicket => server.caps.sessionTicket
  }

  function ExternalPort(host: Host, server: Server, p: Protocol): nat
    requires MeekConfigured(host, server) && Supports(host, server, p)
  {
    match p
    case Ssh => server.sshPort
    case Ossh => server.osshPort
    case FrontedMeek => 443
    case FrontedMeekHttp => 80
    case _ => host.meekPort.value
  }

  function ContainerPort(p: Protocol): nat {
    match p
    case Ssh => 1026
    case Ossh => 1027
    case FrontedMeek => 1028
    case UnfrontedMeek => 1029
    case FrontedMeekHttp => 1030
    case UnfrontedMeekHttps => 1031
    case SessionTicket => 1032
  }

  function PortFor(host: Host, server: Server, external: bool, p: Protocol): nat
    requires MeekConfigured(host, server) && Supports(host, server, p)
  {
    if external then ExternalPort(host, server, p) else ContainerPort(p)
  }

  /** The protocol to port map of a server, outside or inside its container. */
  function SupportedPorts(host: Host, server: Server, external: bool, meek: bool): map<Protocol, nat>
    requires MeekConfigured(host, server)
  {
    map p: Protocol | Supports(host, server, p) && (meek || !p.IsMeek()) :: PortFor(host, server, external, p)
  }

  // ---- The loop over protocols ----

  /** The case analysis for one protocol. */
  method AddPort(host: Host, server: Server, external: bool, p: Protocol, inside: nat, ports0: map<Protocol, nat>)
    returns (ports: map<Protocol, nat>)
    requires MeekConfigured(host, server) && inside == ContainerPort(p)
    ensures ports == if Supports(host, server, p) then ports0[p := PortFor(host, server, external, p)] else ports0
  {
    ports := ports0;
    var caps := server.caps;
    if p == Ssh && caps.ssh {
      ports := ports[p := if external then server.sshPort else inside];
    }
    if p == Ossh && caps.ossh {
      ports := ports[p := if external then server.osshPort else inside];
    }
    if p == FrontedMeek && caps.frontedMeek {
      ports := ports[p := if external then 443 else inside];
    }
    if p == UnfrontedMeek && caps.unfrontedMeek && host.meekPort.value != 443 {
      ports := ports[p := if external then host.meekPort.value else inside];
    }
    if p == FrontedMeekHttp && caps.frontedMeek && host.alternateFrontingHosts != {} {
      ports := ports[p := if external then 80 else inside];
    }
    if p == UnfrontedMeekHttps && caps.unfrontedMeek && host.meekPort.value == 443 {
      ports := ports[p := if external then host.meekPort.value else inside];
    }
    if p == SessionTicket && caps.sessionTicket {
      ports := ports[p := if external then host.meekPort.value else inside];
    }
  }

  predicate Listed(list: seq<(Protocol, nat)>, n: nat, q: Protocol)
    requires n <= |list|
  {
    exists j :: 0 <= j < n && list[j].0 == q
  }

  function ProtocolList(meek: bool): seq<(Protocol, nat)> {
    PLAIN_PROTOCOLS + if meek then MEEK_PROTOCOLS else []
  }

  method GetSupportedProtocolPorts(host: Host, server: Server, external: bool, meek: bool)
    returns (ports: map<Protocol, nat>)
    requires MeekConfigured(host, server)
    ensures ports == SupportedPorts(host, server, external, meek)
    ensures Ssh in ports <==> server.caps.ssh
    ensures Ossh in ports <==> server.caps.ossh
    ensures FrontedMeek in ports <==> meek && server.caps.frontedMeek
    ensures UnfrontedMeek in ports <==> meek && server.caps.unfrontedMeek && host.meekPort != Some(443)
    ensures FrontedMeekHttp in ports <==> meek && server.caps.frontedMeek && host.alternateFrontingHosts != {}
    ensures UnfrontedMeekHttps in ports <==> meek && server.caps.unfrontedMeek && host.meekPort == Some(443)
    ensures SessionTicket in ports <==> meek && server.caps.sessionTicket
    ensures external ==> forall p <- ports :: ports[p] == match p
              case Ssh => server.sshPort
              case Ossh => server.osshPort
              case FrontedMeek => 443
              case FrontedMeekHttp => 80
              case _ => if host.meekPort.Some? then host.meekPort.value else 0
    ensures !external ==> forall p <- ports :: ports[p] == match p
              case Ssh => 1026
              case Ossh => 1027
              case FrontedMeek => 1028
              case UnfrontedMeek => 1029
              case FrontedMeekHttp => 1030
              case UnfrontedMeekHttps => 1031
              case SessionTicket => 1032
  {
    hide Supports, ExternalPort, ContainerPort, ProtocolList;
    var protocols := ProtocolList(meek);
    ListsAll(meek);
    ports := map[];
    ghost var seen: set<Protocol> := {};
    for i := 0 to |protocols|
      invariant forall q: Protocol :: q in seen <==> Listed(protocols, i, q)
      invariant ports == map q <- seen | Supports(host, server, q) :: PortFor(host, server, external, q)
    {
      var (p, inside) := protocols[i];
      ports := AddPort(host, server, external, p, inside, ports);
      seen := seen + {p};
    }
    assert forall q: Protocol :: q in seen <==> (meek || !q.IsMeek());
    assert ports.Keys == SupportedPorts(host, server, external, meek).Keys;
    PortsAre(host, server, external, meek);
  }

  /** Which protocols a server has ports for, and which ports, in terms of its record. */
  lemma PortsAre(host: Host, server: Server, external: bool, meek: bool)
    requires MeekConfigured(host, server)
    ensures var ports := SupportedPorts(host, server, external, meek);
            && (Ssh in ports <==> server.caps.ssh)
            && (Ossh in ports <==> server.caps.ossh)
            && (FrontedMeek in ports <==> meek && server.caps.frontedMeek)
            && (UnfrontedMeek in ports <==> meek && server.caps.unfrontedMeek && host.meekPort != Some(443))
            && (FrontedMeekHttp in ports <==> meek && server.caps.frontedMeek && host.alternateFrontingHosts != {})
            && (UnfrontedMeekHttps in ports <==> meek && server.caps.unfrontedMeek && host.meekPort == Some(443))
            && (SessionTicket in ports <==> meek && server.caps.sessionTicket)
    ensures external ==> forall p <- SupportedPorts(host, server, external, meek) ::
              SupportedPorts(host, server, external, meek)[p] == match p
                case Ssh => server.sshPort
                case Ossh => server.osshPort
                case FrontedMeek => 443
                case FrontedMeekHttp => 80
                case _ => if host.meekPort.Some? then host.meekPort.value else 0
    ensures !external ==> forall p <- SupportedPorts(host, server, external, meek) ::
              SupportedPorts(host, server, external, meek)[p] == match p
                case Ssh => 1026
                case Ossh => 1027
                case FrontedMeek => 1028
                case UnfrontedMeek => 1029
                case FrontedMeekHttp => 1030
                case UnfrontedMeekHttps => 1031
                case SessionTicket => 1032
  {
  }

  /** The list holds each protocol wanted, with its container port. */
  lemma ListsAll(meek: bool)
    ensures var list := ProtocolList(meek);
            && (forall j :: 0 <= j < |list| ==> list[j].1 == ContainerPort(list[j].0))
            && (forall q: Protocol :: Listed(list, |list|, q) <==> (meek || !q.IsMeek()))
  {
    var list := ProtocolList(meek);
    assert list[0].0 == Ssh && list[1].0 == Ossh;
    if meek {
      assert list[2].0 == FrontedMeek && list[3].0 == UnfrontedMeek && list[4].0 == FrontedMeekHttp;
      assert list[5].0 == UnfrontedMeekHttps && list[6].0 == SessionTicket;
    }
  }

  // ---- Server entries ----

  /** The capability names a server entry can list. */
  datatype Capability =
    | HANDSHAKE | SSH_API_REQUESTS | VPN | SSH | OSSH | FRONTED_MEEK | FRONTED_MEEK_HTTP
    | UNFRONTED_MEEK | UNFRONTED_MEEK_HTTPS | UNFRONTED_MEEK_SESSION_TICKET

  /** The capability under which an entry offers a tunnel protocol. */
  function CapabilityFor(p: Protocol): Capability {
    match p
    case Ssh => SSH
    case Ossh => OSSH
    case FrontedMeek => FRONTED_MEEK
    case UnfrontedMeek => UNFRONTED_MEEK
    case FrontedMeekHttp => FRONTED_MEEK_HTTP
    case UnfrontedMeekHttps => UNFRONTED_MEEK_HTTPS
    case SessionTicket => UNFRONTED_MEEK_SESSION_TICKET
  }

  function CapabilityTable(c: Capabilities): map<Capability, bool> {
    map[HANDSHAKE := c.handshake, SSH_API_REQUESTS := c.sshApi, VPN := c.vpn, SSH := c.ssh, OSSH := c.ossh,
        FRONTED_MEEK := c.frontedMeek, UNFRONTED_MEEK := c.unfrontedMeek,
        UNFRONTED_MEEK_SESSION_TICKET := c.sessionTicket]
  }

  /** The capabilities a server entry lists: each tunnel protocol exactly when it is given a port. */
  method EntryCapabilities(host: Host, server: Server) returns (listed: set<Capability>)
    requires MeekConfigured(host, server)
    ensures forall p: Protocol :: CapabilityFor(p) in listed <==> p in SupportedPorts(host, server, true, true)
    ensures HANDSHAKE in listed <==> server.caps.handshake
    ensures SSH_API_REQUESTS in listed <==> server.caps.sshApi
    ensures VPN in listed <==> server.caps.vpn
    ensures SSH in listed <==> server.caps.ssh
    ensures OSSH in listed <==> server.caps.ossh
    ensures FRONTED_MEEK in listed <==> server.caps.frontedMeek
    ensures FRONTED_MEEK_HTTP in listed <==> server.caps.frontedMeek && host.alternateFrontingHosts != {}
    ensures UNFRONTED_MEEK in listed <==> server.caps.unfrontedMeek && host.meekPort != Some(443)
    ensures UNFRONTED_MEEK_HTTPS in listed <==> server.caps.unfrontedMeek && host.meekPort == Some(443)
    ensures UNFRONTED_MEEK_SESSION_TICKET in listed <==> server.caps.sessionTicket
  {
    hide CapabilityFor, SupportedPorts, EntryTable;
    var table := BuildEntryTable(host, server);
    PlainEntries(host, server);
    listed := set name <- table | table[name];
    forall p: Protocol
      ensures CapabilityFor(p) in listed <==> p in SupportedPorts(host, server, true, true)
    {
      EntryMatches(host, server, p);
    }
    EntryNames(host, server, listed);
  }

  /** The server's capabilities, with unfronted meek renamed on port 443 and fronted HTTP added to fronted meek. */
  function EntryTable(host: Host, server: Server): map<Capability, bool>
    requires MeekConfigured(host, server)
  {
    var plain := CapabilityTable(server.caps);
    var swapped := if server.caps.unfrontedMeek && host.meekPort.value == 443
                   then plain[UNFRONTED_MEEK := false][UNFRONTED_MEEK_HTTPS := true] else plain;
    if server.caps.frontedMeek && host.alternateFrontingHosts != {} then swapped[FRONTED_MEEK_HTTP := true] else swapped
  }

  method BuildEntryTable(host: Host, server: Server) returns (table: map<Capability, bool>)
    requires MeekConfigured(host, server)
    ensures table == EntryTable(host, server)
  {
    table := CapabilityTable(server.caps);
    if table[UNFRONTED_MEEK] && host.meekPort.value == 443 {
      table := table[UNFRONTED_MEEK := false][UNFRONTED_MEEK_HTTPS := true];
    }
    if host.alternateFrontingHosts != {} {
      if table[FRONTED_MEEK] {
        table := table[FRONTED_MEEK_HTTP := true];
      }
    }
  }

  lemma PlainEntry(host: Host, server: Server, name: Capability)
    requires MeekConfigured(host, server) && name in CapabilityTable(server.caps)
    requires name != UNFRONTED_MEEK && name != UNFRONTED_MEEK_HTTPS && name != FRONTED_MEEK_HTTP
    ensures name in EntryTable(host, server) && EntryTable(host, server)[name] == CapabilityTable(server.caps)[name]
  {
    hide CapabilityTable;
  }

  lemma PlainEntries(host: Host, server: Server)
    requires MeekConfigured(host, server)
    ensures var table := EntryTable(host, server);
            && HANDSHAKE in table && table[HANDSHAKE] == server.caps.handshake
            && SSH_API_REQUESTS in table && table[SSH_API_REQUESTS] == server.caps.sshApi
            && VPN in table && table[VPN] == server.caps.vpn
  {
    hide EntryTable;
    var table := CapabilityTable(server.caps);
    assert HANDSHAKE in table && SSH_API_REQUESTS in table && VPN in table;
    PlainEntry(host, server, HANDSHAKE);
    PlainEntry(host, server, SSH_API_REQUESTS);
    PlainEntry(host, server, VPN);
  }

  lemma EntryNames(host: Host, server: Server, listed: set<Capability>)
    requires MeekConfigured(host, server)
    requires forall p: Protocol :: CapabilityFor(p) in listed <==> p in SupportedPorts(host, server, true, true)
    ensures SSH in listed <==> server.caps.ssh
    ensures OSSH in listed <==> server.caps.ossh
    ensures FRONTED_MEEK in listed <==> server.caps.frontedMeek
    ensures FRONTED_MEEK_HTTP in listed <==> server.caps.frontedMeek && host.alternateFrontingHosts != {}
    ensures UNFRONTED_MEEK in listed <==> server.caps.unfrontedMeek && host.meekPort != Some(443)
    ensures UNFRONTED_MEEK_HTTPS in listed <==> server.caps.unfrontedMeek && host.meekPort == Some(443)
    ensures UNFRONTED_MEEK_SESSION_TICKET in listed <==> server.caps.sessionTicket
  {
    hide SupportedPorts;
    PortsAre(host, server, true, true);
    assert CapabilityFor(Ssh) == SSH && CapabilityFor(Ossh) == OSSH && CapabilityFor(FrontedMeek) == FRONTED_MEEK;
    assert CapabilityFor(UnfrontedMeek) == UNFRONTED_MEEK && CapabilityFor(FrontedMeekHttp) == FRONTED_MEEK_HTTP;
    assert CapabilityFor(UnfrontedMeekHttps) == UNFRONTED_MEEK_HTTPS;
    assert CapabilityFor(SessionTicket) == UNFRONTED_MEEK_SESSION_TICKET;
  }

  lemma EntryMatches(host: Host, server: Server, p: Protocol)
    requires MeekConfigured(host, server)
    ensures var table := EntryTable(host, server);
            (CapabilityFor(p) in table && table[CapabilityFor(p)]) <==> p in SupportedPorts(host, server, true, true)
  {
  }

  /** The OSSH port an entry gives: the newest alternate, unless meek is on. */
  function AdvertisedOsshPort(server: Server): nat {
    var n := |server.alternateOsshPorts|;
    if n > 0 && !server.caps.Meek() then server.alternateOsshPorts[n - 1] else server.osshPort
  }

  // ---- New servers ----

  /** The random draws for one new server. */
  datatype Draws = Draws(ossh: nat, half: bool, obscure: nat, third: nat, web: nat) {
    predicate Possible() {
      && (ossh == 53 || ossh == 443)
      && 1 <= obscure < 1023 && obscure !in {15, 25, 80, 135, 136, 137, 138, 139, 515, 593}
      && third < 3 && 8000 <= web < 9000
    }
  }

  /** Port and capability choices for the server at a position of a batch, on a tunnel-core host. */
  method ConfigureServer(position: nat, discovery: bool, draws: Draws, host0: Host, address: nat)
    returns (host: Host, server: Server)
    requires draws.Possible() && host0.meekPort.None?
    ensures MeekConfigured(host, server) && host == host0.(meekPort := host.meekPort)
    ensures !server.caps.handshake && !server.caps.vpn && server.caps.sshApi
    ensures var ports := SupportedPorts(host, server, true, true);
            && (forall p <- ports, q <- ports :: p != q ==> ports[p] != ports[q])
            && (forall p <- ports :: ports[p] != server.webPort)
    ensures SupportedPorts(host, server, true, true) != map[]
    ensures server.address == address && server.sshPort == 22 && server.webPort == draws.web
    ensures server.alternateOsshPorts == [] && !server.caps.frontedMeek
    ensures server.caps.ssh <==> !discovery && position % 2 == 0
    ensures server.caps.ossh <==> !(discovery && draws.half)
    ensures var meek := if discovery then draws.half else position % 2 == 0;
            && server.caps.unfrontedMeek == (meek && draws.third < 2)
            && server.caps.sessionTicket == (meek && draws.third == 2)
            && host.meekPort == (if !meek then None else if draws.third == 0 then Some(80) else Some(443))
            && server.osshPort == (if meek && draws.third > 0 then 53
                                   else if !discovery && position % 2 == 1 then draws.obscure else draws.ossh)
  {
    host := host0;
    var ossh := draws.ossh;
    var caps := Capabilities(true, false, true, true, true, false, false, false);
    if discovery {
      caps := caps.(handshake := false, vpn := false, ssh := false);
      if draws.half {
        caps := caps.(ossh := false, unfrontedMeek := true);
      }
    } else if position % 2 == 1 {
      caps := caps.(handshake := false, vpn := false, ssh := false);
      ossh := draws.obscure;
    } else {
      caps := caps.(unfrontedMeek := true);
    }
    if caps.unfrontedMeek {
      if draws.third == 0 {
        host := host.(meekPort := Some(80));
      } else if draws.third == 1 {
        ossh := 53;
        host := host.(meekPort := Some(443));
      } else {
        ossh := 53;
        caps := caps.(unfrontedMeek := false, sessionTicket := true);
        host := host.(meekPort := Some(443));
      }
    }
    caps := caps.(sshApi := true, handshake := false, vpn := false);
    server := Server(address, caps, draws.web, 22, ossh, []);
    var ports := SupportedPorts(host, server, true, true);
    assert caps.ossh ==> ports[Ossh] == ossh;
    assert caps.unfrontedMeek || caps.sessionTicket || caps.ossh;
    assert caps.sessionTicket ==> SessionTicket in ports;
    assert caps.unfrontedMeek ==> UnfrontedMeek in ports || UnfrontedMeekHttps in ports;
  }
}
