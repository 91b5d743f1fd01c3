/** The copies of the database sent to hosts: what they leave out, and what discovery still sees. */
module Compartments {
  import opened Options
  import opened Network

  /** A server record with what a copy of it takes or leaves. */
  datatype Entry = Entry(id: Id, hostId: Id, discovery: Option<Period>, sshPrivateKey: Option<string>)

  /** The record as it is copied: the host's SSH key stays behind. */
  function Scrubbed(s: Entry): Entry {
    s.(sshPrivateKey := None)
  }

  predicate Discoverable(s: Entry, date: int) {
    s.discovery.Some? && s.discovery.value.start <= date < s.discovery.value.end
  }

  /** The discovery candidates of a database on a date. */
  function Candidates(servers: map<Id, Entry>, date: int): (ids: set<Id>)
    ensures forall id <- servers :: id in ids <==>
              servers[id].discovery.Some? && servers[id].discovery.value.start <= date < servers[id].discovery.value.end
  {
    set id <- servers | Discoverable(servers[id], date)
  }

  function ListCandidates(servers: seq<Entry>, date: int): set<Id> {
    set s <- servers | Discoverable(s, date) :: s.id
  }

  /** Keys name their records. */
  ghost predicate Indexed(servers: map<Id, Entry>) {
    forall id <- servers :: servers[id].id == id
  }

  /** Servers of other hosts that are elapsed, or were never for discovery, are left out. */
  predicate OmittedForHost(s: Entry, hostId: Id, cutoff: int) {
    || (s.discovery.Some? && s.hostId != hostId && s.discovery.value.end <= cutoff)
    || (s.discovery.None? && s.hostId != hostId)
  }

  method CompartmentalizeForHost(servers: map<Id, Entry>, hostId: Id, cutoff: int) returns (copy: map<Id, Entry>)
    requires Indexed(servers)
    ensures Indexed(copy)
    ensures forall id <- servers :: servers[id].hostId == hostId ==> id in copy && copy[id] == Scrubbed(servers[id])
    ensures forall id <- copy :: id in servers && copy[id] == Scrubbed(servers[id])
    ensures forall id <- copy :: copy[id].hostId != hostId ==>
              copy[id].discovery.Some? && copy[id].discovery.value.end > cutoff
    ensures copy == CopyFor(servers, hostId, cutoff)
    ensures forall id <- servers :: id in copy <==>
              servers[id].hostId == hostId || (servers[id].discovery.Some? && servers[id].discovery.value.end > cutoff)
    ensures forall id <- copy :: copy[id] == Entry(id, servers[id].hostId, servers[id].discovery, None)
    ensures forall date :: cutoff <= date ==> Candidates(copy, date) == Candidates(servers, date)
  {
    copy := map[];
    var todo := servers.Keys;
    while todo != {}
      invariant todo <= servers.Keys
      invariant copy == map id <- servers.Keys - todo | !OmittedForHost(servers[id], hostId, cutoff) ::
                          Scrubbed(servers[id])
      decreases todo
    {
      var id :| id in todo;
      todo := todo - {id};
      var server := servers[id];
      if !OmittedForHost(server, hostId, cutoff) {
        copy := copy[server.id := Scrubbed(server)];
      }
    }
    forall date | cutoff <= date
      ensures Candidates(copy, date) == Candidates(servers, date)
    {
      assert forall id :: id in Candidates(copy, date) <==> id in Candidates(servers, date);
    }
  }

  predicate Unelapsed(s: Entry, cutoff: int) {
    s.discovery.Some? && s.discovery.value.end > cutoff
  }

  /** The list holds exactly the records that have not elapsed by the cutoff. */
  ghost predicate IsTcsCopy(list: seq<Entry>, servers: map<Id, Entry>, cutoff: int) {
    && (forall s <- list :: s.id in servers && s == Scrubbed(servers[s.id]) && Unelapsed(s, cutoff))
    && (forall id <- servers :: Unelapsed(servers[id], cutoff) ==> Scrubbed(servers[id]) in list)
  }

  lemma TcsCandidates(list: seq<Entry>, servers: map<Id, Entry>, cutoff: int, date: int)
    requires Indexed(servers) && IsTcsCopy(list, servers, cutoff) && cutoff <= date
    ensures ListCandidates(list, date) == Candidates(servers, date)
  {
    forall id
      ensures id in ListCandidates(list, date) <==> id in Candidates(servers, date)
    {
      if id in Candidates(servers, date) {
        assert Scrubbed(servers[id]) in list;
      }
    }
  }

  method CompartmentalizeForTcs(servers: map<Id, Entry>, cutoff: int) returns (list: seq<Entry>)
    requires Indexed(servers)
    ensures forall s <- list :: s.id in servers && s == Scrubbed(servers[s.id])
    ensures forall s <- list :: s.discovery.Some? && s.discovery.value.end > cutoff
    ensures forall i, j :: 0 <= i < j < |list| ==> list[i].id != list[j].id
    ensures IsTcsCopy(list, servers, cutoff)
    ensures forall s <- list :: s == Entry(s.id, servers[s.id].hostId, servers[s.id].discovery, None)
    ensures forall id <- servers :: servers[id].discovery.Some? && servers[id].discovery.value.end > cutoff ==>
              Entry(id, servers[id].hostId, servers[id].discovery, None) in list
    ensures forall date :: cutoff <= date ==> ListCandidates(list, date) == Candidates(servers, date)
  {
    list := [];
    var todo := servers.Keys;
    while todo != {}
      invariant todo <= servers.Keys
      invariant forall s <- list :: s.id in servers.Keys - todo && s == Scrubbed(servers[s.id])
                                 && s.discovery.Some? && s.discovery.value.end > cutoff
      invariant forall i, j :: 0 <= i < j < |list| ==> list[i].id != list[j].id
      invariant forall id <- servers.Keys - todo :: Unelapsed(servers[id], cutoff) ==> Scrubbed(servers[id]) in list
      decreases todo
    {
      var id :| id in todo;
      todo := todo - {id};
      var server := servers[id];
      if Unelapsed(server, cutoff) {
        list := list + [Scrubbed(server)];
      }
    }
    forall date | cutoff <= date
      ensures ListCandidates(list, date) == Candidates(servers, date)
    {
      TcsCandidates(list, servers, cutoff, date);
    }
  }

  /** The copy for a host, as a function. */
  function CopyFor(servers: map<Id, Entry>, hostId: Id, cutoff: int): map<Id, Entry> {
    map id <- servers | !OmittedForHost(servers[id], hostId, cutoff) :: Scrubbed(servers[id])
  }

  /** A copy can be trusted for a date exactly when the date is not before the copy's cutoff. */
  lemma CopyGoodFromCutoffOn(hostId: Id, cutoff: int, date: int)
    ensures (forall servers: map<Id, Entry> ::
               Candidates(CopyFor(servers, hostId, cutoff), date) == Candidates(servers, date))
       <==> cutoff <= date
  {
    if cutoff <= date {
      forall servers: map<Id, Entry>
        ensures Candidates(CopyFor(servers, hostId, cutoff), date) == Candidates(servers, date)
      {
      }
    } else {
      var elsewhere := hostId + "'";
      assert |elsewhere| != |hostId|;
      var servers := map["s" := Entry("s", elsewhere, Some(Period(date, date + 1)), None)];
      assert "s" in Candidates(servers, date);
      assert "s" !in Candidates(CopyFor(servers, hostId, cutoff), date);
    }
  }

  /** The tunnel-core copies of every database have its candidates on the date. */
  ghost predicate TcsGoodOn(cutoff: int, date: int) {
    forall list, servers :: Indexed(servers) && IsTcsCopy(list, servers, cutoff) ==>
      ListCandidates(list, date) == Candidates(servers, date)
  }

  /** The same holds for the list sent to tunnel-core hosts. */
  lemma TcsCopyGoodFromCutoffOn(cutoff: int, date: int)
    ensures TcsGoodOn(cutoff, date) <==> cutoff <= date
  {
    if cutoff <= date {
      forall list, servers | Indexed(servers) && IsTcsCopy(list, servers, cutoff)
        ensures ListCandidates(list, date) == Candidates(servers, date)
      {
        TcsCandidates(list, servers, cutoff, date);
      }
    } else {
      var servers := map["s" := Entry("s", "h", Some(Period(date, date + 1)), None)];
      assert Indexed(servers) && IsTcsCopy([], servers, cutoff);
      assert "s" in Candidates(servers, date) && "s" !in ListCandidates([], date);
    }
  }
}
