/** The daily reply quota of the email responder, one request at a time and interleaved. */
module Quota {
  import opened Options

  /** Settings and permanent lists. Addresses and domains stand for their hashes. */
  datatype Lists = Lists(
    exemptDomains: set<string>, blockedDomains: set<string>,
    whiteEmails: set<string>, whiteDomains: set<string>,
    blackEmails: set<string>, blackDomains: set<string>)

  /** What the lists alone say about an address. */
  datatype Standing = Allowed | Refused | Counted

  function StandingOf(lists: Lists, address: string, domain: string): Standing {
    if domain == "" then Refused
    else if domain in lists.exemptDomains then Allowed
    else if domain in lists.blockedDomains then Refused
    else if address in lists.whiteEmails || domain in lists.whiteDomains then Allowed
    else if address in lists.blackEmails || domain in lists.blackDomains then Refused
    else Counted
  }

  /** The part after the last at sign; None when there is none, which raises. */
  function DomainOf(address: string): Option<string> {
    if address == [] then None
    else
      var n := |address| - 1;
      if address[n] == '@' then Some("")
      else match DomainOf(address[..n])
        case None => None
        case Some(d) => Some(d + [address[n]])
  }

  lemma {:induction false} DomainIsAfterLastAt(address: string, local: string, domain: string)
    requires address == local + "@" + domain && '@' !in domain
    ensures DomainOf(address) == Some(domain)
  {
    var n := |address| - 1;
    if domain == "" {
      assert address[n] == '@';
    } else {
      var m := |domain| - 1;
      assert address[n] == domain[m] && address[..n] == local + "@" + domain[..m];
      DomainIsAfterLastAt(address[..n], local, domain[..m]);
      assert domain == domain[..m] + [domain[m]];
    }
  }

  /** Counts kept since the last clearing, by address. */
  type Counts = map<string, nat>

  /** The number of replies a day's k-th request finds granted already, as stored. */
  function CountOf(counts: Counts, address: string): nat {
    if address in counts then counts[address] else 0
  }

  /** A single request against the counts: a first request is always granted. */
  function Grants(counts: Counts, address: string, limit: nat): bool {
    address !in counts || counts[address] < limit
  }

  function Counting(counts: Counts, address: string): Counts {
    counts[address := CountOf(counts, address) + 1]
  }

  /** How often an address asks. */
  function Times(addresses: seq<string>, address: string): nat {
    if addresses == [] then 0
    else Times(addresses[..|addresses| - 1], address) + if addresses[|addresses| - 1] == address then 1 else 0
  }

  /** How many of its requests got a reply. */
  function Granted(addresses: seq<string>, replies: seq<Option<bool>>, address: string): nat
    requires |addresses| == |replies|
  {
    if addresses == [] then 0
    else
      var n := |addresses| - 1;
      Granted(addresses[..n], replies[..n], address)
      + if addresses[n] == address && replies[n] == Some(true) then 1 else 0
  }

  lemma GrantedMore(addresses: seq<string>, replies: seq<Option<bool>>, i: nat, reply: Option<bool>, address: string)
    requires i == |replies| < |addresses|
    ensures Times(addresses[..i + 1], address) ==
            Times(addresses[..i], address) + if addresses[i] == address then 1 else 0
    ensures Granted(addresses[..i + 1], replies + [reply], address) ==
            Granted(addresses[..i], replies, address) + if addresses[i] == address && reply == Some(true) then 1 else 0
  {
    assert addresses[..i + 1][..i] == addresses[..i] && (replies + [reply])[..i] == replies;
  }

  function AtMost(a: nat, b: nat): nat {
    if a < b then a else b
  }

  class Blacklist {
    var counts: Counts
    const lists: Lists
    const limit: nat

    constructor (lists: Lists, limit: nat)
      ensures this.lists == lists && this.limit == limit && counts == map[]
    {
      this.lists, this.limit, this.counts := lists, limit, map[];
    }

    method ClearAdhoc()
      modifies this
      ensures counts == map[]
    {
      counts := map[];
    }

    /** Whether a request gets a reply; None when the address has no at sign. */
    method CheckAndAdd(address: string) returns (reply: Option<bool>)
      modifies this
      ensures reply.None? <==> DomainOf(address).None?
      ensures reply.Some? ==>
                match StandingOf(lists, address, DomainOf(address).value)
                case Allowed => reply.value && counts == old(counts)
                case Refused => !reply.value && counts == old(counts)
                case Counted => && reply.value == Grants(old(counts), address, limit)
                                && counts == if reply.value then Counting(old(counts), address) else old(counts)
      ensures reply.None? ==> counts == old(counts)
      ensures reply.Some? ==> var domain := DomainOf(address).value;
                var listed := address in lists.whiteEmails || domain in lists.whiteDomains;
                var barred := address in lists.blackEmails || domain in lists.blackDomains;
                && (domain == "" ==> reply == Some(false))
                && (domain != "" && domain in lists.exemptDomains ==> reply == Some(true))
                && (domain !in lists.exemptDomains && domain in lists.blockedDomains ==> reply == Some(false))
                && (domain !in {""} + lists.exemptDomains + lists.blockedDomains ==>
                      && (listed ==> reply == Some(true) && counts == old(counts))
                      && (!listed && barred ==> reply == Some(false) && counts == old(counts))
                      && (!listed && !barred && address !in old(counts) ==>
                            reply == Some(true) && counts == old(counts)[address := 1])
                      && (!listed && !barred && address in old(counts) ==>
                            && reply == Some(old(counts)[address] < limit)
                            && (old(counts)[address] < limit ==>
                                  counts == old(counts)[address := old(counts)[address] + 1])))
    {
      var domain := DomainOf(address);
      if domain.None? {
        return None;
      }
      match StandingOf(lists, address, domain.value) {
        case Allowed => return Some(true);
        case Refused => return Some(false);
        case Counted =>
          if address !in counts {
            counts := counts[address := 1];
          } else if counts[address] < limit {
            counts := counts[address := counts[address] + 1];
          } else {
            return Some(false);
          }
          return Some(true);
      }
    }

    /** The lists leave the address to the counts. */
    predicate IsCounted(address: string) {
      DomainOf(address).Some? && StandingOf(lists, address, DomainOf(address).value).Counted?
    }

    /** Requests of any addresses, one after the other, after a clearing: a counted address that asks k times
        gets min(k, max(limit, 1)) replies, whoever else asks in between. */
    method SerialRequests(addresses: seq<string>) returns (replies: seq<Option<bool>>)
      modifies this
      ensures |replies| == |addresses|
      ensures forall a :: IsCounted(a) ==> Granted(addresses, replies, a) == AtMost(Times(addresses, a), Quota())
    {
      ClearAdhoc();
      replies := [];
      for i := 0 to |addresses|
        invariant |replies| == i
        invariant forall a :: IsCounted(a) ==>
                    && CountOf(counts, a) == Granted(addresses[..i], replies, a)
                    && CountOf(counts, a) == AtMost(Times(addresses[..i], a), Quota())
                    && (a in counts <==> Times(addresses[..i], a) > 0)
      {
        var reply := CheckAndAdd(addresses[i]);
        forall a
          ensures Times(addresses[..i + 1], a) == Times(addresses[..i], a) + if addresses[i] == a then 1 else 0
          ensures Granted(addresses[..i + 1], replies + [reply], a) ==
                  Granted(addresses[..i], replies, a) + if addresses[i] == a && reply == Some(true) then 1 else 0
        {
          GrantedMore(addresses, replies, i, reply, a);
        }
        replies := replies + [reply];
      }
      assert addresses[..|addresses|] == addresses;
    }

    /** A limit below one still grants the first request. */
    function Quota(): nat {
      if limit < 1 then 1 else limit
    }
  }

  // ---- Interleaved requests ----

  /** Where a request stands: not begun, holding what it read, or answered; `first` if it had read no row. */
  datatype Phase = Waiting | ReadNothing | ReadCount(seen: nat) | Answered(reply: bool, first: bool)
  {
    predicate Pending() { ReadNothing? || ReadCount? }
    predicate Replied() { Answered? && reply }
  }

  /** One address's row and its requests, since the last clearing. */
  datatype World = World(row: Option<nat>, requests: seq<Phase>)

  /** A request reads the row, deciding at once when the limit is reached. */
  function Read(w: World, i: nat, limit: nat): World
    requires i < |w.requests| && w.requests[i].Waiting?
  {
    w.(requests := w.requests[i :=
      match w.row
      case None => ReadNothing
      case Some(c) => if c < limit then ReadCount(c) else Answered(false, false)])
  }

  /** A request writes what it computed from its read; a second insert fails on the primary key. */
  function Commit(w: World, i: nat): World
    requires i < |w.requests| && w.requests[i].Pending()
  {
    match w.requests[i]
    case ReadNothing =>
      if w.row.Some? then w.(requests := w.requests[i := Answered(false, true)])
      else World(Some(1), w.requests[i := Answered(true, true)])
    case ReadCount(c) => World(Some(c + 1), w.requests[i := Answered(true, false)])
  }

  datatype Event = DoRead(i: nat) | DoCommit(i: nat)

  predicate Enabled(w: World, e: Event) {
    e.i < |w.requests| && match e
      case DoRead(i) => w.requests[i].Waiting?
      case DoCommit(i) => w.requests[i].Pending()
  }

  function Next(w: World, e: Event, limit: nat): World
    requires Enabled(w, e)
  {
    match e
    case DoRead(i) => Read(w, i, limit)
    case DoCommit(i) => Commit(w, i)
  }

  /** The worlds of a run, starting with n waiting requests on a cleared table. */
  ghost predicate IsRun(ws: seq<World>, es: seq<Event>, n: nat, limit: nat) {
    && |ws| == |es| + 1
    && ws[0] == World(None, seq(n, _ => Waiting))
    && forall k :: 0 <= k < |es| ==> Enabled(ws[k], es[k]) && ws[k + 1] == Next(ws[k], es[k], limit)
  }

  /** How far behind the row a commit writes: how many increments it undoes. */
  function Staleness(w: World, e: Event): int
    requires Enabled(w, e)
  {
    if e.DoCommit? && w.requests[e.i].ReadCount? && w.row.Some? then w.row.value - w.requests[e.i].seen else 0
  }

  function Lost(ws: seq<World>, es: seq<Event>): int
    requires |ws| == |es| + 1 && forall k :: 0 <= k < |es| ==> Enabled(ws[k], es[k])
  {
    if es == [] then 0
    else Lost(ws[..|es|], es[..|es| - 1]) + Staleness(ws[|es| - 1], es[|es| - 1])
  }

  /** How many requests got a reply. */
  function Replies(requests: seq<Phase>): nat {
    if requests == [] then 0
    else Replies(requests[..|requests| - 1]) + if requests[|requests| - 1].Replied() then 1 else 0
  }

  /** How many of those had read no row. */
  function FirstReplies(requests: seq<Phase>): nat {
    if requests == [] then 0
    else FirstReplies(requests[..|requests| - 1]) + if requests[|requests| - 1] == Answered(true, true) then 1 else 0
  }

  function Row(w: World): nat {
    if w.row.Some? then w.row.value else 0
  }

  /** What every reachable world satisfies: the row stays in the quota, nobody has seen more than was
      replied, and the row exists exactly when one of the first readers was answered. */
  ghost predicate Sound(w: World, limit: nat) {
    && FirstReplies(w.requests) == (if w.row.Some? then 1 else 0)
    && Row(w) <= Replies(w.requests)
    && (forall i :: 0 <= i < |w.requests| && w.requests[i].ReadCount? ==> w.requests[i].seen <= Replies(w.requests))
    && (w.row.Some? ==> 1 <= w.row.value && (w.row.value <= limit || w.row.value == 1))
    && (forall i :: 0 <= i < |w.requests| && w.requests[i].ReadCount? ==>
          w.row.Some? && 1 <= w.requests[i].seen < limit)
  }

  lemma {:induction false} RepliesUpdate(requests: seq<Phase>, i: nat, x: Phase)
    requires i < |requests| && !requests[i].Answered?
    ensures Replies(requests[i := x]) == Replies(requests) + if x.Replied() then 1 else 0
    ensures FirstReplies(requests[i := x]) == FirstReplies(requests) + if x == Answered(true, true) then 1 else 0
  {
    var n := |requests| - 1;
    var after := requests[i := x];
    if i == n {
      assert after[..n] == requests[..n];
    } else {
      assert after[..n] == requests[..n][i := x];
      RepliesUpdate(requests[..n], i, x);
    }
  }

  lemma StepKeepsSound(w: World, e: Event, limit: nat)
    requires Sound(w, limit) && Enabled(w, e)
    ensures Sound(Next(w, e, limit), limit)
  {
    var w' := Next(w, e, limit);
    RepliesUpdate(w.requests, e.i, w'.requests[e.i]);
    assert w'.requests == w.requests[e.i := w'.requests[e.i]];
  }

  /** Each step pays one reply per increment, plus whatever its stale write undoes. */
  lemma StepConserves(w: World, e: Event, limit: nat)
    requires Sound(w, limit) && Enabled(w, e)
    ensures var w' := Next(w, e, limit);
            Replies(w'.requests) - Row(w') == Replies(w.requests) - Row(w) + Staleness(w, e)
  {
    var w' := Next(w, e, limit);
    RepliesUpdate(w.requests, e.i, w'.requests[e.i]);
    assert w'.requests == w.requests[e.i := w'.requests[e.i]];
  }

  lemma {:induction false} NoRepliesYet(n: nat)
    ensures Replies(seq(n, _ => Waiting)) == 0 && FirstReplies(seq(n, _ => Waiting)) == 0
  {
    if n > 0 {
      assert seq(n, _ => Waiting)[..n - 1] == seq(n - 1, _ => Waiting);
      NoRepliesYet(n - 1);
    }
  }

  lemma {:induction false} RunIsSound(ws: seq<World>, es: seq<Event>, n: nat, limit: nat)
    requires IsRun(ws, es, n, limit)
    ensures Sound(ws[|es|], limit)
    decreases es
  {
    if es == [] {
      NoRepliesYet(n);
    } else {
      var m := |es| - 1;
      RunIsSound(ws[..|es|], es[..m], n, limit);
      StepKeepsSound(ws[m], es[m], limit);
    }
  }

  /** In every interleaving the stored count stays within the quota, and at most one of the requests that
      read no row gets a reply. */
  lemma EveryInterleaving(ws: seq<World>, es: seq<Event>, n: nat, limit: nat)
    requires IsRun(ws, es, n, limit)
    ensures Row(ws[|es|]) <= if limit < 1 then 1 else limit
    ensures FirstReplies(ws[|es|].requests) <= 1
    ensures FirstReplies(ws[|es|].requests) == 1 <==> ws[|es|].row.Some?
  {
    RunIsSound(ws, es, n, limit);
  }

  /** Conservation: the replies sent are the stored count plus every increment a stale write undid. */
  lemma {:induction false} RepliesAccounted(ws: seq<World>, es: seq<Event>, n: nat, limit: nat)
    requires IsRun(ws, es, n, limit)
    ensures Replies(ws[|es|].requests) == Row(ws[|es|]) + Lost(ws, es)
    ensures Lost(ws, es) >= 0
    decreases es
  {
    if es == [] {
      NoRepliesYet(n);
    } else {
      var m := |es| - 1;
      RepliesAccounted(ws[..|es|], es[..m], n, limit);
      RunIsSound(ws[..|es|], es[..m], n, limit);
      RunIsSound(ws, es, n, limit);
      StepConserves(ws[m], es[m], limit);
    }
  }

  /** No request reads while another holds what it read. */
  ghost predicate OneAtATime(ws: seq<World>, es: seq<Event>)
    requires |ws| == |es| + 1
  {
    forall k, i :: 0 <= k < |es| && es[k].DoRead? && 0 <= i < |ws[k].requests| ==> !ws[k].requests[i].Pending()
  }

  /** A pending request saw the row as it is, and it is the only one. */
  ghost predicate Undisturbed(w: World) {
    && (forall i :: 0 <= i < |w.requests| && w.requests[i].ReadCount? ==> w.row == Some(w.requests[i].seen))
    && (forall i, j :: 0 <= i < j < |w.requests| && w.requests[i].Pending() ==> !w.requests[j].Pending())
  }

  lemma {:induction false} SerialIsUndisturbed(ws: seq<World>, es: seq<Event>, n: nat, limit: nat)
    requires IsRun(ws, es, n, limit) && OneAtATime(ws, es)
    ensures Undisturbed(ws[|es|]) && Lost(ws, es) == 0
    decreases es
  {
    if es != [] {
      var m := |es| - 1;
      SerialIsUndisturbed(ws[..|es|], es[..m], n, limit);
    }
  }

  /** Requests that do not overlap never exceed the quota. */
  lemma SerialWithinQuota(ws: seq<World>, es: seq<Event>, n: nat, limit: nat)
    requires IsRun(ws, es, n, limit) && OneAtATime(ws, es)
    ensures Replies(ws[|es|].requests) <= if limit < 1 then 1 else limit
  {
    SerialIsUndisturbed(ws, es, n, limit);
    RepliesAccounted(ws, es, n, limit);
    EveryInterleaving(ws, es, n, limit);
  }

  // ---- Exactly when overlapping requests stay within the quota ----

  /** Whatever order the reads and writes of n requests come in, the replies stay within the quota. */
  ghost predicate AlwaysWithin(n: nat, limit: nat) {
    forall ws: seq<World>, es: seq<Event> :: IsRun(ws, es, n, limit) ==>
      Replies(ws[|es|].requests) <= if limit < 1 then 1 else limit
  }

  lemma {:induction false} RepliesAtMost(requests: seq<Phase>)
    ensures Replies(requests) <= |requests|
  {
    if requests != [] {
      RepliesAtMost(requests[..|requests| - 1]);
    }
  }

  lemma {:induction false} RunKeepsLength(ws: seq<World>, es: seq<Event>, n: nat, limit: nat)
    requires IsRun(ws, es, n, limit)
    ensures |ws[|es|].requests| == n
    decreases es
  {
    if es != [] {
      RunKeepsLength(ws[..|es|], es[..|es| - 1], n, limit);
    }
  }

  /** With a limit of at most one, only a request that read no row is ever answered with a reply. */
  lemma {:induction false} OnlyFirstReplies(ws: seq<World>, es: seq<Event>, n: nat, limit: nat)
    requires IsRun(ws, es, n, limit) && limit <= 1
    ensures Replies(ws[|es|].requests) == FirstReplies(ws[|es|].requests)
    decreases es
  {
    if es == [] {
      NoRepliesYet(n);
    } else {
      var m := |es| - 1;
      OnlyFirstReplies(ws[..|es|], es[..m], n, limit);
      RunIsSound(ws[..|es|], es[..m], n, limit);
      var w, w' := ws[m], ws[m + 1];
      RepliesUpdate(w.requests, es[m].i, w'.requests[es[m].i]);
      assert w'.requests == w.requests[es[m].i := w'.requests[es[m].i]];
    }
  }

  /** A request that nothing comes between does what a request alone does: a first one is counted and answered, a
      later one exactly while the count is below the limit. */
  lemma RequestAlone(w: World, i: nat, limit: nat)
    requires i < |w.requests| && w.requests[i].Waiting?
    ensures var w' := Read(w, i, limit);
            match w.row
            case None => w'.requests[i].Pending() && Commit(w', i).row == Some(1) && Commit(w', i).requests[i].Replied()
            case Some(count) =>
              if count < limit
              then && w'.requests[i].Pending() && Commit(w', i).row == Some(count + 1)
                   && Commit(w', i).requests[i].Replied()
              else w'.row == w.row && w'.requests[i].Answered? && !w'.requests[i].Replied()
  {
  }

  lemma RunGrows(ws: seq<World>, es: seq<Event>, n: nat, limit: nat, e: Event)
    requires IsRun(ws, es, n, limit) && Enabled(ws[|es|], e)
    ensures IsRun(ws + [Next(ws[|es|], e, limit)], es + [e], n, limit)
  {
  }

  /** Request 0 is answered, requests 1 to k hold the count they read, the others wait. */
  function Reading(n: nat, k: nat): World {
    World(Some(1), seq(n, i => if i == 0 then Answered(true, true) else if i <= k then ReadCount(1) else Waiting))
  }

  /** Requests 0 to k are answered, the others hold the count they read. */
  function Writing(n: nat, k: nat): World {
    World(Some(if k == 0 then 1 else 2),
          seq(n, i => if i == 0 then Answered(true, true) else if i <= k then Answered(true, false) else ReadCount(1)))
  }

  lemma {:induction false} AllRead(n: nat, k: nat, limit: nat) returns (ws: seq<World>, es: seq<Event>)
    requires k < n && 2 <= limit
    ensures IsRun(ws, es, n, limit) && ws[|es|] == Reading(n, k)
    decreases k
  {
    if k == 0 {
      var waiting := World(None, seq(n, _ => Waiting));
      RunGrows([waiting], [], n, limit, DoRead(0));
      ws, es := [waiting, Next(waiting, DoRead(0), limit)], [DoRead(0)];
      RunGrows(ws, es, n, limit, DoCommit(0));
      ws, es := ws + [Next(ws[1], DoCommit(0), limit)], [DoRead(0), DoCommit(0)];
      assert ws[2].requests == Reading(n, 0).requests;
    } else {
      ws, es := AllRead(n, k - 1, limit);
      var w := ws[|es|];
      RunGrows(ws, es, n, limit, DoRead(k));
      ws, es := ws + [Next(w, DoRead(k), limit)], es + [DoRead(k)];
      assert ws[|es|].requests == Reading(n, k).requests;
    }
  }

  lemma {:induction false} AllWrite(n: nat, k: nat, limit: nat) returns (ws: seq<World>, es: seq<Event>)
    requires k < n && 2 <= limit
    ensures IsRun(ws, es, n, limit) && ws[|es|] == Writing(n, k)
    decreases k
  {
    if k == 0 {
      ws, es := AllRead(n, n - 1, limit);
      assert ws[|es|].requests == Writing(n, 0).requests;
    } else {
      ws, es := AllWrite(n, k - 1, limit);
      var w := ws[|es|];
      RunGrows(ws, es, n, limit, DoCommit(k));
      ws, es := ws + [Next(w, DoCommit(k), limit)], es + [DoCommit(k)];
      assert ws[|es|].requests == Writing(n, k).requests;
    }
  }

  lemma {:induction false} AllReplied(requests: seq<Phase>)
    requires forall r <- requests :: r.Replied()
    ensures Replies(requests) == |requests|
  {
    if requests != [] {
      AllReplied(requests[..|requests| - 1]);
    }
  }

  /** With a limit of two or more, any number of requests can all get a reply: the first is answered, all others
      read its count of one, and then all write. */
  lemma OverlapExceedsQuota(n: nat, limit: nat) returns (ws: seq<World>, es: seq<Event>)
    requires 1 <= n && 2 <= limit
    ensures IsRun(ws, es, n, limit) && Replies(ws[|es|].requests) == n && Row(ws[|es|]) <= 2
  {
    ws, es := AllWrite(n, n - 1, limit);
    AllReplied(ws[|es|].requests);
  }

  /** Overlapping requests are sure to stay within the quota exactly when the limit is at most one or there are
      no more requests than the limit. */
  lemma WithinQuotaExactly(n: nat, limit: nat)
    ensures AlwaysWithin(n, limit) <==> limit <= 1 || n <= limit
  {
    if limit <= 1 || n <= limit {
      forall ws: seq<World>, es: seq<Event> | IsRun(ws, es, n, limit)
        ensures Replies(ws[|es|].requests) <= if limit < 1 then 1 else limit
      {
        RepliesAtMost(ws[|es|].requests);
        RunKeepsLength(ws, es, n, limit);
        if limit <= 1 {
          OnlyFirstReplies(ws, es, n, limit);
          EveryInterleaving(ws, es, n, limit);
        }
      }
    } else {
      var ws, es := OverlapExceedsQuota(n, limit);
    }
  }
}
