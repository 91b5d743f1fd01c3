/**
 The network database and its history of external effects: what a saved database still owes,
 what an effect discharges, and which client builds are published where.
 */
module Network {
  import opened Options

  type Id = string

  datatype Platform = Windows | Android

  datatype PerPlatform<T> = PerPlatform(windows: T, android: T) {
    function Get(p: Platform): T { if p.Windows? then windows else android }
    function Put(p: Platform, x: T): PerPlatform<T> {
      if p.Windows? then this.(windows := x) else this.(android := x)
    }
  }

  datatype Target = Target(channel: Id, sponsor: Id)

  datatype Mechanism = Twitter | EmailAutoresponder | StaticDownload

  /** `created` stands for the log a record carries from its creation, which record equality compares. */
  datatype Campaign = Campaign(
    channel: Id, mechanism: Mechanism, account: Option<string>,
    bucket: Option<string>, platforms: Option<set<Platform>>, created: nat)
  {
    predicate Allows(p: Platform) { platforms.None? || p in platforms.value }
  }

  datatype Provider = Linode | DigitalOcean | OtherProvider

  datatype Host = Host(id: Id, isTCS: bool, provider: Provider) {
    predicate HasApi() { provider.Linode? || provider.DigitalOcean? }
  }

  /** From `start` up to, not including, `end`. */
  datatype Period = Period(start: int, end: int)

  datatype Server = Server(
    id: Id, hostId: Id, channel: Id, embedded: bool, permanent: bool, discovery: Option<Period>, enabled: bool)

  datatype Db = Db(
    channels: set<Id>,
    sponsors: map<Id, seq<Campaign>>,
    hosts: map<Id, Host>,
    servers: map<Id, Server>,
    deletedServers: map<Id, Server>,
    toRemove: set<Host>,
    versions: PerPlatform<seq<nat>>,
    defaultEmail: Option<string>,
    implHosts: set<Id>,
    builds: PerPlatform<set<Target>>,
    data: bool,
    stats: bool,
    email: bool,
    sites: set<Id>,
    osls: set<Id>)

  const EmptyDb := Db({}, map[], map[], map[], map[], {}, PerPlatform([], []), None,
                      {}, PerPlatform({}, {}), false, false, false, {}, {})

  /** The version data names for a platform; zero when none was ever added. */
  function Latest(db: Db, p: Platform): nat {
    var vs := db.versions.Get(p);
    if vs == [] then 0 else vs[|vs| - 1]
  }

  /** The upgrade a host with this data offers a client. */
  function CheckUpgrade(source: Db, p: Platform, clientVersion: nat): Option<nat> {
    if Latest(source, p) > clientVersion then Some(Latest(source, p)) else None
  }

  /** The offer is the newest version listed, and there is one exactly when a listed version is above the client's. */
  lemma OfferIsNewest(source: Db, p: Platform, clientVersion: nat)
    requires WellFormed(source)
    ensures var offer, listed := CheckUpgrade(source, p, clientVersion), source.versions.Get(p);
            && (offer.None? <==> forall v <- listed :: v <= clientVersion)
            && (offer.Some? ==> offer.value in listed && forall v <- listed :: v <= offer.value)
  {
    var listed := source.versions.Get(p);
    if listed != [] {
      assert listed[|listed| - 1] in listed && listed[|listed| - 1] == |listed|;
    }
  }

  /** What reaches the outside world. Data carries the database it was made from: `DataSent` to every host by a
      deploy, `DirectData` to one host that is being set up. */
  datatype Effect =
    | Installed(host: Id)
    | Implemented(host: Id)
    | Rebooted(host: Id)
    | Published(platform: Platform, sponsor: Id, index: nat, bucket: string, version: nat)
    | Tweeted(sponsor: Id, index: nat)
    | DataSent(host: Id, source: Db)
    | DirectData(host: Id, source: Db)
    | StatsPushed
    | EmailPushed
    | ProviderRemoved(removed: Host)
    | SiteUpdated(sponsor: Id, index: nat)
    | OslPaved(channel: Id)

  /** The version of the build last put in a bucket; zero when none was. */
  function LastPublished(tr: seq<Effect>, p: Platform, b: string): nat {
    if tr == [] then 0
    else
      var e := tr[|tr| - 1];
      if e.Published? && e.platform == p && e.bucket == b then e.version
      else LastPublished(tr[..|tr| - 1], p, b)
  }

  lemma LastPublishedAppend(tr: seq<Effect>, e: Effect, p: Platform, b: string)
    ensures LastPublished(tr + [e], p, b) ==
            if e.Published? && e.platform == p && e.bucket == b then e.version else LastPublished(tr, p, b)
  {
    assert (tr + [e])[..|tr|] == tr;
  }

  // ---- Well-formed databases ----

  predicate Campaigned(db: Db, s: Id, i: int) {
    s in db.sponsors && 0 <= i < |db.sponsors[s]|
  }

  /** Some email campaign has the account. */
  ghost predicate EmailAccount(sponsors: map<Id, seq<Campaign>>, account: string) {
    exists s, i :: s in sponsors && 0 <= i < |sponsors[s]| && HasAccount(sponsors[s][i], account)
  }

  predicate HasAccount(c: Campaign, account: string) {
    c.mechanism.EmailAutoresponder? && c.account == Some(account)
  }

  ghost predicate WellFormed(db: Db) {
    && db.implHosts <= db.hosts.Keys
    && (forall h <- db.hosts :: db.hosts[h].id == h)
    && (forall id <- db.servers :: db.servers[id].id == id && db.servers[id].hostId in db.hosts)
    && db.servers.Keys !! db.deletedServers.Keys
    && (forall p: Platform, t: Target ::
          t in db.builds.Get(p) ==> t.channel in db.channels && t.sponsor in db.sponsors)
    && db.sites <= db.sponsors.Keys
    && (forall p: Platform, i :: 0 <= i < |db.versions.Get(p)| ==> db.versions.Get(p)[i] == i + 1)
    && (forall s, i :: Campaigned(db, s, i) ==> db.sponsors[s][i].channel in db.channels)
    && (db.defaultEmail.Some? ==> EmailAccount(db.sponsors, db.defaultEmail.value))
  }

  // ---- Publication ----

  predicate Ready(c: Campaign, p: Platform, v: nat, tr: seq<Effect>) {
    c.bucket.Some? && LastPublished(tr, p, c.bucket.value) >= v
  }

  predicate CampaignServed(db: Db, tr: seq<Effect>, p: Platform, s: Id, i: int)
    requires Campaigned(db, s, i)
  {
    var c := db.sponsors[s][i];
    c.Allows(p) ==> Awaits(db, p, s, i) || Ready(c, p, Latest(db, p), tr)
  }

  /** The campaign's target is flagged. */
  predicate Awaits(db: Db, p: Platform, s: Id, i: int)
    requires Campaigned(db, s, i)
  {
    Target(db.sponsors[s][i].channel, s) in db.builds.Get(p)
  }

  /** Every campaign either awaits a build or has a bucket with one as new as the database's version. */
  ghost predicate Served(db: Db, tr: seq<Effect>) {
    forall p, s, i :: Campaigned(db, s, i) ==> CampaignServed(db, tr, p, s, i)
  }

  /** A version not yet saved has every campaign flagged for its build. */
  ghost predicate Fresh(db: Db, saved: Db) {
    forall p, s, i :: Campaigned(db, s, i) && Latest(db, p) > Latest(saved, p) ==>
      Target(db.sponsors[s][i].channel, s) in db.builds.Get(p)
  }

  /** The data of a database tells clients of this campaign to be on a version. */
  predicate Promised(source: Db, p: Platform, s: Id, i: int) {
    Campaigned(source, s, i) && source.sponsors[s][i].Allows(p) && Latest(source, p) > 0
  }

  /** Every campaign the data speaks for has a bucket holding the version the data names, or a newer one. */
  ghost predicate AllOut(source: Db, tr: seq<Effect>) {
    forall p, s, i :: Promised(source, p, s, i) ==> Ready(source.sponsors[s][i], p, Latest(source, p), tr)
  }

  /** For all data sent so far, its builds are out now and no host awaited a new implementation when it was made. */
  ghost predicate PromisesAt(tr: seq<Effect>) {
    forall e <- tr :: e.DataSent? ==> AllOut(e.source, tr) && e.source.implHosts == {} && WellFormed(e.source)
  }

  /** ... and that was so at every moment of the history. */
  ghost predicate Promises(tr: seq<Effect>) {
    forall n :: 0 <= n <= |tr| ==> PromisesAt(tr[..n])
  }

  /** No data sent so far names a version newer than the saved one. */
  ghost predicate PromisesSaved(tr: seq<Effect>, saved: Db) {
    forall e <- tr :: e.DataSent? ==> NamesSaved(e.source, saved)
  }

  ghost predicate NamesSaved(source: Db, saved: Db) {
    forall p, s, i :: Promised(source, p, s, i) ==> Latest(source, p) <= Latest(saved, p)
  }

  /** Effects that keep every promise: publish nothing older than saved, send only what is published. */
  ghost predicate Safe(e: Effect, saved: Db, tr: seq<Effect>) {
    match e
    case Published(p, _, _, _, v) => Latest(saved, p) <= v
    case DataSent(_, source) =>
      AllOut(source, tr) && NamesSaved(source, saved) && source.implHosts == {} && WellFormed(source)
    case _ => true
  }

  /** What is out stays out: a publication is no older than the versions named so far. */
  lemma OutAppend(source: Db, saved: Db, tr: seq<Effect>, e: Effect)
    requires AllOut(source, tr) && NamesSaved(source, saved)
    requires e.Published? ==> Latest(saved, e.platform) <= e.version
    ensures AllOut(source, tr + [e])
  {
    forall p, s, i | Promised(source, p, s, i)
      ensures Ready(source.sponsors[s][i], p, Latest(source, p), tr + [e])
    {
      LastPublishedAppend(tr, e, p, source.sponsors[s][i].bucket.value);
    }
  }

  lemma PromisesAppend(tr: seq<Effect>, e: Effect, saved: Db)
    requires Promises(tr) && PromisesSaved(tr, saved) && Safe(e, saved, tr)
    ensures Promises(tr + [e]) && PromisesSaved(tr + [e], saved)
  {
    hide AllOut, NamesSaved, WellFormed;
    var all := tr + [e];
    assert tr[..|tr|] == tr && PromisesAt(tr);
    forall x <- all | x.DataSent?
      ensures AllOut(x.source, all) && x.source.implHosts == {} && WellFormed(x.source)
    {
      assert x in tr || x == e;
      OutAppend(x.source, saved, tr, e);
    }
    forall n | 0 <= n <= |all|
      ensures PromisesAt(all[..n])
    {
      if n <= |tr| {
        assert all[..n] == tr[..n];
      } else {
        assert all[..n] == all;
      }
    }
  }

  lemma ServedAppend(db: Db, tr: seq<Effect>, e: Effect)
    requires Served(db, tr)
    requires e.Published? ==> Latest(db, e.platform) <= e.version
    ensures Served(db, tr + [e])
  {
    forall p, s, i | Campaigned(db, s, i)
      ensures CampaignServed(db, tr + [e], p, s, i)
    {
      assert CampaignServed(db, tr, p, s, i);
      if db.sponsors[s][i].bucket.Some? {
        LastPublishedAppend(tr, e, p, db.sponsors[s][i].bucket.value);
      }
    }
  }

  // ---- Obligations ----

  datatype Obligation =
    | NeedImplementation(host: Id)
    | NeedBuild(platform: Platform, target: Target)
    | NeedData(host: Id)
    | NeedStats
    | NeedEmail
    | NeedRemoval(removed: Host)
    | NeedSite(sponsor: Id)
    | NeedOsl(channel: Id)

  predicate Owes(db: Db, o: Obligation) {
    match o
    case NeedImplementation(h) => h in db.implHosts
    case NeedBuild(p, t) => t in db.builds.Get(p)
    case NeedData(h) => db.data && h in db.hosts
    case NeedStats => db.stats
    case NeedEmail => db.email
    case NeedRemoval(h) => h in db.toRemove && h.HasApi()
    case NeedSite(s) => s in db.sites
    case NeedOsl(c) => c in db.osls
  }

  predicate PublishedAt(e: Effect, p: Platform, s: Id, i: int, v: nat, bucket: Option<string>) {
    && e.Published? && e.platform == p && e.sponsor == s && e.index == i && e.version >= v
    && bucket == Some(e.bucket)
  }

  ghost predicate EmailedAfter(tr: seq<Effect>, k: nat) {
    exists j :: k < j < |tr| && tr[j].EmailPushed?
  }

  ghost predicate TweetedAfter(tr: seq<Effect>, k: nat, s: Id, i: int) {
    exists j :: k < j < |tr| && tr[j].Tweeted? && tr[j].sponsor == s && tr[j].index == i
  }

  /** What the campaign's mechanism asks for after a publication: a tweet, or an email push made or still owed. */
  ghost predicate Followed(tr: seq<Effect>, k: nat, s: Id, i: int, mechanism: Mechanism, emailOwed: bool) {
    match mechanism
    case Twitter => TweetedAfter(tr, k, s, i)
    case EmailAutoresponder => emailOwed || EmailedAfter(tr, k)
    case StaticDownload => true
  }

  /** A build of the version or a newer one went to the campaign's bucket, and what its mechanism asks for followed. */
  ghost predicate Announced(tr: seq<Effect>, p: Platform, s: Id, i: int, v: nat, c: Campaign, emailOwed: bool) {
    exists k :: 0 <= k < |tr| && PublishedAt(tr[k], p, s, i, v, c.bucket)
                && Followed(tr, k, s, i, c.mechanism, emailOwed)
  }

  /** The campaigns one build target stands for. */
  predicate InTarget(c: Campaign, t: Target, p: Platform) {
    c.channel == t.channel && c.Allows(p)
  }

  /** The host was sent data that holds all that was in `a`. */
  ghost predicate SentData(tr: seq<Effect>, h: Id, a: Db) {
    exists e <- tr :: (e.DataSent? || e.DirectData?) && e.host == h && Grows(a, e.source)
  }

  /** The host was set up afresh, with the implementation and the data of `a` on it. */
  ghost predicate SetUp(tr: seq<Effect>, h: Id, a: Db) {
    Implemented(h) in tr && SentData(tr, h, a)
  }

  /** The effects `tr` discharge what `a` owes on the way to `b`: an email push may still be owed by `b`, and
      a host that `b` no longer has is owed nothing. */
  ghost predicate Done(o: Obligation, a: Db, b: Db, tr: seq<Effect>) {
    match o
    case NeedImplementation(h) => Implemented(h) in tr || h !in b.hosts
    case NeedBuild(p, t) =>
      forall i :: Campaigned(a, t.sponsor, i) && InTarget(a.sponsors[t.sponsor][i], t, p) ==>
        && Campaigned(b, t.sponsor, i)
        && Announced(tr, p, t.sponsor, i, Latest(a, p), b.sponsors[t.sponsor][i], b.email)
    case NeedData(h) => SentData(tr, h, a) || h !in b.hosts
    case NeedStats => StatsPushed in tr
    case NeedEmail => EmailPushed in tr
    case NeedRemoval(h) => ProviderRemoved(h) in tr
    case NeedSite(s) => forall i :: Campaigned(a, s, i) ==> SiteUpdated(s, i) in tr
    case NeedOsl(c) => OslPaved(c) in tr
  }

  predicate SameCampaign(a: Campaign, b: Campaign) {
    a.channel == b.channel && a.mechanism == b.mechanism && a.account == b.account && a.platforms == b.platforms
  }

  /** Campaigns, versions and server ids only grow from a to b. */
  ghost predicate Grows(a: Db, b: Db) {
    && (forall p :: Latest(a, p) <= Latest(b, p))
    && (forall s, i :: Campaigned(a, s, i) ==>
          Campaigned(b, s, i) && SameCampaign(a.sponsors[s][i], b.sponsors[s][i]))
    && a.deletedServers.Keys <= b.deletedServers.Keys
    && (forall id <- a.servers ::
          id in b.deletedServers || (id in b.servers && b.servers[id].hostId == a.servers[id].hostId))
  }

  /** The hosts of `b` that `a` does not have were set up by the effects. */
  ghost predicate NewHostsSetUp(a: Db, b: Db, tr: seq<Effect>) {
    forall h <- b.hosts :: h in a.hosts || SetUp(tr, h, a)
  }

  /** The campaign, which is for the platform, has another bucket in `b` than in `a`. */
  predicate Moves(a: Db, b: Db, p: Platform, s: Id, i: int) {
    && Campaigned(a, s, i) && Campaigned(b, s, i)
    && a.sponsors[s][i].bucket != b.sponsors[s][i].bucket && b.sponsors[s][i].Allows(p)
  }

  /** A campaign that moved to another bucket awaits its builds or has them there. */
  ghost predicate Relocated(a: Db, b: Db, tr: seq<Effect>) {
    forall p, s, i :: Moves(a, b, p, s, i) ==>
      Awaits(b, p, s, i) || Announced(tr, p, s, i, Latest(a, p), b.sponsors[s][i], b.email)
  }

  /** `b` descends from `a` over the effects: what `a` owes, `b` owes or the effects discharged. */
  ghost predicate Kept(a: Db, b: Db, tr: seq<Effect>) {
    && Grows(a, b)
    && NewHostsSetUp(a, b, tr)
    && Relocated(a, b, tr)
    && forall o :: Owes(a, o) ==> Owes(b, o) || Done(o, a, b, tr)
  }

  lemma KeptSelf(a: Db)
    ensures Kept(a, a, [])
  {
  }

  predicate SameAddress(c: Campaign, c': Campaign) {
    c.bucket == c'.bucket && c.mechanism == c'.mechanism
  }

  lemma AnnouncedAppend(tr: seq<Effect>, more: seq<Effect>, p: Platform, s: Id, i: int, v: nat,
                        c: Campaign, c': Campaign, owed: bool, owed': bool)
    requires Announced(tr, p, s, i, v, c, owed) && SameAddress(c, c')
    requires owed ==> owed' || EmailPushed in more
    ensures Announced(tr + more, p, s, i, v, c', owed')
  {
    var all := tr + more;
    var k :| 0 <= k < |tr| && PublishedAt(tr[k], p, s, i, v, c.bucket) && Followed(tr, k, s, i, c.mechanism, owed);
    assert all[k] == tr[k];
    assert forall j :: 0 <= j < |tr| ==> all[j] == tr[j];
    if c.mechanism.EmailAutoresponder? && !owed' && !EmailedAfter(tr, k) {
      var j :| 0 <= j < |more| && more[j] == EmailPushed;
      assert all[|tr| + j].EmailPushed?;
    }
  }

  lemma AnnouncedWeaken(tr: seq<Effect>, more: seq<Effect>, p: Platform, s: Id, i: int, v: nat, v': nat,
                        c: Campaign, owed: bool)
    requires Announced(more, p, s, i, v, c, owed) && v' <= v
    ensures Announced(tr + more, p, s, i, v', c, owed)
  {
    var all := tr + more;
    var k :| 0 <= k < |more| && PublishedAt(more[k], p, s, i, v, c.bucket)
             && Followed(more, k, s, i, c.mechanism, owed);
    assert all[|tr| + k] == more[k];
    if c.mechanism.EmailAutoresponder? && !owed {
      var j :| k < j < |more| && more[j].EmailPushed?;
      assert all[|tr| + j].EmailPushed?;
    } else if c.mechanism.Twitter? {
      var j :| k < j < |more| && more[j].Tweeted? && more[j].sponsor == s && more[j].index == i;
      assert all[|tr| + j] == more[j];
    }
  }

  /** What is done stays done as the history goes on to `b'`, unless it is owed again: an owed email push is owed
      or made, a host that comes back was set up, and a campaign that moved has its builds in the new bucket. */
  lemma DoneAppend(o: Obligation, a: Db, b: Db, b': Db, tr: seq<Effect>, more: seq<Effect>)
    requires Done(o, a, b, tr) && Grows(a, b) && Grows(b, b') && !Owes(b', o)
    requires b.email ==> b'.email || EmailPushed in more
    requires forall h <- b'.hosts :: h in b.hosts || SetUp(tr + more, h, a)
    requires Relocated(b, b', more)
    ensures Done(o, a, b', tr + more)
  {
    match o
    case NeedBuild(p, t) =>
      hide Done, Announced;
      forall i | Campaigned(a, t.sponsor, i) && InTarget(a.sponsors[t.sponsor][i], t, p)
        ensures Campaigned(b', t.sponsor, i)
        ensures Announced(tr + more, p, t.sponsor, i, Latest(a, p), b'.sponsors[t.sponsor][i], b'.email)
      {
        BuildAppend(a, b, b', tr, more, p, t, i);
      }
      BuildDone(a, b', tr + more, p, t);
    case NeedData(h) =>
      hide Grows;
      if SentData(tr, h, a) {
        SentAppend(tr, more, h, a);
      }
    case _ =>
      hide Grows;
      assert forall e <- tr :: e in tr + more;
  }

  lemma BuildDone(a: Db, b: Db, tr: seq<Effect>, p: Platform, t: Target)
    requires forall i :: Campaigned(a, t.sponsor, i) && InTarget(a.sponsors[t.sponsor][i], t, p) ==>
               && Campaigned(b, t.sponsor, i)
               && Announced(tr, p, t.sponsor, i, Latest(a, p), b.sponsors[t.sponsor][i], b.email)
    ensures Done(NeedBuild(p, t), a, b, tr)
  {
  }

  lemma BuildAppend(a: Db, b: Db, b': Db, tr: seq<Effect>, more: seq<Effect>, p: Platform, t: Target, i: int)
    requires Done(NeedBuild(p, t), a, b, tr) && Grows(a, b) && Grows(b, b') && !Owes(b', NeedBuild(p, t))
    requires b.email ==> b'.email || EmailPushed in more
    requires Relocated(b, b', more)
    requires Campaigned(a, t.sponsor, i) && InTarget(a.sponsors[t.sponsor][i], t, p)
    ensures Campaigned(b', t.sponsor, i)
    ensures Announced(tr + more, p, t.sponsor, i, Latest(a, p), b'.sponsors[t.sponsor][i], b'.email)
  {
    hide Announced;
    var s := t.sponsor;
    assert Campaigned(b, s, i) && Campaigned(b', s, i);
    var c, c' := b.sponsors[s][i], b'.sponsors[s][i];
    if c.bucket == c'.bucket {
      AnnouncedAppend(tr, more, p, s, i, Latest(a, p), c, c', b.email, b'.email);
    } else {
      assert Moves(b, b', p, s, i);
      AnnouncedWeaken(tr, more, p, s, i, Latest(b, p), Latest(a, p), c', b'.email);
    }
  }

  lemma SentPrepend(tr: seq<Effect>, more: seq<Effect>, h: Id, a: Db, b: Db)
    requires SentData(more, h, b) && Grows(a, b)
    ensures SentData(tr + more, h, a)
  {
    var e :| e in more && (e.DataSent? || e.DirectData?) && e.host == h && Grows(b, e.source);
    GrowsTransitive(a, b, e.source);
    assert e in tr + more;
  }

  lemma SentAppend(tr: seq<Effect>, more: seq<Effect>, h: Id, a: Db)
    requires SentData(tr, h, a)
    ensures SentData(tr + more, h, a)
  {
    hide Grows;
    var e :| e in tr && (e.DataSent? || e.DirectData?) && e.host == h && Grows(a, e.source);
    assert e in tr + more;
  }

  /** What a descendant's effects discharge, they discharge for the ancestor too. */
  lemma DonePrepend(o: Obligation, a: Db, b: Db, c: Db, tr: seq<Effect>, more: seq<Effect>)
    requires Grows(a, b) && Done(o, b, c, more)
    ensures Done(o, a, c, tr + more)
  {
    hide Announced;
    match o
    case NeedBuild(p, t) =>
      var s := t.sponsor;
      forall i | Campaigned(a, s, i) && InTarget(a.sponsors[s][i], t, p)
        ensures Campaigned(c, s, i) && Announced(tr + more, p, s, i, Latest(a, p), c.sponsors[s][i], c.email)
      {
        assert Campaigned(b, s, i);
        AnnouncedWeaken(tr, more, p, s, i, Latest(b, p), Latest(a, p), c.sponsors[s][i], c.email);
      }
    case NeedSite(s) =>
      forall i | Campaigned(a, s, i)
        ensures SiteUpdated(s, i) in tr + more
      {
        assert Campaigned(b, s, i);
      }
    case NeedData(h) =>
      if SentData(more, h, b) {
        SentPrepend(tr, more, h, a, b);
      }
    case _ =>
      assert forall e <- more :: e in tr + more;
  }

  lemma GrowsTransitive(a: Db, b: Db, c: Db)
    requires Grows(a, b) && Grows(b, c)
    ensures Grows(a, c)
  {
    forall s, i | Campaigned(a, s, i)
      ensures Campaigned(c, s, i) && SameCampaign(a.sponsors[s][i], c.sponsors[s][i])
    {
      assert Campaigned(b, s, i);
    }
  }

  lemma NewHostsTransitive(a: Db, b: Db, c: Db, tr: seq<Effect>, more: seq<Effect>)
    requires Grows(a, b) && NewHostsSetUp(a, b, tr) && NewHostsSetUp(b, c, more)
    ensures NewHostsSetUp(a, c, tr + more)
    ensures forall h <- c.hosts :: h in b.hosts || SetUp(tr + more, h, a)
  {
    hide Grows;
    forall h <- c.hosts
      ensures h in b.hosts || SetUp(tr + more, h, a)
      ensures h in a.hosts || SetUp(tr + more, h, a)
    {
      if h !in b.hosts {
        SentPrepend(tr, more, h, a, b);
      } else if h !in a.hosts {
        SentAppend(tr, more, h, a);
      }
    }
  }

  lemma RelocatedTransitive(a: Db, b: Db, c: Db, tr: seq<Effect>, more: seq<Effect>)
    requires Kept(a, b, tr) && Kept(b, c, more)
    requires b.email ==> c.email || EmailPushed in more
    ensures Relocated(a, c, tr + more)
  {
    hide Announced, NewHostsSetUp;
    forall p, s, i | Moves(a, c, p, s, i) && !Awaits(c, p, s, i)
      ensures Announced(tr + more, p, s, i, Latest(a, p), c.sponsors[s][i], c.email)
    {
      assert Campaigned(b, s, i);
      var t, c1, c2 := Target(b.sponsors[s][i].channel, s), b.sponsors[s][i], c.sponsors[s][i];
      if c1.bucket != c2.bucket {
        assert Moves(b, c, p, s, i);
        AnnouncedWeaken(tr, more, p, s, i, Latest(b, p), Latest(a, p), c2, c.email);
      } else if Awaits(b, p, s, i) {
        assert Owes(b, NeedBuild(p, t)) && !Owes(c, NeedBuild(p, t));
        assert Done(NeedBuild(p, t), b, c, more);
        AnnouncedWeaken(tr, more, p, s, i, Latest(b, p), Latest(a, p), c2, c.email);
      } else {
        assert Moves(a, b, p, s, i);
        AnnouncedAppend(tr, more, p, s, i, Latest(a, p), c1, c2, b.email, c.email);
      }
    }
  }

  /** Descent composes: nothing is lost over any number of steps. */
  lemma KeptTransitive(a: Db, b: Db, c: Db, tr: seq<Effect>, more: seq<Effect>)
    requires Kept(a, b, tr) && Kept(b, c, more)
    ensures Kept(a, c, tr + more)
  {
    hide Grows, NewHostsSetUp, SetUp, Relocated;
    assert b.email ==> c.email || EmailPushed in more by {
      assert Owes(b, NeedEmail) ==> Owes(c, NeedEmail) || Done(NeedEmail, b, c, more);
    }
    GrowsTransitive(a, b, c);
    NewHostsTransitive(a, b, c, tr, more);
    RelocatedTransitive(a, b, c, tr, more);
    forall o | Owes(a, o) && !Owes(c, o)
      ensures Done(o, a, c, tr + more)
    {
      if !Owes(b, o) {
        DoneAppend(o, a, b, c, tr, more);
      } else {
        DonePrepend(o, a, b, c, tr, more);
      }
    }
  }

  lemma KeptIdle(a: Db, tr: seq<Effect>)
    ensures Kept(a, a, tr)
  {
  }

  /** One more effect loses nothing. */
  lemma KeptAppend(a: Db, b: Db, tr: seq<Effect>, e: Effect)
    requires Kept(a, b, tr)
    ensures Kept(a, b, tr + [e])
  {
    KeptIdle(b, [e]);
    KeptTransitive(a, b, b, tr, [e]);
  }

  /** Campaigns get other buckets only together with the flags for their builds. */
  ghost predicate MovesFlagged(b: Db, b': Db) {
    forall p, s, i :: Moves(b, b', p, s, i) ==> Awaits(b', p, s, i)
  }

  lemma RelocatedChange(a: Db, b: Db, b': Db, tr: seq<Effect>)
    requires Kept(a, b, tr) && Grows(b, b') && (b.email ==> b'.email) && MovesFlagged(b, b')
    requires forall o :: Owes(b, o) && !Owes(b', o) ==> Done(o, a, b', tr)
    ensures Relocated(a, b', tr)
  {
    hide Announced, NewHostsSetUp;
    assert tr + [] == tr;
    forall p, s, i | Moves(a, b', p, s, i) && !Awaits(b', p, s, i)
      ensures Announced(tr, p, s, i, Latest(a, p), b'.sponsors[s][i], b'.email)
    {
      assert Campaigned(b, s, i);
      var t, c, c' := Target(b.sponsors[s][i].channel, s), b.sponsors[s][i], b'.sponsors[s][i];
      assert c.bucket == c'.bucket by {
        assert !Moves(b, b', p, s, i);
      }
      if Awaits(b, p, s, i) {
        assert Owes(b, NeedBuild(p, t)) && !Owes(b', NeedBuild(p, t));
        assert Done(NeedBuild(p, t), a, b', tr);
      } else {
        assert Moves(a, b, p, s, i);
        AnnouncedAppend(tr, [], p, s, i, Latest(a, p), c, c', b.email, b'.email);
      }
    }
  }

  /** A change of the database that drops only obligations discharged by the effects since `a`. */
  lemma KeptChange(a: Db, b: Db, b': Db, tr: seq<Effect>)
    requires Kept(a, b, tr) && Grows(b, b') && MovesFlagged(b, b')
    requires b.email ==> b'.email
    requires forall h <- b'.hosts :: h in b.hosts || SetUp(tr, h, a)
    requires forall o :: Owes(b, o) && !Owes(b', o) ==> Done(o, a, b', tr)
    ensures Kept(a, b', tr)
  {
    GrowsTransitive(a, b, b');
    RelocatedChange(a, b, b', tr);
    hide Grows, SetUp, Moves, Awaits, Announced;
    assert tr + [] == tr;
    forall p, s, i | Moves(b, b', p, s, i)
      ensures Awaits(b', p, s, i)
    {
    }
    forall o | Owes(a, o) && !Owes(b', o)
      ensures Done(o, a, b', tr)
    {
      if !Owes(b, o) {
        DoneAppend(o, a, b, b', tr, []);
      }
    }
  }

  /** Clearing the email flag after the push that ends the history. */
  lemma KeptEmailed(a: Db, b: Db, tr: seq<Effect>)
    requires Kept(a, b, tr)
    ensures Kept(a, b.(email := false), tr + [EmailPushed])
  {
    var b' := b.(email := false);
    forall o | Owes(b, o)
      ensures Owes(b', o) || Done(o, b, b', [EmailPushed])
    {
      assert o == NeedEmail || Owes(b', o);
    }
    KeptTransitive(a, b, b', tr, [EmailPushed]);
  }
}
