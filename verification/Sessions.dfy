/** Whole sessions: any sequence of operations, failures and restarts, and what holds throughout. */
module Sessions {
  import opened Options
  import opened Network
  import opened DeployState
  import opened Operations

  datatype Command =
    | Restart
    | Save
    | Deploy
    | NewSponsor(id: Id)
    | NewChannel(id: Id)
    | NewCampaign(id: Id, campaign: Campaign)
    | DefaultEmail(account: string)
    | NameBucket(id: Id, channel: Id, oldAccount: Option<string>, name: string)
    | NewClientVersion(platform: Platform)
    | NewServerVersion(tcs: bool)
    | NewOslConfig
    | NewWebsite
    | Launch(infos: seq<Option<Host>>, channel: Id, discovery: Option<Period>, replace: bool, today: int,
             draws: seq<Id>)
    | Remove(id: Id)
    | Prune(servers: seq<Server>, users: Id -> nat)

  /** What a session has at hand and has done, between two commands. */
  datatype Snapshot = Snapshot(db: Db, saved: Db, trace: seq<Effect>, history: seq<Mark>)

  ghost function Snap(net: PsiphonNetwork): Snapshot
    reads net
  {
    Snapshot(net.db, net.saved, net.trace, net.history)
  }

  const FIRST := Snapshot(EmptyDb, EmptyDb, [], [Mark(EmptyDb, 0)])

  predicate Edits(c: Command) {
    || c.NewSponsor? || c.NewChannel? || c.NewCampaign? || c.NewClientVersion? || c.NewServerVersion?
    || c.NewOslConfig? || c.NewWebsite? || c.Remove?
  }

  /** The database a command that only edits makes; one whose record lookups fail edits nothing. */
  function Edit(c: Command, db: Db): Db
    requires Edits(c)
  {
    match c
    case NewSponsor(id) => if id in db.sponsors then db else db.(sponsors := db.sponsors[id := []])
    case NewChannel(id) => db.(channels := db.channels + {id})
    case NewCampaign(id, campaign) =>
      if Addable(db, id, campaign) && campaign !in db.sponsors[id] then WithCampaign(db, id, campaign) else db
    case NewClientVersion(p) => WithVersion(db, p)
    case NewServerVersion(tcs) =>
      db.(implHosts := db.implHosts + set h <- db.hosts | db.hosts[h].isTCS == tcs)
    case NewOslConfig => db.(data := true, osls := db.osls + db.channels)
    case NewWebsite => db.(sites := db.sites + db.sponsors.Keys)
    case Remove(id) => if id in db.hosts then WithoutHost(db, id) else db
  }

  predicate Addable(db: Db, s: Id, c: Campaign) {
    s in db.sponsors && c.channel in db.channels && c.bucket.None? && c.platforms.None?
  }

  predicate Nameable(db: Db, s: Id, channel: Id) {
    s in db.sponsors && channel in db.channels
  }

  predicate Listed(db: Db, servers: seq<Server>) {
    forall s <- servers :: s.hostId in db.hosts
  }

  /** When a command may end in an exception: when it calls out and the call may fail, or its own checks fail. */
  ghost predicate MayFail(c: Command, db: Db, reliable: bool) {
    match c
    case Save => !reliable
    case Deploy => !reliable || db.defaultEmail.None?
    case Launch(infos, channel, _, _, _, draws) =>
      channel in db.channels && !(reliable && Launchable(db, infos, draws))
    case Prune(servers, users) => Listed(db, servers) && !(reliable && Prunable(servers, users))
    case DefaultEmail(account) => !EmailAccount(db.sponsors, account)
    case NameBucket(id, channel, account, _) => Nameable(db, id, channel) && Raises(db, id, channel, account)
    case _ => false
  }

  predicate Replaced(a: Db, b: Db, channel: Id, embedded: bool, today: int) {
    forall id <- a.servers :: id in b.servers && b.servers[id] == Retired(a.servers[id], channel, embedded, today)
  }

  /** What a command that succeeds does. */
  ghost predicate Did(c: Command, a: Snapshot, b: Snapshot) {
    match c
    case Restart => b == a.(db := a.saved, history := a.history + [Mark(a.saved, |a.trace|)])
    case Save => b == a.(saved := a.db, history := a.history + [Mark(a.db, |a.trace|)])
    case Deploy =>
      && b.history == a.history + (if b.saved == b.db then [Mark(b.db, |b.trace|)] else [])
      && Settled(a.db, a.saved, b.db, b.saved) && NothingFlagged(b.db)
      && |a.trace| <= |b.trace| && CarriedOut(a.db, b.db, b.trace[|a.trace|..])
      && (a.db.data ==> forall h <- b.db.hosts :: Broadcast(b.trace[|a.trace|..], h, b.db))
      && b.db.hosts == a.db.hosts && b.db.servers == a.db.servers
    case DefaultEmail(account) =>
      EmailAccount(a.db.sponsors, account) && b == a.(db := a.db.(defaultEmail := Some(account)))
    case NameBucket(id, channel, account, name) =>
      if Nameable(a.db, id, channel)
      then b == a.(db := RenamedTo(a.db, id, channel, account, name, |a.db.sponsors[id]|))
      else b == a
    case Launch(infos, channel, discovery, replace, today, _) =>
      if channel in a.db.channels
      then && NothingFlagged(b.db) && (forall info <- infos :: info.Some? ==> info.value.id in b.db.hosts)
           && (replace ==> Replaced(a.db, b.db, channel, discovery.None?, today))
           && |a.trace| <= |b.trace| && StatsPushed in b.trace[|a.trace|..]
           && (discovery.None? ==> Rebuilt(a.db, b.db, channel, b.trace[|a.trace|..]))
           && (forall h <- b.db.hosts :: Broadcast(b.trace[|a.trace|..], h, b.db))
      else b == a
    case Prune(servers, users) =>
      if Listed(a.db, servers)
      then && b == a.(db := PrunedTo(a.db, servers, users)) && Prunable(servers, users)
           && b.db.hosts.Keys == a.db.hosts.Keys - PrunedHosts(servers, users, |servers|)
      else b == a
    case _ => b == a.(db := Edit(c, a.db))
  }

  /** A command succeeds: it does what it is for, and unless it is a restart nothing in memory is lost. */
  ghost predicate Completed(c: Command, a: Snapshot, b: Snapshot) {
    && Did(c, a, b)
    && (c != Restart ==> |a.trace| <= |b.trace| && Kept(a.db, b.db, b.trace[|a.trace|..]))
  }

  /** Carries out a command that only edits; one whose record lookups fail does nothing. */
  method Amend(net: PsiphonNetwork, c: Command)
    requires net.Valid() && net.live && Edits(c)
    modifies net`db
    ensures net.Valid() && net.db == Edit(c, old(net.db)) && Kept(old(net.db), net.db, [])
  {
    hide PsiphonNetwork.Valid, Kept, WithCampaign, WithVersion, WithoutHost;
    KeptSelf(net.db);
    match c {
      case NewSponsor(id) => if id !in net.db.sponsors { net.AddSponsor(id); }
      case NewChannel(id) =>
        if id !in net.db.channels {
          net.AddChannel(id);
        } else {
          assert net.db.channels + {id} == net.db.channels;
        }
      case NewCampaign(id, campaign) => if Addable(net.db, id, campaign) { net.AddCampaign(id, campaign); }
      case NewClientVersion(p) => net.AddClientVersion(p);
      case NewServerVersion(tcs) => net.AddServerVersion(tcs);
      case NewOslConfig => net.SetOslConfig();
      case NewWebsite => net.FlagWebsites();
      case Remove(id) => if id in net.db.hosts { net.RemoveHost(id); }
    }
  }

  /** Carries out one command. */
  method Execute(net: PsiphonNetwork, c: Command)
    requires net.Valid() && net.live
    modifies net
    ensures net.Valid()
    ensures old(net.trace) <= net.trace && old(net.history) <= net.history
    ensures if net.live then Completed(c, old(Snap(net)), Snap(net)) else MayFail(c, old(net.db), net.reliable)
  {
    hide PsiphonNetwork.Valid, Kept, Settled, NothingFlagged, EmailAccount, Raises, Prunable, PrunedHosts;
    hide Edit, RenamedTo, PrunedTo, Retired, Launchable, CarriedOut, Rebuilt, Broadcast;
    KeptSelf(net.db);
    assert net.trace[|net.trace|..] == [];
    match c {
      case Restart => net.Load();
      case Save => var _ := net.SaveNow();
      case Deploy => var _ := net.DeployNow();
      case DefaultEmail(account) => var _ := net.SetDefaultEmail(account);
      case NameBucket(id, channel, account, name) =>
        if Nameable(net.db, id, channel) { var _ := net.SetBucketName(id, channel, account, name); }
      case Launch(infos, channel, discovery, replace, today, draws) =>
        if channel in net.db.channels { var _ := net.AddServers(infos, channel, discovery, replace, today, draws); }
      case Prune(servers, users) => if Listed(net.db, servers) { var _ := net.PruneServers(servers, users); }
      case _ => Amend(net, c);
    }
  }

  /** What holds between any two commands, of the database in memory as of the saved one. */
  ghost predicate Sound(x: Snapshot) {
    && Promises(x.trace)
    && WellFormed(x.db) && WellFormed(x.saved)
    && Tracks(x.history, x.db, x.trace) && Tracks(x.history, x.saved, x.trace)
  }

  /** The session is as the last save left it, and remembers it. */
  ghost predicate Remembered(x: Snapshot) {
    x.db == x.saved && Mark(x.db, |x.trace|) in x.history
  }

  /** One command, followed by a restart if it failed. */
  ghost predicate Ran(c: Command, a: Snapshot, b: Snapshot, reliable: bool) {
    && a.trace <= b.trace && a.history <= b.history
    && (Completed(c, a, b) || (MayFail(c, a.db, reliable) && Remembered(b)))
  }

  /** The snapshots of a session that starts from nothing. */
  ghost predicate IsSession(commands: seq<Command>, log: seq<Snapshot>, reliable: bool) {
    && |log| == |commands| + 1 && log[0] == FIRST
    && (forall k :: 0 <= k < |log| ==> Sound(log[k]))
    && (forall k :: 0 <= k < |commands| ==> Ran(commands[k], log[k], log[k + 1], reliable))
  }

  lemma ValidIsSound(net: PsiphonNetwork)
    requires net.Valid() && net.live
    ensures Sound(Snap(net))
  {
  }

  /** A whole session, each failure followed by a restart. */
  method RunSession(commands: seq<Command>, reliable: bool) returns (net: PsiphonNetwork, ghost log: seq<Snapshot>)
    ensures IsSession(commands, log, reliable) && Snap(net) == log[|commands|]
  {
    hide PsiphonNetwork.Valid, Sound, Did, MayFail;
    net := new PsiphonNetwork(reliable);
    ValidIsSound(net);
    log := [Snap(net)];
    for i := 0 to |commands|
      invariant fresh(net) && net.Valid() && net.live && net.reliable == reliable
      invariant IsSession(commands[..i], log, reliable) && Snap(net) == log[i]
    {
      ghost var before := Snap(net);
      Execute(net, commands[i]);
      if !net.live {
        net.Load();
      }
      ValidIsSound(net);
      SessionGrows(commands[..i], log, reliable, commands[i], Snap(net));
      log := log + [Snap(net)];
      assert commands[..i + 1] == commands[..i] + [commands[i]];
    }
    assert commands[..|commands|] == commands;
  }

  lemma SessionGrows(commands: seq<Command>, log: seq<Snapshot>, reliable: bool, c: Command, b: Snapshot)
    requires IsSession(commands, log, reliable) && Sound(b) && Ran(c, log[|commands|], b, reliable)
    ensures IsSession(commands + [c], log + [b], reliable)
  {
    hide Sound, Ran;
  }

  // ---- What that means ----

  /** At the moment data is sent and at every later one, the upgrade it offers the clients of a campaign is the newest
      version the data lists, and is in the bucket the data's campaign names. */
  lemma OfferedUpgradesAreThere(tr: seq<Effect>, n: nat, e: Effect, p: Platform, s: Id, i: int, clientVersion: nat)
    requires Promises(tr) && n <= |tr| && e in tr[..n] && e.DataSent? && Campaigned(e.source, s, i)
    requires e.source.sponsors[s][i].platforms.None? || p in e.source.sponsors[s][i].platforms.value
    ensures var offer, listed := CheckUpgrade(e.source, p, clientVersion), e.source.versions.Get(p);
            && (offer.None? <==> forall v <- listed :: v <= clientVersion)
            && (offer.Some? ==>
                  && offer.value in listed && (forall v <- listed :: v <= offer.value)
                  && e.source.sponsors[s][i].bucket.Some?
                  && offer.value <= LastPublished(tr[..n], p, e.source.sponsors[s][i].bucket.value))
  {
    assert PromisesAt(tr[..n]);
    OfferIsNewest(e.source, p, clientVersion);
    assert Promised(e.source, p, s, i) <==> Latest(e.source, p) > 0;
  }

  lemma {:induction false} PublishedSometime(tr: seq<Effect>, p: Platform, b: string)
    requires LastPublished(tr, p, b) > 0
    ensures exists j :: 0 <= j < |tr| && tr[j].Published? && tr[j].platform == p && tr[j].bucket == b
                        && tr[j].version == LastPublished(tr, p, b)
  {
    var n := |tr| - 1;
    if !(tr[n].Published? && tr[n].platform == p && tr[n].bucket == b) {
      PublishedSometime(tr[..n], p, b);
      var j :| 0 <= j < n && tr[..n][j].Published? && tr[..n][j].platform == p && tr[..n][j].bucket == b
               && tr[..n][j].version == LastPublished(tr[..n], p, b);
      assert tr[j] == tr[..n][j];
    }
  }

  /** The order a deploy exists for: when a host is sent data, no host awaits an implementation, and for every
      campaign the data speaks for a build of the version it names, or a newer one, was published before. */
  lemma BuildsPrecedeData(tr: seq<Effect>, k: nat, p: Platform, s: Id, i: int)
    requires Promises(tr) && k < |tr| && tr[k].DataSent? && Campaigned(tr[k].source, s, i)
    requires tr[k].source.sponsors[s][i].platforms.None? || p in tr[k].source.sponsors[s][i].platforms.value
    requires tr[k].source.versions.Get(p) != []
    ensures tr[k].source.implHosts == {} && tr[k].source.sponsors[s][i].bucket.Some?
    ensures exists j :: 0 <= j < k && tr[j].Published? && tr[j].platform == p
                        && tr[j].bucket == tr[k].source.sponsors[s][i].bucket.value
                        && forall v <- tr[k].source.versions.Get(p) :: v <= tr[j].version
  {
    var now := tr[..k + 1];
    assert now[k] == tr[k] && tr[k] in now && PromisesAt(now);
    OfferIsNewest(tr[k].source, p, 0);
    assert Promised(tr[k].source, p, s, i);
    var c := tr[k].source.sponsors[s][i];
    assert Ready(c, p, Latest(tr[k].source, p), now);
    PublishedSometime(now, p, c.bucket.value);
    var j :| 0 <= j < |now| && now[j].Published? && now[j].platform == p && now[j].bucket == c.bucket.value
             && now[j].version == LastPublished(now, p, c.bucket.value);
    assert tr[j] == now[j] && j != k;
  }

  /** A completed deploy has carried out everything that was flagged when it began. */
  lemma CompletedDeployDidEverything(commands: seq<Command>, log: seq<Snapshot>, reliable: bool, k: nat, o: Obligation)
    requires IsSession(commands, log, reliable) && k < |commands|
    requires commands[k] == Deploy && Completed(Deploy, log[k], log[k + 1])
    requires Owes(log[k].db, o)
    ensures Done(o, log[k].db, log[k + 1].db, log[k + 1].trace[|log[k].trace|..]) && !log[k + 1].db.email
    ensures CarriedOut(log[k].db, log[k + 1].db, log[k + 1].trace[|log[k].trace|..])
  {
    assert !Owes(log[k + 1].db, o);
  }

  lemma {:induction false} HistoryGrows(commands: seq<Command>, log: seq<Snapshot>, reliable: bool, i: nat, j: nat)
    requires IsSession(commands, log, reliable) && i <= j < |log|
    ensures log[i].history <= log[j].history && log[i].trace <= log[j].trace
    decreases j - i
  {
    if i < j {
      HistoryGrows(commands, log, reliable, i, j - 1);
      assert Ran(commands[j - 1], log[j - 1], log[j - 1 + 1], reliable);
    }
  }

  /** Every save that succeeds, every deploy that saves, every restart and every failure is remembered. */
  lemma SavesAreRemembered(commands: seq<Command>, log: seq<Snapshot>, reliable: bool, k: nat)
    requires IsSession(commands, log, reliable) && k < |commands|
    ensures commands[k] == Restart || commands[k] == Save || !Completed(commands[k], log[k], log[k + 1]) ==>
              Remembered(log[k + 1])
    ensures commands[k] == Deploy && log[k + 1].saved == log[k + 1].db ==> Remembered(log[k + 1])
  {
    hide Kept;
    assert Ran(commands[k], log[k], log[k + 1], reliable);
  }

  /** From any state of a session to any later one with no restart and no failure in between, nothing in memory is
      lost, saved or not. */
  lemma {:induction false} UnsavedWorkSurvives(commands: seq<Command>, log: seq<Snapshot>, reliable: bool,
                                               i: nat, j: nat)
    requires IsSession(commands, log, reliable) && i <= j < |log|
    requires forall k :: i <= k < j ==> commands[k] != Restart && Completed(commands[k], log[k], log[k + 1])
    ensures |log[i].trace| <= |log[j].trace| && Kept(log[i].db, log[j].db, log[j].trace[|log[i].trace|..])
    decreases j - i
  {
    hide Kept, Did, Sound, MayFail, Ran;
    if i == j {
      KeptIdle(log[i].db, log[j].trace[|log[i].trace|..]);
    } else {
      UnsavedWorkSurvives(commands, log, reliable, i, j - 1);
      HistoryGrows(commands, log, reliable, i, j - 1);
      HistoryGrows(commands, log, reliable, j - 1, j);
      assert Completed(commands[j - 1], log[j - 1], log[j]);
      KeptOver(log[i].db, log[j - 1].db, log[j].db, log[j - 1].trace, log[j].trace, |log[i].trace|);
    }
  }

  /** From any remembered state of a session to any later one, an obligation is still owed, both in memory and by
      the latest save, or it was discharged in between. */
  lemma NoWorkIsLost(commands: seq<Command>, log: seq<Snapshot>, reliable: bool, i: nat, j: nat, o: Obligation)
    requires IsSession(commands, log, reliable) && i <= j < |log| && Remembered(log[i]) && Owes(log[i].db, o)
    ensures |log[i].trace| <= |log[j].trace|
    ensures var since := log[j].trace[|log[i].trace|..];
            && (Owes(log[j].db, o) || Done(o, log[i].db, log[j].db, since))
            && (Owes(log[j].saved, o) || Done(o, log[i].db, log[j].saved, since))
  {
    HistoryGrows(commands, log, reliable, i, j);
    assert Mark(log[i].db, |log[i].trace|) in log[j].history && Sound(log[j]);
  }

  /** A server id once saved never means another server: it stays with its host or in the archive for good. */
  lemma IdsAreNeverReused(commands: seq<Command>, log: seq<Snapshot>, reliable: bool, i: nat, j: nat, id: Id)
    requires IsSession(commands, log, reliable) && i <= j < |log| && Remembered(log[i])
    ensures forall now <- [log[j].db, log[j].saved] ::
              && (id in log[i].db.deletedServers ==> id in now.deletedServers && id !in now.servers)
              && (id in log[i].db.servers ==>
                    || (id in now.deletedServers && id !in now.servers)
                    || (id in now.servers && now.servers[id].hostId == log[i].db.servers[id].hostId))
  {
    HistoryGrows(commands, log, reliable, i, j);
    assert Mark(log[i].db, |log[i].trace|) in log[j].history && Sound(log[j]);
    assert Kept(log[i].db, log[j].db, log[j].trace[|log[i].trace|..]);
    assert Kept(log[i].db, log[j].saved, log[j].trace[|log[i].trace|..]);
  }

  // ---- A first release ----

  const CAMPAIGN := Campaign("C", EmailAutoresponder, Some("a@b"), None, None, 0)
  const TARGET := Target("C", "S")

  /** One sponsor with one email campaign, a client version and a host: everything is flagged, nothing is out. */
  const PLANNED := EmptyDb.(
    channels := {"C"}, sponsors := map["S" := [CAMPAIGN]], hosts := map["h" := Host("h", true, Linode)],
    versions := PerPlatform([1], []), defaultEmail := Some("a@b"), builds := PerPlatform({TARGET}, {TARGET}),
    data := true)

  const BUILT := PLANNED.(sponsors := map["S" := [CAMPAIGN.(bucket := Some("b"))]], builds := PerPlatform({}, {}))

  const RELEASE := [Published(Windows, "S", 0, "b", 1), Published(Android, "S", 0, "b", 0), DataSent("h", BUILT),
                    EmailPushed]

  /** The promises are not empty: here is a release that builds, sends data and pushes, and leaves nothing owed. */
  lemma ReleaseIsPossible()
    ensures var after := BUILT.(data := false);
            && Memory(PLANNED, PLANNED, []) && Fresh(PLANNED, PLANNED)
            && Disk(after, RELEASE) && Memory(after, after, RELEASE) && Fresh(after, after)
            && Kept(PLANNED, after, RELEASE) && NothingFlagged(after)
            && RELEASE[2].DataSent? && Promised(RELEASE[2].source, Windows, "S", 0)
  {
    FirstIsFlagged();
    SecondIsServed();
    FirstReleasePromises();
    FirstReleaseKeeps();
  }

  lemma FirstIsFlagged()
    ensures Memory(PLANNED, PLANNED, []) && Fresh(PLANNED, PLANNED)
  {
    assert HasAccount(PLANNED.sponsors["S"][0], "a@b");
    assert PLANNED.builds.Get(Windows) == PLANNED.builds.Get(Android) == {TARGET};
  }

  lemma SecondIsServed()
    ensures var after := BUILT.(data := false);
            WellFormed(after) && Served(after, RELEASE) && AllOut(BUILT, RELEASE[..3]) && AllOut(BUILT, RELEASE)
  {
    var after := BUILT.(data := false);
    assert HasAccount(after.sponsors["S"][0], "a@b");
    assert RELEASE[..3][..2] == RELEASE[..2] && RELEASE[..2][..1] == RELEASE[..1];
    assert LastPublished(RELEASE[..1], Windows, "b") == 1;
    assert LastPublished(RELEASE[..2], Windows, "b") == 1;
    assert LastPublished(RELEASE[..3], Windows, "b") == 1;
    assert LastPublished(RELEASE, Windows, "b") == 1;
    assert Latest(after, Android) == 0 && Latest(BUILT, Android) == 0;
  }

  lemma FirstReleasePromises()
    ensures var after := BUILT.(data := false); Promises(RELEASE) && PromisesSaved(RELEASE, after)
  {
    SecondIsServed();
    hide AllOut;
    forall n | 0 <= n <= |RELEASE|
      ensures PromisesAt(RELEASE[..n])
    {
      assert n <= 2 ==> forall e <- RELEASE[..n] :: !e.DataSent?;
      assert n == 4 ==> RELEASE[..n] == RELEASE;
    }
  }

  lemma FirstReleaseKeeps()
    ensures Kept(PLANNED, BUILT.(data := false), RELEASE)
  {
    var after := BUILT.(data := false);
    assert Grows(PLANNED, BUILT) && Grows(PLANNED, after);
    forall p: Platform
      ensures Announced(RELEASE, p, "S", 0, Latest(PLANNED, p), after.sponsors["S"][0], false)
    {
      var k := if p.Windows? then 0 else 1;
      assert PublishedAt(RELEASE[k], p, "S", 0, Latest(PLANNED, p), Some("b")) && RELEASE[3].EmailPushed?;
      assert EmailedAfter(RELEASE, k);
    }
    forall o | Owes(PLANNED, o)
      ensures Done(o, PLANNED, after, RELEASE)
    {
      match o
      case NeedBuild(p, t) =>
        assert t == TARGET;
      case NeedData(h) =>
        assert RELEASE[2] in RELEASE;
      case _ =>
    }
  }

  ghost predicate Told(tr: seq<Effect>, h: Id) {
    exists e <- tr :: (e.DataSent? || e.DirectData?) && e.host == h && Promised(e.source, Windows, "S", 0)
  }

  lemma ReleaseDone(a: Db, b: Db, past: seq<Effect>, tr: seq<Effect>, h: Id)
    requires Kept(a, b, tr) && NothingFlagged(b) && h in b.hosts
    requires Owes(a, NeedBuild(Windows, TARGET)) && Owes(a, NeedData(h))
    requires Campaigned(a, "S", 0) && a.sponsors["S"][0] == CAMPAIGN && Latest(a, Windows) == 1
    ensures Campaigned(b, "S", 0) && Announced(past + tr, Windows, "S", 0, 1, b.sponsors["S"][0], false)
    ensures Told(past + tr, h)
  {
    assert Done(NeedBuild(Windows, TARGET), a, b, tr) && Done(NeedData(h), a, b, tr);
    AnnouncedWeaken(past, tr, Windows, "S", 0, 1, 1, b.sponsors["S"][0], false);
    var e :| e in tr && (e.DataSent? || e.DirectData?) && e.host == h && Grows(a, e.source);
    assert Promised(e.source, Windows, "S", 0) && e in past + tr;
  }

  lemma ValidPromises(net: PsiphonNetwork)
    requires net.Valid()
    ensures Promises(net.trace)
  {
  }

  /** A first release: on a reliable network it completes, and when it completes version 1 is published, the push
      of its email campaign was made after that, and the host is told of the version. */
  method FirstRelease(host: Host, draws: seq<Id>, reliable: bool) returns (ok: bool, net: PsiphonNetwork)
    ensures Promises(net.trace)
    ensures reliable && draws != [] ==> ok
    ensures ok ==> Campaigned(net.db, "S", 0)
    ensures ok ==> Announced(net.trace, Windows, "S", 0, 1, net.db.sponsors["S"][0], false)
    ensures ok ==> Told(net.trace, host.id)
  {
    hide PsiphonNetwork.Valid, Kept, Promises, Announced, Told, CarriedOut, Broadcast, Settled;
    net := new PsiphonNetwork(reliable);
    net.AddSponsor("S");
    net.AddChannel("C");
    net.AddCampaign("S", CAMPAIGN);
    assert HasAccount(net.db.sponsors["S"][0], "a@b");
    ok := net.SetDefaultEmail("a@b");
    net.AddClientVersion(Windows);
    ghost var id;
    assert draws != [] ==> draws[0] in NewIds(draws, net.db);
    ok, id := net.SetupServer(host, Server("", host.id, "C", true, false, None, true), draws);
    ValidPromises(net);
    if !ok { return; }
    ghost var db, past := net.db, net.trace;
    ok := net.DeployNow();
    ValidPromises(net);
    if ok {
      ReleaseDone(db, net.db, past, net.trace[|past|..], host.id);
      assert past + net.trace[|past|..] == net.trace;
    }
  }
}
