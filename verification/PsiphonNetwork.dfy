/** The operator's session: the database in memory, its last save, and the operations on it. */
module Operations {
  import opened Options
  import opened Network
  import opened DeployState

  class PsiphonNetwork {
    var db: Db
    var saved: Db
    var trace: seq<Effect>

    /** No call into the outside world, and no save, ever fails. */
    const reliable: bool

    /** No call has failed since the database was loaded. */
    var live: bool

    /** Every database that was once both in memory and saved. */
    ghost var history: seq<Mark>

    ghost predicate Valid()
      reads this
    {
      && Disk(saved, trace) && Memory(db, saved, trace)
      && Tracks(history, saved, trace)
      && (live ==> Fresh(db, saved) && Tracks(history, db, trace))
    }

    ghost predicate Running(st: Start)
      reads this
    {
      Disk(saved, trace) && Memory(db, saved, trace) && Since(st, db, saved, trace)
    }

    /** One call into the outside world: it may take effect or not, and report success or not. */
    method Perform(e: Effect, ghost st: Start) returns (ok: bool)
      requires Running(st) && Safe(e, saved, trace)
      requires e.Published? ==> Latest(db, e.platform) <= e.version
      modifies this`trace
      ensures Running(st)
      ensures trace == old(trace) || trace == old(trace) + [e]
      ensures ok ==> trace == old(trace) + [e]
      ensures reliable ==> ok
    {
      var reached: bool := *;
      var answered: bool := *;
      reached, answered := reached || reliable, answered || reliable;
      if reached {
        PromisesAppend(trace, e, saved);
        ServedAppend(saved, trace, e);
        ServedAppend(db, trace, e);
        SinceAppend(st, db, saved, trace, e);
        trace := trace + [e];
      }
      ok := reached && answered;
    }

    /** Writing the database out: it may take or not, and report success or not. */
    method Save(ghost st: Start) returns (ok: bool)
      requires Running(st)
      modifies this`saved
      ensures Running(st)
      ensures saved == old(saved) || saved == db
      ensures ok ==> saved == db
      ensures reliable ==> ok
    {
      var reached: bool := *;
      var answered: bool := *;
      reached, answered := reached || reliable, answered || reliable;
      if reached {
        saved := db;
      }
      ok := reached && answered;
    }

    /** Up to five attempts at one host. */
    method PerformWithRetries(e: Effect, ghost st: Start) returns (ok: bool)
      requires Running(st) && Safe(e, saved, trace) && !e.Published?
      modifies this`trace
      ensures Running(st) && old(trace) <= trace
      ensures forall x <- trace[|old(trace)|..] :: x == e
      ensures ok ==> e in trace[|old(trace)|..]
      ensures reliable ==> ok
    {
      ok := false;
      for i := 0 to 5
        invariant Running(st) && old(trace) <= trace
        invariant forall x <- trace[|old(trace)|..] :: x == e
        invariant !ok && Safe(e, saved, trace) && (reliable ==> i == 0)
      {
        ghost var before := trace;
        ok := Perform(e, st);
        ghost var n := |old(trace)|;
        assert trace == before + [e] ==> trace[n..] == before[n..] + [e];
        SafeRepeats(e, saved, before, trace);
        if ok {
          return;
        }
      }
    }

    // ---- Stages of deploy() ----

    method DeployImplementations(ghost st: Start) returns (ok: bool)
      requires Running(st)
      modifies this`db, this`saved, this`trace
      ensures Running(st) && old(trace) <= trace
      ensures ok ==> db == old(db).(implHosts := {}) && Settled(old(db), old(saved), db, saved)
      ensures reliable ==> ok
    {
      var hosts := db.implHosts;
      ok := true;
      var todo := hosts;
      while todo != {}
        invariant Running(st) && old(trace) <= trace && db == old(db) && saved == old(saved) && todo <= hosts
        invariant ok ==> forall h <- hosts - todo :: Implemented(h) in trace[|st.before|..]
        invariant reliable ==> ok
        decreases todo
      {
        var h :| h in todo;
        assert db.hosts[h].id == h;
        ghost var before := trace;
        var reached := PerformWithRetries(Implemented(h), st);
        SuffixGrows(before, trace, |st.before|);
        ok := ok && reached;
        todo := todo - {h};
      }
      var restarted: bool := *;
      if !ok || !(restarted || reliable) {
        return false;
      }
      if hosts != {} {
        ImplementationsDone(st, db, saved, trace);
        db := db.(implHosts := {});
        ok := Save(st);
      }
    }

    /** Sends every host the data of the database as it is, once nothing it depends on is flagged. */
    method SendData(ghost st: Start) returns (ok: bool)
      requires Running(st) && Fresh(db, saved) && db.implHosts == {}
      requires forall p: Platform :: db.builds.Get(p) == {}
      modifies this`trace
      ensures Running(st) && old(trace) <= trace
      ensures forall e <- trace[|old(trace)|..] :: e.DataSent? && e.source == db
      ensures ok ==> forall h <- db.hosts :: DataSent(h, db) in trace[|old(trace)|..]
      ensures reliable ==> ok
    {
      hide Disk, WellFormed, Served, Fresh, Since;
      ok := true;
      var todo := db.hosts.Keys;
      while todo != {}
        invariant Running(st) && todo <= db.hosts.Keys
        invariant old(trace) <= trace && forall e <- trace[|old(trace)|..] :: e.DataSent? && e.source == db
        invariant ok ==> forall h <- db.hosts.Keys - todo :: DataSent(h, db) in trace[|old(trace)|..]
        invariant reliable ==> ok
        decreases todo
      {
        var h :| h in todo;
        ghost var before := trace;
        DataIsSafe(db, saved, trace, h);
        var reached := PerformWithRetries(DataSent(h, db), st);
        SuffixGrows(before, trace, |old(trace)|);
        ok := ok && reached;
        todo := todo - {h};
      }
    }

    method DeployData(ghost st: Start) returns (ok: bool)
      requires Running(st) && Fresh(db, saved) && db.implHosts == {}
      requires forall p: Platform :: db.builds.Get(p) == {}
      modifies this`db, this`saved, this`trace
      ensures Running(st) && old(trace) <= trace
      ensures forall e <- trace[|old(trace)|..] :: e.DataSent? && e.source == old(db)
      ensures ok ==> db == old(db).(data := false) && Settled(old(db), old(saved), db, saved)
      ensures ok && old(db).data ==> forall h <- db.hosts :: DataSent(h, old(db)) in trace[|old(trace)|..]
      ensures reliable ==> ok
    {
      hide Disk, Fresh;
      ok := true;
      if db.data {
        ok := SendData(st);
        if !ok {
          return;
        }
        DataReached(st, db, saved, old(trace), trace);
        DataDone(st, db, saved, trace);
        db := db.(data := false);
        ok := Save(st);
      }
    }

    method PushStats(ghost st: Start) returns (ok: bool)
      requires Running(st)
      modifies this`db, this`saved, this`trace
      ensures Running(st) && old(trace) <= trace
      ensures ok ==> db == old(db).(stats := false) && Settled(old(db), old(saved), db, saved)
      ensures reliable ==> ok
    {
      ok := true;
      if db.stats {
        ok := Perform(StatsPushed, st);
        if !ok { return; }
        SuffixGrows(old(trace), trace, |st.before|);
        StatsDone(st, db, saved, trace);
        db := db.(stats := false);
        ok := Save(st);
      }
    }

    method PushEmail(ghost st: Start) returns (ok: bool)
      requires Running(st)
      modifies this`db, this`saved, this`trace
      ensures Running(st) && old(trace) <= trace
      ensures ok ==> db == old(db).(email := false) && Settled(old(db), old(saved), db, saved)
      ensures reliable ==> ok
    {
      ok := true;
      if db.email {
        ok := Perform(EmailPushed, st);
        if !ok { return; }
        EmailDone(st, db, saved, old(trace));
        db := db.(email := false);
        ok := Save(st);
      }
    }

    method PushConfigs(ghost st: Start) returns (ok: bool)
      requires Running(st)
      modifies this`db, this`saved, this`trace
      ensures Running(st) && old(trace) <= trace
      ensures ok ==> db == old(db).(stats := false, email := false) && Settled(old(db), old(saved), db, saved)
      ensures reliable ==> ok
    {
      hide Running;
      ok := PushStats(st);
      if ok {
        ok := PushEmail(st);
      }
    }

    /** Gives a campaign its bucket name. */
    method AssignBucket(s: Id, i: nat, ghost st: Start)
      requires Running(st) && Campaigned(db, s, i) && db.sponsors[s][i].bucket.None?
      modifies this`db
      ensures Running(st) && Reshaped(old(db), db) && db.email == old(db).email
      ensures Campaigned(db, s, i) && db.sponsors[s][i].bucket.Some?
    {
      var name: string := *;
      BucketAssigned(st, db, saved, trace, s, i, name);
      db := WithBucket(db, s, i, name);
    }

    method RaiseEmail(ghost st: Start)
      requires Running(st)
      modifies this`db
      ensures Running(st) && db == old(db).(email := true)
    {
      EmailRaised(st, db, saved, trace);
      db := db.(email := true);
    }

    /** Puts the campaign's build of the current version in its bucket. */
    method Publish(p: Platform, s: Id, i: nat, ghost st: Start) returns (ok: bool)
      requires Running(st) && Campaigned(db, s, i) && db.sponsors[s][i].bucket.Some?
      modifies this`trace
      ensures Running(st) && old(trace) <= trace
      ensures forall b :: LastPublished(old(trace), p, b) >= Latest(db, p) ==>
                LastPublished(trace, p, b) >= Latest(db, p)
      ensures ok ==> Ready(db.sponsors[s][i], p, Latest(db, p), trace)
      ensures ok ==> trace == old(trace) + [Published(p, s, i, db.sponsors[s][i].bucket.value, Latest(db, p))]
      ensures reliable ==> ok
    {
      var bucket := db.sponsors[s][i].bucket.value;
      ok := Perform(Published(p, s, i, bucket, Latest(db, p)), st);
      PublicationSpreads(old(trace), trace, p, s, i, bucket, Latest(db, p));
    }

    /** An effect that publishes nothing leaves what is published as it was. */
    method PerformSilently(e: Effect, ghost p: Platform, ghost st: Start) returns (ok: bool)
      requires Running(st) && (e.SiteUpdated? || e.Tweeted?)
      modifies this`trace
      ensures Running(st) && old(trace) <= trace
      ensures forall b :: LastPublished(trace, p, b) == LastPublished(old(trace), p, b)
      ensures ok ==> trace == old(trace) + [e]
      ensures reliable ==> ok
    {
      ok := Perform(e, st);
      forall b
        ensures LastPublished(trace, p, b) == LastPublished(old(trace), p, b)
      {
        LastPublishedAppend(old(trace), e, p, b);
      }
    }

    /** A campaign without a bucket gets one, and its website with it. */
    method EnsureBucket(p: Platform, s: Id, i: nat, ghost st: Start) returns (ok: bool)
      requires Running(st) && Campaigned(db, s, i)
      modifies this`db, this`trace
      ensures Running(st) && Reshaped(old(db), db) && old(trace) <= trace
      ensures forall b :: LastPublished(trace, p, b) == LastPublished(old(trace), p, b)
      ensures ok ==> Campaigned(db, s, i) && db.sponsors[s][i].bucket.Some? && db.defaultEmail.Some?
      ensures ok && old(db).sponsors[s][i].bucket.None? ==> trace == old(trace) + [SiteUpdated(s, i)]
      ensures reliable && db.defaultEmail.Some? ==> ok
    {
      hide Disk, Memory, Kept, LastPublished;
      ok := db.defaultEmail.Some?;
      if db.sponsors[s][i].bucket.None? {
        AssignBucket(s, i, st);
        if ok {
          ok := PerformSilently(SiteUpdated(s, i), p, st);
        }
      }
    }

    /** A tweet goes out at once; an email push is left flagged for later. */
    method Announce(p: Platform, s: Id, i: nat, ghost st: Start) returns (ok: bool)
      requires Running(st) && Campaigned(db, s, i)
      modifies this`db, this`trace
      ensures Running(st) && (db == old(db) || db == old(db).(email := true)) && old(trace) <= trace
      ensures forall b :: LastPublished(trace, p, b) == LastPublished(old(trace), p, b)
      ensures db.sponsors[s][i].mechanism.EmailAutoresponder? ==> db.email
      ensures ok && db.sponsors[s][i].mechanism.Twitter? ==> trace == old(trace) + [Tweeted(s, i)]
      ensures reliable ==> ok
    {
      hide Disk, Memory, Kept, LastPublished;
      ok := true;
      if db.sponsors[s][i].mechanism.Twitter? {
        ok := PerformSilently(Tweeted(s, i), p, st);
      } else if db.sponsors[s][i].mechanism.EmailAutoresponder? {
        RaiseEmail(st);
      }
    }

    /** Builds and publishes one campaign's client for one platform. */
    method BuildCampaign(p: Platform, s: Id, i: nat, ghost st: Start) returns (ok: bool)
      requires Running(st) && Campaigned(db, s, i)
      modifies this`db, this`trace
      ensures Running(st) && Reshaped(old(db), db) && old(trace) <= trace
      ensures forall b :: LastPublished(old(trace), p, b) >= Latest(db, p) ==>
                LastPublished(trace, p, b) >= Latest(db, p)
      ensures ok ==> Campaigned(db, s, i) && Ready(db.sponsors[s][i], p, Latest(db, p), trace)
      ensures ok ==> Announced(trace[|st.before|..], p, s, i, Latest(db, p), db.sponsors[s][i], db.email)
      ensures ok && old(db).sponsors[s][i].bucket.None? ==> SiteUpdated(s, i) in trace[|old(trace)|..]
      ensures reliable && old(db).defaultEmail.Some? ==> ok
    {
      hide Disk, Memory, Kept, LastPublished, Announced, Reshaped;
      ok := EnsureBucket(p, s, i, st);
      ReshapedFlags(old(db), db);
      if !ok { return; }
      ghost var k, db1 := |trace|, db;
      ok := Publish(p, s, i, st);
      if !ok { return; }
      assert old(db).sponsors[s][i].bucket.None? ==> trace[|old(trace)|] == SiteUpdated(s, i);
      ok := Announce(p, s, i, st);
      assert old(db).sponsors[s][i].bucket.None? ==> trace[|old(trace)|..][0] == SiteUpdated(s, i);
      ReshapedByEmail(old(db), db1, db);
      if ok {
        AnnouncedNow(trace, |st.before|, k, p, s, i, Latest(db, p), db.sponsors[s][i], db.email);
      }
    }

    /** Builds every campaign of one flagged channel and sponsor. */
    method BuildTarget(p: Platform, t: Target, ghost st: Start) returns (ok: bool)
      requires Running(st) && t.sponsor in db.sponsors
      modifies this`db, this`trace
      ensures Running(st) && old(trace) <= trace
      ensures ok ==> Reshaped(old(db), db) && AllBuilt(st, db, trace, p, t, |db.sponsors[t.sponsor]|)
      ensures reliable && old(db).defaultEmail.Some? ==> ok
    {
      hide Disk, Memory, Kept, Announced, LastPublished, Ready, Reshaped;
      var s := t.sponsor;
      ReshapedRefl(db);
      for i := 0 to |db.sponsors[s]|
        invariant old(trace) <= trace
        invariant Running(st) && Reshaped(old(db), db) && s in db.sponsors && |db.sponsors[s]| == |old(db).sponsors[s]|
        invariant AllBuilt(st, db, trace, p, t, i) && db.defaultEmail == old(db).defaultEmail
      {
        ghost var db0, tr0 := db, trace;
        if InTarget(db.sponsors[s][i], t, p) {
          ok := BuildCampaign(p, s, i, st);
          if !ok { return; }
          AllBuiltStep(st, db0, db, tr0, trace, p, t, i);
          ReshapedTransitive(old(db), db0, db);
          ReshapedCounts(db0, db, s);
          ReshapedFlags(db0, db);
        }
      }
      ok := true;
    }

    /** Unflags a target whose campaigns are all out. */
    method ClearTarget(p: Platform, t: Target, ghost st: Start)
      requires Running(st) && t in db.builds.Get(p)
      requires AllBuilt(st, db, trace, p, t, |db.sponsors[t.sponsor]|)
      modifies this`db
      ensures Running(st) && db == Unflagged(old(db), p, {t})
    {
      TargetDone(st, db, saved, trace, p, t);
      db := db.(builds := db.builds.Put(p, db.builds.Get(p) - {t}));
    }

    method DeployTarget(p: Platform, t: Target, ghost st: Start) returns (ok: bool)
      requires Running(st) && t in db.builds.Get(p)
      modifies this`db, this`trace
      ensures Running(st) && old(trace) <= trace
      ensures ok ==> Reshaped(Unflagged(old(db), p, {t}), db)
      ensures reliable && old(db).defaultEmail.Some? ==> ok
    {
      hide Disk, Memory, Since, AllBuilt, Reshaped;
      FlaggedTargetExists(db, saved, trace, p, t);
      ok := BuildTarget(p, t, st);
      if ok {
        ghost var db1 := db;
        ReshapedUnflag(old(db), db1, p, t);
        ClearTarget(p, t, st);
      }
    }

    /** Builds everything flagged for one platform, then saves once. */
    method DeployPlatform(p: Platform, ghost st: Start) returns (ok: bool)
      requires Running(st) && Fresh(db, saved)
      modifies this`db, this`saved, this`trace
      ensures Running(st) && old(trace) <= trace
      ensures ok ==> Reshaped(Unflagged(old(db), p, old(db).builds.Get(p)), db) && Fresh(db, saved)
      ensures ok ==> Settled(old(db), old(saved), db, saved)
      ensures reliable && old(db).defaultEmail.Some? ==> ok
    {
      hide Running, Fresh, Reshaped, Unflagged;
      var todo := db.builds.Get(p);
      var deployed := false;
      ReshapedSelf(db, p);
      ghost var done: set<Target> := {};
      while todo != {}
        invariant Running(st) && saved == old(saved) && old(trace) <= trace
        invariant todo == db.builds.Get(p) && done + todo == old(db).builds.Get(p) && done !! todo
        invariant Reshaped(Unflagged(old(db), p, done), db)
        invariant !deployed ==> db == old(db)
        invariant db.defaultEmail == old(db).defaultEmail
        decreases todo
      {
        var t :| t in todo;
        ghost var db0 := db;
        ok := DeployTarget(p, t, st);
        if !ok { return; }
        ReshapedUnflagMore(old(db), db0, db, p, done, t);
        ReshapedFlags(Unflagged(db0, p, {t}), db);
        UnflaggedEmail(db0, p, {t});
        todo := todo - {t};
        done := done + {t};
        deployed := true;
      }
      ok := true;
      if deployed {
        ok := Save(st);
        FreshSaved(db);
      }
    }

    method RemoveFromProviders(ghost st: Start) returns (ok: bool)
      requires Running(st)
      modifies this`db, this`saved, this`trace
      ensures Running(st) && old(trace) <= trace
      ensures ok ==> db == old(db).(toRemove := db.toRemove) && Settled(old(db), old(saved), db, saved)
      ensures ok ==> forall h <- db.toRemove :: h.provider.OtherProvider?
      ensures ok ==> forall h <- old(db).toRemove :: h.provider == Linode || h.provider == DigitalOcean ==>
                ProviderRemoved(h) in trace[|old(trace)|..]
      ensures reliable ==> ok
    {
      hide Disk, Kept, Memory;
      var todo := db.toRemove;
      var needToSave := false;
      while todo != {}
        invariant Running(st) && saved == old(saved) && old(trace) <= trace
        invariant db == old(db).(toRemove := db.toRemove) && todo <= db.toRemove
        invariant !needToSave ==> db == old(db)
        invariant forall h <- db.toRemove - todo :: h.provider.OtherProvider?
        invariant forall h <- old(db).toRemove - db.toRemove :: ProviderRemoved(h) in trace[|old(trace)|..]
        decreases todo
      {
        var h :| h in todo;
        if h.HasApi() {
          ghost var before := trace;
          ok := RemoveFromProvider(h, st);
          if !ok { return; }
          SuffixGrows(before, trace, |old(trace)|);
          needToSave := true;
        }
        todo := todo - {h};
      }
      ok := true;
      if needToSave {
        ok := Save(st);
      }
    }

    method RemoveFromProvider(h: Host, ghost st: Start) returns (ok: bool)
      requires Running(st)
      modifies this`db, this`trace
      ensures Running(st) && old(trace) <= trace
      ensures ok ==> db == old(db).(toRemove := old(db).toRemove - {h}) && ProviderRemoved(h) in trace[|old(trace)|..]
      ensures reliable ==> ok
    {
      ok := Perform(ProviderRemoved(h), st);
      if ok {
        SuffixGrows(old(trace), trace, |st.before|);
        RemovalDone(st, db, saved, trace, h);
        db := db.(toRemove := db.toRemove - {h});
      }
    }

    /** Updates one campaign's site; a bucket named on the way is saved first. */
    method UpdateSite(s: Id, i: nat, ghost st: Start) returns (ok: bool)
      requires Running(st) && Campaigned(db, s, i)
      modifies this`db, this`saved, this`trace
      ensures Running(st) && Reshaped(old(db), db) && db.email == old(db).email && old(trace) <= trace
      ensures ok ==> SiteUpdated(s, i) in trace[|st.before|..]
      ensures ok && old(db).sponsors[s][i].bucket.None? ==> db.sponsors[s][i].bucket.Some? && saved == db
      ensures reliable && old(db).defaultEmail.Some? ==> ok
    {
      hide Disk, Memory, Kept;
      if db.sponsors[s][i].bucket.None? {
        AssignBucket(s, i, st);
        ok := Save(st);
        if !ok { return; }
      }
      ok := db.defaultEmail.Some?;
      if ok {
        ok := Perform(SiteUpdated(s, i), st);
        SuffixGrows(old(trace), trace, |st.before|);
      }
    }

    method UpdateSites(s: Id, ghost st: Start) returns (ok: bool)
      requires Running(st) && s in db.sponsors
      modifies this`db, this`saved, this`trace
      ensures old(trace) <= trace
      ensures Running(st) && Reshaped(old(db), db) && db.email == old(db).email
      ensures ok ==> forall i :: Campaigned(db, s, i) ==> SiteUpdated(s, i) in trace[|st.before|..]
      ensures reliable && old(db).defaultEmail.Some? ==> ok
    {
      hide Disk, Memory, Kept;
      for i := 0 to |db.sponsors[s]|
        invariant old(trace) <= trace
        invariant Running(st) && Reshaped(old(db), db) && db.email == old(db).email
        invariant forall j :: 0 <= j < i ==> SiteUpdated(s, j) in trace[|st.before|..]
      {
        ghost var db0, tr0 := db, trace;
        ok := UpdateSite(s, i, st);
        ReshapedTransitive(old(db), db0, db);
        if !ok { return; }
        SuffixGrows(tr0, trace, |st.before|);
      }
      ok := true;
    }

    method DeploySite(s: Id, ghost st: Start) returns (ok: bool)
      requires Running(st) && s in db.sponsors
      modifies this`db, this`saved, this`trace
      ensures Running(st) && old(trace) <= trace
      ensures ok ==> Reshaped(Sited(old(db), old(db).sites - {s}), db) && db.email == old(db).email && saved == db
      ensures reliable && old(db).defaultEmail.Some? ==> ok
    {
      hide Disk, Reshaped;
      ok := UpdateSites(s, st);
      if !ok { return; }
      SiteDone(st, db, saved, trace, s);
      ReshapedSites(old(db), db, s);
      db := db.(sites := db.sites - {s});
      ok := Save(st);
    }

    lemma FlaggedSiteExists(st: Start, s: Id)
      requires Running(st) && s in db.sites
      ensures s in db.sponsors
    {
    }

    method DeploySites(ghost st: Start) returns (ok: bool)
      requires Running(st)
      modifies this`db, this`saved, this`trace
      ensures Running(st) && old(trace) <= trace
      ensures ok ==> Reshaped(Sited(old(db), {}), db) && db.email == old(db).email
      ensures ok ==> Settled(old(db), old(saved), db, saved)
      ensures reliable && old(db).defaultEmail.Some? ==> ok
    {
      hide Running, Reshaped, Sited;
      var generated: bool := *;
      var todo := db.sites;
      if todo != {} && !(generated || reliable) {
        return false;
      }
      ReshapedSitesNone(db);
      while todo != {}
        invariant old(trace) <= trace
        invariant Running(st) && todo == db.sites <= old(db).sites
        invariant Reshaped(Sited(old(db), todo), db) && db.email == old(db).email
        invariant Settled(old(db), old(saved), db, saved) && db.defaultEmail == old(db).defaultEmail
        decreases todo
      {
        var s :| s in todo;
        ghost var db0 := db;
        FlaggedSiteExists(st, s);
        ok := DeploySite(s, st);
        if !ok { return; }
        ReshapedSitesMore(old(db), db0, db, s);
        todo := todo - {s};
      }
      ok := true;
    }

    method PaveOsls(ghost st: Start) returns (ok: bool)
      requires Running(st)
      modifies this`db, this`saved, this`trace
      ensures Running(st) && old(trace) <= trace
      ensures ok ==> db == old(db).(osls := {}) && Settled(old(db), old(saved), db, saved)
      ensures reliable ==> ok
    {
      ok := true;
      if db.osls != {} {
        var todo := db.osls;
        while todo != {}
          invariant Running(st) && old(trace) <= trace && db == old(db) && saved == old(saved) && todo <= db.osls
          invariant forall c <- db.osls - todo :: OslPaved(c) in trace[|st.before|..]
          decreases todo
        {
          var c :| c in todo;
          ghost var before := trace;
          ok := Perform(OslPaved(c), st);
          if !ok { return; }
          SuffixGrows(before, trace, |st.before|);
          todo := todo - {c};
        }
        OslsDone(st, db, saved, trace);
        db := db.(osls := {});
        ok := Save(st);
      }
    }

    /** Builds for both platforms, in either order. */
    method DeployBuilds(ghost st: Start) returns (ok: bool)
      requires Running(st) && Fresh(db, saved)
      modifies this`db, this`saved, this`trace
      ensures Running(st) && old(trace) <= trace
      ensures ok ==> Fresh(db, saved) && forall p: Platform :: db.builds.Get(p) == {}
      ensures ok ==> db == old(db).(sponsors := db.sponsors, email := db.email, builds := db.builds)
      ensures ok ==> Settled(old(db), old(saved), db, saved)
      ensures reliable && old(db).defaultEmail.Some? ==> ok
    {
      hide Running, Fresh;
      var p: Platform := *;
      var q := if p.Windows? then Android else Windows;
      ok := DeployPlatform(p, st);
      if ok {
        ok := DeployPlatform(q, st);
      }
    }

    /** What follows the data: configurations, removals, sites and OSLs. */
    method DeployRest(ghost st: Start) returns (ok: bool)
      requires Running(st)
      modifies this`db, this`saved, this`trace
      ensures Running(st) && old(trace) <= trace
      ensures ok ==> db == old(db).(stats := false, email := false, toRemove := db.toRemove, sites := {}, osls := {},
                                    sponsors := db.sponsors)
      ensures ok ==> (forall h <- db.toRemove :: h.provider.OtherProvider?) && Settled(old(db), old(saved), db, saved)
      ensures reliable && old(db).defaultEmail.Some? ==> ok
    {
      hide Running, Reshaped;
      ok := PushConfigs(st);
      if !ok { return; }
      ok := RemoveFromProviders(st);
      if !ok { return; }
      ghost var db1 := db;
      ok := DeploySites(st);
      if !ok { return; }
      ReshapedFlags(Sited(db1, {}), db);
      ok := PaveOsls(st);
    }

    /** Everything flagged, in the order the data depends on it. */
    method Deploy(ghost st: Start) returns (ok: bool)
      requires Running(st) && Fresh(db, saved)
      modifies this`db, this`saved, this`trace
      ensures Running(st) && old(trace) <= trace
      ensures ok ==> NothingFlagged(db) && Settled(old(db), old(saved), db, saved)
      ensures ok ==> db.hosts == old(db).hosts && db.servers == old(db).servers
      ensures ok ==> CarriedOut(st.db, db, trace[|st.before|..])
      ensures ok && old(db).data ==> forall h <- db.hosts :: Broadcast(trace[|old(trace)|..], h, db)
      ensures reliable && old(db).defaultEmail.Some? ==> ok
    {
      hide Running, Fresh, Reshaped, Broadcast, CarriedOut;
      ok := DeployImplementations(st);
      if !ok { return; }
      FreshSettled(old(db), old(saved), db, saved);
      ok := DeployBuilds(st);
      if !ok { return; }
      assert db.builds.Get(Windows) == {} && db.builds.Get(Android) == {};
      ghost var source, tr := db, trace;
      ok := DeployData(st);
      if !ok { return; }
      ghost var tr' := trace;
      ok := DeployRest(st);
      if ok {
        DeployedAll(st);
        forall h <- db.hosts | old(db).data
          ensures Broadcast(trace[|old(trace)|..], h, db)
        {
          SourceBroadcast(tr'[|tr|..], h, source, db);
          BroadcastStays(tr', trace, |tr|, |old(trace)|, h, db);
        }
      }
    }

    lemma DeployedAll(st: Start)
      requires Running(st) && NothingFlagged(db)
      ensures CarriedOut(st.db, db, trace[|st.before|..])
    {
      AllCarriedOut(st.db, db, trace[|st.before|..]);
    }

    // ---- The session ----

    constructor (reliable: bool)
      ensures this.reliable == reliable
      ensures Valid() && live && trace == [] && db == saved == EmptyDb
      ensures history == [Mark(EmptyDb, 0)]
    {
      this.reliable := reliable;
      db, saved, trace, live := EmptyDb, EmptyDb, [], true;
      history := [Mark(EmptyDb, 0)];
      KeptSelf(EmptyDb);
    }

    /** A restart: whatever was only in memory is gone. */
    method Load()
      requires Valid()
      modifies this
      ensures Valid() && live && db == saved == old(saved) && trace == old(trace)
      ensures history == old(history) + [Mark(saved, |trace|)]
    {
      db, live := saved, true;
      KeptSelf(saved);
      TracksMore(history, saved, trace);
      history := history + [Mark(saved, |trace|)];
    }

    method SaveNow() returns (ok: bool)
      requires Valid() && live
      modifies this
      ensures Valid() && live == ok && db == old(db) && trace == old(trace)
      ensures saved == old(saved) || saved == db
      ensures ok ==> saved == db && history == old(history) + [Mark(db, |trace|)]
      ensures old(history) <= history
      ensures reliable ==> ok
    {
      ghost var st := Start(db, saved, trace);
      RunningNow();
      ok := Save(st);
      live := ok;
      if ok {
        KeptSelf(saved);
        TracksMore(history, saved, trace);
        history := history + [Mark(saved, |trace|)];
      }
    }

    /** One deploy of the session: whatever it saves or leaves in memory has lost nothing. */
    method DeployNow() returns (ok: bool)
      requires Valid() && live
      modifies this
      ensures Valid() && live == ok && old(trace) <= trace
      ensures history == old(history) + if ok && saved == db then [Mark(db, |trace|)] else []
      ensures Kept(old(db), db, trace[|old(trace)|..])
      ensures saved == old(saved) || Kept(old(db), saved, trace[|old(trace)|..])
      ensures ok ==> NothingFlagged(db) && Settled(old(db), old(saved), db, saved)
      ensures ok ==> CarriedOut(old(db), db, trace[|old(trace)|..])
      ensures ok && old(db).data ==> forall h <- db.hosts :: Broadcast(trace[|old(trace)|..], h, db)
      ensures ok ==> db.hosts == old(db).hosts && db.servers == old(db).servers
      ensures reliable && old(db).defaultEmail.Some? ==> ok
    {
      hide CarriedOut, Broadcast;
      ghost var st := Start(db, saved, trace);
      RunningNow();
      ok := Deploy(st);
      live := ok;
      if ok {
        FreshSettled(st.db, st.saved, db, saved);
      }
      TracksOn(history, st.db, db, st.before, trace);
      if saved != st.saved {
        TracksOn(history, st.db, saved, st.before, trace);
      } else {
        TracksAppend(history, saved, st.before, trace);
      }
      if ok && saved == db {
        KeptSelf(saved);
        TracksMore(history, saved, trace);
        history := history + [Mark(saved, |trace|)];
      }
    }

    // ---- Campaigns, versions and flags ----

    method AddSponsor(s: Id)
      requires Valid() && live && s !in db.sponsors
      modifies this`db
      ensures Valid() && db == old(db).(sponsors := old(db).sponsors[s := []])
      ensures Kept(old(db), db, [])
    {
      SponsorAdded(db, saved, trace, s);
      db := db.(sponsors := db.sponsors[s := []]);
      Edited(history, old(db), db, trace);
    }

    method AddChannel(c: Id)
      requires Valid() && live && c !in db.channels
      modifies this`db
      ensures Valid() && db == old(db).(channels := old(db).channels + {c})
      ensures Kept(old(db), db, [])
    {
      FlagsRaised(db, db.(channels := db.channels + {c}), saved, trace);
      db := db.(channels := db.channels + {c});
      Edited(history, old(db), db, trace);
    }

    method AddCampaign(s: Id, c: Campaign)
      requires Valid() && live && s in db.sponsors && c.channel in db.channels
      requires c.bucket.None? && c.platforms.None?
      modifies this`db
      ensures Valid()
      ensures c in old(db).sponsors[s] ==> db == old(db)
      ensures c !in old(db).sponsors[s] ==> db == WithCampaign(old(db), s, c)
      ensures c !in old(db).sponsors[s] ==> var t := Target(c.channel, s);
                db == old(db).(sponsors := old(db).sponsors[s := old(db).sponsors[s] + [c]],
                               builds := PerPlatform(old(db).builds.windows + {t}, old(db).builds.android + {t}),
                               osls := old(db).osls + {c.channel})
      ensures Kept(old(db), db, [])
    {
      KeptSelf(db);
      if c !in db.sponsors[s] {
        CampaignAdded(db, saved, trace, s, c);
        db := db.(sponsors := db.sponsors[s := db.sponsors[s] + [c]],
                  builds := FlagBoth(db.builds, Target(c.channel, s)),
                  osls := db.osls + {c.channel});
        Edited(history, old(db), db, trace);
      }
    }

    /** Chooses the account that builds name for new versions; an email campaign must have it. */
    method SetDefaultEmail(account: string) returns (ok: bool)
      requires Valid() && live
      modifies this`db, this`live
      ensures Valid() && live == ok
      ensures ok <==> EmailAccount(old(db).sponsors, account)
      ensures ok <==> exists s, i :: Campaigned(old(db), s, i) && old(db).sponsors[s][i].mechanism.EmailAutoresponder?
                        && old(db).sponsors[s][i].account == Some(account)
      ensures db == if ok then old(db).(defaultEmail := Some(account)) else old(db)
      ensures Kept(old(db), db, [])
    {
      AccountMeans(db, account);
      ok := false;
      var todo := db.sponsors.Keys;
      while todo != {} && !ok
        invariant todo <= db.sponsors.Keys
        invariant ok ==> EmailAccount(db.sponsors, account)
        invariant forall s <- db.sponsors.Keys - todo, i ::
                    0 <= i < |db.sponsors[s]| && HasAccount(db.sponsors[s][i], account) ==> ok
        decreases todo
      {
        var s :| s in todo;
        for i := 0 to |db.sponsors[s]|
          invariant !ok && forall j :: 0 <= j < i ==> !HasAccount(db.sponsors[s][j], account)
        {
          if HasAccount(db.sponsors[s][i], account) {
            ok := true;
            break;
          }
        }
        todo := todo - {s};
      }
      if ok {
        DefaultEmailSet(db, saved, trace, account);
        db := db.(defaultEmail := Some(account));
        Edited(history, old(db), db, trace);
      } else {
        KeptSelf(db);
        Fail();
      }
    }

    /** Renames the bucket of every campaign on the channel with the given account.
        Comparing an account with a campaign that has none raises, and ends the session. */
    method SetBucketName(s: Id, channel: Id, account: Option<string>, name: string) returns (ok: bool)
      requires Valid() && live && s in db.sponsors && channel in db.channels
      modifies this`db, this`live
      ensures Valid() && live == ok
      ensures ok <==> !Raises(old(db), s, channel, account)
      ensures ok <==> account.None? || forall c <- old(db).sponsors[s] :: c.channel == channel ==> c.account.Some?
      ensures ok ==> db == RenamedTo(old(db), s, channel, account, name, |old(db).sponsors[s]|)
      ensures ok ==> s in db.sponsors && |db.sponsors[s]| == |old(db).sponsors[s]|
      ensures ok ==> forall i :: 0 <= i < |old(db).sponsors[s]| ==> (
                var c := old(db).sponsors[s][i];
                var same := c.channel == channel && c.account == account;
                db.sponsors[s][i] == if same then c.(bucket := Some(name)) else c)
      ensures ok && (exists c <- old(db).sponsors[s] :: c.channel == channel && c.account == account) ==>
                && Target(channel, s) in db.builds.windows && Target(channel, s) in db.builds.android
                && channel in db.osls
      ensures Kept(old(db), db, [])
    {
      hide Valid, RenamedTo, Reflagged, WithBucket, Kept;
      ok := true;
      KeptSelf(db);
      RenamedNone(db, s, channel, account, name);
      var i := 0;
      while i < |db.sponsors[s]|
        invariant Valid() && live && ok && s in db.sponsors && i <= |db.sponsors[s]| == |old(db).sponsors[s]|
        invariant db == RenamedTo(old(db), s, channel, account, name, i) && Kept(old(db), db, [])
        invariant account.None? || forall j :: 0 <= j < i ==> !Unaccounted(old(db).sponsors[s][j], channel)
        decreases |old(db).sponsors[s]| - i
      {
        RenamedMore(old(db), s, channel, account, name, i);
        var c := db.sponsors[s][i];
        if c.channel == channel {
          if c.account.None? && account.Some? {
            assert c in old(db).sponsors[s] && Unaccounted(c, channel);
            Fail();
            return false;
          }
          if c.account == account {
            ghost var before := db;
            RenameBucket(s, i, name);
            EditsCompose(old(db), before, db);
          }
        }
        i := i + 1;
        RenamedShape(old(db), s, channel, account, name, i);
      }
      RenamedMeans(old(db), s, channel, account, name);
    }

    method RenameBucket(s: Id, i: nat, name: string)
      requires Valid() && live && Campaigned(db, s, i)
      modifies this`db
      ensures Valid()
      ensures db == Reflagged(WithBucket(old(db), s, i, name), Target(old(db).sponsors[s][i].channel, s))
      ensures Kept(old(db), db, [])
    {
      BucketRenamed(db, saved, trace, s, i, name);
      var t := Target(db.sponsors[s][i].channel, s);
      db := Reflagged(WithBucket(db, s, i, name), t);
      Edited(history, old(db), db, trace);
    }

    /** A new client version: every campaign needs a build, every host the new version number. */
    method AddClientVersion(p: Platform)
      requires Valid() && live
      modifies this`db
      ensures Valid() && db == WithVersion(old(db), p) && Latest(db, p) == Latest(old(db), p) + 1
      ensures db.data && db.versions.Get(p) == old(db).versions.Get(p) + [|old(db).versions.Get(p)| + 1]
      ensures forall s, i :: Campaigned(db, s, i) ==> Target(db.sponsors[s][i].channel, s) in db.builds.Get(p)
      ensures Kept(old(db), db, [])
    {
      VersionAdded(db, saved, trace, p);
      VersionMeans(db, p);
      var next := Latest(db, p) + 1;
      db := db.(versions := db.versions.Put(p, db.versions.Get(p) + [next]),
                builds := db.builds.Put(p, db.builds.Get(p) + AllTargets(db)),
                data := true);
      Edited(history, old(db), db, trace);
    }

    /** A new server version marks all hosts of its kind. */
    method AddServerVersion(tcs: bool)
      requires Valid() && live
      modifies this`db
      ensures Valid()
      ensures db == old(db).(implHosts := old(db).implHosts + set h <- old(db).hosts | old(db).hosts[h].isTCS == tcs)
      ensures Kept(old(db), db, [])
    {
      var db' := db.(implHosts := db.implHosts + set h <- db.hosts | db.hosts[h].isTCS == tcs);
      FlagsRaised(db, db', saved, trace);
      db := db';
      Edited(history, old(db), db, trace);
    }

    method SetOslConfig()
      requires Valid() && live
      modifies this`db
      ensures Valid() && db == old(db).(data := true, osls := old(db).osls + old(db).channels)
      ensures Kept(old(db), db, [])
    {
      var db' := db.(data := true, osls := db.osls + db.channels);
      FlagsRaised(db, db', saved, trace);
      db := db';
      Edited(history, old(db), db, trace);
    }

    method FlagWebsites()
      requires Valid() && live
      modifies this`db
      ensures Valid() && db == old(db).(sites := old(db).sites + old(db).sponsors.Keys)
      ensures Kept(old(db), db, [])
    {
      var db' := db.(sites := db.sites + db.sponsors.Keys);
      FlagsRaised(db, db', saved, trace);
      db := db';
      Edited(history, old(db), db, trace);
    }

    // ---- Hosts and servers ----

    /** Moves the servers of a host to the archive, one by one. */
    method ArchiveServers(h: Id) returns (servers: map<Id, Server>, deleted: map<Id, Server>)
      requires db.servers.Keys !! db.deletedServers.Keys
      ensures servers == db.servers - ServersOn(db, h)
      ensures deleted == db.deletedServers + map id <- ServersOn(db, h) :: db.servers[id]
    {
      var onHost := set id <- db.servers | db.servers[id].hostId == h;
      servers, deleted := db.servers, db.deletedServers;
      var todo := onHost;
      while todo != {}
        invariant todo <= onHost
        invariant servers == db.servers - (onHost - todo)
        invariant deleted == db.deletedServers + map id <- onHost - todo :: db.servers[id]
        decreases todo
      {
        var id :| id in todo;
        assert id in servers && id !in deleted;
        deleted := deleted[id := servers[id]];
        servers := servers - {id};
        todo := todo - {id};
      }
      assert onHost - todo == onHost;
    }

    method RemoveHost(h: Id)
      requires Valid() && live && h in db.hosts
      modifies this`db
      ensures Valid() && db == WithoutHost(old(db), h)
      ensures db.hosts == old(db).hosts - {h} && db.toRemove == old(db).toRemove + {old(db).hosts[h]}
      ensures h !in db.implHosts && db.stats
      ensures forall id <- old(db).servers ::
                if old(db).servers[id].hostId == h
                then id !in db.servers && id in db.deletedServers && db.deletedServers[id] == old(db).servers[id]
                else id in db.servers && db.servers[id] == old(db).servers[id]
      ensures |db.servers| + |db.deletedServers| == |old(db).servers| + |old(db).deletedServers|
      ensures Kept(old(db), db, [])
    {
      hide Kept, Served, Promises, PromisesSaved, Fresh, Tracks;
      assert db.servers.Keys !! db.deletedServers.Keys;
      var servers, deleted := ArchiveServers(h);
      CountConserved(db, h);
      RemovalMeans(db, h);
      HostDropped(db, saved, trace, h);
      db := db.(hosts := db.hosts - {h}, servers := servers, deletedServers := deleted,
                toRemove := db.toRemove + {db.hosts[h]}, implHosts := db.implHosts - {h}, stats := true);
      Edited(history, old(db), db, trace);
    }

    /** An exception ends the session. */
    method Fail()
      requires Valid()
      modifies this`live
      ensures Valid() && !live
    {
      live := false;
    }

    /** Removes a host with few users, disables a server with some, leaves the rest. */
    method PruneServer(server: Server, users: nat) returns (result: PruneResult)
      requires Valid() && live && server.hostId in db.hosts
      modifies this`db, this`live
      ensures Valid() && live == result.Pruned? && !result.MissingHost?
      ensures live ==> db == PruneStep(old(db), server, users)
      ensures live ==> result == Pruned(if users <= 10 then 1 else 0, if 10 < users < 50 then 1 else 0)
      ensures Kept(old(db), db, [])
      ensures reliable ==> live
    {
      hide Valid, Kept, WithoutHost, WithoutService;
      KeptSelf(db);
      if users <= 10 {
        RemoveHost(server.hostId);
        return Pruned(1, 0);
      } else if users < 50 {
        var ok := DisableServer(server);
        return if ok then Pruned(0, 1) else CallFailed;
      }
      return Pruned(0, 0);
    }

    /** Prunes a list of servers drawn from the live ones. */
    method PruneServers(servers: seq<Server>, users: Id -> nat) returns (result: PruneResult)
      requires Valid() && live
      requires forall s <- servers :: s.hostId in db.hosts
      modifies this`db, this`live
      ensures Valid() && live == result.Pruned?
      ensures result.Pruned? ==>
                && Prunable(servers, users)
                && db.hosts.Keys == old(db).hosts.Keys - PrunedHosts(servers, users, |servers|)
      ensures result.Pruned? ==> db == PrunedTo(old(db), servers, users)
      ensures result.Pruned? ==> forall h <- old(db).hosts ::
                h in db.hosts <==> !(users(h) <= 10 && exists x <- servers :: x.hostId == h)
      ensures result.Pruned? ==> forall x <- servers ::
                10 < users(x.hostId) < 50 && x.id in db.servers ==> !db.servers[x.id].enabled
      ensures result.Pruned? ==>
                result == Pruned(CountUsers(servers, users, -1, 11), CountUsers(servers, users, 10, 50))
      ensures result.MissingHost? ==> !Prunable(servers, users)
      ensures Kept(old(db), db, [])
      ensures reliable ==> (result.Pruned? <==> Prunable(servers, users))
    {
      hide Valid, Prunable, PrunedHosts, Kept, PruneStep;
      result := Pruned(0, 0);
      KeptSelf(db);
      assert servers[..0] == [];
      NothingPruned(users, servers);
      for k := 0 to |servers|
        invariant Valid() && live && result.Pruned? && Kept(old(db), db, [])
        invariant db == PrunedTo(old(db), servers[..k], users)
        invariant result == Pruned(CountUsers(servers[..k], users, -1, 11), CountUsers(servers[..k], users, 10, 50))
        invariant Prunable(servers[..k], users)
        invariant db.hosts.Keys == old(db).hosts.Keys - PrunedHosts(servers, users, k)
      {
        var server := servers[k];
        assert server in servers;
        PrunedOneMore(servers, users, k);
        PrunedMore(old(db), servers, users, k);
        if server.hostId !in db.hosts {
          Fail();
          return MissingHost;
        }
        ghost var before := db;
        PruneStepHosts(db, server, users(server.hostId));
        var one := PruneServer(server, users(server.hostId));
        EditsCompose(old(db), before, db);
        if !one.Pruned? {
          return one;
        }
        result := Pruned(result.removed + one.removed, result.disabled + one.disabled);
      }
      assert servers[..|servers|] == servers;
      PrunedMeans(old(db), servers, users);
    }

    /** Closes a server to new clients; the host's firewall is rewritten. */
    method DisableServer(server: Server) returns (ok: bool)
      requires Valid() && live
      modifies this`db, this`live
      ensures Valid() && live == ok && db == WithoutService(old(db), server.id)
      ensures Kept(old(db), db, [])
      ensures reliable ==> ok
    {
      KeptSelf(db);
      if server.id in db.servers {
        var closed := db.servers[server.id].(enabled := false);
        ServersEdited(db, db.(servers := db.servers[server.id := closed]), saved, trace);
        db := db.(servers := db.servers[server.id := closed]);
        Edited(history, old(db), db, trace);
      }
      ok := *;
      ok := ok || reliable;
      live := ok;
    }

    /** Installs a new host with one server; the host record must be new. The host gets its implementation and
        the data of a database that already holds it. */
    method SetupServer(host: Host, draft: Server, draws: seq<Id>) returns (ok: bool, id: Id)
      requires Valid() && live && draft.hostId == host.id
      modifies this`db, this`trace, this`live
      ensures Valid() && live == ok && old(trace) <= trace
      ensures ok ==> host.id !in old(db).hosts && id !in old(db).servers && id !in old(db).deletedServers
      ensures ok ==> db == WithServer(old(db), host, draft.(id := id))
      ensures ok ==> db == old(db).(hosts := old(db).hosts[host.id := host],
                                    servers := old(db).servers[id := draft.(id := id)])
      ensures ok ==> trace == old(trace) + [Installed(host.id), Implemented(host.id), DirectData(host.id, db)]
      ensures ok ==> Kept(old(db), db, trace[|old(trace)|..])
      ensures reliable && host.id !in old(db).hosts && HasNew(draws, old(db)) ==> ok
    {
      hide Disk, Memory, Fresh, Kept, Since, Tracks, WithServer;
      id := "";
      ghost var st := Start(db, saved, trace);
      RunningNow();
      ok := Perform(Installed(host.id), st);
      var drawn := GenerateUniqueServerId(draws, db.servers.Keys + db.deletedServers.Keys);
      ok := ok && drawn.Some? && host.id !in db.hosts;
      if ok {
        id := drawn.value;
        ServerMeans(db, host, draft.(id := id));
        ok := BringUp(host, draft.(id := id), st);
      }
      live := ok;
      if ok {
        TracksOn(history, st.db, db, st.before, trace);
      }
      TracksAppend(history, saved, st.before, trace);
    }

    /** Records a new host and puts its implementation and data on it. */
    method BringUp(host: Host, server: Server, ghost st: Start) returns (ok: bool)
      requires Running(st) && Fresh(db, saved) && trace == st.before + [Installed(host.id)] && db == st.db
      requires host.id !in db.hosts && server.hostId == host.id
      requires server.id !in db.servers && server.id !in db.deletedServers
      modifies this`db, this`trace
      ensures Disk(saved, trace) && Memory(db, saved, trace) && Fresh(db, saved) && old(trace) <= trace
      ensures db == WithServer(old(db), host, server)
      ensures ok ==> trace == old(trace) + [Implemented(host.id), DirectData(host.id, db)]
      ensures ok ==> Kept(st.db, db, trace[|st.before|..])
      ensures reliable ==> ok
    {
      hide Disk, Memory, Fresh, Kept, Grows;
      var db' := db.(hosts := db.hosts[host.id := host], servers := db.servers[server.id := server]);
      ok := Perform(Implemented(host.id), st);
      if ok {
        ok := Perform(DirectData(host.id, db'), st);
      }
      var answers: bool := *;
      ok := ok && (answers || reliable);
      ServerRecorded(db, saved, trace, host, server);
      FreshIgnoresHosts(db, db', saved);
      if ok {
        assert trace[|st.before|..] == [Installed(host.id), Implemented(host.id), DirectData(host.id, db')];
        HostSetUp(trace[|st.before|..], host.id, db, db');
        ServerAdded(st, db, saved, trace, host, server);
      }
      db := db';
    }

    lemma RunningNow()
      requires Valid()
      ensures Running(Start(db, saved, trace))
    {
      KeptSelf(db);
      assert trace[|trace|..] == [];
    }

    /** Replaces what the new servers replace, server by server. */
    method RetireServers(channel: Id, embedded: bool, today: int) returns (servers: map<Id, Server>)
      ensures servers == AllRetired(db.servers, channel, embedded, today)
    {
      servers := db.servers;
      var todo := db.servers.Keys;
      while todo != {}
        invariant todo <= db.servers.Keys == servers.Keys
        invariant forall id <- servers ::
                    servers[id] ==
                    if id in todo then db.servers[id] else Retired(db.servers[id], channel, embedded, today)
        decreases todo
      {
        var id :| id in todo;
        servers := servers[id := Retired(servers[id], channel, embedded, today)];
        todo := todo - {id};
      }
    }

    /** New servers replace old ones if asked to, and must reach all hosts, the statistics and, if embedded, the
        channel's builds. */
    method FlagForServers(channel: Id, embedded: bool, replace: bool, today: int)
      requires Valid() && live && channel in db.channels
      modifies this`db
      ensures Valid() && db == Announcing(old(db), channel, embedded, replace, today)
      ensures Kept(old(db), db, [])
    {
      hide Disk, Memory, Fresh, Kept, Tracks;
      AnnouncingKeeps(db, saved, trace, channel, embedded, replace, today);
      var servers := db.servers;
      if replace {
        servers := RetireServers(channel, embedded, today);
      }
      var targets := if embedded then TargetsOn(db, channel) else {};
      db := db.(data := true, stats := true, servers := servers,
                builds := PerPlatform(db.builds.windows + targets, db.builds.android + targets));
      Edited(history, old(db), db, trace);
    }

    /** Reboots a host that was just set up. */
    method Reboot(h: Id) returns (ok: bool)
      requires Valid() && live
      modifies this`trace, this`live
      ensures Valid() && live == ok && old(trace) <= trace
      ensures ok ==> trace == old(trace) + [Rebooted(h)]
      ensures reliable ==> ok
    {
      hide Disk, Memory, Fresh, Kept, Tracks;
      ghost var st := Start(db, saved, trace);
      RunningNow();
      ok := Perform(Rebooted(h), st);
      live := ok;
      TracksAppend(history, db, st.before, trace);
      TracksAppend(history, saved, st.before, trace);
    }

    /** Adds a batch of launched hosts, saving after each, then deploys. */
    method AddServers(infos: seq<Option<Host>>, channel: Id, discovery: Option<Period>, replace: bool, today: int,
                      draws: seq<Id>) returns (ok: bool)
      requires Valid() && live && channel in db.channels
      modifies this
      ensures Valid() && live == ok && old(history) <= history && old(trace) <= trace
      ensures ok ==> NothingFlagged(db) && forall info <- infos :: info.Some? ==> info.value.id in db.hosts
      ensures ok ==> Kept(old(db), db, trace[|old(trace)|..])
      ensures ok && replace ==> forall id <- old(db).servers ::
                id in db.servers && db.servers[id] == Retired(old(db).servers[id], channel, discovery.None?, today)
      ensures ok && discovery.None? ==> Rebuilt(old(db), db, channel, trace[|old(trace)|..])
      ensures ok ==> StatsPushed in trace[|old(trace)|..]
      ensures ok ==> forall h <- db.hosts :: Broadcast(trace[|old(trace)|..], h, db)
      ensures reliable && Launchable(old(db), infos, draws) ==> ok
    {
      hide Valid, Kept, NothingFlagged, Settled, Announcing, Retired, Launchable, CarriedOut, Rebuilt, Broadcast;
      FlagForServers(channel, discovery.None?, replace, today);
      AnnouncingRetires(old(db), channel, discovery.None?, replace, today, infos, draws);
      ghost var flagged, tr := db, trace;
      assert trace[|old(trace)|..] == [];
      ok := LaunchAll(infos, Server("", "", channel, discovery.None?, false, discovery, true), draws);
      if !ok { return; }
      KeptOver(old(db), flagged, db, tr, trace, |old(trace)|);
      ghost var launched, tr' := db, trace;
      ok := DeployNow();
      if !ok { return; }
      KeptOver(old(db), launched, db, tr', trace, |old(trace)|);
      RebuiltAll(old(db), launched, db, channel, discovery.None?, replace, today, tr'[|old(trace)|..], trace[|tr'|..]);
      assert trace[|old(trace)|..] == tr'[|old(trace)|..] + trace[|tr'|..];
      forall h <- db.hosts
        ensures Broadcast(trace[|old(trace)|..], h, db)
      {
        BroadcastStays(trace, trace, |tr'|, |old(trace)|, h, db);
      }
    }

    /** Sets up the launched hosts one by one. */
    method LaunchAll(infos: seq<Option<Host>>, draft: Server, draws: seq<Id>) returns (ok: bool)
      requires Valid() && live
      modifies this
      ensures Valid() && live == ok && old(history) <= history && old(trace) <= trace
      ensures ok ==> forall info <- infos :: info.Some? ==> info.value.id in db.hosts
      ensures ok ==> db == old(db).(hosts := db.hosts, servers := db.servers)
      ensures ok ==> Extends(old(db), db) && Kept(old(db), db, trace[|old(trace)|..])
      ensures reliable && Launchable(old(db), infos, draws) ==> ok && db.defaultEmail.Some?
    {
      hide Valid, Kept, WithServer, Launchable, Launching, HasNew;
      KeptSelf(db);
      assert trace[|trace|..] == [];
      LaunchBegins(db, infos, draws);
      for i := 0 to |infos|
        invariant Valid() && live && old(history) <= history && old(trace) <= trace
        invariant forall info <- infos[..i] :: info.Some? ==> info.value.id in db.hosts
        invariant db == old(db).(hosts := db.hosts, servers := db.servers)
        invariant Extends(old(db), db) && Kept(old(db), db, trace[|old(trace)|..])
        invariant Launchable(old(db), infos, draws) ==> Launching(old(db), db, infos, i, draws)
      {
        assert infos[..i + 1] == infos[..i] + [infos[i]];
        if infos[i].None? {
          LaunchSkips(old(db), db, infos, i, draws);
        } else {
          var host := infos[i].value;
          LaunchFits(old(db), db, infos, i, draws);
          ghost var id;
          ghost var db0, tr0 := db, trace;
          ok, id := AddServer(host, draft.(hostId := host.id), draws);
          if !ok { return; }
          KeptOver(old(db), db0, db, tr0, trace, |old(trace)|);
          LaunchStep(old(db), db0, draft.(hostId := host.id, id := id), infos, i, draws);
        }
      }
      LaunchEnds(old(db), db, infos, draws);
      ok := true;
    }

    /** Sets up one launched host, reboots it and saves. */
    method AddServer(host: Host, draft: Server, draws: seq<Id>) returns (ok: bool, ghost id: Id)
      requires Valid() && live && draft.hostId == host.id
      modifies this
      ensures Valid() && live == ok && old(history) <= history && old(trace) <= trace
      ensures ok ==> id !in old(db).servers && id !in old(db).deletedServers && host.id !in old(db).hosts
      ensures ok ==> db == WithServer(old(db), host, draft.(id := id)) && saved == db
      ensures ok ==> Kept(old(db), db, trace[|old(trace)|..])
      ensures ok ==> trace == old(trace) + [Installed(host.id), Implemented(host.id), DirectData(host.id, db),
                                            Rebooted(host.id)]
      ensures reliable && host.id !in old(db).hosts && HasNew(draws, old(db)) ==> ok
    {
      hide Valid, Kept, WithServer;
      ok, id := SetupServer(host, draft, draws);
      if !ok { return; }
      ghost var tr := trace;
      ok := Reboot(host.id);
      if !ok { return; }
      KeptIdle(db, trace[|tr|..]);
      KeptOver(old(db), db, db, tr, trace, |old(trace)|);
      ok := SaveNow();
    }
  }

  /** Some draw is an id no server has or had. */
  predicate HasNew(draws: seq<Id>, db: Db) {
    NewIds(draws, db) != {}
  }

  function NewIds(draws: seq<Id>, db: Db): set<Id> {
    set id <- draws | id !in db.servers && id !in db.deletedServers
  }

  /** How many hosts were launched. */
  function Launched(infos: seq<Option<Host>>): nat {
    if infos == [] then 0 else Launched(infos[..|infos| - 1]) + if infos[|infos| - 1].Some? then 1 else 0
  }

  /** What a launch needs besides a network that answers: a default account, new and distinct hosts, and as many
      new ids among the draws as hosts. */
  ghost predicate Launchable(db: Db, infos: seq<Option<Host>>, draws: seq<Id>) {
    && db.defaultEmail.Some?
    && (forall info <- infos :: info.Some? ==> info.value.id !in db.hosts)
    && (forall i, j :: 0 <= i < j < |infos| && infos[i].Some? && infos[j].Some? ==>
          infos[i].value.id != infos[j].value.id)
    && Launched(infos) <= |NewIds(draws, db)|
  }

  /** Where a launch stands after the first i hosts. */
  ghost predicate Launching(a: Db, b: Db, infos: seq<Option<Host>>, i: nat, draws: seq<Id>)
    requires i <= |infos|
  {
    && b.defaultEmail == a.defaultEmail
    && (forall h <- b.hosts :: h in a.hosts || exists info <- infos[..i] :: info.Some? && info.value.id == h)
    && Launched(infos) <= |NewIds(draws, b)| + Launched(infos[..i])
  }

  lemma {:induction false} LaunchedMore(infos: seq<Option<Host>>, i: nat)
    requires i < |infos|
    ensures Launched(infos[..i + 1]) == Launched(infos[..i]) + if infos[i].Some? then 1 else 0
    ensures Launched(infos[..i + 1]) <= Launched(infos)
    ensures infos[..i + 1] == infos[..i] + [infos[i]]
    decreases |infos|
  {
    assert infos[..i + 1][..i] == infos[..i];
    var n := |infos| - 1;
    if i < n {
      LaunchedMore(infos[..n], i);
      assert infos[..n][..i + 1] == infos[..i + 1];
    } else {
      assert infos[..i + 1] == infos;
    }
  }

  lemma LaunchBegins(db: Db, infos: seq<Option<Host>>, draws: seq<Id>)
    ensures Launchable(db, infos, draws) ==> Launching(db, db, infos, 0, draws)
  {
  }

  lemma LaunchSkips(a: Db, b: Db, infos: seq<Option<Host>>, i: nat, draws: seq<Id>)
    requires i < |infos| && infos[i].None?
    ensures Launching(a, b, infos, i, draws) ==> Launching(a, b, infos, i + 1, draws)
  {
    LaunchedMore(infos, i);
  }

  /** While a launch goes as planned the next host is new and an id is left for it. */
  lemma LaunchFits(a: Db, b: Db, infos: seq<Option<Host>>, i: nat, draws: seq<Id>)
    requires i < |infos| && infos[i].Some?
    ensures Launchable(a, infos, draws) && Launching(a, b, infos, i, draws) ==>
              infos[i].value.id !in b.hosts && HasNew(draws, b)
  {
    LaunchedMore(infos, i);
    assert infos[i] in infos;
  }

  /** A host that joins uses up one new id. */
  lemma LaunchStep(a: Db, b: Db, server: Server, infos: seq<Option<Host>>, i: nat, draws: seq<Id>)
    requires i < |infos| && infos[i].Some? && infos[i].value.id !in b.hosts
    requires server.id !in b.servers && server.id !in b.deletedServers
    ensures var host := infos[i].value; var b' := WithServer(b, host, server);
            && b' == b.(hosts := b'.hosts, servers := b'.servers)
            && b'.hosts.Keys == b.hosts.Keys + {host.id} && Extends(b, b')
            && (Launching(a, b, infos, i, draws) ==> Launching(a, b', infos, i + 1, draws))
  {
    var b' := WithServer(b, infos[i].value, server);
    LaunchedMore(infos, i);
    assert NewIds(draws, b') == NewIds(draws, b) - {server.id};
    if Launching(a, b, infos, i, draws) {
      forall h <- b'.hosts
        ensures h in a.hosts || exists info <- infos[..i + 1] :: info.Some? && info.value.id == h
      {
        if h in b.hosts && h !in a.hosts {
          var info :| info in infos[..i] && info.Some? && info.value.id == h;
          assert info in infos[..i + 1];
        } else if h !in b.hosts {
          assert infos[i] in infos[..i + 1];
        }
      }
    }
  }

  lemma LaunchEnds(a: Db, b: Db, infos: seq<Option<Host>>, draws: seq<Id>)
    ensures Launchable(a, infos, draws) && Launching(a, b, infos, |infos|, draws) ==> b.defaultEmail.Some?
    ensures infos[..|infos|] == infos
  {
  }

  /** The hosts and servers of `a` are in `b` as they were. */
  predicate Extends(a: Db, b: Db) {
    a.hosts.Keys <= b.hosts.Keys && forall id <- a.servers :: id in b.servers && b.servers[id] == a.servers[id]
  }

  lemma AnnouncingRetires(db: Db, channel: Id, embedded: bool, replace: bool, today: int,
                          infos: seq<Option<Host>>, draws: seq<Id>)
    ensures var db' := Announcing(db, channel, embedded, replace, today);
            && db'.servers.Keys == db.servers.Keys
            && (Launchable(db, infos, draws) ==> Launchable(db', infos, draws))
            && forall id <- db.servers :: replace ==>
                 db'.servers[id] == Retired(db.servers[id], channel, embedded, today)
  {
    assert NewIds(draws, Announcing(db, channel, embedded, replace, today)) == NewIds(draws, db);
  }

  lemma AccountMeans(db: Db, account: string)
    ensures EmailAccount(db.sponsors, account) <==>
            exists s, i :: Campaigned(db, s, i) && db.sponsors[s][i].mechanism.EmailAutoresponder?
                           && db.sponsors[s][i].account == Some(account)
  {
    if s, i :| Campaigned(db, s, i) && db.sponsors[s][i].mechanism.EmailAutoresponder?
               && db.sponsors[s][i].account == Some(account) {
      assert HasAccount(db.sponsors[s][i], account);
    }
    if EmailAccount(db.sponsors, account) {
      var s, i :| s in db.sponsors && 0 <= i < |db.sponsors[s]| && HasAccount(db.sponsors[s][i], account);
      assert Campaigned(db, s, i);
    }
  }

  lemma HostSetUp(tr: seq<Effect>, h: Id, db: Db, db': Db)
    requires tr == [Installed(h), Implemented(h), DirectData(h, db')] && Grows(db, db')
    ensures SetUp(tr, h, db)
  {
    assert tr[1] == Implemented(h) && tr[2] == DirectData(h, db');
  }

  /** The campaign is on the channel and has no account to compare with. */
  predicate Unaccounted(c: Campaign, channel: Id) {
    c.channel == channel && c.account.None?
  }

  predicate Raises(db: Db, s: Id, channel: Id, account: Option<string>)
    requires s in db.sponsors
  {
    account.Some? && exists c <- db.sponsors[s] :: Unaccounted(c, channel)
  }

  datatype PruneResult = Pruned(removed: nat, disabled: nat) | MissingHost | CallFailed

  /** Draws until an id is neither live nor archived; None while every draw so far was taken. */
  method GenerateUniqueServerId(draws: seq<Id>, existing: set<Id>) returns (r: Option<Id>)
    ensures r.Some? ==>
              && r.value !in existing
              && exists i :: 0 <= i < |draws| && draws[i] == r.value && forall j :: 0 <= j < i ==> draws[j] in existing
    ensures r.None? ==> forall id <- draws :: id in existing
  {
    for i := 0 to |draws|
      invariant forall j :: 0 <= j < i ==> draws[j] in existing
    {
      if draws[i] !in existing {
        return Some(draws[i]);
      }
    }
    return None;
  }

  lemma NothingPruned(users: Id -> nat, servers: seq<Server>)
    ensures Prunable([], users) && PrunedHosts(servers, users, 0) == {}
  {
  }

  lemma PrunedOneMore(servers: seq<Server>, users: Id -> nat, k: nat)
    requires k < |servers| && Prunable(servers[..k], users)
    ensures servers[k].hostId in PrunedHosts(servers, users, k) ==> !Prunable(servers, users)
    ensures servers[k].hostId !in PrunedHosts(servers, users, k) ==> Prunable(servers[..k + 1], users)
    ensures PrunedHosts(servers, users, k + 1) ==
            PrunedHosts(servers, users, k) + if users(servers[k].hostId) <= 10 then {servers[k].hostId} else {}
  {
    if servers[k].hostId !in PrunedHosts(servers, users, k) {
      forall i, j | 0 <= i < j < k + 1 && servers[i].hostId == servers[j].hostId
        ensures users(servers[i].hostId) > 10
      {
        assert j < k ==> servers[..k][i].hostId == servers[..k][j].hostId;
      }
    }
  }
}
