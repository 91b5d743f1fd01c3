/** What a deploy keeps at every point: nothing owed is lost, nothing unpublished is promised. */
module DeployState {
  import opened Options
  import opened Network

  /** A database reached at a given length of the effect history. */
  datatype Mark = Mark(db: Db, at: nat)

  /** Where a deploy began: database in memory, database saved, history so far. */
  datatype Start = Start(db: Db, saved: Db, before: seq<Effect>)

  ghost predicate Disk(saved: Db, tr: seq<Effect>) {
    WellFormed(saved) && Served(saved, tr) && Promises(tr) && PromisesSaved(tr, saved)
  }

  ghost predicate Memory(db: Db, saved: Db, tr: seq<Effect>) {
    WellFormed(db) && Served(db, tr) && forall p :: Latest(saved, p) <= Latest(db, p)
  }

  /** Every remembered database has lost nothing on the way to x. */
  ghost predicate Tracks(history: seq<Mark>, x: Db, tr: seq<Effect>) {
    forall m <- history :: m.at <= |tr| && Kept(m.db, x, tr[m.at..])
  }

  /** Nothing was lost since the deploy began, neither in memory nor in what was saved since. */
  ghost predicate Since(st: Start, db: Db, saved: Db, tr: seq<Effect>) {
    && st.before <= tr
    && Kept(st.db, db, tr[|st.before|..])
    && (saved == st.saved || Kept(st.db, saved, tr[|st.before|..]))
  }

  /** A finished stage changed nothing, or saved what it changed. */
  predicate Settled(db: Db, saved: Db, db': Db, saved': Db) {
    (db' == db && saved' == saved) || saved' == db'
  }

  lemma SinceAppend(st: Start, db: Db, saved: Db, tr: seq<Effect>, e: Effect)
    requires Since(st, db, saved, tr)
    ensures Since(st, db, saved, tr + [e])
  {
    assert (tr + [e])[|st.before|..] == tr[|st.before|..] + [e];
    KeptAppend(st.db, db, tr[|st.before|..], e);
    if saved != st.saved {
      KeptAppend(st.db, saved, tr[|st.before|..], e);
    }
  }

  lemma TracksOn(history: seq<Mark>, a: Db, b: Db, tr: seq<Effect>, tr': seq<Effect>)
    requires Tracks(history, a, tr) && tr <= tr' && Kept(a, b, tr'[|tr|..])
    ensures Tracks(history, b, tr')
  {
    forall m <- history
      ensures m.at <= |tr'| && Kept(m.db, b, tr'[m.at..])
    {
      assert tr'[m.at..] == tr[m.at..] + tr'[|tr|..];
      KeptTransitive(m.db, a, b, tr[m.at..], tr'[|tr|..]);
    }
  }

  lemma TracksMore(history: seq<Mark>, a: Db, tr: seq<Effect>)
    requires Tracks(history, a, tr) && Kept(a, a, [])
    ensures Tracks(history + [Mark(a, |tr|)], a, tr)
  {
    assert tr[|tr|..] == [];
  }

  lemma TracksAppend(history: seq<Mark>, a: Db, tr: seq<Effect>, tr': seq<Effect>)
    requires Tracks(history, a, tr) && tr <= tr'
    ensures Tracks(history, a, tr')
  {
    forall m <- history
      ensures Kept(m.db, a, tr'[m.at..])
    {
      KeptExtend(m.db, a, tr[m.at..], tr'[|tr|..]);
      assert tr'[m.at..] == tr[m.at..] + tr'[|tr|..];
    }
  }

  lemma {:induction false} KeptExtend(a: Db, b: Db, tr: seq<Effect>, more: seq<Effect>)
    requires Kept(a, b, tr)
    ensures Kept(a, b, tr + more)
    decreases more
  {
    if more == [] {
      assert tr + more == tr;
    } else {
      KeptAppend(a, b, tr, more[0]);
      KeptExtend(a, b, tr + [more[0]], more[1..]);
      assert tr + more == tr + [more[0]] + more[1..];
    }
  }

  predicate NothingFlagged(db: Db) {
    && db.implHosts == {} && db.builds.windows == {} && db.builds.android == {}
    && !db.data && !db.stats && !db.email && db.sites == {} && db.osls == {}
    && forall h <- db.toRemove :: h.provider.OtherProvider?
  }

  lemma FreshSettled(db: Db, saved: Db, db': Db, saved': Db)
    requires Fresh(db, saved) && Settled(db, saved, db', saved')
    ensures Fresh(db', saved')
  {
  }

  lemma ReshapedFlags(a: Db, b: Db)
    requires Reshaped(a, b)
    ensures b == a.(sponsors := b.sponsors, email := b.email)
  {
  }

  lemma ReshapedSites(a: Db, b: Db, s: Id)
    requires Reshaped(a, b)
    ensures Reshaped(a.(sites := a.sites - {s}), b.(sites := b.sites - {s}))
  {
    forall x, i | Campaigned(a.(sites := a.sites - {s}), x, i)
      ensures Campaigned(a, x, i)
    {
    }
  }

  function Sited(db: Db, sites: set<Id>): Db {
    db.(sites := sites)
  }

  lemma ReshapedSitesNone(a: Db)
    ensures Reshaped(Sited(a, a.sites), a)
  {
    assert Sited(a, a.sites) == a;
  }

  lemma ReshapedSitesMore(a: Db, b: Db, c: Db, s: Id)
    requires Reshaped(Sited(a, b.sites), b) && Reshaped(Sited(b, b.sites - {s}), c)
    ensures c.sites == b.sites - {s} && c.defaultEmail == b.defaultEmail && Reshaped(Sited(a, c.sites), c)
  {
    ReshapedSites(Sited(a, b.sites), b, s);
    ReshapedTransitive(Sited(a, b.sites - {s}), Sited(b, b.sites - {s}), c);
  }

  lemma RemovalDone(st: Start, db: Db, saved: Db, tr: seq<Effect>, h: Host)
    requires Since(st, db, saved, tr) && Memory(db, saved, tr)
    requires ProviderRemoved(h) in tr[|st.before|..]
    ensures var db' := db.(toRemove := db.toRemove - {h}); Since(st, db', saved, tr) && Memory(db', saved, tr)
  {
    hide WellFormed, Served, Kept, Grows;
    var db' := db.(toRemove := db.toRemove - {h});
    FlagsCleared(st, db, db', saved, tr);
  }

  lemma SiteDone(st: Start, db: Db, saved: Db, tr: seq<Effect>, s: Id)
    requires Since(st, db, saved, tr) && Memory(db, saved, tr)
    requires forall i :: Campaigned(db, s, i) ==> SiteUpdated(s, i) in tr[|st.before|..]
    ensures var db' := db.(sites := db.sites - {s}); Since(st, db', saved, tr) && Memory(db', saved, tr)
  {
    hide WellFormed, Served, Grows;
    var db' := db.(sites := db.sites - {s});
    forall o | Owes(db, o) && !Owes(db', o)
      ensures Done(o, st.db, db', tr[|st.before|..])
    {
      assert o == NeedSite(s);
      DonePrepend(o, st.db, db, db', [], tr[|st.before|..]);
      assert [] + tr[|st.before|..] == tr[|st.before|..];
    }
    FlagsCleared(st, db, db', saved, tr);
  }

  lemma OslsDone(st: Start, db: Db, saved: Db, tr: seq<Effect>)
    requires Since(st, db, saved, tr) && Memory(db, saved, tr)
    requires forall c <- db.osls :: OslPaved(c) in tr[|st.before|..]
    ensures var db' := db.(osls := {}); Since(st, db', saved, tr) && Memory(db', saved, tr)
  {
    hide WellFormed, Served, Kept, Grows;
    var db' := db.(osls := {});
    FlagsCleared(st, db, db', saved, tr);
  }

  lemma AnnouncedNow(tr: seq<Effect>, at: nat, k: nat, p: Platform, s: Id, i: nat, v: nat, c: Campaign, owed: bool)
    requires at <= k < |tr| && PublishedAt(tr[k], p, s, i, v, c.bucket)
    requires c.mechanism.EmailAutoresponder? ==> owed
    requires c.mechanism.Twitter? ==> k + 1 < |tr| && tr[k + 1] == Tweeted(s, i)
    ensures Announced(tr[at..], p, s, i, v, c, owed)
  {
    assert tr[at..][k - at] == tr[k];
    assert c.mechanism.Twitter? ==> tr[at..][k + 1 - at] == Tweeted(s, i);
  }

  function Unflagged(db: Db, p: Platform, ts: set<Target>): Db {
    db.(builds := db.builds.Put(p, db.builds.Get(p) - ts))
  }

  lemma UnflaggedEmail(db: Db, p: Platform, ts: set<Target>)
    ensures Unflagged(db, p, ts).defaultEmail == db.defaultEmail
  {
  }

  lemma ReshapedByEmail(a: Db, b: Db, c: Db)
    requires Reshaped(a, b) && (c == b || c == b.(email := true))
    ensures Reshaped(a, c)
  {
    ReshapedTransitive(a, b, c);
  }

  lemma ReshapedSelf(a: Db, p: Platform)
    ensures Reshaped(Unflagged(a, p, {}), a)
  {
    assert a.builds.Get(p) - {} == a.builds.Get(p);
    assert Unflagged(a, p, {}) == a;
  }

  lemma FreshSaved(db: Db)
    ensures Fresh(db, db)
  {
  }

  lemma FlaggedTargetExists(db: Db, saved: Db, tr: seq<Effect>, p: Platform, t: Target)
    requires Memory(db, saved, tr) && t in db.builds.Get(p)
    ensures t.channel in db.channels && t.sponsor in db.sponsors
  {
  }

  lemma ReshapedRefl(a: Db)
    ensures Reshaped(a, a)
  {
  }

  lemma ReshapedCounts(a: Db, b: Db, s: Id)
    requires Reshaped(a, b) && s in a.sponsors
    ensures s in b.sponsors && |b.sponsors[s]| == |a.sponsors[s]|
  {
  }

  lemma ReshapedTransitive(a: Db, b: Db, c: Db)
    requires Reshaped(a, b) && Reshaped(b, c)
    ensures Reshaped(a, c)
  {
    forall s, i | Campaigned(a, s, i)
      ensures SameCampaign(a.sponsors[s][i], c.sponsors[s][i])
      ensures a.sponsors[s][i].bucket.Some? ==> c.sponsors[s][i] == a.sponsors[s][i]
    {
      assert Campaigned(b, s, i);
    }
  }

  lemma ReshapedUnflag(a: Db, b: Db, p: Platform, t: Target)
    requires Reshaped(a, b)
    ensures b.builds == a.builds && b.sponsors.Keys == a.sponsors.Keys
    ensures Reshaped(Unflagged(a, p, {t}), Unflagged(b, p, {t}))
  {
    var a', b' := Unflagged(a, p, {t}), Unflagged(b, p, {t});
    forall s, i | Campaigned(a', s, i)
      ensures SameCampaign(a'.sponsors[s][i], b'.sponsors[s][i])
      ensures a'.sponsors[s][i].bucket.Some? ==> b'.sponsors[s][i] == a'.sponsors[s][i]
    {
      assert Campaigned(a, s, i);
    }
  }

  lemma ReshapedUnflagMore(a: Db, b: Db, c: Db, p: Platform, ts: set<Target>, t: Target)
    requires Reshaped(Unflagged(a, p, ts), b) && Reshaped(Unflagged(b, p, {t}), c)
    ensures c.builds.Get(p) == b.builds.Get(p) - {t}
    ensures Reshaped(Unflagged(a, p, ts + {t}), c)
  {
    ReshapedUnflag(Unflagged(a, p, ts), b, p, t);
    assert a.builds.Get(p) - (ts + {t}) == a.builds.Get(p) - ts - {t};
    assert Unflagged(Unflagged(a, p, ts), p, {t}) == Unflagged(a, p, ts + {t});
    ReshapedTransitive(Unflagged(a, p, ts + {t}), Unflagged(b, p, {t}), c);
  }

  function WithBucket(db: Db, s: Id, i: nat, name: string): Db
    requires Campaigned(db, s, i)
  {
    db.(sponsors := db.sponsors[s := db.sponsors[s][i := db.sponsors[s][i].(bucket := Some(name))]])
  }

  /** b is a with some campaigns newly given buckets, and perhaps the email flag raised. */
  ghost predicate Reshaped(a: Db, b: Db) {
    && b == a.(sponsors := b.sponsors, email := b.email)
    && (a.email ==> b.email)
    && b.sponsors.Keys == a.sponsors.Keys
    && (forall s <- a.sponsors :: |b.sponsors[s]| == |a.sponsors[s]|)
    && (forall s, i :: Campaigned(a, s, i) ==> SameCampaign(a.sponsors[s][i], b.sponsors[s][i]))
    && (forall s, i :: Campaigned(a, s, i) && a.sponsors[s][i].bucket.Some? ==> b.sponsors[s][i] == a.sponsors[s][i])
  }

  /** The first n campaigns of a target are published and announced. */
  ghost predicate AllBuilt(st: Start, db: Db, tr: seq<Effect>, p: Platform, t: Target, n: int) {
    && |st.before| <= |tr|
    && forall i :: 0 <= i < n && Campaigned(db, t.sponsor, i) && InTarget(db.sponsors[t.sponsor][i], t, p) ==>
         && Ready(db.sponsors[t.sponsor][i], p, Latest(db, p), tr)
         && Announced(tr[|st.before|..], p, t.sponsor, i, Latest(db, p), db.sponsors[t.sponsor][i], db.email)
  }

  lemma AllBuiltStep(st: Start, db: Db, db': Db, tr: seq<Effect>, tr': seq<Effect>, p: Platform, t: Target, n: nat)
    requires AllBuilt(st, db, tr, p, t, n) && Reshaped(db, db') && tr <= tr'
    requires forall b :: LastPublished(tr, p, b) >= Latest(db', p) ==> LastPublished(tr', p, b) >= Latest(db', p)
    requires Campaigned(db', t.sponsor, n) && Ready(db'.sponsors[t.sponsor][n], p, Latest(db', p), tr')
    requires Announced(tr'[|st.before|..], p, t.sponsor, n, Latest(db', p), db'.sponsors[t.sponsor][n], db'.email)
    ensures AllBuilt(st, db', tr', p, t, n + 1)
  {
    var s := t.sponsor;
    assert tr'[|st.before|..] == tr[|st.before|..] + tr'[|tr|..];
    forall i | 0 <= i < n && Campaigned(db', s, i) && InTarget(db'.sponsors[s][i], t, p)
      ensures Ready(db'.sponsors[s][i], p, Latest(db', p), tr')
      ensures Announced(tr'[|st.before|..], p, s, i, Latest(db', p), db'.sponsors[s][i], db'.email)
    {
      assert Campaigned(db, s, i);
      AnnouncedAppend(tr[|st.before|..], tr'[|tr|..], p, s, i, Latest(db, p), db.sponsors[s][i], db'.sponsors[s][i],
                      db.email, db'.email);
    }
  }

  lemma BucketReshapes(db: Db, s: Id, i: nat, name: string)
    requires Campaigned(db, s, i) && db.sponsors[s][i].bucket.None?
    ensures Reshaped(db, WithBucket(db, s, i, name))
  {
  }

  lemma BucketServed(db: Db, tr: seq<Effect>, s: Id, i: nat, name: string)
    requires Served(db, tr) && Campaigned(db, s, i) && db.sponsors[s][i].bucket.None?
    ensures Served(WithBucket(db, s, i, name), tr)
  {
    var db' := WithBucket(db, s, i, name);
    forall p, s', i' | Campaigned(db', s', i')
      ensures CampaignServed(db', tr, p, s', i')
    {
      assert Campaigned(db, s', i');
      assert CampaignServed(db, tr, p, s', i');
    }
  }

  /** A campaign that has no bucket yet is flagged on all its platforms. */
  lemma BucketMoves(db: Db, tr: seq<Effect>, s: Id, i: nat, name: string)
    requires Served(db, tr) && Campaigned(db, s, i) && db.sponsors[s][i].bucket.None?
    ensures MovesFlagged(db, WithBucket(db, s, i, name))
  {
    var db' := WithBucket(db, s, i, name);
    forall p, x, j | Moves(db, db', p, x, j)
      ensures Awaits(db', p, x, j)
    {
      assert CampaignServed(db, tr, p, x, j);
    }
  }

  lemma ReshapedKeeps(a: Db, b: Db)
    requires Reshaped(a, b) && WellFormed(a)
    ensures WellFormed(b) && Grows(a, b)
  {
    forall s, i | Campaigned(b, s, i)
      ensures b.sponsors[s][i].channel in b.channels
    {
      assert Campaigned(a, s, i);
    }
  }

  lemma BucketAssigned(st: Start, db: Db, saved: Db, tr: seq<Effect>, s: Id, i: nat, name: string)
    requires Since(st, db, saved, tr) && Memory(db, saved, tr)
    requires Campaigned(db, s, i) && db.sponsors[s][i].bucket.None?
    ensures var db' := WithBucket(db, s, i, name);
            Since(st, db', saved, tr) && Memory(db', saved, tr) && Reshaped(db, db')
  {
    hide Done, Served, WellFormed, Grows, Reshaped, MovesFlagged;
    var db' := WithBucket(db, s, i, name);
    BucketReshapes(db, s, i, name);
    BucketServed(db, tr, s, i, name);
    BucketMoves(db, tr, s, i, name);
    ReshapedKeeps(db, db');
    KeptChange(st.db, db, db', tr[|st.before|..]);
  }

  lemma EmailRaised(st: Start, db: Db, saved: Db, tr: seq<Effect>)
    requires Since(st, db, saved, tr) && Memory(db, saved, tr)
    ensures var db' := db.(email := true); Since(st, db', saved, tr) && Memory(db', saved, tr)
  {
    hide WellFormed, Served, Kept, Grows;
    var db' := db.(email := true);
    FlagsCleared(st, db, db', saved, tr);
  }

  lemma PublicationSpreads(tr: seq<Effect>, tr': seq<Effect>, p: Platform, s: Id, i: nat, bucket: string, v: nat)
    requires tr' == tr || tr' == tr + [Published(p, s, i, bucket, v)]
    ensures forall b :: LastPublished(tr, p, b) >= v ==> LastPublished(tr', p, b) >= v
    ensures tr' != tr ==> LastPublished(tr', p, bucket) == v
  {
    forall b
      ensures tr' != tr ==> LastPublished(tr', p, b) == if b == bucket then v else LastPublished(tr, p, b)
    {
      LastPublishedAppend(tr, Published(p, s, i, bucket, v), p, b);
    }
  }

  /** A target whose campaigns are all published and announced can be unflagged. */
  lemma TargetDone(st: Start, db: Db, saved: Db, tr: seq<Effect>, p: Platform, t: Target)
    requires Since(st, db, saved, tr) && Memory(db, saved, tr) && t in db.builds.Get(p)
    requires AllBuilt(st, db, tr, p, t, |db.sponsors[t.sponsor]|)
    ensures var db' := db.(builds := db.builds.Put(p, db.builds.Get(p) - {t}));
            Since(st, db', saved, tr) && Memory(db', saved, tr)
  {
    hide Announced;
    var db' := db.(builds := db.builds.Put(p, db.builds.Get(p) - {t}));
    forall q, s, i | Campaigned(db', s, i)
      ensures CampaignServed(db', tr, q, s, i)
    {
      assert Campaigned(db, s, i);
      assert CampaignServed(db, tr, q, s, i);
    }
    forall s, i | Campaigned(db', s, i)
      ensures db'.sponsors[s][i].channel in db'.channels
    {
      assert Campaigned(db, s, i);
    }
    forall q: Platform, u: Target | u in db'.builds.Get(q)
      ensures u in db.builds.Get(q)
    {
    }
    forall o | Owes(db, o) && !Owes(db', o)
      ensures Done(o, st.db, db', tr[|st.before|..])
    {
      assert o == NeedBuild(p, t);
      assert Done(o, db, db', tr[|st.before|..]);
      DonePrepend(o, st.db, db, db', [], tr[|st.before|..]);
      assert [] + tr[|st.before|..] == tr[|st.before|..];
    }
    KeptChange(st.db, db, db', tr[|st.before|..]);
  }

  lemma SuffixGrows(tr: seq<Effect>, tr': seq<Effect>, at: nat)
    requires at <= |tr| && tr <= tr'
    ensures tr'[at..] == tr[at..] + tr'[|tr|..]
    ensures forall e <- tr[at..] :: e in tr'[at..]
    ensures forall e <- tr'[|tr|..] :: e in tr'[at..]
    ensures forall h, a :: SentData(tr[at..], h, a) ==> SentData(tr'[at..], h, a)
  {
    assert tr'[at..] == tr[at..] + tr'[|tr|..];
    forall h, a | SentData(tr[at..], h, a)
      ensures SentData(tr'[at..], h, a)
    {
      SentAppend(tr[at..], tr'[|tr|..], h, a);
    }
  }

  /** Flags whose work is done can be cleared, and the email flag raised, without losing anything. */
  lemma FlagsCleared(st: Start, db: Db, db': Db, saved: Db, tr: seq<Effect>)
    requires Since(st, db, saved, tr) && Memory(db, saved, tr)
    requires db' == db.(implHosts := db'.implHosts, data := db'.data, stats := db'.stats, email := db'.email,
                        toRemove := db'.toRemove, sites := db'.sites, osls := db'.osls)
    requires db'.implHosts <= db.implHosts && db'.sites <= db.sites && (db.email ==> db'.email)
    requires forall o :: Owes(db, o) && !Owes(db', o) ==> Done(o, st.db, db', tr[|st.before|..])
    ensures Since(st, db', saved, tr) && Memory(db', saved, tr)
  {
    hide Done;
    KeptChange(st.db, db, db', tr[|st.before|..]);
    FlagsOnly(db, db', tr);
  }

  lemma ImplementationsDone(st: Start, db: Db, saved: Db, tr: seq<Effect>)
    requires Since(st, db, saved, tr) && Memory(db, saved, tr)
    requires forall h <- db.implHosts :: Implemented(h) in tr[|st.before|..]
    ensures var db' := db.(implHosts := {}); Since(st, db', saved, tr) && Memory(db', saved, tr)
  {
    hide WellFormed, Served, Kept, Grows;
    var db' := db.(implHosts := {});
    FlagsCleared(st, db, db', saved, tr);
  }

  /** Whoever sends data once no build is flagged names only published, saved versions. */
  lemma DataIsSafe(db: Db, saved: Db, tr: seq<Effect>, h: Id)
    requires WellFormed(db) && Served(db, tr) && Fresh(db, saved) && db.implHosts == {}
    requires forall p: Platform :: db.builds.Get(p) == {}
    ensures Safe(DataSent(h, db), saved, tr)
  {
    forall p, s, i | Promised(db, p, s, i)
      ensures Ready(db.sponsors[s][i], p, Latest(db, p), tr) && Latest(db, p) <= Latest(saved, p)
    {
      assert CampaignServed(db, tr, p, s, i);
    }
  }

  lemma DataReached(st: Start, db: Db, saved: Db, tr: seq<Effect>, tr': seq<Effect>)
    requires Since(st, db, saved, tr') && st.before <= tr <= tr'
    requires forall h <- db.hosts :: DataSent(h, db) in tr'[|tr|..]
    ensures forall h <- db.hosts :: SentData(tr'[|st.before|..], h, st.db)
  {
    hide Grows;
    forall h <- db.hosts
      ensures SentData(tr'[|st.before|..], h, st.db)
    {
      SuffixGrows(tr, tr', |st.before|);
      assert DataSent(h, db) in tr'[|st.before|..];
    }
  }

  lemma DataDone(st: Start, db: Db, saved: Db, tr: seq<Effect>)
    requires Since(st, db, saved, tr) && Memory(db, saved, tr)
    requires forall h <- db.hosts :: SentData(tr[|st.before|..], h, st.db)
    ensures var db' := db.(data := false); Since(st, db', saved, tr) && Memory(db', saved, tr)
  {
    hide WellFormed, Served, Kept, Grows;
    var db' := db.(data := false);
    FlagsCleared(st, db, db', saved, tr);
  }

  lemma StatsDone(st: Start, db: Db, saved: Db, tr: seq<Effect>)
    requires Since(st, db, saved, tr) && Memory(db, saved, tr)
    requires StatsPushed in tr[|st.before|..]
    ensures var db' := db.(stats := false); Since(st, db', saved, tr) && Memory(db', saved, tr)
  {
    hide WellFormed, Served, Kept, Grows;
    var db' := db.(stats := false);
    FlagsCleared(st, db, db', saved, tr);
  }

  lemma EmailDone(st: Start, db: Db, saved: Db, tr: seq<Effect>)
    requires Since(st, db, saved, tr) && Memory(db, saved, tr)
    ensures var db' := db.(email := false);
            && |st.before| <= |tr + [EmailPushed]| && Kept(st.db, db', (tr + [EmailPushed])[|st.before|..])
            && WellFormed(db')
            && forall tr' :: Served(db, tr') ==> Served(db', tr')
  {
    var db' := db.(email := false);
    KeptEmailed(st.db, db, tr[|st.before|..]);
    assert (tr + [EmailPushed])[|st.before|..] == tr[|st.before|..] + [EmailPushed];
    forall tr' | Served(db, tr')
      ensures Served(db', tr')
    {
      FlagsOnly(db, db', tr');
    }
  }

  /** Changes that leave campaigns, versions, builds and hosts alone leave publication alone. */
  lemma FlagsOnly(db: Db, db': Db, tr: seq<Effect>)
    requires Served(db, tr)
    requires db'.sponsors == db.sponsors && db'.versions == db.versions && db'.builds == db.builds
    ensures Served(db', tr)
  {
    forall p, s, i | Campaigned(db', s, i)
      ensures CampaignServed(db', tr, p, s, i)
    {
      assert CampaignServed(db, tr, p, s, i);
    }
  }

  lemma SafeRepeats(e: Effect, saved: Db, tr: seq<Effect>, tr': seq<Effect>)
    requires Safe(e, saved, tr) && !e.Published?
    requires tr' == tr || tr' == tr + [e]
    ensures Safe(e, saved, tr')
  {
    if e.DataSent? && tr' == tr + [e] {
      OutAppend(e.source, saved, tr, e);
    }
  }

  // ---- Edits of the database in memory ----

  lemma Edited(history: seq<Mark>, db: Db, db': Db, tr: seq<Effect>)
    requires Tracks(history, db, tr) && Kept(db, db', [])
    ensures Tracks(history, db', tr)
  {
    assert tr[|tr|..] == [];
    TracksOn(history, db, db', tr, tr);
  }

  /** What an edit of the database in memory must keep. */
  ghost predicate EditKeeps(db: Db, db': Db, saved: Db, tr: seq<Effect>) {
    Memory(db', saved, tr) && Fresh(db', saved) && Kept(db, db', [])
  }

  /** Raising flags and adding channels loses nothing. */
  lemma FlagsRaised(db: Db, db': Db, saved: Db, tr: seq<Effect>)
    requires Memory(db, saved, tr) && Fresh(db, saved) && WellFormed(db')
    requires db' == db.(channels := db'.channels, implHosts := db'.implHosts, builds := db'.builds, data := db'.data,
                        stats := db'.stats, sites := db'.sites, osls := db'.osls)
    requires db.implHosts <= db'.implHosts && (db.data ==> db'.data) && (db.stats ==> db'.stats)
    requires db.sites <= db'.sites && db.osls <= db'.osls
    requires forall p: Platform :: db.builds.Get(p) <= db'.builds.Get(p)
    ensures EditKeeps(db, db', saved, tr)
  {
    forall p, s, i | Campaigned(db', s, i)
      ensures CampaignServed(db', tr, p, s, i)
      ensures Latest(db', p) > Latest(saved, p) ==> Target(db'.sponsors[s][i].channel, s) in db'.builds.Get(p)
    {
      assert Campaigned(db, s, i);
      assert CampaignServed(db, tr, p, s, i);
      assert db.builds.Get(p) <= db'.builds.Get(p);
    }
    KeptSelf(db);
    KeptChange(db, db, db', []);
  }

  lemma SponsorAdded(db: Db, saved: Db, tr: seq<Effect>, s: Id)
    requires Memory(db, saved, tr) && Fresh(db, saved) && s !in db.sponsors
    ensures EditKeeps(db, db.(sponsors := db.sponsors[s := []]), saved, tr)
  {
    hide Done;
    var db' := db.(sponsors := db.sponsors[s := []]);
    forall p, x, i | Campaigned(db', x, i)
      ensures CampaignServed(db', tr, p, x, i) && Campaigned(db, x, i)
    {
      assert Campaigned(db, x, i);
      assert CampaignServed(db, tr, p, x, i);
    }
    KeptSelf(db);
    KeptChange(db, db, db', []);
  }

  /** Naming the account of an email campaign as the default keeps everything. */
  lemma DefaultEmailSet(db: Db, saved: Db, tr: seq<Effect>, account: string)
    requires Memory(db, saved, tr) && Fresh(db, saved) && EmailAccount(db.sponsors, account)
    ensures EditKeeps(db, db.(defaultEmail := Some(account)), saved, tr)
  {
    hide Done, EmailAccount;
    var db' := db.(defaultEmail := Some(account));
    FlagsOnly(db, db', tr);
    FreshIgnoresHosts(db, db', saved);
    forall s, i | Campaigned(db', s, i)
      ensures Campaigned(db, s, i)
    {
    }
    KeptSelf(db);
    KeptChange(db, db, db', []);
  }

  function FlagBoth(builds: PerPlatform<set<Target>>, t: Target): PerPlatform<set<Target>> {
    PerPlatform(builds.windows + {t}, builds.android + {t})
  }

  function Reflagged(db: Db, t: Target): Db {
    db.(builds := FlagBoth(db.builds, t), osls := db.osls + {t.channel})
  }

  lemma ReflaggedTargets(db: Db, builds: PerPlatform<set<Target>>, t: Target)
    requires WellFormed(db) && builds == FlagBoth(db.builds, t) && t.channel in db.channels && t.sponsor in db.sponsors
    ensures forall p: Platform, u: Target :: u in builds.Get(p) ==> u.channel in db.channels && u.sponsor in db.sponsors
  {
    forall p: Platform, u: Target | u in builds.Get(p)
      ensures u.channel in db.channels && u.sponsor in db.sponsors
    {
      assert u in db.builds.Get(p) || u == t;
    }
  }

  function WithCampaign(db: Db, s: Id, c: Campaign): Db
    requires s in db.sponsors
  {
    Reflagged(db.(sponsors := db.sponsors[s := db.sponsors[s] + [c]]), Target(c.channel, s))
  }

  lemma CampaignAdded(db: Db, saved: Db, tr: seq<Effect>, s: Id, c: Campaign)
    requires Memory(db, saved, tr) && Fresh(db, saved) && s in db.sponsors && c.channel in db.channels
    ensures EditKeeps(db, WithCampaign(db, s, c), saved, tr)
  {
    hide Done;
    var db' := WithCampaign(db, s, c);
    forall p, x, i | Campaigned(db', x, i)
      ensures CampaignServed(db', tr, p, x, i) && db'.sponsors[x][i].channel in db'.channels
      ensures Latest(db', p) > Latest(saved, p) ==> Target(db'.sponsors[x][i].channel, x) in db'.builds.Get(p)
    {
      if Campaigned(db, x, i) {
        assert CampaignServed(db, tr, p, x, i);
      } else {
        assert x == s && db'.sponsors[x][i] == c;
      }
    }
    ReflaggedTargets(db, db'.builds, Target(c.channel, s));
    KeptSelf(db);
    KeptChange(db, db, db', []);
  }

  function Renamed(c: Campaign, channel: Id, account: Option<string>, name: string): Campaign {
    if Names(c, channel, account) then c.(bucket := Some(name)) else c
  }

  predicate Names(c: Campaign, channel: Id, account: Option<string>) {
    c.channel == channel && c.account == account
  }

  /** The first n campaigns gone through by a renaming. */
  function RenamedList(cs: seq<Campaign>, channel: Id, account: Option<string>, name: string, n: nat): seq<Campaign>
    requires n <= |cs|
  {
    seq(n, i requires 0 <= i < n => Renamed(cs[i], channel, account, name)) + cs[n..]
  }

  predicate NamesSome(cs: seq<Campaign>, channel: Id, account: Option<string>, n: nat)
    requires n <= |cs|
  {
    exists i :: 0 <= i < n && Names(cs[i], channel, account)
  }

  function RenamedTo(db: Db, s: Id, channel: Id, account: Option<string>, name: string, n: nat): Db
    requires s in db.sponsors && n <= |db.sponsors[s]|
  {
    var cs := db.sponsors[s];
    var db' := db.(sponsors := db.sponsors[s := RenamedList(cs, channel, account, name, n)]);
    if NamesSome(cs, channel, account, n) then Reflagged(db', Target(channel, s)) else db'
  }

  lemma RenamedNone(db: Db, s: Id, channel: Id, account: Option<string>, name: string)
    requires s in db.sponsors
    ensures RenamedTo(db, s, channel, account, name, 0) == db
  {
    assert RenamedList(db.sponsors[s], channel, account, name, 0) == db.sponsors[s];
    assert db.sponsors[s := db.sponsors[s]] == db.sponsors;
  }

  lemma RenamedShape(db: Db, s: Id, channel: Id, account: Option<string>, name: string, n: nat)
    requires s in db.sponsors && n <= |db.sponsors[s]|
    ensures var db' := RenamedTo(db, s, channel, account, name, n);
            s in db'.sponsors && |db'.sponsors[s]| == |db.sponsors[s]|
  {
    hide NamesSome, FlagBoth, Renamed;
  }

  lemma RenamedListMore(cs: seq<Campaign>, channel: Id, account: Option<string>, name: string, n: nat)
    requires n < |cs|
    ensures var cs1, c := RenamedList(cs, channel, account, name, n), cs[n];
            && |cs1| == |cs| && cs1[n] == c
            && RenamedList(cs, channel, account, name, n + 1) ==
               if Names(c, channel, account) then cs1[n := c.(bucket := Some(name))] else cs1
    ensures NamesSome(cs, channel, account, n + 1)
       <==> NamesSome(cs, channel, account, n) || Names(cs[n], channel, account)
  {
  }

  lemma FlagTwice(builds: PerPlatform<set<Target>>, osls: set<Id>, t: Target)
    ensures FlagBoth(FlagBoth(builds, t), t) == FlagBoth(builds, t)
    ensures osls + {t.channel} + {t.channel} == osls + {t.channel}
  {
  }

  lemma RenamedMore(db: Db, s: Id, channel: Id, account: Option<string>, name: string, n: nat)
    requires s in db.sponsors && n < |db.sponsors[s]|
    ensures var db1, c := RenamedTo(db, s, channel, account, name, n), db.sponsors[s][n];
            && Campaigned(db1, s, n) && db1.sponsors[s][n] == c && |db1.sponsors[s]| == |db.sponsors[s]|
            && RenamedTo(db, s, channel, account, name, n + 1) ==
               if Names(c, channel, account) then Reflagged(WithBucket(db1, s, n, name), Target(channel, s)) else db1
  {
    hide RenamedList, NamesSome, Names, FlagBoth;
    RenamedListMore(db.sponsors[s], channel, account, name, n);
    FlagTwice(db.builds, db.osls, Target(channel, s));
    var cs1, c := RenamedList(db.sponsors[s], channel, account, name, n), db.sponsors[s][n];
    var cs2 := cs1[n := c.(bucket := Some(name))];
    assert db.sponsors[s := cs1][s := cs2] == db.sponsors[s := cs2];
  }

  lemma BucketRenamed(db: Db, saved: Db, tr: seq<Effect>, s: Id, i: nat, name: string)
    requires Memory(db, saved, tr) && Fresh(db, saved) && Campaigned(db, s, i)
    ensures EditKeeps(db, Reflagged(WithBucket(db, s, i, name), Target(db.sponsors[s][i].channel, s)), saved, tr)
  {
    hide Done;
    var db' := Reflagged(WithBucket(db, s, i, name), Target(db.sponsors[s][i].channel, s));
    forall p, x, j | Campaigned(db', x, j)
      ensures CampaignServed(db', tr, p, x, j) && db'.sponsors[x][j].channel in db'.channels
      ensures Latest(db', p) > Latest(saved, p) ==> Target(db'.sponsors[x][j].channel, x) in db'.builds.Get(p)
    {
      assert Campaigned(db, x, j);
      assert CampaignServed(db, tr, p, x, j);
    }
    ReflaggedTargets(db, db'.builds, Target(db.sponsors[s][i].channel, s));
    KeptSelf(db);
    KeptChange(db, db, db', []);
  }

  function AllTargets(db: Db): set<Target> {
    set s <- db.sponsors, c <- db.sponsors[s] :: Target(c.channel, s)
  }

  function WithVersion(db: Db, p: Platform): Db {
    db.(versions := db.versions.Put(p, db.versions.Get(p) + [Latest(db, p) + 1]),
        builds := db.builds.Put(p, db.builds.Get(p) + AllTargets(db)),
        data := true)
  }

  lemma VersionWellFormed(db: Db, p: Platform)
    requires WellFormed(db)
    ensures WellFormed(WithVersion(db, p))
  {
    var db' := WithVersion(db, p);
    forall s, i | Campaigned(db', s, i)
      ensures db'.sponsors[s][i].channel in db'.channels
    {
      assert Campaigned(db, s, i);
    }
    forall q: Platform, t: Target | t in db'.builds.Get(q)
      ensures t.channel in db.channels && t.sponsor in db.sponsors
    {
      assert t in db.builds.Get(q) || t in AllTargets(db);
      if t in AllTargets(db) {
        var s, c :| s in db.sponsors && c in db.sponsors[s] && t == Target(c.channel, s);
        var i :| 0 <= i < |db.sponsors[s]| && db.sponsors[s][i] == c;
        assert Campaigned(db, s, i);
      }
    }
    forall q: Platform, i | 0 <= i < |db'.versions.Get(q)|
      ensures db'.versions.Get(q)[i] == i + 1
    {
      assert i < |db.versions.Get(q)| ==> db'.versions.Get(q)[i] == db.versions.Get(q)[i];
    }
  }

  lemma VersionServed(db: Db, tr: seq<Effect>, p: Platform)
    requires Served(db, tr)
    ensures Served(WithVersion(db, p), tr)
  {
    var db' := WithVersion(db, p);
    forall q, s, i | Campaigned(db', s, i)
      ensures CampaignServed(db', tr, q, s, i)
    {
      assert Campaigned(db, s, i);
      assert CampaignServed(db, tr, q, s, i);
    }
  }

  lemma VersionFresh(db: Db, saved: Db, p: Platform)
    requires Fresh(db, saved)
    ensures Fresh(WithVersion(db, p), saved)
  {
    var db' := WithVersion(db, p);
    forall q, s, i | Campaigned(db', s, i) && Latest(db', q) > Latest(saved, q)
      ensures Target(db'.sponsors[s][i].channel, s) in db'.builds.Get(q)
    {
      assert Campaigned(db, s, i);
    }
  }

  lemma VersionAdded(db: Db, saved: Db, tr: seq<Effect>, p: Platform)
    requires Memory(db, saved, tr) && Fresh(db, saved)
    ensures EditKeeps(db, WithVersion(db, p), saved, tr)
  {
    hide Served, Fresh, Done;
    var db' := WithVersion(db, p);
    VersionWellFormed(db, p);
    VersionServed(db, tr, p);
    VersionFresh(db, saved, p);
    assert forall q :: Latest(db, q) <= Latest(db', q);
    hide WellFormed;
    KeptSelf(db);
    KeptChange(db, db, db', []);
  }

  // ---- Hosts and servers ----

  function ServersOn(db: Db, h: Id): set<Id> {
    set id <- db.servers | db.servers[id].hostId == h
  }

  /** The database after a host and its servers are archived. */
  function WithoutHost(db: Db, h: Id): Db
    requires h in db.hosts
  {
    db.(hosts := db.hosts - {h},
        servers := db.servers - ServersOn(db, h),
        deletedServers := db.deletedServers + map id <- ServersOn(db, h) :: db.servers[id],
        toRemove := db.toRemove + {db.hosts[h]},
        implHosts := db.implHosts - {h},
        stats := true)
  }

  lemma HostDropped(db: Db, saved: Db, tr: seq<Effect>, h: Id)
    requires Memory(db, saved, tr) && Fresh(db, saved) && h in db.hosts
    ensures EditKeeps(db, WithoutHost(db, h), saved, tr)
  {
    var db' := WithoutHost(db, h);
    FlagsOnly(db, db', tr);
    forall s, i | Campaigned(db', s, i)
      ensures Campaigned(db, s, i)
    {
    }
    forall o | Owes(db, o)
      ensures Owes(db', o) || Done(o, db, db', [])
    {
    }
  }

  lemma MovedCount<T>(a: set<T>, d: set<T>, moved: set<T>)
    requires moved <= a && a !! d
    ensures |a - moved| + |d + moved| == |a| + |d|
  {
    assert a == (a - moved) + moved;
  }

  lemma ArchivedKeys(db: Db, h: Id)
    requires h in db.hosts
    ensures var db' := WithoutHost(db, h);
            && db'.servers.Keys == db.servers.Keys - ServersOn(db, h)
            && db'.deletedServers.Keys == db.deletedServers.Keys + ServersOn(db, h)
            && ServersOn(db, h) <= db.servers.Keys
  {
  }

  /** Archiving moves servers; it neither makes nor loses any. */
  lemma CountConserved(db: Db, h: Id)
    requires h in db.hosts && db.servers.Keys !! db.deletedServers.Keys
    ensures var db' := WithoutHost(db, h);
            |db'.servers| + |db'.deletedServers| == |db.servers| + |db.deletedServers|
  {
    hide WithoutHost, ServersOn;
    ArchivedKeys(db, h);
    MovedCount(db.servers.Keys, db.deletedServers.Keys, ServersOn(db, h));
  }

  function WithServer(db: Db, host: Host, server: Server): Db {
    db.(hosts := db.hosts[host.id := host], servers := db.servers[server.id := server])
  }

  lemma ServerMeans(db: Db, host: Host, server: Server)
    ensures WithServer(db, host, server) ==
            db.(hosts := db.hosts[host.id := host], servers := db.servers[server.id := server])
  {
  }

  lemma ServerWellFormed(db: Db, host: Host, server: Server)
    requires WellFormed(db) && host.id !in db.hosts && server.hostId == host.id
    requires server.id !in db.servers && server.id !in db.deletedServers
    ensures WellFormed(WithServer(db, host, server)) && Grows(db, WithServer(db, host, server))
  {
    var db' := WithServer(db, host, server);
    forall s, i | Campaigned(db', s, i)
      ensures Campaigned(db, s, i)
    {
    }
  }

  lemma ServerRecorded(db: Db, saved: Db, tr: seq<Effect>, host: Host, server: Server)
    requires Memory(db, saved, tr) && host.id !in db.hosts && server.hostId == host.id
    requires server.id !in db.servers && server.id !in db.deletedServers
    ensures var db' := WithServer(db, host, server); Memory(db', saved, tr) && Grows(db, db')
  {
    hide Served, WellFormed, Grows;
    FlagsOnly(db, WithServer(db, host, server), tr);
    ServerWellFormed(db, host, server);
  }

  /** A new host joins once it has its implementation and its data. */
  lemma ServerAdded(st: Start, db: Db, saved: Db, tr: seq<Effect>, host: Host, server: Server)
    requires Since(st, db, saved, tr) && Memory(db, saved, tr)
    requires host.id !in db.hosts && server.hostId == host.id
    requires server.id !in db.servers && server.id !in db.deletedServers
    requires SetUp(tr[|st.before|..], host.id, st.db)
    ensures Since(st, WithServer(db, host, server), saved, tr)
  {
    hide Done, Served, WellFormed, Grows, SetUp;
    ServerRecorded(db, saved, tr, host, server);
    KeptChange(st.db, db, WithServer(db, host, server), tr[|st.before|..]);
  }

  lemma FreshIgnoresHosts(db: Db, db': Db, saved: Db)
    requires Fresh(db, saved) && db'.sponsors == db.sponsors && db'.versions == db.versions && db'.builds == db.builds
    ensures Fresh(db', saved)
  {
    assert forall s, i :: Campaigned(db', s, i) ==> Campaigned(db, s, i);
  }

  /** The campaigns on a channel. */
  function TargetsOn(db: Db, channel: Id): set<Target> {
    set s <- db.sponsors, c <- db.sponsors[s] | c.channel == channel :: Target(channel, s)
  }

  /** An old server when new ones replace those of a channel: embedded ones stop being embedded unless they
      are permanent, discovery servers stop being discovered today. */
  function Retired(s: Server, channel: Id, embedded: bool, today: int): Server {
    if s.channel != channel then s
    else if embedded then s.(embedded := s.embedded && s.permanent)
    else if s.discovery.Some? && s.discovery.value.start <= today < s.discovery.value.end
    then s.(discovery := Some(s.discovery.value.(end := today)))
    else s
  }

  /** Which old servers change when new ones replace them, and how. */
  lemma RetiredExactly(o: Server, channel: Id, embedded: bool, today: int)
    ensures var r := Retired(o, channel, embedded, today);
            && r == o.(embedded := r.embedded, discovery := r.discovery)
            && r.embedded == (o.embedded && !(embedded && o.channel == channel && !o.permanent))
            && r.discovery == (if !embedded && o.channel == channel && o.discovery.Some?
                                  && o.discovery.value.start <= today && today < o.discovery.value.end
                               then Some(Period(o.discovery.value.start, today)) else o.discovery)
  {
  }

  function AllRetired(servers: map<Id, Server>, channel: Id, embedded: bool, today: int): map<Id, Server> {
    map id <- servers :: Retired(servers[id], channel, embedded, today)
  }

  /** The flags a batch of new servers raises, and the servers it replaces. */
  function Announcing(db: Db, channel: Id, embedded: bool, replace: bool, today: int): Db {
    var targets := if embedded then TargetsOn(db, channel) else {};
    db.(data := true, stats := true,
        servers := if replace then AllRetired(db.servers, channel, embedded, today) else db.servers,
        builds := PerPlatform(db.builds.windows + targets, db.builds.android + targets))
  }

  lemma ServersEdited(db: Db, db': Db, saved: Db, tr: seq<Effect>)
    requires Memory(db, saved, tr) && Fresh(db, saved)
    requires db' == db.(servers := db'.servers) && db'.servers.Keys == db.servers.Keys
    requires forall id <- db.servers :: db'.servers[id].id == id && db'.servers[id].hostId == db.servers[id].hostId
    ensures EditKeeps(db, db', saved, tr)
  {
    hide Done;
    FlagsOnly(db, db', tr);
    FreshIgnoresHosts(db, db', saved);
    forall s, i | Campaigned(db', s, i)
      ensures Campaigned(db, s, i)
    {
    }
    KeptSelf(db);
    KeptChange(db, db, db', []);
  }

  lemma EditsCompose(a: Db, b: Db, c: Db)
    requires Kept(a, b, []) && Kept(b, c, [])
    ensures Kept(a, c, [])
  {
    KeptTransitive(a, b, c, [], []);
    var none: seq<Effect> := [];
    assert none + none == none;
  }

  /** Descent over two stretches of one history. */
  lemma KeptOver(a: Db, b: Db, c: Db, tr: seq<Effect>, tr': seq<Effect>, at: nat)
    requires at <= |tr| && tr <= tr' && Kept(a, b, tr[at..]) && Kept(b, c, tr'[|tr|..])
    ensures Kept(a, c, tr'[at..])
  {
    KeptTransitive(a, b, c, tr[at..], tr'[|tr|..]);
    assert tr'[at..] == tr[at..] + tr'[|tr|..];
  }

  lemma EditKeepsTransitive(a: Db, b: Db, c: Db, saved: Db, tr: seq<Effect>)
    requires EditKeeps(a, b, saved, tr) && EditKeeps(b, c, saved, tr)
    ensures EditKeeps(a, c, saved, tr)
  {
    hide Kept, Memory, Fresh;
    EditsCompose(a, b, c);
  }

  lemma AnnouncingKeeps(db: Db, saved: Db, tr: seq<Effect>, channel: Id, embedded: bool, replace: bool, today: int)
    requires Memory(db, saved, tr) && Fresh(db, saved) && channel in db.channels
    ensures EditKeeps(db, Announcing(db, channel, embedded, replace, today), saved, tr)
  {
    hide Kept;
    var db' := Announcing(db, channel, embedded, replace, today);
    var db1 := db.(servers := db'.servers);
    ServersEdited(db, db1, saved, tr);
    forall p: Platform, t: Target | t in db'.builds.Get(p)
      ensures t.channel in db.channels && t.sponsor in db.sponsors
    {
      assert t in db.builds.Get(p) || t in TargetsOn(db, channel);
    }
    assert forall s, i :: Campaigned(db', s, i) ==> Campaigned(db, s, i);
    FlagsRaised(db1, db', saved, tr);
    EditKeepsTransitive(db, db1, db', saved, tr);
  }

  /** Pruning a list of servers never looks up a host it has already removed. */
  ghost predicate Prunable(servers: seq<Server>, users: Id -> nat) {
    forall i, j :: 0 <= i < j < |servers| && servers[i].hostId == servers[j].hostId ==> users(servers[i].hostId) > 10
  }

  /** The hosts pruning the first n servers removes. */
  function PrunedHosts(servers: seq<Server>, users: Id -> nat, n: nat): set<Id>
    requires n <= |servers|
  {
    set i | 0 <= i < n && users(servers[i].hostId) <= 10 :: servers[i].hostId
  }

  /** The database with a server closed to new clients. */
  function WithoutService(db: Db, id: Id): Db {
    if id in db.servers then db.(servers := db.servers[id := db.servers[id].(enabled := false)]) else db
  }

  /** What pruning does about one server whose host has so many users. */
  function PruneStep(db: Db, server: Server, users: nat): Db {
    if users <= 10 then (if server.hostId in db.hosts then WithoutHost(db, server.hostId) else db)
    else if users < 50 then WithoutService(db, server.id)
    else db
  }

  lemma PruneStepHosts(db: Db, server: Server, users: nat)
    requires server.hostId in db.hosts
    ensures PruneStep(db, server, users).hosts.Keys == db.hosts.Keys - if users <= 10 then {server.hostId} else {}
  {
  }

  function PrunedTo(db: Db, servers: seq<Server>, users: Id -> nat): Db {
    if servers == [] then db
    else
      var n := |servers| - 1;
      PruneStep(PrunedTo(db, servers[..n], users), servers[n], users(servers[n].hostId))
  }

  /** How many servers have hosts with a number of users in the range. */
  function CountUsers(servers: seq<Server>, users: Id -> nat, low: int, high: int): nat {
    if servers == [] then 0
    else
      var n := |servers| - 1;
      CountUsers(servers[..n], users, low, high) + if low < users(servers[n].hostId) < high then 1 else 0
  }

  lemma PrunedMore(db: Db, servers: seq<Server>, users: Id -> nat, k: nat)
    requires k < |servers|
    ensures PrunedTo(db, servers[..k + 1], users) ==
            PruneStep(PrunedTo(db, servers[..k], users), servers[k], users(servers[k].hostId))
    ensures forall low, high :: CountUsers(servers[..k + 1], users, low, high) ==
              CountUsers(servers[..k], users, low, high) + if low < users(servers[k].hostId) < high then 1 else 0
  {
    assert servers[..k + 1][..k] == servers[..k];
  }

  // ---- What a completed deploy has done, flag by flag ----

  /** Everything `a` had flagged went out: implementations to the hosts still there, the builds of every flagged
      campaign to its own bucket on each of its platforms, data to the hosts still there, the pushes, the removals
      at providers with an interface, the sites and the OSLs. */
  ghost predicate CarriedOut(a: Db, b: Db, tr: seq<Effect>) {
    && (forall h <- a.implHosts :: h in b.hosts ==> Implemented(h) in tr)
    && (forall p, s, i :: Flagged(a, p, s, i) ==>
          Campaigned(b, s, i) && Announced(tr, p, s, i, Latest(a, p), b.sponsors[s][i], false))
    && (a.data ==> forall h <- a.hosts :: h in b.hosts ==> SentData(tr, h, a))
    && (a.stats ==> StatsPushed in tr)
    && (a.email ==> EmailPushed in tr)
    && (forall h <- a.toRemove :: h.provider == Linode || h.provider == DigitalOcean ==> ProviderRemoved(h) in tr)
    && (forall s, i :: s in a.sites && Campaigned(a, s, i) ==> SiteUpdated(s, i) in tr)
    && (forall c <- a.osls :: OslPaved(c) in tr)
  }

  /** The campaign is for the platform and its channel and sponsor are flagged there. */
  predicate Flagged(db: Db, p: Platform, s: Id, i: int) {
    && s in db.sponsors && 0 <= i < |db.sponsors[s]|
    && (db.sponsors[s][i].platforms.None? || p in db.sponsors[s][i].platforms.value)
    && Target(db.sponsors[s][i].channel, s) in (if p.Windows? then db.builds.windows else db.builds.android)
  }

  lemma NothingOwed(b: Db, o: Obligation)
    requires NothingFlagged(b)
    ensures !Owes(b, o)
  {
  }

  lemma AllCarriedOut(a: Db, b: Db, tr: seq<Effect>)
    requires Kept(a, b, tr) && NothingFlagged(b)
    ensures CarriedOut(a, b, tr)
  {
    hide Grows, NewHostsSetUp, Relocated, Announced, SentData;
    forall o | Owes(a, o)
      ensures Done(o, a, b, tr)
    {
      NothingOwed(b, o);
    }
    forall p, s, i | Flagged(a, p, s, i)
      ensures Campaigned(b, s, i) && Announced(tr, p, s, i, Latest(a, p), b.sponsors[s][i], false)
    {
      var t := Target(a.sponsors[s][i].channel, s);
      assert Owes(a, NeedBuild(p, t)) && Campaigned(a, t.sponsor, i) && InTarget(a.sponsors[s][i], t, p);
      assert Done(NeedBuild(p, t), a, b, tr);
    }
    forall h <- a.implHosts
      ensures h in b.hosts ==> Implemented(h) in tr
    {
      assert Owes(a, NeedImplementation(h));
    }
    forall h <- a.hosts | a.data
      ensures h in b.hosts ==> SentData(tr, h, a)
    {
      assert Owes(a, NeedData(h));
    }
    forall h <- a.toRemove | h.provider == Linode || h.provider == DigitalOcean
      ensures ProviderRemoved(h) in tr
    {
      assert Owes(a, NeedRemoval(h));
    }
    forall s, i | s in a.sites && Campaigned(a, s, i)
      ensures SiteUpdated(s, i) in tr
    {
      assert Owes(a, NeedSite(s)) && Done(NeedSite(s), a, b, tr);
    }
    forall c <- a.osls
      ensures OslPaved(c) in tr
    {
      assert Owes(a, NeedOsl(c));
    }
    assert Owes(a, NeedStats) <==> a.stats;
    assert Owes(a, NeedEmail) <==> a.email;
  }

  /** The host was sent, by a deploy, the data of a database with these hosts, servers and versions. */
  ghost predicate Broadcast(tr: seq<Effect>, h: Id, db: Db) {
    exists e <- tr :: e.DataSent? && e.host == h && e.source.hosts == db.hosts && e.source.servers == db.servers
                      && e.source.versions == db.versions
  }

  lemma SourceBroadcast(tr: seq<Effect>, h: Id, source: Db, db: Db)
    requires DataSent(h, source) in tr
    requires source.hosts == db.hosts && source.servers == db.servers && source.versions == db.versions
    ensures Broadcast(tr, h, db)
  {
  }

  lemma BroadcastStays(tr: seq<Effect>, tr': seq<Effect>, at: nat, at': nat, h: Id, db: Db)
    requires at' <= at <= |tr| && tr <= tr' && Broadcast(tr[at..], h, db)
    ensures Broadcast(tr'[at'..], h, db)
  {
    var e :| e in tr[at..] && e.DataSent? && e.host == h && e.source.hosts == db.hosts
             && e.source.servers == db.servers && e.source.versions == db.versions;
    var k :| at <= k < |tr| && tr[k] == e;
    assert tr'[at'..][k - at'] == e;
  }

  predicate OnChannel(db: Db, channel: Id, p: Platform, s: Id, i: int) {
    && s in db.sponsors && 0 <= i < |db.sponsors[s]| && db.sponsors[s][i].channel == channel
    && (db.sponsors[s][i].platforms.None? || p in db.sponsors[s][i].platforms.value)
  }

  /** Every campaign of the channel was built anew, put in its bucket and announced. */
  ghost predicate Rebuilt(a: Db, b: Db, channel: Id, tr: seq<Effect>) {
    forall p, s, i :: OnChannel(a, channel, p, s, i) ==>
      Campaigned(b, s, i) && Announced(tr, p, s, i, Latest(a, p), b.sponsors[s][i], false)
  }

  lemma ChannelFlagged(db: Db, channel: Id, replace: bool, today: int, p: Platform, s: Id, i: int)
    requires OnChannel(db, channel, p, s, i)
    ensures Flagged(Announcing(db, channel, true, replace, today), p, s, i)
  {
    assert db.sponsors[s][i] in db.sponsors[s];
    assert Target(channel, s) in TargetsOn(db, channel);
  }

  lemma RebuiltAll(a: Db, launched: Db, b: Db, channel: Id, embedded: bool, replace: bool, today: int,
                   past: seq<Effect>, tr: seq<Effect>)
    requires var flagged := Announcing(a, channel, embedded, replace, today);
             launched == flagged.(hosts := launched.hosts, servers := launched.servers)
    requires CarriedOut(launched, b, tr)
    ensures launched.data && StatsPushed in past + tr
    ensures embedded ==> Rebuilt(a, b, channel, past + tr)
  {
    hide Announced, SentData;
    forall p, s, i | embedded && OnChannel(a, channel, p, s, i)
      ensures Campaigned(b, s, i) && Announced(past + tr, p, s, i, Latest(a, p), b.sponsors[s][i], false)
    {
      ChannelFlagged(a, channel, replace, today, p, s, i);
      assert Flagged(launched, p, s, i);
      AnnouncedWeaken(past, tr, p, s, i, Latest(launched, p), Latest(a, p), b.sponsors[s][i], false);
    }
  }

  // ---- Edits, record by record ----

  lemma RenamedListMeans(cs: seq<Campaign>, channel: Id, account: Option<string>, name: string)
    ensures var cs' := RenamedList(cs, channel, account, name, |cs|);
            && |cs'| == |cs|
            && forall i :: 0 <= i < |cs| ==> (
                 var same := cs[i].channel == channel && cs[i].account == account;
                 cs'[i] == if same then cs[i].(bucket := Some(name)) else cs[i])
    ensures NamesSome(cs, channel, account, |cs|) <==> exists c <- cs :: c.channel == channel && c.account == account
  {
    if c :| c in cs && c.channel == channel && c.account == account {
      var i :| 0 <= i < |cs| && cs[i] == c;
      assert Names(cs[i], channel, account);
    }
  }

  lemma RenamedMeans(db: Db, s: Id, channel: Id, account: Option<string>, name: string)
    requires s in db.sponsors
    ensures var cs, db' := db.sponsors[s], RenamedTo(db, s, channel, account, name, |db.sponsors[s]|);
            && s in db'.sponsors && |db'.sponsors[s]| == |cs|
            && (forall i :: 0 <= i < |cs| ==> (
                  var same := cs[i].channel == channel && cs[i].account == account;
                  db'.sponsors[s][i] == if same then cs[i].(bucket := Some(name)) else cs[i]))
            && ((exists c <- cs :: c.channel == channel && c.account == account) ==>
                  && Target(channel, s) in db'.builds.windows && Target(channel, s) in db'.builds.android
                  && channel in db'.osls)
  {
    RenamedListMeans(db.sponsors[s], channel, account, name);
    hide RenamedList, NamesSome;
  }

  lemma VersionMeans(db: Db, p: Platform)
    requires WellFormed(db)
    ensures var db' := WithVersion(db, p);
            && db'.versions.Get(p) == db.versions.Get(p) + [|db.versions.Get(p)| + 1]
            && forall s, i :: Campaigned(db', s, i) ==> Target(db'.sponsors[s][i].channel, s) in db'.builds.Get(p)
  {
    var vs := db.versions.Get(p);
    assert vs != [] ==> vs[|vs| - 1] == |vs|;
    forall s, i | Campaigned(db, s, i)
      ensures Target(db.sponsors[s][i].channel, s) in AllTargets(db)
    {
      assert db.sponsors[s][i] in db.sponsors[s];
    }
  }

  lemma RemovalMeans(db: Db, h: Id)
    requires h in db.hosts
    ensures var db' := WithoutHost(db, h);
            && db'.hosts == db.hosts - {h} && db'.toRemove == db.toRemove + {db.hosts[h]}
            && h !in db'.implHosts && db'.stats
            && forall id <- db.servers ::
                 if db.servers[id].hostId == h
                 then id !in db'.servers && id in db'.deletedServers && db'.deletedServers[id] == db.servers[id]
                 else id in db'.servers && db'.servers[id] == db.servers[id]
  {
  }

  /** The change opens no server and brings back no server or host. */
  predicate OnlyCloses(db: Db, db': Db) {
    && db'.servers.Keys <= db.servers.Keys && db'.hosts.Keys <= db.hosts.Keys
    && (forall id <- db'.servers :: db'.servers[id].enabled ==> db.servers[id].enabled)
  }

  lemma RemovalCloses(db: Db, h: Id)
    requires h in db.hosts
    ensures var db' := WithoutHost(db, h); OnlyCloses(db, db') && db'.hosts.Keys == db.hosts.Keys - {h}
  {
  }

  lemma ServiceCloses(db: Db, id: Id)
    ensures var db' := WithoutService(db, id);
            OnlyCloses(db, db') && db'.hosts == db.hosts && (id in db'.servers ==> !db'.servers[id].enabled)
  {
  }

  lemma PruneStepOnly(db: Db, server: Server, users: nat)
    ensures var db' := PruneStep(db, server, users);
            && OnlyCloses(db, db')
            && (forall h <- db.hosts :: h in db'.hosts <==> !(users <= 10 && server.hostId == h))
            && (10 < users < 50 && server.id in db'.servers ==> !db'.servers[server.id].enabled)
  {
    hide WithoutHost, WithoutService;
    if server.hostId in db.hosts {
      RemovalCloses(db, server.hostId);
    }
    ServiceCloses(db, server.id);
  }

  lemma {:induction false} PrunedMeans(db: Db, servers: seq<Server>, users: Id -> nat)
    ensures var db' := PrunedTo(db, servers, users);
            && db'.servers.Keys <= db.servers.Keys && db'.hosts.Keys <= db.hosts.Keys
            && (forall h <- db.hosts :: h in db'.hosts <==> !(users(h) <= 10 && exists x <- servers :: x.hostId == h))
            && (forall x <- servers :: 10 < users(x.hostId) < 50 && x.id in db'.servers ==> !db'.servers[x.id].enabled)
  {
    hide PruneStep;
    if servers != [] {
      var n := |servers| - 1;
      PrunedMeans(db, servers[..n], users);
      PruneStepOnly(PrunedTo(db, servers[..n], users), servers[n], users(servers[n].hostId));
      assert servers == servers[..n] + [servers[n]];
    }
  }
}
