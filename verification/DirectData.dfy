/** What data can name that a client cannot download: sent outside a deploy, or read from a renamed bucket. */
module DirectDataSafety {
  import opened Options
  import opened Network
  import opened DeployState

  datatype Slot = Slot(platform: Platform, bucket: string)

  /** Data sent straight to one host can name a version no campaign has yet: here version 1, unpublished. */
  lemma DirectDataCanRunAhead()
    ensures var c := Campaign("C", StaticDownload, None, Some("b"), None, 0);
            var db := EmptyDb.(channels := {"C"}, sponsors := map["S" := [c]]);
            var db' := WithVersion(db, Windows);
            WellFormed(db) && Served(db, []) && Served(db', []) && Fresh(db', db) && !AllOut(db', [])
  {
    var c := Campaign("C", StaticDownload, None, Some("b"), None, 0);
    var db := EmptyDb.(channels := {"C"}, sponsors := map["S" := [c]]);
    var db' := WithVersion(db, Windows);
    assert Served(db, []);
    VersionAdded(db, db, [], Windows);
    assert Promised(db', Windows, "S", 0) && !Ready(c, Windows, 1, []);
  }

  /** Some campaign that publishes to the slot awaits no build. */
  ghost predicate UpToDate(db: Db, k: Slot) {
    exists s, i :: Campaigned(db, s, i) && Speaks(db, s, i, k)
                   && Target(db.sponsors[s][i].channel, s) !in db.builds.Get(k.platform)
  }

  predicate Speaks(db: Db, s: Id, i: int, k: Slot)
    requires Campaigned(db, s, i)
  {
    db.sponsors[s][i].Allows(k.platform) && db.sponsors[s][i].bucket == Some(k.bucket)
  }

  /** A history with the publications to one slot left out. */
  function Without(tr: seq<Effect>, k: Slot): seq<Effect> {
    if tr == [] then []
    else
      var e := tr[|tr| - 1];
      Without(tr[..|tr| - 1], k) + if e.Published? && Slot(e.platform, e.bucket) == k then [] else [e]
  }

  lemma {:induction false} WithoutPublishes(tr: seq<Effect>, k: Slot, p: Platform, b: string)
    ensures LastPublished(Without(tr, k), p, b) == if Slot(p, b) == k then 0 else LastPublished(tr, p, b)
  {
    if tr != [] {
      var n := |tr| - 1;
      WithoutPublishes(tr[..n], k, p, b);
      var e, front := tr[n], Without(tr[..n], k);
      assert front + [] == front && (front + [e])[..|front|] == front;
    }
  }

  lemma UnpublishedStaysServed(db: Db, tr: seq<Effect>, k: Slot)
    requires Served(db, tr) && !UpToDate(db, k)
    ensures Served(db, Without(tr, k))
  {
    forall p, s, i | Campaigned(db, s, i)
      ensures CampaignServed(db, Without(tr, k), p, s, i)
    {
      assert CampaignServed(db, tr, p, s, i);
      var c := db.sponsors[s][i];
      if c.bucket.Some? {
        WithoutPublishes(tr, k, p, c.bucket.value);
        assert Slot(p, c.bucket.value) == k && c.Allows(p) ==> Speaks(db, s, i, k);
      }
    }
  }

  /** The campaign has a bucket that some campaign awaiting no build publishes to. */
  ghost predicate Current(db: Db, p: Platform, s: Id, i: int)
    requires Campaigned(db, s, i)
  {
    db.sponsors[s][i].bucket.Some? && UpToDate(db, Slot(p, db.sponsors[s][i].bucket.value))
  }

  /** Data made from a database is safe after every history that serves it exactly when each campaign the data
      speaks for has a bucket that a campaign awaiting no build publishes to. */
  lemma DirectDataSafeExactly(db: Db, past: seq<Effect>)
    requires Served(db, past)
    ensures (forall tr :: Served(db, tr) ==> AllOut(db, tr))
       <==> forall p, s, i :: Promised(db, p, s, i) ==> Current(db, p, s, i)
  {
    forall p, s, i, tr | Promised(db, p, s, i) && Served(db, tr) && Current(db, p, s, i)
      ensures Ready(db.sponsors[s][i], p, Latest(db, p), tr)
    {
      var k := Slot(p, db.sponsors[s][i].bucket.value);
      var s', i' :| Campaigned(db, s', i') && Speaks(db, s', i', k)
                    && Target(db.sponsors[s'][i'].channel, s') !in db.builds.Get(p);
      assert CampaignServed(db, tr, p, s', i');
    }
    forall p, s, i | Promised(db, p, s, i) && !Current(db, p, s, i)
      ensures exists tr :: Served(db, tr) && !AllOut(db, tr)
    {
      var c := db.sponsors[s][i];
      if c.bucket.Some? {
        var k := Slot(p, c.bucket.value);
        UnpublishedStaysServed(db, past, k);
        WithoutPublishes(past, k, p, c.bucket.value);
        assert !Ready(c, p, Latest(db, p), Without(past, k));
      } else {
        assert !Ready(c, p, Latest(db, p), past);
      }
    }
  }

  // ---- Clients of a bucket no campaign names ----

  /** Some campaign of the database is for the slot. */
  ghost predicate Named(source: Db, k: Slot) {
    exists s, i :: Campaigned(source, s, i) && Speaks(source, s, i, k)
  }

  /** Whatever upgrade the data offers a client of this version is in the client's bucket. */
  ghost predicate OfferIsThere(source: Db, k: Slot, clientVersion: nat, tr: seq<Effect>) {
    CheckUpgrade(source, k.platform, clientVersion).Some? ==>
      Latest(source, k.platform) <= LastPublished(tr, k.platform, k.bucket)
  }

  lemma UnnamedStaysOut(source: Db, tr: seq<Effect>, k: Slot)
    requires AllOut(source, tr) && !Named(source, k)
    ensures AllOut(source, Without(tr, k))
  {
    forall p, s, i | Promised(source, p, s, i)
      ensures Ready(source.sponsors[s][i], p, Latest(source, p), Without(tr, k))
    {
      var b := source.sponsors[s][i].bucket.value;
      WithoutPublishes(tr, k, p, b);
      assert Slot(p, b) == k ==> Speaks(source, s, i, k);
    }
  }

  /** Data that is safe to send is safe for a client exactly when it offers the client nothing or some campaign of
      the data still names the client's bucket. */
  lemma OfferIsThereExactly(source: Db, past: seq<Effect>, k: Slot, clientVersion: nat)
    requires AllOut(source, past)
    ensures (forall tr :: AllOut(source, tr) ==> OfferIsThere(source, k, clientVersion, tr))
       <==> Latest(source, k.platform) <= clientVersion || Named(source, k)
  {
    var p := k.platform;
    forall tr | AllOut(source, tr) && Latest(source, p) > clientVersion && Named(source, k)
      ensures Latest(source, p) <= LastPublished(tr, p, k.bucket)
    {
      var s, i :| Campaigned(source, s, i) && Speaks(source, s, i, k);
      assert Promised(source, p, s, i);
    }
    if Latest(source, p) > clientVersion && !Named(source, k) {
      UnnamedStaysOut(source, past, k);
      WithoutPublishes(past, k, p, k.bucket);
      assert !OfferIsThere(source, k, clientVersion, Without(past, k));
    }
  }

  /** A campaign moved from bucket "old", which holds version 1, to bucket "new", which holds version 2: a client
      from "old" is offered version 2, and its bucket does not have it. */
  lemma RenamedBucketMissesOffer()
    ensures var c := Campaign("C", StaticDownload, None, Some("new"), None, 0);
            var source := EmptyDb.(channels := {"C"}, sponsors := map["S" := [c]], versions := PerPlatform([1, 2], []));
            var tr := [Published(Windows, "S", 0, "old", 1), Published(Windows, "S", 0, "new", 2)];
            && WellFormed(source) && AllOut(source, tr)
            && CheckUpgrade(source, Windows, 1) == Some(2) && LastPublished(tr, Windows, "old") == 1
  {
    var c := Campaign("C", StaticDownload, None, Some("new"), None, 0);
    var source := EmptyDb.(channels := {"C"}, sponsors := map["S" := [c]], versions := PerPlatform([1, 2], []));
    var tr := [Published(Windows, "S", 0, "old", 1), Published(Windows, "S", 0, "new", 2)];
    assert tr[..1] == [tr[0]];
    assert LastPublished(tr[..1], Windows, "old") == 1;
    assert source.builds.Get(Windows) == source.builds.Get(Android) == {};
    assert Latest(source, Android) == 0;
  }
}
