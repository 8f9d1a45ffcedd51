/** The incremental refresh of backend/scraper/incremental_scraper.py: bucket a listing against
    the store, fetch and save the profiles of new and changed contractors one at a time, touch
    only the metadata of the rest, and track the run. The listing fetcher, the profile fetcher,
    the insight generator and the commits that can fail are oracles collected in `Services`. */
module Refresh {
  import opened Common
  import opened Records
  import opened Store
  import opened Classifier
  import opened Runs

  // ---------------------------------------------------------------- bucketing

  /** Where bucketing sends a listing entry; entries without a profile URL go nowhere. */
  datatype Route = Unrouted | NewProfile | RescrapeProfile | MetadataOnly

  /** The bucket of one entry: new when no row has its URL, otherwise as the classifier says. */
  function RouteOf(records: map<string, Contractor>, d: ContractorData): Route {
    if !Present(d.profileUrl) then Unrouted
    else if d.profileUrl.value !in records then NewProfile
    else if ShouldRescrapeProfile(records[d.profileUrl.value], d).rescrape then RescrapeProfile
    else MetadataOnly
  }

  /** The entries of a listing routed to one bucket, in listing order. */
  function Bucket(records: map<string, Contractor>, items: seq<ContractorData>, route: Route): seq<ContractorData>
    decreases |items|
  {
    if items == [] then []
    else
      var d := items[|items| - 1];
      Bucket(records, items[..|items| - 1], route) + (if RouteOf(records, d) == route then [d] else [])
  }

  /** An entry is in a bucket exactly when it is in the listing and routed there. */
  lemma {:induction false} BucketMembers(records: map<string, Contractor>, items: seq<ContractorData>, route: Route, d: ContractorData)
    ensures d in Bucket(records, items, route) <==> d in items && RouteOf(records, d) == route
    decreases |items|
  {
    if items != [] {
      var init := items[..|items| - 1];
      BucketMembers(records, init, route, d);
      assert items == init + [items[|items| - 1]];
    }
  }

  /** Bucketing keeps listing order: the bucket of a concatenation is the concatenation of
      the buckets. */
  lemma {:induction false} BucketAppend(records: map<string, Contractor>, a: seq<ContractorData>, b: seq<ContractorData>, route: Route)
    ensures Bucket(records, a + b, route) == Bucket(records, a, route) + Bucket(records, b, route)
    decreases |b|
  {
    if b == [] {
      assert a + b == a;
    } else {
      var init := b[..|b| - 1];
      BucketAppend(records, a, init, route);
      assert (a + b)[..|a + b| - 1] == a + init;
      assert (a + b)[|a + b| - 1] == b[|b| - 1];
    }
  }

  /** Every entry lands in exactly one of the four routes, so the bucket sizes add up to the
      listing size. */
  lemma {:induction false} BucketSizes(records: map<string, Contractor>, items: seq<ContractorData>)
    ensures |Bucket(records, items, NewProfile)| + |Bucket(records, items, RescrapeProfile)|
      + |Bucket(records, items, MetadataOnly)| + |Bucket(records, items, Unrouted)| == |items|
    decreases |items|
  {
    if items != [] {
      BucketSizes(records, items[..|items| - 1]);
    }
  }

  /** The profile URLs a list of entries names; an entry without a profile URL names none. */
  function Urls(items: seq<ContractorData>): set<string>
    decreases |items|
  {
    if items == [] then {}
    else
      var d := items[|items| - 1];
      Urls(items[..|items| - 1]) + (if Present(d.profileUrl) then {d.profileUrl.value} else {})
  }

  /** A URL is named exactly when it is not empty and some entry carries it. */
  lemma {:induction false} UrlsMembers(items: seq<ContractorData>, u: string)
    ensures u in Urls(items) <==> u != "" && exists k :: 0 <= k < |items| && items[k].profileUrl == Some(u)
    decreases |items|
  {
    if items != [] {
      var n := |items| - 1;
      UrlsMembers(items[..n], u);
      if exists k :: 0 <= k < |items| && items[k].profileUrl == Some(u) {
        var k :| 0 <= k < |items| && items[k].profileUrl == Some(u);
        if k < n {
          assert items[..n][k] == items[k];
        }
      }
      if exists k :: 0 <= k < n && items[..n][k].profileUrl == Some(u) {
        var k :| 0 <= k < n && items[..n][k].profileUrl == Some(u);
        assert items[k] == items[..n][k];
      }
    }
  }

  /** A bucket names no URL its listing does not. */
  lemma {:induction false} BucketUrls(records: map<string, Contractor>, items: seq<ContractorData>, route: Route)
    ensures Urls(Bucket(records, items, route)) <= Urls(items)
    decreases |items|
  {
    if items != [] {
      var init := items[..|items| - 1];
      var d := items[|items| - 1];
      var tail := if RouteOf(records, d) == route then [d] else [];
      BucketUrls(records, init, route);
      UrlsAppend(Bucket(records, init, route), tail);
    }
  }

  /** The URLs of a concatenation are those of its parts. */
  lemma {:induction false} UrlsAppend(a: seq<ContractorData>, b: seq<ContractorData>)
    ensures Urls(a + b) == Urls(a) + Urls(b)
    decreases |b|
  {
    if b == [] {
      assert a + b == a;
    } else {
      var init := b[..|b| - 1];
      UrlsAppend(a, init);
      assert (a + b)[..|a + b| - 1] == a + init;
      assert (a + b)[|a + b| - 1] == b[|b| - 1];
    }
  }

  /** Every entry of a bucket other than the unrouted one has a profile URL. */
  lemma BucketPresent(records: map<string, Contractor>, items: seq<ContractorData>, route: Route)
    requires route != Unrouted
    ensures forall k :: 0 <= k < |Bucket(records, items, route)| ==> Present(Bucket(records, items, route)[k].profileUrl)
  {
    var b := Bucket(records, items, route);
    forall k | 0 <= k < |b|
      ensures Present(b[k].profileUrl)
    {
      BucketMembers(records, items, route, b[k]);
    }
  }

  /** The lookup is by URL equality, so in a store keyed by URL the URL rule never fires. */
  lemma UrlRuleNeverFires(records: map<string, Contractor>, d: ContractorData)
    requires KeyedByUrl(records)
    requires Present(d.profileUrl) && d.profileUrl.value in records
    ensures ShouldRescrapeProfile(records[d.profileUrl.value], d).reason != ProfileUrlChanged
  {
    SameUrlNeverFires(records[d.profileUrl.value], d);
  }

  // ---------------------------------------------------------------- per-profile processing

  /** The profile loop an entry is processed in; the oracles are indexed by it. */
  datatype Phase = NewPhase | RescrapePhase

  /** What the profile page yields: a description and the raw certification entries. */
  datatype Profile = Profile(description: Option<string>, certifications: seq<string>)

  /** The listing fetch: the field dictionaries, or the text of the exception it raised. */
  datatype Listing = Listed(items: seq<ContractorData>) | ListingFailed(message: string)

  /** The outside world of one refresh. For the i-th entry of a profile loop:
      `profile` is None when the profile fetch raises; `saveFault` is the error of the commit
      saving the entry, if any; `insight` is the generated text, None when generation raises;
      `insightFault` says whether the commit storing the insight fails. `metadataFault` is the
      error of the metadata commit, if any. */
  datatype Services = Services(
    listing: Listing,
    profile: (Phase, nat) -> Option<Profile>,
    saveFault: (Phase, nat) -> Option<string>,
    insight: (Phase, nat) -> Option<string>,
    insightFault: (Phase, nat) -> bool,
    metadataFault: Option<string>)

  /** The entry with the fetched description and certifications written into it. */
  function WithProfile(d: ContractorData, p: Profile): ContractorData {
    d.(description := p.description, certifications := p.certifications)
  }

  /** Storing a generated insight: a non-empty insight replaces the row's insights by the
      one-element list, when the row exists and the commit succeeds. */
  function WithInsight(records: map<string, Contractor>, url: Option<string>, insight: Option<string>, fault: bool): (r: map<string, Contractor>)
    ensures r.Keys == records.Keys
    ensures forall u :: u in records && (url != Some(u) || !Present(insight) || fault) ==> r[u] == records[u]
    ensures Present(insight) && !fault && url.Some? && url.value in records ==>
      r[url.value] == records[url.value].(aiInsights := [insight.value])
  {
    if Present(insight) && !fault && url.Some? && url.value in records then
      records[url.value := records[url.value].(aiInsights := [insight.value])]
    else records
  }

  /** What a profile loop counts from the one-entry batch: inserts for new entries, updates for
      changed ones. */
  function Gain(phase: Phase, stats: BatchStats): nat {
    if phase == NewPhase then stats.inserted else stats.updated
  }

  /** One entry of a profile loop. A fetch that raises or a save that fails ends the entry with
      nothing changed and nothing counted; a failure to produce or store an insight loses only
      the insight. */
  ghost function ItemSpec(records: map<string, Contractor>, phase: Phase, i: nat, d: ContractorData, env: Services, now: nat): (map<string, Contractor>, nat) {
    match env.profile(phase, i)
    case None => (records, 0)
    case Some(p) =>
      var item := WithProfile(d, p);
      if env.saveFault(phase, i).Some? then (records, 0)
      else
        var (saved, stats) := BatchSpec(records, [item], now);
        (WithInsight(saved, item.profileUrl, env.insight(phase, i), env.insightFault(phase, i)), Gain(phase, stats))
  }

  /** A whole profile loop: the entries one after the other, each on the store the previous
      ones left. */
  ghost function ProcessSpec(records: map<string, Contractor>, phase: Phase, items: seq<ContractorData>, env: Services, now: nat): (map<string, Contractor>, nat)
    decreases |items|
  {
    if items == [] then (records, 0)
    else
      var (before, count) := ProcessSpec(records, phase, items[..|items| - 1], env, now);
      var (after, gain) := ItemSpec(before, phase, |items| - 1, items[|items| - 1], env, now);
      (after, count + gain)
  }

  lemma ProcessSpecStep(records: map<string, Contractor>, phase: Phase, items: seq<ContractorData>, i: int, env: Services, now: nat)
    requires 0 <= i < |items|
    ensures var (before, count) := ProcessSpec(records, phase, items[..i], env, now);
      var (after, gain) := ItemSpec(before, phase, i, items[i], env, now);
      ProcessSpec(records, phase, items[..i + 1], env, now) == (after, count + gain)
  {
    assert items[..i + 1][..i] == items[..i];
  }

  /** One entry counts at most once. */
  lemma ItemGainAtMostOne(records: map<string, Contractor>, phase: Phase, i: nat, d: ContractorData, env: Services, now: nat)
    ensures ItemSpec(records, phase, i, d, env, now).1 <= 1
  {
    if env.profile(phase, i).Some? {
      BatchCounts(records, [WithProfile(d, env.profile(phase, i).value)], now);
    }
  }

  /** A profile loop counts at most one per entry: new_contractors is at most the size of the
      new bucket and profiles_rescraped at most the size of the rescrape bucket. */
  lemma {:induction false} ProcessCountBound(records: map<string, Contractor>, phase: Phase, items: seq<ContractorData>, env: Services, now: nat)
    ensures ProcessSpec(records, phase, items, env, now).1 <= |items|
    decreases |items|
  {
    if items != [] {
      var init := items[..|items| - 1];
      ProcessCountBound(records, phase, init, env, now);
      ItemGainAtMostOne(ProcessSpec(records, phase, init, env, now).0, phase, |items| - 1, items[|items| - 1], env, now);
    }
  }

  /** A profile loop keeps the store keyed by URL and loses no row. */
  lemma {:induction false} ProcessKeyed(records: map<string, Contractor>, phase: Phase, items: seq<ContractorData>, env: Services, now: nat)
    requires KeyedByUrl(records)
    ensures KeyedByUrl(ProcessSpec(records, phase, items, env, now).0)
    ensures records.Keys <= ProcessSpec(records, phase, items, env, now).0.Keys
    decreases |items|
  {
    if items != [] {
      var init := items[..|items| - 1];
      ProcessKeyed(records, phase, init, env, now);
      var before := ProcessSpec(records, phase, init, env, now).0;
      var i := |items| - 1;
      if env.profile(phase, i).Some? && env.saveFault(phase, i).None? {
        BatchKeyed(before, [WithProfile(items[i], env.profile(phase, i).value)], now);
      }
    }
  }

  /** One entry with a profile URL touches at most the row under that URL, and adds no other
      row. */
  lemma ItemFrame(records: map<string, Contractor>, phase: Phase, i: nat, d: ContractorData, env: Services, now: nat)
    requires Present(d.profileUrl)
    ensures var after := ItemSpec(records, phase, i, d, env, now).0;
      && records.Keys <= after.Keys <= records.Keys + Urls([d])
      && forall u :: u in records && u !in Urls([d]) ==> after[u] == records[u]
  {
    assert [d][..0] == [];
    if env.profile(phase, i).Some? && env.saveFault(phase, i).None? {
      var item := WithProfile(d, env.profile(phase, i).value);
      SingletonBatch(records, item, now);
      forall u | u in records
        ensures u in UpsertSpec(records, item, now).0
        ensures u !in Urls([d]) ==> UpsertSpec(records, item, now).0[u] == records[u]
      {
        UpsertFrame(records, item, now, u);
      }
    }
  }

  /** A profile loop over entries with profile URLs, as the buckets are, adds rows only under
      URLs its entries name, and leaves every row whose URL no entry names exactly as it was. */
  lemma {:induction false} ProcessFrame(records: map<string, Contractor>, phase: Phase, items: seq<ContractorData>, env: Services, now: nat)
    requires forall k :: 0 <= k < |items| ==> Present(items[k].profileUrl)
    ensures var after := ProcessSpec(records, phase, items, env, now).0;
      && records.Keys <= after.Keys <= records.Keys + Urls(items)
      && forall u :: u in records && u !in Urls(items) ==> after[u] == records[u]
    decreases |items|
  {
    if items != [] {
      var n := |items| - 1;
      var init := items[..n];
      ProcessFrame(records, phase, init, env, now);
      ItemFrame(ProcessSpec(records, phase, init, env, now).0, phase, n, items[n], env, now);
      UrlsAppend(init, [items[n]]);
      assert init + [items[n]] == items;
    }
  }

  /** Failure isolation: an entry whose profile fetch raises, or whose save fails, leaves the
      store and the counter exactly as the entries before it left them, and the loop goes on
      with the next entry. */
  lemma FailedItemSkipped(records: map<string, Contractor>, phase: Phase, items: seq<ContractorData>, k: int, env: Services, now: nat)
    requires 0 <= k < |items|
    requires env.profile(phase, k).None? || env.saveFault(phase, k).Some?
    ensures ProcessSpec(records, phase, items[..k + 1], env, now) == ProcessSpec(records, phase, items[..k], env, now)
  {
    ProcessSpecStep(records, phase, items, k, env, now);
  }

  /** A new entry whose profile is fetched and saved is counted once and lands in the store
      under its URL with the fingerprint of the fetched fields. */
  lemma NewItemInserted(records: map<string, Contractor>, i: nat, d: ContractorData, env: Services, now: nat)
    requires Present(d.profileUrl) && d.profileUrl.value !in records
    requires env.profile(NewPhase, i).Some? && env.saveFault(NewPhase, i).None?
    ensures var (after, gain) := ItemSpec(records, NewPhase, i, d, env, now);
      && gain == 1
      && d.profileUrl.value in after
      && after[d.profileUrl.value].dataHash == DataHash(WithProfile(d, env.profile(NewPhase, i).value))
  {
    var item := WithProfile(d, env.profile(NewPhase, i).value);
    SingletonBatch(records, item, now);
    UpsertSyncs(records, item, now);
  }

  /** A re-scraped entry counts as rescraped exactly when the fetched fields change the
      stored fingerprint. */
  lemma RescrapeCountsChange(records: map<string, Contractor>, i: nat, d: ContractorData, env: Services, now: nat)
    requires Present(d.profileUrl) && d.profileUrl.value in records
    requires env.profile(RescrapePhase, i).Some? && env.saveFault(RescrapePhase, i).None?
    ensures var item := WithProfile(d, env.profile(RescrapePhase, i).value);
      ItemSpec(records, RescrapePhase, i, d, env, now).1 == 1 <==> records[d.profileUrl.value].dataHash != DataHash(item)
  {
    var item := WithProfile(d, env.profile(RescrapePhase, i).value);
    SingletonBatch(records, item, now);
    ModifiedIffHashDiffers(records, item, now);
    assert ItemSpec(records, RescrapePhase, i, d, env, now).1 == BatchSpec(records, [item], now).1.updated;
  }

  // ---------------------------------------------------------------- metadata-only update

  /** A metadata field is written when the listing value is truthy and not the stored one. */
  predicate Improves(incoming: Option<int>, stored: Option<int>) {
    NonZero(incoming) && stored != incoming
  }

  /** Some metadata field is written. */
  predicate MetadataChanged(e: Contractor, d: ContractorData) {
    Improves(d.rating, e.rating) || Improves(d.reviewsCount, e.reviewsCount) || Improves(d.distance, e.distance)
  }

  /** The row after a metadata-only update: rating, review count and distance each take the
      listing value when it is truthy and differs, the scrape time is set, and nothing else
      (the fingerprint included) moves. */
  function Refreshed(e: Contractor, d: ContractorData, now: nat): (r: Contractor)
    ensures r.(rating := e.rating, reviewsCount := e.reviewsCount, distance := e.distance, lastScrapedAt := e.lastScrapedAt) == e
    ensures r.dataHash == e.dataHash && r.lastScrapedAt == now
    ensures r.rating != e.rating ==> NonZero(d.rating) && r.rating == d.rating
    ensures r.reviewsCount != e.reviewsCount ==> NonZero(d.reviewsCount) && r.reviewsCount == d.reviewsCount
    ensures r.distance != e.distance ==> NonZero(d.distance) && r.distance == d.distance
    ensures Improves(d.rating, e.rating) ==> r.rating == d.rating
    ensures Improves(d.reviewsCount, e.reviewsCount) ==> r.reviewsCount == d.reviewsCount
    ensures Improves(d.distance, e.distance) ==> r.distance == d.distance
    ensures MetadataChanged(e, d) <==> (r.rating, r.reviewsCount, r.distance) != (e.rating, e.reviewsCount, e.distance)
  {
    e.(rating := if Improves(d.rating, e.rating) then d.rating else e.rating,
       reviewsCount := if Improves(d.reviewsCount, e.reviewsCount) then d.reviewsCount else e.reviewsCount,
       distance := if Improves(d.distance, e.distance) then d.distance else e.distance,
       lastScrapedAt := now)
  }

  datatype MetadataStats = MetadataStats(updated: nat, unmodified: nat)

  /** _update_metadata_only over a list: each entry whose URL has a row refreshes it and counts
      as updated or unchanged; other entries are passed over. */
  function MetadataSpec(records: map<string, Contractor>, items: seq<ContractorData>, now: nat): (map<string, Contractor>, MetadataStats)
    decreases |items|
  {
    if items == [] then (records, MetadataStats(0, 0))
    else
      var (before, stats) := MetadataSpec(records, items[..|items| - 1], now);
      var d := items[|items| - 1];
      if Present(d.profileUrl) && d.profileUrl.value in before then
        var url := d.profileUrl.value;
        (before[url := Refreshed(before[url], d, now)],
         if MetadataChanged(before[url], d) then stats.(updated := stats.updated + 1)
         else stats.(unmodified := stats.unmodified + 1))
      else (before, stats)
  }

  /** The entries whose URL has a row. */
  function Known(records: map<string, Contractor>, items: seq<ContractorData>): nat
    decreases |items|
  {
    if items == [] then 0
    else
      var d := items[|items| - 1];
      Known(records, items[..|items| - 1]) + (if Present(d.profileUrl) && d.profileUrl.value in records then 1 else 0)
  }

  /** The metadata update adds and removes no row, keeps the store keyed by URL, and changes
      each row at most in rating, review count, distance and scrape time. */
  lemma {:induction false} MetadataFrame(records: map<string, Contractor>, items: seq<ContractorData>, now: nat)
    requires KeyedByUrl(records)
    ensures var after := MetadataSpec(records, items, now).0;
      && after.Keys == records.Keys
      && KeyedByUrl(after)
      && (forall u :: u in records ==>
           after[u].(rating := records[u].rating, reviewsCount := records[u].reviewsCount,
                     distance := records[u].distance, lastScrapedAt := records[u].lastScrapedAt) == records[u])
      && (forall u :: u in records && u !in Urls(items) ==> after[u] == records[u])
      && (forall u :: u in records && u in Urls(items) ==> after[u].lastScrapedAt == now)
    decreases |items|
  {
    if items != [] {
      MetadataFrame(records, items[..|items| - 1], now);
    }
  }

  /** Every entry with a row is counted exactly once, as updated or unchanged:
      updated + unchanged is the number of known entries, hence at most the input size. */
  lemma {:induction false} MetadataCounts(records: map<string, Contractor>, items: seq<ContractorData>, now: nat)
    requires KeyedByUrl(records)
    ensures var s := MetadataSpec(records, items, now).1;
      s.updated + s.unmodified == Known(records, items) <= |items|
    decreases |items|
  {
    if items != [] {
      MetadataCounts(records, items[..|items| - 1], now);
      MetadataFrame(records, items[..|items| - 1], now);
    }
  }

  // ---------------------------------------------------------------- the whole refresh

  /** The statistics incremental_refresh returns. */
  datatype RefreshStats = RefreshStats(totalFound: nat, newContractors: nat, profilesRescraped: nat, unmodified: nat, updatedMetadata: nat)

  /** A refresh returns its statistics or re-raises an exception with this text. */
  datatype RefreshOutcome = Done(stats: RefreshStats) | Raised(message: string)

  /** The refresh: bucket against the store as it was, run the new then the rescrape loop,
      then the metadata update when its bucket is not empty. A failed listing fetch changes
      nothing; a failed metadata commit keeps what the profile loops saved. */
  ghost function RefreshSpec(records: map<string, Contractor>, env: Services, now: nat): (map<string, Contractor>, RefreshOutcome) {
    match env.listing
    case ListingFailed(message) => (records, Raised(message))
    case Listed(items) =>
      var (afterNew, added) := ProcessSpec(records, NewPhase, Bucket(records, items, NewProfile), env, now);
      var (afterRescrape, rescraped) := ProcessSpec(afterNew, RescrapePhase, Bucket(records, items, RescrapeProfile), env, now);
      var metadata := Bucket(records, items, MetadataOnly);
      if metadata == [] then (afterRescrape, Done(RefreshStats(|items|, added, rescraped, 0, 0)))
      else if env.metadataFault.Some? then (afterRescrape, Raised(env.metadataFault.value))
      else
        var (after, m) := MetadataSpec(afterRescrape, metadata, now);
        (after, Done(RefreshStats(|items|, added, rescraped, m.unmodified, m.updated)))
  }

  /** The counters of a successful refresh: total_found is the listing size, and each other
      counter is bounded by its bucket. */
  lemma RefreshBounds(records: map<string, Contractor>, env: Services, now: nat)
    requires KeyedByUrl(records)
    requires env.listing.Listed? && RefreshSpec(records, env, now).1.Done?
    ensures var items := env.listing.items;
      var s := RefreshSpec(records, env, now).1.stats;
      && s.totalFound == |items|
      && s.newContractors <= |Bucket(records, items, NewProfile)|
      && s.profilesRescraped <= |Bucket(records, items, RescrapeProfile)|
      && s.updatedMetadata + s.unmodified <= |Bucket(records, items, MetadataOnly)|
  {
    var items := env.listing.items;
    var added := Bucket(records, items, NewProfile);
    var rescrape := Bucket(records, items, RescrapeProfile);
    ProcessCountBound(records, NewPhase, added, env, now);
    var afterNew := ProcessSpec(records, NewPhase, added, env, now).0;
    ProcessCountBound(afterNew, RescrapePhase, rescrape, env, now);
    ProcessKeyed(records, NewPhase, added, env, now);
    ProcessKeyed(afterNew, RescrapePhase, rescrape, env, now);
    MetadataCounts(ProcessSpec(afterNew, RescrapePhase, rescrape, env, now).0, Bucket(records, items, MetadataOnly), now);
  }

  /** A refresh, whatever its outcome, keeps the store keyed by URL and loses no row. */
  lemma RefreshKeyed(records: map<string, Contractor>, env: Services, now: nat)
    requires KeyedByUrl(records)
    ensures KeyedByUrl(RefreshSpec(records, env, now).0)
    ensures records.Keys <= RefreshSpec(records, env, now).0.Keys
  {
    if env.listing.Listed? {
      var items := env.listing.items;
      var added := Bucket(records, items, NewProfile);
      var rescrape := Bucket(records, items, RescrapeProfile);
      ProcessKeyed(records, NewPhase, added, env, now);
      var afterNew := ProcessSpec(records, NewPhase, added, env, now).0;
      ProcessKeyed(afterNew, RescrapePhase, rescrape, env, now);
      MetadataFrame(ProcessSpec(afterNew, RescrapePhase, rescrape, env, now).0, Bucket(records, items, MetadataOnly), now);
    }
  }

  /** A refresh adds rows only under URLs the listing names and leaves every row whose URL the
      listing never names exactly as it was; a failed listing fetch changes nothing. */
  lemma RefreshFrame(records: map<string, Contractor>, env: Services, now: nat)
    requires KeyedByUrl(records)
    ensures env.listing.ListingFailed? ==> RefreshSpec(records, env, now).0 == records
    ensures env.listing.Listed? ==>
      var after := RefreshSpec(records, env, now).0;
      && records.Keys <= after.Keys <= records.Keys + Urls(env.listing.items)
      && forall u :: u in records && u !in Urls(env.listing.items) ==> after[u] == records[u]
  {
    if env.listing.Listed? {
      var items := env.listing.items;
      var added := Bucket(records, items, NewProfile);
      var rescrape := Bucket(records, items, RescrapeProfile);
      var metadata := Bucket(records, items, MetadataOnly);
      BucketPresent(records, items, NewProfile);
      BucketPresent(records, items, RescrapeProfile);
      BucketUrls(records, items, NewProfile);
      BucketUrls(records, items, RescrapeProfile);
      BucketUrls(records, items, MetadataOnly);
      ProcessFrame(records, NewPhase, added, env, now);
      ProcessKeyed(records, NewPhase, added, env, now);
      var afterNew := ProcessSpec(records, NewPhase, added, env, now).0;
      ProcessFrame(afterNew, RescrapePhase, rescrape, env, now);
      ProcessKeyed(afterNew, RescrapePhase, rescrape, env, now);
      MetadataFrame(ProcessSpec(afterNew, RescrapePhase, rescrape, env, now).0, metadata, now);
    }
  }

  /** The metadata update replies with its counters or with the error of its commit. */
  datatype MetadataReply = MetadataSaved(stats: MetadataStats) | MetadataFailed(message: string)

  /** The refresh engine over one store. */
  class IncrementalScraper {
    const db: ContractorDb

    constructor(db: ContractorDb)
      ensures this.db == db
    {
      this.db := db;
    }

    /** Step 2: route each listing entry, appending it to its bucket. */
    method ClassifyListing(items: seq<ContractorData>) returns (added: seq<ContractorData>, rescrape: seq<ContractorData>, metadata: seq<ContractorData>)
      ensures added == Bucket(db.records, items, NewProfile)
      ensures rescrape == Bucket(db.records, items, RescrapeProfile)
      ensures metadata == Bucket(db.records, items, MetadataOnly)
    {
      added, rescrape, metadata := [], [], [];
      for i := 0 to |items|
        invariant added == Bucket(db.records, items[..i], NewProfile)
        invariant rescrape == Bucket(db.records, items[..i], RescrapeProfile)
        invariant metadata == Bucket(db.records, items[..i], MetadataOnly)
      {
        assert items[..i + 1][..i] == items[..i];
        var d := items[i];
        if Present(d.profileUrl) {
          var url := d.profileUrl.value;
          if url !in db.records {
            added := added + [d];
          } else {
            var decision := ShouldRescrapeProfile(db.records[url], d);
            if decision.rescrape {
              rescrape := rescrape + [d];
            } else {
              metadata := metadata + [d];
            }
          }
        }
      }
      assert items[..|items|] == items;
    }

    /** Store a generated insight on the row with this URL. */
    method StoreInsight(url: Option<string>, insight: Option<string>, fault: bool)
      requires db.Valid()
      modifies db
      ensures db.Valid()
      ensures db.records == WithInsight(old(db.records), url, insight, fault)
    {
      if Present(insight) && !fault && url.Some? && url.value in db.records {
        db.records := db.records[url.value := db.records[url.value].(aiInsights := [insight.value])];
      }
    }

    /** One entry of a profile loop: fetch its profile, save it merged into the entry in a
        batch of one, and generate and store its insight. */
    method ProcessItem(phase: Phase, i: nat, d: ContractorData, env: Services, now: nat) returns (gain: nat)
      requires db.Valid()
      modifies db
      ensures db.Valid()
      ensures (db.records, gain) == ItemSpec(old(db.records), phase, i, d, env, now)
    {
      gain := 0;
      var p := env.profile(phase, i);
      if p.Some? {
        var item := WithProfile(d, p.value);
        var reply := db.SaveContractorsBatch([item], now, env.saveFault(phase, i));
        if reply.Saved? {
          gain := Gain(phase, reply.stats);
          StoreInsight(item.profileUrl, env.insight(phase, i), env.insightFault(phase, i));
        }
      }
    }

    /** Steps 3 and 4: fetch, save and annotate the entries of one bucket, one at a time,
        going on past entries that fail. */
    method ProcessProfiles(phase: Phase, items: seq<ContractorData>, env: Services, now: nat) returns (count: nat)
      requires db.Valid()
      modifies db
      ensures db.Valid()
      ensures (db.records, count) == ProcessSpec(old(db.records), phase, items, env, now)
    {
      ghost var init := db.records;
      count := 0;
      for i := 0 to |items|
        invariant db.Valid()
        invariant (db.records, count) == ProcessSpec(init, phase, items[..i], env, now)
      {
        ProcessSpecStep(init, phase, items, i, env, now);
        var gain := ProcessItem(phase, i, items[i], env, now);
        count := count + gain;
      }
      assert items[..|items|] == items;
    }

    /** The row update of _update_metadata_only for one entry: each of rating, review count
        and distance is copied when the listing value is truthy and differs, and the scrape
        time is set. */
    method RefreshRow(stored: Contractor, d: ContractorData, now: nat) returns (row: Contractor, changed: bool)
      ensures row == Refreshed(stored, d, now)
      ensures changed <==> MetadataChanged(stored, d)
    {
      row := stored;
      changed := false;
      if NonZero(d.rating) && row.rating != d.rating {
        row := row.(rating := d.rating);
        changed := true;
      }
      if NonZero(d.reviewsCount) && row.reviewsCount != d.reviewsCount {
        row := row.(reviewsCount := d.reviewsCount);
        changed := true;
      }
      if NonZero(d.distance) && row.distance != d.distance {
        row := row.(distance := d.distance);
        changed := true;
      }
      row := row.(lastScrapedAt := now);
    }

    /** _update_metadata_only: refresh the three metadata fields and the scrape time of every
        entry with a row, in one session whose commit may fail. */
    method UpdateMetadataOnly(items: seq<ContractorData>, now: nat, commitError: Option<string>) returns (reply: MetadataReply)
      requires db.Valid()
      modifies db
      ensures db.Valid()
      ensures commitError.Some? ==> db.records == old(db.records) && reply == MetadataFailed(commitError.value)
      ensures commitError.None? ==>
        (db.records, reply) == (MetadataSpec(old(db.records), items, now).0, MetadataSaved(MetadataSpec(old(db.records), items, now).1))
    {
      var saved := db.records;
      var stats := MetadataStats(0, 0);
      for i := 0 to |items|
        invariant db.Valid()
        invariant (db.records, stats) == MetadataSpec(saved, items[..i], now)
      {
        assert items[..i + 1][..i] == items[..i];
        var d := items[i];
        if Present(d.profileUrl) && d.profileUrl.value in db.records {
          var url := d.profileUrl.value;
          var existing, changed := RefreshRow(db.records[url], d, now);
          db.records := db.records[url := existing];
          if changed {
            stats := stats.(updated := stats.updated + 1);
          } else {
            stats := stats.(unmodified := stats.unmodified + 1);
          }
        }
      }
      assert items[..|items|] == items;
      if commitError.Some? {
        db.records := saved;
        return MetadataFailed(commitError.value);
      }
      return MetadataSaved(stats);
    }

    /** incremental_refresh: create the run as running, then fetch, bucket, process and
        update; on success complete the run with its counters, on an exception mark it failed
        with the exception's text and re-raise. */
    method IncrementalRefresh(zipcode: string, distance: nat, env: Services, now: nat) returns (outcome: RefreshOutcome, run: ScrapeRun)
      requires db.Valid()
      modifies db
      ensures db.Valid()
      ensures (db.records, outcome) == RefreshSpec(old(db.records), env, now)
      ensures fresh(run) && run.Valid()
      ensures run.zipcode == zipcode && run.distance == distance && run.startedAt == now
      ensures run.completedAt == Some(now)
      ensures outcome.Done? ==>
        && run.history == [Running, Completed]
        && run.contractorsFound == Some(outcome.stats.totalFound)
        && run.contractorsNew == Some(outcome.stats.newContractors)
        && run.contractorsUpdated == Some(outcome.stats.profilesRescraped + outcome.stats.updatedMetadata)
      ensures outcome.Raised? ==> run.history == [Running, Failed] && run.errorMessage == Some(outcome.message)
    {
      run := new ScrapeRun(zipcode, distance, now);
      if env.listing.ListingFailed? {
        run.Fail(env.listing.message, now);
        outcome := Raised(env.listing.message);
        return;
      }
      var items := env.listing.items;
      var added, rescrape, metadata := ClassifyListing(items);
      var addedCount := ProcessProfiles(NewPhase, added, env, now);
      var rescrapedCount := ProcessProfiles(RescrapePhase, rescrape, env, now);
      var updatedCount, unchangedCount := 0, 0;
      if metadata != [] {
        var reply := UpdateMetadataOnly(metadata, now, env.metadataFault);
        if reply.MetadataFailed? {
          run.Fail(reply.message, now);
          outcome := Raised(reply.message);
          return;
        }
        updatedCount, unchangedCount := reply.stats.updated, reply.stats.unmodified;
      }
      run.Complete(|items|, addedCount, rescrapedCount + updatedCount, now);
      outcome := Done(RefreshStats(|items|, addedCount, rescrapedCount, unchangedCount, updatedCount));
    }
  }
}
