/** The contractor store of backend/db/connection.py: the change fingerprint, the insert-or-update
    keyed by profile URL and the batch save with its counters. */
module Store {
  import opened Common
  import opened Records
  import opened Text
  import opened Normalize

  // ---------------------------------------------------------------------------
  // Fingerprint (calculate_data_hash)
  // ---------------------------------------------------------------------------

  /** calculate_data_hash: the fingerprint of a field dictionary. The digest is modelled by the
      tuple it digests; `location` is taken from the dictionary's `city`, and the phone is the
      raw one, before any cleaning. */
  function DataHash(d: ContractorData): ContentKey {
    ContentKey(d.name, d.phone, d.city, d.rating, d.reviewsCount, d.description)
  }

  /** The six fields the fingerprint covers agree. */
  predicate SameKeyFields(d: ContractorData, e: ContractorData) {
    && d.name == e.name && d.phone == e.phone && d.city == e.city
    && d.rating == e.rating && d.reviewsCount == e.reviewsCount && d.description == e.description
  }

  /** Two dictionaries have the same fingerprint exactly when the six covered fields agree. */
  lemma DataHashIff(d: ContractorData, e: ContractorData)
    ensures DataHash(d) == DataHash(e) <==> SameKeyFields(d, e)
  {
  }

  /** Neither the distance, the profile URL nor the certifications take part in the fingerprint. */
  lemma DataHashIgnores(d: ContractorData, distance: Option<Hundredths>, url: Option<string>, certs: seq<string>)
    ensures DataHash(d.(distance := distance, profileUrl := url, certifications := certs)) == DataHash(d)
  {
  }

  // ---------------------------------------------------------------------------
  // Insert or update (upsert_contractor)
  // ---------------------------------------------------------------------------

  /** What upsert_contractor hands back: the ValueError for a missing URL, or the record with
      is_new. */
  datatype UpsertReply = ProfileUrlRequired | Upserted(contractor: Contractor, isNew: bool)

  /** The row inserted for an unknown URL. `certs` are the cleaned certifications; the scrape
      time is the column's server default, the insight and evaluation columns start empty. */
  function NewContractor(url: string, d: ContractorData, certs: seq<string>, now: nat): (c: Contractor) {
    Contractor(
      ExtractGafId(Some(url)), d.name, CleanPhoneNumber(d.phone), d.city, d.distance, d.rating,
      d.reviewsCount, url, d.description, certs, [], NoEvaluation, DataHash(d), now)
  }

  /** The listed fields of an existing row overwritten from a dictionary whose fingerprint
      differs; the URL, insight, evaluation and scrape-time columns are kept. */
  function Overwrite(c: Contractor, d: ContractorData, certs: seq<string>): Contractor {
    c.(gafId := ExtractGafId(d.profileUrl), name := d.name, phone := CleanPhoneNumber(d.phone),
       location := d.city, distance := d.distance, rating := d.rating, reviewsCount := d.reviewsCount,
       description := d.description, certifications := certs, dataHash := DataHash(d))
  }

  /** The certifications as upsert_contractor cleans them. */
  ghost function CleanedCerts(d: ContractorData): seq<string> {
    SortedOf(CleanedSet(d.certifications))
  }

  /** The store and the reply after upsert_contractor. */
  ghost function UpsertSpec(records: map<string, Contractor>, d: ContractorData, now: nat): (map<string, Contractor>, UpsertReply) {
    if !Present(d.profileUrl) then (records, ProfileUrlRequired)
    else
      var url := d.profileUrl.value;
      if url in records then
        if records[url].dataHash == DataHash(d) then (records, Upserted(records[url], false))
        else
          var c := Overwrite(records[url], d, CleanedCerts(d));
          (records[url := c], Upserted(c, false))
      else
        var c := NewContractor(url, d, CleanedCerts(d), now);
        (records[url := c], Upserted(c, true))
  }

  /** A dictionary without a profile URL is refused and changes nothing. */
  lemma UpsertMissingUrl(records: map<string, Contractor>, d: ContractorData, now: nat)
    ensures UpsertSpec(records, d, now).1 == ProfileUrlRequired <==> !Present(d.profileUrl)
    ensures !Present(d.profileUrl) ==> UpsertSpec(records, d, now).0 == records
  {
  }

  /** An unknown URL inserts exactly one row, carrying the dictionary's fingerprint, and reports
      it as new; a known URL is never reported as new. */
  lemma UpsertInsertsUnknown(records: map<string, Contractor>, d: ContractorData, now: nat)
    requires Present(d.profileUrl)
    ensures var (after, reply) := UpsertSpec(records, d, now);
      && reply.Upserted?
      && (reply.isNew <==> d.profileUrl.value !in records)
      && (reply.isNew ==> after.Keys == records.Keys + {d.profileUrl.value}
                          && after[d.profileUrl.value].dataHash == DataHash(d)
                          && after[d.profileUrl.value].profileUrl == d.profileUrl.value)
  {
  }

  /** A known URL whose fingerprint is unchanged leaves the whole store as it was. */
  lemma UpsertEqualHashNoop(records: map<string, Contractor>, d: ContractorData, now: nat)
    requires Present(d.profileUrl) && d.profileUrl.value in records
    requires records[d.profileUrl.value].dataHash == DataHash(d)
    ensures UpsertSpec(records, d, now).0 == records
  {
  }

  /** A known URL whose fingerprint changed gets every listed field and the fingerprint
      overwritten, keeps its URL, insights, evaluation and scrape time, and is the reply. */
  lemma UpsertOverwrites(records: map<string, Contractor>, d: ContractorData, now: nat)
    requires Present(d.profileUrl) && d.profileUrl.value in records
    requires records[d.profileUrl.value].dataHash != DataHash(d)
    ensures var (after, reply) := UpsertSpec(records, d, now);
      var url := d.profileUrl.value;
      var old_, new_ := records[url], after[url];
      && after.Keys == records.Keys
      && reply == Upserted(new_, false)
      && new_.name == d.name && new_.phone == CleanPhoneNumber(d.phone) && new_.location == d.city
      && new_.distance == d.distance && new_.rating == d.rating && new_.reviewsCount == d.reviewsCount
      && new_.description == d.description && new_.certifications == CleanedCerts(d)
      && new_.dataHash == DataHash(d) && new_.gafId == ExtractGafId(d.profileUrl)
      && new_.profileUrl == old_.profileUrl && new_.aiInsights == old_.aiInsights
      && new_.eval == old_.eval && new_.lastScrapedAt == old_.lastScrapedAt
  {
    var url := d.profileUrl.value;
    var c := Overwrite(records[url], d, CleanedCerts(d));
    assert UpsertSpec(records, d, now) == (records[url := c], Upserted(c, false));
    assert records[url := c].Keys == records.Keys;
  }

  /** The store stays keyed by URL. */
  lemma UpsertKeyed(records: map<string, Contractor>, d: ContractorData, now: nat)
    requires KeyedByUrl(records)
    ensures KeyedByUrl(UpsertSpec(records, d, now).0)
  {
  }

  /** No row under another URL is touched and no row disappears. */
  lemma UpsertFrame(records: map<string, Contractor>, d: ContractorData, now: nat, u: string)
    ensures records.Keys <= UpsertSpec(records, d, now).0.Keys
    ensures u in records && !(Present(d.profileUrl) && d.profileUrl.value == u) ==>
      UpsertSpec(records, d, now).0[u] == records[u]
  {
  }

  /** The record handed back is the row now stored under the dictionary's URL. */
  lemma UpsertReplyIsRow(records: map<string, Contractor>, d: ContractorData, now: nat)
    ensures var (after, reply) := UpsertSpec(records, d, now);
      reply.Upserted? ==> d.profileUrl.value in after && after[d.profileUrl.value] == reply.contractor
  {
  }

  /** After an upsert the row under the dictionary's URL carries its fingerprint. */
  lemma UpsertSyncs(records: map<string, Contractor>, d: ContractorData, now: nat)
    requires Present(d.profileUrl)
    ensures d.profileUrl.value in UpsertSpec(records, d, now).0
    ensures UpsertSpec(records, d, now).0[d.profileUrl.value].dataHash == DataHash(d)
  {
  }

  // ---------------------------------------------------------------------------
  // Batch save (save_contractors_batch)
  // ---------------------------------------------------------------------------

  /** How one dictionary of a batch was counted; a refused one is counted nowhere. */
  datatype Outcome = Skipped | Inserted | Modified | Untouched

  /** The `stats` dictionary. */
  datatype BatchStats = BatchStats(total: nat, inserted: nat, updated: nat, unmodified: nat)

  /** How save_contractors_batch counts one upsert: is_new, otherwise whether the session reports
      the returned row modified, that is whether it now differs from the stored one. */
  ghost function Classify(records: map<string, Contractor>, d: ContractorData, now: nat): Outcome {
    var (after, reply) := UpsertSpec(records, d, now);
    if reply.ProfileUrlRequired? then Skipped
    else if reply.isNew then Inserted
    else if after[d.profileUrl.value] != records[d.profileUrl.value] then Modified
    else Untouched
  }

  /** A known row counts as updated exactly when its fingerprint changed. */
  lemma ModifiedIffHashDiffers(records: map<string, Contractor>, d: ContractorData, now: nat)
    requires Present(d.profileUrl) && d.profileUrl.value in records
    ensures Classify(records, d, now) == Modified <==> records[d.profileUrl.value].dataHash != DataHash(d)
    ensures Classify(records, d, now) == Untouched <==> records[d.profileUrl.value].dataHash == DataHash(d)
  {
  }

  /** One counter bumped for an outcome. */
  function Count(s: BatchStats, o: Outcome): BatchStats {
    match o
    case Skipped => s
    case Inserted => s.(inserted := s.inserted + 1)
    case Modified => s.(updated := s.updated + 1)
    case Untouched => s.(unmodified := s.unmodified + 1)
  }

  /** The store and the counters after upserting the dictionaries of a batch in order. */
  ghost function BatchSpec(records: map<string, Contractor>, batch: seq<ContractorData>, now: nat): (map<string, Contractor>, BatchStats)
    decreases |batch|
  {
    if batch == [] then (records, BatchStats(0, 0, 0, 0))
    else
      var (before, stats) := BatchSpec(records, batch[..|batch| - 1], now);
      var d := batch[|batch| - 1];
      (UpsertSpec(before, d, now).0, Count(stats, Classify(before, d, now)).(total := |batch|))
  }

  /** One more dictionary of a batch. */
  lemma BatchSpecStep(records: map<string, Contractor>, batch: seq<ContractorData>, i: int, now: nat)
    requires 0 <= i < |batch|
    ensures var (before, stats) := BatchSpec(records, batch[..i], now);
      BatchSpec(records, batch[..i + 1], now)
        == (UpsertSpec(before, batch[i], now).0, Count(stats, Classify(before, batch[i], now)).(total := i + 1))
  {
    assert batch[..i + 1][..i] == batch[..i];
  }

  /** A batch of one dictionary is one upsert, counted once. */
  lemma SingletonBatch(records: map<string, Contractor>, d: ContractorData, now: nat)
    ensures BatchSpec(records, [d], now)
      == (UpsertSpec(records, d, now).0, Count(BatchStats(0, 0, 0, 0), Classify(records, d, now)).(total := 1))
  {
    assert [d][..0] == [];
  }

  /** The number of dictionaries without a profile URL. */
  function Refused(batch: seq<ContractorData>): nat
    decreases |batch|
  {
    if batch == [] then 0
    else Refused(batch[..|batch| - 1]) + (if Present(batch[|batch| - 1].profileUrl) then 0 else 1)
  }

  /** total is the batch length, and every dictionary with a URL is counted exactly once:
      new + updated + unchanged = total - refused. */
  lemma {:induction false} BatchCounts(records: map<string, Contractor>, batch: seq<ContractorData>, now: nat)
    ensures var s := BatchSpec(records, batch, now).1;
      s.total == |batch| && s.inserted + s.updated + s.unmodified == |batch| - Refused(batch)
    decreases |batch|
  {
    if batch != [] {
      BatchCounts(records, batch[..|batch| - 1], now);
    }
  }

  /** The store stays keyed by URL through a batch and keeps every row it had. */
  lemma {:induction false} BatchKeyed(records: map<string, Contractor>, batch: seq<ContractorData>, now: nat)
    requires KeyedByUrl(records)
    ensures KeyedByUrl(BatchSpec(records, batch, now).0)
    ensures records.Keys <= BatchSpec(records, batch, now).0.Keys
    decreases |batch|
  {
    if batch != [] {
      var init := batch[..|batch| - 1];
      BatchKeyed(records, init, now);
      UpsertKeyed(BatchSpec(records, init, now).0, batch[|batch| - 1], now);
      UpsertFrame(BatchSpec(records, init, now).0, batch[|batch| - 1], now, "");
    }
  }

  /** No two dictionaries of a batch name the same profile URL. */
  predicate DistinctUrls(batch: seq<ContractorData>) {
    forall i, j :: 0 <= i < j < |batch| && Present(batch[i].profileUrl) && Present(batch[j].profileUrl) ==>
      batch[i].profileUrl.value != batch[j].profileUrl.value
  }

  /** Every dictionary with a URL has a row under it carrying its fingerprint. */
  ghost predicate Synced(records: map<string, Contractor>, batch: seq<ContractorData>) {
    forall i :: 0 <= i < |batch| && Present(batch[i].profileUrl) ==>
      batch[i].profileUrl.value in records && records[batch[i].profileUrl.value].dataHash == DataHash(batch[i])
  }

  /** After a batch with distinct URLs, every row it names carries the fingerprint it was given. */
  lemma {:induction false} BatchSyncs(records: map<string, Contractor>, batch: seq<ContractorData>, now: nat)
    requires DistinctUrls(batch)
    ensures Synced(BatchSpec(records, batch, now).0, batch)
    decreases |batch|
  {
    if batch != [] {
      var n := |batch| - 1;
      var init := batch[..n];
      var d := batch[n];
      assert DistinctUrls(init) by {
        forall i, j | 0 <= i < j < |init| && Present(init[i].profileUrl) && Present(init[j].profileUrl)
          ensures init[i].profileUrl.value != init[j].profileUrl.value
        {
          assert init[i] == batch[i] && init[j] == batch[j];
        }
      }
      BatchSyncs(records, init, now);
      var before := BatchSpec(records, init, now).0;
      var after := UpsertSpec(before, d, now).0;
      forall i | 0 <= i < |batch| && Present(batch[i].profileUrl)
        ensures batch[i].profileUrl.value in after && after[batch[i].profileUrl.value].dataHash == DataHash(batch[i])
      {
        if i == n {
          UpsertSyncs(before, d, now);
        } else {
          assert batch[i] == init[i];
          UpsertFrame(before, d, now, batch[i].profileUrl.value);
        }
      }
    }
  }

  /** A batch over a store already in step with it changes nothing and counts nothing as new or
      updated. */
  lemma {:induction false} SyncedBatchIsNoop(records: map<string, Contractor>, batch: seq<ContractorData>, now: nat)
    requires Synced(records, batch)
    ensures BatchSpec(records, batch, now).0 == records
    ensures BatchSpec(records, batch, now).1.inserted == 0 && BatchSpec(records, batch, now).1.updated == 0
    decreases |batch|
  {
    if batch != [] {
      var n := |batch| - 1;
      var init := batch[..n];
      assert Synced(records, init) by {
        forall i | 0 <= i < |init| && Present(init[i].profileUrl)
          ensures init[i].profileUrl.value in records && records[init[i].profileUrl.value].dataHash == DataHash(init[i])
        {
          assert init[i] == batch[i];
        }
      }
      SyncedBatchIsNoop(records, init, now);
      var d := batch[n];
      if Present(d.profileUrl) {
        assert d.profileUrl.value in records && records[d.profileUrl.value].dataHash == DataHash(d);
      }
    }
  }

  /** Saving the same batch twice: the second save finds nothing new, updates nothing and leaves
      the store as the first save left it. */
  lemma SecondSaveIsNoop(records: map<string, Contractor>, batch: seq<ContractorData>, now: nat, later: nat)
    requires DistinctUrls(batch)
    ensures var first := BatchSpec(records, batch, now).0;
      var (second, stats) := BatchSpec(first, batch, later);
      second == first && stats.inserted == 0 && stats.updated == 0
  {
    BatchSyncs(records, batch, now);
    SyncedBatchIsNoop(BatchSpec(records, batch, now).0, batch, later);
  }

  /** What save_contractors_batch hands back: the counters, or the error the session re-raises
      after rolling back a failed commit. */
  datatype BatchReply = Saved(stats: BatchStats) | CommitFailed(message: string)

  /** The contractors table. */
  class ContractorDb {
    var records: map<string, Contractor>

    ghost predicate Valid()
      reads this
    {
      KeyedByUrl(records)
    }

    constructor(initial: map<string, Contractor>)
      requires KeyedByUrl(initial)
      ensures Valid() && records == initial
    {
      records := initial;
    }

    /** upsert_contractor inside an open session. */
    method Upsert(d: ContractorData, now: nat) returns (reply: UpsertReply)
      requires Valid()
      modifies this
      ensures Valid()
      ensures (records, reply) == UpsertSpec(old(records), d, now)
    {
      if !Present(d.profileUrl) {
        return ProfileUrlRequired;
      }
      var url := d.profileUrl.value;
      var hash := DataHash(d);
      var certs := CleanCertifications(d.certifications);
      if url in records {
        var existing := records[url];
        if existing.dataHash != hash {
          var c := Overwrite(existing, d, certs);
          records := records[url := c];
          return Upserted(c, false);
        }
        return Upserted(existing, false);
      }
      var c := NewContractor(url, d, certs, now);
      records := records[url := c];
      return Upserted(c, true);
    }

    /** One dictionary of save_contractors_batch: upsert it and tell how the counters see it. */
    method SaveOne(d: ContractorData, now: nat) returns (o: Outcome)
      requires Valid()
      modifies this
      ensures Valid()
      ensures (records, o) == (UpsertSpec(old(records), d, now).0, Classify(old(records), d, now))
    {
      ghost var before := records;
      var stored := if Present(d.profileUrl) && d.profileUrl.value in records then Some(records[d.profileUrl.value]) else None;
      var r := Upsert(d, now);
      UpsertReplyIsRow(before, d, now);
      if r.ProfileUrlRequired? {
        o := Skipped;
      } else if r.isNew {
        o := Inserted;
      } else if stored.Some? && r.contractor != stored.value {
        o := Modified;
      } else {
        o := Untouched;
      }
    }

    /** save_contractors_batch: upsert every dictionary in one session, count the outcomes, skip a
        refused dictionary and go on; `commitError` is the database's verdict on the commit, and
        a failed commit rolls the whole session back. */
    method SaveContractorsBatch(batch: seq<ContractorData>, now: nat, commitError: Option<string>) returns (reply: BatchReply)
      requires Valid() && DistinctUrls(batch)
      modifies this
      ensures Valid()
      ensures commitError.Some? ==> records == old(records) && reply == CommitFailed(commitError.value)
      ensures commitError.None? ==> (records, reply) == (BatchSpec(old(records), batch, now).0, Saved(BatchSpec(old(records), batch, now).1))
    {
      var saved := records;
      var stats := BatchStats(|batch|, 0, 0, 0);
      var i := 0;
      while i < |batch|
        invariant 0 <= i <= |batch|
        invariant Valid()
        invariant records == BatchSpec(saved, batch[..i], now).0
        invariant stats == BatchSpec(saved, batch[..i], now).1.(total := |batch|)
      {
        var o := SaveOne(batch[i], now);
        stats := Count(stats, o);
        BatchSpecStep(saved, batch, i, now);
        i := i + 1;
      }
      assert batch[..i] == batch;
      if commitError.Some? {
        records := saved;
        return CommitFailed(commitError.value);
      }
      return Saved(stats);
    }
  }
}
