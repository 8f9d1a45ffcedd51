# Contractor catalog: incremental refresh and insight improvement

A Dafny model of the core of a sales-intelligence backend. The backend keeps a catalog of
roofing contractors taken from a public directory.

- **Store** (`store.dfy`, `normalize.dfy`, `text.dfy`). The catalog is a table keyed by
  profile URL. Incoming field dictionaries are normalised: the phone number is formatted, the
  directory id is taken from the URL, and the certifications are cleaned. Each dictionary gets a
  fingerprint over six fields. A row is then inserted, overwritten or left alone. A batch save
  counts new, updated and unchanged rows.
- **Refresh engine** (`classifier.dfy`, `refresh.dfy`, `runs.dfy`). It reads a listing and
  sorts each entry into one of three buckets:
  - new contractors;
  - contractors that changed enough to fetch their profile again;
  - contractors whose metadata alone is refreshed.

  It fetches and saves the profiles of the first two buckets one at a time, and a failure in
  one entry does not stop the rest. It updates at most three metadata fields of the others.
  It tracks the run as running, then completed or failed.
- **Insight improver** (`improver.dfy`). A language model has judged each stored sales insight.
  The improver selects the contractors whose insights scored below a threshold. It names the
  weakest scoring dimensions and regenerates the insight a bounded number of times. It commits
  the first version judged good enough.

Modelling choices:

- Value-level logic is written as functions, with lemmas about them.
- The loops and in-place updates are methods on `ContractorDb`, `IncrementalScraper`,
  `InsightImprover` and `ScrapeRun`.
- Each method is proved equal to a specification function of its inputs and old state. The
  properties the system promises are lemmas about those functions.
- The store is `map<string, Contractor>` from profile URL to row.
- Ratings are whole tenths of a star, and distances are whole hundredths of a mile.
- Judge scores are reals.
- The MD5 digest of the sorted-key JSON of the six fingerprint fields is stood for by the
  six-tuple itself (`ContentKey`), so the digest is taken to be injective.
- The phone is fingerprinted raw, before cleaning.
- Clock readings are a parameter `now`.
- The outside world is a set of oracle parameters:
  - the listing and profile fetchers;
  - the insight generator;
  - the regeneration and judging calls;
  - the commits that can fail.

## Model

| member | source | states |
|---|---|---|
| Text.Strip | backend/db/connection.py:164 | str.strip() leaves a string with no whitespace at either end, made only of characters of the input |
| Text.LStrip | backend/db/connection.py:164 | the suffix left after exactly the leading whitespace |
| Text.RStrip | backend/db/connection.py:164 | the prefix left before exactly the trailing whitespace |
| Text.StripTrimmed | backend/db/connection.py:164 | stripping a trimmed string changes nothing |
| Text.RStripLen | backend/db/connection.py:101 | rstrip('/') keeps everything up to the last character that is not '/' |
| Text.RStripLenUnique | backend/db/connection.py:101 | only one length has that property |
| Text.LastIndex | backend/db/connection.py:101-106 | the position of the last separator, or -1, with no separator after it |
| Text.LastIndexUnique | backend/db/connection.py:101-106 | only one position has that property |
| Text.Split | backend/db/connection.py:161 | str.split(sep) always yields at least one piece |
| Text.SplitPiecesFree | backend/db/connection.py:161 | no piece of a split holds the separator |
| Text.SplitJoin | backend/db/connection.py:161 | joining the pieces with the separator gives the input back |
| Text.LexIrreflexive | backend/db/connection.py:191 | Python's string order is irreflexive |
| Text.LexTransitive | backend/db/connection.py:191 | Python's string order is transitive |
| Text.LexTotal | backend/db/connection.py:191 | any two different strings are ordered one way or the other |
| Text.LexAsymmetric | backend/db/connection.py:191 | the order is asymmetric |
| Text.LeastExists | backend/db/connection.py:191 | a non-empty set of strings has a least element |
| Text.SortedOf | backend/db/connection.py:191 | sorted() of a set is strictly increasing and holds exactly the set's elements |
| Text.SortedUnique | backend/db/connection.py:191 | a set has only one strictly increasing enumeration |
| Text.SortSet | backend/db/connection.py:191 | the selection loop enumerates the set in increasing order, equal to SortedOf |
| Normalize.Digits | backend/db/connection.py:127 | the digits of the input, all decimal and never more than the input |
| Normalize.DigitsAppend | backend/db/connection.py:127 | digit filtering distributes over concatenation |
| Normalize.FormatPhoneDigits | backend/db/connection.py:137-138 | the display form "+1 (AAA) BBB-CCCC" is canonical and holds exactly "1" then the ten digits |
| Normalize.CanonicalIsFormatted | backend/db/connection.py:127-138 | every canonical string is parseable and is the display form of its own last ten digits |
| Normalize.CleanPhoneNumber | backend/db/connection.py:113-138 | None exactly for a missing or empty phone; 10 digits or 11 led by 1 give the display form of the last ten; any other count returns the input |
| Normalize.CleanPhoneIdempotent | backend/db/connection.py:127-138 | cleaning a cleaned phone number changes nothing |
| Normalize.UnparseableIsNotCanonical | backend/db/connection.py:133-135 | an input returned unchanged as unparseable is never in display form |
| Normalize.ExtractGafId | backend/db/connection.py:91-110 | None exactly for a missing or empty URL; any answer other than the URL is all digits |
| Normalize.ExtractedIdEndsSlug | backend/db/connection.py:100-108 | an extracted id consists of digits, and it follows the last '-' at the end of the URL's last segment once trailing slashes are stripped |
| Normalize.RStripSlashes | backend/db/connection.py:101 | only the trailing slashes come off |
| Normalize.LastSegmentId | backend/db/connection.py:101-107 | in <base>-<digits> the last segment holds '-' and its part after the last '-' is exactly the digits |
| Normalize.GafIdFromSlug | backend/db/connection.py:97-108 | a URL <base>-<digits> with any number of trailing slashes yields exactly those digits |
| Normalize.StripLabelPrefixesStep | backend/db/connection.py:181-185 | the prefix loop is one turn per label, in order |
| Normalize.StripLabelPrefixesShape | backend/db/connection.py:180-185 | a stripped line without newlines stays stripped and newline-free through the prefix loop |
| Normalize.StripLabels | backend/db/connection.py:180-185 | the prefix loop peels "<label>\n" or "<label>:" and re-strips, for each label in turn |
| Normalize.CleanPiece | backend/db/connection.py:163-189 | one line yields its stripped, de-labelled name only when it is not a label, is longer than three characters and is not a label afterwards |
| Normalize.CleanLineShape | backend/db/connection.py:164-189 | a kept name has no newline, is trimmed, is longer than three characters and is not a label |
| Normalize.KeptNamesMembers | backend/db/connection.py:161-189 | a name is kept from an entry's lines exactly when one line cleans to it |
| Normalize.AddLineNames | backend/db/connection.py:163-189 | the line loop adds exactly the names kept from the entry's lines |
| Normalize.AddEntryNames | backend/db/connection.py:156-189 | the entry loop body skips an empty entry and otherwise adds the names of its lines |
| Normalize.CleanedSetEntries | backend/db/connection.py:156-189 | a name is in the cleaned set exactly when some entry contributes it |
| Normalize.CleanedSetMembers | backend/db/connection.py:154-189 | the cleaned set holds exactly the names kept from some line of some non-empty entry |
| Normalize.CleanedSetShape | backend/db/connection.py:161-189 | every cleaned name has the kept-name shape and comes from an input line |
| Normalize.CleanCertifications | backend/db/connection.py:141-191 | the result is strictly sorted, so has no duplicates, and holds exactly the cleaned set; an empty input gives [] |
| Store.DataHashIff | backend/db/connection.py:66-88 | of DataHash, the fingerprint of calculate_data_hash: two dictionaries share a fingerprint exactly when name, phone, city, rating, review count and description agree |
| Store.DataHashIgnores | backend/db/connection.py:77-88 | distance, profile URL and certifications never change the fingerprint |
| Store.UpsertMissingUrl | backend/db/connection.py:204-206 | a dictionary without a profile URL is refused, and only it, and the store is unchanged |
| Store.UpsertInsertsUnknown | backend/db/connection.py:245-263 | an unknown URL adds exactly one row under it, with the fingerprint, reported new; a known URL is never new |
| Store.UpsertEqualHashNoop | backend/db/connection.py:225-244 | a known URL with an equal fingerprint leaves the whole store unchanged |
| Store.UpsertOverwrites | backend/db/connection.py:227-241 | a changed fingerprint overwrites every listed field, the fingerprint and the id; URL, insights, evaluation and scrape time stay; no key is added |
| Store.UpsertKeyed | backend/db/connection.py:221-263 | the store stays one row per profile URL |
| Store.UpsertFrame | backend/db/connection.py:221-263 | no row disappears and no row under another URL changes |
| Store.UpsertReplyIsRow | backend/db/connection.py:241-263 | the record handed back is the row stored under the URL |
| Store.UpsertSyncs | backend/db/connection.py:225-263 | afterwards the row under the URL carries the dictionary's fingerprint |
| Store.ModifiedIffHashDiffers | backend/db/connection.py:282-289 | a known row counts as updated exactly when its fingerprint changed, as unchanged exactly when it did not |
| Store.SingletonBatch | backend/db/connection.py:275-293 | a batch of one is one upsert counted once, with total 1 |
| Store.BatchCounts | backend/db/connection.py:275-293 | total is the batch length and new + updated + unchanged = total - refused |
| Store.BatchKeyed | backend/db/connection.py:277-293 | a batch keeps the store keyed by URL and loses no row |
| Store.BatchSyncs | backend/db/connection.py:277-293 | after a batch with distinct URLs each named row carries its dictionary's fingerprint |
| Store.SyncedBatchIsNoop | backend/db/connection.py:277-293 | a batch over a store already in step with it changes nothing and counts nothing new or updated |
| Store.SecondSaveIsNoop | backend/db/connection.py:265-296 | saving the same batch with distinct URLs again gives new = 0 and updated = 0 and leaves the store as it was |
| Store.ContractorDb.Upsert | backend/db/connection.py:193-263 | the in-session upsert leaves the store and reply UpsertSpec describes, keeping it keyed by URL |
| Store.ContractorDb.SaveOne | backend/db/connection.py:279-292 | one upsert of the batch leaves UpsertSpec's store and is counted as Classify says: refused, new, updated or unchanged |
| Store.ContractorDb.SaveContractorsBatch | backend/db/connection.py:265-296 | the batch loop yields BatchSpec's store and counters; a failed commit rolls back to the old store and re-raises |
| Classifier.ShouldRescrapeProfile | backend/scraper/incremental_scraper.py:30-70 | rescrape exactly when some rule fires; each reason exactly when its rule fires and no earlier one does; otherwise "no significant changes" |
| Classifier.RatingBoundary | backend/scraper/incremental_scraper.py:53-58 | for two truthy ratings, a move of exactly 0.3 never fires the rating rule, whatever the other fields; one of 0.4 fires it unless the phone or URL rule decided first |
| Classifier.ReviewsBoundary | backend/scraper/incremental_scraper.py:60-67 | review deltas from -5 to 9 never fire; 10 reports an increase, -6 a decrease |
| Classifier.ZeroDisablesRule | backend/scraper/incremental_scraper.py:54-67 | a zero or missing rating on either side never gives the rating reason, and a zero or missing review count on either side never gives a review reason, each whatever the other fields; with both off only phone and URL can fire |
| Classifier.SameUrlNeverFires | backend/scraper/incremental_scraper.py:48-51 | an entry with the stored URL never reports a URL change |
| Classifier.RawPhoneAlwaysDiffers | backend/scraper/incremental_scraper.py:43-46 | a raw listing phone not in display form fires the phone rule against its own cleaned form |
| Runs.ScrapeRun.constructor | backend/scraper/incremental_scraper.py:97-106 | the run starts 'running' with its zipcode, distance and start time and no counters |
| Runs.ScrapeRun.Complete | backend/scraper/incremental_scraper.py:228-235 | a running run becomes 'completed' with its counters and end time and no error |
| Runs.ScrapeRun.Fail | backend/scraper/incremental_scraper.py:240-248 | a running run becomes 'failed' with its end time and error message and no counters |
| Refresh.BucketMembers | backend/scraper/incremental_scraper.py:125-150 | an entry is in a bucket exactly when it is in the listing and routed there |
| Refresh.BucketAppend | backend/scraper/incremental_scraper.py:125-150 | bucketing keeps listing order |
| Refresh.UrlsMembers | backend/scraper/incremental_scraper.py:126-129 | a URL is named by a list exactly when it is non-empty and some entry carries it |
| Refresh.UrlsAppend | backend/scraper/incremental_scraper.py:126-129 | the URLs named by a concatenation are those of its parts |
| Refresh.BucketUrls | backend/scraper/incremental_scraper.py:125-150 | a bucket names no URL the listing does not |
| Refresh.BucketPresent | backend/scraper/incremental_scraper.py:127-129 | every entry of the new, rescrape or metadata bucket has a profile URL |
| Refresh.BucketSizes | backend/scraper/incremental_scraper.py:125-150 | every entry lands in exactly one route, so the bucket sizes add up to the listing size |
| Refresh.UrlRuleNeverFires | backend/scraper/incremental_scraper.py:131-142 | the lookup is by URL, so the URL rule never fires during bucketing |
| Refresh.WithInsight | backend/scraper/incremental_scraper.py:167-178 | a non-empty insight with a successful commit replaces that row's insights and nothing else |
| Refresh.ItemGainAtMostOne | backend/scraper/incremental_scraper.py:163-165 | one entry adds at most one to its counter |
| Refresh.ProcessCountBound | backend/scraper/incremental_scraper.py:154-216 | a profile loop counts at most its bucket's size |
| Refresh.ProcessKeyed | backend/scraper/incremental_scraper.py:154-216 | a profile loop keeps the store keyed by URL and loses no row |
| Refresh.ItemFrame | backend/scraper/incremental_scraper.py:155-183 | one entry with a profile URL adds or changes at most the row under that URL |
| Refresh.ProcessFrame | backend/scraper/incremental_scraper.py:154-216 | a profile loop adds rows only under URLs its entries name and leaves every other row as it was |
| Refresh.FailedItemSkipped | backend/scraper/incremental_scraper.py:182-183 | a failed fetch or save leaves store and counter as before, and the loop goes on |
| Refresh.NewItemInserted | backend/scraper/incremental_scraper.py:154-165 | a new entry fetched and saved is counted once and stored with the fetched fields' fingerprint |
| Refresh.RescrapeCountsChange | backend/scraper/incremental_scraper.py:187-198 | a re-scraped entry counts exactly when the fetched fields change the fingerprint |
| Refresh.Refreshed | backend/scraper/incremental_scraper.py:276-289 | only rating, review count, distance and scrape time move, each to a truthy listing value, and each of the three takes the listing value whenever it is truthy and differs; the fingerprint stays; changed exactly when one of the three differs |
| Refresh.MetadataFrame | backend/scraper/incremental_scraper.py:263-297 | the metadata update, MetadataSpec, adds no row, keeps the store keyed and changes at most the four fields; a row no entry names is left exactly as it was, and every row an entry names ends with its scrape time set to now |
| Refresh.MetadataCounts | backend/scraper/incremental_scraper.py:263-297 | in MetadataSpec, updated + unchanged is the number of entries with a row, at most the input size |
| Refresh.RefreshBounds | backend/scraper/incremental_scraper.py:118-225 | total_found is the listing size; each counter is bounded by its bucket |
| Refresh.RefreshKeyed | backend/scraper/incremental_scraper.py:108-225 | a refresh, whatever its outcome, keeps the store keyed by URL and loses no row |
| Refresh.RefreshFrame | backend/scraper/incremental_scraper.py:108-225 | a failed listing fetch changes nothing; otherwise rows are added only under listed URLs and a row whose URL the listing never names is left exactly as it was |
| Refresh.IncrementalScraper.ClassifyListing | backend/scraper/incremental_scraper.py:121-150 | the three appended lists are exactly the new, rescrape and metadata buckets |
| Refresh.IncrementalScraper.StoreInsight | backend/scraper/incremental_scraper.py:168-178 | the store becomes WithInsight of the old one |
| Refresh.IncrementalScraper.ProcessItem | backend/scraper/incremental_scraper.py:155-183 | one entry's fetch, save and insight leave the store and gain ItemSpec describes |
| Refresh.IncrementalScraper.ProcessProfiles | backend/scraper/incremental_scraper.py:154-216 | a profile loop leaves the store and count ProcessSpec describes |
| Refresh.IncrementalScraper.RefreshRow | backend/scraper/incremental_scraper.py:276-289 | the row update with its changed flag is Refreshed, changed exactly when MetadataChanged |
| Refresh.IncrementalScraper.UpdateMetadataOnly | backend/scraper/incremental_scraper.py:253-297 | the loop yields MetadataSpec's store and counters; a failed commit restores the old store |
| Refresh.IncrementalScraper.IncrementalRefresh | backend/scraper/incremental_scraper.py:72-251 | store and outcome as RefreshSpec says; the run, whose three commits are taken to succeed, ends in one terminal state with its end time; completed carries found, new and rescraped + metadata-updated; failed carries the raised message |
| Improver.Flagged | backend/ai/insight_improver.py:42-52 | a dimension is flagged exactly when its score is below 3.5, in inspection order |
| Improver.Weakest | backend/ai/insight_improver.py:54-66 | the least score, ties going to the earliest dimension |
| Improver.WeakestUnique | backend/ai/insight_improver.py:54-66 | only one dimension has that property |
| Improver.MinChainWeakest | backend/ai/insight_improver.py:56-66 | the first dimension equal to min() is the weakest |
| Improver.Phrase | backend/ai/insight_improver.py:43-66 | the eight request wordings, four targeted and four fallback, written as in the code; each is non-empty |
| Improver.Issues | backend/ai/insight_improver.py:40-66 | at least one improvement is always requested |
| Improver.JoinComma | backend/ai/insight_improver.py:68 | ", ".join: the parts with ", " between them; one part joins to itself |
| Improver.Weaknesses | backend/ai/insight_improver.py:40-68 | the joined requests are never empty |
| Improver.TargetedIffLow | backend/ai/insight_improver.py:42-52 | a targeted request exactly when the score is below 3.5, in inspection order |
| Improver.FallbackIsWeakest | backend/ai/insight_improver.py:54-66 | with no score below 3.5 the one request is the weakest dimension's fallback; otherwise no fallback |
| Improver.IdentifyWeaknesses | backend/ai/insight_improver.py:30-68 | the appends and the min() fallback produce Weaknesses |
| Improver.Attempts | backend/ai/insight_improver.py:200-243 | at most the budget of attempts, none only for a zero budget; an accepted insight is non-empty and judged at or above the threshold |
| Improver.FailedAttemptStops | backend/ai/insight_improver.py:211-220 | a failed regeneration or judgement ends the attempts with nothing accepted |
| Improver.Retry | backend/ai/insight_improver.py:239-243 | a judgement below the threshold retries on the new insight, its feedback and its weaknesses |
| Improver.ImproveRowShape | backend/ai/insight_improver.py:172-238 | of ImproveRow, one contractor's handling: an improved row had its scores, an insight and a working commit; only insight and evaluation change; all seven columns are set, overall reaches the threshold |
| Improver.ImprovedUrls | backend/ai/insight_improver.py:158-238 | the improved contractors are among the selected ones |
| Improver.ImprovedAtMostSelected | backend/ai/insight_improver.py:163-253 | improved_count is at most the number selected |
| Improver.AfterRunChanges | backend/ai/insight_improver.py:225-238 | only selected rows change; a changed row keeps its URL and is judged at or above the threshold |
| Improver.RunSpecRows | backend/ai/insight_improver.py:168-251 | handling distinct contractors in any order improves each from its own row; others stay |
| Improver.RunSpecCount | backend/ai/insight_improver.py:166-238 | the count is the number of contractors improved |
| Improver.RunSpecOutcome | backend/ai/insight_improver.py:156-251 | over an enumeration of the selection, every row ends as AfterRun and the count is that of ImprovedUrls |
| Improver.InsightImprover.TryImprove | backend/ai/insight_improver.py:199-243 | the retry loop yields exactly Attempts over the budget |
| Improver.InsightImprover.ImproveContractor | backend/ai/insight_improver.py:172-251 | one contractor's handling yields ImproveRow and keeps the URL |
| Improver.InsightImprover.SelectLowQuality | backend/ai/insight_improver.py:158-161 | the query yields each contractor with a judgement below the threshold, once |
| Improver.InsightImprover.ImproveLowQualityInsights | backend/ai/insight_improver.py:148-253 | every row ends as AfterRun, no row is added or removed, improved_count counts ImprovedUrls and is at most the selection's size |

## Left out

- Database engine and session setup, connection pooling and logging are not modelled.
- Each `get_session` block that writes contractor rows is one atomic step. Its commit verdict
  is an oracle parameter, and a failed commit rolls the block back. These blocks are:
  - the batch save (`commitError`; `saveFault` in the refresh);
  - the insight store of the refresh (`insightFault`);
  - the metadata update (`metadataFault`);
  - the per-contractor improvement commit (`commitFault`).

  The three run-tracking blocks of incremental_refresh have no commit oracle. They always
  succeed in the model (see Refresh.IncrementalScraper.IncrementalRefresh below).
- Database errors raised at commit (the unique `gaf_id` column, the rating check constraint,
  the not-null name) are not told apart. They are all a failed commit.
- Store.ContractorDb.SaveContractorsBatch: requires distinct profile URLs within one batch.
  With autoflush off, a row added earlier in the session is invisible to later lookups, and
  both callers in the refresh pass batches of one.
- `id`, `created_at` and `updated_at` are not modelled. Every clock reading in one call is the
  same `now`.
- Binary floating point and `Decimal` are not modelled:
  - ratings and distances are exact tenths and hundredths;
  - judge scores are exact reals;
  - a rating move of exactly 0.3 therefore never fires, whatever float rounding would do.
- `str.isdigit` accepts ASCII digits only. Python also accepts other Unicode digits.
- Classifier.ShouldRescrapeProfile: the reason strings, with the numbers they quote, are
  replaced by an enumeration.
- Refresh.IncrementalScraper.IncrementalRefresh: these are not modelled:
  - the browser start and close;
  - `max_results`, which only reaches the listing fetcher;
  - a failure of the commit that records the completed run;
  - a failure of the commit that creates the run (incremental_scraper.py:97-106). It comes
    before the `try`, so in the code the refresh then raises with no run row and nothing
    fetched. The model always creates the run;
  - a failure of the commit that records a failed run (incremental_scraper.py:242-248). In the
    code the new exception then replaces the original and the run row stays 'running'. The
    model always ends the run Failed with the original message.

  A listing fetch that raises stands for any exception before bucketing.
- The refresh oracles are indexed by loop and position (`(Phase, index)`) and cannot depend on
  anything else. Of the improvement oracles, `regenerate` is given the whole request:
  contractor URL, attempt number, old insight, feedback and weaknesses. `evaluate` is given the
  contractor URL, the attempt number and the new insight text. `commitFault` is given the
  contractor URL.
- Prompt text is not modelled, and neither is the judge's weighted overall score
  (backend/ai/evaluator.py); both are oracles. The code that generates insights during the
  refresh is an oracle too.
- Improver.InsightImprover.ImproveContractor: in the code, a missing score makes the `< 3.5`
  comparison raise, the session rolls back and the contractor is passed over. The model passes
  it over directly.
- Improver.InsightImprover.ImproveLowQualityInsights: the order of the query result is chosen
  arbitrarily. The proved outcome does not depend on it. The method returns improved_count,
  which the code only logs.
- The scheduler, the HTTP API and the directory scraper are not part of this model.
