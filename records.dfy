/** The entities of the contractor catalog (backend/db/models.py) and the scraper's field dictionaries. */
module Records {
  import opened Common

  /** A rating in tenths of a star: the DECIMAL(2,1) column, so 45 stands for 4.5 stars. */
  type Tenths = nat

  /** A distance in hundredths of a mile: the DECIMAL(5,2) column. */
  type Hundredths = nat

  /** One field dictionary as the listing fetcher produces it; the location arrives as `city`. */
  datatype ContractorData = ContractorData(
    name: Option<string>,
    phone: Option<string>,
    city: Option<string>,
    distance: Option<Hundredths>,
    rating: Option<Tenths>,
    reviewsCount: Option<nat>,
    profileUrl: Option<string>,
    description: Option<string>,
    certifications: seq<string>)

  /** The six fields the change fingerprint covers, under the keys it serialises them with.
      Equal keys stand for equal MD5 digests of the sorted-key JSON; the digest is taken to be injective. */
  datatype ContentKey = ContentKey(
    name: Option<string>,
    phone: Option<string>,
    location: Option<string>,
    rating: Option<Tenths>,
    reviewsCount: Option<nat>,
    description: Option<string>)

  /** The LLM-as-judge columns of a contractor; `timestamp` is a clock reading. */
  datatype Evaluation = Evaluation(
    accuracy: Option<real>,
    actionability: Option<real>,
    personalization: Option<real>,
    conciseness: Option<real>,
    overall: Option<real>,
    feedback: Option<string>,
    timestamp: Option<nat>)

  const NoEvaluation: Evaluation := Evaluation(None, None, None, None, None, None, None)

  /** One row of the contractors table. `aiInsights` is [] where the column is NULL;
      `lastScrapedAt` is a clock reading. */
  datatype Contractor = Contractor(
    gafId: Option<string>,
    name: Option<string>,
    phone: Option<string>,
    location: Option<string>,
    distance: Option<Hundredths>,
    rating: Option<Tenths>,
    reviewsCount: Option<nat>,
    profileUrl: string,
    description: Option<string>,
    certifications: seq<string>,
    aiInsights: seq<string>,
    eval: Evaluation,
    dataHash: ContentKey,
    lastScrapedAt: nat)

  /** The table keyed by its unique `profile_url` column: every row sits under its own URL,
      so no two rows share a profile URL. */
  ghost predicate KeyedByUrl(records: map<string, Contractor>) {
    forall u :: u in records ==> records[u].profileUrl == u
  }
}
