/** The insight improver of backend/ai/insight_improver.py: pick the weakest judged dimensions
    of an insight, and regenerate the insights judged below a threshold a bounded number of
    times, keeping a new one only when its judgement reaches the threshold. The generator, the
    judge and the commit are oracles collected in `Llm`. */
module Improver {
  import opened Common
  import opened Records
  import opened Store

  // ---------------------------------------------------------------- identify_weaknesses

  /** The four judged dimensions, in the order the improver inspects them. */
  datatype Dimension = Accuracy | Actionability | Personalization | Conciseness

  const Dimensions: seq<Dimension> := [Accuracy, Actionability, Personalization, Conciseness]

  /** The four scores of one judgement. */
  datatype Scores = Scores(accuracy: real, actionability: real, personalization: real, conciseness: real)

  /** A score below this flags its dimension. */
  const Cutoff: real := 3.5

  function Score(s: Scores, d: Dimension): real {
    match d
    case Accuracy => s.accuracy
    case Actionability => s.actionability
    case Personalization => s.personalization
    case Conciseness => s.conciseness
  }

  /** The position of a dimension in the inspection order. */
  function Rank(d: Dimension): (k: nat)
    ensures k < |Dimensions| && Dimensions[k] == d
  {
    match d
    case Accuracy => 0
    case Actionability => 1
    case Personalization => 2
    case Conciseness => 3
  }

  /** One requested improvement: the targeted request for a dimension scored below the
      cutoff, or the fallback request for the weakest dimension. */
  datatype Issue = Targeted(dimension: Dimension) | Fallback(dimension: Dimension)

  /** The wording of each request; the longer ones are spelled as concatenations of shorter
      literals. */
  function Phrase(issue: Issue): (r: string)
    ensures r != ""
  {
    match issue
    case Targeted(Accuracy) => "be more accurate and " + "fact-based, referencing " + "specific contractor data"
    case Targeted(Actionability) => "provide clearer action " + "items and specific " + "materials/services the " + "contractor might need"
    case Targeted(Personalization) => "make it more personalized " + "to this contractor's " + "unique strengths and " + "specializations"
    case Targeted(Conciseness) => "be more concise and " + "avoid repetitive language"
    case Fallback(Accuracy) => "improve factual accuracy"
    case Fallback(Actionability) => "add more actionable insights"
    case Fallback(Personalization) => "increase personalization"
    case Fallback(Conciseness) => "improve conciseness"
  }

  /** The dimensions scored below the cutoff, in inspection order. */
  function Flagged(s: Scores): (r: seq<Dimension>)
    ensures forall d :: d in r <==> Score(s, d) < Cutoff
    ensures forall i, j :: 0 <= i < j < |r| ==> Rank(r[i]) < Rank(r[j])
  {
    (if s.accuracy < Cutoff then [Accuracy] else [])
    + (if s.actionability < Cutoff then [Actionability] else [])
    + (if s.personalization < Cutoff then [Personalization] else [])
    + (if s.conciseness < Cutoff then [Conciseness] else [])
  }

  /** d has the least score, and every dimension inspected before d scores strictly more:
      the minimum, ties going to the earliest dimension. */
  predicate IsWeakest(s: Scores, d: Dimension) {
    (forall e :: Score(s, d) <= Score(s, e)) && (forall e :: Rank(e) < Rank(d) ==> Score(s, e) > Score(s, d))
  }

  /** The lesser-scored of two dimensions, the first one on a tie. */
  function Lesser(s: Scores, d: Dimension, e: Dimension): Dimension {
    if Score(s, e) < Score(s, d) then e else d
  }

  /** The weakest dimension: the least score, ties resolved in inspection order. */
  function Weakest(s: Scores): (d: Dimension)
    ensures IsWeakest(s, d)
  {
    Lesser(s, Lesser(s, Lesser(s, Accuracy, Actionability), Personalization), Conciseness)
  }

  /** Exactly one dimension is the weakest. */
  lemma WeakestUnique(s: Scores, d: Dimension)
    requires IsWeakest(s, d)
    ensures d == Weakest(s)
  {
    var w := Weakest(s);
    assert !(Rank(w) < Rank(d)) && !(Rank(d) < Rank(w));
  }

  /** The requested improvements: one per flagged dimension, in order, or else one for the
      weakest dimension. */
  function Issues(s: Scores): (r: seq<Issue>)
    ensures |r| >= 1
  {
    var flagged := Flagged(s);
    if flagged == [] then [Fallback(Weakest(s))]
    else seq(|flagged|, i requires 0 <= i < |flagged| => Targeted(flagged[i]))
  }

  /** The wording of a list of requests. */
  function Phrases(issues: seq<Issue>): (r: seq<string>)
    ensures |r| == |issues| && forall i :: 0 <= i < |r| ==> r[i] == Phrase(issues[i])
  {
    seq(|issues|, i requires 0 <= i < |issues| => Phrase(issues[i]))
  }

  /** ", ".join(parts). */
  function JoinComma(parts: seq<string>): (r: string)
    ensures |parts| >= 1 && parts[0] != "" ==> r != ""
    ensures |parts| == 1 ==> r == parts[0]
    decreases |parts|
  {
    if parts == [] then ""
    else if |parts| == 1 then parts[0]
    else parts[0] + ", " + JoinComma(parts[1..])
  }

  /** identify_weaknesses as a value: the requested improvements joined by ", "; never empty. */
  function Weaknesses(s: Scores): (r: string)
    ensures r != ""
  {
    JoinComma(Phrases(Issues(s)))
  }

  /** A dimension's targeted request is made exactly when its score is below 3.5, and the
      targeted requests come in inspection order. */
  lemma TargetedIffLow(s: Scores, d: Dimension)
    ensures Targeted(d) in Issues(s) <==> Score(s, d) < Cutoff
    ensures forall i, j :: 0 <= i < j < |Issues(s)| && Issues(s)[i].Targeted? && Issues(s)[j].Targeted? ==>
      Rank(Issues(s)[i].dimension) < Rank(Issues(s)[j].dimension)
  {
    var flagged := Flagged(s);
    var r := Issues(s);
    if flagged != [] {
      if Score(s, d) < Cutoff {
        var i :| 0 <= i < |flagged| && flagged[i] == d;
        assert r[i] == Targeted(d);
      }
    }
  }

  /** When no score is below 3.5, exactly one improvement is requested, the fallback for the
      weakest dimension; otherwise no fallback is requested. */
  lemma FallbackIsWeakest(s: Scores)
    ensures (forall d :: Score(s, d) >= Cutoff) ==> Issues(s) == [Fallback(Weakest(s))]
    ensures (exists d :: Score(s, d) < Cutoff) ==> forall i :: 0 <= i < |Issues(s)| ==> Issues(s)[i].Targeted?
  {
    if forall d :: Score(s, d) >= Cutoff {
      assert Score(s, Accuracy) >= Cutoff && Score(s, Actionability) >= Cutoff;
      assert Score(s, Personalization) >= Cutoff && Score(s, Conciseness) >= Cutoff;
    }
  }

  /** identify_weaknesses: append a request per score below 3.5; when there is none, find the
      least score and request the first dimension that has it. */
  method IdentifyWeaknesses(s: Scores) returns (r: string)
    ensures r == Weaknesses(s)
  {
    var issues: seq<Issue> := [];
    if s.accuracy < Cutoff {
      issues := issues + [Targeted(Accuracy)];
    }
    if s.actionability < Cutoff {
      issues := issues + [Targeted(Actionability)];
    }
    if s.personalization < Cutoff {
      issues := issues + [Targeted(Personalization)];
    }
    if s.conciseness < Cutoff {
      issues := issues + [Targeted(Conciseness)];
    }
    if issues == [] {
      var least := Min(Min(Min(s.accuracy, s.actionability), s.personalization), s.conciseness);
      var d;
      if least == s.accuracy {
        d := Accuracy;
      } else if least == s.actionability {
        d := Actionability;
      } else if least == s.personalization {
        d := Personalization;
      } else {
        d := Conciseness;
      }
      MinChainWeakest(s, least, d);
      issues := issues + [Fallback(d)];
    }
    assert issues == Issues(s);
    r := JoinComma(Phrases(issues));
  }

  /** The dimension identify_weaknesses picks, the first whose score equals the minimum, is
      the weakest. */
  lemma MinChainWeakest(s: Scores, least: real, d: Dimension)
    requires least == Min(Min(Min(s.accuracy, s.actionability), s.personalization), s.conciseness)
    requires d == (if least == s.accuracy then Accuracy
                   else if least == s.actionability then Actionability
                   else if least == s.personalization then Personalization
                   else Conciseness)
    ensures d == Weakest(s)
  {
    WeakestUnique(s, d);
  }

  function Min(a: real, b: real): real {
    if a <= b then a else b
  }

  // ---------------------------------------------------------------- improve_low_quality_insights

  /** What the judge returns for an insight. */
  datatype Judgement = Judgement(scores: Scores, overall: real, feedback: string)

  /** One regeneration request: the contractor, the attempt number, and the insight, feedback
      and weaknesses it is asked to improve on. */
  datatype Attempt = Attempt(url: string, iteration: nat, insight: string, feedback: string, weaknesses: string)

  /** The outside world of an improvement run: `regenerate` yields the new insight (None when
      the call fails), `evaluate` the judgement of an insight of the contractor at an attempt
      (None when the call fails), `commitFault` whether committing a contractor's improvement
      fails. */
  datatype Llm = Llm(
    regenerate: Attempt -> Option<string>,
    evaluate: (string, nat, string) -> Option<Judgement>,
    commitFault: string -> bool)

  /** The result of the attempts for one contractor: the accepted insight and its judgement,
      if any, and how many regenerations were requested. */
  datatype Trial = Trial(accepted: Option<(string, Judgement)>, attempts: nat)

  /** Up to `remaining` attempts from attempt number `iteration`: stop at the first failed
      regeneration or judgement, accept the first insight judged at or above the threshold,
      and otherwise retry on the new insight, its feedback and its weaknesses. */
  function Attempts(url: string, iteration: nat, remaining: nat, insight: string, feedback: string, weaknesses: string,
                    llm: Llm, threshold: real): (t: Trial)
    ensures t.attempts <= remaining
    ensures t.attempts == 0 <==> remaining == 0
    ensures t.accepted.Some? ==> t.accepted.value.1.overall >= threshold && t.accepted.value.0 != ""
    decreases remaining
  {
    if remaining == 0 then Trial(None, 0)
    else
      var reply := llm.regenerate(Attempt(url, iteration, insight, feedback, weaknesses));
      if !Present(reply) then Trial(None, 1)
      else match llm.evaluate(url, iteration, reply.value)
        case None => Trial(None, 1)
        case Some(j) =>
          if j.overall >= threshold then Trial(Some((reply.value, j)), 1)
          else
            var rest := Attempts(url, iteration + 1, remaining - 1, reply.value, j.feedback, Weaknesses(j.scores), llm, threshold);
            Trial(rest.accepted, rest.attempts + 1)
  }

  /** An attempt whose regeneration or judgement fails is the last one. */
  lemma FailedAttemptStops(url: string, iteration: nat, remaining: nat, insight: string, feedback: string, weaknesses: string,
                           llm: Llm, threshold: real)
    requires remaining > 0
    requires var reply := llm.regenerate(Attempt(url, iteration, insight, feedback, weaknesses));
      !Present(reply) || llm.evaluate(url, iteration, reply.value).None?
    ensures Attempts(url, iteration, remaining, insight, feedback, weaknesses, llm, threshold) == Trial(None, 1)
  {
  }

  /** A trial counted after `k` earlier attempts. */
  function Later(t: Trial, k: nat): Trial {
    Trial(t.accepted, t.attempts + k)
  }

  /** An attempt judged below the threshold is followed by the attempts on the new insight,
      its feedback and its weaknesses. */
  lemma Retry(url: string, iteration: nat, remaining: nat, insight: string, feedback: string, weaknesses: string,
              reply: string, j: Judgement, next: string, llm: Llm, threshold: real)
    requires remaining > 0
    requires llm.regenerate(Attempt(url, iteration, insight, feedback, weaknesses)) == Some(reply) && reply != ""
    requires llm.evaluate(url, iteration, reply) == Some(j) && j.overall < threshold
    requires next == Weaknesses(j.scores)
    ensures Attempts(url, iteration, remaining, insight, feedback, weaknesses, llm, threshold)
      == Later(Attempts(url, iteration + 1, remaining - 1, reply, j.feedback, next, llm, threshold), 1)
  {
  }

  /** `range(1, n + 1)` is empty for n <= 0. */
  function Budget(maxIterations: int): nat {
    if maxIterations > 0 then maxIterations else 0
  }

  /** The query: a judgement exists and is below the threshold. */
  predicate LowQuality(c: Contractor, threshold: real) {
    c.eval.overall.Some? && c.eval.overall.value < threshold
  }

  /** The current scores, when all four are present; comparing an absent one with 3.5 raises. */
  function CurrentScores(c: Contractor): Option<Scores> {
    if c.eval.accuracy.Some? && c.eval.actionability.Some? && c.eval.personalization.Some? && c.eval.conciseness.Some? then
      Some(Scores(c.eval.accuracy.value, c.eval.actionability.value, c.eval.personalization.value, c.eval.conciseness.value))
    else None
  }

  /** The stored feedback, or "Score too low" when it is absent or empty. */
  function StartFeedback(c: Contractor): string {
    if Present(c.eval.feedback) then c.eval.feedback.value else "Score too low"
  }

  /** The evaluation columns written from an accepted judgement, stamped with the clock. */
  function Judged(j: Judgement, now: nat): Evaluation {
    Evaluation(Some(j.scores.accuracy), Some(j.scores.actionability), Some(j.scores.personalization),
               Some(j.scores.conciseness), Some(j.overall), Some(j.feedback), Some(now))
  }

  /** The row after improving one selected contractor, or None when it is left as it was:
      missing scores, no stored insight, no accepted insight, or a failed commit. */
  function ImproveRow(c: Contractor, threshold: real, maxIterations: int, llm: Llm, now: nat): Option<Contractor> {
    match CurrentScores(c)
    case None => None
    case Some(scores) =>
      if |c.aiInsights| == 0 || c.aiInsights[0] == "" then None
      else
        var t := Attempts(c.profileUrl, 1, Budget(maxIterations), c.aiInsights[0], StartFeedback(c), Weaknesses(scores), llm, threshold);
        if t.accepted.None? || llm.commitFault(c.profileUrl) then None
        else
          var (insight, j) := t.accepted.value;
          Some(c.(aiInsights := [insight], eval := Judged(j, now)))
  }

  /** Only a row with all four scores and a stored insight can be improved, and only by a
      committed attempt. An improved row differs only in its insight, now a single non-empty
      one, and its evaluation, whose seven columns are all set, whose overall score reaches
      the threshold and whose timestamp is the clock reading. */
  lemma ImproveRowShape(c: Contractor, threshold: real, maxIterations: int, llm: Llm, now: nat)
    ensures var r := ImproveRow(c, threshold, maxIterations, llm, now);
      r.Some? ==>
        && CurrentScores(c).Some? && |c.aiInsights| > 0 && c.aiInsights[0] != ""
        && !llm.commitFault(c.profileUrl)
        && r.value.(aiInsights := c.aiInsights, eval := c.eval) == c
        && |r.value.aiInsights| == 1 && r.value.aiInsights[0] != ""
        && r.value.eval.accuracy.Some? && r.value.eval.actionability.Some? && r.value.eval.personalization.Some?
        && r.value.eval.conciseness.Some? && r.value.eval.feedback.Some?
        && r.value.eval.overall.Some? && r.value.eval.overall.value >= threshold
        && r.value.eval.timestamp == Some(now)
  {
  }

  /** A contractor after the run: improved when selected and improvable, otherwise untouched. */
  function AfterRun(c: Contractor, threshold: real, maxIterations: int, llm: Llm, now: nat): Contractor {
    if LowQuality(c, threshold) && ImproveRow(c, threshold, maxIterations, llm, now).Some? then
      ImproveRow(c, threshold, maxIterations, llm, now).value
    else c
  }

  /** The contractors the query selects. */
  function Selected(records: map<string, Contractor>, threshold: real): set<string> {
    set u | u in records && LowQuality(records[u], threshold)
  }

  /** The selected contractors that end improved. */
  function ImprovedUrls(records: map<string, Contractor>, threshold: real, maxIterations: int, llm: Llm, now: nat): (r: set<string>)
    ensures r <= Selected(records, threshold)
  {
    set u | u in records && LowQuality(records[u], threshold) && ImproveRow(records[u], threshold, maxIterations, llm, now).Some?
  }

  /** No URL occurs twice. */
  predicate Distinct(urls: seq<string>) {
    forall i, j :: 0 <= i < j < |urls| ==> urls[i] != urls[j]
  }

  /** How one contractor's row is improved, if it is. */
  type Improvement = Contractor -> Option<Contractor>

  /** The improvement the run applies. */
  function Improve(threshold: real, maxIterations: int, llm: Llm, now: nat): Improvement {
    c => ImproveRow(c, threshold, maxIterations, llm, now)
  }

  /** The store and improved_count after one more contractor of the query result. */
  function Next(records: map<string, Contractor>, count: nat, u: string, improve: Improvement): (map<string, Contractor>, nat) {
    if u in records then
      match improve(records[u])
      case Some(row) => (records[u := row], count + 1)
      case None => (records, count)
    else (records, count)
  }

  /** The contractors of the query result handled in order. */
  function RunSpec(records: map<string, Contractor>, urls: seq<string>, improve: Improvement): (map<string, Contractor>, nat)
    decreases |urls|
  {
    if urls == [] then (records, 0)
    else
      var (before, count) := RunSpec(records, urls[..|urls| - 1], improve);
      Next(before, count, urls[|urls| - 1], improve)
  }

  lemma RunSpecStep(records: map<string, Contractor>, urls: seq<string>, i: int, improve: Improvement)
    requires 0 <= i < |urls|
    ensures var (before, count) := RunSpec(records, urls[..i], improve);
      RunSpec(records, urls[..i + 1], improve) == Next(before, count, urls[i], improve)
  {
    assert urls[..i + 1][..i] == urls[..i];
  }

  /** The row a handled contractor ends with. */
  function Outcome(c: Contractor, improve: Improvement): Contractor {
    if improve(c).Some? then improve(c).value else c
  }

  /** The contractors of `urls` that end improved. */
  function Gained(records: map<string, Contractor>, urls: seq<string>, improve: Improvement): set<string> {
    set u | u in urls && u in records && improve(records[u]).Some?
  }

  lemma DistinctInit(urls: seq<string>)
    requires Distinct(urls) && urls != []
    ensures Distinct(urls[..|urls| - 1]) && urls[|urls| - 1] !in urls[..|urls| - 1]
    ensures forall v :: v in urls <==> v in urls[..|urls| - 1] || v == urls[|urls| - 1]
  {
    var init := urls[..|urls| - 1];
    var u := urls[|urls| - 1];
    assert urls == init + [u];
    assert forall k | 0 <= k < |init| :: init[k] == urls[k] != u;
  }

  /** Handling distinct contractors one by one improves each from its stored row, whatever
      the order: each handled row becomes its improvement, if any, and every other row stays. */
  lemma {:induction false} RunSpecRows(records: map<string, Contractor>, urls: seq<string>, improve: Improvement)
    requires Distinct(urls)
    ensures var after := RunSpec(records, urls, improve).0;
      && after.Keys == records.Keys
      && forall u :: u in records ==> after[u] == if u in urls then Outcome(records[u], improve) else records[u]
    decreases |urls|
  {
    if urls != [] {
      DistinctInit(urls);
      RunSpecRows(records, urls[..|urls| - 1], improve);
    }
  }

  /** ... and counts the contractors improved. */
  lemma {:induction false} RunSpecCount(records: map<string, Contractor>, urls: seq<string>, improve: Improvement)
    requires Distinct(urls)
    ensures RunSpec(records, urls, improve).1 == |Gained(records, urls, improve)|
    decreases |urls|
  {
    if urls != [] {
      var init := urls[..|urls| - 1];
      var u := urls[|urls| - 1];
      DistinctInit(urls);
      RunSpecRows(records, init, improve);
      RunSpecCount(records, init, improve);
      var before := Gained(records, init, improve);
      if u in records && improve(records[u]).Some? {
        assert Gained(records, urls, improve) == before + {u};
      } else {
        assert Gained(records, urls, improve) == before;
      }
    }
  }

  /** Run over an enumeration of the selected contractors, the loop leaves every row as
      AfterRun says and counts ImprovedUrls. */
  lemma RunSpecOutcome(records: map<string, Contractor>, urls: seq<string>, threshold: real, maxIterations: int, llm: Llm, now: nat)
    requires Distinct(urls)
    requires forall u :: u in urls <==> u in Selected(records, threshold)
    ensures var (after, count) := RunSpec(records, urls, Improve(threshold, maxIterations, llm, now));
      && after.Keys == records.Keys
      && (forall u :: u in records ==> after[u] == AfterRun(records[u], threshold, maxIterations, llm, now))
      && count == |ImprovedUrls(records, threshold, maxIterations, llm, now)|
  {
    var improve := Improve(threshold, maxIterations, llm, now);
    RunSpecRows(records, urls, improve);
    RunSpecCount(records, urls, improve);
    assert Gained(records, urls, improve) == ImprovedUrls(records, threshold, maxIterations, llm, now);
  }

  /** improved_count never exceeds the number selected. */
  lemma ImprovedAtMostSelected(records: map<string, Contractor>, threshold: real, maxIterations: int, llm: Llm, now: nat)
    ensures |ImprovedUrls(records, threshold, maxIterations, llm, now)| <= |Selected(records, threshold)|
  {
    SubsetCard(ImprovedUrls(records, threshold, maxIterations, llm, now), Selected(records, threshold));
  }

  lemma {:induction false} SubsetCard(a: set<string>, b: set<string>)
    requires a <= b
    ensures |a| <= |b|
    decreases |b|
  {
    if b != {} {
      var x :| x in b;
      SubsetCard(a - {x}, b - {x});
    }
  }

  /** Only selected rows change, and a changed row is judged at or above the threshold. */
  lemma AfterRunChanges(c: Contractor, threshold: real, maxIterations: int, llm: Llm, now: nat)
    ensures AfterRun(c, threshold, maxIterations, llm, now) != c ==>
      && LowQuality(c, threshold)
      && AfterRun(c, threshold, maxIterations, llm, now).eval.overall.value >= threshold
    ensures AfterRun(c, threshold, maxIterations, llm, now).profileUrl == c.profileUrl
  {
    ImproveRowShape(c, threshold, maxIterations, llm, now);
  }

  /** The improvement engine over one store. */
  class InsightImprover {
    const db: ContractorDb

    constructor(db: ContractorDb)
      ensures this.db == db
    {
      this.db := db;
    }

    /** The attempt loop for one contractor. */
    method TryImprove(url: string, insight0: string, feedback0: string, weaknesses0: string, maxIterations: int, llm: Llm, threshold: real)
      returns (t: Trial)
      ensures t == Attempts(url, 1, Budget(maxIterations), insight0, feedback0, weaknesses0, llm, threshold)
    {
      var insight, feedback, weaknesses := insight0, feedback0, weaknesses0;
      var iteration: nat := 1;
      var total := Budget(maxIterations);
      ghost var goal := Attempts(url, 1, total, insight0, feedback0, weaknesses0, llm, threshold);
      while iteration <= total
        invariant 1 <= iteration <= total + 1
        invariant goal == Later(Attempts(url, iteration, total + 1 - iteration, insight, feedback, weaknesses, llm, threshold), iteration - 1)
        decreases total + 1 - iteration
      {
        var reply := llm.regenerate(Attempt(url, iteration, insight, feedback, weaknesses));
        if !Present(reply) {
          return Trial(None, iteration);
        }
        var judged := llm.evaluate(url, iteration, reply.value);
        if judged.None? {
          return Trial(None, iteration);
        }
        var j := judged.value;
        if j.overall >= threshold {
          return Trial(Some((reply.value, j)), iteration);
        }
        var next := IdentifyWeaknesses(j.scores);
        Retry(url, iteration, total + 1 - iteration, insight, feedback, weaknesses, reply.value, j, next, llm, threshold);
        ghost var rest := Attempts(url, iteration + 1, total - iteration, reply.value, j.feedback, next, llm, threshold);
        assert goal == Later(rest, iteration);
        insight, feedback, weaknesses := reply.value, j.feedback, next;
        iteration := iteration + 1;
      }
      return Trial(None, total);
    }

    /** One contractor of the loop: its scores, its insight and the attempts; None when it is
        passed over, fails or does not reach the threshold. */
    method ImproveContractor(c: Contractor, threshold: real, maxIterations: int, llm: Llm, now: nat) returns (row: Option<Contractor>)
      ensures row == ImproveRow(c, threshold, maxIterations, llm, now)
      ensures row.Some? ==> row.value.profileUrl == c.profileUrl
    {
      var scores := CurrentScores(c);
      if scores.None? {
        return None;
      }
      var weaknesses := IdentifyWeaknesses(scores.value);
      if |c.aiInsights| == 0 || c.aiInsights[0] == "" {
        return None;
      }
      var t := TryImprove(c.profileUrl, c.aiInsights[0], StartFeedback(c), weaknesses, maxIterations, llm, threshold);
      if t.accepted.None? || llm.commitFault(c.profileUrl) {
        return None;
      }
      var (insight, j) := t.accepted.value;
      return Some(c.(aiInsights := [insight], eval := Judged(j, now)));
    }

    /** The query: the contractors judged below the threshold, in an unspecified order. */
    method SelectLowQuality(threshold: real) returns (urls: seq<string>)
      ensures Distinct(urls)
      ensures forall u :: u in urls <==> u in Selected(db.records, threshold)
    {
      var pending := set u | u in db.records && LowQuality(db.records[u], threshold);
      urls := [];
      while pending != {}
        invariant Distinct(urls)
        invariant forall u :: u in urls ==> u !in pending
        invariant forall u :: u in Selected(db.records, threshold) <==> u in urls || u in pending
        decreases |pending|
      {
        var u :| u in pending;
        urls := urls + [u];
        pending := pending - {u};
      }
    }

    /** improve_low_quality_insights: improve each selected contractor in turn, in whatever
        order the query returns them; returns improved_count. */
    method ImproveLowQualityInsights(threshold: real, maxIterations: int, llm: Llm, now: nat) returns (improvedCount: nat)
      requires db.Valid()
      modifies db
      ensures db.Valid()
      ensures db.records.Keys == old(db.records).Keys
      ensures forall u :: u in old(db.records) ==> db.records[u] == AfterRun(old(db.records)[u], threshold, maxIterations, llm, now)
      ensures improvedCount == |ImprovedUrls(old(db.records), threshold, maxIterations, llm, now)|
      ensures improvedCount <= |Selected(old(db.records), threshold)|
    {
      ghost var init := db.records;
      var urls := SelectLowQuality(threshold);
      improvedCount := 0;
      for i := 0 to |urls|
        invariant db.Valid()
        invariant (db.records, improvedCount) == RunSpec(init, urls[..i], Improve(threshold, maxIterations, llm, now))
      {
        RunSpecStep(init, urls, i, Improve(threshold, maxIterations, llm, now));
        var u := urls[i];
        if u in db.records {
          var row := ImproveContractor(db.records[u], threshold, maxIterations, llm, now);
          if row.Some? {
            db.records := db.records[u := row.value];
            improvedCount := improvedCount + 1;
          }
        }
      }
      assert urls[..|urls|] == urls;
      RunSpecOutcome(init, urls, threshold, maxIterations, llm, now);
      ImprovedAtMostSelected(init, threshold, maxIterations, llm, now);
    }
  }
}
