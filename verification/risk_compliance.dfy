/** The data layer of the Risk & Compliance page
    (src/pages/RiskCompliance.jsx): the assessment filter and level tabs, the
    summary counts, the rounded average score and compliance percentage, and
    the two style switches. */
module RiskCompliance {
  import opened Options
  import opened Seqs
  import opened Text
  import opened Records
  import opened Styles
  import opened Rounding


  /** The level tabs, in the order the page lists them. */
  const LevelTabs: seq<string> := ["all", "low", "medium", "high"]

  datatype Criteria = Criteria(searchTerm: string, selectedRiskLevel: string)

  /** Case-insensitive search over vendor name and vendor id. */
  predicate MatchesSearch(a: RiskAssessment, searchTerm: string)
  {
    Contains(Lower(a.vendorName), Lower(searchTerm)) || Contains(Lower(a.vendorId), Lower(searchTerm))
  }

  /** The `riskAssessments.filter` predicate; the level test ignores case. */
  predicate Matches(a: RiskAssessment, c: Criteria)
  {
    MatchesSearch(a, c.searchTerm) && (c.selectedRiskLevel == All || Lower(a.riskLevel) == Lower(c.selectedRiskLevel))
  }

  /** `filteredAssessments`: the matching assessments, in order, with their
      multiplicity. */
  function FilteredAssessments(assessments: seq<RiskAssessment>, c: Criteria): (r: seq<RiskAssessment>)
    ensures IsSubsequence(r, assessments)
    ensures forall a :: a in r <==> a in assessments && Matches(a, c)
    ensures forall a :: multiset(r)[a] == if Matches(a, c) then multiset(assessments)[a] else 0
  {
    var f := (a: RiskAssessment) => Matches(a, c);
    FilterSpec(assessments, f);
    Filter(assessments, f)
  }

  /** An empty search on the `'all'` tab lists every assessment, in order. */
  lemma EmptyCriteriaKeepsAll(assessments: seq<RiskAssessment>)
    ensures FilteredAssessments(assessments, Criteria("", All)) == assessments
  {
    forall a | a in assessments
      ensures Matches(a, Criteria("", All))
    {
      ContainsEmpty(Lower(a.vendorName));
    }
    FilterAll(assessments, (a: RiskAssessment) => Matches(a, Criteria("", All)));
  }

  /** The summary cards. `avgRiskScore` is `None` where the page would show
      NaN, that is when there are no assessments. */
  datatype Stats = Stats(
    totalAssessments: nat,
    lowRisk: nat,
    mediumRisk: nat,
    highRisk: nat,
    compliancePassed: nat,
    complianceTotal: nat,
    avgRiskScore: Option<int>)

  predicate IsLow(a: RiskAssessment) { a.riskLevel == "Low" }
  predicate IsMedium(a: RiskAssessment) { a.riskLevel == "Medium" }
  predicate IsHigh(a: RiskAssessment) { a.riskLevel == "High" }

  /** An assessment no level card counts, including a lower-case "low". */
  predicate IsOtherLevel(a: RiskAssessment) { !IsLow(a) && !IsMedium(a) && !IsHigh(a) }
  predicate IsPassed(c: ComplianceCheck) { c.status == "passed" }

  function ScoreSum(assessments: seq<RiskAssessment>): int
  {
    SumBy(assessments, (a: RiskAssessment) => a.score)
  }

  /** `stats`: over every assessment and check, whatever the filter. The level
      counts use exact-case equality. The average is the rounded mean and
      stays within the range of the scores. */
  function RiskStats(assessments: seq<RiskAssessment>, checks: seq<ComplianceCheck>): (r: Stats)
    ensures r.totalAssessments == |assessments| && r.complianceTotal == |checks|
    ensures r.lowRisk + r.mediumRisk + r.highRisk + Count(assessments, IsOtherLevel) == r.totalAssessments
    ensures r.lowRisk + r.mediumRisk + r.highRisk <= r.totalAssessments
    ensures r.compliancePassed <= r.complianceTotal
    ensures r.avgRiskScore.None? <==> assessments == []
    ensures r.avgRiskScore.Some? ==>
      var n := |assessments|;
      2 * n * r.avgRiskScore.value - n <= 2 * ScoreSum(assessments) < 2 * n * r.avgRiskScore.value + n
    ensures r.avgRiskScore.Some? && (forall a :: a in assessments ==> 0 <= a.score <= 100) ==>
      0 <= r.avgRiskScore.value <= 100
  {
    LevelPartition(assessments);
    var avg := if assessments == [] then None else Some(RoundDiv(ScoreSum(assessments), |assessments|));
    assert avg.Some? && (forall a :: a in assessments ==> 0 <= a.score <= 100) ==> 0 <= avg.value <= 100 by {
      if avg.Some? && (forall a :: a in assessments ==> 0 <= a.score <= 100) {
        ScoreSumBounds(assessments);
        RoundDivBounds(ScoreSum(assessments), |assessments|);
      }
    }
    Stats(
      |assessments|,
      Count(assessments, IsLow),
      Count(assessments, IsMedium),
      Count(assessments, IsHigh),
      Count(checks, IsPassed),
      |checks|,
      avg)
  }

  /** Every assessment falls in exactly one of Low, Medium, High and the rest. */
  lemma {:induction false} LevelPartition(assessments: seq<RiskAssessment>)
    ensures Count(assessments, IsLow) + Count(assessments, IsMedium) + Count(assessments, IsHigh)
          + Count(assessments, IsOtherLevel) == |assessments|
  {
    if assessments != [] {
      LevelPartition(assessments[1..]);
    }
  }

  /** Scores in [0, 100] sum to at most 100 per assessment. */
  lemma {:induction false} ScoreSumBounds(assessments: seq<RiskAssessment>)
    requires forall a :: a in assessments ==> 0 <= a.score <= 100
    ensures 0 <= ScoreSum(assessments) <= 100 * |assessments|
  {
    if assessments != [] {
      ScoreSumBounds(assessments[1..]);
    }
  }

  /** The compliance card: `Math.round(passed / total * 100)` percent, NaN
      (here `None`) when there are no checks. */
  function ComplianceScore(passed: nat, total: nat): (r: Option<int>)
    ensures r.None? <==> total == 0
    ensures r.Some? ==> 2 * total * r.value - total <= 200 * passed < 2 * total * r.value + total
    ensures r.Some? && passed <= total ==> 0 <= r.value <= 100
  {
    if total == 0 then None
    else
      RoundDivBounds(if passed <= total then 100 * passed else 0, total);
      Some(RoundDiv(100 * passed, total))
  }

  /** All checks passed is 100%, none passed is 0%. */
  lemma ComplianceScoreEnds(total: nat)
    requires total > 0
    ensures ComplianceScore(total, total) == Some(100)
    ensures ComplianceScore(0, total) == Some(0)
  {
    RoundDivExact(100, total);
    RoundDivExact(0, total);
  }

  /** The level tab ignores case but the cards do not: an assessment whose
      level is written "low" shows under the `'low'` tab yet is not counted
      as Low risk, and adding it leaves the Low card unchanged. */
  lemma LowercaseLevelFilteredButNotCounted(a: RiskAssessment, assessments: seq<RiskAssessment>, checks: seq<ComplianceCheck>)
    requires a in assessments && a.riskLevel == "low"
    ensures a in FilteredAssessments(assessments, Criteria("", LevelTabs[1]))
    ensures a !in Filter(assessments, IsLow)
    ensures RiskStats(assessments + [a], checks).lowRisk == RiskStats(assessments, checks).lowRisk
  {
    assert LevelTabs[1] == "low";
    ContainsEmpty(Lower(a.vendorName));
    assert Lower("low") == "low";
    assert Matches(a, Criteria("", "low"));
    FilterSpec(assessments, IsLow);
    FilterAppend(assessments, [a], IsLow);
    assert Filter([a], IsLow) == [];
  }

  /** The assessment card's `getRiskStyle`: a switch on the lower-cased
      level. */
  function RiskStyle(level: string): (r: Style)
    ensures Lower(level) == "low" ==> r == Style(Success, ShieldCheck)
    ensures Lower(level) == "medium" ==> r == Style(Warning, Shield)
    ensures Lower(level) == "high" ==> r == Style(Danger, ShieldAlert)
    ensures Lower(level) !in {"low", "medium", "high"} ==> r == Style(Muted, Shield)
  {
    match Lower(level)
    case "low" => Style(Success, ShieldCheck)
    case "medium" => Style(Warning, Shield)
    case "high" => Style(Danger, ShieldAlert)
    case _ => Style(Muted, Shield)
  }

  /** The compliance item's `getStatusStyle`: a switch on the status exactly
      as written. */
  function ComplianceStatusStyle(status: string): (r: Style)
    ensures status == "passed" ==> r == Style(Success, CheckCircle)
    ensures status == "failed" ==> r == Style(Danger, XCircle)
    ensures status == "pending" ==> r == Style(Warning, Clock)
    ensures status !in {"passed", "failed", "pending"} ==> r == Style(Muted, AlertCircle)
  {
    match status
    case "passed" => Style(Success, CheckCircle)
    case "failed" => Style(Danger, XCircle)
    case "pending" => Style(Warning, Clock)
    case _ => Style(Muted, AlertCircle)
  }

  /** The risk style ignores case, the compliance style does not: "HIGH"
      is styled as high risk, while "Passed" falls to the default. */
  lemma RiskStyleIgnoresCaseComplianceStyleDoesNot()
    ensures RiskStyle("HIGH") == Style(Danger, ShieldAlert)
    ensures ComplianceStatusStyle("Passed") == Style(Muted, AlertCircle)
  {
    assert Lower("HIGH") == "high";
  }
}
