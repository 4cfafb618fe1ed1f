/** The data layer of the SLA Management page (src/pages/SLAManagement.jsx):
    the SLA filter and status tabs, the summary counts and penalty total, the
    unit suffix, the penalty banner and the status style. */
module SlaManagement {
  import opened Options
  import opened Seqs
  import opened Text
  import opened Records
  import opened Styles
  import Money


  /** The status tabs, in the order the page lists them. */
  const StatusTabs: seq<string> := ["all", "exceeded", "on track", "at risk", "breached"]

  /** The four statuses the summary cards count. */
  predicate IsKnownStatus(s: string)
  {
    s == "Exceeded" || s == "On Track" || s == "At Risk" || s == "Breached"
  }

  datatype Criteria = Criteria(searchTerm: string, selectedStatus: string)

  /** Case-insensitive search over vendor name, service name and id. */
  predicate MatchesSearch(s: SlaRecord, searchTerm: string)
  {
    || Contains(Lower(s.vendorName), Lower(searchTerm))
    || Contains(Lower(s.serviceName), Lower(searchTerm))
    || Contains(Lower(s.id), Lower(searchTerm))
  }

  /** The `slaRecords.filter` predicate; the status test ignores case. */
  predicate Matches(s: SlaRecord, c: Criteria)
  {
    MatchesSearch(s, c.searchTerm) && (c.selectedStatus == All || Lower(s.status) == Lower(c.selectedStatus))
  }

  /** `filteredSLAs`: the matching records, in order, with their multiplicity. */
  function FilteredSlas(slas: seq<SlaRecord>, c: Criteria): (r: seq<SlaRecord>)
    ensures IsSubsequence(r, slas)
    ensures forall s :: s in r <==> s in slas && Matches(s, c)
    ensures forall s :: multiset(r)[s] == if Matches(s, c) then multiset(slas)[s] else 0
  {
    var f := (s: SlaRecord) => Matches(s, c);
    FilterSpec(slas, f);
    Filter(slas, f)
  }

  /** The two-word tab values lower-case to themselves, and so do the
      statuses they are meant to select. */
  lemma OnTrackLowers()
    ensures Lower("on track") == "on track" && Lower("On Track") == "on track"
  {
  }

  lemma AtRiskLowers()
    ensures Lower("at risk") == "at risk" && Lower("At Risk") == "at risk"
  {
  }

  /** The two-word tab `'on track'` selects the records whose status is
      `'On Track'`, among the four known statuses. */
  lemma OnTrackTabSelectsOnTrack(status: string)
    requires IsKnownStatus(status)
    ensures Lower(status) == Lower(StatusTabs[2]) <==> status == "On Track"
  {
    assert StatusTabs[2] == "on track";
    OnTrackLowers();
    if status == "At Risk" {
      assert |Lower(status)| == 7;
    } else if status == "Exceeded" {
      assert Lower(status)[0] == LowerChar('E');
    } else if status == "Breached" {
      assert Lower(status)[0] == LowerChar('B');
    }
  }

  /** The two-word tab `'at risk'` selects the records whose status is
      `'At Risk'`, among the four known statuses. */
  lemma AtRiskTabSelectsAtRisk(status: string)
    requires IsKnownStatus(status)
    ensures Lower(status) == Lower(StatusTabs[3]) <==> status == "At Risk"
  {
    assert StatusTabs[3] == "at risk";
    AtRiskLowers();
    if status != "At Risk" {
      assert |Lower(status)| == 8;
    }
  }

  /** An empty search on the `'all'` tab lists every record. */
  lemma EmptyCriteriaKeepsAll(slas: seq<SlaRecord>)
    ensures FilteredSlas(slas, Criteria("", All)) == slas
  {
    forall s | s in slas
      ensures Matches(s, Criteria("", All))
    {
      ContainsEmpty(Lower(s.vendorName));
    }
    FilterAll(slas, (s: SlaRecord) => Matches(s, Criteria("", All)));
  }

  /** The summary cards that are exact: counts and the penalty total. */
  datatype Stats = Stats(total: nat, exceeded: nat, onTrack: nat, atRisk: nat, breached: nat, totalPenalty: int)

  predicate IsExceeded(s: SlaRecord) { s.status == "Exceeded" }
  predicate IsOnTrack(s: SlaRecord) { s.status == "On Track" }
  predicate IsAtRisk(s: SlaRecord) { s.status == "At Risk" }
  predicate IsBreached(s: SlaRecord) { s.status == "Breached" }
  predicate IsUncounted(s: SlaRecord) { !IsKnownStatus(s.status) }

  /** `stats`: over every record, whatever the filter. The four status counts
      never exceed the total and reach it when every status is one of the
      four exact strings; the penalty total is non-negative when every
      penalty is. */
  function SlaStats(slas: seq<SlaRecord>): (r: Stats)
    ensures r.total == |slas|
    ensures r.exceeded + r.onTrack + r.atRisk + r.breached + Count(slas, IsUncounted) == r.total
    ensures r.exceeded + r.onTrack + r.atRisk + r.breached <= r.total
    ensures (forall s :: s in slas ==> IsKnownStatus(s.status)) ==> r.exceeded + r.onTrack + r.atRisk + r.breached == r.total
    ensures (forall s :: s in slas ==> s.penalty >= 0) ==> r.totalPenalty >= 0
  {
    StatusCountsPartition(slas);
    assert (forall s :: s in slas ==> IsKnownStatus(s.status)) ==> Count(slas, IsUncounted) == 0 by {
      FilterEmptyIff(slas, IsUncounted);
    }
    Stats(
      |slas|,
      Count(slas, IsExceeded),
      Count(slas, IsOnTrack),
      Count(slas, IsAtRisk),
      Count(slas, IsBreached),
      SumBy(slas, (s: SlaRecord) => s.penalty))
  }

  /** Every record is counted by exactly one of the four status filters or
      by none of them. */
  lemma {:induction false} StatusCountsPartition(slas: seq<SlaRecord>)
    ensures Count(slas, IsExceeded) + Count(slas, IsOnTrack) + Count(slas, IsAtRisk) + Count(slas, IsBreached)
          + Count(slas, IsUncounted) == |slas|
  {
    if slas != [] {
      StatusCountsPartition(slas[1..]);
    }
  }

  /** `isPercentMetric ? '%' : ` ${unit}``: a missing or empty unit means a
      percentage. */
  function UnitSuffix(unit: Option<string>): (r: string)
    ensures r == "%" <==> !Truthy(unit)
    ensures Truthy(unit) ==> r == " " + unit.value
  {
    if !Truthy(unit) then "%" else " " + unit.value
  }

  /** The penalty banner: shown only for a positive penalty, with the amount
      in lakh to two decimals, whatever its size. */
  function PenaltyBanner(s: SlaRecord): (r: Option<Money.Amount>)
    ensures r.Some? <==> s.penalty > 0
    ensures r.Some? ==> r.value.band == Money.L && r.value.digits == 2
    ensures r.Some? ==> r.value.scaled > 0.0 && r.value.scaled * Money.Lakh as real == s.penalty as real
  {
    if s.penalty > 0 then Some(Money.Amount(Money.L, s.penalty as real / Money.Lakh as real, 2)) else None
  }

  /** The card's `getStatusStyle`: a switch on the lower-cased status. */
  function StatusStyle(status: string): (r: Style)
    ensures Lower(status) == "exceeded" ==> r == Style(Success, TrendingUp)
    ensures Lower(status) == "on track" ==> r == Style(Primary, CheckCircle)
    ensures Lower(status) == "at risk" ==> r == Style(Warning, AlertTriangle)
    ensures Lower(status) == "breached" ==> r == Style(Danger, XCircle)
    ensures Lower(status) !in {"exceeded", "on track", "at risk", "breached"} ==> r == Style(Muted, Clock)
  {
    match Lower(status)
    case "exceeded" => Style(Success, TrendingUp)
    case "on track" => Style(Primary, CheckCircle)
    case "at risk" => Style(Warning, AlertTriangle)
    case "breached" => Style(Danger, XCircle)
    case _ => Style(Muted, Clock)
  }

  /** The style depends on the status only through its lower-cased form. */
  lemma StyleIgnoresCase(status: string)
    ensures StatusStyle(status) == StatusStyle(Lower(status))
  {
    LowerIdempotent(status);
  }
}
