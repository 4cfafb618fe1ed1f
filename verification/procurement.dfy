/** The data layer of the Procurement page (src/pages/Procurement.jsx): the
    stage lookup and its five-segment progress bar, the card's icon, colour
    and value cells, the procurement filter and the summary cards. */
module Procurement {
  import opened Options
  import opened Seqs
  import opened Text
  import opened Records
  import opened Styles
  import opened Rounding
  import Money


  /** The five stages, in pipeline order. */
  const Stages: seq<string> := ["Requirement Gathering", "Committee Review", "RFP Published", "Technical Evaluation", "Contract Finalization"]

  /** The object literal that `getStageIndex` indexes, as its own keys. */
  const StageMap: map<string, int> := map[
    "Requirement Gathering" := 0,
    "Committee Review" := 1,
    "RFP Published" := 2,
    "Technical Evaluation" := 3,
    "Contract Finalization" := 4]

  /** `getStageIndex`: the position of a known stage, and 0 for any other
      name. This is the lookup restricted to the object's own keys; see
      `StageIndexAsWritten` for what the plain property access does with an
      inherited name. */
  function GetStageIndex(stageName: string): (r: int)
    ensures 0 <= r < |Stages|
    ensures stageName in StageMap ==> Stages[r] == stageName
    ensures stageName !in StageMap ==> r == 0
  {
    if stageName in StageMap then StageMap[stageName] else 0
  }

  /** The five labels map, in order, to 0..4. */
  lemma StageIndexInOrder(i: int)
    requires 0 <= i < |Stages|
    ensures GetStageIndex(Stages[i]) == i
  {
  }

  /** The names `Object.prototype` provides to every object literal, which a
      bracket lookup on `stageMap` finds although they are not stages. */
  predicate IsObjectPrototypeMember(name: string)
  {
    || name == "constructor" || name == "__proto__" || name == "toString"
    || name == "toLocaleString" || name == "valueOf" || name == "hasOwnProperty"
    || name == "isPrototypeOf" || name == "propertyIsEnumerable"
    || name == "__defineGetter__" || name == "__defineSetter__"
    || name == "__lookupGetter__" || name == "__lookupSetter__"
  }

  /** A JavaScript value `stageMap[name] || 0` can produce: a number, or the
      inherited member (a function or the prototype object), which is truthy
      and so survives the `|| 0`. */
  datatype StageValue = Index(n: int) | Inherited(name: string)

  /** `getStageIndex` exactly as written: the bracket lookup also finds the
      inherited prototype members. */
  function StageIndexAsWritten(stageName: string): (r: StageValue)
    ensures r.Inherited? <==> IsObjectPrototypeMember(stageName)
  {
    if stageName in StageMap then Index(StageMap[stageName])
    else if IsObjectPrototypeMember(stageName) then Inherited(stageName)
    else Index(0)
  }

  /** For every name that is not an inherited member, the written lookup and
      `GetStageIndex` agree. */
  lemma StageIndexAgreesOffPrototype(stageName: string)
    requires !IsObjectPrototypeMember(stageName)
    ensures StageIndexAsWritten(stageName) == Index(GetStageIndex(stageName))
  {
  }

  /** `index <= currentStage` for the written lookup: comparing a number with
      a function or object converts it to NaN, and every comparison with NaN
      is false. */
  predicate FilledAsWritten(index: int, stage: StageValue)
  {
    match stage
    case Index(n) => index <= n
    case Inherited(_) => false
  }

  /** The progress bar's fill rule: segment `i` is lit iff `i <= currentStage`. */
  function Segments(currentStage: int): (r: seq<bool>)
    ensures |r| == |Stages|
    ensures forall i :: 0 <= i < |r| ==> (r[i] <==> i <= currentStage)
  {
    seq(|Stages|, i => i <= currentStage)
  }

  function IsLit(b: bool): bool { b }

  /** A lit prefix of `k + 1` segments followed by unlit ones holds exactly
      `k + 1` lit segments. */
  lemma {:induction false} LitPrefixCount(s: seq<bool>, k: int)
    requires -1 <= k < |s|
    requires forall i :: 0 <= i < |s| ==> (s[i] <==> i <= k)
    ensures Count(s, IsLit) == k + 1
  {
    if s == [] {
    } else if k == -1 {
      FilterEmptyIff(s, IsLit);
    } else {
      assert s[0];
      LitPrefixCount(s[1..], k - 1);
    }
  }

  /** Every card lights between one and five segments: one more than its
      stage index. */
  lemma FilledSegments(stageName: string)
    ensures Count(Segments(GetStageIndex(stageName)), IsLit) == GetStageIndex(stageName) + 1
    ensures 1 <= Count(Segments(GetStageIndex(stageName)), IsLit) <= |Stages|
  {
    LitPrefixCount(Segments(GetStageIndex(stageName)), GetStageIndex(stageName));
  }

  /** The segments the written code lights. */
  function SegmentsAsWritten(stage: StageValue): (r: seq<bool>)
    ensures |r| == |Stages|
    ensures forall i :: 0 <= i < |r| ==> (r[i] <==> FilledAsWritten(i, stage))
  {
    seq(|Stages|, i => FilledAsWritten(i, stage))
  }

  /** A procurement whose stage reads "constructor" lights no segment at all
      in the written code, although every stage name is meant to light at
      least the first one; `GetStageIndex` lights exactly one. */
  lemma ConstructorStageLightsNothing()
    ensures Count(SegmentsAsWritten(StageIndexAsWritten("constructor")), IsLit) == 0
    ensures Count(Segments(GetStageIndex("constructor")), IsLit) == 1
  {
    var written := SegmentsAsWritten(StageIndexAsWritten("constructor"));
    assert StageIndexAsWritten("constructor") == Inherited("constructor");
    FilterEmptyIff(written, IsLit);
    FilledSegments("constructor");
  }

  /** `getStatusIcon`: an exact-case switch on the status. */
  function StatusIcon(status: string): (r: Icon)
    ensures status == "Approved" <==> r == CheckCircle
    ensures status == "Pending" <==> r == AlertCircle
    ensures status == "Draft" <==> r == FileText
    ensures r in {CheckCircle, AlertCircle, FileText, Clock}
  {
    match status
    case "Approved" => CheckCircle
    case "In Progress" => Clock
    case "Pending" => AlertCircle
    case "Draft" => FileText
    case _ => Clock
  }

  /** The three accent colours `getTypeColor` chooses from. */
  datatype Accent = PrimaryAccent | SecondaryAccent | TertiaryAccent

  /** `getTypeColor`: IT, Non-IT, and everything else. */
  function TypeColour(kind: string): (r: Accent)
    ensures r == PrimaryAccent <==> kind == "IT"
    ensures r == SecondaryAccent <==> kind == "Non-IT"
  {
    if kind == "IT" then PrimaryAccent
    else if kind == "Non-IT" then SecondaryAccent
    else TertiaryAccent
  }

  /** The Est. Value cell: `(estimatedValue / 10000000).toFixed(0)` crore.
      `toFixed` rounds the magnitude to the nearest integer with halves
      going up, and writes the sign separately. */
  function CroreFigure(estimatedValue: int): (r: int)
    ensures estimatedValue >= 0 ==>
      2 * Money.Crore * r - Money.Crore <= 2 * estimatedValue < 2 * Money.Crore * r + Money.Crore
    ensures estimatedValue < 0 ==>
      2 * Money.Crore * r - Money.Crore < 2 * estimatedValue <= 2 * Money.Crore * r + Money.Crore
    ensures estimatedValue >= 0 ==> r >= 0
    ensures estimatedValue <= 0 ==> r <= 0
  {
    if estimatedValue >= 0 then
      var r := RoundDiv(estimatedValue, Money.Crore);
      assert r >= 0 by {
        MulSign(Money.Crore, 2 * r + 1);
      }
      r
    else
      var m := RoundDiv(-estimatedValue, Money.Crore);
      assert m >= 0 by {
        MulSign(Money.Crore, 2 * m + 1);
      }
      -m
  }

  /** A whole number of crore is shown as itself. */
  lemma CroreFigureExact(k: nat)
    ensures CroreFigure(k * Money.Crore) == k
  {
    RoundDivExact(k, Money.Crore);
  }

  /** The Submitted cell: a dash when the date is missing or empty, the date
      otherwise. */
  datatype DateCell = Dash | Date(iso: string)

  function SubmittedCell(p: ProcurementRecord): (r: DateCell)
    ensures r == Dash <==> !Truthy(p.submittedDate)
    ensures r.Date? ==> Some(r.iso) == p.submittedDate
  {
    if Truthy(p.submittedDate) then Date(p.submittedDate.value) else Dash
  }

  /** The page's criteria: search box, status and type selectors. */
  datatype Criteria = Criteria(searchTerm: string, selectedStatus: string, selectedType: string)

  /** Case-insensitive search over title and id. */
  predicate MatchesSearch(p: ProcurementRecord, searchTerm: string)
  {
    Contains(Lower(p.title), Lower(searchTerm)) || Contains(Lower(p.id), Lower(searchTerm))
  }

  /** The `procurements.filter` predicate; both selectors compare exactly. */
  predicate Matches(p: ProcurementRecord, c: Criteria)
  {
    && MatchesSearch(p, c.searchTerm)
    && (c.selectedStatus == All || p.status == c.selectedStatus)
    && (c.selectedType == All || p.kind == c.selectedType)
  }

  /** `filteredProcurements`: the matching records, in order, with their
      multiplicity, and nothing else. */
  function FilteredProcurements(procurements: seq<ProcurementRecord>, c: Criteria): (r: seq<ProcurementRecord>)
    ensures IsSubsequence(r, procurements)
    ensures forall p :: p in r <==> p in procurements && Matches(p, c)
    ensures forall p :: multiset(r)[p] == if Matches(p, c) then multiset(procurements)[p] else 0
  {
    var f := (p: ProcurementRecord) => Matches(p, c);
    FilterSpec(procurements, f);
    Filter(procurements, f)
  }

  /** An empty search with both selectors on `'all'` lists every record. */
  lemma EmptyCriteriaKeepsAll(procurements: seq<ProcurementRecord>)
    ensures FilteredProcurements(procurements, Criteria("", All, All)) == procurements
  {
    forall p | p in procurements
      ensures Matches(p, Criteria("", All, All))
    {
      ContainsEmpty(Lower(p.title));
    }
    FilterAll(procurements, (p: ProcurementRecord) => Matches(p, Criteria("", All, All)));
  }

  /** The summary cards, over every procurement. */
  datatype Stats = Stats(total: nat, approved: nat, inProgress: nat, pending: nat, totalValue: int)

  predicate IsApproved(p: ProcurementRecord) { p.status == "Approved" }
  predicate IsInProgress(p: ProcurementRecord) { p.status == "In Progress" }
  predicate IsPending(p: ProcurementRecord) { p.status == "Pending" }

  /** A record no status card counts, such as a Draft. */
  predicate IsOtherStatus(p: ProcurementRecord) { !IsApproved(p) && !IsInProgress(p) && !IsPending(p) }

  function EstimatedValue(p: ProcurementRecord): int { p.estimatedValue }

  /** `stats`: three status counts that, with the uncounted rest, partition
      the records, and the estimated values summed. */
  function ProcurementStats(procurements: seq<ProcurementRecord>): (r: Stats)
    ensures r.total == |procurements|
    ensures r.approved + r.inProgress + r.pending + Count(procurements, IsOtherStatus) == r.total
    ensures r.approved + r.inProgress + r.pending <= r.total
    ensures (forall p :: p in procurements ==> p.estimatedValue >= 0) ==> r.totalValue >= 0
  {
    StatusPartition(procurements);
    Stats(
      |procurements|,
      Count(procurements, IsApproved),
      Count(procurements, IsInProgress),
      Count(procurements, IsPending),
      SumBy(procurements, EstimatedValue))
  }

  /** Every record falls in exactly one of Approved, In Progress, Pending and
      the rest. */
  lemma {:induction false} StatusPartition(procurements: seq<ProcurementRecord>)
    ensures Count(procurements, IsApproved) + Count(procurements, IsInProgress) + Count(procurements, IsPending)
          + Count(procurements, IsOtherStatus) == |procurements|
  {
    if procurements != [] {
      StatusPartition(procurements[1..]);
    }
  }

  /** A Draft falls in no status bucket: adding one raises the total and the
      total value and leaves the three counts as they were. */
  lemma DraftCountsOnlyInTotals(procurements: seq<ProcurementRecord>, d: ProcurementRecord)
    requires d.status == "Draft"
    ensures var before := ProcurementStats(procurements);
      ProcurementStats(procurements + [d])
      == before.(total := before.total + 1, totalValue := before.totalValue + d.estimatedValue)
  {
    FilterAppend(procurements, [d], IsApproved);
    FilterAppend(procurements, [d], IsInProgress);
    FilterAppend(procurements, [d], IsPending);
    SumByAppend(procurements, [d], EstimatedValue);
    assert SumBy([d], EstimatedValue) == d.estimatedValue;
  }
}
