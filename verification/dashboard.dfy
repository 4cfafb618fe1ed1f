/** The data layer of the Dashboard page (src/pages/Dashboard.jsx): the risk
    bar level, the currency bands of the cards, the SLA table's penalty and
    unit cells, and the five-row vendor and activity lists. */
module Dashboard {
  import opened Options
  import opened Seqs
  import opened Records
  import opened Styles
  import Money
  import Vendors
  import Billing
  import SlaManagement
  import Analytics

  /** The three classes `getLevel` gives the risk bar. */
  datatype Level = Low | Medium | High

  /** `getLevel`: a total partition of the scores at 33 and 66. */
  function GetLevel(score: int): (r: Level)
    ensures r == Low <==> score <= 33
    ensures r == Medium <==> 33 < score <= 66
    ensures r == High <==> score > 66
  {
    if score <= 33 then Low
    else if score <= 66 then Medium
    else High
  }

  /** The dashboard's risk bar and the vendor card's risk colour draw the
      same two lines: low is success, medium is warning, high is danger. */
  lemma LevelAgreesWithRiskColour(score: int)
    ensures GetLevel(score) == Low <==> Vendors.RiskColor(score) == Success
    ensures GetLevel(score) == Medium <==> Vendors.RiskColor(score) == Warning
    ensures GetLevel(score) == High <==> Vendors.RiskColor(score) == Danger
  {
  }

  /** The page's `formatCurrency` draws the same bands, with the same one
      decimal, as the billing page's summary-card formatter: crore from 10,000,000, lakh
      from 100,000, the plain amount below. */
  function FormatCurrency(value: int): (r: Money.Amount)
    ensures r == Billing.FormatCurrency(value)
    ensures r.band == Money.Cr <==> value >= Money.Crore
  {
    Money.Format(value, 1)
  }

  /** The SLA table's penalty cell: a dash, or the amount in lakh shown in
      the danger colour. */
  datatype PenaltyCell = Dash | Lakh(amount: Money.Amount)

  /** The cell prints the lakh figure to one decimal, whatever its size. */
  function PenaltyCellOf(s: SlaRecord): (r: PenaltyCell)
    ensures r == Dash <==> s.penalty <= 0
    ensures r.Lakh? ==> r.amount.band == Money.L && r.amount.digits == 1
    ensures r.Lakh? ==> r.amount.scaled > 0.0 && r.amount.scaled * Money.Lakh as real == s.penalty as real
  {
    if s.penalty > 0 then Lakh(Money.Amount(Money.L, s.penalty as real / Money.Lakh as real, 1)) else Dash
  }

  /** The dashboard shows a penalty exactly for the records whose SLA card
      shows the penalty banner, with the same exact lakh value; the table
      prints it to one decimal and the card to two, so the two texts can
      differ (125,000 is 1.3 in the table and 1.25 on the card). */
  lemma PenaltyCellAgreesWithBanner(s: SlaRecord)
    ensures PenaltyCellOf(s).Lakh? <==> SlaManagement.PenaltyBanner(s).Some?
    ensures PenaltyCellOf(s).Lakh? ==>
      var cell, banner := PenaltyCellOf(s).amount, SlaManagement.PenaltyBanner(s).value;
      cell.band == banner.band && cell.scaled == banner.scaled && cell.digits == 1 && banner.digits == 2
  {
  }

  /** `recentActivities.slice(0, 5)`: the first five activities, or all of
      them when there are fewer, in feed order. */
  function RecentActivities(activities: seq<Activity>): (r: seq<Activity>)
    ensures |r| == Min(5, |activities|) && |r| <= 5
    ensures r == activities[..|r|]
    ensures |activities| <= 5 ==> r == activities
  {
    Take(activities, 5)
  }

  /** `icons[activity.type] || AlertCircle`: the four known types, and the
      fallback icon for every other type. */
  function ActivityIcon(kind: string): (r: Icon)
    ensures kind == "success" <==> r == CheckCircle
    ensures kind == "warning" <==> r == AlertTriangle
    ensures kind == "info" <==> r == FileText
    ensures kind == "danger" <==> r == XCircle
    ensures r == AlertCircle <==> kind !in {"success", "warning", "info", "danger"}
  {
    match kind
    case "success" => CheckCircle
    case "warning" => AlertTriangle
    case "info" => FileText
    case "danger" => XCircle
    case _ => AlertCircle
  }

  /** `vendors.slice(0, 5)`: the first five rows of the shared array, in
      array order. */
  function TopVendors(vendors: seq<Vendor>): (r: seq<Vendor>)
    ensures |r| == Min(5, |vendors|)
    ensures r == vendors[..|r|]
  {
    Take(vendors, 5)
  }

  /** Once the Analytics module has sorted the shared array, the dashboard's
      first five rows are the five largest contracts: non-increasing, and no
      vendor left out has a larger value than one shown. */
  lemma TopVendorsAfterSort(original: seq<Vendor>)
    ensures TopVendors(Analytics.SortDesc(original)) == Analytics.TopFive(original)
    ensures Analytics.SortedDesc(TopVendors(Analytics.SortDesc(original)))
    ensures forall w, v :: w in multiset(original) - multiset(TopVendors(Analytics.SortDesc(original)))
                        && v in TopVendors(Analytics.SortDesc(original))
                        ==> w.contractValue <= v.contractValue
  {
    Analytics.TopFiveProperties(original);
  }

  /** The application's order of events: loading the Analytics module sorts
      the shared array in place, and the dashboard renders afterwards from
      that same array, so both pages list the same five vendors. */
  method LoadAnalyticsThenRender(vendors: array<Vendor>) returns (analyticsTop: seq<Vendor>, dashboardTop: seq<Vendor>)
    modifies vendors
    ensures dashboardTop == analyticsTop == Analytics.TopFive(old(vendors[..]))
  {
    analyticsTop := Analytics.TopVendorsBySpend(vendors);
    dashboardTop := TopVendors(vendors[..]);
  }
}
