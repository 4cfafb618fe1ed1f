/** The data layer of the Billing page (src/pages/Billing.jsx): the bill
    filter and status tabs, the payment summary, the currency bands, the
    status style and the per-status action buttons. */
module Billing {
  import opened Options
  import opened Seqs
  import opened Text
  import opened Records
  import opened Styles
  import Money


  /** The status tabs, in the order the page lists them. */
  const StatusTabs: seq<string> := ["all", "pending", "approved", "paid", "on hold"]

  /** The statuses the bills carry. */
  predicate IsKnownStatus(s: string)
  {
    s == "Pending" || s == "Approved" || s == "Paid" || s == "On Hold" || s == "Rejected"
  }

  datatype Criteria = Criteria(searchTerm: string, selectedStatus: string)

  /** Case-insensitive search over vendor name, invoice number and vendor id. */
  predicate MatchesSearch(b: Bill, searchTerm: string)
  {
    || Contains(Lower(b.vendorName), Lower(searchTerm))
    || Contains(Lower(b.invoiceNo), Lower(searchTerm))
    || Contains(Lower(b.vendorId), Lower(searchTerm))
  }

  /** The `billingRecords.filter` predicate: the status test ignores case on
      both sides; only the exact string `'all'` switches it off. */
  predicate Matches(b: Bill, c: Criteria)
  {
    MatchesSearch(b, c.searchTerm) && (c.selectedStatus == All || Lower(b.status) == Lower(c.selectedStatus))
  }

  /** `filteredBills`: the matching bills, in order, with their multiplicity. */
  function FilteredBills(bills: seq<Bill>, c: Criteria): (r: seq<Bill>)
    ensures IsSubsequence(r, bills)
    ensures forall b :: b in r <==> b in bills && Matches(b, c)
    ensures forall b :: multiset(r)[b] == if Matches(b, c) then multiset(bills)[b] else 0
  {
    var f := (b: Bill) => Matches(b, c);
    FilterSpec(bills, f);
    Filter(bills, f)
  }

  /** Among the statuses bills carry, only `'On Hold'` lower-cases to the
      tab value `'on hold'`. */
  lemma OnHoldIsTheOnlyOnHold(status: string)
    requires IsKnownStatus(status)
    ensures Lower(status) == "on hold" <==> status == "On Hold"
  {
    if status == "On Hold" {
      assert Lower("On Hold") == "on hold";
    } else if status == "Pending" {
      assert Lower(status)[0] == 'p';
    } else {
      assert status == "Approved" || status == "Paid" || status == "Rejected";
      assert |Lower(status)| != 7;
    }
  }

  /** The lower-case tab `'on hold'` selects the bills whose status reads
      "on hold" in any case; among the statuses bills carry, that is exactly
      `'On Hold'`. */
  lemma OnHoldTabSelectsOnHold(bills: seq<Bill>, searchTerm: string, b: Bill)
    requires IsKnownStatus(b.status)
    ensures b in FilteredBills(bills, Criteria(searchTerm, StatusTabs[4]))
        <==> b in bills && MatchesSearch(b, searchTerm) && b.status == "On Hold"
  {
    assert StatusTabs[4] == "on hold";
    assert Lower("on hold") == "on hold";
    OnHoldIsTheOnlyOnHold(b.status);
  }

  /** An empty search on the `'all'` tab lists every bill. */
  lemma EmptyCriteriaKeepsAll(bills: seq<Bill>)
    ensures FilteredBills(bills, Criteria("", All)) == bills
  {
    forall b | b in bills
      ensures Matches(b, Criteria("", All))
    {
      ContainsEmpty(Lower(b.vendorName));
    }
    FilterAll(bills, (b: Bill) => Matches(b, Criteria("", All)));
  }

  /** The summary cards. */
  datatype Stats = Stats(
    totalInvoiced: int,
    totalPayable: int,
    paid: int,
    pending: int,
    onHold: int,
    invoiceCount: nat)

  predicate IsPaid(b: Bill) { b.status == "Paid" }
  predicate IsPendingGroup(b: Bill) { b.status == "Pending" || b.status == "Approved" }
  predicate IsOnHold(b: Bill) { b.status == "On Hold" }

  /** A bill that falls in none of the three payment groups (Rejected, or
      any unknown status). */
  predicate IsUngrouped(b: Bill) { !IsPaid(b) && !IsPendingGroup(b) && !IsOnHold(b) }

  function Net(s: seq<Bill>): int
  {
    SumBy(s, (b: Bill) => b.netPayable)
  }

  /** `stats`: over every bill, whatever the filter. With non-negative net
      amounts, the three groups never add up to more than the total. */
  function BillingStats(bills: seq<Bill>): (r: Stats)
    ensures r.invoiceCount == |bills|
    ensures r.paid + r.pending + r.onHold + Net(Filter(bills, IsUngrouped)) == r.totalPayable
    ensures (forall b :: b in bills ==> b.netPayable >= 0) ==> r.paid + r.pending + r.onHold <= r.totalPayable
  {
    StatsPartition(bills);
    Stats(
      SumBy(bills, (b: Bill) => b.amount),
      Net(bills),
      Net(Filter(bills, IsPaid)),
      Net(Filter(bills, IsPendingGroup)),
      Net(Filter(bills, IsOnHold)),
      |bills|)
  }

  /** The net total splits into the three groups and the ungrouped rest. */
  lemma {:induction false} StatsPartition(bills: seq<Bill>)
    ensures Net(Filter(bills, IsPaid)) + Net(Filter(bills, IsPendingGroup)) + Net(Filter(bills, IsOnHold))
          + Net(Filter(bills, IsUngrouped)) == Net(bills)
  {
    if bills != [] {
      StatsPartition(bills[1..]);
      var b := bills[0];
      var k := (b: Bill) => b.netPayable;
      if IsPaid(b) { SumByCons(b, Filter(bills[1..], IsPaid), k); }
      if IsPendingGroup(b) { SumByCons(b, Filter(bills[1..], IsPendingGroup), k); }
      if IsOnHold(b) { SumByCons(b, Filter(bills[1..], IsOnHold), k); }
      if IsUngrouped(b) { SumByCons(b, Filter(bills[1..], IsUngrouped), k); }
    }
  }

  /** A Rejected bill counts in the invoice count and the two totals only: it
      leaves the paid, pending and on-hold cards unchanged. */
  lemma RejectedCountsOnlyInTotals(bills: seq<Bill>, b: Bill)
    requires b.status == "Rejected"
    ensures var before, after := BillingStats(bills), BillingStats(bills + [b]);
      && after.invoiceCount == before.invoiceCount + 1
      && after.totalPayable == before.totalPayable + b.netPayable
      && after.totalInvoiced == before.totalInvoiced + b.amount
      && after.paid == before.paid
      && after.pending == before.pending
      && after.onHold == before.onHold
  {
    var net := (x: Bill) => x.netPayable;
    SumByAppend(bills, [b], net);
    SumByAppend(bills, [b], (x: Bill) => x.amount);
    FilterAppend(bills, [b], IsPaid);
    FilterAppend(bills, [b], IsPendingGroup);
    FilterAppend(bills, [b], IsOnHold);
    assert Filter([b], IsPaid) == [] && Filter([b], IsPendingGroup) == [] && Filter([b], IsOnHold) == [];
    assert Filter(bills + [b], IsPaid) == Filter(bills, IsPaid);
    assert Filter(bills + [b], IsPendingGroup) == Filter(bills, IsPendingGroup);
    assert Filter(bills + [b], IsOnHold) == Filter(bills, IsOnHold);
  }

  /** The page's `formatCurrency`, used on the summary cards (one decimal). */
  function FormatCurrency(amount: int): (r: Money.Amount)
    ensures r.band == Money.Cr <==> amount >= 10000000
    ensures r.band == Money.L <==> 100000 <= amount < 10000000
    ensures r.band == Money.Raw <==> amount < 100000
    ensures r.scaled * Money.Unit(r.band) as real == amount as real
    ensures r.digits == 1
  {
    Money.Format(amount, 1)
  }

  /** The bill card's own `formatCurrency`: same bands, two decimals. */
  function FormatCardCurrency(amount: int): (r: Money.Amount)
    ensures r.band == FormatCurrency(amount).band && r.scaled == FormatCurrency(amount).scaled
    ensures r.digits == 2
  {
    Money.Format(amount, 2)
  }

  /** The bill card's `getStatusStyle`: a switch on the lower-cased status. */
  function StatusStyle(status: string): (r: Style)
    ensures Lower(status) == "paid" ==> r == Style(Success, CheckCircle)
    ensures Lower(status) == "approved" ==> r == Style(Primary, CheckCircle)
    ensures Lower(status) == "pending" ==> r == Style(Warning, Clock)
    ensures Lower(status) == "on hold" ==> r == Style(Danger, AlertTriangle)
    ensures Lower(status) == "rejected" ==> r == Style(Danger, XCircle)
    ensures Lower(status) !in {"paid", "approved", "pending", "on hold", "rejected"} ==> r == Style(Muted, Clock)
  {
    match Lower(status)
    case "paid" => Style(Success, CheckCircle)
    case "approved" => Style(Primary, CheckCircle)
    case "pending" => Style(Warning, Clock)
    case "on hold" => Style(Danger, AlertTriangle)
    case "rejected" => Style(Danger, XCircle)
    case _ => Style(Muted, Clock)
  }

  datatype Action = ProcessPayment | Approve | Review

  /** The buttons after "View": three independent exact-status tests. */
  function Actions(status: string): (r: seq<Action>)
    ensures |r| <= 1
    ensures ProcessPayment in r <==> status == "Approved"
    ensures Approve in r <==> status == "Pending"
    ensures Review in r <==> status == "On Hold"
  {
    (if status == "Approved" then [ProcessPayment] else [])
    + (if status == "Pending" then [Approve] else [])
    + (if status == "On Hold" then [Review] else [])
  }

  /** The hold-reason banner appears when `holdReason` is truthy. */
  function ShowsHoldReason(b: Bill): (shown: bool)
    ensures shown <==> b.holdReason.Some? && b.holdReason.value != ""
  {
    Truthy(b.holdReason)
  }

  /** On a bill whose hold reason is set exactly when it is On Hold, the
      banner and the Review button appear together. */
  lemma HoldBannerGoesWithReview(b: Bill)
    requires Truthy(b.holdReason) <==> b.status == "On Hold"
    ensures ShowsHoldReason(b) <==> Review in Actions(b.status)
  {
  }
}
