/** The data layer of the Vendors page (src/pages/Vendors.jsx): the vendor
    filter, the summary cards, the risk colour and the status-badge class. */
module Vendors {
  import opened Seqs
  import opened Text
  import opened Records
  import opened Styles


  /** The page's `useState` criteria: search box, type and status selectors. */
  datatype Criteria = Criteria(searchTerm: string, selectedType: string, selectedStatus: string)

  /** Case-insensitive search over the name and the id. */
  predicate MatchesSearch(v: Vendor, searchTerm: string)
  {
    Contains(Lower(v.name), Lower(searchTerm)) || Contains(Lower(v.id), Lower(searchTerm))
  }

  /** The `vendors.filter` predicate: search AND type AND status, where
      `'all'` switches a selector off and the selectors compare exactly. */
  predicate Matches(v: Vendor, c: Criteria)
  {
    && MatchesSearch(v, c.searchTerm)
    && (c.selectedType == All || v.kind == c.selectedType)
    && (c.selectedStatus == All || v.status == c.selectedStatus)
  }

  /** `filteredVendors`: the matching vendors, in their order, each as often
      as in the input, and nothing else. */
  function FilteredVendors(vendors: seq<Vendor>, c: Criteria): (r: seq<Vendor>)
    ensures IsSubsequence(r, vendors)
    ensures forall v :: v in r <==> v in vendors && Matches(v, c)
    ensures forall v :: multiset(r)[v] == if Matches(v, c) then multiset(vendors)[v] else 0
  {
    var f := (v: Vendor) => Matches(v, c);
    FilterSpec(vendors, f);
    Filter(vendors, f)
  }

  /** The four summary cards. */
  datatype Stats = Stats(totalVendors: nat, active: nat, underReview: nat, totalContractValue: int)

  predicate IsActive(v: Vendor) { v.status == "Active" }
  predicate IsUnderReview(v: Vendor) { v.status == "Under Review" }

  /** A vendor neither card counts, such as an Inactive one. */
  predicate IsOtherStatus(v: Vendor) { !IsActive(v) && !IsUnderReview(v) }

  function ContractValue(v: Vendor): int { v.contractValue }

  /** The summary cards are computed over the whole `vendors` array, never
      over the filtered list. Active, Under Review and every other status
      partition the vendors. */
  function VendorStats(vendors: seq<Vendor>): (r: Stats)
    ensures r.totalVendors == |vendors|
    ensures r.active + r.underReview + Count(vendors, IsOtherStatus) == r.totalVendors
    ensures r.active + r.underReview <= r.totalVendors
    ensures (forall v :: v in vendors ==> v.contractValue >= 0) ==> r.totalContractValue >= 0
  {
    StatusPartition(vendors);
    Stats(|vendors|, Count(vendors, IsActive), Count(vendors, IsUnderReview), SumBy(vendors, ContractValue))
  }

  /** Every vendor falls in exactly one of Active, Under Review and the rest. */
  lemma {:induction false} StatusPartition(vendors: seq<Vendor>)
    ensures Count(vendors, IsActive) + Count(vendors, IsUnderReview) + Count(vendors, IsOtherStatus) == |vendors|
  {
    if vendors != [] {
      StatusPartition(vendors[1..]);
    }
  }

  /** What the page shows for one set of criteria: the cards, the grid and
      whether the "No vendors found" block appears. */
  datatype View = View(stats: Stats, shown: seq<Vendor>, noVendorsFound: bool)

  function Page(vendors: seq<Vendor>, c: Criteria): (r: View)
    ensures r.noVendorsFound <==> forall v :: v in vendors ==> !Matches(v, c)
    ensures r.shown == FilteredVendors(vendors, c)
  {
    var shown := FilteredVendors(vendors, c);
    FilterEmptyIff(vendors, (v: Vendor) => Matches(v, c));
    View(VendorStats(vendors), shown, |shown| == 0)
  }

  /** Changing the criteria never changes the summary cards. */
  lemma StatsIgnoreCriteria(vendors: seq<Vendor>, c1: Criteria, c2: Criteria)
    ensures Page(vendors, c1).stats == Page(vendors, c2).stats
    ensures Page(vendors, c1).stats.totalVendors == |vendors|
  {
  }

  /** An empty search with both selectors on `'all'` shows every vendor, in
      the original order. */
  lemma EmptyCriteriaKeepsAll(vendors: seq<Vendor>)
    ensures FilteredVendors(vendors, Criteria("", All, All)) == vendors
  {
    var c := Criteria("", All, All);
    forall v | v in vendors
      ensures Matches(v, c)
    {
      ContainsEmpty(Lower(v.name));
    }
    FilterAll(vendors, (v: Vendor) => Matches(v, c));
  }

  /** Searching first and then selecting type and status gives the same list
      as applying all three criteria at once. */
  lemma FilterComposes(vendors: seq<Vendor>, searchTerm: string, selectedType: string, selectedStatus: string)
    ensures FilteredVendors(FilteredVendors(vendors, Criteria(searchTerm, All, All)), Criteria("", selectedType, selectedStatus))
         == FilteredVendors(vendors, Criteria(searchTerm, selectedType, selectedStatus))
  {
    var c1 := Criteria(searchTerm, All, All);
    var c2 := Criteria("", selectedType, selectedStatus);
    var c := Criteria(searchTerm, selectedType, selectedStatus);
    forall v | v in vendors
      ensures Matches(v, c) == (Matches(v, c1) && Matches(v, c2))
    {
      ContainsEmpty(Lower(v.name));
    }
    FilterFilter(vendors, (v: Vendor) => Matches(v, c1), (v: Vendor) => Matches(v, c2), (v: Vendor) => Matches(v, c));
  }

  /** The search ignores case, but the type and status selectors do not: a
      search typed in capitals finds what its lower-case form finds, while a
      selector value in the wrong case finds nothing. */
  lemma SearchIgnoresCaseSelectorsDoNot(v: Vendor, q: string)
    ensures MatchesSearch(v, q) == MatchesSearch(v, Lower(q))
    ensures v.kind == "IT" ==> !Matches(v, Criteria(q, "it", All))
    ensures v.status == "Active" ==> !Matches(v, Criteria(q, All, "active"))
  {
    LowerIdempotent(q);
  }

  /** A name or id that contains the search term verbatim is always found. */
  lemma VerbatimHitIsFound(v: Vendor, q: string)
    requires Contains(v.name, q) || Contains(v.id, q)
    ensures MatchesSearch(v, q)
  {
    if Contains(v.name, q) {
      LowerPreservesContains(v.name, q);
    } else {
      LowerPreservesContains(v.id, q);
    }
  }

  /** `getRiskColor`: a total partition of the scores at 33 and 66. */
  function RiskColor(score: int): (r: Colour)
    ensures r == Success <==> score <= 33
    ensures r == Warning <==> 33 < score <= 66
    ensures r == Danger <==> score > 66
  {
    if score <= 33 then Success
    else if score <= 66 then Warning
    else Danger
  }

  /** A higher risk score never gets a milder colour. */
  lemma RiskColorMonotone(a: int, b: int)
    requires a <= b
    ensures Severity(RiskColor(a)) <= Severity(RiskColor(b))
  {
  }

  /** The `status-badge ${status.toLowerCase().replace(' ', '-')}` class. */
  function StatusBadgeClass(status: string): (r: string)
    ensures |r| == 13 + |status|
    ensures r[..13] == "status-badge "
    ensures ' ' !in status ==> r == "status-badge " + Lower(status)
  {
    LowerKeepsSpaces(status);
    "status-badge " + ReplaceFirst(Lower(status), ' ', '-')
  }

  /** A status made of a first word and a remainder joined by a space becomes
      the lower-cased first word, a hyphen and the lower-cased remainder:
      "Under Review" gives "under-review". Any further space in the remainder
      stays, because `replace` with a string pattern replaces only the first
      occurrence. */
  lemma StatusBadgeJoinsFirstSpace(first: string, rest: string)
    requires ' ' !in first
    ensures StatusBadgeClass(first + " " + rest) == "status-badge " + (Lower(first) + "-" + Lower(rest))
  {
    var status := first + " " + rest;
    assert status == first + [' '] + rest;
    assert Lower(status) == Lower(first) + [' '] + Lower(rest) by {
      LowerAppend(first + " ", rest);
      LowerAppend(first, " ");
    }
    LowerKeepsSpaces(first);
    ReplaceFirstSplit(Lower(first), ' ', '-', Lower(rest));
    assert ReplaceFirst(Lower(status), ' ', '-') == Lower(first) + "-" + Lower(rest);
  }
}
