# Vendor management dashboard: the verified data layer

The dashboard is a React application with seven pages: Dashboard, Vendors,
Procurement, SLA Management, Risk & Compliance, Billing and Analytics. Under
the markup, every page has a small, deterministic data layer:

- it narrows a record array with a case-insensitive text search ANDed with
  categorical selectors (`'all'` switches a selector off);
- it computes summary cards by counting, summing and averaging over the
  whole array;
- it classifies numbers and strings into colours, icons, bands and labels.

The Analytics module also sorts the shared vendor array in place when it
loads. The Dashboard's top-vendor table then relies on that sort.

This project models that data layer in Dafny and proves what each piece
promises:

- Each filter returns an order-preserving subsequence. It holds every match
  as often as the input does, and nothing else.
- The status and level cards, together with the records no card counts,
  partition the records.
- Each classifier is a total partition of its inputs.
- The sort is a stable, descending permutation, and the top five are the
  five largest contracts.
- The procurement stage lookup lights between one and five progress
  segments (see Findings).

Layout:

- `options.dfy`, `seqs.dfy`, `text.dfy`: the JavaScript operations the
  pages use. These are `filter`, `filter(...).length`, `reduce` into a sum
  and `slice(0, n)` on arrays, plus `toLowerCase`, `includes` and
  `replace` on strings.
- `records.dfy`: the record shapes (only the fields the pages read) and
  JavaScript truthiness of an optional string.
- `styles.dfy`: the colour and icon of a style object.
- `money.dfy`: the crore/lakh currency bands.
- `rounding.dfy`: `Math.round` of a ratio.
- One module per page: `vendors.dfy`, `billing.dfy`, `sla_management.dfy`,
  `risk_compliance.dfy`, `procurement.dfy`, `analytics.dfy`,
  `dashboard.dfy`.

Every page is pure except the Analytics sort. That sort is a method on an
`array<Vendor>` with a `modifies` clause, proved equal to a functional
stable sort.

Status matching is not uniform across the pages. The Billing status filter
(src/pages/Billing.jsx:230), the SLA status filter
(src/pages/SLAManagement.jsx:193) and the Risk & Compliance level filter
(src/pages/RiskCompliance.jsx:267) lower-case both sides. The Vendors and
Procurement selectors compare exactly, and so do the summary cards of
every page.

The Risk & Compliance average and compliance score use `Math.round` and
are integers; `rounding.dfy` models that rounding exactly.

## Model

| member | source | states |
|---|---|---|
| Seqs.Filter | src/pages/Vendors.jsx:368-374 | `Array.prototype.filter`: no longer than its input; every element kept is from the input and satisfies the predicate |
| Seqs.FilterSpec | src/pages/Vendors.jsx:368-374 | the filter result is an order-preserving subsequence; it holds each satisfying element as often as the input and no other element |
| Seqs.FilterAll | src/pages/Vendors.jsx:368-374 | when every element satisfies the predicate, filtering returns the input unchanged |
| Seqs.FilterEmptyIff | src/pages/Vendors.jsx:530 | the result is empty exactly when no element satisfies the predicate |
| Seqs.FilterFilter | src/pages/Vendors.jsx:368-374 | filtering by `f` and then by `g` equals filtering once by their conjunction |
| Seqs.FilterAppend | src/pages/Billing.jsx:243-245 | filtering distributes over concatenation |
| Seqs.SumByAppend | src/pages/Billing.jsx:241-245 | a `reduce` sum distributes over concatenation |
| Seqs.SumBy | src/pages/Procurement.jsx:201 | `reduce((sum, x) => sum + k(x), 0)`: a sum of non-negative terms is non-negative |
| Seqs.Count | src/pages/Vendors.jsx:486 | `filter(...).length`: at most the length, and zero exactly when no element satisfies the predicate |
| Seqs.Take | src/pages/Dashboard.jsx:468 | `slice(0, n)`: the first `min(n, length)` elements, as a prefix |
| Records.Truthy | src/pages/Billing.jsx:155 | JavaScript truthiness of an optional string: false when absent or empty, true otherwise |
| Text.Lower | src/pages/Vendors.jsx:369-370 | ASCII `toLowerCase`: same length, each character lower-cased |
| Text.ContainsIff | src/pages/Vendors.jsx:369-370 | `includes` holds exactly when the pattern occurs as a slice at some index |
| Text.ContainsEmpty | src/pages/Vendors.jsx:369-370 | every string includes the empty search term |
| Text.LowerPreservesContains | src/pages/Vendors.jsx:369-370 | a case-sensitive hit remains a hit after both sides are lower-cased |
| Text.LowerIdempotent | src/pages/Vendors.jsx:369-370 | lower-casing twice is lower-casing once |
| Text.IndexOf | src/pages/Vendors.jsx:84 | the position of the first occurrence of a character, or the length when it does not occur |
| Text.ReplaceFirst | src/pages/Vendors.jsx:84 | `replace(' ', '-')`: same length; unchanged when the character is absent; otherwise only the first occurrence is replaced |
| Text.ReplaceFirstSplit | src/pages/Vendors.jsx:84 | in `a + [c] + b` with no `c` in `a`, exactly the character after `a` is replaced |
| Money.Format | src/pages/Dashboard.jsx:147-155 | crore iff the amount is at least 10,000,000; lakh iff it is in [100,000, 10,000,000); raw below that; the scaled figure times the band unit is the amount |
| Money.BandMonotone | src/pages/Dashboard.jsx:147-155 | a larger amount never falls in a smaller band |
| Money.ScaledBounds | src/pages/Billing.jsx:234-238 | a lakh figure lies in [1, 100) and a crore figure is at least 1 |
| Rounding.RoundDiv | src/pages/RiskCompliance.jsx:278 | `Math.round(p / q)`: the integer `r` with `r - 1/2 <= p/q < r + 1/2` |
| Rounding.RoundDivBounds | src/pages/RiskCompliance.jsx:362 | a rounded percentage of a ratio in [0, 1] lies in [0, 100] |
| Rounding.RoundDivExact | src/pages/RiskCompliance.jsx:362 | an exact multiple rounds to its own quotient |
| Vendors.FilteredVendors | src/pages/Vendors.jsx:368-374 | the vendors matching search (name, id; ignoring case), type and status (exact, `'all'` off), in order, with multiplicity, and nothing else |
| Vendors.VendorStats | src/pages/Vendors.jsx:475-507 | the total is the number of vendors; Active, Under Review and the vendors neither card counts add up to the total; non-negative contract values give a non-negative sum |
| Vendors.StatusPartition | src/pages/Vendors.jsx:484-498 | every vendor is counted as exactly one of Active, Under Review or neither |
| Vendors.Page | src/pages/Vendors.jsx:521-530 | "No vendors found" appears exactly when no vendor matches; the grid shows the filtered vendors |
| Vendors.StatsIgnoreCriteria | src/pages/Vendors.jsx:475-507 | the summary cards are the same whatever the criteria |
| Vendors.EmptyCriteriaKeepsAll | src/pages/Vendors.jsx:368-374 | an empty search with both selectors on `'all'` returns every vendor, in order |
| Vendors.FilterComposes | src/pages/Vendors.jsx:368-374 | searching first and then selecting gives the same list as all criteria at once |
| Vendors.SearchIgnoresCaseSelectorsDoNot | src/pages/Vendors.jsx:369-372 | the search is case-blind; a selector value in the wrong case excludes the vendor |
| Vendors.VerbatimHitIsFound | src/pages/Vendors.jsx:369-370 | a name or id containing the term verbatim always matches |
| Vendors.RiskColor | src/pages/Vendors.jsx:40-44 | success iff score <= 33, warning iff 33 < score <= 66, danger iff score > 66; the Analytics risk-score bar and number (src/pages/Analytics.jsx:548-559) use the same chain |
| Vendors.RiskColorMonotone | src/pages/Vendors.jsx:164-168 | a higher score never gets a milder colour |
| Vendors.StatusBadgeClass | src/pages/Vendors.jsx:84 | the class is `status-badge ` followed by a string of the status's length; a status without a space gives `status-badge ` plus the lower-cased status |
| Vendors.StatusBadgeJoinsFirstSpace | src/pages/Vendors.jsx:217 | a status `first + " " + rest` gives `status-badge first-rest` lower-cased; later spaces stay |
| Billing.FilteredBills | src/pages/Billing.jsx:226-232 | bills matching search (vendor name, invoice number, vendor id) and status, both ignoring case; in order, with multiplicity |
| Billing.OnHoldIsTheOnlyOnHold | src/pages/Billing.jsx:420 | among the known statuses, only "On Hold" lower-cases to the tab value `on hold` |
| Billing.OnHoldTabSelectsOnHold | src/pages/Billing.jsx:230 | the `on hold` tab keeps an On Hold bill that the search matches |
| Billing.EmptyCriteriaKeepsAll | src/pages/Billing.jsx:226-232 | an empty search on `'all'` returns every bill, in order |
| Billing.BillingStats | src/pages/Billing.jsx:240-247 | the invoice count is the number of bills; Paid, Pending+Approved, On Hold and the ungrouped rest sum to the total payable; with non-negative amounts the three groups are at most the total |
| Billing.StatsPartition | src/pages/Billing.jsx:243-245 | the four status groups partition the net payable sum |
| Billing.RejectedCountsOnlyInTotals | src/pages/Billing.jsx:241-246 | a Rejected bill raises the totals and the count but no status group |
| Billing.FormatCurrency | src/pages/Billing.jsx:234-238 | the crore/lakh/raw bands with one decimal |
| Billing.FormatCardCurrency | src/pages/Billing.jsx:77-81 | the same bands and figure as the cards, with two decimals |
| Billing.StatusStyle | src/pages/Billing.jsx:57-71 | the style per lower-cased status, and the muted default for any other |
| Billing.Actions | src/pages/Billing.jsx:198-215 | at most one action; Process Payment iff Approved, Approve iff Pending, Review iff On Hold |
| Billing.ShowsHoldReason | src/pages/Billing.jsx:155 | the hold-reason banner shows exactly when the hold reason is present and non-empty |
| Billing.HoldBannerGoesWithReview | src/pages/Billing.jsx:155 | when a bill has a hold reason exactly when it is On Hold, the banner shows iff Review is offered |
| SlaManagement.FilteredSlas | src/pages/SLAManagement.jsx:189-195 | records matching search (vendor name, service name, id) and status, ignoring case; in order, with multiplicity |
| SlaManagement.OnTrackTabSelectsOnTrack | src/pages/SLAManagement.jsx:425 | among the known statuses, only "On Track" matches the `on track` tab |
| SlaManagement.AtRiskTabSelectsAtRisk | src/pages/SLAManagement.jsx:425 | among the known statuses, only "At Risk" matches the `at risk` tab |
| SlaManagement.EmptyCriteriaKeepsAll | src/pages/SLAManagement.jsx:189-195 | an empty search on `'all'` returns every record, in order |
| SlaManagement.SlaStats | src/pages/SLAManagement.jsx:197-203 | the four status counts plus the unknown-status records make the total; equality when every status is known; non-negative penalties give a non-negative total |
| SlaManagement.StatusCountsPartition | src/pages/SLAManagement.jsx:199-202 | the four exact-status counts and the rest partition the records |
| SlaManagement.UnitSuffix | src/pages/SLAManagement.jsx:82 | `'%'` iff the unit is missing or empty, otherwise a space and the unit; the dashboard's target and actual cells (src/pages/Dashboard.jsx:423-424) use the same rule |
| SlaManagement.PenaltyBanner | src/pages/SLAManagement.jsx:149-166 | the banner shows iff the penalty is positive, with the exact amount in lakh printed to two decimals |
| SlaManagement.StatusStyle | src/pages/SLAManagement.jsx:63-76 | the style per lower-cased status, and the muted default |
| SlaManagement.StyleIgnoresCase | src/pages/SLAManagement.jsx:65 | the style of a status equals the style of its lower-cased form |
| RiskCompliance.FilteredAssessments | src/pages/RiskCompliance.jsx:264-269 | assessments matching search (vendor name, vendor id) and level ignoring case; in order, with multiplicity |
| RiskCompliance.EmptyCriteriaKeepsAll | src/pages/RiskCompliance.jsx:264-269 | an empty search on `'all'` returns every assessment |
| RiskCompliance.RiskStats | src/pages/RiskCompliance.jsx:271-279 | the level counts (exact case) and the assessments no level card counts add up to the total; passed checks are at most all checks; the average is absent (NaN) iff there are no assessments, otherwise the rounded mean; scores in [0, 100] give an average in [0, 100] |
| RiskCompliance.LevelPartition | src/pages/RiskCompliance.jsx:273-275 | every assessment is counted as exactly one of Low, Medium, High or none of them |
| RiskCompliance.ScoreSumBounds | src/pages/RiskCompliance.jsx:278 | scores in [0, 100] sum to at most 100 per assessment |
| RiskCompliance.ComplianceScore | src/pages/RiskCompliance.jsx:362 | absent (NaN) iff there are no checks; otherwise the rounded percentage, within [0, 100] when passed <= total |
| RiskCompliance.ComplianceScoreEnds | src/pages/RiskCompliance.jsx:362 | all passed shows 100, none passed shows 0 |
| RiskCompliance.LowercaseLevelFilteredButNotCounted | src/pages/RiskCompliance.jsx:267-273 | in any list, an assessment whose level is written "low" is shown under the low tab, is not among the Low-risk records, and adding it leaves the Low card unchanged |
| RiskCompliance.RiskStyle | src/pages/RiskCompliance.jsx:66-77 | the style per lower-cased level, and the muted default |
| RiskCompliance.ComplianceStatusStyle | src/pages/RiskCompliance.jsx:216-227 | the style per exact status, and the muted default |
| RiskCompliance.RiskStyleIgnoresCaseComplianceStyleDoesNot | src/pages/RiskCompliance.jsx:217 | "HIGH" is styled as high risk; "Passed" falls to the compliance default |
| Procurement.GetStageIndex | src/pages/Procurement.jsx:45-54 | an index in [0, 4]; a known stage maps to its position in the stage list, any other name to 0 |
| Procurement.StageIndexInOrder | src/pages/Procurement.jsx:37-54 | the five labels map, in order, to 0..4 |
| Procurement.StageIndexAsWritten | src/pages/Procurement.jsx:53 | the lookup as written returns an inherited prototype member exactly for those names |
| Procurement.StageIndexAgreesOffPrototype | src/pages/Procurement.jsx:45-54 | for every other name, the written lookup equals the corrected one |
| Procurement.Segments | src/pages/Procurement.jsx:114-124 | five segments; segment `i` is lit iff `i` <= the current stage |
| Procurement.FilledSegments | src/pages/Procurement.jsx:114-124 | a card lights stage index + 1 segments, between 1 and 5 |
| Procurement.SegmentsAsWritten | src/pages/Procurement.jsx:120 | with the written lookup, segment `i` is lit iff the comparison holds, which is never for an inherited member |
| Procurement.ConstructorStageLightsNothing | src/pages/Procurement.jsx:53-120 | the stage "constructor" lights no segment as written and one segment when corrected |
| Procurement.StatusIcon | src/pages/Procurement.jsx:59-67 | the icon per exact status; Clock for In Progress and any unknown status |
| Procurement.TypeColour | src/pages/Procurement.jsx:69-73 | primary accent iff IT, secondary iff Non-IT, tertiary otherwise |
| Procurement.CroreFigure | src/pages/Procurement.jsx:136 | the nearest whole number of crore, with the sign of the value; an exact half rounds away from zero |
| Procurement.CroreFigureExact | src/pages/Procurement.jsx:136 | a whole number of crore is shown as itself |
| Procurement.SubmittedCell | src/pages/Procurement.jsx:154-156 | a dash iff the date is missing or empty, otherwise that date |
| Procurement.FilteredProcurements | src/pages/Procurement.jsx:188-194 | records matching search (title, id; ignoring case), status and type (exact, `'all'` off), in order, with multiplicity |
| Procurement.EmptyCriteriaKeepsAll | src/pages/Procurement.jsx:188-194 | an empty search with both selectors on `'all'` returns every record |
| Procurement.ProcurementStats | src/pages/Procurement.jsx:196-202 | the total is the number of records; approved, in progress, pending and the records no status card counts add up to the total; non-negative values give a non-negative total value |
| Procurement.StatusPartition | src/pages/Procurement.jsx:198-200 | every record is counted as exactly one of Approved, In Progress, Pending or none of them |
| Procurement.DraftCountsOnlyInTotals | src/pages/Procurement.jsx:196-202 | adding a Draft raises the total and the total value and leaves every status count unchanged |
| Analytics.Insert | src/pages/Analytics.jsx:85 | inserting a vendor into a list adds exactly one entry (its order, contents and stability are stated by InsertSorted, InsertMultiset and InsertStable) |
| Analytics.SortDesc | src/pages/Analytics.jsx:85 | the reference stable sort keeps the length of its input (order, contents and stability are stated by SortDescSorted, SortDescPermutation and SortDescStable) |
| Analytics.SortDescSorted | src/pages/Analytics.jsx:85 | the sort result is non-increasing in contract value |
| Analytics.SortDescPermutation | src/pages/Analytics.jsx:85 | the sort result is a permutation of its input |
| Analytics.SortDescStable | src/pages/Analytics.jsx:85 | vendors of equal contract value keep their original relative order |
| Analytics.InsertSorted | src/pages/Analytics.jsx:85 | inserting into a sorted sequence keeps it sorted |
| Analytics.InsertMultiset | src/pages/Analytics.jsx:85 | inserting adds exactly one element to the multiset |
| Analytics.InsertStable | src/pages/Analytics.jsx:85 | an inserted element goes behind every element of equal value |
| Analytics.InsertStep | src/pages/Analytics.jsx:85 | one in-place insertion step leaves `Insert` of the old prefix and the old element, and leaves the rest of the array unchanged |
| Analytics.SortByContractValueDesc | src/pages/Analytics.jsx:85 | the in-place sort leaves the array holding the stable descending sort of its old contents |
| Analytics.TopVendorsBySpend | src/pages/Analytics.jsx:85 | sorts the shared array in place and returns its top five |
| Analytics.TopFive | src/pages/Analytics.jsx:85 | the top list has `min(5, n)` entries |
| Analytics.TopFiveProperties | src/pages/Analytics.jsx:85 | the top list is non-increasing, drawn from the vendors, and no vendor left out has a larger value than one in it |
| Analytics.RankCells | src/pages/Analytics.jsx:460-478 | row `i` shows rank `i + 1`, with a medal iff `i < 3` |
| Analytics.MedalsGoToTopThree | src/pages/Analytics.jsx:467-476 | exactly `min(3, n)` medals; ranks strictly increase; the medals are all different |
| Analytics.SlaColour | src/pages/Analytics.jsx:527-529 | success iff >= 98, warning iff in [95, 98), danger iff < 95 |
| Analytics.SlaColourMonotone | src/pages/Analytics.jsx:527-529 | better compliance never gets a more severe colour |
| Dashboard.GetLevel | src/pages/Dashboard.jsx:107-111 | low iff score <= 33, medium iff 33 < score <= 66, high iff score > 66 |
| Dashboard.LevelAgreesWithRiskColour | src/pages/Dashboard.jsx:107-111 | the risk bar's level and the vendor card's risk colour draw the same lines |
| Dashboard.FormatCurrency | src/pages/Dashboard.jsx:147-155 | the same band, scaled figure and one decimal as the billing page's summary-card formatter for every amount, so crore iff >= 10,000,000, lakh iff in [100,000, 10,000,000), raw below |
| Dashboard.PenaltyCellOf | src/pages/Dashboard.jsx:430-434 | a dash iff the penalty is <= 0, otherwise the positive exact amount in lakh printed to one decimal |
| Dashboard.PenaltyCellAgreesWithBanner | src/pages/Dashboard.jsx:434 | the table shows a penalty exactly where the SLA card shows the banner, with the same exact lakh value; the table prints one decimal and the card two |
| Dashboard.RecentActivities | src/pages/Dashboard.jsx:335 | at most five activities, the first ones in feed order; all of them when there are at most five |
| Dashboard.ActivityIcon | src/pages/Dashboard.jsx:85-91 | the icon per known type; the fallback icon iff the type is none of the four |
| Dashboard.TopVendors | src/pages/Dashboard.jsx:468 | the first `min(5, n)` vendors in array order |
| Dashboard.TopVendorsAfterSort | src/pages/Dashboard.jsx:468 | after the Analytics sort, the table is the top five: non-increasing, with no vendor left out valued above one shown |
| Dashboard.LoadAnalyticsThenRender | src/App.jsx:5-11 | the sort runs at module load and the dashboard renders from the same array, so both pages list the same five vendors |

## Left out

- Rendering, animation, routing, the sidebar and header, the hard-coded
  chart series and every background or CSS string. A style is modelled as
  its colour and icon. Its background string follows from the colour.
- The `mockData` fixture is not part of this model. Every operation is
  stated for all record collections.
- Number formatting:
  - `toFixed` and `toLocaleString` digits, and date formatting, are left
    out. A currency amount is modelled as its band, the exact scaled
    figure and the digit count. The SLA penalty banner (two digits) and
    the Dashboard penalty cell (one digit) always use the lakh band.
  - The Vendors contract-value card and the Analytics contract cell
    (`toFixed(1)` crore) are left out for the same reason.
  - Procurement.CroreFigure does not model the "-0" that `toFixed` prints
    for a small negative value.
- Floating point: averages and percentages use exact rational arithmetic.
  - The SLA `avgCompliance` (a float mean of ratios, SLAManagement.jsx:204)
    is left out.
  - RiskCompliance.ComplianceScore rounds `100 * passed / total` exactly.
    The page computes `(passed / total) * 100` in floating point, which
    can differ at an exact half.
- Case folding is ASCII only. `toLowerCase` of non-ASCII letters is not
  modelled.
- Dashboard.ActivityIcon: does not model the inherited-property lookup. An
  activity type such as "constructor" finds a prototype member rather than
  the fallback icon, as described for the stage lookup under Findings.
- Procurement stage transitions are left out: the "Next Stage" button has
  no handler, so the code has no transition to model.
- Analytics' own `formatCurrency` is left out: it is never called.
- The `'all'` tab labels (capitalising the first letter) and the
  "No results" blocks of pages other than Vendors are left out. They
  follow from the filter's emptiness, which Seqs.FilterEmptyIff states
  once.
- The sort comparator `b.contractValue - a.contractValue` is modelled on
  integers. NaN or missing contract values, which would make the
  comparator inconsistent, are not modelled.

## Findings

| source | as written | input that shows it | evidently intended | confidence | as-written member | corrected member |
|---|---|---|---|---|---|---|
| src/pages/Procurement.jsx:53 | `stageMap[stageName] \|\| 0` on a plain object literal also finds the members inherited from `Object.prototype`. They are truthy, so the `\|\| 0` keeps them, and the progress bar's `index <= currentStage` then compares with NaN | a procurement whose `stage` is `"constructor"` (or `"toString"`, `"__proto__"`, …) lights none of the five segments | any name that is not one of the five stages maps to 0, so the first segment is lit | low, not executed | Procurement.ConstructorStageLightsNothing | Procurement.GetStageIndex |
