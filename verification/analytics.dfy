/** The data layer of the Analytics page (src/pages/Analytics.jsx): the
    in-place descending sort of the shared vendor array and its top five,
    the rank cells, and the SLA compliance colour. */
module Analytics {
  import opened Seqs
  import opened Records
  import opened Styles

  /** Non-increasing in contract value. */
  ghost predicate SortedDesc(s: seq<Vendor>)
  {
    forall i, j :: 0 <= i < j < |s| ==> s[i].contractValue >= s[j].contractValue
  }

  /** Places `x` after every leading element whose value is at least its
      own: behind its equals, in front of the first smaller one. */
  function Insert(t: seq<Vendor>, x: Vendor): (r: seq<Vendor>)
    ensures |r| == |t| + 1
  {
    if t == [] then [x]
    else if t[0].contractValue >= x.contractValue then [t[0]] + Insert(t[1..], x)
    else [x] + t
  }

  /** A stable descending sort by contract value, as
      `sort((a, b) => b.contractValue - a.contractValue)` produces: each
      element in turn is inserted behind the ones before it that are not
      smaller. */
  function SortDesc(s: seq<Vendor>): (r: seq<Vendor>)
    ensures |r| == |s|
  {
    if s == [] then [] else Insert(SortDesc(s[..|s| - 1]), s[|s| - 1])
  }

  /** Inserting into a sorted sequence keeps it sorted. */
  lemma {:induction false} InsertSorted(t: seq<Vendor>, x: Vendor)
    requires SortedDesc(t)
    ensures SortedDesc(Insert(t, x))
    ensures Insert(t, x) != [] && (Insert(t, x)[0] == x || (t != [] && Insert(t, x)[0] == t[0]))
  {
    if t != [] && t[0].contractValue >= x.contractValue {
      InsertSorted(t[1..], x);
    }
  }

  /** Inserting adds exactly `x` to the multiset of elements. */
  lemma {:induction false} InsertMultiset(t: seq<Vendor>, x: Vendor)
    ensures multiset(Insert(t, x)) == multiset(t) + multiset{x}
  {
    if t != [] && t[0].contractValue >= x.contractValue {
      InsertMultiset(t[1..], x);
      assert t == [t[0]] + t[1..];
    }
  }

  /** The sort yields a non-increasing sequence. */
  lemma {:induction false} SortDescSorted(s: seq<Vendor>)
    ensures SortedDesc(SortDesc(s))
  {
    if s != [] {
      SortDescSorted(s[..|s| - 1]);
      InsertSorted(SortDesc(s[..|s| - 1]), s[|s| - 1]);
    }
  }

  /** The sort is a permutation of its input. */
  lemma {:induction false} SortDescPermutation(s: seq<Vendor>)
    ensures multiset(SortDesc(s)) == multiset(s)
  {
    if s != [] {
      SortDescPermutation(s[..|s| - 1]);
      InsertMultiset(SortDesc(s[..|s| - 1]), s[|s| - 1]);
      assert s == s[..|s| - 1] + [s[|s| - 1]];
    }
  }

  /** The vendors whose contract value is `v`. */
  function HasValue(v: int): Vendor -> bool
  {
    (w: Vendor) => w.contractValue == v
  }

  /** Inserting into a sorted sequence puts `x` behind every element of equal
      value. */
  lemma {:induction false} InsertStable(t: seq<Vendor>, x: Vendor, v: int)
    requires SortedDesc(t)
    ensures Filter(Insert(t, x), HasValue(v)) == Filter(t, HasValue(v)) + Filter([x], HasValue(v))
  {
    var f := HasValue(v);
    if t == [] {
    } else if t[0].contractValue >= x.contractValue {
      InsertStable(t[1..], x, v);
      FilterAppend([t[0]], Insert(t[1..], x), f);
      FilterAppend([t[0]], t[1..], f);
      assert [t[0]] + t[1..] == t;
    } else {
      FilterAppend([x], t, f);
      if x.contractValue == v {
        FilterEmptyIff(t, f);
        assert forall w :: w in t ==> w.contractValue <= t[0].contractValue;
      }
    }
  }

  /** The sort is stable: the vendors of any one contract value keep their
      original relative order. */
  lemma {:induction false} SortDescStable(s: seq<Vendor>, v: int)
    ensures Filter(SortDesc(s), HasValue(v)) == Filter(s, HasValue(v))
  {
    if s != [] {
      var init := s[..|s| - 1];
      SortDescStable(init, v);
      SortDescSorted(init);
      InsertStable(SortDesc(init), s[|s| - 1], v);
      FilterAppend(init, [s[|s| - 1]], HasValue(v));
      assert init + [s[|s| - 1]] == s;
    }
  }

  /** With every element before `j` at least as large as `x` and every one
      from `j` on smaller, `x` is inserted at `j`. */
  lemma {:induction false} InsertAt(t: seq<Vendor>, x: Vendor, j: int)
    requires 0 <= j <= |t|
    requires forall k :: 0 <= k < j ==> t[k].contractValue >= x.contractValue
    requires forall k :: j <= k < |t| ==> t[k].contractValue < x.contractValue
    ensures Insert(t, x) == t[..j] + [x] + t[j..]
  {
    if j > 0 {
      InsertAt(t[1..], x, j - 1);
      assert t[1..][..j - 1] == t[1..j];
      assert t[1..][j - 1..] == t[j..];
    } else if t != [] {
      assert t[..0] == [];
    }
  }

  /** What the insertion step leaves in the prefix: the sorted `t` with `x`
      written at the first position whose old element is smaller than `x`,
      and the smaller elements shifted one place right, is `Insert(t, x)`. */
  lemma PlacedIsInsert(t: seq<Vendor>, b: seq<Vendor>, x: Vendor, j: int)
    requires SortedDesc(t)
    requires 0 <= j <= |t| && |b| == |t| + 1
    requires forall k :: 0 <= k < j ==> b[k] == t[k]
    requires b[j] == x
    requires forall k :: j < k <= |t| ==> b[k] == t[k - 1]
    requires forall k :: j <= k < |t| ==> t[k].contractValue < x.contractValue
    requires j == 0 || t[j - 1].contractValue >= x.contractValue
    ensures b == Insert(t, x)
  {
    assert forall k :: 0 <= k < j ==> t[k].contractValue >= x.contractValue by {
      if j > 0 {
        assert forall k :: 0 <= k < j ==> t[k].contractValue >= t[j - 1].contractValue;
      }
    }
    InsertAt(t, x, j);
    var u := t[..j] + [x] + t[j..];
    forall k | 0 <= k < |b|
      ensures b[k] == u[k]
    {
      if k < j {
        assert u[k] == t[k];
      } else if k > j {
        assert u[k] == t[k - 1];
      }
    }
  }

  /** One step of the insertion sort: `a[i]` moves left past the smaller
      values in front of it, which shift one place right. */
  method InsertStep(a: array<Vendor>, i: int)
    requires 0 <= i < a.Length
    requires SortedDesc(a[..i])
    modifies a
    ensures a[..i + 1] == Insert(old(a[..i]), old(a[i]))
    ensures a[i + 1..] == old(a[i + 1..])
  {
    ghost var t := a[..i];
    var x := a[i];
    var j := i;
    while j > 0 && a[j - 1].contractValue < x.contractValue
      invariant 0 <= j <= i
      invariant forall k :: 0 <= k < j ==> a[k] == t[k]
      invariant forall k :: j < k <= i ==> a[k] == t[k - 1]
      invariant forall k :: i < k < a.Length ==> a[k] == old(a[k])
      invariant forall k :: j <= k < i ==> t[k].contractValue < x.contractValue
    {
      a[j] := a[j - 1];
      j := j - 1;
    }
    a[j] := x;
    PlacedIsInsert(t, a[..i + 1], x, j);
    assert a[i + 1..] == old(a[i + 1..]);
  }

  /** `vendors.sort((a, b) => b.contractValue - a.contractValue)`: an
      insertion sort in place. Afterwards the array holds the stable
      descending sort of its old contents. */
  method SortByContractValueDesc(a: array<Vendor>)
    modifies a
    ensures a[..] == SortDesc(old(a[..]))
  {
    ghost var original := a[..];
    var i := 0;
    while i < a.Length
      invariant 0 <= i <= a.Length
      invariant a[..i] == SortDesc(original[..i])
      invariant a[i..] == original[i..]
    {
      SortDescSorted(original[..i]);
      InsertStep(a, i);
      assert original[..i + 1][..i] == original[..i];
      i := i + 1;
    }
    assert a[..] == a[..a.Length];
    assert original == original[..a.Length];
  }

  /** The five highest contract values, ties in original order. */
  function TopFive(s: seq<Vendor>): (r: seq<Vendor>)
    ensures |r| == Min(5, |s|)
  {
    Take(SortDesc(s), 5)
  }

  /** `topVendorsBySpend`: sorts the shared array in place, then takes the
      first five. */
  method TopVendorsBySpend(vendors: array<Vendor>) returns (top: seq<Vendor>)
    modifies vendors
    ensures vendors[..] == SortDesc(old(vendors[..]))
    ensures top == TopFive(old(vendors[..]))
  {
    SortByContractValueDesc(vendors);
    top := Take(vendors[..], 5);
  }

  /** In a sorted sequence, nothing after position `m` is larger than
      anything before it. */
  lemma SortedSplit(sorted: seq<Vendor>, m: int)
    requires SortedDesc(sorted) && 0 <= m <= |sorted|
    ensures forall w, v :: w in sorted[m..] && v in sorted[..m] ==> w.contractValue <= v.contractValue
  {
    forall w, v | w in sorted[m..] && v in sorted[..m]
      ensures w.contractValue <= v.contractValue
    {
      var i :| 0 <= i < m && sorted[i] == v;
      var k :| m <= k < |sorted| && sorted[k] == w;
    }
  }

  /** The top list is non-increasing, is drawn from the vendors, and no
      vendor left out of it has a larger value than one inside it. */
  lemma TopFiveProperties(s: seq<Vendor>)
    ensures SortedDesc(TopFive(s))
    ensures multiset(TopFive(s)) <= multiset(s)
    ensures forall w, v :: w in multiset(s) - multiset(TopFive(s)) && v in TopFive(s) ==> w.contractValue <= v.contractValue
  {
    var sorted := SortDesc(s);
    var r := TopFive(s);
    SortDescSorted(s);
    SortDescPermutation(s);
    var rest := sorted[|r|..];
    assert sorted == r + rest;
    assert multiset(s) - multiset(r) == multiset(rest) by {
      assert multiset(s) == multiset(r) + multiset(rest);
    }
    SortedSplit(sorted, |r|);
  }

  /** The badge behind a rank number: gold, silver and bronze for the first
      three rows, plain after that. */
  datatype Medal = Gold | Silver | Bronze | Plain

  datatype RankCell = RankCell(rank: nat, medal: Medal)

  /** The rank cells of a table of `n` rows: `index + 1`, with a medal for
      `index` 0, 1 and 2. */
  function RankCells(n: nat): (r: seq<RankCell>)
    ensures |r| == n
    ensures forall i :: 0 <= i < n ==> r[i].rank == i + 1
    ensures forall i :: 0 <= i < n ==> (r[i].medal != Plain <==> i < 3)
  {
    seq(n, (i: nat) => RankCell(i + 1, if i == 0 then Gold else if i == 1 then Silver else if i == 2 then Bronze else Plain))
  }

  function HasMedal(c: RankCell): bool { c.medal != Plain }

  /** The ranks count 1, 2, 3, … without gaps, and the medals go to exactly
      the first `min(3, n)` rows, one of each kind. */
  lemma {:induction false} MedalsGoToTopThree(n: nat)
    ensures Count(RankCells(n), HasMedal) == Min(3, n)
    ensures forall i, j :: 0 <= i < j < n ==> RankCells(n)[i].rank < RankCells(n)[j].rank
    ensures forall i, j :: 0 <= i < j < n && HasMedal(RankCells(n)[j]) ==> RankCells(n)[i].medal != RankCells(n)[j].medal
  {
    var r := RankCells(n);
    var m := Min(3, n);
    assert r == r[..m] + r[m..];
    FilterAppend(r[..m], r[m..], HasMedal);
    FilterAll(r[..m], HasMedal);
    FilterEmptyIff(r[m..], HasMedal);
  }

  /** The SLA compliance bar: success from 98, warning from 95, danger below. */
  function SlaColour(compliance: real): (r: Colour)
    ensures r == Success <==> compliance >= 98.0
    ensures r == Warning <==> 95.0 <= compliance < 98.0
    ensures r == Danger <==> compliance < 95.0
  {
    if compliance >= 98.0 then Success
    else if compliance >= 95.0 then Warning
    else Danger
  }

  /** Better compliance never gets a more severe colour. */
  lemma SlaColourMonotone(x: real, y: real)
    requires x <= y
    ensures Severity(SlaColour(y)) <= Severity(SlaColour(x))
  {
  }
}
