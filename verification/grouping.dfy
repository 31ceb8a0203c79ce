/** The aggregation behind bar, line and pie charts: sum the value column
    per category (`groupby(...).sum()`), order the groups by total,
    largest first (`sort_values(ascending=False)`), then cut the series down
    to what each chart shows. Values are integers. */
module Grouping {
  import opened Text

  /** One (category, value) pair: a table row, or a group with its total. */
  type Entry = (string, int)

  const OthersLabel := "Outros"
  const BarLimit := 15
  const LineLimit := 20
  const PieLimit := 7

  function KeySet(g: seq<Entry>): set<string> {
    if |g| == 0 then {} else {g[0].0} + KeySet(g[1..])
  }

  /** A key is in the key set exactly when some entry carries it. */
  lemma {:induction false} KeySetMembers(g: seq<Entry>, k: string)
    ensures k in KeySet(g) <==> exists i :: 0 <= i < |g| && g[i].0 == k
  {
    if |g| > 0 {
      KeySetMembers(g[1..], k);
      if k in KeySet(g[1..]) {
        var i :| 0 <= i < |g[1..]| && g[1..][i].0 == k;
        assert g[i + 1].0 == k;
      }
      if exists i :: 0 <= i < |g| && g[i].0 == k {
        var i :| 0 <= i < |g| && g[i].0 == k;
        if i > 0 { assert g[1..][i - 1].0 == k; }
      }
    }
  }

  lemma {:induction false} KeySetAppend(a: seq<Entry>, b: seq<Entry>)
    ensures KeySet(a + b) == KeySet(a) + KeySet(b)
  {
    if |a| == 0 {
      assert a + b == b;
    } else {
      assert (a + b)[1..] == a[1..] + b;
      KeySetAppend(a[1..], b);
    }
  }

  predicate DistinctKeys(g: seq<Entry>) {
    forall i, j :: 0 <= i < j < |g| ==> g[i].0 != g[j].0
  }

  function Total(g: seq<Entry>): int {
    if |g| == 0 then 0 else g[0].1 + Total(g[1..])
  }

  /** Sum of the values of the rows whose category is `k`. */
  function SumFor(rows: seq<Entry>, k: string): int {
    if |rows| == 0 then 0
    else SumFor(rows[..|rows| - 1], k) + (if rows[|rows| - 1].0 == k then rows[|rows| - 1].1 else 0)
  }

  lemma {:induction false} TotalAppend(a: seq<Entry>, b: seq<Entry>)
    ensures Total(a + b) == Total(a) + Total(b)
  {
    if |a| == 0 {
      assert a + b == b;
    } else {
      assert (a + b)[1..] == a[1..] + b;
      TotalAppend(a[1..], b);
    }
  }

  lemma {:induction false} SumForAbsent(rows: seq<Entry>, k: string)
    ensures k !in KeySet(rows) ==> SumFor(rows, k) == 0
  {
    if |rows| > 0 && k !in KeySet(rows) {
      var init := rows[..|rows| - 1];
      assert rows == init + [rows[|rows| - 1]];
      KeySetAppend(init, [rows[|rows| - 1]]);
      SumForAbsent(init, k);
    }
  }

  /** Adds `v` to the group `k`, opening a new group at the end when `k` has
      none yet. */
  function AddTo(g: seq<Entry>, k: string, v: int): (r: seq<Entry>)
    requires DistinctKeys(g)
    ensures DistinctKeys(r)
    ensures KeySet(r) == KeySet(g) + {k}
    ensures |r| == |g| + (if k in KeySet(g) then 0 else 1)
    ensures forall i :: 0 <= i < |g| ==> r[i].0 == g[i].0 && r[i].1 == g[i].1 + (if g[i].0 == k then v else 0)
    ensures k !in KeySet(g) ==> r[|g|] == (k, v)
    ensures Total(r) == Total(g) + v
  {
    if |g| == 0 then [(k, v)]
    else if g[0].0 == k then
      [(k, g[0].1 + v)] + g[1..]
    else
      var t := AddTo(g[1..], k, v);
      var r := [g[0]] + t;
      assert r[1..] == t;
      KeySetMembers(g[1..], g[0].0);
      forall i, j | 0 <= i < j < |r| ensures r[i].0 != r[j].0 {
        if i == 0 {
          KeySetMembers(t, r[j].0);
          assert t[j - 1].0 == r[j].0;
        }
      }
      r
  }

  /** `groupby(category)[value].sum()`: one group per distinct category,
      each holding the sum of its rows. The groups are listed here in order
      of first appearance; pandas orders them by key, which only affects the
      order of ties after the sort by value. */
  function GroupSum(rows: seq<Entry>): (g: seq<Entry>)
    ensures DistinctKeys(g)
    ensures KeySet(g) == KeySet(rows)
    ensures |g| == |KeySet(rows)|
    ensures forall i :: 0 <= i < |g| ==> g[i].1 == SumFor(rows, g[i].0)
    ensures Total(g) == Total(rows)
  {
    if |rows| == 0 then []
    else
      var init := rows[..|rows| - 1];
      var last := rows[|rows| - 1];
      assert rows == init + [last];
      GroupStep(init, last, GroupSum(init));
      AddTo(GroupSum(init), last.0, last.1)
  }

  /** One more row updates the grouping of the rows before it. */
  lemma {:induction false} GroupStep(init: seq<Entry>, last: Entry, g0: seq<Entry>)
    requires DistinctKeys(g0)
    requires KeySet(g0) == KeySet(init)
    requires |g0| == |KeySet(init)|
    requires forall i :: 0 <= i < |g0| ==> g0[i].1 == SumFor(init, g0[i].0)
    requires Total(g0) == Total(init)
    ensures var g := AddTo(g0, last.0, last.1);
      && KeySet(g) == KeySet(init + [last])
      && |g| == |KeySet(init + [last])|
      && (forall i :: 0 <= i < |g| ==> g[i].1 == SumFor(init + [last], g[i].0))
      && Total(g) == Total(init + [last])
  {
    var rows := init + [last];
    var g := AddTo(g0, last.0, last.1);
    KeySetAppend(init, [last]);
    assert KeySet([last]) == {last.0};
    TotalAppend(init, [last]);
    assert Total([last]) == last.1;
    SumForAbsent(init, last.0);
    assert rows[..|rows| - 1] == init;
    if last.0 in KeySet(init) {
      assert KeySet(rows) == KeySet(init);
    } else {
      assert |KeySet(init) + {last.0}| == |KeySet(init)| + 1;
    }
    GroupStepSums(init, last, g0);
  }

  lemma {:induction false} GroupStepSums(init: seq<Entry>, last: Entry, g0: seq<Entry>)
    requires DistinctKeys(g0) && KeySet(g0) == KeySet(init)
    requires forall i :: 0 <= i < |g0| ==> g0[i].1 == SumFor(init, g0[i].0)
    ensures var g := AddTo(g0, last.0, last.1);
      forall i :: 0 <= i < |g| ==> g[i].1 == SumFor(init + [last], g[i].0)
  {
    var rows := init + [last];
    var g := AddTo(g0, last.0, last.1);
    assert rows[..|rows| - 1] == init;
    SumForAbsent(init, last.0);
    forall i | 0 <= i < |g| ensures g[i].1 == SumFor(rows, g[i].0) {
      var k := g[i].0;
      assert SumFor(rows, k) == SumFor(init, k) + (if last.0 == k then last.1 else 0);
      if i < |g0| {
        assert k == g0[i].0;
        assert g[i].1 == g0[i].1 + (if g0[i].0 == last.0 then last.1 else 0);
      } else {
        assert g[i] == last;
      }
    }
  }

  /** Values never increase along the series. */
  predicate NonIncreasing(g: seq<Entry>) {
    forall i, j :: 0 <= i < j < |g| ==> g[i].1 >= g[j].1
  }

  function InsertByValue(e: Entry, s: seq<Entry>): (r: seq<Entry>)
    requires NonIncreasing(s)
    ensures NonIncreasing(r)
    ensures multiset(r) == multiset(s) + multiset{e}
    ensures Total(r) == Total(s) + e.1
  {
    if |s| == 0 then [e]
    else if e.1 >= s[0].1 then [e] + s
    else
      var t := InsertByValue(e, s[1..]);
      InsertBelowHead(e, s, t);
      [s[0]] + t
  }

  /** Keeping the head of `s` in front of `e` inserted into the rest. */
  lemma {:induction false} InsertBelowHead(e: Entry, s: seq<Entry>, t: seq<Entry>)
    requires NonIncreasing(s) && |s| > 0 && e.1 < s[0].1
    requires NonIncreasing(t) && multiset(t) == multiset(s[1..]) + multiset{e}
    requires Total(t) == Total(s[1..]) + e.1
    ensures var r := [s[0]] + t;
      && NonIncreasing(r)
      && multiset(r) == multiset(s) + multiset{e}
      && Total(r) == Total(s) + e.1
  {
    var r := [s[0]] + t;
    assert s == [s[0]] + s[1..];
    assert r[1..] == t;
    forall j | 0 <= j < |t| ensures t[j].1 <= s[0].1 {
      assert t[j] in multiset(t);
      if t[j] != e {
        assert t[j] in s[1..];
      }
    }
    forall i, j | 0 <= i < j < |r| ensures r[i].1 >= r[j].1 {
      assert r[j] == t[j - 1];
      if i > 0 { assert r[i] == t[i - 1]; }
    }
  }

  /** Orders a series by value, largest first. Ties may come out in any
      order in the source; this model fixes one order among them. */
  function SortByValue(s: seq<Entry>): (r: seq<Entry>)
    ensures NonIncreasing(r)
    ensures multiset(r) == multiset(s)
    ensures Total(r) == Total(s)
  {
    if |s| == 0 then []
    else
      assert s == [s[0]] + s[1..];
      InsertByValue(s[0], SortByValue(s[1..]))
  }

  /** A permutation keeps the set of keys and the length. */
  lemma {:induction false} PermutationKeepsKeys(a: seq<Entry>, b: seq<Entry>)
    requires multiset(a) == multiset(b)
    ensures KeySet(a) == KeySet(b) && |a| == |b|
  {
    assert |a| == |multiset(a)| == |multiset(b)| == |b|;
    forall k | k in KeySet(a) ensures k in KeySet(b) {
      KeySetMembers(a, k);
      var i :| 0 <= i < |a| && a[i].0 == k;
      assert a[i] in multiset(b);
      var j :| 0 <= j < |b| && b[j] == a[i];
      KeySetMembers(b, k);
    }
    forall k | k in KeySet(b) ensures k in KeySet(a) {
      KeySetMembers(b, k);
      var i :| 0 <= i < |b| && b[i].0 == k;
      assert b[i] in multiset(a);
      var j :| 0 <= j < |a| && a[j] == b[i];
      KeySetMembers(a, k);
    }
  }

  /** Keys are distinct exactly when there are as many keys as entries. */
  lemma {:induction false} DistinctKeysByCount(g: seq<Entry>)
    ensures |KeySet(g)| <= |g|
    ensures DistinctKeys(g) <==> |KeySet(g)| == |g|
  {
    if |g| > 0 {
      var rest := g[1..];
      DistinctKeysByCount(rest);
      KeySetMembers(rest, g[0].0);
      assert KeySet(g) == {g[0].0} + KeySet(rest);
      if g[0].0 in KeySet(rest) {
        var i :| 0 <= i < |rest| && rest[i].0 == g[0].0;
        assert g[i + 1].0 == g[0].0;
        assert KeySet(g) == KeySet(rest);
      } else {
        assert |KeySet(g)| == |KeySet(rest)| + 1;
        if DistinctKeys(g) {
          forall i, j | 0 <= i < j < |rest| ensures rest[i].0 != rest[j].0 {
            assert rest[i] == g[i + 1] && rest[j] == g[j + 1];
          }
        }
        if DistinctKeys(rest) {
          forall i, j | 0 <= i < j < |g| ensures g[i].0 != g[j].0 {
            assert g[j] == rest[j - 1];
            if i > 0 {
              assert g[i] == rest[i - 1];
            }
          }
        }
      }
    }
  }

  /** What `groupby(...).sum().sort_values(ascending=False)` promises about
      its result, independent of how ties are ordered: one group per
      distinct category, each valued at its category's sum, values
      non-increasing. */
  ghost predicate IsGroupedDescending(rows: seq<Entry>, g: seq<Entry>) {
    && KeySet(g) == KeySet(rows)
    && |g| == |KeySet(rows)|
    && (forall e :: e in g ==> e.1 == SumFor(rows, e.0))
    && NonIncreasing(g)
  }

  /** The grouped series a chart is drawn from. */
  function Grouped(rows: seq<Entry>): seq<Entry> {
    SortByValue(GroupSum(rows))
  }

  lemma {:induction false} GroupedIsGroupedDescending(rows: seq<Entry>)
    ensures IsGroupedDescending(rows, Grouped(rows))
    ensures Total(Grouped(rows)) == Total(rows)
  {
    var g := GroupSum(rows);
    var s := Grouped(rows);
    PermutationKeepsKeys(g, s);
    forall e | e in s ensures e.1 == SumFor(rows, e.0) {
      assert e in multiset(s);
      assert e in g;
    }
  }

  // ---------------------------------------------------------------------
  // What each chart shows of the grouped series
  // ---------------------------------------------------------------------

  /** `Series.head(n)`. */
  function Take(g: seq<Entry>, n: nat): seq<Entry> {
    g[..if n < |g| then n else |g|]
  }

  /** The bar chart: the first 15 groups. */
  function BarSeries(g: seq<Entry>): seq<Entry> {
    Take(g, BarLimit)
  }

  predicate SortedByKey(s: seq<Entry>) {
    forall i, j :: 0 <= i < j < |s| ==> StrLe(s[i].0, s[j].0)
  }

  function InsertByKey(e: Entry, s: seq<Entry>): (r: seq<Entry>)
    requires SortedByKey(s)
    ensures SortedByKey(r)
    ensures multiset(r) == multiset(s) + multiset{e}
  {
    if |s| == 0 then [e]
    else if StrLe(e.0, s[0].0) then
      var r := [e] + s;
      forall j | 0 < j < |r| ensures StrLe(e.0, r[j].0) {
        if j > 1 { StrLeTransitive(e.0, s[0].0, s[j - 1].0); }
      }
      r
    else
      StrLeTotal(e.0, s[0].0);
      var t := InsertByKey(e, s[1..]);
      var r := [s[0]] + t;
      assert s == [s[0]] + s[1..];
      forall j | 0 <= j < |t| ensures StrLe(s[0].0, t[j].0) {
        assert t[j] in multiset(t);
        if t[j] != e {
          assert t[j] in s[1..];
        }
      }
      r
  }

  /** `Series.sort_index()` on string categories: code-point order. */
  function SortByKey(s: seq<Entry>): (r: seq<Entry>)
    ensures SortedByKey(r)
    ensures multiset(r) == multiset(s)
  {
    if |s| == 0 then []
    else
      assert s == [s[0]] + s[1..];
      InsertByKey(s[0], SortByKey(s[1..]))
  }

  /** The line chart: the first 20 groups, re-ordered by category. */
  function LineSeries(g: seq<Entry>): (r: seq<Entry>)
    ensures SortedByKey(r)
    ensures multiset(r) == multiset(Take(g, LineLimit))
  {
    SortByKey(Take(g, LineLimit))
  }

  /** pandas' label assignment `s[k] = v`: overwrites the entry labelled `k`
      when there is one, appends `(k, v)` otherwise. */
  function SetLabel(s: seq<Entry>, k: string, v: int): seq<Entry> {
    if k in KeySet(s) then
      seq(|s|, i requires 0 <= i < |s| => if s[i].0 == k then (k, v) else s[i])
    else
      s + [(k, v)]
  }

  /** The pie chart: the first 7 groups, then an `Outros` slice set to the
      total of the remaining groups when there are more than 7. */
  function PieSlices(g: seq<Entry>): seq<Entry> {
    var top := Take(g, PieLimit);
    if |g| > PieLimit then SetLabel(top, OthersLabel, Total(g[PieLimit..])) else top
  }

  /** Up to 7 groups are all shown as they are. */
  lemma {:induction false} PieSmall(g: seq<Entry>)
    requires |g| <= PieLimit
    ensures PieSlices(g) == g
  {
  }

  /** With more than 7 groups, none of the top 7 named `Outros`, the pie has
      8 slices: the top 7, then `Outros` holding the rest, so the slices add
      up to the grouped total. */
  lemma {:induction false} PieFoldsRemainder(g: seq<Entry>)
    requires |g| > PieLimit
    requires OthersLabel !in KeySet(g[..PieLimit])
    ensures |PieSlices(g)| == PieLimit + 1
    ensures PieSlices(g)[..PieLimit] == g[..PieLimit]
    ensures PieSlices(g)[PieLimit] == (OthersLabel, Total(g[PieLimit..]))
    ensures Total(PieSlices(g)) == Total(g)
  {
    var top := g[..PieLimit];
    TotalAppend(top, [(OthersLabel, Total(g[PieLimit..]))]);
    TotalAppend(top, g[PieLimit..]);
    assert g == top + g[PieLimit..];
    assert Total([(OthersLabel, Total(g[PieLimit..]))]) == Total(g[PieLimit..]);
  }

  /** With more than 7 groups and one of the top 7 itself named `Outros`, the
      remainder overwrites that group's slice and leaves the other slices as
      they are: the pie has only 7 slices. */
  lemma {:induction false} PieOverwritesOthersGroup(g: seq<Entry>)
    requires |g| > PieLimit
    requires OthersLabel in KeySet(g[..PieLimit])
    ensures |PieSlices(g)| == PieLimit
    ensures forall i :: 0 <= i < PieLimit && g[i].0 == OthersLabel ==> PieSlices(g)[i].1 == Total(g[PieLimit..])
    ensures forall i :: 0 <= i < PieLimit ==> PieSlices(g)[i].0 == g[i].0
    ensures forall i :: 0 <= i < PieLimit && g[i].0 != OthersLabel ==> PieSlices(g)[i] == g[i]
  {
  }

  // ---------------------------------------------------------------------
  // The charts' series in terms of the rows
  // ---------------------------------------------------------------------

  /** `shown` is the top `min(limit, categories)` groups of `rows`: each a
      different category with the sum of its values, largest first, and no category
      left out has a larger sum than one shown. */
  ghost predicate ShowsTopGroups(rows: seq<Entry>, shown: seq<Entry>, limit: nat) {
    && |shown| == (if |KeySet(rows)| < limit then |KeySet(rows)| else limit)
    && DistinctKeys(shown)
    && NonIncreasing(shown)
    && (forall e :: e in shown ==> e.0 in KeySet(rows) && e.1 == SumFor(rows, e.0))
    && (forall e, k :: e in shown && k in KeySet(rows) - KeySet(shown) ==> SumFor(rows, k) <= e.1)
  }

  /** Any prefix of a grouping sorted largest first holds the top groups. */
  lemma {:induction false} TopOfGrouping(rows: seq<Entry>, g: seq<Entry>, n: nat)
    requires IsGroupedDescending(rows, g)
    requires n <= |g|
    ensures ShowsTopGroups(rows, g[..n], n)
  {
    var top := g[..n];
    var rest := g[n..];
    assert g == top + rest;
    KeySetAppend(top, rest);
    DistinctKeysByCount(g);
    forall i, j | 0 <= i < j < |top| ensures top[i].0 != top[j].0 {
      assert top[i] == g[i] && top[j] == g[j];
    }
    forall e | e in top ensures e.0 in KeySet(rows) && e.1 == SumFor(rows, e.0) {
      var i :| 0 <= i < |top| && top[i] == e;
      assert g[i] == e;
      KeySetMembers(g, e.0);
    }
    forall e, k | e in top && k in KeySet(rows) - KeySet(top) ensures SumFor(rows, k) <= e.1 {
      TopDominates(rows, g, n, e, k);
    }
  }

  lemma {:induction false} TopDominates(rows: seq<Entry>, g: seq<Entry>, n: nat, e: Entry, k: string)
    requires IsGroupedDescending(rows, g)
    requires n <= |g|
    requires e in g[..n] && k in KeySet(g[n..])
    ensures SumFor(rows, k) <= e.1
  {
    var i :| 0 <= i < n && g[..n][i] == e;
    KeySetMembers(g[n..], k);
    var j :| 0 <= j < |g[n..]| && g[n..][j].0 == k;
    assert g[n + j] == g[n..][j];
    assert g[n + j] in g;
    assert g[i] == e;
  }

  /** The bar chart's series is the top 15 categories. */
  lemma {:induction false} BarShowsTopCategories(rows: seq<Entry>)
    ensures ShowsTopGroups(rows, BarSeries(Grouped(rows)), BarLimit)
  {
    var g := Grouped(rows);
    GroupedIsGroupedDescending(rows);
    if |g| < BarLimit {
      TopOfGrouping(rows, g, |g|);
      assert g[..|g|] == g;
    } else {
      TopOfGrouping(rows, g, BarLimit);
    }
  }

  /** The line chart's series is the top 20 categories, each once, in
      category order: no category left out has a larger sum than one shown. */
  lemma {:induction false} LineShowsTopCategoriesByKey(rows: seq<Entry>)
    ensures var line := LineSeries(Grouped(rows));
      && |line| == (if |KeySet(rows)| < LineLimit then |KeySet(rows)| else LineLimit)
      && DistinctKeys(line)
      && SortedByKey(line)
      && (forall e :: e in line ==> e.0 in KeySet(rows) && e.1 == SumFor(rows, e.0))
      && (forall e, k :: e in line && k in KeySet(rows) - KeySet(line) ==> SumFor(rows, k) <= e.1)
  {
    var g := Grouped(rows);
    var top := Take(g, LineLimit);
    var line := LineSeries(g);
    GroupedIsGroupedDescending(rows);
    TopOfGrouping(rows, g, |top|);
    PermutationKeepsKeys(line, top);
    DistinctKeysByCount(top);
    DistinctKeysByCount(line);
    forall e | e in line ensures e.0 in KeySet(rows) && e.1 == SumFor(rows, e.0) {
      assert e in multiset(line);
      assert e in top;
    }
    forall e, k | e in line && k in KeySet(rows) - KeySet(line) ensures SumFor(rows, k) <= e.1 {
      assert e in multiset(line);
      assert e in top;
    }
  }

  /** The pie's slices add up to the rows' total, with one `Outros` slice
      after the top 7 when there are more than 7 categories, provided none of
      the top 7 is itself named `Outros`. */
  lemma {:induction false} PieKeepsCategoryTotal(rows: seq<Entry>)
    requires OthersLabel !in KeySet(Take(Grouped(rows), PieLimit))
    ensures var slices := PieSlices(Grouped(rows));
      && |slices| == (if |KeySet(rows)| <= PieLimit then |KeySet(rows)| else PieLimit + 1)
      && Total(slices) == Total(rows)
      && (|KeySet(rows)| > PieLimit ==> slices[PieLimit].0 == OthersLabel)
  {
    var g := Grouped(rows);
    GroupedIsGroupedDescending(rows);
    if |g| > PieLimit {
      PieFoldsRemainder(g);
    } else {
      PieSmall(g);
    }
  }

  // ---------------------------------------------------------------------
  // Signs
  // ---------------------------------------------------------------------

  predicate NonNegative(s: seq<Entry>) {
    forall i :: 0 <= i < |s| ==> s[i].1 >= 0
  }

  lemma {:induction false} SumForNonNegative(rows: seq<Entry>, k: string)
    requires NonNegative(rows)
    ensures SumFor(rows, k) >= 0
  {
    if |rows| > 0 {
      var init := rows[..|rows| - 1];
      assert forall i :: 0 <= i < |init| ==> init[i] == rows[i];
      SumForNonNegative(init, k);
    }
  }

  lemma {:induction false} TotalNonNegative(g: seq<Entry>)
    requires NonNegative(g)
    ensures Total(g) >= 0
  {
    if |g| > 0 {
      assert forall i :: 0 <= i < |g| - 1 ==> g[1..][i] == g[i + 1];
      TotalNonNegative(g[1..]);
    }
  }

  lemma {:induction false} SetLabelNonNegative(s: seq<Entry>, k: string, v: int)
    requires NonNegative(s) && v >= 0
    ensures NonNegative(SetLabel(s, k, v))
  {
    var r := SetLabel(s, k, v);
    forall i | 0 <= i < |r| ensures r[i].1 >= 0 {
      if i < |s| && k in KeySet(s) {
        assert r[i] == if s[i].0 == k then (k, v) else s[i];
      }
    }
  }

  /** Rows without a negative value give a pie without a negative slice. */
  lemma {:induction false} PieSlicesNonNegative(rows: seq<Entry>)
    requires NonNegative(rows)
    ensures NonNegative(PieSlices(Grouped(rows)))
  {
    var g := Grouped(rows);
    GroupedIsGroupedDescending(rows);
    forall i | 0 <= i < |g| ensures g[i].1 >= 0 {
      assert g[i] in g;
      SumForNonNegative(rows, g[i].0);
    }
    var top := Take(g, PieLimit);
    assert forall i :: 0 <= i < |top| ==> top[i] == g[i];
    if |g| > PieLimit {
      var rest := g[PieLimit..];
      assert forall i :: 0 <= i < |rest| ==> rest[i] == g[PieLimit + i];
      TotalNonNegative(rest);
      SetLabelNonNegative(top, OthersLabel, Total(rest));
    }
  }
}
