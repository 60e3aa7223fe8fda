/** Weekly bucketing of sale events (src/hooks/useInventory.ts, `groupSalesByWeek`), generic
    in the function that maps a sale date to its week key, so that the chart page's own
    bucketing rule (src/pages/WMAForecast.tsx, `getWeeklyData`) shares the definition. */
module Bucketing {
  import opened Types
  import opened Numbers
  import Calendar

  predicate Distinct(s: seq<Day>)
  {
    forall i, j :: 0 <= i < j < |s| ==> s[i] != s[j]
  }

  predicate Sorted(s: seq<int>)
  {
    forall i, j :: 0 <= i < j < |s| ==> s[i] <= s[j]
  }

  predicate StrictlySorted(s: seq<int>)
  {
    forall i, j :: 0 <= i < j < |s| ==> s[i] < s[j]
  }

  /** Some sale of `sales` falls in the week `k`. */
  predicate HasWeek(sales: seq<Sale>, key: Day -> Day, k: Day)
  {
    exists i :: 0 <= i < |sales| && key(sales[i].date) == k
  }

  /** The week keys of `sales` in the order in which each first occurs: the insertion order
      of the grouping record, which `Object.entries` reports. */
  function KeysInOrder(sales: seq<Sale>, key: Day -> Day): (ks: seq<Day>)
    ensures Distinct(ks)
    ensures forall k :: k in ks <==> HasWeek(sales, key, k)
    decreases |sales|
  {
    if sales == [] then []
    else
      var init := sales[..|sales| - 1];
      var ks := KeysInOrder(init, key);
      var k := key(sales[|sales| - 1].date);
      assert forall k' :: HasWeek(sales, key, k') <==> HasWeek(init, key, k') || k' == k by {
        forall k' | HasWeek(sales, key, k')
          ensures HasWeek(init, key, k') || k' == k
        {
          var i :| 0 <= i < |sales| && key(sales[i].date) == k';
          if i < |init| { assert init[i] == sales[i]; }
        }
        forall k' | HasWeek(init, key, k')
          ensures HasWeek(sales, key, k')
        {
          var i :| 0 <= i < |init| && key(init[i].date) == k';
          assert sales[i] == init[i];
        }
      }
      if k in ks then ks else ks + [k]
  }

  /** Quantity sold in week `k`: `grouped[k]` once every sale has been added. */
  function WeekTotal(sales: seq<Sale>, key: Day -> Day, k: Day): int
  {
    if sales == [] then 0
    else
      var last := sales[|sales| - 1];
      WeekTotal(sales[..|sales| - 1], key, k) + (if key(last.date) == k then last.quantity else 0)
  }

  /** Quantity sold over all of `sales`. */
  function TotalQuantity(sales: seq<Sale>): int
  {
    if sales == [] then 0 else TotalQuantity(sales[..|sales| - 1]) + sales[|sales| - 1].quantity
  }

  function Insert(x: int, s: seq<int>): (r: seq<int>)
    ensures multiset(r) == multiset(s) + multiset{x}
  {
    if s == [] || x <= s[0] then [x] + s
    else
      assert s == [s[0]] + s[1..];
      [s[0]] + Insert(x, s[1..])
  }

  lemma InsertElements(x: int, s: seq<int>)
    ensures forall y :: y in Insert(x, s) <==> y == x || y in s
  {
    var r := Insert(x, s);
    assert forall y :: y in r <==> y in multiset(r);
  }

  /** Every element of a sorted `s` after its head is at least the head. */
  lemma HeadIsLeast(s: seq<int>)
    requires Sorted(s) && s != []
    ensures forall y :: y in s ==> s[0] <= y
  {
    forall y | y in s ensures s[0] <= y {
      var j :| 0 <= j < |s| && s[j] == y;
    }
  }

  lemma {:induction false} InsertSorted(x: int, s: seq<int>)
    requires Sorted(s)
    ensures Sorted(Insert(x, s))
  {
    if s != [] && x > s[0] {
      var rest := Insert(x, s[1..]);
      InsertSorted(x, s[1..]);
      InsertElements(x, s[1..]);
      HeadIsLeast(s);
      assert forall i :: 0 <= i < |rest| ==> s[0] <= rest[i] by {
        forall i | 0 <= i < |rest| ensures s[0] <= rest[i] {
          assert rest[i] in rest;
        }
      }
    }
  }

  lemma {:induction false} InsertStrictlySorted(x: int, s: seq<int>)
    requires StrictlySorted(s) && x !in s
    ensures StrictlySorted(Insert(x, s))
  {
    if s != [] && x > s[0] {
      var rest := Insert(x, s[1..]);
      InsertStrictlySorted(x, s[1..]);
      InsertElements(x, s[1..]);
      assert forall i :: 0 <= i < |rest| ==> s[0] < rest[i] by {
        forall i | 0 <= i < |rest| ensures s[0] < rest[i] {
          assert rest[i] in rest;
          if rest[i] != x {
            var j :| 0 <= j < |s[1..]| && s[1..][j] == rest[i];
            assert s[j + 1] == rest[i];
          }
        }
      }
    }
  }

  /** Ascending sort of the week keys (the `.sort` by date of the grouping's entries). */
  function SortAscending(s: seq<int>): (r: seq<int>)
    ensures multiset(r) == multiset(s)
    ensures Sorted(r)
    ensures Distinct(s) ==> StrictlySorted(r)
  {
    if s == [] then []
    else
      var rest := SortAscending(s[1..]);
      SortStep(s, rest);
      Insert(s[0], rest)
  }

  /** The head of `s` inserted into the sorted tail gives a sort of `s`. */
  lemma SortStep(s: seq<int>, rest: seq<int>)
    requires s != []
    requires multiset(rest) == multiset(s[1..]) && Sorted(rest)
    requires Distinct(s[1..]) ==> StrictlySorted(rest)
    ensures multiset(Insert(s[0], rest)) == multiset(s)
    ensures Sorted(Insert(s[0], rest))
    ensures Distinct(s) ==> StrictlySorted(Insert(s[0], rest))
  {
    assert s == [s[0]] + s[1..];
    InsertSorted(s[0], rest);
    if Distinct(s) {
      assert Distinct(s[1..]) by {
        forall i, j | 0 <= i < j < |s[1..]| ensures s[1..][i] != s[1..][j] {
          assert s[1..][i] == s[i + 1] && s[1..][j] == s[j + 1];
        }
      }
      assert s[0] !in multiset(s[1..]);
      InsertStrictlySorted(s[0], rest);
    }
  }

  /** The weeks in which `sales` has a sale, earliest first. */
  function BucketWeeks(sales: seq<Sale>, key: Day -> Day): (weeks: seq<Day>)
    ensures StrictlySorted(weeks)
    ensures forall k :: k in weeks <==> HasWeek(sales, key, k)
  {
    var ks := KeysInOrder(sales, key);
    var weeks := SortAscending(ks);
    assert forall k :: k in weeks <==> k in multiset(ks);
    weeks
  }

  /** The total of each week in `weeks`, in the same order. */
  function TotalsFor(sales: seq<Sale>, key: Day -> Day, weeks: seq<Day>): (totals: seq<int>)
    ensures |totals| == |weeks|
    ensures forall i :: 0 <= i < |weeks| ==> totals[i] == WeekTotal(sales, key, weeks[i])
  {
    if weeks == [] then []
    else TotalsFor(sales, key, weeks[..|weeks| - 1]) + [WeekTotal(sales, key, weeks[|weeks| - 1])]
  }

  /** The weekly-quantity series: the total of every week that has a sale, earliest week first. */
  function BucketTotals(sales: seq<Sale>, key: Day -> Day): seq<int>
  {
    TotalsFor(sales, key, BucketWeeks(sales, key))
  }

  /** The series the hook forecasts from: weeks keyed by their Monday. */
  function WeeklySeries(sales: seq<Sale>): seq<int>
  {
    BucketTotals(sales, Calendar.WeekKey)
  }

  /** The dictionary-filling loop of the grouping: returns the keys in insertion order and
      the per-key totals. */
  method Bucket(sales: seq<Sale>, key: Day -> Day) returns (order: seq<Day>, grouped: map<Day, int>)
    ensures order == KeysInOrder(sales, key)
    ensures forall k :: k in grouped <==> k in order
    ensures forall k :: k in grouped ==> grouped[k] == WeekTotal(sales, key, k)
  {
    order, grouped := [], map[];
    var i := 0;
    while i < |sales|
      invariant 0 <= i <= |sales|
      invariant order == KeysInOrder(sales[..i], key)
      invariant forall k :: k in grouped <==> k in order
      invariant forall k :: k in grouped ==> grouped[k] == WeekTotal(sales[..i], key, k)
    {
      var sale := sales[i];
      var k := key(sale.date);
      assert sales[..i + 1][..i] == sales[..i];
      assert sales[..i + 1][i] == sale;
      if k !in grouped {
        order := order + [k];
      }
      if k !in grouped {
        WeekTotalAbsent(sales[..i], key, k);
      }
      var before := if k in grouped then grouped[k] else 0;
      grouped := grouped[k := before + sale.quantity];
      i := i + 1;
    }
    assert sales[..i] == sales;
  }

  /** `groupSalesByWeek`: sums quantities per Monday-keyed week and lists the totals in
      ascending week order. */
  method GroupSalesByWeek(sales: seq<Sale>) returns (weekly: seq<int>)
    ensures weekly == WeeklySeries(sales)
    ensures Sum(weekly) == TotalQuantity(sales)
    ensures sales == [] <==> weekly == []
  {
    var order, grouped := Bucket(sales, Calendar.WeekKey);
    var weeks := SortAscending(order);
    assert weeks == BucketWeeks(sales, Calendar.WeekKey);
    assert forall j :: 0 <= j < |weeks| ==> weeks[j] in grouped by {
      forall j | 0 <= j < |weeks| ensures weeks[j] in grouped {
        assert weeks[j] in multiset(order);
      }
    }
    weekly := seq(|weeks|, j requires 0 <= j < |weeks| => grouped[weeks[j]]);
    TotalsAgree(sales, Calendar.WeekKey, weeks, weekly);
    WeeklySeriesTotal(sales);
    WeeklySeriesEmpty(sales);
  }

  // ---------------------------------------------------------------------------
  // Properties of the series

  /** A week in which nothing was sold has total 0. */
  lemma {:induction false} WeekTotalAbsent(sales: seq<Sale>, key: Day -> Day, k: Day)
    requires !HasWeek(sales, key, k)
    ensures WeekTotal(sales, key, k) == 0
  {
    if sales != [] {
      var init := sales[..|sales| - 1];
      assert key(sales[|sales| - 1].date) != k;
      WeekTotalAbsent(init, key, k);
    }
  }

  /** Any sequence holding the total of each listed week is `TotalsFor` those weeks. */
  lemma TotalsAgree(sales: seq<Sale>, key: Day -> Day, weeks: seq<Day>, totals: seq<int>)
    requires |totals| == |weeks|
    requires forall i :: 0 <= i < |weeks| ==> totals[i] == WeekTotal(sales, key, weeks[i])
    ensures totals == TotalsFor(sales, key, weeks)
  {
  }

  lemma {:induction false} TotalsForEmpty(key: Day -> Day, weeks: seq<Day>)
    ensures Sum(TotalsFor([], key, weeks)) == 0
  {
    if weeks != [] {
      TotalsForEmpty(key, weeks[..|weeks| - 1]);
    }
  }

  /** Appending one sale adds its quantity to exactly the one listed week it falls in. */
  lemma {:induction false} TotalsForAppend(sales: seq<Sale>, s: Sale, key: Day -> Day, weeks: seq<Day>)
    requires Distinct(weeks)
    ensures Sum(TotalsFor(sales + [s], key, weeks))
         == Sum(TotalsFor(sales, key, weeks)) + (if key(s.date) in weeks then s.quantity else 0)
  {
    if weeks != [] {
      var init := weeks[..|weeks| - 1];
      var last := weeks[|weeks| - 1];
      assert (sales + [s])[..|sales|] == sales;
      assert key(s.date) in weeks <==> key(s.date) in init || key(s.date) == last;
      assert last !in init;
      TotalsForAppend(sales, s, key, init);
    }
  }

  /** Summing the totals of a list of distinct weeks that covers every sale gives the total
      quantity sold. */
  lemma {:induction false} TotalsForCovering(sales: seq<Sale>, key: Day -> Day, weeks: seq<Day>)
    requires Distinct(weeks)
    requires forall i :: 0 <= i < |sales| ==> key(sales[i].date) in weeks
    ensures Sum(TotalsFor(sales, key, weeks)) == TotalQuantity(sales)
  {
    if sales == [] {
      TotalsForEmpty(key, weeks);
    } else {
      var init := sales[..|sales| - 1];
      var s := sales[|sales| - 1];
      assert sales == init + [s];
      assert forall i :: 0 <= i < |init| ==> init[i] == sales[i];
      TotalsForCovering(init, key, weeks);
      TotalsForAppend(init, s, key, weeks);
    }
  }

  /** The weekly series accounts for every unit sold: its sum is the total quantity. */
  lemma BucketTotalsSum(sales: seq<Sale>, key: Day -> Day)
    ensures Sum(BucketTotals(sales, key)) == TotalQuantity(sales)
  {
    var weeks := BucketWeeks(sales, key);
    assert forall i :: 0 <= i < |sales| ==> HasWeek(sales, key, key(sales[i].date));
    TotalsForCovering(sales, key, weeks);
  }

  lemma WeeklySeriesTotal(sales: seq<Sale>)
    ensures Sum(WeeklySeries(sales)) == TotalQuantity(sales)
  {
    BucketTotalsSum(sales, Calendar.WeekKey);
  }

  /** One entry per week that has a sale: no sales, no entries, and conversely. */
  lemma BucketTotalsEmpty(sales: seq<Sale>, key: Day -> Day)
    ensures BucketTotals(sales, key) == [] <==> sales == []
  {
    if sales != [] {
      assert HasWeek(sales, key, key(sales[0].date));
    }
  }

  lemma WeeklySeriesEmpty(sales: seq<Sale>)
    ensures WeeklySeries(sales) == [] <==> sales == []
  {
    BucketTotalsEmpty(sales, Calendar.WeekKey);
  }

  lemma {:induction false} WeekTotalNonNegative(sales: seq<Sale>, key: Day -> Day, k: Day)
    requires forall i :: 0 <= i < |sales| ==> sales[i].quantity >= 0
    ensures WeekTotal(sales, key, k) >= 0
  {
    if sales != [] {
      var init := sales[..|sales| - 1];
      assert forall i :: 0 <= i < |init| ==> init[i] == sales[i];
      WeekTotalNonNegative(init, key, k);
    }
  }

  /** Non-negative quantities give a non-negative weekly series. */
  lemma WeeklySeriesNonNegative(sales: seq<Sale>)
    requires forall i :: 0 <= i < |sales| ==> sales[i].quantity >= 0
    ensures forall q :: q in WeeklySeries(sales) ==> q >= 0
  {
    var weeks := BucketWeeks(sales, Calendar.WeekKey);
    var totals := WeeklySeries(sales);
    forall q | q in totals ensures q >= 0 {
      var i :| 0 <= i < |totals| && totals[i] == q;
      WeekTotalNonNegative(sales, Calendar.WeekKey, weeks[i]);
    }
  }

  /** One more sale adds exactly its quantity to the series' total. */
  lemma WeeklySeriesAppend(sales: seq<Sale>, s: Sale)
    ensures Sum(WeeklySeries(sales + [s])) == Sum(WeeklySeries(sales)) + s.quantity
  {
    WeeklySeriesTotal(sales + [s]);
    WeeklySeriesTotal(sales);
    assert (sales + [s])[..|sales|] == sales;
  }

  // ---------------------------------------------------------------------------
  // The series depends only on which sales there are and the week each falls in

  lemma HeadIsMember(s: seq<int>)
    ensures s != [] ==> s[0] in s
  {
  }

  /** A strictly ascending sequence is determined by its elements. */
  lemma {:induction false} StrictlySortedUnique(a: seq<int>, b: seq<int>)
    requires StrictlySorted(a) && StrictlySorted(b)
    requires forall x :: x in a <==> x in b
    ensures a == b
  {
    if a == [] || b == [] {
      HeadIsMember(a);
      HeadIsMember(b);
    } else {
      assert a[0] in b && b[0] in a;
      assert a[0] == b[0];
      forall x ensures x in a[1..] <==> x in b[1..] {
        assert x in a <==> x == a[0] || x in a[1..];
        assert x in b <==> x == b[0] || x in b[1..];
        assert x in a[1..] ==> x != a[0];
        assert x in b[1..] ==> x != b[0];
      }
      StrictlySortedUnique(a[1..], b[1..]);
      assert a == [a[0]] + a[1..] && b == [b[0]] + b[1..];
    }
  }

  lemma {:induction false} WeekTotalAppend(a: seq<Sale>, b: seq<Sale>, key: Day -> Day, k: Day)
    ensures WeekTotal(a + b, key, k) == WeekTotal(a, key, k) + WeekTotal(b, key, k)
  {
    if b == [] {
      assert a + b == a;
    } else {
      var init := b[..|b| - 1];
      assert (a + b)[..|a + b| - 1] == a + init;
      WeekTotalAppend(a, init, key, k);
    }
  }

  lemma {:induction false} WeekTotalPermutation(s: seq<Sale>, t: seq<Sale>, key: Day -> Day, k: Day)
    requires multiset(s) == multiset(t)
    ensures WeekTotal(s, key, k) == WeekTotal(t, key, k)
  {
    if s != [] {
      var x := s[|s| - 1];
      var init := s[..|s| - 1];
      assert s == init + [x];
      assert x in multiset(t);
      var j :| 0 <= j < |t| && t[j] == x;
      var rest := t[..j] + t[j + 1..];
      assert t == t[..j] + [x] + t[j + 1..];
      assert multiset(t) == multiset(t[..j]) + multiset{x} + multiset(t[j + 1..]);
      assert multiset(rest) == multiset(t[..j]) + multiset(t[j + 1..]);
      assert multiset(s) == multiset(init) + multiset{x};
      assert multiset(init) == multiset(s) - multiset{x};
      assert multiset(rest) == multiset(t) - multiset{x};
      WeekTotalPermutation(init, rest, key, k);
      WeekTotalAppend(t[..j] + [x], t[j + 1..], key, k);
      WeekTotalAppend(t[..j], [x], key, k);
      WeekTotalAppend(t[..j], t[j + 1..], key, k);
      assert [x][..0] == [];
    }
  }

  lemma HasWeekPermutation(s: seq<Sale>, t: seq<Sale>, key: Day -> Day, k: Day)
    requires multiset(s) == multiset(t)
    ensures HasWeek(s, key, k) ==> HasWeek(t, key, k)
  {
    if HasWeek(s, key, k) {
      var i :| 0 <= i < |s| && key(s[i].date) == k;
      assert s[i] in multiset(t);
      var j :| 0 <= j < |t| && t[j] == s[i];
    }
  }

  /** Reordering the sales changes neither the weeks nor their totals. */
  lemma BucketPermutation(s: seq<Sale>, t: seq<Sale>, key: Day -> Day)
    requires multiset(s) == multiset(t)
    ensures BucketWeeks(s, key) == BucketWeeks(t, key)
    ensures BucketTotals(s, key) == BucketTotals(t, key)
  {
    forall k ensures HasWeek(s, key, k) <==> HasWeek(t, key, k) {
      HasWeekPermutation(s, t, key, k);
      HasWeekPermutation(t, s, key, k);
    }
    var weeks := BucketWeeks(s, key);
    StrictlySortedUnique(weeks, BucketWeeks(t, key));
    forall i | 0 <= i < |weeks| ensures WeekTotal(s, key, weeks[i]) == WeekTotal(t, key, weeks[i]) {
      WeekTotalPermutation(s, t, key, weeks[i]);
    }
    TotalsAgree(t, key, weeks, BucketTotals(s, key));
  }

  lemma {:induction false} WeekTotalSameKeys(sales: seq<Sale>, key1: Day -> Day, key2: Day -> Day, k: Day)
    requires forall i :: 0 <= i < |sales| ==> key1(sales[i].date) == key2(sales[i].date)
    ensures WeekTotal(sales, key1, k) == WeekTotal(sales, key2, k)
  {
    if sales != [] {
      var init := sales[..|sales| - 1];
      assert forall i :: 0 <= i < |init| ==> init[i] == sales[i];
      WeekTotalSameKeys(init, key1, key2, k);
    }
  }

  /** Two week rules that agree on every sale date give the same weeks and totals. */
  lemma BucketSameKeys(sales: seq<Sale>, key1: Day -> Day, key2: Day -> Day)
    requires forall i :: 0 <= i < |sales| ==> key1(sales[i].date) == key2(sales[i].date)
    ensures BucketWeeks(sales, key1) == BucketWeeks(sales, key2)
    ensures BucketTotals(sales, key1) == BucketTotals(sales, key2)
  {
    forall k ensures HasWeek(sales, key1, k) <==> HasWeek(sales, key2, k) {
      if HasWeek(sales, key1, k) {
        var i :| 0 <= i < |sales| && key1(sales[i].date) == k;
        assert key2(sales[i].date) == k;
      }
      if HasWeek(sales, key2, k) {
        var i :| 0 <= i < |sales| && key2(sales[i].date) == k;
        assert key1(sales[i].date) == k;
      }
    }
    var weeks := BucketWeeks(sales, key1);
    StrictlySortedUnique(weeks, BucketWeeks(sales, key2));
    forall i | 0 <= i < |weeks| ensures WeekTotal(sales, key1, weeks[i]) == WeekTotal(sales, key2, weeks[i]) {
      WeekTotalSameKeys(sales, key1, key2, weeks[i]);
    }
    TotalsAgree(sales, key2, weeks, BucketTotals(sales, key1));
  }
}
