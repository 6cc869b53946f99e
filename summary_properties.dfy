/**
  What the insights summary promises, proved about its specification
  (Insights.Summarize, which Insights.MonthlySummary computes): which names
  become services, what the grand total and the duplicates are, which
  records are ignored, and that the order of the stored records does not
  matter.
 */
module SummaryProperties {
  import Text
  import opened Insights

  /** The item of record `i` is that record's key and cost. */
  lemma ItemsAt(docs: seq<Record>, i: int)
    requires 0 <= i < |docs|
    ensures |Items(docs)| == |docs|
    ensures Items(docs)[i].key == Key(docs[i]) && Items(docs)[i].monthly == Cost(docs[i])
  {
  }

  /** The items of two runs of records, one after the other. */
  lemma ItemsAppend(a: seq<Record>, b: seq<Record>)
    ensures Items(a + b) == Items(a) + Items(b)
  {
    assert |Items(a + b)| == |Items(a) + Items(b)|;
    forall i | 0 <= i < |a + b|
      ensures Items(a + b)[i] == (Items(a) + Items(b))[i]
    {
      if i < |a| {
        assert (a + b)[i] == a[i];
      } else {
        assert (a + b)[i] == b[i - |a|];
      }
    }
  }

  // ---------------------------------------------------------------------
  // Names, counts and totals over a sequence of items
  // ---------------------------------------------------------------------

  /** A key is a name of the items exactly when it is non-blank and some
      item carries it. */
  lemma {:induction false} NamesExactly(x: seq<Item>, n: string)
    ensures n in Names(x) <==> n != "" && exists i :: 0 <= i < |x| && x[i].key == n
    decreases |x|
  {
    if x != [] {
      var x', e := x[..|x| - 1], x[|x| - 1];
      NamesExactly(x', n);
      if n in Names(x) {
        if n in Names(x') {
          var i :| 0 <= i < |x'| && x'[i].key == n;
          assert x[i] == x'[i];
        } else {
          assert x[|x| - 1].key == n;
        }
      }
      if n != "" && exists i :: 0 <= i < |x| && x[i].key == n {
        var i :| 0 <= i < |x| && x[i].key == n;
        if i < |x| - 1 {
          assert x'[i] == x[i];
        }
      }
    }
  }

  /** A key is counted at least once exactly when it is a name. */
  lemma {:induction false} CountPositive(x: seq<Item>, n: string)
    ensures Count(x, n) > 0 <==> n in Names(x)
    decreases |x|
  {
    if x != [] {
      CountPositive(x[..|x| - 1], n);
    }
  }

  /** A key is counted more than once exactly when two different items
      carry it. */
  lemma {:induction false} CountTwice(x: seq<Item>, n: string)
    ensures Count(x, n) > 1 <==>
      n != "" && exists i, j :: 0 <= i < j < |x| && x[i].key == n && x[j].key == n
    decreases |x|
  {
    if x != [] {
      var x', e := x[..|x| - 1], x[|x| - 1];
      CountTwice(x', n);
      CountPositive(x', n);
      NamesExactly(x', n);
      if Count(x, n) > 1 {
        if Under(e, n) {
          var i :| 0 <= i < |x'| && x'[i].key == n;
          assert x[i].key == n && x[|x| - 1].key == n;
        } else {
          var i, j :| 0 <= i < j < |x'| && x'[i].key == n && x'[j].key == n;
          assert x[i].key == n && x[j].key == n;
        }
      }
      if n != "" && exists i, j :: 0 <= i < j < |x| && x[i].key == n && x[j].key == n {
        var i, j :| 0 <= i < j < |x| && x[i].key == n && x[j].key == n;
        assert x'[i] == x[i];
        if j < |x| - 1 {
          assert x'[j] == x[j];
        } else {
          assert Under(e, n);
        }
      }
    }
  }

  /** Every aggregate of the items splits over a concatenation. */
  lemma {:induction false} Concat(x: seq<Item>, y: seq<Item>, n: string)
    ensures Names(x + y) == Names(x) + Names(y)
    ensures Total(x + y) == Total(x) + Total(y)
    ensures ServiceSum(x + y, n) == ServiceSum(x, n) + ServiceSum(y, n)
    ensures Count(x + y, n) == Count(x, n) + Count(y, n)
    decreases |y|
  {
    if y == [] {
      assert x + y == x;
    } else {
      var y', e := y[..|y| - 1], y[|y| - 1];
      Concat(x, y', n);
      assert x + y == (x + y') + [e];
      assert y == y' + [e];
      Snoc(x + y', e, n);
      Snoc(y', e, n);
    }
  }

  /** An item moved from the middle of a sequence to its end leaves every
      aggregate as it was. */
  lemma MoveToEnd(p: seq<Item>, e: Item, q: seq<Item>, n: string)
    ensures Names(p + [e] + q) == Names(p + q + [e])
    ensures Total(p + [e] + q) == Total(p + q + [e])
    ensures ServiceSum(p + [e] + q, n) == ServiceSum(p + q + [e], n)
    ensures Count(p + [e] + q, n) == Count(p + q + [e], n)
  {
    Concat(p + [e], q, n);
    Concat(p, [e], n);
    Concat(p + q, [e], n);
    Concat(p, q, n);
  }

  // ---------------------------------------------------------------------
  // The sum of the services values
  // ---------------------------------------------------------------------

  /** SumValues does not depend on the key it happens to pick first. */
  lemma {:induction false} SumValuesRemove(m: map<string, real>, k: string)
    requires k in m
    ensures SumValues(m) == m[k] + SumValues(m - {k})
    decreases |m|
  {
    var j :| j in m && SumValues(m) == m[j] + SumValues(m - {j});
    if j != k {
      assert (m - {j}).Keys == m.Keys - {j};
      assert (m - {k}).Keys == m.Keys - {k};
      SumValuesRemove(m - {j}, k);
      SumValuesRemove(m - {k}, j);
      assert m - {j} - {k} == m - {k} - {j};
    }
  }

  /** One step of the first pass raises the sum of the map's values by the
      cost it adds, whether the key was new or not. */
  lemma AddCostSum(m: map<string, real>, k: string, c: real)
    requires k != ""
    ensures SumValues(AddCost(m, k, c)) == SumValues(m) + c
  {
    var m' := AddCost(m, k, c);
    SumValuesRemove(m', k);
    if k in m {
      SumValuesRemove(m, k);
      assert m' - {k} == m - {k};
    } else {
      assert m' - {k} == m;
    }
  }

  /** Before rounding, the grand total is the sum of the per-service
      totals. */
  lemma {:induction false} TotalIsSumOfServices(x: seq<Item>)
    ensures Total(x) == SumValues(Services(x))
    decreases |x|
  {
    if x == [] {
      assert Services(x) == map[];
    } else {
      var x', e := x[..|x| - 1], x[|x| - 1];
      assert x == x' + [e];
      TotalIsSumOfServices(x');
      Snoc(x', e, e.key);
      ServicesSnoc(x', e);
      if Counted(e) {
        AddCostSum(Services(x'), e.key, e.monthly);
      }
    }
  }

  /** Two sequences of items with the same names, the same grand total and
      the same per-key sums and counts have the same services and the same
      duplicates. */
  lemma SameAggregates(x: seq<Item>, y: seq<Item>)
    requires Names(x) == Names(y) && Total(x) == Total(y)
    requires forall n :: ServiceSum(x, n) == ServiceSum(y, n) && Count(x, n) == Count(y, n)
    ensures Services(x) == Services(y) && Duplicates(x) == Duplicates(y)
  {
    assert Services(x).Keys == Services(y).Keys;
  }

  /** Inserting the same item into two sequences that agree on every
      aggregate, at the end of one and anywhere in the other, keeps them in
      agreement. */
  lemma InsertItem(x: seq<Item>, p: seq<Item>, e: Item, q: seq<Item>, n: string)
    requires Names(x) == Names(p + q) && Total(x) == Total(p + q)
    requires ServiceSum(x, n) == ServiceSum(p + q, n) && Count(x, n) == Count(p + q, n)
    ensures Names(x + [e]) == Names(p + [e] + q) && Total(x + [e]) == Total(p + [e] + q)
    ensures ServiceSum(x + [e], n) == ServiceSum(p + [e] + q, n)
    ensures Count(x + [e], n) == Count(p + [e] + q, n)
  {
    MoveToEnd(p, e, q, n);
    Snoc(x, e, n);
    Snoc(p + q, e, n);
  }

  // ---------------------------------------------------------------------
  // The summary of a sequence of records
  // ---------------------------------------------------------------------

  /** The services are keyed by exactly the non-blank keys of the records. */
  lemma ServiceKeysExactly(docs: seq<Record>, n: string)
    ensures n in Summarize(docs).services <==>
      n != "" && exists i :: 0 <= i < |docs| && Key(docs[i]) == n
  {
    var x := Items(docs);
    NamesExactly(x, n);
    if n != "" && exists i :: 0 <= i < |docs| && Key(docs[i]) == n {
      var i :| 0 <= i < |docs| && Key(docs[i]) == n;
      ItemsAt(docs, i);
    }
    if n in Names(x) {
      var i :| 0 <= i < |x| && x[i].key == n;
      ItemsAt(docs, i);
    }
  }

  /** Every services key is a grouping key in its own right: trimmed,
      without capital letters, and its own normalisation. */
  lemma ServiceKeysNormalised(docs: seq<Record>, n: string)
    requires n in Summarize(docs).services
    ensures Text.Normalise(n) == n
    ensures forall j :: 0 <= j < |n| ==> !Text.IsUpper(n[j])
    ensures n != "" && !Text.IsSpace(n[0]) && !Text.IsSpace(n[|n| - 1])
  {
    ServiceKeysExactly(docs, n);
    var i :| 0 <= i < |docs| && Key(docs[i]) == n;
    NormalisedKey(NameOf(docs[i]), n);
  }

  /** What NormaliseShape and NormaliseIdempotent say of a grouping key. */
  lemma NormalisedKey(t: string, n: string)
    requires n == Text.Normalise(t) && n != ""
    ensures Text.Normalise(n) == n
    ensures forall j :: 0 <= j < |n| ==> !Text.IsUpper(n[j])
    ensures !Text.IsSpace(n[0]) && !Text.IsSpace(n[|n| - 1])
  {
    Text.NormaliseIdempotent(t);
    Text.NormaliseShape(t);
  }

  /** Before rounding, the grand total of the summary is the sum of its
      per-service totals. */
  lemma TotalIsSumOfServiceValues(docs: seq<Record>)
    ensures Summarize(docs).totalMonthly == SumValues(Summarize(docs).services)
  {
    TotalIsSumOfServices(Items(docs));
  }

  /** A name is reported as a duplicate exactly when two different records
      normalise to it. */
  lemma DuplicateIffTwoRecords(docs: seq<Record>, n: string)
    ensures n in Summarize(docs).duplicates <==>
      n != "" && exists i, j :: 0 <= i < j < |docs| && Key(docs[i]) == n && Key(docs[j]) == n
  {
    var x := Items(docs);
    CountTwice(x, n);
    CountPositive(x, n);
    if n in Summarize(docs).duplicates {
      var i, j :| 0 <= i < j < |x| && x[i].key == n && x[j].key == n;
      ItemsAt(docs, i);
      ItemsAt(docs, j);
    }
    if n != "" && exists i, j :: 0 <= i < j < |docs| && Key(docs[i]) == n && Key(docs[j]) == n {
      var i, j :| 0 <= i < j < |docs| && Key(docs[i]) == n && Key(docs[j]) == n;
      ItemsAt(docs, i);
      ItemsAt(docs, j);
    }
  }

  /** A record whose name is missing or whitespace only contributes nothing:
      the summary with it is the summary without it. */
  lemma BlankRecordIgnored(a: seq<Record>, d: Record, b: seq<Record>)
    requires d.name == None || Text.AllSpace(d.name.value)
    ensures Summarize(a + [d] + b) == Summarize(a + b)
  {
    Text.NormaliseShape(NameOf(d));
    assert Items([d]) == [ItemOf(d)];
    ItemsAppend(a + [d], b);
    ItemsAppend(a, [d]);
    ItemsAppend(a, b);
    UncountedItemIgnored(Items(a), ItemOf(d), Items(b));
  }

  /** An item with a blank key changes no aggregate. */
  lemma UncountedItemIgnored(p: seq<Item>, e: Item, q: seq<Item>)
    requires !Counted(e)
    ensures Total(p + [e] + q) == Total(p + q)
    ensures Services(p + [e] + q) == Services(p + q)
    ensures Duplicates(p + [e] + q) == Duplicates(p + q)
  {
    Snoc(p + q, e, "");
    forall n
      ensures ServiceSum(p + [e] + q, n) == ServiceSum(p + q, n)
      ensures Count(p + [e] + q, n) == Count(p + q, n)
    {
      MoveToEnd(p, e, q, n);
      Snoc(p + q, e, n);
    }
    MoveToEnd(p, e, q, "");
    SameAggregates(p + [e] + q, p + q);
  }

  /** With non-negative amounts, every per-service value and the grand
      total are non-negative. */
  lemma {:induction false} ItemsNonNegative(x: seq<Item>, n: string)
    requires forall i :: 0 <= i < |x| ==> 0.0 <= x[i].monthly
    ensures 0.0 <= Total(x) && 0.0 <= ServiceSum(x, n)
    decreases |x|
  {
    if x != [] {
      ItemsNonNegative(x[..|x| - 1], n);
    }
  }

  lemma SummaryNonNegative(docs: seq<Record>)
    requires AmountsNonNegative(docs)
    ensures 0.0 <= Summarize(docs).totalMonthly
    ensures forall n :: n in Summarize(docs).services ==> 0.0 <= Summarize(docs).services[n]
  {
    var x := Items(docs);
    forall i | 0 <= i < |x| ensures 0.0 <= x[i].monthly {
      ItemsAt(docs, i);
    }
    forall n | n in Summarize(docs).services ensures 0.0 <= Summarize(docs).services[n] {
      ItemsNonNegative(x, n);
    }
    ItemsNonNegative(x, "");
  }

  /** Rearranging the records leaves every aggregate of their items as it
      was. */
  lemma {:induction false} ReorderItems(a: seq<Record>, b: seq<Record>, n: string)
    requires multiset(a) == multiset(b)
    ensures Names(Items(a)) == Names(Items(b))
    ensures Total(Items(a)) == Total(Items(b))
    ensures ServiceSum(Items(a), n) == ServiceSum(Items(b), n)
    ensures Count(Items(a), n) == Count(Items(b), n)
    decreases |a|
  {
    if a == [] {
      assert |b| == |multiset(b)| == 0;
    } else {
      var a', d := a[..|a| - 1], a[|a| - 1];
      assert a == a' + [d];
      assert d in multiset(b);
      var p, q := TakeOut(a', d, b);
      ReorderItems(a', p + q, n);
      ItemsAround(a', d, p, q);
      InsertItem(Items(a'), Items(p), ItemOf(d), Items(q), n);
    }
  }

  /** The record last in `a` occurs somewhere in `b`, a rearrangement of
      `a`; what surrounds it there is a rearrangement of the rest of `a`. */
  lemma TakeOut(a: seq<Record>, d: Record, b: seq<Record>) returns (p: seq<Record>, q: seq<Record>)
    requires multiset(a + [d]) == multiset(b)
    ensures b == p + [d] + q && multiset(a) == multiset(p + q)
  {
    assert d in multiset(a + [d]);
    var k :| 0 <= k < |b| && b[k] == d;
    p, q := b[..k], b[k + 1..];
    assert b == p + [d] + q;
    calc {
      multiset(a);
      multiset(a + [d]) - multiset{d};
      multiset(p + [d] + q) - multiset{d};
      multiset(p) + multiset(q);
      multiset(p + q);
    }
  }

  /** The items of a record placed after one run of records, or between
      two. */
  lemma ItemsAround(a: seq<Record>, d: Record, p: seq<Record>, q: seq<Record>)
    ensures Items(a + [d]) == Items(a) + [ItemOf(d)]
    ensures Items(p + [d] + q) == Items(p) + [ItemOf(d)] + Items(q)
    ensures Items(p + q) == Items(p) + Items(q)
  {
    assert Items([d]) == [ItemOf(d)];
    ItemsAppend(a, [d]);
    ItemsAppend(p + [d], q);
    ItemsAppend(p, [d]);
    ItemsAppend(p, q);
  }

  /** The summary depends only on which records are stored, not on the
      order in which the store returns them. */
  lemma SummaryIgnoresOrder(a: seq<Record>, b: seq<Record>)
    requires multiset(a) == multiset(b)
    ensures Summarize(a) == Summarize(b)
  {
    var x, y := Items(a), Items(b);
    ReorderItems(a, b, "");
    forall n
      ensures ServiceSum(x, n) == ServiceSum(y, n) && Count(x, n) == Count(y, n)
    {
      ReorderItems(a, b, n);
    }
    SameAggregates(x, y);
  }

  /** Two records whose names differ only in letter case and surrounding
      whitespace share one bucket: their costs are added under one key, and
      that key is reported as a duplicate. */
  lemma TwoSpellingsOneBucket(a: Record, b: Record, pre: string, u: string, post: string)
    requires NameOf(a) == pre + u + post
    requires Text.AllSpace(pre) && Text.AllSpace(post)
    requires Text.Lower(u) == Text.Lower(NameOf(b))
    requires !Text.AllSpace(NameOf(b))
    ensures Key(a) == Key(b) != ""
    ensures Summarize([a, b]).services == map[Key(b) := Cost(a) + Cost(b)]
    ensures Summarize([a, b]).duplicates == {Key(b)}
  {
    Text.SameKeyUpToCaseAndPadding(pre, u, post, NameOf(b));
    Text.NormaliseShape(NameOf(b));
    ItemsAt([a, b], 0);
    ItemsAt([a, b], 1);
    TwoItems(Items([a, b]), Key(b));
  }

  /** Two items under one key. */
  lemma TwoItems(x: seq<Item>, k: string)
    requires |x| == 2 && k != ""
    requires x[0].key == k && x[1].key == k
    ensures Services(x) == map[k := x[0].monthly + x[1].monthly]
    ensures Duplicates(x) == {k}
  {
    var e0, e1 := x[0], x[1];
    assert x == [e0] + [e1];
    assert [] + [e0] == [e0];
    Snoc([], e0, k);
    Snoc([e0], e1, k);
    assert Names(x) == {k};
    forall n
      ensures ServiceSum(x, n) == (if n == k then e0.monthly + e1.monthly else 0.0)
      ensures Count(x, n) == (if n == k then 2 else 0)
    {
      Snoc([], e0, n);
      Snoc([e0], e1, n);
    }
    assert Services(x).Keys == {k};
  }

  /** A missing amount counts as 0; a missing billing cycle counts as
      monthly, so the amount passes through unchanged. */
  lemma MissingFieldDefaults(d: Record)
    ensures d.amount == None ==> Cost(d) == 0.0
    ensures d.cycle == None ==> Cost(d) == AmountOf(d)
  {
  }

  /** Two items under one key and a third under another. */
  lemma ThreeItems(x: seq<Item>, k: string, l: string)
    requires |x| == 3 && k != "" && l != "" && k != l
    requires x[0].key == k && x[1].key == k && x[2].key == l
    ensures Services(x) == map[k := x[0].monthly + x[1].monthly, l := x[2].monthly]
    ensures Total(x) == x[0].monthly + x[1].monthly + x[2].monthly
    ensures Duplicates(x) == {k}
  {
    var e0, e1, e2 := x[0], x[1], x[2];
    assert x == [e0] + [e1] + [e2];
    assert [] + [e0] == [e0];
    Snoc([], e0, k);
    Snoc([e0], e1, k);
    Snoc([e0] + [e1], e2, k);
    assert Names(x) == {k, l};
    forall n
      ensures ServiceSum(x, n) ==
        (if n == k then e0.monthly + e1.monthly else if n == l then e2.monthly else 0.0)
      ensures Count(x, n) == (if n == k then 2 else if n == l then 1 else 0)
    {
      Snoc([], e0, n);
      Snoc([e0], e1, n);
      Snoc([e0] + [e1], e2, n);
    }
    assert Services(x).Keys == {k, l};
  }

  /** Netflix at 15.99 a month, netflix at 8 a week and Spotify at 120 a
      year: netflix costs 15.99 + 8 * 52 / 12 a month, spotify 10, and
      netflix is a duplicate. */
  lemma StreamingScenario()
    ensures var s := Summarize([
        Record(Some("Netflix"), Some(15.99), Some("monthly")),
        Record(Some("netflix"), Some(8.0), Some("weekly")),
        Record(Some("Spotify"), Some(120.0), Some("annual"))]);
      && s.services == map["netflix" := 15.99 + 8.0 * 52.0 / 12.0, "spotify" := 10.0]
      && s.totalMonthly == 15.99 + 8.0 * 52.0 / 12.0 + 10.0
      && s.duplicates == {"netflix"}
  {
    StreamingRecords([
      Record(Some("Netflix"), Some(15.99), Some("monthly")),
      Record(Some("netflix"), Some(8.0), Some("weekly")),
      Record(Some("Spotify"), Some(120.0), Some("annual"))]);
  }

  /** StreamingScenario, for records given one by one. */
  lemma StreamingRecords(docs: seq<Record>)
    requires |docs| == 3
    requires docs[0] == Record(Some("Netflix"), Some(15.99), Some("monthly"))
    requires docs[1] == Record(Some("netflix"), Some(8.0), Some("weekly"))
    requires docs[2] == Record(Some("Spotify"), Some(120.0), Some("annual"))
    ensures Summarize(docs).services == map["netflix" := 15.99 + 8.0 * 52.0 / 12.0, "spotify" := 10.0]
    ensures Summarize(docs).totalMonthly == 15.99 + 8.0 * 52.0 / 12.0 + 10.0
    ensures Summarize(docs).duplicates == {"netflix"}
  {
    StreamingKeys(docs);
    ItemsAt(docs, 0);
    ItemsAt(docs, 1);
    ItemsAt(docs, 2);
    ThreeItems(Items(docs), "netflix", "spotify");
  }

  /** The grouping keys of the scenario's records. */
  lemma StreamingKeys(docs: seq<Record>)
    requires |docs| == 3
    requires NameOf(docs[0]) == "Netflix" && NameOf(docs[1]) == "netflix" && NameOf(docs[2]) == "Spotify"
    ensures Key(docs[0]) == "netflix" && Key(docs[1]) == "netflix" && Key(docs[2]) == "spotify"
    ensures "netflix" != "spotify"
  {
    assert Text.Strip("Netflix") == "Netflix";
    assert Text.Strip("netflix") == "netflix";
    assert Text.Strip("Spotify") == "Spotify";
    assert "netflix"[0] != "spotify"[0];
  }
}
