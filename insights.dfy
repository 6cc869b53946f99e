/**
  The insights summary over the stored subscription records (main.py,
  `monthly_summary`): every record with a non-blank name contributes its
  monthly-equivalent cost to a grand total and to a per-service total keyed
  by its normalised name, and a second pass counts how often each
  normalised name occurs, reporting those that occur more than once.

  The specification is stated in two layers. Each record is first seen as
  an Item: its grouping key and its monthly cost. The aggregation is then
  specified over the sequence of items, by functions that follow the
  sequence from its last element backwards, so that the state after the
  first `i` records of a pass is the specification of the first `i` items.
 */
module Insights {
  import Text
  import Billing

  datatype Option<T> = None | Some(value: T)

  /** The fields of a stored subscription document that the summary reads.
      A field absent from the document is `None`. */
  datatype Record = Record(name: Option<string>, amount: Option<real>, cycle: Option<string>)

  /** What the summary returns, before rounding: the grand monthly total,
      the monthly total per normalised service name, and the set of names
      that occur more than once. */
  datatype Summary = Summary(totalMonthly: real, services: map<string, real>, duplicates: set<string>)

  /** A missing or empty name reads as the empty string. */
  function NameOf(d: Record): string {
    match d.name
    case None => ""
    case Some(n) => n
  }

  /** A missing amount reads as 0. */
  function AmountOf(d: Record): real {
    match d.amount
    case None => 0.0
    case Some(a) => a
  }

  /** A missing billing cycle reads as "monthly". */
  function CycleOf(d: Record): string {
    match d.cycle
    case None => Billing.Monthly
    case Some(c) => c
  }

  /** The grouping key of a record: its trimmed, lower-cased name. */
  function Key(d: Record): string {
    Text.Normalise(NameOf(d))
  }

  /** The monthly-equivalent cost of one record. */
  function Cost(d: Record): real {
    Billing.MonthlyCost(AmountOf(d), CycleOf(d))
  }

  /** The amount of every record is non-negative, as record validation
      guarantees for every stored document. */
  predicate AmountsNonNegative(docs: seq<Record>) {
    forall i :: 0 <= i < |docs| ==> 0.0 <= AmountOf(docs[i])
  }

  /** What the summary sees of one record. */
  datatype Item = Item(key: string, monthly: real)

  function ItemOf(d: Record): Item {
    Item(Key(d), Cost(d))
  }

  function Items(docs: seq<Record>): seq<Item> {
    seq(|docs|, i requires 0 <= i < |docs| => ItemOf(docs[i]))
  }

  /** Whether an item is counted at all: its key is not blank. */
  predicate Counted(e: Item) {
    e.key != ""
  }

  /** Whether an item is counted under the key `n`. */
  predicate Under(e: Item, n: string) {
    Counted(e) && e.key == n
  }

  /** The grand monthly total: the monthly costs of the counted items. */
  function Total(x: seq<Item>): real
    decreases |x|
  {
    if x == [] then 0.0
    else
      var e := x[|x| - 1];
      Total(x[..|x| - 1]) + (if Counted(e) then e.monthly else 0.0)
  }

  /** The keys of the counted items. */
  function Names(x: seq<Item>): set<string>
    decreases |x|
  {
    if x == [] then {}
    else
      var e := x[|x| - 1];
      Names(x[..|x| - 1]) + (if Counted(e) then {e.key} else {})
  }

  /** The sum of the monthly costs of the items counted under `n`. */
  function ServiceSum(x: seq<Item>, n: string): real
    decreases |x|
  {
    if x == [] then 0.0
    else
      var e := x[|x| - 1];
      ServiceSum(x[..|x| - 1], n) + (if Under(e, n) then e.monthly else 0.0)
  }

  /** The number of items counted under `n`. */
  function Count(x: seq<Item>, n: string): nat
    decreases |x|
  {
    if x == [] then 0
    else
      var e := x[|x| - 1];
      Count(x[..|x| - 1], n) + (if Under(e, n) then 1 else 0)
  }

  /** The per-service totals: one entry per key. */
  function Services(x: seq<Item>): map<string, real> {
    map n | n in Names(x) :: ServiceSum(x, n)
  }

  /** The occurrence count of each key. */
  function NameCounts(x: seq<Item>): map<string, int> {
    map n | n in Names(x) :: Count(x, n)
  }

  /** The keys shared by more than one item. */
  function Duplicates(x: seq<Item>): set<string> {
    set n | n in Names(x) && Count(x, n) > 1
  }

  /** The summary of a sequence of records, as a specification. */
  function Summarize(docs: seq<Record>): Summary {
    var x := Items(docs);
    Summary(Total(x), Services(x), Duplicates(x))
  }

  /** The sum of the values of a map, taken in no particular order. */
  ghost function SumValues(m: map<string, real>): real
    decreases |m|
  {
    if m == map[] then 0.0
    else
      var k :| k in m;
      assert |m - {k}| < |m| by { assert (m - {k}).Keys == m.Keys - {k}; }
      m[k] + SumValues(m - {k})
  }

  /** One step of the first pass on a map: add `c` to the entry of `k`,
      creating it at 0 first if `k` is new; a blank key changes nothing. */
  function AddCost(m: map<string, real>, k: string, c: real): map<string, real> {
    if k == "" then m else m[k := (if k in m then m[k] else 0.0) + c]
  }

  /** One step of the second pass on a map: count one more `k`. */
  function AddOne(m: map<string, int>, k: string): map<string, int> {
    if k == "" then m else m[k := (if k in m then m[k] else 0) + 1]
  }

  /** Python's `setdefault(k, 0)` followed by `m[k] += c` is AddCost. */
  lemma SetDefaultThenAdd(m: map<string, real>, k: string, c: real)
    requires k != ""
    ensures var m1 := if k in m then m else m[k := 0.0];
      m1[k := m1[k] + c] == AddCost(m, k, c)
  {
  }

  lemma {:induction false} ServiceSumOfAbsent(x: seq<Item>, n: string)
    requires n !in Names(x)
    ensures ServiceSum(x, n) == 0.0
    decreases |x|
  {
    if x != [] {
      ServiceSumOfAbsent(x[..|x| - 1], n);
    }
  }

  lemma {:induction false} CountOfAbsent(x: seq<Item>, n: string)
    requires n !in Names(x)
    ensures Count(x, n) == 0
    decreases |x|
  {
    if x != [] {
      CountOfAbsent(x[..|x| - 1], n);
    }
  }

  /** Appending an item adds its key, when counted, to the names, and adds
      its monthly cost and one occurrence under that key. */
  lemma Snoc(x: seq<Item>, e: Item, n: string)
    ensures Names(x + [e]) == Names(x) + (if Counted(e) then {e.key} else {})
    ensures ServiceSum(x + [e], n) == ServiceSum(x, n) + (if Under(e, n) then e.monthly else 0.0)
    ensures Count(x + [e], n) == Count(x, n) + (if Under(e, n) then 1 else 0)
    ensures Total(x + [e]) == Total(x) + (if Counted(e) then e.monthly else 0.0)
  {
    var x' := x + [e];
    assert x'[..|x'| - 1] == x;
  }

  /** Appending one item changes the per-service totals exactly as one
      iteration of the first pass changes its map. */
  lemma ServicesSnoc(x: seq<Item>, e: Item)
    ensures Services(x + [e]) == AddCost(Services(x), e.key, e.monthly)
  {
    var s, s' := Services(x), Services(x + [e]);
    var expected := AddCost(s, e.key, e.monthly);
    Snoc(x, e, e.key);
    if Counted(e) && e.key !in Names(x) {
      ServiceSumOfAbsent(x, e.key);
    }
    forall n | n in s'
      ensures n in expected && s'[n] == expected[n]
    {
      Snoc(x, e, n);
    }
    assert s'.Keys == expected.Keys;
  }

  /** Appending one item changes the name counts exactly as one iteration
      of the second pass changes its map. */
  lemma NameCountsSnoc(x: seq<Item>, e: Item)
    ensures NameCounts(x + [e]) == AddOne(NameCounts(x), e.key)
  {
    var c, c' := NameCounts(x), NameCounts(x + [e]);
    var expected := AddOne(c, e.key);
    Snoc(x, e, e.key);
    if Counted(e) && e.key !in Names(x) {
      CountOfAbsent(x, e.key);
    }
    forall n | n in c'
      ensures n in expected && c'[n] == expected[n]
    {
      Snoc(x, e, n);
    }
    assert c'.Keys == expected.Keys;
  }

  /** One iteration of the first pass, on the specification: if the state
      so far is the specification of the first `i` items, adding item `i`
      as the pass does gives the specification of the first `i + 1`. */
  lemma AccumulateStep(x: seq<Item>, i: nat, total: real, m: map<string, real>)
    requires i < |x|
    requires total == Total(x[..i]) && m == Services(x[..i])
    ensures total + (if Counted(x[i]) then x[i].monthly else 0.0) == Total(x[..i + 1])
    ensures AddCost(m, x[i].key, x[i].monthly) == Services(x[..i + 1])
  {
    assert x[..i + 1] == x[..i] + [x[i]];
    Snoc(x[..i], x[i], x[i].key);
    ServicesSnoc(x[..i], x[i]);
  }

  /** One iteration of the second pass, on the specification. */
  lemma CountStep(x: seq<Item>, i: nat, m: map<string, int>)
    requires i < |x|
    requires m == NameCounts(x[..i])
    ensures AddOne(m, x[i].key) == NameCounts(x[..i + 1])
  {
    assert x[..i + 1] == x[..i] + [x[i]];
    NameCountsSnoc(x[..i], x[i]);
  }

  /** The body of the first pass for one record: a record with a blank
      key is skipped; any other adds its monthly-equivalent cost to the
      grand total and, through `setdefault(name, 0)` and `+=`, to the
      running total of its key. */
  method AddRecord(d: Record, totalMonthly: real, byService: map<string, real>)
    returns (totalMonthly': real, byService': map<string, real>)
    ensures Key(d) == "" ==> totalMonthly' == totalMonthly && byService' == byService
    ensures Key(d) != "" ==> totalMonthly' == totalMonthly + Cost(d)
    ensures Key(d) != "" ==> Key(d) in byService' && byService'.Keys == byService.Keys + {Key(d)}
    ensures byService' == AddCost(byService, Key(d), Cost(d))
  {
    var amount := AmountOf(d);
    var cycle := CycleOf(d);
    var name := Text.Normalise(NameOf(d));
    totalMonthly', byService' := totalMonthly, byService;
    if name != "" {
      var monthly := Billing.MonthlyCost(amount, cycle);
      totalMonthly' := totalMonthly' + monthly;
      SetDefaultThenAdd(byService', name, monthly);
      if name !in byService' {
        byService' := byService'[name := 0.0];
      }
      byService' := byService'[name := byService'[name] + monthly];
    }
  }

  /** The first pass of the summary over all records: the grand total and
      the per-service totals are those the specification gives. */
  method AccumulateCosts(docs: seq<Record>) returns (totalMonthly: real, byService: map<string, real>)
    ensures totalMonthly == Total(Items(docs))
    ensures byService == Services(Items(docs))
  {
    ghost var items := Items(docs);
    totalMonthly := 0.0;
    byService := map[];
    var i := 0;
    while i < |docs|
      invariant 0 <= i <= |docs|
      invariant totalMonthly == Total(items[..i])
      invariant byService == Services(items[..i])
    {
      AccumulateStep(items, i, totalMonthly, byService);
      totalMonthly, byService := AddRecord(docs[i], totalMonthly, byService);
      i := i + 1;
    }
    assert items[..i] == items;
  }

  /** The body of the second pass for one record: a record with a blank
      key is skipped; any other counts once more under its key. */
  method CountRecord(d: Record, nameCounts: map<string, int>) returns (nameCounts': map<string, int>)
    ensures Key(d) == "" ==> nameCounts' == nameCounts
    ensures Key(d) != "" ==> nameCounts'.Keys == nameCounts.Keys + {Key(d)}
    ensures Key(d) != "" && Key(d) !in nameCounts ==> nameCounts'[Key(d)] == 1
    ensures nameCounts' == AddOne(nameCounts, Key(d))
  {
    var n := Text.Normalise(NameOf(d));
    nameCounts' := nameCounts;
    if n != "" {
      nameCounts' := nameCounts'[n := (if n in nameCounts' then nameCounts'[n] else 0) + 1];
    }
  }

  /** The second pass of the summary over all records: the number of
      records carrying each non-blank key. */
  method CountNames(docs: seq<Record>) returns (nameCounts: map<string, int>)
    ensures nameCounts == NameCounts(Items(docs))
  {
    ghost var items := Items(docs);
    nameCounts := map[];
    var i := 0;
    while i < |docs|
      invariant 0 <= i <= |docs|
      invariant nameCounts == NameCounts(items[..i])
    {
      CountStep(items, i, nameCounts);
      nameCounts := CountRecord(docs[i], nameCounts);
      i := i + 1;
    }
    assert items[..i] == items;
  }

  /** The insights summary: the two passes, then the names counted more
      than once. */
  method MonthlySummary(docs: seq<Record>) returns (s: Summary)
    ensures s == Summarize(docs)
    ensures s.duplicates <= s.services.Keys
    ensures docs == [] ==> s == Summary(0.0, map[], {})
  {
    var totalMonthly, byService := AccumulateCosts(docs);
    var nameCounts := CountNames(docs);
    var duplicates := set n | n in nameCounts && nameCounts[n] > 1;
    s := Summary(totalMonthly, byService, duplicates);
  }
}
