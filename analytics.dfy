/**
 * The figures of src/components/Analytics/Analytics.tsx: revenue, rates, averages,
 * the deal-stage chart and the customer-source chart. No ratio is guarded against an
 * empty denominator, so `0 / 0` yields JavaScript's NaN, modelled by `Num.NaN`.
 */
module Analytics {
  import opened Seqs
  import opened Types

  /** A JavaScript number that is either finite or NaN. */
  datatype Num = Finite(value: real) | NaN

  /** Real division bounds: `n * lo <= s <= n * hi` puts `s / n` between `lo` and `hi`. */
  lemma QuotientBetween(s: real, n: real, lo: real, hi: real)
    requires n > 0.0 && n * lo <= s <= n * hi
    ensures lo <= s / n <= hi
  {
    assert (s / n) * n == s;
  }

  /** Converting a product of integers to a real is the product of the conversions. */
  lemma ProductAsReal(a: int, b: int)
    ensures (a * b) as real == a as real * b as real
  {
  }

  /** `v` is `part` taken as a percentage of `whole`, stated without division: `v * whole == part * 100`. */
  predicate Hundredths(v: real, part: int, whole: nat) {
    v * whole as real == part as real * 100.0
  }

  /** Percentages of the same whole add up: `v` of `a` and `t` of `b` make `v + t` of `a + b`. */
  lemma AddHundredths(x: real, v: real, t: real, y: int, a: int, b: int, n: nat)
    requires x == v + t && y == a + b
    requires Hundredths(v, a, n) && Hundredths(t, b, n)
    ensures Hundredths(x, y, n)
  {
    assert x * n as real == v * n as real + t * n as real;
  }

  /** The percentage that the whole is of itself is 100. */
  lemma HundredthsOfWhole(t: real, n: nat)
    requires n > 0 && Hundredths(t, n, n)
    ensures t == 100.0
  {
    assert (t - 100.0) * n as real == 0.0;
  }

  /** `(part / whole) * 100`: NaN when there is nothing to divide by. */
  function Percent(part: nat, whole: nat): (r: Num)
    requires part <= whole
    ensures r == NaN <==> whole == 0
    ensures r.Finite? ==> Hundredths(r.value, part, whole)
    ensures r.Finite? ==> 0.0 <= r.value <= 100.0
  {
    if whole == 0 then NaN
    else
      var w := whole as real;
      QuotientBetween(part as real, w, 0.0, 1.0);
      var q := part as real / w;
      assert q * w == part as real;
      Finite(q * 100.0)
  }

  /** `totalRevenue`: the values of the closed deals added up. */
  function TotalRevenue(deals: seq<Deal>): (r: int)
    ensures Count(IsClosed, deals) == 0 ==> r == 0
    ensures (forall d :: d in deals && IsClosed(d) ==> d.value >= 0) ==> r >= 0
  {
    var closed := Filter(IsClosed, deals);
    if forall d :: d in closed ==> DealValue(d) >= 0 then
      SumNonNegative(DealValue, closed);
      Sum(DealValue, closed)
    else
      Sum(DealValue, closed)
  }

  /** The "Pipeline Value" card: the values of all deals added up, closed or not. */
  function PipelineValue(deals: seq<Deal>): (r: int)
    ensures r == TotalRevenue(deals) + Sum(DealValue, Filter(IsOpen, deals))
  {
    SumComplement(DealValue, IsClosed, IsOpen, deals);
    Sum(DealValue, deals)
  }

  /** With non-negative deal values, revenue never exceeds the pipeline value. */
  lemma RevenueAtMostPipeline(deals: seq<Deal>)
    requires forall d :: d in deals ==> d.value >= 0
    ensures TotalRevenue(deals) <= PipelineValue(deals)
  {
    SumFilterAtMost(DealValue, IsClosed, deals);
  }

  /** `conversionRate`: the share of deals that are closed, as a percentage. */
  function ConversionRate(deals: seq<Deal>): (r: Num)
    ensures r == NaN <==> |deals| == 0
    ensures r.Finite? ==> 0.0 <= r.value <= 100.0
    ensures r.Finite? ==> Hundredths(r.value, Count(IsClosed, deals), |deals|)
  {
    Percent(Count(IsClosed, deals), |deals|)
  }

  /** The smallest deal value. */
  function MinValue(deals: seq<Deal>): (r: int)
    requires |deals| > 0
    ensures exists i :: 0 <= i < |deals| && deals[i].value == r
    ensures forall d :: d in deals ==> r <= d.value
  {
    if |deals| == 1 then deals[0].value
    else
      var m := MinValue(deals[1..]);
      assert forall d :: d in deals ==> d == deals[0] || d in deals[1..];
      if deals[0].value <= m then deals[0].value else m
  }

  /** The largest deal value. */
  function MaxValue(deals: seq<Deal>): (r: int)
    requires |deals| > 0
    ensures exists i :: 0 <= i < |deals| && deals[i].value == r
    ensures forall d :: d in deals ==> d.value <= r
  {
    if |deals| == 1 then deals[0].value
    else
      var m := MaxValue(deals[1..]);
      assert forall d :: d in deals ==> d == deals[0] || d in deals[1..];
      if deals[0].value >= m then deals[0].value else m
  }

  /** `averageDealSize`: the sum of the values over the number of deals, between the smallest and largest value. */
  function AverageDealSize(deals: seq<Deal>): (r: Num)
    ensures r == NaN <==> |deals| == 0
    ensures r.Finite? ==> MinValue(deals) as real <= r.value <= MaxValue(deals) as real
  {
    if |deals| == 0 then NaN
    else
      AverageBetween(deals);
      Finite(Sum(DealValue, deals) as real / |deals| as real)
  }

  lemma AverageBetween(deals: seq<Deal>)
    requires |deals| > 0
    ensures MinValue(deals) as real <= Sum(DealValue, deals) as real / |deals| as real <= MaxValue(deals) as real
  {
    SumBetween(DealValue, deals, MinValue(deals), MaxValue(deals));
    MeanBetween(Sum(DealValue, deals), |deals|, MinValue(deals), MaxValue(deals));
  }

  lemma MeanBetween(total: int, n: int, lo: int, hi: int)
    requires n > 0 && n * lo <= total <= n * hi
    ensures lo as real <= total as real / n as real <= hi as real
  {
    ProductAsReal(n, lo);
    ProductAsReal(n, hi);
    QuotientBetween(total as real, n as real, lo as real, hi as real);
  }

  predicate IsActive(c: Customer) {
    c.status == Active
  }

  /** `activeCustomers`. */
  function ActiveCustomers(customers: seq<Customer>): (r: nat)
    ensures r <= |customers|
  {
    Count(IsActive, customers)
  }

  /** The "Customer Growth" card: active customers as a percentage (before `Math.round`). */
  function CustomerGrowth(customers: seq<Customer>): (r: Num)
    ensures r == NaN <==> |customers| == 0
    ensures r.Finite? ==> 0.0 <= r.value <= 100.0
    ensures r.Finite? ==> Hundredths(r.value, ActiveCustomers(customers), |customers|)
  {
    Percent(ActiveCustomers(customers), |customers|)
  }

  /** `taskCompletionRate`: completed tasks as a percentage of all tasks. */
  function TaskCompletionRate(tasks: seq<Task>): (r: Num)
    ensures r == NaN <==> |tasks| == 0
    ensures r.Finite? ==> 0.0 <= r.value <= 100.0
    ensures r.Finite? ==> Hundredths(r.value, Count(IsCompleted, tasks), |tasks|)
  {
    Percent(Count(IsCompleted, tasks), |tasks|)
  }

  // ----- The deal pipeline chart -----

  /** The stage names the chart iterates over; `lead` and `qualified` are not stages of a deal. */
  const ChartStages: seq<string> := ["lead", "qualified", "proposal", "negotiation", "closed", "lost"]

  /** `deal.stage === name` for a stage name given as a string. */
  function HasStageName(name: string): Deal -> bool {
    (d: Deal) => d.stage.Name() == name
  }

  datatype StageRow = StageRow(stage: string, count: nat, percentage: Num, totalValue: int)

  /**
   * One row of the chart: the deals whose stage is `name`, their share of all deals and
   * their value, which with non-negative values is at most the pipeline value.
   */
  function StageRowFor(deals: seq<Deal>, name: string): (r: StageRow)
    ensures r.stage == name && r.count <= |deals|
    ensures r.percentage == NaN <==> |deals| == 0
    ensures r.percentage == Percent(r.count, |deals|)
    ensures (forall d :: d in deals ==> d.stage.Name() != name) ==> r.count == 0 && r.totalValue == 0
    ensures (forall d :: d in deals ==> d.value >= 0) ==> 0 <= r.totalValue <= PipelineValue(deals)
  {
    var ds := Filter(HasStageName(name), deals);
    StageDealsFacts(deals, name);
    StageRow(name, |ds|, Percent(|ds|, |deals|), Sum(DealValue, ds))
  }

  /** The deals of one stage name: none when no deal has it, and a bounded value sum. */
  lemma StageDealsFacts(deals: seq<Deal>, name: string)
    ensures (forall d :: d in deals ==> d.stage.Name() != name) ==> Filter(HasStageName(name), deals) == []
    ensures (forall d :: d in deals ==> d.value >= 0) ==>
      0 <= Sum(DealValue, Filter(HasStageName(name), deals)) <= Sum(DealValue, deals)
  {
    var ds := Filter(HasStageName(name), deals);
    if forall d :: d in deals ==> d.value >= 0 {
      SumNonNegative(DealValue, ds);
      SumFilterAtMost(DealValue, HasStageName(name), deals);
    }
  }

  /** The rows of `DealStageChart`, in the order of `ChartStages`. */
  function StageChart(deals: seq<Deal>): (rows: seq<StageRow>)
    ensures |rows| == |ChartStages|
    ensures forall i :: 0 <= i < |rows| ==> rows[i].stage == ChartStages[i]
  {
    seq(|ChartStages|, i requires 0 <= i < |ChartStages| => StageRowFor(deals, ChartStages[i]))
  }

  function ChartTotal(rows: seq<StageRow>): nat {
    if |rows| == 0 then 0 else rows[0].count + ChartTotal(rows[1..])
  }

  /** The total of a six-row chart, row by row. */
  lemma ChartTotalSix(rows: seq<StageRow>)
    requires |rows| == 6
    ensures ChartTotal(rows) == rows[0].count + rows[1].count + rows[2].count + rows[3].count + rows[4].count + rows[5].count
  {
    assert ChartTotal(rows[5..]) == rows[5].count + ChartTotal(rows[6..]);
    assert ChartTotal(rows[4..]) == rows[4].count + ChartTotal(rows[5..]);
    assert ChartTotal(rows[3..]) == rows[3].count + ChartTotal(rows[4..]);
    assert ChartTotal(rows[2..]) == rows[2].count + ChartTotal(rows[3..]);
    assert ChartTotal(rows[1..]) == rows[1].count + ChartTotal(rows[2..]);
  }

  lemma {:induction false} StageCounts(deals: seq<Deal>)
    ensures Count(HasStageName("lead"), deals) + Count(HasStageName("qualified"), deals)
          + Count(HasStageName("proposal"), deals) + Count(HasStageName("negotiation"), deals)
          + Count(HasStageName("closed"), deals) + Count(HasStageName("lost"), deals)
          + Count(HasStage(Prospecting), deals) + Count(HasStage(Qualification), deals) == |deals|
  {
    if |deals| > 0 {
      StageCounts(deals[1..]);
    }
  }

  /**
   * The chart counts every deal except those in `prospecting` and `qualification`,
   * and its `lead` and `qualified` rows are always empty.
   */
  lemma StageChartTotal(deals: seq<Deal>)
    ensures ChartTotal(StageChart(deals)) + Count(HasStage(Prospecting), deals) + Count(HasStage(Qualification), deals) == |deals|
    ensures ChartTotal(StageChart(deals)) <= |deals|
    ensures StageChart(deals)[0].count == 0 && StageChart(deals)[1].count == 0
  {
    var rows := StageChart(deals);
    StageCounts(deals);
    ChartTotalSix(rows);
    NotStageNames();
    NoDealNamed(deals, "lead");
    NoDealNamed(deals, "qualified");
  }

  /** `lead` and `qualified` are the names of no deal stage. */
  lemma NotStageNames()
    ensures forall stage: DealStage :: stage.Name() != "lead" && stage.Name() != "qualified"
  {
    forall stage: DealStage ensures stage.Name() != "lead" && stage.Name() != "qualified" {
      var n := stage.Name();
      assert n[0] != 'l' || n == "lost";
      assert "lead"[1] == 'e' && "lost"[1] == 'o';
    }
  }

  /** A name that is no stage's name matches no deal. */
  lemma {:induction false} NoDealNamed(deals: seq<Deal>, name: string)
    requires forall stage: DealStage :: stage.Name() != name
    ensures Count(HasStageName(name), deals) == 0
  {
    if |deals| > 0 {
      NoDealNamed(deals[1..], name);
      assert !HasStageName(name)(deals[0]);
    }
  }

  // ----- The pipeline chart with the deal type's own stage names -----

  /** The stage names of the deal type, in pipeline order. */
  const DealStageNames: seq<string> := ["prospecting", "qualification", "proposal", "negotiation", "closed", "lost"]

  /** The pipeline chart iterating over `DealStageNames` instead of `ChartStages`. */
  function CorrectedStageChart(deals: seq<Deal>): (rows: seq<StageRow>)
    ensures |rows| == |DealStageNames|
    ensures forall i :: 0 <= i < |rows| ==> rows[i].stage == DealStageNames[i]
  {
    seq(|DealStageNames|, i requires 0 <= i < |DealStageNames| => StageRowFor(deals, DealStageNames[i]))
  }

  /** Every deal has exactly one of the six stage names. */
  lemma {:induction false} StageNameCounts(deals: seq<Deal>)
    ensures Count(HasStageName("prospecting"), deals) + Count(HasStageName("qualification"), deals)
          + Count(HasStageName("proposal"), deals) + Count(HasStageName("negotiation"), deals)
          + Count(HasStageName("closed"), deals) + Count(HasStageName("lost"), deals) == |deals|
  {
    if |deals| > 0 {
      StageNameCounts(deals[1..]);
    }
  }

  /** With the deal type's stage names the chart counts every deal exactly once. */
  lemma CorrectedStageChartTotal(deals: seq<Deal>)
    ensures ChartTotal(CorrectedStageChart(deals)) == |deals|
  {
    var rows := CorrectedStageChart(deals);
    StageNameCounts(deals);
    ChartTotalSix(rows);
  }

  // ----- The customer source chart -----

  /** `customer.source === source`. */
  function HasSource(source: string): Customer -> bool {
    (c: Customer) => c.source == source
  }

  function SourcesOf(customers: seq<Customer>): set<string> {
    set c | c in customers :: c.source
  }

  lemma CountSourceSnoc(customers: seq<Customer>, c: Customer)
    ensures forall k :: Count(HasSource(k), customers + [c]) == Count(HasSource(k), customers) + (if c.source == k then 1 else 0)
  {
    forall k ensures Count(HasSource(k), customers + [c]) == Count(HasSource(k), customers) + (if c.source == k then 1 else 0) {
      FilterAppend(HasSource(k), customers, [c]);
    }
  }

  /**
   * `sources`: the `reduce` that counts the customers of each source. Its keys are exactly
   * the sources that occur, compared case-sensitively.
   */
  function SourceCounts(customers: seq<Customer>): (m: map<string, nat>)
    ensures m.Keys == SourcesOf(customers)
    decreases |customers|
  {
    if |customers| == 0 then map[]
    else
      var init, c := customers[..|customers| - 1], customers[|customers| - 1];
      assert customers == init + [c];
      var acc := SourceCounts(init);
      assert SourcesOf(customers) == SourcesOf(init) + {c.source};
      acc[c.source := (if c.source in acc then acc[c.source] else 0) + 1]
  }

  /** A source no customer has counts nobody. */
  lemma CountAbsentSource(customers: seq<Customer>, k: string)
    requires k !in SourcesOf(customers)
    ensures Count(HasSource(k), customers) == 0
  {
  }

  /** Each key's count in `sources` is the number of customers with exactly that source. */
  lemma {:induction false} SourceCountsExact(customers: seq<Customer>)
    ensures forall k :: k in SourceCounts(customers) ==> SourceCounts(customers)[k] == Count(HasSource(k), customers) <= |customers|
    decreases |customers|
  {
    if |customers| > 0 {
      var init, c := customers[..|customers| - 1], customers[|customers| - 1];
      assert customers == init + [c];
      SourceCountsExact(init);
      CountSourceSnoc(init, c);
      var acc, m := SourceCounts(init), SourceCounts(customers);
      forall k | k in m ensures m[k] == Count(HasSource(k), customers) <= |customers| {
        if k == c.source && k !in acc {
          CountAbsentSource(init, k);
        }
      }
    }
  }

  /** The keys of `sources` in `Object.entries` order: first occurrence. */
  function SourceOrder(customers: seq<Customer>): (ks: seq<string>)
    ensures forall i, j :: 0 <= i < j < |ks| ==> ks[i] != ks[j]
    ensures forall k :: k in ks <==> k in SourcesOf(customers)
    decreases |customers|
  {
    if |customers| == 0 then []
    else
      var init, c := customers[..|customers| - 1], customers[|customers| - 1];
      assert customers == init + [c];
      assert SourcesOf(customers) == SourcesOf(init) + {c.source};
      var ks := SourceOrder(init);
      if c.source in ks then ks else ks + [c.source]
  }

  /**
   * `SourceOrder` lists the sources by the position of their first customer, which is the
   * order in which the `reduce` first assigned each key.
   */
  lemma {:induction false} SourceOrderFirstSeen(customers: seq<Customer>)
    ensures forall i :: 0 <= i < |SourceOrder(customers)| ==> Find(HasSource(SourceOrder(customers)[i]), customers).Some?
    ensures forall i, j :: 0 <= i < j < |SourceOrder(customers)| ==>
      Find(HasSource(SourceOrder(customers)[i]), customers).value < Find(HasSource(SourceOrder(customers)[j]), customers).value
    decreases |customers|
  {
    if |customers| > 0 {
      var init, c := customers[..|customers| - 1], customers[|customers| - 1];
      assert customers == init + [c];
      SourceOrderFirstSeen(init);
      var ks0, ks := SourceOrder(init), SourceOrder(customers);
      forall i | 0 <= i < |ks0| ensures Find(HasSource(ks0[i]), customers) == Find(HasSource(ks0[i]), init) {
        FindInPrefix(HasSource(ks0[i]), init, [c]);
      }
      if c.source !in ks0 {
        assert ks == ks0 + [c.source];
        forall j | 0 <= j < |init| ensures !HasSource(c.source)(init[j]) {
          assert init[j] in init;
        }
        FindAtEnd(HasSource(c.source), init, c);
        assert ks[|ks0|] == c.source;
      }
    }
  }

  datatype SourceShare = SourceShare(source: string, count: nat, percentage: Num)

  function SharesFrom(ks: seq<string>, m: map<string, nat>, n: nat): seq<SourceShare>
    requires forall k :: k in ks ==> k in m && m[k] <= n
  {
    if |ks| == 0 then []
    else [SourceShare(ks[0], m[ks[0]], Percent(m[ks[0]], n))] + SharesFrom(ks[1..], m, n)
  }

  /** Row `i` of `SharesFrom` is the share of key `i`. */
  lemma {:induction false} SharesAt(ks: seq<string>, m: map<string, nat>, n: nat)
    requires forall k :: k in ks ==> k in m && m[k] <= n
    ensures |SharesFrom(ks, m, n)| == |ks|
    ensures forall i :: 0 <= i < |ks| ==> SharesFrom(ks, m, n)[i] == SourceShare(ks[i], m[ks[i]], Percent(m[ks[i]], n))
  {
    if |ks| > 0 {
      SharesAt(ks[1..], m, n);
    }
  }

  /**
   * The rows of `CustomerSourceChart`: one per source in `Object.entries` order, holding the
   * number of customers with that source and its percentage of all customers.
   */
  function SourceChart(customers: seq<Customer>): (rows: seq<SourceShare>)
    ensures |rows| == |SourceOrder(customers)|
    ensures forall i :: 0 <= i < |rows| ==> rows[i].source == SourceOrder(customers)[i]
    ensures forall i :: 0 <= i < |rows| ==>
      rows[i].count == Count(HasSource(rows[i].source), customers) <= |customers| &&
      rows[i].percentage == Percent(rows[i].count, |customers|)
  {
    var ks, m := SourceOrder(customers), SourceCounts(customers);
    SourceCountsExact(customers);
    SharesAt(ks, m, |customers|);
    SharesFrom(ks, m, |customers|)
  }

  function ShareCount(s: SourceShare): int {
    s.count
  }

  function SharePercentTotal(rows: seq<SourceShare>): real {
    if |rows| == 0 then 0.0
    else (match rows[0].percentage case Finite(v) => v case NaN => 0.0) + SharePercentTotal(rows[1..])
  }

  /** Sum over `ks` of the number of customers with each source. */
  function CountsOver(ks: seq<string>, customers: seq<Customer>): nat {
    if |ks| == 0 then 0 else Count(HasSource(ks[0]), customers) + CountsOver(ks[1..], customers)
  }

  function Occurrences(ks: seq<string>, k: string): nat {
    if |ks| == 0 then 0 else (if ks[0] == k then 1 else 0) + Occurrences(ks[1..], k)
  }

  lemma {:induction false} OccursOnce(ks: seq<string>, k: string)
    requires forall i, j :: 0 <= i < j < |ks| ==> ks[i] != ks[j]
    requires k in ks
    ensures Occurrences(ks, k) == 1
  {
    if ks[0] == k {
      NotOccurring(ks[1..], k);
    } else {
      OccursOnce(ks[1..], k);
    }
  }

  lemma {:induction false} NotOccurring(ks: seq<string>, k: string)
    requires k !in ks
    ensures Occurrences(ks, k) == 0
  {
    if |ks| > 0 {
      NotOccurring(ks[1..], k);
    }
  }

  lemma {:induction false} CountsOverCons(ks: seq<string>, customers: seq<Customer>)
    requires |customers| > 0
    ensures CountsOver(ks, customers) == Occurrences(ks, customers[0].source) + CountsOver(ks, customers[1..])
  {
    if |ks| > 0 {
      CountsOverCons(ks[1..], customers);
    }
  }

  /** Over a duplicate-free list holding every source, the per-source counts add up to the number of customers. */
  lemma {:induction false} CountsOverAll(ks: seq<string>, customers: seq<Customer>)
    requires forall i, j :: 0 <= i < j < |ks| ==> ks[i] != ks[j]
    requires forall c :: c in customers ==> c.source in ks
    ensures CountsOver(ks, customers) == |customers|
  {
    if |customers| == 0 {
      CountsOverEmpty(ks);
    } else {
      CountsOverCons(ks, customers);
      OccursOnce(ks, customers[0].source);
      CountsOverAll(ks, customers[1..]);
    }
  }

  lemma {:induction false} CountsOverEmpty(ks: seq<string>)
    ensures CountsOver(ks, []) == 0
  {
    if |ks| > 0 {
      CountsOverEmpty(ks[1..]);
    }
  }

  /** Each row of `SharesFrom` carries the count the map gives its source and that count's percentage. */
  lemma {:induction false} SharesRows(ks: seq<string>, m: map<string, nat>, customers: seq<Customer>)
    requires forall k :: k in ks ==> k in m && m[k] == Count(HasSource(k), customers) && m[k] <= |customers|
    ensures Sum(ShareCount, SharesFrom(ks, m, |customers|)) == CountsOver(ks, customers)
    ensures forall r :: r in SharesFrom(ks, m, |customers|) ==> r.count <= |customers| && r.percentage == Percent(r.count, |customers|)
  {
    if |ks| > 0 {
      SharesRows(ks[1..], m, customers);
    }
  }

  /** A row whose percentage is `count * 100 / n`, stated without division. */
  predicate Scaled(r: SourceShare, n: nat) {
    r.percentage.Finite? && Hundredths(r.percentage.value, r.count, n)
  }

  /** When every row's percentage is `count * 100 / n`, the percentages add up to `total * 100 / n`. */
  lemma {:induction false} PercentsAddUp(rows: seq<SourceShare>, n: nat)
    requires forall i :: 0 <= i < |rows| ==> Scaled(rows[i], n)
    ensures Hundredths(SharePercentTotal(rows), Sum(ShareCount, rows), n)
  {
    if |rows| > 0 {
      assert Scaled(rows[0], n);
      assert forall i :: 0 <= i < |rows| - 1 ==> rows[1..][i] == rows[i + 1];
      PercentsAddUp(rows[1..], n);
      PercentsStep(rows, n);
    }
  }

  /** Each row whose percentage is `Percent(count, n)` has `percentage * n == count * 100`. */
  lemma PercentsScaled(rows: seq<SourceShare>, n: nat)
    requires n > 0
    requires forall r :: r in rows ==> r.count <= n && r.percentage == Percent(r.count, n)
    ensures forall i :: 0 <= i < |rows| ==> Scaled(rows[i], n)
  {
    forall i | 0 <= i < |rows| ensures Scaled(rows[i], n) {
      assert rows[i] in rows;
    }
  }

  /** One step of `PercentsAddUp`: the first row's share joins the rest's. */
  lemma PercentsStep(rows: seq<SourceShare>, n: nat)
    requires |rows| > 0 && Scaled(rows[0], n)
    requires Hundredths(SharePercentTotal(rows[1..]), Sum(ShareCount, rows[1..]), n)
    ensures Hundredths(SharePercentTotal(rows), Sum(ShareCount, rows), n)
  {
    var c, b := rows[0].count, Sum(ShareCount, rows[1..]);
    var v, t := rows[0].percentage.value, SharePercentTotal(rows[1..]);
    assert SharePercentTotal(rows) == v + t;
    assert Sum(ShareCount, rows) == c + b;
    AddHundredths(SharePercentTotal(rows), v, t, Sum(ShareCount, rows), c, b, n);
  }

  /** Percentages of counts that add up to `n` add up to 100. */
  lemma PercentsMakeHundred(rows: seq<SourceShare>, n: nat)
    requires n > 0 && Sum(ShareCount, rows) == n
    requires forall r :: r in rows ==> r.count <= n && r.percentage == Percent(r.count, n)
    ensures SharePercentTotal(rows) == 100.0
  {
    PercentsScaled(rows, n);
    PercentsAddUp(rows, n);
    HundredthsOfWhole(SharePercentTotal(rows), n);
  }

  /**
   * The source chart's counts add up to the number of customers, and for a non-empty
   * customer list its percentages add up to 100.
   */
  lemma SourceChartTotals(customers: seq<Customer>)
    ensures Sum(ShareCount, SourceChart(customers)) == |customers|
    ensures |customers| > 0 ==> SharePercentTotal(SourceChart(customers)) == 100.0
  {
    var ks, m := SourceOrder(customers), SourceCounts(customers);
    SourceCountsExact(customers);
    SharesRows(ks, m, customers);
    CountsOverAll(ks, customers);
    if |customers| > 0 {
      PercentsMakeHundred(SourceChart(customers), |customers|);
    }
  }
}
