/**
 * The dashboard figures: the per-status counts and conversion rate, the
 * pipeline value, the four-step conversion funnel and the per-source UTM
 * table.  The counters recognise only the legacy status names `new`,
 * `contacted`, `customer` and `lost`.
 */
module Kpis {
  import opened Wrappers
  import opened Text

  /** The four legacy status names the counters are keyed by, in funnel order. */
  const LegacyStatuses: seq<string> := ["new", "contacted", "customer", "lost"]

  predicate IsLegacy(s: string) {
    s == "new" || s == "contacted" || s == "customer" || s == "lost"
  }

  /** The four counters and the running total. */
  datatype Counts = Counts(newCount: int, contactedCount: int, customerCount: int, lostCount: int, total: int)

  const NoCounts := Counts(0, 0, 0, 0, 0)

  /** Adds one to the counter named `s`, leaving the total alone. */
  function BumpCounter(c: Counts, s: string): Counts {
    if s == "new" then c.(newCount := c.newCount + 1)
    else if s == "contacted" then c.(contactedCount := c.contactedCount + 1)
    else if s == "customer" then c.(customerCount := c.customerCount + 1)
    else if s == "lost" then c.(lostCount := c.lostCount + 1)
    else c
  }

  /**
   * The status counting as written: `status in counts` also holds for the
   * inherited member names, so such a row raises `total` while none of the
   * four counters moves.
   */
  function TallyAsWritten(statuses: seq<Option<string>>): Counts {
    if statuses == [] then NoCounts
    else
      var n := |statuses| - 1;
      var c := TallyAsWritten(statuses[..n]);
      var s := statuses[n];
      if s.Some? && (IsLegacy(s.value) || s.value in PrototypeNames)
      then BumpCounter(c, s.value).(total := c.total + 1)
      else c
  }

  /** A lead whose status is `constructor` is counted in the total but in no counter. */
  lemma PrototypeNameInflatesTotal()
    ensures var c := TallyAsWritten([Some("constructor")]);
            c.total == 1 && c.newCount + c.contactedCount + c.customerCount + c.lostCount == 0
  {
    var rows := [Some("constructor")];
    assert rows[..0] == [];
  }

  /**
   * The funnel counts with the same `in` test, so there an inherited name
   * dilutes every share: a `new` lead next to a `constructor` one reads 50%
   * as written, where own-key counting gives 100%.
   */
  lemma PrototypeNameDilutesFunnel(rows: seq<Option<string>>)
    requires rows == [Some("new"), Some("constructor")]
    ensures var c := TallyAsWritten(rows);
            c.newCount == 1 && c.total == 2 && Percentage(c.newCount, c.total) == 50.0
    ensures var c := Tally(rows);
            c.newCount == 1 && c.total == 1 && Percentage(c.newCount, c.total) == 100.0
  {
    var first := rows[..1];
    assert first == [Some("new")] && first[..0] == [];
    assert IsLegacy("new") && "new" !in PrototypeNames;
    assert !IsLegacy("constructor") && "constructor" in PrototypeNames;
    assert Tally(first) == Counts(1, 0, 0, 0, 1);
    assert TallyAsWritten(first) == Counts(1, 0, 0, 0, 1);
  }

  /** The status counting with own-key membership: only the four legacy names count. */
  function Tally(statuses: seq<Option<string>>): (c: Counts)
    ensures c.total == c.newCount + c.contactedCount + c.customerCount + c.lostCount
  {
    if statuses == [] then NoCounts
    else
      var n := |statuses| - 1;
      var c := Tally(statuses[..n]);
      var s := statuses[n];
      if s.Some? && IsLegacy(s.value) then BumpCounter(c, s.value).(total := c.total + 1) else c
  }

  /** Each counter holds the number of rows with its status. */
  lemma {:induction false} TallyCounts(statuses: seq<Option<string>>)
    ensures Tally(statuses).newCount == multiset(statuses)[Some("new")]
    ensures Tally(statuses).contactedCount == multiset(statuses)[Some("contacted")]
    ensures Tally(statuses).customerCount == multiset(statuses)[Some("customer")]
    ensures Tally(statuses).lostCount == multiset(statuses)[Some("lost")]
  {
    if statuses != [] {
      var n := |statuses| - 1;
      assert statuses == statuses[..n] + [statuses[n]];
      TallyCounts(statuses[..n]);
    }
  }

  /** The two countings agree exactly when no status is an inherited member name. */
  lemma {:induction false} TallyAsWrittenAgrees(statuses: seq<Option<string>>)
    requires forall k :: 0 <= k < |statuses| && statuses[k].Some? ==> statuses[k].value !in PrototypeNames
    ensures TallyAsWritten(statuses) == Tally(statuses)
  {
    if statuses != [] {
      var n := |statuses| - 1;
      TallyAsWrittenAgrees(statuses[..n]);
    }
  }

  /** The total reaches the number of rows exactly when every row has a legacy status. */
  lemma {:induction false} TallyTotalIsAllRows(statuses: seq<Option<string>>)
    ensures Tally(statuses).total <= |statuses|
    ensures Tally(statuses).total == |statuses| <==>
            forall k :: 0 <= k < |statuses| ==> statuses[k].Some? && IsLegacy(statuses[k].value)
  {
    if statuses != [] {
      var n := |statuses| - 1;
      var s := statuses[n];
      TallyTotalIsAllRows(statuses[..n]);
      assert Tally(statuses).total == Tally(statuses[..n]).total + (if s.Some? && IsLegacy(s.value) then 1 else 0);
      assert forall k :: 0 <= k < n ==> statuses[..n][k] == statuses[k];
    }
  }

  /** `getLeadKPIsInternal`'s first loop: one pass over the status column. */
  method CountLegacyStatuses(statuses: seq<Option<string>>) returns (c: Counts)
    ensures c == Tally(statuses)
  {
    c := NoCounts;
    for i := 0 to |statuses|
      invariant c == Tally(statuses[..i])
    {
      assert statuses[..i + 1][..i] == statuses[..i];
      var s := statuses[i];
      if s.Some? && IsLegacy(s.value) {
        c := BumpCounter(c, s.value);
        c := c.(total := c.total + 1);
      }
    }
    assert statuses[..|statuses|] == statuses;
  }

  /** A row of the pipeline query: expected revenue and win probability in percent. */
  datatype PipelineRow = PipelineRow(expectedRevenue: Option<real>, probability: Option<real>)

  /** The sum of the expected revenues, a missing one read as 0. */
  function TotalPipeline(rows: seq<PipelineRow>): real {
    if rows == [] then 0.0
    else
      var n := |rows| - 1;
      TotalPipeline(rows[..n]) + rows[n].expectedRevenue.GetOr(0.0)
  }

  /** The sum of the revenues weighted by probability, a missing probability read as 50%. */
  function WeightedPipeline(rows: seq<PipelineRow>): real {
    if rows == [] then 0.0
    else
      var n := |rows| - 1;
      WeightedPipeline(rows[..n]) + rows[n].expectedRevenue.GetOr(0.0) * (rows[n].probability.GetOr(50.0) / 100.0)
  }

  /** With no probabilities recorded, the weighted pipeline is half the total pipeline. */
  lemma {:induction false} DefaultProbabilityIsHalf(rows: seq<PipelineRow>)
    requires forall k :: 0 <= k < |rows| ==> rows[k].probability.None?
    ensures WeightedPipeline(rows) == TotalPipeline(rows) / 2.0
  {
    if rows != [] {
      var n := |rows| - 1;
      DefaultProbabilityIsHalf(rows[..n]);
    }
  }

  /** With every probability between 0 and 100 and no negative revenue, the weighted figure is at most the total. */
  lemma {:induction false} WeightedAtMostTotal(rows: seq<PipelineRow>)
    requires forall k :: 0 <= k < |rows| ==> rows[k].expectedRevenue.GetOr(0.0) >= 0.0
    requires forall k :: 0 <= k < |rows| ==> 0.0 <= rows[k].probability.GetOr(50.0) <= 100.0
    ensures 0.0 <= WeightedPipeline(rows) <= TotalPipeline(rows)
  {
    if rows != [] {
      var n := |rows| - 1;
      assert forall k :: 0 <= k < n ==> rows[..n][k] == rows[k];
      WeightedAtMostTotal(rows[..n]);
      var r := rows[n].expectedRevenue.GetOr(0.0);
      var p := rows[n].probability.GetOr(50.0) / 100.0;
      assert r >= 0.0 && 0.0 <= p <= 1.0;
      ScaleAtMost(r, p);
      assert WeightedPipeline(rows) == WeightedPipeline(rows[..n]) + r * p;
      assert TotalPipeline(rows) == TotalPipeline(rows[..n]) + r;
    }
  }

  lemma ScaleAtMost(r: real, p: real)
    requires r >= 0.0 && 0.0 <= p <= 1.0
    ensures 0.0 <= r * p <= r
  {
    assert r * (1.0 - p) >= 0.0;
  }

  /** `getLeadKPIsInternal`'s second loop: one pass over the pipeline rows. */
  method SumPipeline(rows: seq<PipelineRow>) returns (total: real, weighted: real)
    ensures total == TotalPipeline(rows) && weighted == WeightedPipeline(rows)
  {
    total, weighted := 0.0, 0.0;
    for i := 0 to |rows|
      invariant total == TotalPipeline(rows[..i]) && weighted == WeightedPipeline(rows[..i])
    {
      assert rows[..i + 1][..i] == rows[..i];
      var revenue := rows[i].expectedRevenue.GetOr(0.0);
      var probability := rows[i].probability.GetOr(50.0) / 100.0;
      total := total + revenue;
      weighted := weighted + revenue * probability;
    }
    assert rows[..|rows|] == rows;
  }

  /** `part / whole * 100`, or 0 when `whole` is 0. */
  function Percentage(part: int, whole: int): (p: real)
    requires 0 <= part <= whole
    ensures 0.0 <= p <= 100.0
    ensures whole == 0 ==> p == 0.0
    ensures whole > 0 ==> p * (whole as real) == (part as real) * 100.0
  {
    if whole > 0 then (part as real / whole as real) * 100.0 else 0.0
  }

  datatype LeadKpis = LeadKpis(
    totalLeads: int, newLeads: int, contactedLeads: int, customers: int, lostLeads: int,
    conversionRate: real, totalPipelineValue: real, weightedPipelineValue: real)

  /**
   * `getLeadKPIsInternal` over the rows its two queries return: the legacy
   * counts, the share of customers among them, and the pipeline sums.
   */
  method GetLeadKpis(statuses: seq<Option<string>>, pipeline: seq<PipelineRow>) returns (k: LeadKpis)
    ensures k.newLeads == multiset(statuses)[Some("new")] && k.contactedLeads == multiset(statuses)[Some("contacted")]
    ensures k.customers == multiset(statuses)[Some("customer")] && k.lostLeads == multiset(statuses)[Some("lost")]
    ensures k.totalLeads == k.newLeads + k.contactedLeads + k.customers + k.lostLeads
    ensures k.conversionRate == Percentage(k.customers, k.totalLeads)
    ensures k.totalLeads == 0 ==> k.conversionRate == 0.0
    ensures k.totalPipelineValue == TotalPipeline(pipeline) && k.weightedPipelineValue == WeightedPipeline(pipeline)
  {
    var c := CountLegacyStatuses(statuses);
    TallyCounts(statuses);
    var totalPipeline, weightedPipeline := SumPipeline(pipeline);
    k := LeadKpis(c.total, c.newCount, c.contactedCount, c.customerCount, c.lostCount,
                  Percentage(c.customerCount, c.total), totalPipeline, weightedPipeline);
  }

  datatype FunnelItem = FunnelItem(stage: string, stageHe: string, count: int, percentage: real)

  /** The four funnel steps built from the counters. */
  function Funnel(c: Counts): (items: seq<FunnelItem>)
    requires c.newCount >= 0 && c.contactedCount >= 0 && c.customerCount >= 0 && c.lostCount >= 0
    requires c.total == c.newCount + c.contactedCount + c.customerCount + c.lostCount
    ensures |items| == 4
    ensures forall i :: 0 <= i < 4 ==> items[i].stage == LegacyStatuses[i]
    ensures items[0].count + items[1].count + items[2].count + items[3].count == c.total
    ensures c.total == 0 ==> forall i :: 0 <= i < 4 ==> items[i].percentage == 0.0
  {
    [ FunnelItem("new", "חדש", c.newCount, Percentage(c.newCount, c.total)),
      FunnelItem("contacted", "נוצר קשר", c.contactedCount, Percentage(c.contactedCount, c.total)),
      FunnelItem("customer", "לקוח", c.customerCount, Percentage(c.customerCount, c.total)),
      FunnelItem("lost", "אבוד", c.lostCount, Percentage(c.lostCount, c.total)) ]
  }

  /** When anything is counted, the four percentages add up to 100. */
  lemma FunnelPercentagesSum(c: Counts)
    requires c.newCount >= 0 && c.contactedCount >= 0 && c.customerCount >= 0 && c.lostCount >= 0
    requires c.total == c.newCount + c.contactedCount + c.customerCount + c.lostCount
    requires c.total > 0
    ensures var items := Funnel(c);
            items[0].percentage + items[1].percentage + items[2].percentage + items[3].percentage == 100.0
  {
    SharesSumToWhole(c.newCount as real, c.contactedCount as real, c.customerCount as real, c.lostCount as real,
                     c.total as real);
  }

  lemma SharesSumToWhole(a: real, b: real, c: real, d: real, t: real)
    requires t > 0.0 && a + b + c + d == t
    ensures (a / t) * 100.0 + (b / t) * 100.0 + (c / t) * 100.0 + (d / t) * 100.0 == 100.0
  {
    assert a / t + b / t + c / t + d / t == (a + b + c + d) / t;
  }

  /**
   * `getConversionFunnelInternal`: the same legacy counting (a null or empty
   * status is skipped), then one funnel item per legacy status.
   */
  method GetConversionFunnel(statuses: seq<Option<string>>) returns (items: seq<FunnelItem>)
    ensures |items| == 4
    ensures forall i :: 0 <= i < 4 ==> items[i].stage == LegacyStatuses[i]
    ensures forall i :: 0 <= i < 4 ==> items[i].count == multiset(statuses)[Some(LegacyStatuses[i])]
    ensures items[0].count + items[1].count + items[2].count + items[3].count == Tally(statuses).total
    ensures Tally(statuses).total == 0 ==> forall i :: 0 <= i < 4 ==> items[i].percentage == 0.0
  {
    var c := CountLegacyStatuses(statuses);
    TallyCounts(statuses);
    items := Funnel(c);
  }

  /** A row of the UTM query: source, status and expected revenue. */
  datatype UtmRow = UtmRow(utmSource: Option<string>, status: Option<string>, expectedRevenue: Option<real>)

  /** The running figures of one source. */
  datatype SourceStats = SourceStats(leadCount: int, customerCount: int, totalRevenue: real)

  /** The group a row falls in: its UTM source, `direct` when it has none. */
  function SourceOf(r: UtmRow): string {
    r.utmSource.GetOr("direct")
  }

  predicate IsCustomer(r: UtmRow) {
    r.status == Some("customer")
  }

  /** One more lead for the source; a customer also adds its revenue, a missing one read as 0. */
  function AddRow(st: SourceStats, r: UtmRow): SourceStats {
    if IsCustomer(r)
    then SourceStats(st.leadCount + 1, st.customerCount + 1, st.totalRevenue + r.expectedRevenue.GetOr(0.0))
    else SourceStats(st.leadCount + 1, st.customerCount, st.totalRevenue)
  }

  /**
   * The `performanceMap`: a JavaScript `Map` is its entries plus the order
   * their keys were first set in.
   */
  datatype Groups = Groups(order: seq<string>, stats: map<string, SourceStats>)

  /** `performanceMap.set(source, existing)` after counting one row. */
  function Record(g: Groups, r: UtmRow): Groups {
    var k := SourceOf(r);
    var existing := if k in g.stats then g.stats[k] else SourceStats(0, 0, 0.0);
    Groups(if k in g.stats then g.order else g.order + [k], g.stats[k := AddRow(existing, r)])
  }

  /** The map after the whole `forEach`. */
  function Grouped(rows: seq<UtmRow>): Groups {
    if rows == [] then Groups([], map[])
    else
      var n := |rows| - 1;
      Record(Grouped(rows[..n]), rows[n])
  }

  /** The sources of the rows, in row order. */
  function Sources(rows: seq<UtmRow>): (ss: seq<string>)
    ensures |ss| == |rows|
  {
    if rows == [] then [] else var n := |rows| - 1; Sources(rows[..n]) + [SourceOf(rows[n])]
  }

  /** The sources of the customer rows, in row order. */
  function CustomerSources(rows: seq<UtmRow>): seq<string> {
    if rows == [] then []
    else
      var n := |rows| - 1;
      CustomerSources(rows[..n]) + (if IsCustomer(rows[n]) then [SourceOf(rows[n])] else [])
  }

  /** The keys are listed once each, in the order they were first set. */
  ghost predicate OrderListsKeys(g: Groups) {
    && (forall i, j :: 0 <= i < j < |g.order| ==> g.order[i] != g.order[j])
    && (forall k :: k in g.stats <==> k in g.order)
  }

  /** The sources present are the rows' sources, each with its number of rows. */
  ghost predicate LeadCountsMatch(g: Groups, rows: seq<UtmRow>) {
    && (forall k :: k in g.stats <==> k in multiset(Sources(rows)))
    && (forall k :: k in g.stats ==> g.stats[k].leadCount == multiset(Sources(rows))[k])
  }

  /** Each source's customer count is its number of customer rows. */
  ghost predicate CustomerCountsMatch(g: Groups, rows: seq<UtmRow>) {
    forall k :: (if k in g.stats then g.stats[k].customerCount else 0) == multiset(CustomerSources(rows))[k]
  }

  /** No source has more customers than leads. */
  predicate CountsBounded(stats: map<string, SourceStats>) {
    forall k :: k in stats ==> 0 <= stats[k].customerCount <= stats[k].leadCount
  }

  ghost predicate GroupsMatch(g: Groups, rows: seq<UtmRow>) {
    OrderListsKeys(g) && LeadCountsMatch(g, rows) && CustomerCountsMatch(g, rows) && CountsBounded(g.stats)
  }

  lemma {:induction false} GroupedOrder(rows: seq<UtmRow>)
    ensures OrderListsKeys(Grouped(rows))
  {
    if rows != [] {
      var n := |rows| - 1;
      GroupedOrder(rows[..n]);
      var g := Grouped(rows[..n]);
      var k := SourceOf(rows[n]);
      var g' := Grouped(rows);
      assert g' == Record(g, rows[n]);
      if k !in g.stats {
        assert g'.order == g.order + [k];
        forall i, j | 0 <= i < j < |g'.order| ensures g'.order[i] != g'.order[j] {
          if j == |g.order| {
            assert g.order[i] in g.order;
          }
        }
      }
    }
  }

  lemma {:induction false} GroupedLeadCounts(rows: seq<UtmRow>)
    ensures LeadCountsMatch(Grouped(rows), rows)
  {
    if rows != [] {
      var n := |rows| - 1;
      GroupedLeadCounts(rows[..n]);
      var g := Grouped(rows[..n]);
      var k := SourceOf(rows[n]);
      assert Grouped(rows) == Record(g, rows[n]);
      assert Sources(rows) == Sources(rows[..n]) + [k];
    }
  }

  lemma {:induction false} GroupedCustomerCounts(rows: seq<UtmRow>)
    ensures CustomerCountsMatch(Grouped(rows), rows)
  {
    if rows != [] {
      var n := |rows| - 1;
      GroupedCustomerCounts(rows[..n]);
      var g := Grouped(rows[..n]);
      var k := SourceOf(rows[n]);
      assert Grouped(rows) == Record(g, rows[n]);
      assert CustomerSources(rows) == CustomerSources(rows[..n]) + (if IsCustomer(rows[n]) then [k] else []);
    }
  }

  /** The revenue of the customer rows of source `k`, a missing one read as 0. */
  function CustomerRevenue(rows: seq<UtmRow>, k: string): real {
    if rows == [] then 0.0
    else
      var n := |rows| - 1;
      CustomerRevenue(rows[..n], k)
      + (if IsCustomer(rows[n]) && SourceOf(rows[n]) == k then rows[n].expectedRevenue.GetOr(0.0) else 0.0)
  }

  /** A source's `totalRevenue` is the revenue of its customer rows and of no other row. */
  lemma {:induction false} GroupedRevenue(rows: seq<UtmRow>, k: string)
    ensures (if k in Grouped(rows).stats then Grouped(rows).stats[k].totalRevenue else 0.0) == CustomerRevenue(rows, k)
  {
    if rows != [] {
      var n := |rows| - 1;
      GroupedRevenue(rows[..n], k);
      assert Grouped(rows) == Record(Grouped(rows[..n]), rows[n]);
    }
  }

  lemma {:induction false} GroupedBounded(rows: seq<UtmRow>)
    ensures CountsBounded(Grouped(rows).stats)
  {
    if rows != [] {
      var n := |rows| - 1;
      GroupedBounded(rows[..n]);
      assert Grouped(rows) == Record(Grouped(rows[..n]), rows[n]);
    }
  }

  lemma {:induction false} GroupedSum(rows: seq<UtmRow>)
    ensures OrderListsKeys(Grouped(rows))
    ensures SumLeads(Grouped(rows).order, Grouped(rows).stats) == |rows|
  {
    GroupedOrder(rows);
    if rows != [] {
      var n := |rows| - 1;
      GroupedSum(rows[..n]);
      var g := Grouped(rows[..n]);
      var r := rows[n];
      var k := SourceOf(r);
      var existing := if k in g.stats then g.stats[k] else SourceStats(0, 0, 0.0);
      var g' := Grouped(rows);
      assert g' == Record(g, r);
      SumLeadsUpdate(g.order, g.stats, k, AddRow(existing, r));
      if k !in g.stats {
        SumLeadsAppend(g.order, g'.stats, k);
      }
    }
  }

  /** What the grouping builds: every row counted once, under its own source. */
  lemma GroupedFacts(rows: seq<UtmRow>)
    ensures GroupsMatch(Grouped(rows), rows)
    ensures SumLeads(Grouped(rows).order, Grouped(rows).stats) == |rows|
  {
    GroupedSum(rows);
    GroupedLeadCounts(rows);
    GroupedCustomerCounts(rows);
    GroupedBounded(rows);
  }

  /** The sum of the lead counts of the listed sources. */
  function SumLeads(order: seq<string>, stats: map<string, SourceStats>): int
    requires forall k :: k in order ==> k in stats
  {
    if order == [] then 0 else stats[order[0]].leadCount + SumLeads(order[1..], stats)
  }

  /** Changing the figures of a source listed once moves the sum by the change in its lead count. */
  lemma {:induction false} SumLeadsUpdate(order: seq<string>, stats: map<string, SourceStats>, k: string, v: SourceStats)
    requires forall x :: x in order ==> x in stats
    requires forall i, j :: 0 <= i < j < |order| ==> order[i] != order[j]
    ensures SumLeads(order, stats[k := v]) == SumLeads(order, stats) + (if k in order then v.leadCount - stats[k].leadCount else 0)
  {
    if order != [] {
      assert forall i, j :: 0 <= i < j < |order[1..]| ==> order[1..][i] != order[1..][j] by {
        forall i, j | 0 <= i < j < |order[1..]| ensures order[1..][i] != order[1..][j] {
          assert order[1..][i] == order[i + 1] && order[1..][j] == order[j + 1];
        }
      }
      SumLeadsUpdate(order[1..], stats, k, v);
      if order[0] == k {
        assert k !in order[1..] by {
          forall i | 0 <= i < |order[1..]| ensures order[1..][i] != k {
            assert order[1..][i] == order[i + 1];
          }
        }
      }
    }
  }

  /** Appending a new source adds its lead count to the sum. */
  lemma {:induction false} SumLeadsAppend(order: seq<string>, stats: map<string, SourceStats>, k: string)
    requires forall x :: x in order + [k] ==> x in stats
    ensures SumLeads(order + [k], stats) == SumLeads(order, stats) + stats[k].leadCount
  {
    if order != [] {
      assert (order + [k])[1..] == order[1..] + [k];
      SumLeadsAppend(order[1..], stats, k);
    } else {
      assert order + [k] == [k];
    }
  }

  /** `groupBy` loop of `getUTMPerformanceInternal`: one pass, updating the map. */
  method GroupBySource(rows: seq<UtmRow>) returns (order: seq<string>, stats: map<string, SourceStats>)
    ensures Groups(order, stats) == Grouped(rows)
  {
    order, stats := [], map[];
    for i := 0 to |rows|
      invariant Groups(order, stats) == Grouped(rows[..i])
    {
      assert rows[..i + 1][..i] == rows[..i];
      var source := SourceOf(rows[i]);
      var existing := if source in stats then stats[source] else SourceStats(0, 0, 0.0);
      if source !in stats {
        order := order + [source];
      }
      existing := AddRow(existing, rows[i]);
      stats := stats[source := existing];
    }
    assert rows[..|rows|] == rows;
  }

  datatype UtmPerformance = UtmPerformance(
    source: string, leadCount: int, customerCount: int, conversionRate: real, totalRevenue: real)

  /** `Array.from(performanceMap.entries()).map(...)`: one entry per source, in map order. */
  function Entries(order: seq<string>, stats: map<string, SourceStats>): (es: seq<UtmPerformance>)
    requires forall k :: k in order ==> k in stats && 0 <= stats[k].customerCount <= stats[k].leadCount
    ensures |es| == |order|
    ensures forall i :: 0 <= i < |es| ==> es[i].source == order[i] && es[i].leadCount == stats[order[i]].leadCount
    ensures forall i :: 0 <= i < |es| ==> 0 <= es[i].customerCount <= es[i].leadCount
    ensures forall i :: 0 <= i < |es| ==> 0.0 <= es[i].conversionRate <= 100.0
  {
    if order == [] then []
    else
      var st := stats[order[0]];
      [UtmPerformance(order[0], st.leadCount, st.customerCount, Percentage(st.customerCount, st.leadCount), st.totalRevenue)]
        + Entries(order[1..], stats)
  }

  /** Sorted by lead count, largest first. */
  predicate SortedByLeads(xs: seq<UtmPerformance>) {
    forall i, j :: 0 <= i < j < |xs| ==> xs[i].leadCount >= xs[j].leadCount
  }

  /** Inserts `x` after every element with at least its lead count: the step of a stable sort. */
  function InsertByLeads(s: seq<UtmPerformance>, x: UtmPerformance): (r: seq<UtmPerformance>)
    ensures |r| == |s| + 1
  {
    if s == [] then [x]
    else
      var n := |s| - 1;
      if s[n].leadCount >= x.leadCount then s + [x]
      else InsertByLeads(s[..n], x) + [s[n]]
  }

  lemma {:induction false} InsertByLeadsPermutes(s: seq<UtmPerformance>, x: UtmPerformance)
    ensures multiset(InsertByLeads(s, x)) == multiset(s) + multiset{x}
  {
    if s != [] {
      var n := |s| - 1;
      assert s == s[..n] + [s[n]];
      if s[n].leadCount < x.leadCount {
        InsertByLeadsPermutes(s[..n], x);
      }
    }
  }

  /** `.sort((a, b) => b.leadCount - a.leadCount)`, which is stable. */
  function SortByLeads(xs: seq<UtmPerformance>): (r: seq<UtmPerformance>)
    ensures |r| == |xs|
  {
    if xs == [] then [] else var n := |xs| - 1; InsertByLeads(SortByLeads(xs[..n]), xs[n])
  }

  /** Sorting only reorders. */
  lemma {:induction false} SortByLeadsPermutes(xs: seq<UtmPerformance>)
    ensures multiset(SortByLeads(xs)) == multiset(xs)
  {
    if xs != [] {
      var n := |xs| - 1;
      assert xs == xs[..n] + [xs[n]];
      SortByLeadsPermutes(xs[..n]);
      InsertByLeadsPermutes(SortByLeads(xs[..n]), xs[n]);
    }
  }

  lemma {:induction false} InsertByLeadsSorted(s: seq<UtmPerformance>, x: UtmPerformance)
    requires SortedByLeads(s)
    ensures SortedByLeads(InsertByLeads(s, x))
  {
    if s != [] {
      var n := |s| - 1;
      var last := s[n];
      assert AllAtLeast(s[..n], last.leadCount);
      if last.leadCount >= x.leadCount {
        assert InsertByLeads(s, x) == s + [x];
        SortedSnoc(s, x);
      } else {
        var t := InsertByLeads(s[..n], x);
        assert InsertByLeads(s, x) == t + [last];
        assert SortedByLeads(s[..n]);
        InsertByLeadsSorted(s[..n], x);
        InsertByLeadsAtLeast(s[..n], x, last.leadCount);
        SortedSnoc(t, last);
      }
    }
  }

  /** Every element has at least `b` leads. */
  predicate AllAtLeast(xs: seq<UtmPerformance>, b: int) {
    forall i :: 0 <= i < |xs| ==> xs[i].leadCount >= b
  }

  lemma {:induction false} InsertByLeadsAtLeast(s: seq<UtmPerformance>, x: UtmPerformance, b: int)
    requires AllAtLeast(s, b) && x.leadCount >= b
    ensures AllAtLeast(InsertByLeads(s, x), b)
  {
    if s != [] {
      var n := |s| - 1;
      if s[n].leadCount < x.leadCount {
        assert AllAtLeast(s[..n], b);
        InsertByLeadsAtLeast(s[..n], x, b);
      }
    }
  }

  lemma SortedSnoc(t: seq<UtmPerformance>, y: UtmPerformance)
    requires SortedByLeads(t) && AllAtLeast(t, y.leadCount)
    ensures SortedByLeads(t + [y])
  {
  }

  lemma {:induction false} SortByLeadsSorted(xs: seq<UtmPerformance>)
    ensures SortedByLeads(SortByLeads(xs))
  {
    if xs != [] {
      var n := |xs| - 1;
      SortByLeadsSorted(xs[..n]);
      InsertByLeadsSorted(SortByLeads(xs[..n]), xs[n]);
    }
  }

  /** The elements with lead count `v`, in order. */
  function WithLeads(xs: seq<UtmPerformance>, v: int): seq<UtmPerformance> {
    if xs == [] then []
    else
      var n := |xs| - 1;
      WithLeads(xs[..n], v) + (if xs[n].leadCount == v then [xs[n]] else [])
  }

  /** Keeping the elements with count `v` commutes with appending one element. */
  lemma WithLeadsSnoc(t: seq<UtmPerformance>, y: UtmPerformance, v: int)
    ensures WithLeads(t + [y], v) == WithLeads(t, v) + (if y.leadCount == v then [y] else [])
  {
    assert (t + [y])[..|t|] == t;
  }

  lemma {:induction false} InsertByLeadsStable(s: seq<UtmPerformance>, x: UtmPerformance, v: int)
    ensures WithLeads(InsertByLeads(s, x), v) == WithLeads(s, v) + (if x.leadCount == v then [x] else [])
  {
    if s == [] {
      WithLeadsSnoc([], x, v);
      assert [] + [x] == [x];
    } else {
      var n := |s| - 1;
      var last := s[n];
      if last.leadCount >= x.leadCount {
        assert InsertByLeads(s, x) == s + [x];
        WithLeadsSnoc(s, x, v);
      } else {
        InsertByLeadsStable(s[..n], x, v);
        InsertBelowLast(s, x, v);
      }
    }
  }

  /** The step of `InsertByLeadsStable` where `x` goes before the last element. */
  lemma InsertBelowLast(s: seq<UtmPerformance>, x: UtmPerformance, v: int)
    requires s != [] && s[|s| - 1].leadCount < x.leadCount
    requires WithLeads(InsertByLeads(s[..|s| - 1], x), v) ==
             WithLeads(s[..|s| - 1], v) + (if x.leadCount == v then [x] else [])
    ensures WithLeads(InsertByLeads(s, x), v) == WithLeads(s, v) + (if x.leadCount == v then [x] else [])
  {
    var n := |s| - 1;
    var last := s[n];
    var t := InsertByLeads(s[..n], x);
    assert InsertByLeads(s, x) == t + [last];
    WithLeadsSnoc(t, last, v);
    assert s == s[..n] + [last];
    WithLeadsSnoc(s[..n], last, v);
    var w := WithLeads(s[..n], v);
    var kx := if x.leadCount == v then [x] else [];
    var kl := if last.leadCount == v then [last] else [];
    assert kx == [] || kl == [];
    assert w + kx + kl == w + kl + kx;
  }

  /** Sorting keeps the relative order of sources with equal lead counts. */
  lemma {:induction false} SortByLeadsStable(xs: seq<UtmPerformance>, v: int)
    ensures WithLeads(SortByLeads(xs), v) == WithLeads(xs, v)
  {
    if xs != [] {
      var n := |xs| - 1;
      SortByLeadsStable(xs[..n], v);
      InsertByLeadsStable(SortByLeads(xs[..n]), xs[n], v);
    }
  }

  /** `.slice(0, 5)` of the sorted entries. */
  function TopSources(es: seq<UtmPerformance>): (r: seq<UtmPerformance>)
    ensures |r| <= 5
  {
    var sorted := SortByLeads(es);
    if |sorted| <= 5 then sorted else sorted[..5]
  }

  /** The top sources are sorted and come from the entries; with five or fewer entries they are all kept. */
  lemma TopSourcesFacts(es: seq<UtmPerformance>)
    ensures SortedByLeads(TopSources(es))
    ensures multiset(TopSources(es)) <= multiset(es)
    ensures |es| <= 5 ==> multiset(TopSources(es)) == multiset(es)
  {
    var sorted := SortByLeads(es);
    SortByLeadsSorted(es);
    SortByLeadsPermutes(es);
    if |sorted| > 5 {
      assert sorted == sorted[..5] + sorted[5..];
    }
  }

  /** No entry left out of the top sources has more leads than an entry kept. */
  lemma TopSourcesCutIsFair(es: seq<UtmPerformance>)
    ensures forall e, t :: e in es && e !in TopSources(es) && t in TopSources(es) ==> e.leadCount <= t.leadCount
  {
    var sorted := SortByLeads(es);
    SortByLeadsSorted(es);
    SortByLeadsPermutes(es);
    var top := TopSources(es);
    forall e, t | e in es && e !in top && t in top ensures e.leadCount <= t.leadCount {
      assert e in multiset(sorted);
      var j :| 0 <= j < |sorted| && sorted[j] == e;
      var i :| 0 <= i < |top| && top[i] == t;
      assert top == sorted[..|top|];
      assert j >= |top| by {
        assert forall m :: 0 <= m < |top| ==> sorted[m] in top;
      }
      assert sorted[i] == t;
    }
  }

  /** The UTM table for a set of rows. */
  function UtmTable(rows: seq<UtmRow>): (r: seq<UtmPerformance>)
    ensures |r| <= 5
  {
    var g := Grouped(rows);
    GroupedFacts(rows);
    TopSources(Entries(g.order, g.stats))
  }

  /** The entries before the cut: one per source, with lead counts adding up to the number of rows. */
  lemma {:induction false} EntriesCoverRows(order: seq<string>, stats: map<string, SourceStats>)
    requires forall k :: k in order ==> k in stats && 0 <= stats[k].customerCount <= stats[k].leadCount
    ensures SumLeads(order, stats) == SumEntryLeads(Entries(order, stats))
  {
    if order != [] {
      EntriesCoverRows(order[1..], stats);
    }
  }

  function SumEntryLeads(es: seq<UtmPerformance>): int {
    if es == [] then 0 else es[0].leadCount + SumEntryLeads(es[1..])
  }

  /** Before the cut, the lead counts of the per-source entries add up to the number of rows. */
  lemma EntriesSumToRows(rows: seq<UtmRow>)
    ensures var g := Grouped(rows);
            GroupsMatch(g, rows) && SumEntryLeads(Entries(g.order, g.stats)) == |rows|
  {
    GroupedFacts(rows);
    var g := Grouped(rows);
    EntriesCoverRows(g.order, g.stats);
  }

  /**
   * `getUTMPerformanceInternal` over the rows its query returns: group by
   * source, then sort by lead count and keep the first five.
   */
  method GetUtmPerformance(rows: seq<UtmRow>) returns (result: seq<UtmPerformance>)
    ensures result == UtmTable(rows)
    ensures |result| <= 5 && SortedByLeads(result)
    ensures forall i :: 0 <= i < |result| ==> 0 <= result[i].customerCount <= result[i].leadCount
    ensures forall i :: 0 <= i < |result| ==> 0.0 <= result[i].conversionRate <= 100.0
  {
    var order, stats := GroupBySource(rows);
    GroupedFacts(rows);
    var entries := Entries(order, stats);
    result := TopSources(entries);
    TopSourcesFacts(entries);
    TopSourcesCutIsFair(entries);
    forall i | 0 <= i < |result|
      ensures 0 <= result[i].customerCount <= result[i].leadCount && 0.0 <= result[i].conversionRate <= 100.0
    {
      assert result[i] in multiset(entries);
    }
  }
}
