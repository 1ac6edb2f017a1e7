/** The figures shown after an analysis: the headline counts and the four
    per-kind tabs the alerts are split into. */
module Summary {
  import opened Wrappers
  import opened Cells
  import opened Budget
  import opened Tiers
  import opened Seqs
  import opened Analysis

  /** Keeps an alert exactly when its `tipo` is `tag`. */
  function Pick(tag: string): Alert -> Option<Alert>
  {
    (a: Alert) => if a.kind.Tag() == tag then Some(a) else None
  }

  /** The alerts whose `tipo` is `tag`, in their original order: the contents
      of one results tab. */
  function Tab(alerts: seq<Alert>, tag: string): (r: seq<Alert>)
    ensures |r| <= |alerts|
  {
    FilterMap(Pick(tag), alerts)
  }

  /** A tab holds exactly the alerts of its kind. */
  lemma TabMembers(alerts: seq<Alert>, tag: string, a: Alert)
    ensures a in Tab(alerts, tag) <==> a in alerts && a.kind.Tag() == tag
  {
    if a in Tab(alerts, tag) {
      FilterMapSound(Pick(tag), alerts, a);
    }
    if a in alerts && a.kind.Tag() == tag {
      var i :| 0 <= i < |alerts| && alerts[i] == a;
      FilterMapComplete(Pick(tag), alerts, i);
    }
  }

  /** The tag of an alert kind identifies the kind. */
  lemma TagIdentifiesKind(s1: Severity, s2: Severity)
    ensures s1.Tag() == s2.Tag() <==> s1 == s2
  {
  }

  /** A tab of an appended list is the tab of each part, appended. */
  lemma TabAppend(first: seq<Alert>, second: seq<Alert>, tag: string)
    ensures Tab(first + second, tag) == Tab(first, tag) + Tab(second, tag)
  {
    FilterMapAppend(Pick(tag), first, second);
  }

  /** The four tabs split the alert list: every alert lands in exactly one, so
      their sizes add up to the alert total. */
  lemma {:induction false} TabsPartitionAlerts(alerts: seq<Alert>)
    ensures |Tab(alerts, Critical.Tag())| + |Tab(alerts, OverBudget.Tag())|
          + |Tab(alerts, NearLimit.Tag())| + |Tab(alerts, LowSpend.Tag())| == |alerts|
    decreases |alerts|
  {
    if |alerts| > 0 {
      TabsPartitionAlerts(alerts[..|alerts| - 1]);
    }
  }

  /** The distinct values of column `col` over `rows`. */
  function ColumnValues(rows: seq<Row>, col: string): (values: set<Cell>)
    ensures |values| <= |rows|
    ensures forall i :: 0 <= i < |rows| && col in rows[i] ==> rows[i][col] in values
    ensures forall c :: c in values ==> exists i :: 0 <= i < |rows| && col in rows[i] && rows[i][col] == c
    decreases |rows|
  {
    if |rows| == 0 then {}
    else
      var n := |rows| - 1;
      var front := rows[..n];
      assert forall i :: 0 <= i < n ==> front[i] == rows[i];
      ColumnValues(front, col) + (if col in rows[n] then {rows[n][col]} else {})
  }

  /** The headline figures: rows in the sheet, alerts, critical alerts, and the
      number of distinct platforms (`None` when the platform column is not in
      the sheet, where the lookup fails). */
  datatype Metrics = Metrics(totalCampaigns: nat, totalAlerts: nat, criticalAlerts: nat, platforms: Option<nat>)

  /** The headline figures of an analysis of `data` that produced `alerts`. */
  function Summarise(cfg: Config, data: Table, alerts: seq<Alert>): (m: Metrics)
    ensures m.totalCampaigns == |data.rows|
    ensures m.totalAlerts == |alerts|
    ensures m.totalAlerts == |Tab(alerts, Critical.Tag())| + |Tab(alerts, OverBudget.Tag())|
                           + |Tab(alerts, NearLimit.Tag())| + |Tab(alerts, LowSpend.Tag())|
    ensures m.criticalAlerts == |Tab(alerts, Critical.Tag())|
    ensures m.criticalAlerts <= m.totalAlerts
    ensures m.platforms.None? <==> cfg.platformColumn !in data.columns
    ensures m.platforms.Some? ==> m.platforms.value == |ColumnValues(data.rows, cfg.platformColumn)|
    ensures m.platforms.Some? ==> m.platforms.value <= |data.rows|
  {
    TabsPartitionAlerts(alerts);
    Metrics(
      |data.rows|,
      |alerts|,
      |Tab(alerts, Critical.Tag())|,
      if cfg.platformColumn in data.columns then Some(|ColumnValues(data.rows, cfg.platformColumn)|) else None)
  }

  /** Whether `row` raises an alert of kind `s`, stated without division: its
      spend is a number, its target positive, and the scaled comparison picks `s`. */
  predicate RaisesKind(cfg: Config, parse: Parser, row: Row, s: Severity)
  {
    Evaluable(cfg, parse, row) && TierBySpend(Spend(cfg, parse, row).value, Target(cfg, parse, row)) == Some(s)
  }

  /** How many of `rows` raise an alert of kind `s`. */
  function CountRaising(cfg: Config, parse: Parser, rows: seq<Row>, s: Severity): (n: nat)
    ensures n <= |rows|
    decreases |rows|
  {
    if |rows| == 0 then 0
    else CountRaising(cfg, parse, rows[..|rows| - 1], s) + (if RaisesKind(cfg, parse, rows[|rows| - 1], s) then 1 else 0)
  }

  /** Each tab holds one alert per row that raises an alert of its kind. */
  lemma {:induction false} TabCountsRowsOfKind(cfg: Config, parse: Parser, rows: seq<Row>, s: Severity)
    ensures |Tab(AnalyseRows(cfg, parse, rows), s.Tag())| == CountRaising(cfg, parse, rows, s)
    decreases |rows|
  {
    if |rows| > 0 {
      var front := rows[..|rows| - 1];
      var last := rows[|rows| - 1];
      TabCountsRowsOfKind(cfg, parse, front, s);
      var f := (row: Row) => AnalyseRow(cfg, parse, row);
      assert AnalyseRows(cfg, parse, rows) == AnalyseRows(cfg, parse, front) + f(last).ToSeq();
      TabAppend(AnalyseRows(cfg, parse, front), f(last).ToSeq(), s.Tag());
      if f(last).Some? {
        TagIdentifiesKind(f(last).value.kind, s);
      }
    }
  }

  /** A row raises a critical alert exactly when its spend is a number above
      110% of its positive budget target. */
  lemma CriticalMeansOverspent(cfg: Config, parse: Parser, row: Row)
    ensures RaisesKind(cfg, parse, row, Critical) <==>
              Evaluable(cfg, parse, row) && Spend(cfg, parse, row).value * 100.0 > CriticalAbove * Target(cfg, parse, row)
  {
  }

  /** After analysing a loaded sheet, the critical-alert figure counts exactly
      the rows that raise a critical alert, and the alert total counts the
      rows that raise any alert. */
  lemma SummaryCountsRows(cfg: Config, parse: Parser, data: Table)
    ensures var m := Summarise(cfg, data, Analyse(cfg, parse, Some(data)));
            && m.criticalAlerts == CountRaising(cfg, parse, data.rows, Critical)
            && m.totalAlerts == CountRaising(cfg, parse, data.rows, Critical) + CountRaising(cfg, parse, data.rows, OverBudget)
                              + CountRaising(cfg, parse, data.rows, NearLimit) + CountRaising(cfg, parse, data.rows, LowSpend)
  {
    var alerts := AnalyseRows(cfg, parse, data.rows);
    TabCountsRowsOfKind(cfg, parse, data.rows, Critical);
    TabCountsRowsOfKind(cfg, parse, data.rows, OverBudget);
    TabCountsRowsOfKind(cfg, parse, data.rows, NearLimit);
    TabCountsRowsOfKind(cfg, parse, data.rows, LowSpend);
    TabsPartitionAlerts(alerts);
  }
}
