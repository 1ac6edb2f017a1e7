/** The campaign analysis: every row of the loaded sheet is read through the
    configured columns, its budget target is resolved, and at most one alert is
    raised for it; the alerts come out in row order. */
module Analysis {
  import opened Wrappers
  import opened Cells
  import opened Budget
  import opened Tiers
  import opened Seqs

  /** The human-readable text of an alert: a lead, the percentage rendered with
      one decimal, and a trail. Rendering the number is left abstract. */
  datatype Message = Message(lead: string, percent: real, trail: string)

  /** The message each kind of alert carries for a given percentage. */
  function MessageFor(kind: Severity, pct: real): (m: Message)
    ensures m.percent == pct
    ensures |m.lead| > 0
  {
    match kind
    case Critical => Message("GASTO EXCEDIDO: ", pct, "% do orçamento")
    case OverBudget => Message("ORÇAMENTO ULTRAPASSADO: ", pct, "%")
    case NearLimit => Message("PRÓXIMO DO LIMITE: ", pct, "%")
    case LowSpend => Message("BAIXO GASTO: ", pct, "% utilizado")
  }

  /** One alert record: its kind (`tipo`), the row's platform and campaign
      labels, the resolved budget target, the spend and its percentage. */
  datatype Alert = Alert(
    kind: Severity,
    platform: Cell,
    campaign: Cell,
    plannedBudget: real,
    spend: real,
    percent: real,
    message: Message)

  /** The label a row gets for a column the sheet does not have. */
  const Unnamed: Cell := Text("N/A")

  /** The row as the analysis reads it: its spend column coerced to numbers. */
  function Coerced(cfg: Config, parse: Parser, row: Row): (r: Row)
    ensures r.Keys == row.Keys
  {
    CoerceColumn(parse, row, cfg.spendColumn)
  }

  /** The campaign or platform label read from column `col`: "N/A" when the
      sheet lacks it, and the coerced value when it is also the spend column. */
  function Label(cfg: Config, parse: Parser, row: Row, col: string): (c: Cell)
    ensures col !in row ==> c == Unnamed
    ensures col in row && col != cfg.spendColumn ==> c == row[col]
    ensures col in row && col == cfg.spendColumn ==> c == FromNumeric(ToNumeric(parse, row[col]))
  {
    Get(Coerced(cfg, parse, row), col, Unnamed)
  }

  /** The row's spend: its coerced spend cell, `None` standing for NaN, and
      zero when the sheet has no spend column. */
  function Spend(cfg: Config, parse: Parser, row: Row): (v: Option<real>)
    ensures cfg.spendColumn in row ==> v == ToNumeric(parse, row[cfg.spendColumn])
    ensures cfg.spendColumn !in row ==> v == Some(0.0)
  {
    match Get(Coerced(cfg, parse, row), cfg.spendColumn, Num(0.0))
    case Num(x) => Some(x)
    case _ => None
  }

  /** The budget target resolved for the row's campaign and platform labels. */
  function Target(cfg: Config, parse: Parser, row: Row): real
  {
    ResolveBudget(cfg, Label(cfg, parse, row, cfg.campaignColumn), Label(cfg, parse, row, cfg.platformColumn))
  }

  /** Whether the row can be classified at all: its spend is a number and its
      budget target is positive (no percentage is computed otherwise). */
  predicate Evaluable(cfg: Config, parse: Parser, row: Row)
  {
    Spend(cfg, parse, row).Some? && Target(cfg, parse, row) > 0.0
  }

  /** The alert raised for one row, if any. */
  function AnalyseRow(cfg: Config, parse: Parser, row: Row): (r: Option<Alert>)
    ensures Spend(cfg, parse, row).None? ==> r.None?
    ensures Target(cfg, parse, row) <= 0.0 ==> r.None?
    ensures Spend(cfg, parse, row) == Some(0.0) ==> r.None?
    ensures r.Some? <==> Evaluable(cfg, parse, row)
                         && TierBySpend(Spend(cfg, parse, row).value, Target(cfg, parse, row)).Some?
    ensures r.Some? ==>
              && r.value.spend == Spend(cfg, parse, row).value
              && r.value.plannedBudget == Target(cfg, parse, row)
              && r.value.percent * r.value.plannedBudget == r.value.spend * 100.0
              && Some(r.value.kind) == TierBySpend(r.value.spend, r.value.plannedBudget)
              && r.value.campaign == Label(cfg, parse, row, cfg.campaignColumn)
              && r.value.platform == Label(cfg, parse, row, cfg.platformColumn)
              && r.value.message == MessageFor(r.value.kind, r.value.percent)
  {
    var campaign := Label(cfg, parse, row, cfg.campaignColumn);
    var platform := Label(cfg, parse, row, cfg.platformColumn);
    var spend := Spend(cfg, parse, row);
    if spend.None? then None
    else
      var target := ResolveBudget(cfg, campaign, platform);
      if target > 0.0 then
        var pct := Percent(spend.value, target);
        TierMatchesTierBySpend(spend.value, target);
        match Tier(pct, spend.value)
        case Some(kind) => Some(Alert(kind, platform, campaign, target, spend.value, pct, MessageFor(kind, pct)))
        case None => None
      else None
  }

  /** The alerts of a sequence of rows, in row order: each row contributes its
      own alert, if any, after those of the rows before it. */
  function AnalyseRows(cfg: Config, parse: Parser, rows: seq<Row>): (alerts: seq<Alert>)
    ensures |alerts| <= |rows|
  {
    FilterMap((row: Row) => AnalyseRow(cfg, parse, row), rows)
  }

  /** The result of the analysis: nothing when no sheet has been loaded,
      otherwise the alerts of its rows. */
  function Analyse(cfg: Config, parse: Parser, data: Option<Table>): (alerts: seq<Alert>)
    ensures data.None? ==> alerts == []
    ensures data.Some? ==> |alerts| <= |data.value.rows|
  {
    match data
    case None => []
    case Some(t) => AnalyseRows(cfg, parse, t.rows)
  }

  /** The analysis as the loop over the sheet's rows that builds it, appending
      each row's alert as it is found. */
  method AnalyseCampaigns(cfg: Config, parse: Parser, data: Option<Table>) returns (alerts: seq<Alert>)
    ensures alerts == Analyse(cfg, parse, data)
  {
    alerts := [];
    if data.None? {
      return;
    }
    var rows := data.value.rows;
    var i := 0;
    while i < |rows|
      invariant 0 <= i <= |rows|
      invariant alerts == AnalyseRows(cfg, parse, rows[..i])
    {
      assert rows[..i + 1][..i] == rows[..i];
      var found := AnalyseRow(cfg, parse, rows[i]);
      if found.Some? {
        alerts := alerts + [found.value];
      }
      i := i + 1;
    }
    assert rows[..|rows|] == rows;
  }

  /** Analysing two runs of rows one after the other gives the alerts of the
      first run followed by those of the second. */
  lemma AnalyseRowsAppend(cfg: Config, parse: Parser, first: seq<Row>, second: seq<Row>)
    ensures AnalyseRows(cfg, parse, first + second) == AnalyseRows(cfg, parse, first) + AnalyseRows(cfg, parse, second)
  {
    FilterMapAppend((row: Row) => AnalyseRow(cfg, parse, row), first, second);
  }

  /** The positions of the rows that raise an alert, in increasing order. */
  function AlertingRows(cfg: Config, parse: Parser, rows: seq<Row>): (idx: seq<nat>)
    ensures forall k, l :: 0 <= k < l < |idx| ==> idx[k] < idx[l]
    ensures forall i :: 0 <= i < |rows| ==> (i in idx <==> AnalyseRow(cfg, parse, rows[i]).Some?)
  {
    Hits((row: Row) => AnalyseRow(cfg, parse, row), rows)
  }

  /** The alert list is exactly the subsequence of row outcomes that are
      alerts: its k-th alert is the alert of the k-th alerting row, so alerts
      follow the order of the rows that raised them and no row raises two. */
  lemma AlertsFollowRowOrder(cfg: Config, parse: Parser, rows: seq<Row>)
    ensures |AlertingRows(cfg, parse, rows)| == |AnalyseRows(cfg, parse, rows)|
    ensures forall k :: 0 <= k < |AlertingRows(cfg, parse, rows)| ==>
              AlertingRows(cfg, parse, rows)[k] < |rows|
              && AnalyseRow(cfg, parse, rows[AlertingRows(cfg, parse, rows)[k]]) == Some(AnalyseRows(cfg, parse, rows)[k])
  {
    FilterMapFollowsHits((row: Row) => AnalyseRow(cfg, parse, row), rows);
  }

  /** An alert is reported exactly when some row raises it. */
  lemma AlertReportedIffRaised(cfg: Config, parse: Parser, rows: seq<Row>, a: Alert)
    ensures a in AnalyseRows(cfg, parse, rows) <==> exists i :: 0 <= i < |rows| && AnalyseRow(cfg, parse, rows[i]) == Some(a)
  {
    var f := (row: Row) => AnalyseRow(cfg, parse, row);
    if a in AnalyseRows(cfg, parse, rows) {
      FilterMapSound(f, rows, a);
    }
    if i :| 0 <= i < |rows| && AnalyseRow(cfg, parse, rows[i]) == Some(a) {
      FilterMapComplete(f, rows, i);
    }
  }

  /** A sheet without the spend column reads every spend as zero, so it raises
      no alert at all. */
  lemma NoSpendColumnRaisesNothing(cfg: Config, parse: Parser, rows: seq<Row>)
    requires forall i :: 0 <= i < |rows| ==> cfg.spendColumn !in rows[i]
    ensures AnalyseRows(cfg, parse, rows) == []
  {
    var alerts := AnalyseRows(cfg, parse, rows);
    if |alerts| > 0 {
      AlertReportedIffRaised(cfg, parse, rows, alerts[0]);
      assert false;
    }
  }
}
