# Campaign budget monitor — Dafny model of the reconciliation engine

The monitor loads a spreadsheet of advertising campaigns. The user picks three
columns: platform, campaign and current spend. The user also sets a global
default budget and optional overrides per platform and per campaign.
`MonitorOrcamento.analisar_campanhas` then walks the rows in order:

1. it coerces the spend column to numbers, with NaN on failure;
2. it reads each row's campaign, platform and spend, using `'N/A'` or `0`
   when the column is missing;
3. it skips rows whose spend is NaN;
4. it resolves the row's budget target (campaign override, else platform
   override, else the global default);
5. it skips rows whose target is not positive;
6. it raises at most one alert per row: CRÍTICO (> 110%), ALERTA (> 100%),
   ATENÇÃO (> 90%) or BAIXO_GASTO (< 30% with spend above zero).

`mostrar_resultados` then counts the alerts and splits them into four tabs by
kind.

The model is written with immutable datatypes and pure functions:

- `Cells`: cells, rows, `row.get` and the numeric coercion of the spend column.
- `Budget`: the configuration and the override precedence.
- `Tiers`: the severity tiers, with a declarative band table and a
  division-free reference classifier.
- `Seqs`: an order-preserving filter-map over sequences.
- `Analysis`: the per-row analysis, the analysis of a whole sheet, and the loop
  that builds it.
- `Summary`: the tabs and the headline figures.

Money is `real`, so every ratio comparison is exact. Text-to-number parsing is
a `Parser` parameter (`string -> Option<real>`, where `None` is NaN). The
`col in df.columns` test is modelled as `col in row`; the two agree for every
sheet the spreadsheet library produces, whose rows are keyed by exactly its
columns.

Facts about main.py that shape the model:

- main.py reads no planned-budget column. The budget target comes only from
  the configuration.
- main.py applies a single threshold profile: 110/100/90/30.
- main.py does not filter rows by status.
- main.py takes the three column names as chosen by the user. It does not
  resolve them through a synonym table.

Two details of the code are kept:

- When the campaign or platform column is also the spend column, its label is
  the coerced value, because the coercion rewrites the frame before any label is
  read.
- A NaN label is looked up like any other label. NaN is unequal to itself, so
  the lookup finds a NaN key only if it meets the very same NaN object. Whether
  it does depends on how the spreadsheet library stores the column. Each
  override table therefore carries a flag (`campaignNaNMatches`,
  `platformNaNMatches`) saying whether a NaN label finds a NaN key.

## Model

| member | source | states |
|---|---|---|
| Cells.CoercionRoundTrip | main.py:190-197 | a coerced value stored back in the sheet (line 190) reads back as the same number or NaN (lines 195-197), whatever the parser |
| Cells.CoerceColumnIdempotent | main.py:189-190 | coercing the spend column a second time changes nothing |
| Cells.CoerceColumn | main.py:189-190 | only the spend column changes, and only when the sheet has it; it then holds a number or NaN and never text |
| Analysis.Label | main.py:193-194 | the label is the row's cell, "N/A" when the column is absent, and the coerced value when the column is also the spend column |
| Analysis.Spend | main.py:189-197 | the spend is the coerced spend cell (None for NaN), and 0 when the sheet has no spend column |
| Budget.ResolveBudget | main.py:200-208 | the target is the first applicable override in the order campaign, then platform, else the global default |
| Budget.CampaignOverrideWins | main.py:203-205 | a campaign override gives the target whatever the platform overrides and the global default are |
| Budget.PlatformOverrideBeatsGlobal | main.py:206-208 | without a campaign override, a platform override gives the target whatever the global default is |
| Budget.GlobalDefaultOtherwise | main.py:201 | the global default is used when neither override applies |
| Budget.ResolvedBudgetIsConfigured | main.py:200-208 | the target is always the default or a value of one of the two override tables |
| Tiers.Percent | main.py:212 | the percentage times the target equals the spend times 100 |
| Tiers.Tier | main.py:215-254 | the tier chosen is the kind whose band (> 110, (100,110], (90,100], < 30 with spend > 0) holds the percentage, in both directions; no alert exactly when the percentage is at most 90 and not a positive low spend |
| Tiers.BandsDisjoint | main.py:215-245 | the bands are mutually exclusive |
| Tiers.TierIsHighestTripped | main.py:215-245 | the kind chosen trips its own threshold and outranks every other kind that trips; none is chosen exactly when none trips |
| Tiers.ZeroSpendRaisesNothing | main.py:245 | a spend of zero raises nothing, because the low-spend rule needs spend above zero |
| Tiers.TierBySpend | main.py:211-245 | the division-free comparison: an over-threshold kind exactly when spend times 100 exceeds 90 times a positive target; low spend only for positive spend below 30% of the target |
| Tiers.PercentVersusThreshold | main.py:211-215 | for a positive target, the percentage is above (below) k exactly when spend times 100 is above (below) k times the target |
| Tiers.TierMatchesTierBySpend | main.py:211-254 | for every positive target, classifying by percentage equals classifying by scaled spend |
| Analysis.MessageFor | main.py:223-253 | each alert's message carries its percentage and a non-empty lead text |
| Analysis.AnalyseRow | main.py:192-254 | a row with NaN spend, a non-positive target or zero spend raises nothing; a row raises an alert exactly when its spend is a number, its target is positive and the scaled comparison picks a kind; the alert carries that kind, the target, the spend, a percentage with percent·target = spend·100, and the row's labels |
| Analysis.AnalyseRows | main.py:185-256 | there are never more alerts than rows (the order and contents are stated by AlertsFollowRowOrder and AlertReportedIffRaised) |
| Analysis.Analyse | main.py:180-183 | no loaded sheet gives no alerts; otherwise there are at most as many alerts as rows |
| Analysis.AnalyseCampaigns | main.py:180-256 | the row loop that appends each row's alert computes exactly the functional analysis |
| Analysis.AnalyseRowsAppend | main.py:185-256 | analysing two runs of rows in turn gives the first run's alerts followed by the second's |
| Analysis.AlertingRows | main.py:192-254 | the alerting positions are increasing, and a position is listed exactly when its row raises an alert |
| Analysis.AlertsFollowRowOrder | main.py:185-256 | the k-th alert is the alert of the k-th alerting row: the alert list is the in-order subsequence of row outcomes |
| Analysis.AlertReportedIffRaised | main.py:192-256 | an alert is in the result exactly when some row raises it |
| Analysis.NoSpendColumnRaisesNothing | main.py:195 | a sheet without the spend column reads every spend as 0 and raises no alert |
| Summary.Tab | main.py:287-335 | a tab never holds more alerts than the list it filters (contents and order are stated by TabMembers and TabAppend) |
| Summary.TabMembers | main.py:287-335 | a tab holds exactly the alerts whose tipo is its tag |
| Summary.TagIdentifiesKind | main.py:217-247 | the four tipo strings are distinct, so a tag names one kind |
| Summary.TabAppend | main.py:287-335 | the tab of an appended list is the appended tabs, so order is kept within each tab |
| Summary.TabsPartitionAlerts | main.py:266-335 | the four tab sizes add up to the alert total |
| Summary.ColumnValues | main.py:268 | the distinct platform values are exactly the cells of that column, and there are no more of them than rows |
| Summary.Summarise | main.py:265-268 | the figures give the row count and the alert count; the alert count is the sum of the four tab sizes; the critical count is the size of the CRÍTICO tab, so it counts exactly the alerts whose tipo is CRÍTICO (by TabMembers), and is at most the total; the platform count is missing exactly when the platform column is missing, and otherwise is the number of distinct cells of that column (by ColumnValues), at most the row count |
| Summary.TabCountsRowsOfKind | main.py:185-335 | each tab holds one alert per row that raises an alert of its kind |
| Summary.CriticalMeansOverspent | main.py:211-224 | a row raises a critical alert exactly when its spend is a number above 110% of its positive target |
| Summary.SummaryCountsRows | main.py:265-267 | after an analysis, the critical figure counts the critical rows and the alert total counts the rows of all four kinds |

## Left out

- The Streamlit interface is not modelled: page setup, CSS, the upload widget,
  column and budget inputs, tabs, metric cards and HTML alert boxes
  (main.py:1-59, 65-178, 258-365, 367-412). It is presentation and input
  handling.
- Reading CSV or Excel files (main.py:77-80) is not modelled; it is library I/O.
  A loaded sheet is a `Table` value, and "no sheet loaded" is `None`.
- The number-parsing rules of the spreadsheet library are not modelled; they
  are the `Parser` parameter.
- The rendering of the percentage with one decimal in alert messages is not
  modelled. `Message` keeps the lead text, the exact percentage and the trail
  text.
- The input form offers overrides for only the first 10 platforms and the first
  5 campaigns (main.py:145, 160). This is input-widget behaviour. The model
  accepts override tables of any size.
- How the spreadsheet library stores a column, and so whether a NaN label meets
  the same NaN object as an override key, is not modelled. It is the
  `campaignNaNMatches` and `platformNaNMatches` flags of the configuration.
- Infinite spend is not modelled. The library's numeric conversion can turn
  text such as "inf" or "1e999" into ±infinity. In the source, +infinity with a
  positive target is then CRÍTICO with an infinite percentage. A `Parser`
  yields only finite reals, so the model has no such rows.
- Binary floating-point rounding is not modelled. Money and percentages are
  exact reals.
- In the source, a missing spend column yields the integer `0`, not the float
  `0.0`. The model does not distinguish them, and either way the row raises no
  alert.
- A `Table` is not required to have rows whose keys are exactly its columns.
  The analysis reads each row's own keys, which is the same test for every
  table the spreadsheet library can produce.
- Analysis.MessageFor: its contract says only that the message carries the
  alert's percentage and has a non-empty lead. The exact wording per kind is in
  its body but is not stated as a property.
- Analysis.AnalyseRows: its own contract states only that there are no more
  alerts than rows. Which alerts appear and in what order is stated by
  Analysis.AlertsFollowRowOrder and Analysis.AlertReportedIffRaised.
- Summary.Tab: its own contract states only the size bound. Which alerts a tab
  holds is stated by Summary.TabMembers, and its order by Summary.TabAppend.
