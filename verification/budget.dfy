/** The analysis configuration and the resolution of a row's budget target:
    a per-campaign override beats a per-platform override, which beats the
    global default. */
module Budget {
  import opened Wrappers
  import opened Cells

  /** What the configuration screen hands to the analysis: the three chosen
      columns, the global default and the two override tables. Override keys
      are cell values taken from the sheet's own columns.

      NaN is unequal to itself, so a NaN label finds a NaN key only when the
      lookup meets the very same NaN object. Whether the spreadsheet library
      passes that object through or boxes a fresh one depends on the column's
      storage, so each table carries it as a flag: `campaignNaNMatches` and
      `platformNaNMatches`. */
  datatype Config = Config(
    platformColumn: string,
    campaignColumn: string,
    spendColumn: string,
    globalBudget: real,
    platformBudgets: map<Cell, real>,
    campaignBudgets: map<Cell, real>,
    platformNaNMatches: bool,
    campaignNaNMatches: bool)

  /** The override `table` holds for `key`: the `in` test followed by the
      lookup, where a NaN key is found only if `nanMatches`. */
  function Override(table: map<Cell, real>, key: Cell, nanMatches: bool): (r: Option<real>)
    ensures r.Some? <==> key in table && (nanMatches || !key.Null?)
    ensures r.Some? ==> r.value == table[key]
  {
    if key in table && (nanMatches || !key.Null?) then Some(table[key]) else None
  }

  /** The campaign override that applies to a row with this campaign label. */
  function CampaignOverride(cfg: Config, campaign: Cell): Option<real>
  {
    Override(cfg.campaignBudgets, campaign, cfg.campaignNaNMatches)
  }

  /** The platform override that applies to a row with this platform label. */
  function PlatformOverride(cfg: Config, platform: Cell): Option<real>
  {
    Override(cfg.platformBudgets, platform, cfg.platformNaNMatches)
  }

  /** The first override in `chain` that applies, else `default`: the
      reference reading of "more specific configuration wins". */
  function FirstPresent(chain: seq<Option<real>>, default: real): (r: real)
    ensures (forall k :: 0 <= k < |chain| ==> chain[k].None?) ==> r == default
    ensures forall k :: 0 <= k < |chain| && chain[k].Some? && (forall j :: 0 <= j < k ==> chain[j].None?) ==> r == chain[k].value
  {
    if |chain| == 0 then default
    else if chain[0].Some? then chain[0].value
    else FirstPresent(chain[1..], default)
  }

  /** The budget target of a row with these campaign and platform labels. It
      starts from the global default and is replaced by the campaign override
      if there is one, or else by the platform override if there is one. */
  function ResolveBudget(cfg: Config, campaign: Cell, platform: Cell): (target: real)
    ensures target == FirstPresent([CampaignOverride(cfg, campaign), PlatformOverride(cfg, platform)], cfg.globalBudget)
  {
    if campaign in cfg.campaignBudgets && (cfg.campaignNaNMatches || !campaign.Null?) then cfg.campaignBudgets[campaign]
    else if platform in cfg.platformBudgets && (cfg.platformNaNMatches || !platform.Null?) then cfg.platformBudgets[platform]
    else cfg.globalBudget
  }

  /** A campaign override decides the target whatever the platform overrides
      and the global default say. */
  lemma CampaignOverrideWins(cfg: Config, campaign: Cell, platform: Cell,
                             platformBudgets: map<Cell, real>, globalBudget: real)
    requires CampaignOverride(cfg, campaign).Some?
    ensures ResolveBudget(cfg, campaign, platform) == cfg.campaignBudgets[campaign]
    ensures ResolveBudget(cfg.(platformBudgets := platformBudgets, globalBudget := globalBudget), campaign, platform)
         == ResolveBudget(cfg, campaign, platform)
  {
  }

  /** Without a campaign override, a platform override decides the target
      whatever the global default says. */
  lemma PlatformOverrideBeatsGlobal(cfg: Config, campaign: Cell, platform: Cell, globalBudget: real)
    requires CampaignOverride(cfg, campaign).None?
    requires PlatformOverride(cfg, platform).Some?
    ensures ResolveBudget(cfg, campaign, platform) == cfg.platformBudgets[platform]
    ensures ResolveBudget(cfg.(globalBudget := globalBudget), campaign, platform)
         == ResolveBudget(cfg, campaign, platform)
  {
  }

  /** The global default is used when neither override applies. */
  lemma GlobalDefaultOtherwise(cfg: Config, campaign: Cell, platform: Cell)
    requires CampaignOverride(cfg, campaign).None?
    requires PlatformOverride(cfg, platform).None?
    ensures ResolveBudget(cfg, campaign, platform) == cfg.globalBudget
  {
  }

  /** The target is always a configured amount: the default or an entry of one
      of the two override tables. */
  lemma ResolvedBudgetIsConfigured(cfg: Config, campaign: Cell, platform: Cell)
    ensures var t := ResolveBudget(cfg, campaign, platform);
            t == cfg.globalBudget || t in cfg.campaignBudgets.Values || t in cfg.platformBudgets.Values
  {
  }
}
