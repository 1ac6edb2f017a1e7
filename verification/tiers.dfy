/** Severity classification of a row from the share of its budget target that
    has been spent. */
module Tiers {
  import opened Wrappers

  /** The four alert kinds, most urgent first; LowSpend flags underspending. */
  datatype Severity = Critical | OverBudget | NearLimit | LowSpend {

    /** The `tipo` string an alert of this kind carries. */
    function Tag(): (t: string)
      ensures |t| > 0
    {
      match this
      case Critical => "CRÍTICO"
      case OverBudget => "ALERTA"
      case NearLimit => "ATENÇÃO"
      case LowSpend => "BAIXO_GASTO"
    }

    /** Position in the order in which the thresholds are tested (4 is tested first). */
    function Rank(): (k: nat)
      ensures 1 <= k <= 4
    {
      match this
      case Critical => 4
      case OverBudget => 3
      case NearLimit => 2
      case LowSpend => 1
    }
  }

  /** Percent thresholds, all exclusive: above 110, above 100, above 90, below 30. */
  const CriticalAbove: real := 110.0
  const OverBudgetAbove: real := 100.0
  const NearLimitAbove: real := 90.0
  const LowSpendBelow: real := 30.0

  /** Spend as a percentage of the budget target. */
  function Percent(spend: real, target: real): (pct: real)
    requires target != 0.0
    ensures pct * target == spend * 100.0
  {
    (spend / target) * 100.0
  }

  /** The threshold test of one kind taken on its own, as written next to
      each branch: whether `pct` (with spend `spend`) trips it. */
  predicate Trips(s: Severity, pct: real, spend: real)
  {
    match s
    case Critical => pct > CriticalAbove
    case OverBudget => pct > OverBudgetAbove
    case NearLimit => pct > NearLimitAbove
    case LowSpend => pct < LowSpendBelow && spend > 0.0
  }

  /** The band of percentages each kind covers, as disjoint ranges. */
  predicate InBand(s: Severity, pct: real, spend: real)
  {
    match s
    case Critical => CriticalAbove < pct
    case OverBudget => OverBudgetAbove < pct <= CriticalAbove
    case NearLimit => NearLimitAbove < pct <= OverBudgetAbove
    case LowSpend => pct < LowSpendBelow && spend > 0.0
  }

  /** The kind of alert raised for a row spending `pct` percent of its target
      (`spend` in money), tested from the highest threshold down; `None` when
      no alert is raised. */
  function Tier(pct: real, spend: real): (r: Option<Severity>)
    ensures forall s :: r == Some(s) <==> InBand(s, pct, spend)
    ensures r.None? <==> pct <= NearLimitAbove && (pct >= LowSpendBelow || spend <= 0.0)
  {
    if pct > CriticalAbove then Some(Critical)
    else if pct > OverBudgetAbove then Some(OverBudget)
    else if pct > NearLimitAbove then Some(NearLimit)
    else if pct < LowSpendBelow && spend > 0.0 then Some(LowSpend)
    else None
  }

  /** The bands are mutually exclusive: a row lies in at most one. */
  lemma BandsDisjoint(s1: Severity, s2: Severity, pct: real, spend: real)
    requires InBand(s1, pct, spend) && InBand(s2, pct, spend)
    ensures s1 == s2
  {
  }

  /** The kind chosen is the highest-ranked kind whose own threshold trips,
      and no kind is chosen exactly when none trips. */
  lemma TierIsHighestTripped(pct: real, spend: real)
    ensures Tier(pct, spend).Some? ==>
              Trips(Tier(pct, spend).value, pct, spend)
              && forall s :: Trips(s, pct, spend) ==> s.Rank() <= Tier(pct, spend).value.Rank()
    ensures Tier(pct, spend).None? <==> forall s :: !Trips(s, pct, spend)
  {
    if Tier(pct, spend).None? {
      forall s ensures !Trips(s, pct, spend) {
        match s
        case Critical =>
        case OverBudget =>
        case NearLimit =>
        case LowSpend =>
      }
    } else {
      assert Trips(Tier(pct, spend).value, pct, spend);
    }
  }

  /** Nothing is raised for a row that has spent nothing, because the
      low-spend rule requires spend above zero. */
  lemma ZeroSpendRaisesNothing(target: real)
    requires target != 0.0
    ensures Tier(Percent(0.0, target), 0.0).None?
  {
    assert Percent(0.0, target) == 0.0;
  }

  /** Division-free reference classifier: compares spend with the target scaled
      by each threshold instead of computing a percentage. */
  function TierBySpend(spend: real, target: real): (r: Option<Severity>)
    ensures target > 0.0 ==> (r.Some? && r.value != LowSpend <==> spend * 100.0 > NearLimitAbove * target)
    ensures r == Some(LowSpend) ==> 0.0 < spend && spend * 100.0 < LowSpendBelow * target
  {
    if spend * 100.0 > CriticalAbove * target then Some(Critical)
    else if spend * 100.0 > OverBudgetAbove * target then Some(OverBudget)
    else if spend * 100.0 > NearLimitAbove * target then Some(NearLimit)
    else if spend * 100.0 < LowSpendBelow * target && spend > 0.0 then Some(LowSpend)
    else None
  }

  /** For a positive target, `spend/target*100` exceeds a threshold exactly when
      `spend*100` exceeds the threshold times the target, and likewise below. */
  lemma PercentVersusThreshold(spend: real, target: real, k: real)
    requires target > 0.0
    ensures Percent(spend, target) > k <==> spend * 100.0 > k * target
    ensures Percent(spend, target) < k <==> spend * 100.0 < k * target
  {
    var p := Percent(spend, target);
    assert p * target - k * target == (p - k) * target;
    if p > k {
      assert (p - k) * target > 0.0;
    } else if p < k {
      assert (k - p) * target > 0.0;
    } else {
      assert p * target == k * target;
    }
  }

  /** Classifying by percentage and classifying by scaled spend agree for every
      positive target, so the percentage can be read exactly. */
  lemma TierMatchesTierBySpend(spend: real, target: real)
    requires target > 0.0
    ensures Tier(Percent(spend, target), spend) == TierBySpend(spend, target)
  {
    PercentVersusThreshold(spend, target, CriticalAbove);
    PercentVersusThreshold(spend, target, OverBudgetAbove);
    PercentVersusThreshold(spend, target, NearLimitAbove);
    PercentVersusThreshold(spend, target, LowSpendBelow);
  }
}
