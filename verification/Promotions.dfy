/** Promotion bonuses: the percentage, the tier, the use limit and the daily cap. */
module Promotions {
  import opened Common
  import opened Ledger
  import opened Schema

  datatype Bonus = Bonus(cents: nat, eligible: bool)

  const NoBonus := Bonus(0, false)

  /** Rows of one user under one promotion. */
  function Uses(us: seq<Usage>, p: PromotionId, u: UserId): nat {
    if |us| == 0 then 0
    else Uses(us[..|us| - 1], p, u) + (if Counts(us[|us| - 1], p, u) then 1 else 0)
  }

  function DailyBonus(us: seq<Usage>, p: PromotionId, u: UserId, day: nat): nat {
    if |us| == 0 then 0
    else DailyBonus(us[..|us| - 1], p, u, day)
         + (if Counts(us[|us| - 1], p, u) && us[|us| - 1].day == day then us[|us| - 1].bonus else 0)
  }

  predicate Counts(x: Usage, p: PromotionId, u: UserId) {
    x.promotion == p && x.user == u
  }

  function PercentageBonusHalfUp(principal: nat, basisPoints: nat): nat {
    (principal * basisPoints + 5000) / 10000
  }

  /** The qualifying tier with the greatest minimum. */
  function BestTier(tiers: seq<Tier>, principal: nat): (best: Option<Tier>)
    ensures best.None? <==> forall t | t in tiers :: t.minimum > principal
    ensures best.Some? ==> best.value in tiers && best.value.minimum <= principal
                           && forall t | t in tiers && t.minimum <= principal :: t.minimum <= best.value.minimum
  {
    if tiers == [] then None
    else
      var rest := BestTier(tiers[1..], principal);
      if tiers[0].minimum <= principal && (rest.None? || rest.value.minimum < tiers[0].minimum) then Some(tiers[0])
      else rest
  }

  function ResolvePromotionBonus(promotions: map<PromotionId, Promotion>, us: seq<Usage>, p: Option<PromotionId>,
                                 u: UserId, principal: nat, day: nat): Bonus
  {
    if p.None? || p.value !in promotions then NoBonus
    else
      var promotion := promotions[p.value];
      if promotion.maxUses.Some? && Uses(us, p.value, u) >= promotion.maxUses.value then NoBonus
      else
        var tier := BestTier(promotion.tiers, principal);
        if tier.None? then NoBonus
        else
          var bonus := PercentageBonusHalfUp(principal, tier.value.basisPoints);
          if promotion.dailyCap.None? then Bonus(bonus, true)
          else
            var spent := DailyBonus(us, p.value, u, day);
            if promotion.dailyCap.value <= spent then NoBonus
            else if bonus > promotion.dailyCap.value - spent then Bonus(promotion.dailyCap.value - spent, true)
            else Bonus(bonus, true)
  }

  predicate HasUsage(us: seq<Usage>, t: TopupId) {
    exists i | 0 <= i < |us| :: us[i].topup == t
  }

  /** INSERT ... ON CONFLICT (topup_id) DO NOTHING */
  function RecordUsage(us: seq<Usage>, x: Usage): seq<Usage> {
    if HasUsage(us, x.topup) then us else us + [x]
  }

  // ---------------------------------------------------------------- properties

  /** The percentage is within half a cent of the exact value, and no more than
      the principal for the basis points the schema allows. */
  lemma BonusRounding(principal: nat, basisPoints: nat)
    ensures var exact := principal * basisPoints;
            var rounded := 10000 * PercentageBonusHalfUp(principal, basisPoints);
            -5000 < rounded - exact <= 5000
    ensures basisPoints <= 10000 ==> PercentageBonusHalfUp(principal, basisPoints) <= principal
  {
    if basisPoints <= 10000 {
      assert principal * basisPoints <= principal * 10000;
    }
  }

  /** The schema bounds every tier to at most one hundred percent. */
  ghost predicate TiersOk(promotions: map<PromotionId, Promotion>) {
    forall p, i | p in promotions && 0 <= i < |promotions[p].tiers| :: promotions[p].tiers[i].basisPoints <= 10000
  }

  ghost predicate CapsOk(promotions: map<PromotionId, Promotion>, us: seq<Usage>) {
    && (forall p, u: UserId | p in promotions && promotions[p].maxUses.Some? ::
          Uses(us, p, u) <= promotions[p].maxUses.value)
    && (forall p, u: UserId, d: nat | p in promotions && promotions[p].dailyCap.Some? ::
          DailyBonus(us, p, u, d) <= promotions[p].dailyCap.value)
    && (forall i | 0 <= i < |us| :: us[i].bonus <= us[i].principal)
  }

  /** Recording the bonus that was just resolved keeps every cap: uses per user,
      bonus per user and day, bonus no more than principal. */
  lemma CreditKeepsCaps(promotions: map<PromotionId, Promotion>, us: seq<Usage>, p: PromotionId, u: UserId,
                        t: TopupId, principal: nat, day: nat)
    requires TiersOk(promotions) && CapsOk(promotions, us)
    requires ResolvePromotionBonus(promotions, us, Some(p), u, principal, day).eligible
    ensures var b := ResolvePromotionBonus(promotions, us, Some(p), u, principal, day).cents;
            b <= principal && CapsOk(promotions, RecordUsage(us, Usage(t, p, u, day, principal, b)))
  {
    var b := ResolvePromotionBonus(promotions, us, Some(p), u, principal, day).cents;
    var tier := BestTier(promotions[p].tiers, principal);
    BonusRounding(principal, tier.value.basisPoints);
    if !HasUsage(us, t) {
      var us' := us + [Usage(t, p, u, day, principal, b)];
      assert us'[..|us|] == us;
      forall q, v: UserId, d: nat | q in promotions && promotions[q].dailyCap.Some?
        ensures DailyBonus(us', q, v, d) <= promotions[q].dailyCap.value
      {
        assert DailyBonus(us, q, v, d) <= promotions[q].dailyCap.value;
      }
    }
  }

  /** The bonus is the greatest amount that neither the best tier's percentage nor
      what is left of the daily cap forbids. */
  lemma {:induction false} BonusIsGreatestAllowed(promotions: map<PromotionId, Promotion>, us: seq<Usage>, p: PromotionId, u: UserId,
                               principal: nat, day: nat, tier: Tier, other: nat)
    requires ResolvePromotionBonus(promotions, us, Some(p), u, principal, day).eligible
    requires tier in promotions[p].tiers && tier.minimum <= principal
    requires forall t | t in promotions[p].tiers && t.minimum <= principal && t != tier :: t.minimum < tier.minimum
    requires other <= PercentageBonusHalfUp(principal, tier.basisPoints)
    requires promotions[p].dailyCap.Some? ==>
               DailyBonus(us, p, u, day) + other <= promotions[p].dailyCap.value
    ensures other <= ResolvePromotionBonus(promotions, us, Some(p), u, principal, day).cents
  {
    var best := BestTier(promotions[p].tiers, principal).value;
    assert best == tier;
  }
}
