/**
 * Prices of the monetized features, looked up among the wallet plans with a fixed fallback,
 * and the fixed earn rate the pricing provider reports.
 */
module Pricing {
  import opened Common

  /** The part of a wallet plan the price lookup reads. */
  datatype WalletPlan = WalletPlan(planId: string, price: int, isActive: bool)

  const BoosterPlanId: string := "credit_booster"
  const EarlyUnlockPlanId: string := "early_unlock"
  const PremiumPlanId: string := "premium_wallet"

  const DefaultBoosterPrice: int := 49
  const DefaultEarlyUnlockPrice: int := 29
  const DefaultPremiumPrice: int := 99

  /** `findOne({ planId, isActive: true })`: the first active plan with that id. */
  function FindActivePlan(plans: seq<WalletPlan>, id: string): Option<WalletPlan> {
    if plans == [] then None
    else if plans[0].planId == id && plans[0].isActive then Some(plans[0])
    else FindActivePlan(plans[1..], id)
  }

  /** The price of the active plan with that id, else the fallback. */
  function PlanPrice(plans: seq<WalletPlan>, id: string, fallback: int): int {
    match FindActivePlan(plans, id)
    case Some(p) => p.price
    case None => fallback
  }

  function CreditBoosterPrice(plans: seq<WalletPlan>): int {
    PlanPrice(plans, BoosterPlanId, DefaultBoosterPrice)
  }

  function EarlyUnlockPrice(plans: seq<WalletPlan>): int {
    PlanPrice(plans, EarlyUnlockPlanId, DefaultEarlyUnlockPrice)
  }

  function PremiumWalletPrice(plans: seq<WalletPlan>): int {
    PlanPrice(plans, PremiumPlanId, DefaultPremiumPrice)
  }

  /** The pricing provider's own earn rate, as points per 100 currency units: always 5 (0.05). */
  function FixedCreditRate(): (pointsPer100: nat)
    ensures pointsPer100 * 20 == 100
  {
    5
  }

  /**
   * What the lookup finds: the fallback exactly when no plan with the id is active, and otherwise
   * the price of the first active plan with that id.
   */
  lemma {:induction false} PlanPriceSpec(plans: seq<WalletPlan>, id: string, fallback: int)
    ensures FindActivePlan(plans, id).None? <==> forall i | 0 <= i < |plans| :: !(plans[i].planId == id && plans[i].isActive)
    ensures FindActivePlan(plans, id).None? ==> PlanPrice(plans, id, fallback) == fallback
    ensures FindActivePlan(plans, id).Some? ==>
      exists i | 0 <= i < |plans| ::
        && plans[i].planId == id && plans[i].isActive
        && PlanPrice(plans, id, fallback) == plans[i].price
        && forall j | 0 <= j < i :: !(plans[j].planId == id && plans[j].isActive)
  {
    if plans == [] || (plans[0].planId == id && plans[0].isActive) {
    } else {
      var tail := plans[1..];
      PlanPriceSpec(tail, id, fallback);
      if FindActivePlan(tail, id).Some? {
        var i :| 0 <= i < |tail| && tail[i].planId == id && tail[i].isActive
                 && PlanPrice(tail, id, fallback) == tail[i].price
                 && forall j | 0 <= j < i :: !(tail[j].planId == id && tail[j].isActive);
        assert plans[i + 1] == tail[i];
        forall j | 0 <= j < i + 1 ensures !(plans[j].planId == id && plans[j].isActive) {
          if j > 0 { assert plans[j] == tail[j - 1]; }
        }
      } else {
        forall i | 0 <= i < |plans| ensures !(plans[i].planId == id && plans[i].isActive) {
          if i > 0 { assert plans[i] == tail[i - 1]; }
        }
      }
    }
  }

  /** An inactive plan is never used: removing it changes no lookup, so it behaves as if absent. */
  lemma {:induction false} InactivePlanIgnored(plans: seq<WalletPlan>, k: nat, id: string)
    requires k < |plans| && !plans[k].isActive
    ensures FindActivePlan(plans[..k] + plans[k + 1..], id) == FindActivePlan(plans, id)
  {
    if k == 0 {
      assert plans[..k] + plans[k + 1..] == plans[1..];
    } else {
      InactivePlanIgnored(plans[1..], k - 1, id);
      assert plans[..k] + plans[k + 1..] == [plans[0]] + (plans[1..][..k - 1] + plans[1..][k..]);
    }
  }

  /** With no active plans at all, the three prices are the defaults 49, 29 and 99. */
  lemma {:induction false} DefaultPrices(plans: seq<WalletPlan>)
    requires forall i | 0 <= i < |plans| :: !plans[i].isActive
    ensures CreditBoosterPrice(plans) == 49
    ensures EarlyUnlockPrice(plans) == 29
    ensures PremiumWalletPrice(plans) == 99
  {
    PlanPriceSpec(plans, BoosterPlanId, DefaultBoosterPrice);
    PlanPriceSpec(plans, EarlyUnlockPlanId, DefaultEarlyUnlockPrice);
    PlanPriceSpec(plans, PremiumPlanId, DefaultPremiumPrice);
  }
}
