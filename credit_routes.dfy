/**
 * The user-facing credit endpoints: the balance read, the price list, and the two purchases
 * (boost, early unlock) that change an entry and then write one audit record.
 */
module CreditRoutes {
  import opened Common
  import opened CreditSchema
  import opened TransactionSchema
  import opened Pricing
  import opened Ledger
  import opened CreditService

  /** The body of `GET /user/:userId`. */
  datatype BalanceView = BalanceView(balance: int, locked: int, history: seq<Credit>)

  /**
   * `GET /user/:userId`: the user's entries, and the sums of their active and locked amounts,
   * accumulated in one pass; in a synced store these are the figures held on the user's wallet.
   */
  method GetUserCredits(db: Database, userId: UserId) returns (view: BalanceView)
    ensures view.balance == ActiveSum(db.credits, userId)
    ensures view.locked == LockedSum(db.credits, userId)
    ensures view.history == UserEntries(db.credits, userId)
    ensures Synced(db.users, db.credits) && userId in db.users ==>
      view.balance == db.users[userId].totalCredits && view.locked == db.users[userId].lockedCredits
  {
    var credits := UserEntries(db.credits, userId);
    var totalActive, totalLocked := 0, 0;
    for i := 0 to |credits|
      invariant totalActive == Total(credits[..i], OwnedWithStatus(userId, Active))
      invariant totalLocked == Total(credits[..i], OwnedWithStatus(userId, Locked))
    {
      var c := credits[i];
      assert credits[..i + 1][..i] == credits[..i];
      if c.status == Active {
        totalActive := totalActive + c.amount;
      }
      if c.status == Locked {
        totalLocked := totalLocked + c.amount;
      }
    }
    assert credits[..|credits|] == credits;
    OwnEntriesTotal(db.credits, userId, Active);
    OwnEntriesTotal(db.credits, userId, Locked);
    view := BalanceView(totalActive, totalLocked, credits);
  }

  /** The body of `GET /pricing`. */
  datatype Quote = Quote(creditBooster: int, earlyUnlock: int, premiumWallet: int)

  /** `GET /pricing`: exactly the three prices of the pricing provider. */
  function GetPricing(plans: seq<WalletPlan>): (q: Quote)
    ensures q.creditBooster == CreditBoosterPrice(plans)
    ensures q.earlyUnlock == EarlyUnlockPrice(plans)
    ensures q.premiumWallet == PremiumWalletPrice(plans)
  {
    Quote(CreditBoosterPrice(plans), EarlyUnlockPrice(plans), PremiumWalletPrice(plans))
  }

  /** The price list does not change when an inactive plan is removed. */
  lemma PricingIgnoresInactivePlan(plans: seq<WalletPlan>, k: nat)
    requires k < |plans| && !plans[k].isActive
    ensures GetPricing(plans[..k] + plans[k + 1..]) == GetPricing(plans)
  {
    InactivePlanIgnored(plans, k, BoosterPlanId);
    InactivePlanIgnored(plans, k, EarlyUnlockPlanId);
    InactivePlanIgnored(plans, k, PremiumPlanId);
  }

  /** The audit record of a completed purchase that affected a number of credits. */
  function PurchaseRecord(userId: UserId, kind: TxType, price: int, creditsAffected: int, now: Day): (t: Transaction)
    ensures t.userId == userId && t.txType == kind && t.amount == price
    ensures t.status == Completed && t.currency == "INR"
    ensures t.metadata.creditsAffected == Some(creditsAffected)
    ensures t.metadata.planId.None? && t.paymentId.None?
    ensures t.createdAt == now
  {
    var draft := TxDraft(Some(userId), Some(TxTypeName(kind)), Some(price), None, Some("completed"), None,
                         NoTxMetadata.(creditsAffected := Some(creditsAffected)));
    TxTypeNameRoundTrip(kind);
    NewTransaction(draft, now).value
  }

  /**
   * `POST /boost`: boost the entry, then record one completed `credit_booster` transaction for the
   * booster price with the boosted amount. A rejected boost answers 400 and records nothing.
   */
  method PostBoost(db: Database, userId: UserId, creditId: nat, now: Day) returns (reply: Reply<Credit>)
    modifies db`credits, db`users, db`transactions
    ensures var step := BoostStep(old(db.credits), userId, creditId, BoosterMultiplier(db.settings), now);
      && (reply.Ok? <==> step.Success?)
      && (step.Failure? ==>
            && reply == Rejected(400, CannotBoost)
            && db.credits == old(db.credits) && db.users == old(db.users)
            && db.transactions == old(db.transactions))
      && (step.Success? ==>
            && reply.body == step.value
            && db.credits == old(db.credits)[creditId := step.value]
            && db.users == Refreshed(old(db.users), db.credits, userId)
            && db.transactions == old(db.transactions)
                 + [PurchaseRecord(userId, CreditBooster, CreditBoosterPrice(db.plans), step.value.amount, now)])
    ensures Synced(old(db.users), old(db.credits)) ==> Synced(db.users, db.credits)
  {
    var price := CreditBoosterPrice(db.plans);
    var boosted := BoostCredits(db, userId, creditId, now);
    if boosted.Failure? {
      return Rejected(400, boosted.error);
    }
    db.transactions := db.transactions + [PurchaseRecord(userId, CreditBooster, price, boosted.value.amount, now)];
    reply := Ok(boosted.value);
  }

  /**
   * `POST /early-unlock`: unlock the entry now, then record one completed `early_unlock`
   * transaction for the early-unlock price with the entry's amount. A rejection answers 400
   * and changes nothing.
   */
  method PostEarlyUnlock(db: Database, userId: UserId, creditId: nat, now: Day) returns (reply: Reply<Credit>)
    modifies db`credits, db`users, db`transactions
    ensures var step := EarlyUnlockStep(old(db.credits), userId, creditId, now);
      && (reply.Ok? <==> step.Success?)
      && (step.Failure? ==>
            && reply == Rejected(400, CannotUnlockEarly)
            && db.credits == old(db.credits) && db.users == old(db.users)
            && db.transactions == old(db.transactions))
      && (step.Success? ==>
            && reply.body == step.value
            && db.credits == old(db.credits)[creditId := step.value]
            && db.users == Refreshed(old(db.users), db.credits, userId)
            && db.transactions == old(db.transactions)
                 + [PurchaseRecord(userId, EarlyUnlock, EarlyUnlockPrice(db.plans), step.value.amount, now)])
    ensures Synced(old(db.users), old(db.credits)) ==> Synced(db.users, db.credits)
  {
    var price := EarlyUnlockPrice(db.plans);
    var unlocked := CreditService.EarlyUnlock(db, userId, creditId, now);
    if unlocked.Failure? {
      return Rejected(400, unlocked.error);
    }
    db.transactions := db.transactions + [PurchaseRecord(userId, EarlyUnlock, price, unlocked.value.amount, now)];
    reply := Ok(unlocked.value);
  }
}
