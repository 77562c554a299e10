/**
 * The admin endpoints that touch the engine: manual issue and revoke, the settings listing and
 * upsert, the rule toggle, and the issued/redeemed/expired totals of the stats view.
 */
module AdminRoutes {
  import opened Common
  import opened CreditSchema
  import opened TransactionSchema
  import opened Config
  import opened Ledger
  import opened CreditService
  import opened RuleSchema
  import CreditRoutes

  function Abs(x: int): nat {
    if x < 0 then -x else x
  }

  // ---------------------------------------------------------------------------
  // Manual issue and revoke
  // ---------------------------------------------------------------------------

  const InvalidAction: string := "Invalid action"

  /**
   * The entry a revocation records: the negated magnitude of the amount as an active adjustment,
   * described by the reason or `Manual revocation`, with no dates and default metadata.
   */
  function RevocationEntry(userId: UserId, amount: int, reason: Option<string>, now: Day): (c: Credit)
    ensures c.userId == userId && c.orderId.None?
    ensures c.amount <= 0 && Abs(c.amount) == Abs(amount)
    ensures c.creditType == Adjustment && c.status == Active
    ensures c.description == Some(OrElse(reason, "Manual revocation"))
    ensures c.unlockDate.None? && c.expiryDate.None?
    ensures !c.metadata.isBoosted && c.metadata.adminNote.None?
    ensures c.createdAt == now
  {
    var draft := CreditDraft(Some(userId), None, Some(-1 * Abs(amount)), Some("adjustment"), Some("active"),
                             Some(OrElse(reason, "Manual revocation")), None, None, NoMetadata);
    NewCredit(draft, now).value
  }

  /**
   * A revocation lowers the user's active sum by the magnitude of the amount, with no floor:
   * revoking 50 from a user with nothing active leaves -50.
   */
  lemma RevocationLowersBalance(cs: seq<Credit>, userId: UserId, amount: int, reason: Option<string>, now: Day)
    ensures ActiveSum(cs + [RevocationEntry(userId, amount, reason, now)], userId) == ActiveSum(cs, userId) - Abs(amount)
    ensures ActiveSum(cs, userId) == 0 && amount == 50 ==>
              ActiveSum(cs + [RevocationEntry(userId, amount, reason, now)], userId) == -50
  {
    AppendChangesOnlyOwner(cs, RevocationEntry(userId, amount, reason, now));
  }

  /**
   * `POST /users/:userId/credits/adjust`: `issue` delegates to the manual issue, `revoke` records a
   * negative adjustment without looking at the balance, and any other action answers 400 and
   * changes nothing. Both recording branches refresh the user's wallet.
   */
  method AdjustCredits(db: Database, userId: UserId, amount: int, reason: Option<string>, action: string, now: Day)
    returns (reply: Reply<Credit>)
    modifies db`credits, db`users
    ensures action == "issue" ==>
      && reply == Ok(ManualEntry(userId, amount, reason, now))
      && db.credits == old(db.credits) + [reply.body]
    ensures action == "revoke" ==>
      && reply == Ok(RevocationEntry(userId, amount, reason, now))
      && db.credits == old(db.credits) + [reply.body]
    ensures reply.Ok? ==> db.users == Refreshed(old(db.users), db.credits, userId)
    ensures action != "issue" && action != "revoke" ==>
      && reply == Rejected(400, InvalidAction)
      && db.credits == old(db.credits) && db.users == old(db.users)
    ensures Synced(old(db.users), old(db.credits)) ==> Synced(db.users, db.credits)
  {
    if action == "issue" {
      var credit := IssueManualCredits(db, userId, amount, reason, now);
      reply := Ok(credit);
    } else if action == "revoke" {
      var credit := RevocationEntry(userId, amount, reason, now);
      ghost var users0, cs0 := db.users, db.credits;
      db.credits := db.credits + [credit];
      UpdateUserWallet(db, userId);
      if Synced(users0, cs0) {
        AppendKeepsSync(users0, cs0, credit);
      }
      reply := Ok(credit);
    } else {
      reply := Rejected(400, InvalidAction);
    }
  }

  // ---------------------------------------------------------------------------
  // Settings
  // ---------------------------------------------------------------------------

  /** The key-to-value object built from the stored settings, a later document overwriting an earlier one. */
  function SettingsMap(docs: seq<SettingDoc>): map<string, SettingValue> {
    if docs == [] then map[]
    else SettingsMap(docs[..|docs| - 1])[docs[|docs| - 1].key := docs[|docs| - 1].value]
  }

  /**
   * The listing binds exactly the stored keys, and when keys are unique (as the schema demands)
   * each one to its document's value.
   */
  lemma {:induction false} SettingsMapSpec(docs: seq<SettingDoc>)
    ensures forall k :: k in SettingsMap(docs) <==> exists i | 0 <= i < |docs| :: docs[i].key == k
    ensures UniqueKeys(docs) ==> forall i | 0 <= i < |docs| :: SettingsMap(docs)[docs[i].key] == docs[i].value
  {
    if docs != [] {
      var n := |docs| - 1;
      var front := docs[..n];
      SettingsMapSpec(front);
      assert forall i | 0 <= i < n :: front[i] == docs[i];
      forall k ensures k in SettingsMap(docs) <==> exists i | 0 <= i < |docs| :: docs[i].key == k {
        if k in SettingsMap(front) {
          var i :| 0 <= i < n && front[i].key == k;
          assert docs[i].key == k;
        }
        if k != docs[n].key && exists i | 0 <= i < |docs| :: docs[i].key == k {
          var i :| 0 <= i < |docs| && docs[i].key == k;
          assert front[i].key == k;
        }
      }
      if UniqueKeys(docs) {
        assert UniqueKeys(front);
      }
    }
  }

  /** With unique keys the listing agrees with the engine's own lookup, key by key. */
  lemma ListingAgreesWithLookup(docs: seq<SettingDoc>, k: string)
    requires UniqueKeys(docs)
    ensures k in SettingsMap(docs) <==> FindSetting(docs, k).Some?
    ensures k in SettingsMap(docs) ==> SettingsMap(docs)[k] == FindSetting(docs, k).value
  {
    SettingsMapSpec(docs);
    FindSettingSpec(docs, k);
  }

  /** `GET /settings`: fill a key-to-value object from the stored settings, one document at a time. */
  method ListSettings(db: Database) returns (settingsMap: map<string, SettingValue>)
    ensures settingsMap == SettingsMap(db.settings)
  {
    var settings := db.settings;
    settingsMap := map[];
    for i := 0 to |settings|
      invariant settingsMap == SettingsMap(settings[..i])
    {
      assert settings[..i + 1][..i] == settings[..i];
      settingsMap := settingsMap[settings[i].key := settings[i].value];
    }
    assert settings[..|settings|] == settings;
  }

  /** `findOneAndUpdate({ key }, { value, updatedAt }, { upsert: true })`: update the first match, else append. */
  function UpsertSetting(docs: seq<SettingDoc>, key: string, value: SettingValue, now: Day): seq<SettingDoc> {
    if docs == [] then [SettingDoc(key, value, now)]
    else if docs[0].key == key then [docs[0].(value := value, updatedAt := now)] + docs[1..]
    else [docs[0]] + UpsertSetting(docs[1..], key, value, now)
  }

  function KeySet(docs: seq<SettingDoc>): set<string> {
    set i | 0 <= i < |docs| :: docs[i].key
  }

  /** An upsert adds the key to the stored keys and no other. */
  lemma {:induction false} UpsertKeys(docs: seq<SettingDoc>, key: string, value: SettingValue, now: Day)
    ensures KeySet(UpsertSetting(docs, key, value, now)) == KeySet(docs) + {key}
  {
    if docs == [] {
      assert UpsertSetting(docs, key, value, now)[0].key == key;
    } else {
      var r := UpsertSetting(docs, key, value, now);
      if docs[0].key == key {
        forall k | k in KeySet(r) ensures k in KeySet(docs) + {key} {
          var i :| 0 <= i < |r| && r[i].key == k;
          if i > 0 { assert docs[i].key == k; }
        }
        forall k | k in KeySet(docs) + {key} ensures k in KeySet(r) {
          if k == key { assert r[0].key == k; }
          else { var i :| 0 <= i < |docs| && docs[i].key == k; assert r[i].key == k; }
        }
      } else {
        var tail := docs[1..];
        var rt := UpsertSetting(tail, key, value, now);
        UpsertKeys(tail, key, value, now);
        assert r == [docs[0]] + rt;
        forall k | k in KeySet(r) ensures k in KeySet(docs) + {key} {
          var i :| 0 <= i < |r| && r[i].key == k;
          if i == 0 { assert docs[0].key == k; }
          else {
            assert rt[i - 1].key == k;
            assert k in KeySet(rt);
            if k != key { var j :| 0 <= j < |tail| && tail[j].key == k; assert docs[j + 1].key == k; }
          }
        }
        forall k | k in KeySet(docs) + {key} ensures k in KeySet(r) {
          if k == key {
            assert k in KeySet(rt);
            var j :| 0 <= j < |rt| && rt[j].key == k;
            assert r[j + 1].key == k;
          } else {
            var i :| 0 <= i < |docs| && docs[i].key == k;
            if i == 0 { assert r[0].key == k; }
            else {
              assert tail[i - 1].key == k;
              assert k in KeySet(rt);
              var j :| 0 <= j < |rt| && rt[j].key == k;
              assert r[j + 1].key == k;
            }
          }
        }
      }
    }
  }

  /**
   * After an upsert the key holds the new value, every other key keeps its value, and unique keys
   * stay unique, so exactly one setting with that key exists.
   */
  lemma {:induction false} UpsertSpec(docs: seq<SettingDoc>, key: string, value: SettingValue, now: Day)
    ensures FindSetting(UpsertSetting(docs, key, value, now), key) == Some(value)
    ensures forall k | k != key :: FindSetting(UpsertSetting(docs, key, value, now), k) == FindSetting(docs, k)
    ensures UniqueKeys(docs) ==> UniqueKeys(UpsertSetting(docs, key, value, now))
  {
    var r := UpsertSetting(docs, key, value, now);
    if docs != [] && docs[0].key != key {
      var tail := docs[1..];
      var rt := UpsertSetting(tail, key, value, now);
      UpsertSpec(tail, key, value, now);
      assert r == [docs[0]] + rt && r[1..] == rt;
      if UniqueKeys(docs) {
        assert UniqueKeys(tail);
        UpsertKeys(tail, key, value, now);
        assert docs[0].key !in KeySet(tail);
        assert docs[0].key !in KeySet(rt);
        forall i, j | 0 <= i < j < |r| ensures r[i].key != r[j].key {
          if i == 0 {
            assert r[j].key == rt[j - 1].key && rt[j - 1].key in KeySet(rt);
          } else {
            assert r[i] == rt[i - 1] && r[j] == rt[j - 1];
          }
        }
      }
    } else if docs != [] {
      assert r[1..] == docs[1..];
      if UniqueKeys(docs) {
        forall i, j | 0 <= i < j < |r| ensures r[i].key != r[j].key {
          assert r[j] == docs[j];
          if i > 0 { assert r[i] == docs[i]; }
        }
      }
    }
  }

  /** Setting `pointsPer100` through the admin endpoint sets the earn rate the engine uses. */
  lemma UpsertSetsEarnRate(docs: seq<SettingDoc>, points: int, now: Day)
    ensures CreditRate(UpsertSetting(docs, PointsSettingKey, Num(points), now)) == PointsPer100(points)
  {
    UpsertSpec(docs, PointsSettingKey, Num(points), now);
  }

  /** Saving a `creditBooster` object with a non-zero multiplier sets the booster multiplier the engine uses. */
  lemma UpsertSetsMultiplier(docs: seq<SettingDoc>, fields: map<string, int>, now: Day)
    requires MultiplierField in fields && fields[MultiplierField] != 0
    ensures BoosterMultiplier(UpsertSetting(docs, BoosterSettingKey, Fields(fields), now)) == fields[MultiplierField]
  {
    UpsertSpec(docs, BoosterSettingKey, Fields(fields), now);
  }

  /** `POST /settings`: upsert the setting by key and return the stored document. */
  method UpdateSetting(db: Database, key: string, value: SettingValue, now: Day) returns (doc: SettingDoc)
    modifies db`settings
    ensures db.settings == UpsertSetting(old(db.settings), key, value, now)
    ensures doc == SettingDoc(key, value, now)
  {
    db.settings := UpsertSetting(db.settings, key, value, now);
    doc := SettingDoc(key, value, now);
  }

  // ---------------------------------------------------------------------------
  // Rules
  // ---------------------------------------------------------------------------

  const RuleNotFound: string := "Rule not found"

  /** `PATCH /rules/:id/toggle`: flip the rule's `isActive` in place, or answer 404 for a missing rule. */
  method ToggleRule(db: Database, ruleId: nat) returns (reply: Reply<Rule>)
    modifies db`rules
    ensures ruleId >= |old(db.rules)| ==> reply == Rejected(404, RuleNotFound) && db.rules == old(db.rules)
    ensures ruleId < |old(db.rules)| ==>
      && reply.Ok?
      && reply.body.isActive == !old(db.rules[ruleId].isActive)
      && reply.body.(isActive := old(db.rules[ruleId].isActive)) == old(db.rules[ruleId])
      && db.rules == old(db.rules)[ruleId := reply.body]
  {
    if ruleId >= |db.rules| {
      return Rejected(404, RuleNotFound);
    }
    var rule := db.rules[ruleId];
    rule := rule.(isActive := !rule.isActive);
    db.rules := db.rules[ruleId := rule];
    reply := Ok(rule);
  }

  // ---------------------------------------------------------------------------
  // Stats
  // ---------------------------------------------------------------------------

  /** The entry types counted as issued. */
  const IssuedTypes: set<CreditType> := {Earned, Boosted, Bonus}

  function TotalIssued(cs: seq<Credit>): int {
    Total(cs, OfTypes(IssuedTypes))
  }

  function TotalRedeemed(cs: seq<Credit>): nat {
    Abs(Total(cs, OfTypes({Redeemed})))
  }

  function TotalExpired(cs: seq<Credit>): nat {
    Abs(Total(cs, OfTypes({CreditType.Expired})))
  }

  /** A subset has no more elements than its superset. */
  lemma {:induction false} SubsetCardinality<T>(a: set<T>, b: set<T>)
    requires a <= b
    ensures |a| <= |b|
  {
    if a != {} {
      var x :| x in a;
      SubsetCardinality(a - {x}, b - {x});
    }
  }

  /** Revenue from completed booster and premium-wallet transactions. */
  function BoostRevenue(txs: seq<Transaction>): int {
    if txs == [] then 0
    else
      var t := txs[|txs| - 1];
      BoostRevenue(txs[..|txs| - 1])
        + (if (t.txType == CreditBooster || t.txType == PremiumWalletSubscription) && t.status == Completed then t.amount else 0)
  }

  /** A percentage of the total issued: zero when nothing was issued, and otherwise exact (no rounding). */
  function Percentage(part: nat, whole: int): (r: real)
    ensures whole <= 0 ==> r == 0.0
    ensures whole > 0 ==> r * (whole as real) == (part as real) * 100.0
  {
    if whole > 0 then (part as real) * 100.0 / (whole as real) else 0.0
  }

  datatype Stats = Stats(totalIssued: int, totalRedeemed: nat, netRevenue: int, redemptionRate: real,
                         breakageRate: real, activePremiumWallets: nat, boostRevenue: int)

  /** The users whose wallet is marked premium: what `countDocuments({ 'wallet.isPremium': true })` counts. */
  function PremiumUsers(users: map<UserId, Wallet>): set<UserId> {
    set u | u in users && users[u].isPremium
  }

  /** `GET /credits/stats`, with the order revenue (a sum over orders) passed in. */
  function CreditStats(cs: seq<Credit>, txs: seq<Transaction>, users: map<UserId, Wallet>, orderRevenue: int): (r: Stats)
    ensures r.totalIssued == Total(cs, OfTypes({Earned, Boosted, Bonus}))
    ensures r.totalRedeemed == TotalRedeemed(cs)
    ensures r.boostRevenue == BoostRevenue(txs)
    ensures r.netRevenue == r.boostRevenue + orderRevenue
    ensures r.totalIssued <= 0 ==> r.redemptionRate == 0.0 && r.breakageRate == 0.0
    ensures r.totalIssued > 0 ==>
      && r.redemptionRate * (r.totalIssued as real) == (r.totalRedeemed as real) * 100.0
      && r.breakageRate * (r.totalIssued as real) == (TotalExpired(cs) as real) * 100.0
    ensures r.activePremiumWallets == |PremiumUsers(users)|
    // Two corollaries of the count above, stated for readers of the stats view:
    ensures r.activePremiumWallets <= |users.Keys|
    ensures (forall u | u in users :: !users[u].isPremium) ==> r.activePremiumWallets == 0
  {
    var issued := TotalIssued(cs);
    var redeemed, expired := TotalRedeemed(cs), TotalExpired(cs);
    var premium := PremiumUsers(users);
    SubsetCardinality(premium, users.Keys);
    Stats(issued, redeemed, BoostRevenue(txs) + orderRevenue,
          Percentage(redeemed, issued), Percentage(expired, issued),
          |premium|, BoostRevenue(txs))
  }

  /** Appending a transaction adds its amount to the revenue exactly when it is a completed booster or premium-wallet payment. */
  lemma BoostRevenueAppend(txs: seq<Transaction>, t: Transaction)
    ensures BoostRevenue(txs + [t]) == BoostRevenue(txs)
      + (if (t.txType == CreditBooster || t.txType == PremiumWalletSubscription) && t.status == Completed then t.amount else 0)
  {
    assert (txs + [t])[..|txs|] == txs;
  }

  /**
   * The record `POST /boost` writes raises the revenue by the booster price; the one
   * `POST /early-unlock` writes is not counted.
   */
  lemma PurchaseRecordRevenue(txs: seq<Transaction>, u: UserId, price: int, credits: int, now: Day)
    ensures BoostRevenue(txs + [CreditRoutes.PurchaseRecord(u, CreditBooster, price, credits, now)])
            == BoostRevenue(txs) + price
    ensures BoostRevenue(txs + [CreditRoutes.PurchaseRecord(u, TxType.EarlyUnlock, price, credits, now)])
            == BoostRevenue(txs)
  {
    BoostRevenueAppend(txs, CreditRoutes.PurchaseRecord(u, CreditBooster, price, credits, now));
    BoostRevenueAppend(txs, CreditRoutes.PurchaseRecord(u, TxType.EarlyUnlock, price, credits, now));
  }

  /** Total issued is the sum of the earned, boosted and bonus totals taken separately. */
  lemma {:induction false} IssuedSplitsByType(cs: seq<Credit>)
    ensures TotalIssued(cs) == Total(cs, OfTypes({Earned})) + Total(cs, OfTypes({Boosted})) + Total(cs, OfTypes({Bonus}))
  {
    if cs != [] {
      IssuedSplitsByType(cs[..|cs| - 1]);
    }
  }

  /**
   * Recording a manual issue or revocation, an adjustment, does not change the issued, redeemed or
   * expired totals. A later boost of that entry does: see `BoostedAdjustmentBecomesIssued`.
   */
  lemma AdjustmentsAreNotIssued(cs: seq<Credit>, c: Credit)
    requires c.creditType == Adjustment
    ensures TotalIssued(cs + [c]) == TotalIssued(cs)
    ensures TotalRedeemed(cs + [c]) == TotalRedeemed(cs)
    ensures TotalExpired(cs + [c]) == TotalExpired(cs)
  {
    TotalAppend(cs, c, OfTypes(IssuedTypes));
    TotalAppend(cs, c, OfTypes({Redeemed}));
    TotalAppend(cs, c, OfTypes({CreditType.Expired}));
  }

  /**
   * A boost checks only owner and `isBoosted`, so a manual issue or revocation can be boosted; it is
   * then retyped as boosted and its multiplied amount starts counting in total issued.
   */
  lemma BoostedAdjustmentBecomesIssued(cs: seq<Credit>, userId: UserId, creditId: nat, m: int, now: Day)
    requires BoostStep(cs, userId, creditId, m, now).Success?
    requires cs[creditId].creditType == Adjustment
    ensures TotalIssued(cs[creditId := BoostStep(cs, userId, creditId, m, now).value])
            == TotalIssued(cs) + cs[creditId].amount * m
  {
    TotalUpdate(cs, creditId, BoostStep(cs, userId, creditId, m, now).value, OfTypes(IssuedTypes));
  }

  /** Boosting a revocation of 50 succeeds and records -100, which then lowers total issued by 100. */
  lemma BoostedRevocationExample(cs: seq<Credit>, userId: UserId, reason: Option<string>, now: Day)
    ensures var cs' := cs + [RevocationEntry(userId, 50, reason, now)];
      && BoostStep(cs', userId, |cs|, 2, now).Success?
      && BoostStep(cs', userId, |cs|, 2, now).value.amount == -100
      && TotalIssued(cs'[|cs| := BoostStep(cs', userId, |cs|, 2, now).value]) == TotalIssued(cs) - 100
  {
    var c := RevocationEntry(userId, 50, reason, now);
    var cs' := cs + [c];
    AdjustmentsAreNotIssued(cs, c);
    BoostedAdjustmentBecomesIssued(cs', userId, |cs|, 2, now);
  }

  /** A redemption entry raises total redeemed by its magnitude when redemptions are recorded as negative amounts. */
  lemma RedemptionRaisesRedeemed(cs: seq<Credit>, c: Credit)
    requires c.creditType == Redeemed && c.amount <= 0
    requires Total(cs, OfTypes({Redeemed})) <= 0
    ensures TotalRedeemed(cs + [c]) == TotalRedeemed(cs) + Abs(c.amount)
  {
    TotalAppend(cs, c, OfTypes({Redeemed}));
  }

  /** Boosting an earned entry raises total issued by its amount times (multiplier - 1). */
  lemma BoostRaisesIssued(cs: seq<Credit>, userId: UserId, creditId: nat, m: int, now: Day)
    requires BoostStep(cs, userId, creditId, m, now).Success?
    requires cs[creditId].creditType in IssuedTypes
    ensures TotalIssued(cs[creditId := BoostStep(cs, userId, creditId, m, now).value])
            == TotalIssued(cs) + cs[creditId].amount * (m - 1)
  {
    TotalUpdate(cs, creditId, BoostStep(cs, userId, creditId, m, now).value, OfTypes(IssuedTypes));
  }

  /** With nothing issued both rates are zero. */
  lemma RatesWithoutIssuance(cs: seq<Credit>, txs: seq<Transaction>, users: map<UserId, Wallet>, orderRevenue: int)
    requires forall i | 0 <= i < |cs| :: cs[i].creditType !in IssuedTypes
    ensures CreditStats(cs, txs, users, orderRevenue).redemptionRate == 0.0
    ensures CreditStats(cs, txs, users, orderRevenue).breakageRate == 0.0
  {
    TotalOfUnselected(cs, OfTypes(IssuedTypes));
  }
}
