/**
 * The credit engine: the earn rate and booster multiplier read from the settings store, the
 * operations that create or change ledger entries, and the wallet refresh that follows each of them.
 */
module CreditService {
  import opened Common
  import opened CreditSchema
  import opened Config
  import Pricing
  import opened Ledger

  const PointsSettingKey: string := "pointsPer100"
  const BoosterSettingKey: string := "creditBooster"
  const MultiplierField: string := "multiplier"

  const DefaultPointsPer100: int := 5
  const DefaultMultiplier: int := 2
  const UnlockDelayDays: int := 7
  const ExpiryAfterUnlockDays: int := 90
  const ManualExpiryDays: int := 90

  const CannotBoost: string := "Credit cannot be boosted"
  const CannotUnlockEarly: string := "Credit cannot be unlocked early"

  // ---------------------------------------------------------------------------
  // Rates read from the settings store
  // ---------------------------------------------------------------------------

  /** An earn rate as points per 100 currency units; a non-numeric setting yields NaN. */
  datatype EarnRate = PointsPer100(points: int) | NotANumber

  /** The `pointsPer100` setting divided by 100 when it exists, otherwise 0.05. */
  function CreditRate(settings: seq<SettingDoc>): EarnRate {
    match FindSetting(settings, PointsSettingKey)
    case None => PointsPer100(DefaultPointsPer100)
    case Some(v) =>
      match ToNumber(v)
      case Some(n) => PointsPer100(n)
      case None => NotANumber
  }

  /** Without a `pointsPer100` setting the rate is 0.05, the same rate the pricing provider reports. */
  lemma DefaultCreditRate(settings: seq<SettingDoc>)
    requires forall i | 0 <= i < |settings| :: settings[i].key != PointsSettingKey
    ensures CreditRate(settings) == PointsPer100(5)
    ensures CreditRate(settings) == PointsPer100(Pricing.FixedCreditRate())
  {
    FindSettingSpec(settings, PointsSettingKey);
  }

  /**
   * Credits for an order: `floor(orderAmount * rate)`, characterised without division as the
   * largest whole number of credits worth no more than the order at that rate. NaN stays NaN.
   */
  function CreditsForOrder(settings: seq<SettingDoc>, orderAmount: int): (r: Option<int>)
    ensures r.Some? <==> CreditRate(settings).PointsPer100?
    ensures r.Some? ==>
      var p := CreditRate(settings).points;
      r.value * 100 <= orderAmount * p < r.value * 100 + 100
  {
    match CreditRate(settings)
    case PointsPer100(p) => Some((orderAmount * p) / 100)
    case NotANumber => None
  }

  /** An order of 2500 at the default rate earns 125 credits. */
  lemma DefaultRateExample(settings: seq<SettingDoc>)
    requires forall i | 0 <= i < |settings| :: settings[i].key != PointsSettingKey
    ensures CreditsForOrder(settings, 2500) == Some(125)
  {
    DefaultCreditRate(settings);
  }

  /** `setting.value.multiplier` of the `creditBooster` setting, when there is such a field. */
  function ConfiguredMultiplier(settings: seq<SettingDoc>): Option<int> {
    match FindSetting(settings, BoosterSettingKey)
    case Some(Fields(f)) => if MultiplierField in f then Some(f[MultiplierField]) else None
    case _ => None
  }

  /**
   * The booster multiplier: the configured one when it is present and truthy (non-zero),
   * otherwise 2; so a boost never multiplies by zero.
   */
  function BoosterMultiplier(settings: seq<SettingDoc>): (m: int)
    ensures m != 0
    ensures ConfiguredMultiplier(settings).Some? && ConfiguredMultiplier(settings).value != 0
            ==> m == ConfiguredMultiplier(settings).value
    ensures ConfiguredMultiplier(settings).None? || ConfiguredMultiplier(settings).value == 0
            ==> m == DefaultMultiplier
  {
    match ConfiguredMultiplier(settings)
    case Some(k) => if k != 0 then k else DefaultMultiplier
    case None => DefaultMultiplier
  }

  // ---------------------------------------------------------------------------
  // The wallet projection
  // ---------------------------------------------------------------------------

  /** The sum of a user's active amounts: what `totalCredits` must hold. */
  function ActiveSum(cs: seq<Credit>, u: UserId): int {
    Total(cs, OwnedWithStatus(u, Active))
  }

  /** The sum of a user's locked amounts: what `lockedCredits` must hold. */
  function LockedSum(cs: seq<Credit>, u: UserId): int {
    Total(cs, OwnedWithStatus(u, Locked))
  }

  /** The users after refreshing one user's wallet from the ledger; a missing user is left alone. */
  function Refreshed(users: map<UserId, Wallet>, cs: seq<Credit>, u: UserId): map<UserId, Wallet> {
    if u in users
    then users[u := users[u].(totalCredits := ActiveSum(cs, u), lockedCredits := LockedSum(cs, u))]
    else users
  }

  /** Every user's wallet projection equals the sums over that user's entries. */
  ghost predicate Synced(users: map<UserId, Wallet>, cs: seq<Credit>) {
    forall u | u in users :: users[u].totalCredits == ActiveSum(cs, u) && users[u].lockedCredits == LockedSum(cs, u)
  }

  /**
   * A refresh overwrites the user's two figures with the sums, keeps every other field and user,
   * and is idempotent: a second refresh over the same entries changes nothing.
   */
  lemma RefreshSpec(users: map<UserId, Wallet>, cs: seq<Credit>, u: UserId)
    ensures Refreshed(users, cs, u).Keys == users.Keys
    ensures u in users ==>
      && Refreshed(users, cs, u)[u].totalCredits == ActiveSum(cs, u)
      && Refreshed(users, cs, u)[u].lockedCredits == LockedSum(cs, u)
      && Refreshed(users, cs, u)[u].isPremium == users[u].isPremium
    ensures forall v | v in users && v != u :: Refreshed(users, cs, u)[v] == users[v]
    ensures Refreshed(Refreshed(users, cs, u), cs, u) == Refreshed(users, cs, u)
  {
  }

  /**
   * Only the owner's sums can change when an entry is appended; the owner's change by the entry's
   * amount in the sum of its status.
   */
  lemma AppendChangesOnlyOwner(cs: seq<Credit>, c: Credit)
    ensures forall v | v != c.userId :: ActiveSum(cs + [c], v) == ActiveSum(cs, v) && LockedSum(cs + [c], v) == LockedSum(cs, v)
    ensures ActiveSum(cs + [c], c.userId) == ActiveSum(cs, c.userId) + (if c.status == Active then c.amount else 0)
    ensures LockedSum(cs + [c], c.userId) == LockedSum(cs, c.userId) + (if c.status == Locked then c.amount else 0)
  {
    forall v
      ensures ActiveSum(cs + [c], v) == ActiveSum(cs, v) + Weight(c, OwnedWithStatus(v, Active))
      ensures LockedSum(cs + [c], v) == LockedSum(cs, v) + Weight(c, OwnedWithStatus(v, Locked))
    {
      TotalAppend(cs, c, OwnedWithStatus(v, Active));
      TotalAppend(cs, c, OwnedWithStatus(v, Locked));
    }
  }

  /**
   * Only the owner's sums can change when an entry is changed in place without changing owner;
   * the owner's change by the difference of the entry's old and new contribution.
   */
  lemma UpdateChangesOnlyOwner(cs: seq<Credit>, i: nat, c: Credit)
    requires i < |cs| && c.userId == cs[i].userId
    ensures forall v | v != c.userId :: ActiveSum(cs[i := c], v) == ActiveSum(cs, v) && LockedSum(cs[i := c], v) == LockedSum(cs, v)
    ensures ActiveSum(cs[i := c], c.userId) == ActiveSum(cs, c.userId)
              - (if cs[i].status == Active then cs[i].amount else 0) + (if c.status == Active then c.amount else 0)
    ensures LockedSum(cs[i := c], c.userId) == LockedSum(cs, c.userId)
              - (if cs[i].status == Locked then cs[i].amount else 0) + (if c.status == Locked then c.amount else 0)
  {
    forall v
      ensures ActiveSum(cs[i := c], v)
              == ActiveSum(cs, v) - Weight(cs[i], OwnedWithStatus(v, Active)) + Weight(c, OwnedWithStatus(v, Active))
      ensures LockedSum(cs[i := c], v)
              == LockedSum(cs, v) - Weight(cs[i], OwnedWithStatus(v, Locked)) + Weight(c, OwnedWithStatus(v, Locked))
    {
      TotalUpdate(cs, i, c, OwnedWithStatus(v, Active));
      TotalUpdate(cs, i, c, OwnedWithStatus(v, Locked));
    }
  }

  /** Appending an entry and refreshing its owner keeps every wallet in sync. */
  lemma AppendKeepsSync(users: map<UserId, Wallet>, cs: seq<Credit>, c: Credit)
    requires Synced(users, cs)
    ensures Synced(Refreshed(users, cs + [c], c.userId), cs + [c])
  {
    AppendChangesOnlyOwner(cs, c);
  }

  /** Changing an entry in place and refreshing its owner keeps every wallet in sync. */
  lemma UpdateKeepsSync(users: map<UserId, Wallet>, cs: seq<Credit>, i: nat, c: Credit)
    requires i < |cs| && c.userId == cs[i].userId
    requires Synced(users, cs)
    ensures Synced(Refreshed(users, cs[i := c], c.userId), cs[i := c])
  {
    UpdateChangesOnlyOwner(cs, i, c);
  }

  /** A new store, whose users all hold empty wallets and which has no entries yet, starts in sync. */
  lemma FreshStoreIsSynced(users: map<UserId, Wallet>)
    requires forall u | u in users :: users[u] == EmptyWallet
    ensures Synced(users, [])
  {
  }

  /** Used and expired entries count in neither sum: changing one into another such entry moves no balance. */
  lemma SpentEntriesDoNotCount(cs: seq<Credit>, i: nat, c: Credit, u: UserId)
    requires i < |cs|
    requires cs[i].status == Used || cs[i].status == CreditStatus.Expired
    requires c.status == Used || c.status == CreditStatus.Expired
    ensures ActiveSum(cs[i := c], u) == ActiveSum(cs, u)
    ensures LockedSum(cs[i := c], u) == LockedSum(cs, u)
  {
    TotalUpdate(cs, i, c, OwnedWithStatus(u, Active));
    TotalUpdate(cs, i, c, OwnedWithStatus(u, Locked));
  }

  /**
   * The loop of `updateUserWallet` over `Credit.find({ userId })`: active amounts go to the
   * total, locked ones to the locked figure, all others are skipped.
   */
  method TallyWallet(cs: seq<Credit>, userId: UserId) returns (totalCredits: int, lockedCredits: int)
    ensures totalCredits == ActiveSum(cs, userId)
    ensures lockedCredits == LockedSum(cs, userId)
  {
    var credits := UserEntries(cs, userId);
    totalCredits, lockedCredits := 0, 0;
    for i := 0 to |credits|
      invariant totalCredits == Total(credits[..i], OwnedWithStatus(userId, Active))
      invariant lockedCredits == Total(credits[..i], OwnedWithStatus(userId, Locked))
    {
      var c := credits[i];
      assert credits[..i + 1][..i] == credits[..i];
      if c.status == Active {
        totalCredits := totalCredits + c.amount;
      } else if c.status == Locked {
        lockedCredits := lockedCredits + c.amount;
      }
    }
    assert credits[..|credits|] == credits;
    OwnEntriesTotal(cs, userId, Active);
    OwnEntriesTotal(cs, userId, Locked);
  }

  /** Recompute the user's wallet from scratch and overwrite its two figures. */
  method UpdateUserWallet(db: Database, userId: UserId)
    modifies db`users
    ensures db.users == Refreshed(old(db.users), db.credits, userId)
  {
    var totalCredits, lockedCredits := TallyWallet(db.credits, userId);
    if userId in db.users {
      db.users := db.users[userId := db.users[userId].(totalCredits := totalCredits, lockedCredits := lockedCredits)];
    }
  }

  // ---------------------------------------------------------------------------
  // Creating entries
  // ---------------------------------------------------------------------------

  /** The entry an order earns: earned, locked, unlocking in 7 days and expiring 90 days after that. */
  function EarnedEntry(userId: UserId, orderId: Option<nat>, amount: int, now: Day): (c: Credit)
    ensures c.userId == userId && c.orderId == orderId && c.amount == amount
    ensures c.creditType == Earned && c.status == Locked
    ensures c.unlockDate == Some(now + 7) && c.expiryDate == Some(now + 7 + 90)
    ensures c.description == Some("Credits earned from order")
    ensures !c.metadata.isBoosted && c.metadata.originalAmount.None?
    ensures c.createdAt == now
  {
    var unlockDate := now + UnlockDelayDays;
    var draft := CreditDraft(Some(userId), orderId, Some(amount), Some("earned"), Some("locked"),
                             Some("Credits earned from order"), Some(unlockDate),
                             Some(unlockDate + ExpiryAfterUnlockDays), NoMetadata);
    NewCredit(draft, now).value
  }

  /** The entry an admin issues: an active adjustment, unlocked now, expiring in 90 days, noting the reason. */
  function ManualEntry(userId: UserId, amount: int, reason: Option<string>, now: Day): (c: Credit)
    ensures c.userId == userId && c.orderId.None? && c.amount == amount
    ensures c.creditType == Adjustment && c.status == Active
    ensures c.description == Some(OrElse(reason, "Manual adjustment"))
    ensures c.unlockDate == Some(now) && c.expiryDate == Some(now + 90)
    ensures c.metadata.adminNote == reason && !c.metadata.isBoosted
    ensures c.createdAt == now
  {
    var draft := CreditDraft(Some(userId), None, Some(amount), Some("adjustment"), Some("active"),
                             Some(OrElse(reason, "Manual adjustment")), Some(now),
                             Some(now + ManualExpiryDays), NoMetadata.(adminNote := reason));
    NewCredit(draft, now).value
  }

  /** Create the locked entry for an order and refresh the owner's wallet. */
  method CreateCreditEntry(db: Database, userId: UserId, orderId: Option<nat>, amount: int, now: Day)
    returns (credit: Credit)
    modifies db`credits, db`users
    ensures credit == EarnedEntry(userId, orderId, amount, now)
    ensures db.credits == old(db.credits) + [credit]
    ensures db.users == Refreshed(old(db.users), db.credits, userId)
    ensures Synced(old(db.users), old(db.credits)) ==> Synced(db.users, db.credits)
  {
    credit := EarnedEntry(userId, orderId, amount, now);
    ghost var users0, cs0 := db.users, db.credits;
    db.credits := db.credits + [credit];
    UpdateUserWallet(db, userId);
    if Synced(users0, cs0) {
      AppendKeepsSync(users0, cs0, credit);
    }
  }

  /**
   * Issue from an order: the credits the order earns at the current rate, as a new locked entry.
   * A non-numeric rate makes the amount NaN, which the store refuses, so nothing is created.
   */
  method IssueFromOrder(db: Database, userId: UserId, orderId: nat, orderAmount: int, now: Day)
    returns (r: Option<Credit>)
    modifies db`credits, db`users
    ensures r.Some? <==> CreditsForOrder(db.settings, orderAmount).Some?
    ensures r.None? ==> db.credits == old(db.credits) && db.users == old(db.users)
    ensures r.Some? ==>
      && r.value == EarnedEntry(userId, Some(orderId), CreditsForOrder(db.settings, orderAmount).value, now)
      && db.credits == old(db.credits) + [r.value]
      && db.users == Refreshed(old(db.users), db.credits, userId)
    ensures Synced(old(db.users), old(db.credits)) ==> Synced(db.users, db.credits)
  {
    var earned := CreditsForOrder(db.settings, orderAmount);
    if earned.None? {
      return None;
    }
    var credit := CreateCreditEntry(db, userId, Some(orderId), earned.value, now);
    r := Some(credit);
  }

  /** Issue credits by hand: an active adjustment entry, then a refresh of the owner's wallet. */
  method IssueManualCredits(db: Database, userId: UserId, amount: int, reason: Option<string>, now: Day)
    returns (credit: Credit)
    modifies db`credits, db`users
    ensures credit == ManualEntry(userId, amount, reason, now)
    ensures db.credits == old(db.credits) + [credit]
    ensures db.users == Refreshed(old(db.users), db.credits, userId)
    ensures Synced(old(db.users), old(db.credits)) ==> Synced(db.users, db.credits)
  {
    credit := ManualEntry(userId, amount, reason, now);
    ghost var users0, cs0 := db.users, db.credits;
    db.credits := db.credits + [credit];
    UpdateUserWallet(db, userId);
    if Synced(users0, cs0) {
      AppendKeepsSync(users0, cs0, credit);
    }
  }

  // ---------------------------------------------------------------------------
  // Changing entries in place
  // ---------------------------------------------------------------------------

  /** `findOne({ _id, userId })` finds the entry: it exists and belongs to the user. */
  predicate Owns(cs: seq<Credit>, userId: UserId, creditId: nat) {
    creditId < |cs| && cs[creditId].userId == userId
  }

  /** Scheduled unlock: a missing or non-locked entry gives nothing; otherwise only its status becomes active. */
  function UnlockStep(cs: seq<Credit>, creditId: nat): (r: Option<Credit>)
    ensures r.Some? <==> creditId < |cs| && cs[creditId].status == Locked
    ensures r.Some? ==> r.value.status == Active && r.value.(status := Locked) == cs[creditId]
  {
    if creditId < |cs| && cs[creditId].status == Locked
    then Some(cs[creditId].(status := Active))
    else None
  }

  /**
   * Boost: rejected when the entry is missing, someone else's, or already boosted (its status is
   * not looked at). Otherwise the amount is multiplied, the type becomes boosted and the metadata
   * records the boost; nothing else about the entry changes.
   */
  function BoostStep(cs: seq<Credit>, userId: UserId, creditId: nat, multiplier: int, now: Day): (r: Result<Credit, string>)
    ensures r.Failure? <==> !Owns(cs, userId, creditId) || cs[creditId].metadata.isBoosted
    ensures r.Failure? ==> r.error == CannotBoost
    ensures r.Success? ==>
      var c := cs[creditId];
      && r.value.amount == c.amount * multiplier
      && r.value.creditType == Boosted
      && r.value.metadata.isBoosted
      && r.value.metadata.originalAmount == Some(c.amount)
      && r.value.metadata.boostDate == Some(now)
      && r.value.metadata.adminNote == c.metadata.adminNote
      && r.value.(amount := c.amount, creditType := c.creditType, metadata := c.metadata) == c
  {
    if !Owns(cs, userId, creditId) || cs[creditId].metadata.isBoosted then Failure(CannotBoost)
    else
      var c := cs[creditId];
      Success(c.(amount := c.amount * multiplier, creditType := Boosted,
                 metadata := c.metadata.(isBoosted := true, originalAmount := Some(c.amount), boostDate := Some(now))))
  }

  /**
   * Early unlock: rejected unless the entry exists, is the user's and is locked. Otherwise it
   * becomes active with today's unlock date; amount, expiry and everything else stay.
   */
  function EarlyUnlockStep(cs: seq<Credit>, userId: UserId, creditId: nat, now: Day): (r: Result<Credit, string>)
    ensures r.Failure? <==> !Owns(cs, userId, creditId) || cs[creditId].status != Locked
    ensures r.Failure? ==> r.error == CannotUnlockEarly
    ensures r.Success? ==>
      && r.value.status == Active
      && r.value.unlockDate == Some(now)
      && r.value.(status := Locked, unlockDate := cs[creditId].unlockDate) == cs[creditId]
  {
    if !Owns(cs, userId, creditId) || cs[creditId].status != Locked then Failure(CannotUnlockEarly)
    else Success(cs[creditId].(status := Active, unlockDate := Some(now)))
  }

  /** A boosted entry can never be boosted again, whatever the multiplier or the day. */
  lemma SecondBoostRejects(cs: seq<Credit>, userId: UserId, creditId: nat, m: int, m': int, now: Day, later: Day)
    requires BoostStep(cs, userId, creditId, m, now).Success?
    ensures BoostStep(cs[creditId := BoostStep(cs, userId, creditId, m, now).value], userId, creditId, m', later)
            == Failure(CannotBoost)
  {
  }

  /** An entry unlocked early cannot be unlocked early a second time. */
  lemma SecondEarlyUnlockRejects(cs: seq<Credit>, userId: UserId, creditId: nat, now: Day, later: Day)
    requires EarlyUnlockStep(cs, userId, creditId, now).Success?
    ensures EarlyUnlockStep(cs[creditId := EarlyUnlockStep(cs, userId, creditId, now).value], userId, creditId, later)
            == Failure(CannotUnlockEarly)
  {
  }

  /** Unlocking moves the entry's amount from the owner's locked sum to the active sum; the two together stay. */
  lemma UnlockMovesLockedToActive(cs: seq<Credit>, creditId: nat)
    requires UnlockStep(cs, creditId).Some?
    ensures var c := cs[creditId]; var cs' := cs[creditId := UnlockStep(cs, creditId).value];
      && ActiveSum(cs', c.userId) == ActiveSum(cs, c.userId) + c.amount
      && LockedSum(cs', c.userId) == LockedSum(cs, c.userId) - c.amount
  {
    UpdateChangesOnlyOwner(cs, creditId, UnlockStep(cs, creditId).value);
  }

  /** Boosting an active entry raises the owner's active sum by the amount times (multiplier - 1). */
  lemma BoostRaisesActiveSum(cs: seq<Credit>, userId: UserId, creditId: nat, m: int, now: Day)
    requires BoostStep(cs, userId, creditId, m, now).Success?
    requires cs[creditId].status == Active
    ensures ActiveSum(cs[creditId := BoostStep(cs, userId, creditId, m, now).value], userId)
            == ActiveSum(cs, userId) + cs[creditId].amount * (m - 1)
  {
    UpdateChangesOnlyOwner(cs, creditId, BoostStep(cs, userId, creditId, m, now).value);
  }

  /** Scheduled unlock: a missing or non-locked entry changes nothing; otherwise it becomes active and the owner's wallet is refreshed. */
  method UnlockCredits(db: Database, creditId: nat) returns (r: Option<Credit>)
    modifies db`credits, db`users
    ensures r == UnlockStep(old(db.credits), creditId)
    ensures r.None? ==> db.credits == old(db.credits) && db.users == old(db.users)
    ensures r.Some? ==>
      && db.credits == old(db.credits)[creditId := r.value]
      && db.users == Refreshed(old(db.users), db.credits, r.value.userId)
    ensures Synced(old(db.users), old(db.credits)) ==> Synced(db.users, db.credits)
  {
    r := UnlockStep(db.credits, creditId);
    if r.None? {
      return;
    }
    ghost var users0, cs0 := db.users, db.credits;
    db.credits := db.credits[creditId := r.value];
    UpdateUserWallet(db, r.value.userId);
    if Synced(users0, cs0) {
      UpdateKeepsSync(users0, cs0, creditId, r.value);
    }
  }

  /** Boost one of the user's entries by the configured multiplier, then refresh the user's wallet. */
  method BoostCredits(db: Database, userId: UserId, creditId: nat, now: Day) returns (r: Result<Credit, string>)
    modifies db`credits, db`users
    ensures r == BoostStep(old(db.credits), userId, creditId, BoosterMultiplier(db.settings), now)
    ensures r.Failure? ==> db.credits == old(db.credits) && db.users == old(db.users)
    ensures r.Success? ==>
      && db.credits == old(db.credits)[creditId := r.value]
      && db.users == Refreshed(old(db.users), db.credits, userId)
    ensures Synced(old(db.users), old(db.credits)) ==> Synced(db.users, db.credits)
  {
    if !Owns(db.credits, userId, creditId) || db.credits[creditId].metadata.isBoosted {
      return Failure(CannotBoost);
    }
    var multiplier := BoosterMultiplier(db.settings);
    r := BoostStep(db.credits, userId, creditId, multiplier, now);
    ghost var users0, cs0 := db.users, db.credits;
    db.credits := db.credits[creditId := r.value];
    UpdateUserWallet(db, userId);
    if Synced(users0, cs0) {
      UpdateKeepsSync(users0, cs0, creditId, r.value);
    }
  }

  /** Unlock one of the user's locked entries today, then refresh the user's wallet. */
  method EarlyUnlock(db: Database, userId: UserId, creditId: nat, now: Day) returns (r: Result<Credit, string>)
    modifies db`credits, db`users
    ensures r == EarlyUnlockStep(old(db.credits), userId, creditId, now)
    ensures r.Failure? ==> db.credits == old(db.credits) && db.users == old(db.users)
    ensures r.Success? ==>
      && db.credits == old(db.credits)[creditId := r.value]
      && db.users == Refreshed(old(db.users), db.credits, userId)
    ensures Synced(old(db.users), old(db.credits)) ==> Synced(db.users, db.credits)
  {
    r := EarlyUnlockStep(db.credits, userId, creditId, now);
    if r.Failure? {
      return;
    }
    ghost var users0, cs0 := db.users, db.credits;
    db.credits := db.credits[creditId := r.value];
    UpdateUserWallet(db, userId);
    if Synced(users0, cs0) {
      UpdateKeepsSync(users0, cs0, creditId, r.value);
    }
  }
}
