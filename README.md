# Credit ledger and wallet balances

This is a Dafny model of the credit engine behind the post-purchase monetisation backend. An order
earns credits, which start locked and unlock after 7 days. A user can pay to boost an entry or to
unlock it early. An admin can issue or revoke credits by hand, edit the rate settings, toggle
earning rules and read aggregate statistics. Each credit action (earning from an order, the
scheduled unlock, a boost, an early unlock, a manual issue or a revocation) either appends an entry
to the credit ledger or changes one in place. After that it recomputes the owner's wallet
projection (`totalCredits`, the active sum, and `lockedCredits`, the locked sum) from the ledger.
Editing a setting, toggling a rule and reading the statistics leave both the ledger and the wallets
alone.

The store is one `Ledger.Database` object with six collections: credit entries, user wallets,
audit transactions, settings documents, wallet plans and earning rules. Each service and route
operation is a method that changes only the collections it names. It is specified by a pure step
function (`BoostStep`, `EarlyUnlockStep`, `UnlockStep`, `UpsertSetting`) and by `Refreshed`, the
wallet projection after one user's refresh. The central invariant is `CreditService.Synced`: every
user's wallet equals the active and locked sums over that user's entries. Every operation that
writes the ledger is proved to keep it.

Modules follow the source files:

- `CreditSchema`: `models/Credit.js`
- `TransactionSchema`: `models/Transaction.js`
- `Config`: the settings store, `models/Setting.js`
- `Pricing`: `services/pricingService.js`
- `RuleSchema`: `models/Rule.js`
- `Ledger`: the store and the sums over entries
- `CreditService`: `services/creditService.js`
- `CreditRoutes`: `routes/creditRoutes.js`
- `AdminRoutes`: `routes/adminRoutes.js`
- `Common`: option and result types, plus JavaScript's `||` on optional strings

Modelling choices:

- Time is a whole number of days, and the current day is a parameter (`now`).
- An entry's id is its position in the ledger. Entries are never deleted.
- `findOne` returns the first matching document in store order.
- Amounts, prices and rates are integers. The earn rate is held as points per 100 currency
  units, and the model computes `floor(amount * points / 100)` exactly in whole numbers. The
  source floors a floating-point product instead (see "Left out").
- A setting whose value is an object gives JavaScript's NaN. The model represents it as
  `NotANumber` or `None`.

## Model

| member | source | states |
|---|---|---|
| CreditSchema.ParseType | backend/models/Credit.js:17-21 | a type name is accepted exactly when it is one of the seven enum names, and it maps back to that name |
| CreditSchema.ParseStatus | backend/models/Credit.js:22-26 | a status name is accepted exactly when it is one of the four enum names, and it maps back to that name |
| CreditSchema.TypeNameRoundTrip | backend/models/Credit.js:17-21 | every credit type's name parses back to that type |
| CreditSchema.StatusNameRoundTrip | backend/models/Credit.js:22-26 | every credit status's name parses back to that status |
| CreditSchema.NewCredit | backend/models/Credit.js:3-46 | creation succeeds exactly when userId, amount and a valid type are given and any status is valid; fields are copied, status defaults to locked, isBoosted defaults to false, createdAt is the current day |
| TransactionSchema.ParseTxType | backend/models/Transaction.js:9-13 | exactly the six type names are accepted, each mapping back to its name |
| TransactionSchema.ParseTxStatus | backend/models/Transaction.js:22-26 | exactly the four status names are accepted, each mapping back to its name |
| TransactionSchema.TxTypeNameRoundTrip | backend/models/Transaction.js:9-13 | every transaction type's name parses back to it |
| TransactionSchema.TxStatusNameRoundTrip | backend/models/Transaction.js:22-26 | every transaction status's name parses back to it |
| TransactionSchema.NewTransaction | backend/models/Transaction.js:3-38 | creation succeeds exactly when userId, amount and a valid type are given and any status is valid; currency defaults to INR and status to pending |
| Config.FindSettingSpec | backend/services/creditService.js:10 | `findOne({ key })` finds nothing exactly when no document has the key, and otherwise the first such document's value |
| Config.ToNumber | backend/services/creditService.js:13 | `Number(value)` is a number exactly for numeric values; an object gives NaN |
| Pricing.PlanPriceSpec | backend/services/pricingService.js:5-21 | a price lookup falls back to the default exactly when no active plan has the id, and otherwise is the first active plan's price |
| Pricing.InactivePlanIgnored | backend/services/pricingService.js:7 | removing an inactive plan changes no price lookup |
| Pricing.DefaultPrices | backend/services/pricingService.js:8-20 | with no active plans the booster, early-unlock and premium prices are 49, 29 and 99 |
| Pricing.FixedCreditRate | backend/services/pricingService.js:24-26 | the provider's rate is 5 per 100, i.e. one twentieth (0.05), whatever the configuration |
| Ledger.TotalAppend | backend/services/creditService.js:109-115 | appending an entry adds exactly its own weight to a sum |
| Ledger.TotalUpdate | backend/services/creditService.js:109-115 | changing one entry changes a sum by the new weight minus the old |
| Ledger.TotalOfUnselected | backend/routes/adminRoutes.js:20 | a sum with no matching entry is 0 |
| Ledger.UserEntries | backend/services/creditService.js:104 | `Credit.find({ userId })` returns only that user's entries |
| Ledger.UserEntriesMembers | backend/services/creditService.js:104 | an entry is in the user's listing exactly when it is in the store and belongs to the user |
| Ledger.OwnEntriesTotal | backend/services/creditService.js:104-115 | summing a user's entries by status over the listing gives the same as over the whole store |
| CreditService.DefaultCreditRate | backend/services/creditService.js:9-14 | without a pointsPer100 setting the rate is 5 per 100 (0.05), the rate the pricing provider reports |
| CreditService.CreditsForOrder | backend/services/creditService.js:17-20 | credits are the floor of amount times rate: the largest whole number not above it; a NaN rate gives no number |
| CreditService.DefaultRateExample | backend/services/creditService.js:17-20 | an order of 2500 earns 125 credits at the default rate |
| CreditService.BoosterMultiplier | backend/services/creditService.js:68-69 | the multiplier is the configured one when present and non-zero, otherwise 2, and never 0 |
| CreditService.RefreshSpec | backend/services/creditService.js:117-120 | a refresh sets the user's two figures to the sums, keeps isPremium and every other user, adds no user, and is idempotent |
| CreditService.AppendChangesOnlyOwner | backend/services/creditService.js:38-41 | appending an entry changes only its owner's sums, by its amount in the sum of its status |
| CreditService.UpdateChangesOnlyOwner | backend/services/creditService.js:51-53 | changing an entry in place changes only its owner's sums, by the new contribution minus the old |
| CreditService.AppendKeepsSync | backend/services/creditService.js:38-41 | appending an entry and refreshing its owner keeps every wallet in sync with the ledger |
| CreditService.UpdateKeepsSync | backend/services/creditService.js:79-80 | changing an entry and refreshing its owner keeps every wallet in sync with the ledger |
| CreditService.FreshStoreIsSynced | backend/models/User.js:16-28 | a store with no entries whose users all hold empty wallets is in sync, so the invariant holds from the start |
| CreditService.SpentEntriesDoNotCount | backend/services/creditService.js:110-114 | used and expired entries count in neither figure |
| CreditService.TallyWallet | backend/services/creditService.js:104-115 | the loop's total is the user's active sum and its locked figure the user's locked sum |
| CreditService.UpdateUserWallet | backend/services/creditService.js:103-121 | the user's wallet is overwritten with the recomputed sums; other users are untouched; a missing user is a no-op |
| CreditService.EarnedEntry | backend/services/creditService.js:24-36 | an order's entry is earned and locked, unlocks 7 days from now, expires 90 days after unlock, and is described as earned from an order |
| CreditService.ManualEntry | backend/services/creditService.js:125-136 | a manual entry is an active adjustment unlocked now, expiring in 90 days, described by the reason or "Manual adjustment", with the reason as admin note |
| CreditService.CreateCreditEntry | backend/services/creditService.js:23-44 | exactly one earned entry is appended, the owner's wallet is refreshed, and sync is kept |
| CreditService.IssueFromOrder | backend/services/creditService.js:17-44 | an order yields an entry exactly when the rate is a number; the entry holds the floor-rate credits; otherwise nothing changes |
| CreditService.IssueManualCredits | backend/services/creditService.js:124-141 | exactly one manual entry is appended, the owner's wallet is refreshed, and sync is kept |
| CreditService.UnlockStep | backend/services/creditService.js:47-51 | unlock succeeds exactly for an existing locked entry, and only its status changes, to active |
| CreditService.BoostStep | backend/services/creditService.js:58-77 | boost is refused exactly when the entry is missing, another user's or already boosted; otherwise amount times multiplier, type boosted, metadata records the boost, nothing else changes |
| CreditService.EarlyUnlockStep | backend/services/creditService.js:86-94 | early unlock is refused exactly when the entry is missing, another user's or not locked; otherwise active with today's unlock date, nothing else changes |
| CreditService.SecondBoostRejects | backend/services/creditService.js:62-64 | a boosted entry cannot be boosted again |
| CreditService.SecondEarlyUnlockRejects | backend/services/creditService.js:89-91 | an entry unlocked early cannot be unlocked early again |
| CreditService.UnlockMovesLockedToActive | backend/services/creditService.js:47-54 | unlocking moves the entry's amount from the locked sum to the active sum |
| CreditService.BoostRaisesActiveSum | backend/services/creditService.js:71-80 | boosting an active entry raises the active sum by amount times (multiplier - 1) |
| CreditService.UnlockCredits | backend/services/creditService.js:47-55 | the result is the unlock step; on failure nothing changes; on success the entry is replaced, its owner refreshed and sync kept |
| CreditService.BoostCredits | backend/services/creditService.js:58-83 | the result is the boost step with the configured multiplier; on failure nothing changes; on success the entry is replaced, the user refreshed and sync kept |
| CreditService.EarlyUnlock | backend/services/creditService.js:86-100 | the result is the early-unlock step; on failure nothing changes; on success the entry is replaced, the user refreshed and sync kept |
| CreditRoutes.GetUserCredits | backend/routes/creditRoutes.js:10-29 | the balance is the user's active sum, locked is the locked sum, and history is the user's entries; in a synced store balance and locked equal the figures stored on the user's wallet |
| CreditRoutes.GetPricing | backend/routes/creditRoutes.js:36-46 | the price list is exactly the three provider prices |
| CreditRoutes.PricingIgnoresInactivePlan | backend/routes/creditRoutes.js:36-46 | the price list ignores inactive plans |
| CreditRoutes.PurchaseRecord | backend/routes/creditRoutes.js:65-71 | a purchase record is a completed INR transaction of the given type and price, recording the credits affected |
| CreditRoutes.PostBoost | backend/routes/creditRoutes.js:53-77 | success exactly when the boost step succeeds; a refusal answers 400 and changes nothing; a success appends one booster transaction at the booster price with the boosted amount; sync is kept |
| CreditRoutes.PostEarlyUnlock | backend/routes/creditRoutes.js:80-101 | success exactly when the early-unlock step succeeds; a refusal answers 400 and changes nothing; a success appends one early-unlock transaction at the early-unlock price; sync is kept |
| AdminRoutes.RevocationEntry | backend/routes/adminRoutes.js:164-171 | a revocation is an active adjustment of minus the magnitude of the amount, described by the reason or "Manual revocation", with no dates |
| AdminRoutes.RevocationLowersBalance | backend/routes/adminRoutes.js:161-174 | a revocation lowers the active sum by the magnitude of the amount, with no floor at zero |
| AdminRoutes.AdjustCredits | backend/routes/adminRoutes.js:152-183 | "issue" appends the manual entry; "revoke" appends the revocation; either refreshes the user; any other action answers 400 and changes nothing; sync is kept |
| AdminRoutes.SettingsMapSpec | backend/routes/adminRoutes.js:192-197 | the listing binds exactly the stored keys, each to its document's value when keys are unique |
| AdminRoutes.ListingAgreesWithLookup | backend/routes/adminRoutes.js:192-197 | with unique keys the listing agrees with the engine's `findOne` lookup key by key |
| AdminRoutes.ListSettings | backend/routes/adminRoutes.js:190-198 | the loop builds the key-to-value listing of the stored settings |
| AdminRoutes.UpsertKeys | backend/routes/adminRoutes.js:208-212 | an upsert adds its key to the stored keys and no other |
| AdminRoutes.UpsertSpec | backend/routes/adminRoutes.js:208-212 | after an upsert the key holds the new value, other keys keep theirs, and unique keys stay unique |
| AdminRoutes.UpsertSetsEarnRate | backend/routes/adminRoutes.js:205-213 | saving a numeric pointsPer100 sets the earn rate the engine uses |
| AdminRoutes.UpsertSetsMultiplier | backend/routes/adminRoutes.js:205-213 | saving a creditBooster with a non-zero multiplier sets the multiplier the engine uses |
| AdminRoutes.UpdateSetting | backend/routes/adminRoutes.js:205-217 | the store becomes the upsert of the setting, and the stored document is returned |
| AdminRoutes.ToggleRule | backend/routes/adminRoutes.js:256-267 | a missing rule answers 404 and changes nothing; otherwise only isActive of that rule is negated |
| AdminRoutes.Percentage | backend/routes/adminRoutes.js:51-52 | a rate is 0 when nothing was issued, and otherwise the exact percentage of the total issued |
| AdminRoutes.IssuedSplitsByType | backend/routes/adminRoutes.js:16-20 | total issued is the sum of the earned, boosted and bonus totals |
| AdminRoutes.AdjustmentsAreNotIssued | backend/routes/adminRoutes.js:16-34 | recording a manual issue or revocation (an adjustment entry) does not change the issued, redeemed or expired totals |
| AdminRoutes.BoostedAdjustmentBecomesIssued | backend/services/creditService.js:62-74 | a boost does not look at the type, so a boosted adjustment is retyped as boosted and its multiplied amount enters total issued: the total moves by amount times the multiplier |
| AdminRoutes.BoostedRevocationExample | backend/routes/adminRoutes.js:17 | a revocation of 50 can be boosted; it becomes -100 and lowers total issued by 100 |
| AdminRoutes.RedemptionRaisesRedeemed | backend/routes/adminRoutes.js:22-27 | when redemptions are recorded as negative amounts, a new redemption raises total redeemed by its magnitude |
| AdminRoutes.BoostRevenueAppend | backend/routes/adminRoutes.js:36-41 | the one-step unfolding of the revenue sum that `PurchaseRecordRevenue` builds on: a new transaction adds its amount exactly when it is a completed booster or premium-wallet payment |
| AdminRoutes.PurchaseRecordRevenue | backend/routes/adminRoutes.js:36-41 | the record a boost purchase writes raises the revenue by the booster price; the record an early unlock writes is not counted |
| AdminRoutes.CreditStats | backend/routes/adminRoutes.js:13-68 | total issued sums the earned, boosted and bonus entries; total redeemed is the magnitude of the redeemed sum; the booster revenue is the sum over completed booster and premium-wallet transactions; net revenue is that plus the order revenue; each rate is 0 when nothing was issued and otherwise the exact percentage of the total issued; the premium count is the number of users whose wallet is premium |
| AdminRoutes.BoostRaisesIssued | backend/routes/adminRoutes.js:17 | boosting an issued-type entry raises total issued by amount times (multiplier - 1) |
| AdminRoutes.RatesWithoutIssuance | backend/routes/adminRoutes.js:51-52 | when no entry is of an issued type, both rates are 0 |

## Left out

- The frontend, server start-up and database connection are not part of this model.
- `routes/orderRoutes.js` is not part of this model. It calls `calculateCreditsForOrder` without
  `await` (backend/routes/orderRoutes.js:20), so it passes a promise as `creditsEarned`. That field
  is declared as a Number (backend/models/Order.js:47-50), and a promise does not cast to a number.
  So `order.save()` (backend/routes/orderRoutes.js:23) fails and the route answers 500. Neither the
  order nor its credit entry is created. `CreditService.IssueFromOrder` models the evident intent:
  compute the credits, then create the entry.
- `CreditService.CreditsForOrder`: the source computes `pointsPer100 / 100` and the floor of the
  order amount times that rate in binary floating point. The model computes in exact integers,
  so the two can differ. With pointsPer100 = 29 and an order of 100, JavaScript gives
  100 * 0.29 = 28.999999999999996 and floors it to 28. The model gives 29.
- Mongo aggregation pipelines are modelled as sums over the ledger. `populate`, `limit` and the
  trends, transactions-list, user-search and user-detail routes are not modelled.
- Sorting is not modelled. `GetUserCredits` returns history in store order, not newest first.
- Floating point is not modelled. Amounts, prices, multipliers and the earn rate are integers, so
  a fractional setting such as 0.5 points per 100 cannot be expressed.
- `AdminRoutes.Percentage`: the rates are exact reals. They are not rounded to one decimal place,
  and they are not turned into strings as `toFixed(1)` does.
- `AdminRoutes.CreditStats`: the order revenue, which is a sum over non-cancelled orders, is taken
  as a parameter.
- Dates are whole days. `date-fns` time-of-day arithmetic is not modelled.
- Concurrency between requests, and the window between saving an entry and refreshing the wallet,
  are not modelled.
- The transition of entries to expired has no code in the source, so it is not modelled.
  `CreditService.SpentEntriesDoNotCount` states what such a change would do to the sums.
- Requests without a userId are not modelled: user ids are always present.
- Amounts that `Number()` turns into NaN are not modelled.
- Setting values that are numeric strings, such as "5", are not modelled.
- Setting values are represented only as a number or an object of number-valued fields. Boolean,
  string and nested fields that the admin panel stores with a setting, such as `enabled`,
  `description` or `benefits`, are not represented, so `ListSettings` does not return them. The
  engine reads only `pointsPer100` and `multiplier`, and both are numbers.
- The 500 error paths are not modelled.
- The promotions routes are not modelled.
- Rule creation, deletion and listing are not modelled.
- The `POST /credits/issue` alias (backend/routes/adminRoutes.js:219-228) is not modelled
  separately. It performs the same manual issue as `AdjustCredits` with action "issue".
- Premium billing is not modelled. `isPremium` is carried on the wallet and counted in the stats.
- `CreditRoutes.PostBoost`, `CreditRoutes.PostEarlyUnlock`: payment processing is simulated in the
  source, and is not modelled.
