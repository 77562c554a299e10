/**
 * The record store the engine works on, and sums of credit amounts over a selection of entries.
 */
module Ledger {
  import opened Common
  import opened CreditSchema
  import opened TransactionSchema
  import opened Config
  import opened Pricing
  import opened RuleSchema

  /** The wallet projection held on a user record; `isPremium` belongs to billing and is only carried. */
  datatype Wallet = Wallet(totalCredits: int, lockedCredits: int, isPremium: bool)

  /** A new user's wallet: every figure at its schema default. */
  const EmptyWallet: Wallet := Wallet(0, 0, false)

  /**
   * The collections the engine reads and writes. A credit entry's id is its position in
   * `credits`, and a rule's its position in `rules`: entries are never deleted.
   */
  class Database {
    var credits: seq<Credit>
    var users: map<UserId, Wallet>
    var transactions: seq<Transaction>
    var settings: seq<SettingDoc>
    var plans: seq<WalletPlan>
    var rules: seq<Rule>

    /** A store with the given users (all wallets empty), settings, plans and rules, and no entries yet. */
    constructor (userIds: set<UserId>, settings: seq<SettingDoc>, plans: seq<WalletPlan>, rules: seq<Rule>)
      ensures credits == [] && transactions == []
      ensures users.Keys == userIds && forall u | u in users :: users[u] == EmptyWallet
      ensures this.settings == settings && this.plans == plans && this.rules == rules
    {
      credits := [];
      users := map u | u in userIds :: EmptyWallet;
      transactions := [];
      this.settings := settings;
      this.plans := plans;
      this.rules := rules;
    }
  }

  /** Which entries a sum runs over: one user's entries in one status, or entries of some types. */
  datatype Selection = OwnedWithStatus(user: UserId, status: CreditStatus) | OfTypes(types: set<CreditType>)

  predicate Selects(sel: Selection, c: Credit) {
    match sel
    case OwnedWithStatus(u, st) => c.userId == u && c.status == st
    case OfTypes(ts) => c.creditType in ts
  }

  /** What one entry adds to a sum. */
  function Weight(c: Credit, sel: Selection): int {
    if Selects(sel, c) then c.amount else 0
  }

  /** The sum of the amounts of the selected entries. */
  function Total(cs: seq<Credit>, sel: Selection): int {
    if cs == [] then 0 else Total(cs[..|cs| - 1], sel) + Weight(cs[|cs| - 1], sel)
  }

  /** Appending an entry adds exactly its own weight. */
  lemma TotalAppend(cs: seq<Credit>, c: Credit, sel: Selection)
    ensures Total(cs + [c], sel) == Total(cs, sel) + Weight(c, sel)
  {
    assert (cs + [c])[..|cs|] == cs;
  }

  /** Replacing one entry changes the sum by the difference of the two weights, and nothing else. */
  lemma {:induction false} TotalUpdate(cs: seq<Credit>, i: nat, c: Credit, sel: Selection)
    requires i < |cs|
    ensures Total(cs[i := c], sel) == Total(cs, sel) - Weight(cs[i], sel) + Weight(c, sel)
  {
    var n := |cs| - 1;
    if i == n {
      assert cs[i := c][..n] == cs[..n];
    } else {
      TotalUpdate(cs[..n], i, c, sel);
      assert cs[i := c][..n] == cs[..n][i := c];
    }
  }

  /** A sum with no selected entry is zero. */
  lemma {:induction false} TotalOfUnselected(cs: seq<Credit>, sel: Selection)
    requires forall i | 0 <= i < |cs| :: !Selects(sel, cs[i])
    ensures Total(cs, sel) == 0
  {
    if cs != [] {
      TotalOfUnselected(cs[..|cs| - 1], sel);
    }
  }

  /** `Credit.find({ userId })`: that user's entries, in store order. */
  function UserEntries(cs: seq<Credit>, u: UserId): (r: seq<Credit>)
    ensures forall i | 0 <= i < |r| :: r[i].userId == u
  {
    if cs == [] then []
    else UserEntries(cs[..|cs| - 1], u) + (if cs[|cs| - 1].userId == u then [cs[|cs| - 1]] else [])
  }

  /** The user's entries are exactly the store's entries of that user, in the same order. */
  lemma {:induction false} UserEntriesMembers(cs: seq<Credit>, u: UserId, c: Credit)
    ensures c in UserEntries(cs, u) <==> c in cs && c.userId == u
  {
    if cs != [] {
      var n := |cs| - 1;
      UserEntriesMembers(cs[..n], u, c);
      assert cs == cs[..n] + [cs[n]];
    }
  }

  /** Summing one user's entries by status over `find({ userId })` gives the same as over the whole store. */
  lemma {:induction false} OwnEntriesTotal(cs: seq<Credit>, u: UserId, st: CreditStatus)
    ensures Total(UserEntries(cs, u), OwnedWithStatus(u, st)) == Total(cs, OwnedWithStatus(u, st))
  {
    if cs != [] {
      var n := |cs| - 1;
      OwnEntriesTotal(cs[..n], u, st);
      if cs[n].userId == u {
        TotalAppend(UserEntries(cs[..n], u), cs[n], OwnedWithStatus(u, st));
      } else {
        assert UserEntries(cs[..n], u) + [] == UserEntries(cs[..n], u);
        assert Weight(cs[n], OwnedWithStatus(u, st)) == 0;
      }
    }
  }
}
