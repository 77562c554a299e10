/**
 * The audit-record document written after a monetized or credit-affecting action:
 * its enumerations, its defaults and the validation a record goes through on creation.
 */
module TransactionSchema {
  import opened Common

  datatype TxType = CreditBooster | EarlyUnlock | PremiumWalletSubscription | ProductPurchase | CreditEarned | ManualAdjustment

  datatype TxStatus = Pending | Completed | Failed | Refunded

  function TxTypeName(t: TxType): string {
    match t
    case CreditBooster => "credit_booster"
    case EarlyUnlock => "early_unlock"
    case PremiumWalletSubscription => "premium_wallet_subscription"
    case ProductPurchase => "product_purchase"
    case CreditEarned => "credit_earned"
    case ManualAdjustment => "manual_adjustment"
  }

  function TxStatusName(s: TxStatus): string {
    match s
    case Pending => "pending"
    case Completed => "completed"
    case Failed => "failed"
    case Refunded => "refunded"
  }

  const TxTypeNames: set<string> :=
    {"credit_booster", "early_unlock", "premium_wallet_subscription", "product_purchase", "credit_earned", "manual_adjustment"}
  const TxStatusNames: set<string> := {"pending", "completed", "failed", "refunded"}

  /** The `enum` check on `type`: exactly the six names are accepted. */
  function ParseTxType(s: string): (r: Option<TxType>)
    ensures r.Some? <==> s in TxTypeNames
    ensures r.Some? ==> TxTypeName(r.value) == s
  {
    if s == "credit_booster" then Some(CreditBooster)
    else if s == "early_unlock" then Some(EarlyUnlock)
    else if s == "premium_wallet_subscription" then Some(PremiumWalletSubscription)
    else if s == "product_purchase" then Some(ProductPurchase)
    else if s == "credit_earned" then Some(CreditEarned)
    else if s == "manual_adjustment" then Some(ManualAdjustment)
    else None
  }

  /** The `enum` check on `status`: exactly the four names are accepted. */
  function ParseTxStatus(s: string): (r: Option<TxStatus>)
    ensures r.Some? <==> s in TxStatusNames
    ensures r.Some? ==> TxStatusName(r.value) == s
  {
    if s == "pending" then Some(Pending)
    else if s == "completed" then Some(Completed)
    else if s == "failed" then Some(Failed)
    else if s == "refunded" then Some(Refunded)
    else None
  }

  /** Every type has a name that parses back to it, so the enumeration and its names agree. */
  lemma TxTypeNameRoundTrip(t: TxType)
    ensures ParseTxType(TxTypeName(t)) == Some(t)
  {
  }

  /** Every status has a name that parses back to it. */
  lemma TxStatusNameRoundTrip(s: TxStatus)
    ensures ParseTxStatus(TxStatusName(s)) == Some(s)
  {
  }

  /** Optional figures attached to an audit record. */
  datatype TxMetadata = TxMetadata(planId: Option<string>, creditsAffected: Option<int>, previousBalance: Option<int>, newBalance: Option<int>)

  const NoTxMetadata: TxMetadata := TxMetadata(None, None, None, None)

  /** A stored audit record, with every default already applied. */
  datatype Transaction = Transaction(
    userId: UserId,
    txType: TxType,
    amount: int,
    currency: string,
    status: TxStatus,
    paymentId: Option<string>,
    metadata: TxMetadata,
    createdAt: Day)

  /** The fields a caller passes to `Transaction.create({...})`. */
  datatype TxDraft = TxDraft(
    userId: Option<UserId>,
    txType: Option<string>,
    amount: Option<int>,
    currency: Option<string>,
    status: Option<string>,
    paymentId: Option<string>,
    metadata: TxMetadata)

  datatype TxSchemaError = TxRequired(path: string) | TxNotInEnum(path: string, value: string)

  /**
   * Creating and validating an audit record: `userId`, `type` and `amount` are required, `type` and
   * `status` must be enumeration names, `currency` defaults to INR, `status` to pending and
   * `createdAt` to the current day; the metadata figures stay optional.
   */
  function NewTransaction(d: TxDraft, now: Day): (r: Result<Transaction, TxSchemaError>)
    ensures r.Success? <==>
      && d.userId.Some? && d.amount.Some?
      && d.txType.Some? && d.txType.value in TxTypeNames
      && (d.status.None? || d.status.value in TxStatusNames)
    ensures r.Success? ==>
      && r.value.userId == d.userId.value
      && Some(r.value.txType) == ParseTxType(d.txType.value)
      && r.value.amount == d.amount.value
      && (d.currency.None? ==> r.value.currency == "INR")
      && (d.currency.Some? ==> r.value.currency == d.currency.value)
      && (d.status.None? ==> r.value.status == Pending)
      && (d.status.Some? ==> Some(r.value.status) == ParseTxStatus(d.status.value))
      && r.value.paymentId == d.paymentId
      && r.value.metadata == d.metadata
      && r.value.createdAt == now
  {
    if d.userId.None? then Failure(TxRequired("userId"))
    else if d.txType.None? then Failure(TxRequired("type"))
    else if ParseTxType(d.txType.value).None? then Failure(TxNotInEnum("type", d.txType.value))
    else if d.amount.None? then Failure(TxRequired("amount"))
    else if d.status.Some? && ParseTxStatus(d.status.value).None? then Failure(TxNotInEnum("status", d.status.value))
    else
      var status := if d.status.Some? then ParseTxStatus(d.status.value).value else Pending;
      Success(Transaction(d.userId.value, ParseTxType(d.txType.value).value, d.amount.value,
                          d.currency.GetOr("INR"), status, d.paymentId, d.metadata, now))
  }
}
