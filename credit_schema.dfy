/**
 * The credit-entry document: its enumerations, its defaults and the validation
 * a document goes through when it is created.
 */
module CreditSchema {
  import opened Common

  /** Why an entry exists. */
  datatype CreditType = Earned | Boosted | Bonus | Redeemed | Expired | Adjustment | Refund

  /** How usable an entry currently is. */
  datatype CreditStatus = Locked | Active | Used | Expired

  function TypeName(t: CreditType): string {
    match t
    case Earned => "earned"
    case Boosted => "boosted"
    case Bonus => "bonus"
    case Redeemed => "redeemed"
    case Expired => "expired"
    case Adjustment => "adjustment"
    case Refund => "refund"
  }

  function StatusName(s: CreditStatus): string {
    match s
    case Locked => "locked"
    case Active => "active"
    case Used => "used"
    case Expired => "expired"
  }

  const TypeNames: set<string> := {"earned", "boosted", "bonus", "redeemed", "expired", "adjustment", "refund"}
  const StatusNames: set<string> := {"locked", "active", "used", "expired"}

  /** The `enum` check on `type`: exactly the seven names are accepted. */
  function ParseType(s: string): (r: Option<CreditType>)
    ensures r.Some? <==> s in TypeNames
    ensures r.Some? ==> TypeName(r.value) == s
  {
    if s == "earned" then Some(Earned)
    else if s == "boosted" then Some(Boosted)
    else if s == "bonus" then Some(Bonus)
    else if s == "redeemed" then Some(Redeemed)
    else if s == "expired" then Some(CreditType.Expired)
    else if s == "adjustment" then Some(Adjustment)
    else if s == "refund" then Some(Refund)
    else None
  }

  /** The `enum` check on `status`: exactly the four names are accepted. */
  function ParseStatus(s: string): (r: Option<CreditStatus>)
    ensures r.Some? <==> s in StatusNames
    ensures r.Some? ==> StatusName(r.value) == s
  {
    if s == "locked" then Some(Locked)
    else if s == "active" then Some(Active)
    else if s == "used" then Some(Used)
    else if s == "expired" then Some(CreditStatus.Expired)
    else None
  }

  /** Every type has a name that parses back to it, so the enumeration and its names agree. */
  lemma TypeNameRoundTrip(t: CreditType)
    ensures ParseType(TypeName(t)) == Some(t)
  {
  }

  /** Every status has a name that parses back to it. */
  lemma StatusNameRoundTrip(s: CreditStatus)
    ensures ParseStatus(StatusName(s)) == Some(s)
  {
  }

  /** Boost history and admin rationale kept on an entry. */
  datatype Metadata = Metadata(isBoosted: bool, originalAmount: Option<int>, boostDate: Option<Day>, adminNote: Option<string>)

  /** A stored credit entry, with every default already applied. */
  datatype Credit = Credit(
    userId: UserId,
    orderId: Option<nat>,
    amount: int,
    creditType: CreditType,
    status: CreditStatus,
    description: Option<string>,
    unlockDate: Option<Day>,
    expiryDate: Option<Day>,
    metadata: Metadata,
    createdAt: Day)

  /** The metadata a caller passes when it builds a document; any part may be left out. */
  datatype MetadataDraft = MetadataDraft(isBoosted: Option<bool>, originalAmount: Option<int>, boostDate: Option<Day>, adminNote: Option<string>)

  const NoMetadata: MetadataDraft := MetadataDraft(None, None, None, None)

  /** The fields a caller passes to `new Credit({...})`; enumerated fields still as text. */
  datatype CreditDraft = CreditDraft(
    userId: Option<UserId>,
    orderId: Option<nat>,
    amount: Option<int>,
    creditType: Option<string>,
    status: Option<string>,
    description: Option<string>,
    unlockDate: Option<Day>,
    expiryDate: Option<Day>,
    metadata: MetadataDraft)

  datatype SchemaError = Required(path: string) | NotInEnum(path: string, value: string)

  /**
   * Creating and validating a document: `userId`, `amount` and `type` are required, `type` and
   * `status` must be enumeration names, `status` defaults to locked, `metadata.isBoosted` to false
   * and `createdAt` to the current day.
   */
  function NewCredit(d: CreditDraft, now: Day): (r: Result<Credit, SchemaError>)
    ensures r.Success? <==>
      && d.userId.Some? && d.amount.Some?
      && d.creditType.Some? && d.creditType.value in TypeNames
      && (d.status.None? || d.status.value in StatusNames)
    ensures r.Success? ==>
      && r.value.userId == d.userId.value
      && r.value.orderId == d.orderId
      && r.value.amount == d.amount.value
      && Some(r.value.creditType) == ParseType(d.creditType.value)
      && (d.status.None? ==> r.value.status == Locked)
      && (d.status.Some? ==> Some(r.value.status) == ParseStatus(d.status.value))
      && r.value.description == d.description
      && r.value.unlockDate == d.unlockDate
      && r.value.expiryDate == d.expiryDate
      && (r.value.metadata.isBoosted <==> d.metadata.isBoosted == Some(true))
      && r.value.metadata.originalAmount == d.metadata.originalAmount
      && r.value.metadata.boostDate == d.metadata.boostDate
      && r.value.metadata.adminNote == d.metadata.adminNote
      && r.value.createdAt == now
  {
    if d.userId.None? then Failure(Required("userId"))
    else if d.amount.None? then Failure(Required("amount"))
    else if d.creditType.None? then Failure(Required("type"))
    else if ParseType(d.creditType.value).None? then Failure(NotInEnum("type", d.creditType.value))
    else if d.status.Some? && ParseStatus(d.status.value).None? then Failure(NotInEnum("status", d.status.value))
    else
      var status := if d.status.Some? then ParseStatus(d.status.value).value else Locked;
      var meta := Metadata(d.metadata.isBoosted.GetOr(false), d.metadata.originalAmount,
                           d.metadata.boostDate, d.metadata.adminNote);
      Success(Credit(d.userId.value, d.orderId, d.amount.value, ParseType(d.creditType.value).value,
                     status, d.description, d.unlockDate, d.expiryDate, meta, now))
  }
}
