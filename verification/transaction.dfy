/** The transaction record shared by every service of the pipeline (Transaction.java). */
module TransactionModel {
  import opened Wrappers

  /** A `LocalDateTime`, as an opaque point in time. */
  type Timestamp = int

  /** The defaults the builder gives `status` and `currency` (also AppConstants' DEFAULT_STATUS
      and DEFAULT_CURRENCY). */
  const DefaultStatus: string := "PENDING"
  const DefaultCurrency: string := "USD"

  /** Every field of the record; None is Java's null. `amount` is a BigDecimal (an exact decimal),
      `fraudScore` a Double, both modelled as reals. */
  datatype Transaction = Transaction(
    transactionId: Option<string>,
    userId: Option<string>,
    amount: Option<real>,
    transactionType: Option<string>,
    targetAccountId: Option<string>,
    status: Option<string>,
    timestamp: Option<Timestamp>,
    merchantId: Option<string>,
    category: Option<string>,
    location: Option<string>,
    deviceId: Option<string>,
    ipAddress: Option<string>,
    currency: Option<string>,
    fraudFlag: Option<bool>,
    fraudScore: Option<real>,
    fraudReason: Option<string>,
    metadata: Option<string>,
    processedAt: Option<Timestamp>,
    settledAt: Option<Timestamp>,
    notes: Option<string>)

  /** A field that carries `@Builder.Default`: either never set on the builder, or set to a value
      (possibly null). */
  datatype Setting<T> = Unset | Set(value: Option<T>)

  /** `Transaction.builder()` after the caller's setter calls. A field that was never set holds
      None, exactly what `build()` gives it when it has no default. */
  datatype Builder = Builder(
    transactionId: Setting<string>,
    userId: Option<string>,
    amount: Option<real>,
    transactionType: Option<string>,
    targetAccountId: Option<string>,
    status: Setting<string>,
    timestamp: Setting<Timestamp>,
    merchantId: Option<string>,
    category: Option<string>,
    location: Option<string>,
    deviceId: Option<string>,
    ipAddress: Option<string>,
    currency: Setting<string>,
    fraudFlag: Setting<bool>,
    fraudScore: Option<real>,
    fraudReason: Option<string>,
    metadata: Option<string>,
    processedAt: Option<Timestamp>,
    settledAt: Option<Timestamp>,
    notes: Option<string>)

  /** A builder on which only the three required fields have been set. */
  function NewBuilder(userId: string, amount: real, transactionType: string): Builder
  {
    Builder(Unset, Some(userId), Some(amount), Some(transactionType), None, Unset, Unset,
            None, None, None, None, None, Unset, Unset, None, None, None, None, None, None)
  }

  /** The value of a defaulted field after `build()`. */
  function Resolve<T>(s: Setting<T>, default: T): Option<T>
  {
    if s.Unset? then Some(default) else s.value
  }

  /** `build()`. The random UUID and the clock reading used for unset `transactionId` and
      `timestamp` are parameters. */
  function Build(b: Builder, freshId: string, now: Timestamp): (t: Transaction)
    ensures b.transactionId.Unset? ==> t.transactionId == Some(freshId)
    ensures b.status.Unset? ==> t.status == Some(DefaultStatus)
    ensures b.timestamp.Unset? ==> t.timestamp == Some(now)
    ensures b.currency.Unset? ==> t.currency == Some(DefaultCurrency)
    ensures b.fraudFlag.Unset? ==> t.fraudFlag == Some(false)
    ensures b.transactionId.Set? ==> t.transactionId == b.transactionId.value
    ensures b.status.Set? ==> t.status == b.status.value
    ensures b.timestamp.Set? ==> t.timestamp == b.timestamp.value
    ensures b.currency.Set? ==> t.currency == b.currency.value
    ensures b.fraudFlag.Set? ==> t.fraudFlag == b.fraudFlag.value
    ensures t.userId == b.userId && t.amount == b.amount && t.transactionType == b.transactionType
    ensures t.targetAccountId == b.targetAccountId && t.merchantId == b.merchantId && t.category == b.category
    ensures t.location == b.location && t.deviceId == b.deviceId && t.ipAddress == b.ipAddress
    ensures t.fraudScore == b.fraudScore && t.fraudReason == b.fraudReason && t.metadata == b.metadata
    ensures t.processedAt == b.processedAt && t.settledAt == b.settledAt && t.notes == b.notes
  {
    Transaction(
      Resolve(b.transactionId, freshId), b.userId, b.amount, b.transactionType, b.targetAccountId,
      Resolve(b.status, DefaultStatus), Resolve(b.timestamp, now), b.merchantId, b.category,
      b.location, b.deviceId, b.ipAddress, Resolve(b.currency, DefaultCurrency),
      Resolve(b.fraudFlag, false), b.fraudScore, b.fraudReason, b.metadata, b.processedAt,
      b.settledAt, b.notes)
  }

  /** The messages of the bean-validation constraints a record violates: `@NotNull` userId,
      `@NotNull @Positive` amount and `@NotNull` transactionType. `@Positive` accepts null, so a
      null amount reports only its `@NotNull` message. */
  function Violations(t: Transaction): (v: set<string>)
    ensures "User ID cannot be null" in v <==> t.userId.None?
    ensures "Amount cannot be null" in v <==> t.amount.None?
    ensures "Amount must be positive" in v <==> t.amount.Some? && t.amount.value <= 0.0
    ensures "Transaction type cannot be null" in v <==> t.transactionType.None?
  {
    (if t.userId.None? then {"User ID cannot be null"} else {})
    + (if t.amount.None? then {"Amount cannot be null"}
       else if t.amount.value <= 0.0 then {"Amount must be positive"} else {})
    + (if t.transactionType.None? then {"Transaction type cannot be null"} else {})
  }

  /** The record passes bean validation: it violates none of the constraints. */
  predicate WellFormed(t: Transaction): (r: bool)
    ensures r <==> Violations(t) == {}
  {
    t.userId.Some? && t.amount.Some? && t.amount.value > 0.0 && t.transactionType.Some?
  }

  /** A record built with its three required fields set, the amount positive, is well-formed,
      and carries every default: PENDING, USD, not flagged, a fresh id and the build time. */
  lemma FreshRecord(userId: string, amount: real, transactionType: string, freshId: string, now: Timestamp)
    requires amount > 0.0
    ensures var t := Build(NewBuilder(userId, amount, transactionType), freshId, now);
      WellFormed(t) && t.status == Some(DefaultStatus) && t.currency == Some(DefaultCurrency) &&
      t.fraudFlag == Some(false) && t.transactionId == Some(freshId) && t.timestamp == Some(now)
  {
  }

  /** Whether a built record is well-formed depends only on the three constrained fields the
      caller set, never on the defaults. */
  lemma WellFormedBuild(b: Builder, freshId: string, now: Timestamp)
    ensures WellFormed(Build(b, freshId, now)) <==>
      b.userId.Some? && b.amount.Some? && b.amount.value > 0.0 && b.transactionType.Some?
  {
  }
}
