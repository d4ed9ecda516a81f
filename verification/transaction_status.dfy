/** The lifecycle states a transaction passes through in the event pipeline (TransactionStatus.java). */
module StatusEnum {
  import opened Wrappers
  import Enums

  datatype TransactionStatus =
    | Pending           // received, awaiting validation
    | Validating        // being validated
    | Validated         // passed validation, ready for settlement
    | ValidationFailed  // failed validation checks
    | FraudReview       // flagged as potentially fraudulent
    | Settling          // being settled
    | Settled           // settled
    | SettlementFailed  // settlement failed
    | Rejected          // rejected for fraud or policy
    | Cancelled         // cancelled by the user
    | Refunded          // refunded or reversed

  /** `values()`: the constants in declaration order. */
  function Values(): seq<TransactionStatus>
  {
    [Pending, Validating, Validated, ValidationFailed, FraudReview, Settling,
     Settled, SettlementFailed, Rejected, Cancelled, Refunded]
  }

  /** `name()`: the constant's identifier as written in the Java enum. */
  function Name(s: TransactionStatus): string
  {
    match s
    case Pending => "PENDING"
    case Validating => "VALIDATING"
    case Validated => "VALIDATED"
    case ValidationFailed => "VALIDATION_FAILED"
    case FraudReview => "FRAUD_REVIEW"
    case Settling => "SETTLING"
    case Settled => "SETTLED"
    case SettlementFailed => "SETTLEMENT_FAILED"
    case Rejected => "REJECTED"
    case Cancelled => "CANCELLED"
    case Refunded => "REFUNDED"
  }

  /** `valueOf(String)`: None where Java throws IllegalArgumentException. */
  function ValueOf(n: string): (r: Option<TransactionStatus>)
    ensures r.Some? ==> Name(r.value) == n
  {
    Enums.ValueNamed(Values(), Name, n)
  }

  /** `isTerminal()`: no further processing happens in this state. */
  predicate IsTerminal(s: TransactionStatus): (b: bool)
    ensures b <==> Name(s) in {"SETTLED", "REJECTED", "CANCELLED", "REFUNDED", "SETTLEMENT_FAILED"}
  {
    s == Settled || s == Rejected || s == Cancelled || s == Refunded || s == SettlementFailed
  }

  /** `isActive()`: the transaction can still be processed further. */
  predicate IsActive(s: TransactionStatus): (b: bool)
    ensures b <==> Name(s) in {"PENDING", "VALIDATING", "VALIDATED", "SETTLING"}
  {
    s == Pending || s == Validating || s == Validated || s == Settling
  }

  /** `values()` lists every constant exactly once. */
  lemma ValuesComplete(s: TransactionStatus)
    ensures s in Values()
    ensures |Values()| == 11
    ensures forall i, j :: 0 <= i < j < |Values()| ==> Values()[i] != Values()[j]
  {
  }


  /** Distinct constants have distinct names. */
  lemma NameInjective(a: TransactionStatus, b: TransactionStatus)
    ensures Name(a) == Name(b) ==> a == b
  {
  }

  /** `valueOf(s.name()) == s` for every status. */
  lemma ValueOfName(s: TransactionStatus)
    ensures ValueOf(Name(s)) == Some(s)
  {
    forall a, b | a in Values() && b in Values() && Name(a) == Name(b) ensures a == b {
      NameInjective(a, b);
    }
    ValuesComplete(s);
    Enums.ValueNamedOfName(Values(), Name, s);
  }

  /** No status is both terminal and active. */
  lemma TerminalNotActive(s: TransactionStatus)
    ensures !(IsTerminal(s) && IsActive(s))
  {
  }

  /** Every status is terminal or active, except VALIDATION_FAILED and FRAUD_REVIEW: the two
      statuses that are neither. */
  lemma NeitherTerminalNorActive(s: TransactionStatus)
    ensures !IsTerminal(s) && !IsActive(s) <==> s == ValidationFailed || s == FraudReview
  {
  }

  /** PENDING, the status a new or enriched record carries, is active and not terminal. */
  lemma PendingIsActive()
    ensures ValueOf("PENDING") == Some(Pending)
    ensures IsActive(Pending) && !IsTerminal(Pending)
  {
    ValueOfName(Pending);
  }
}
