/** The kinds of transaction the pipeline accepts (TransactionType.java). */
module TypeEnum {
  import opened Wrappers
  import Enums

  datatype TransactionType =
    | Deposit     // money added to the account
    | Withdrawal  // money taken from the account
    | Transfer    // between two accounts
    | Payment     // to a merchant
    | Refund      // from a merchant
    | Fee         // charged by the system
    | Interest    // credited by the system
    | Adjustment  // a correction

  /** `values()`: the constants in declaration order. */
  function Values(): seq<TransactionType>
  {
    [Deposit, Withdrawal, Transfer, Payment, Refund, Fee, Interest, Adjustment]
  }

  /** `name()`: the constant's identifier as written in the Java enum. */
  function Name(t: TransactionType): string
  {
    match t
    case Deposit => "DEPOSIT"
    case Withdrawal => "WITHDRAWAL"
    case Transfer => "TRANSFER"
    case Payment => "PAYMENT"
    case Refund => "REFUND"
    case Fee => "FEE"
    case Interest => "INTEREST"
    case Adjustment => "ADJUSTMENT"
  }

  /** `valueOf(String)`: None where Java throws IllegalArgumentException. */
  function ValueOf(n: string): (r: Option<TransactionType>)
    ensures r.Some? ==> Name(r.value) == n
  {
    Enums.ValueNamed(Values(), Name, n)
  }

  /** `isDebit()`: money leaves the source account. */
  predicate IsDebit(t: TransactionType): (b: bool)
    ensures b <==> Name(t) in {"WITHDRAWAL", "TRANSFER", "PAYMENT", "FEE"}
  {
    t == Withdrawal || t == Transfer || t == Payment || t == Fee
  }

  /** `isCredit()`: money arrives in the source account. */
  predicate IsCredit(t: TransactionType): (b: bool)
    ensures b <==> Name(t) in {"DEPOSIT", "REFUND", "INTEREST"}
  {
    t == Deposit || t == Refund || t == Interest
  }

  /** `values()` lists every constant exactly once. */
  lemma ValuesComplete(t: TransactionType)
    ensures t in Values()
    ensures |Values()| == 8
    ensures forall i, j :: 0 <= i < j < |Values()| ==> Values()[i] != Values()[j]
  {
  }


  /** Distinct constants have distinct names. */
  lemma NameInjective(a: TransactionType, b: TransactionType)
    ensures Name(a) == Name(b) ==> a == b
  {
  }

  /** `valueOf(t.name()) == t` for every type. */
  lemma ValueOfName(t: TransactionType)
    ensures ValueOf(Name(t)) == Some(t)
  {
    forall a, b | a in Values() && b in Values() && Name(a) == Name(b) ensures a == b {
      NameInjective(a, b);
    }
    ValuesComplete(t);
    Enums.ValueNamedOfName(Values(), Name, t);
  }

  /** No type is both debit and credit. */
  lemma DebitNotCredit(t: TransactionType)
    ensures !(IsDebit(t) && IsCredit(t))
  {
  }

  /** ADJUSTMENT is the one type that is neither debit nor credit; every other type is exactly one. */
  lemma DebitOrCredit(t: TransactionType)
    ensures t == Adjustment <==> !IsDebit(t) && !IsCredit(t)
    ensures t != Adjustment ==> IsDebit(t) != IsCredit(t)
  {
  }
}
