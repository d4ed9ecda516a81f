/** What the service's counters say after any sequence of calls, and how the record, the
    enums and the service fit together. */
module Accounting {
  import opened Wrappers
  import opened TransactionModel
  import opened Ingestion
  import StatusEnum
  import TypeEnum

  /** One call into the service, as it affects the counters. */
  datatype Call = Ingest(t: Transaction) | Batch(entries: seq<Option<Transaction>>)

  function Apply(c: Counters, call: Call): Counters
  {
    match call
    case Ingest(t) => AfterIngest(c, t)
    case Batch(entries) => AfterBatch(c, entries)
  }

  /** The counters after the calls, in order. */
  function Run(c: Counters, calls: seq<Call>): Counters
    decreases |calls|
  {
    if calls == [] then c else Run(Apply(c, calls[0]), calls[1..])
  }

  /** Single-record calls whose exception reached the caller: the record was received and
      never counted as published or failed. */
  function EscapedRejections(calls: seq<Call>): nat
    decreases |calls|
  {
    if calls == [] then 0
    else (if calls[0].Ingest? && !Accepts(calls[0].t) then 1 else 0) + EscapedRejections(calls[1..])
  }

  /** Received records not counted as published or failed. */
  function Uncounted(c: Counters): int
  {
    c.received - c.published - c.failed
  }

  /** Over any sequence of calls the three counters never decrease, and the received records
      that are neither published nor failed are exactly the rejected single-record calls: a batch
      counts each record it processes once, as published or as failed. */
  lemma {:induction false} RunAccounting(c: Counters, calls: seq<Call>)
    ensures var d := Run(c, calls);
      d.received >= c.received && d.published >= c.published && d.failed >= c.failed
    ensures Uncounted(Run(c, calls)) == Uncounted(c) + EscapedRejections(calls)
    decreases |calls|
  {
    if calls != [] {
      var next := Apply(c, calls[0]);
      if calls[0].Batch? {
        var k := NullIndex(calls[0].entries);
        assert Uncounted(next) == Uncounted(c) by {
          assert AcceptedCount(calls[0].entries[..k]) <= k;
        }
      }
      RunAccounting(next, calls[1..]);
    }
  }

  /** From a fresh service: published + failed never exceeds received, and equals it exactly
      when no single-record call has been rejected (every failure came through a batch). */
  lemma AccountingFromStart(calls: seq<Call>)
    ensures var d := Run(Counters(0, 0, 0), calls);
      && d.published + d.failed + EscapedRejections(calls) == d.received
      && Consistent(d)
      && (d.published + d.failed == d.received <==> EscapedRejections(calls) == 0)
      && 0.0 <= SuccessRate(d) <= 100.0
  {
    RunAccounting(Counters(0, 0, 0), calls);
  }

  /** A batch without null entries processes every record: received grows by its length,
      published by the count it returns, failed by the rest, and the count lies between 0 and
      the length. */
  lemma BatchWithoutNulls(c: Counters, entries: seq<Option<Transaction>>)
    requires forall j :: 0 <= j < |entries| ==> entries[j].Some?
    ensures BatchResult(entries).Success?
    ensures var n := BatchResult(entries).value;
      && 0 <= n <= |entries|
      && AfterBatch(c, entries) == Counters(c.received + |entries|, c.published + n, c.failed + (|entries| - n))
  {
    assert entries[..|entries|] == entries;
  }

  /** A well-formed record (one that satisfies the bean-validation constraints) always passes
      the service's validation. */
  lemma WellFormedAccepted(t: Transaction)
    requires WellFormed(t)
    ensures Accepts(t)
  {
  }

  /** The converse fails: validation looks at the amount only, so every record with a positive
      amount but no user id or no type gets through. */
  lemma AcceptedNotWellFormed(t: Transaction)
    requires t.amount.Some? && t.amount.value > 0.0 && (t.userId.None? || t.transactionType.None?)
    ensures Accepts(t) && !WellFormed(t)
  {
  }

  /** A freshly built record already carries a non-empty status and currency and a timestamp, so
      enrichment leaves it exactly as it is. */
  lemma FreshRecordNotEnriched(userId: string, amount: real, transactionType: string, freshId: string, built: Timestamp, now: Timestamp)
    ensures var t := Build(NewBuilder(userId, amount, transactionType), freshId, built);
      Enriched(t, now) == t
  {
  }

  /** Enrichment never moves a record out of a terminal (or any other named) status: a status
      that names an enum constant is non-empty and is kept. Only a null or empty status becomes
      PENDING, which is active and not terminal. */
  lemma EnrichedStatus(t: Transaction, now: Timestamp)
    ensures t.status.Some? && StatusEnum.ValueOf(t.status.value).Some? ==>
      Enriched(t, now).status == t.status
    ensures NullOrEmpty(t.status) ==>
      && Enriched(t, now).status.Some?
      && StatusEnum.ValueOf(Enriched(t, now).status.value) == Some(StatusEnum.Pending)
      && StatusEnum.IsActive(StatusEnum.Pending) && !StatusEnum.IsTerminal(StatusEnum.Pending)
  {
    EnrichedSpec(t, now);
    if t.status.Some? && StatusEnum.ValueOf(t.status.value).Some? {
      var s := StatusEnum.ValueOf(t.status.value).value;
      assert |StatusEnum.Name(s)| > 0;
      assert !NullOrEmpty(t.status);
    }
    StatusEnum.PendingIsActive();
  }

  /** A high-value amount is only logged: such a record is accepted. */
  lemma HighValueAccepted(t: Transaction)
    requires IsHighValue(t)
    ensures Accepts(t)
  {
  }

  /** A record with only a user id and an amount set. */
  function WithAmount(amount: Option<real>): Transaction
  {
    Transaction(None, Some("u1"), amount, None, None, None, None, None, None, None, None, None,
                None, None, None, None, None, None, None, None)
  }

  /** One record of 250 on a fresh service is enriched to PENDING and USD, received and
      published, for a success rate of 100. One of -5 is rejected as non-positive: received 1,
      published 0, and failed still 0, because only the batch loop counts failures. */
  lemma SingleRecordScenarios(now: Timestamp)
    ensures var e := Enriched(WithAmount(Some(250.0)), now);
      e.status == Some("PENDING") && e.currency == Some("USD")
    ensures var d := AfterIngest(Counters(0, 0, 0), WithAmount(Some(250.0)));
      d == Counters(1, 1, 0) && SuccessRate(d) == 100.0
    ensures ValidateTransaction(WithAmount(Some(-5.0))) == Fail(AmountNotPositive)
    ensures var d := AfterIngest(Counters(0, 0, 0), WithAmount(Some(-5.0)));
      d == Counters(1, 0, 0) && SuccessRate(d) == 0.0
  {
  }

  /** A batch of three with one non-positive amount: two succeed, one fails, and all three are
      received. A null in the middle instead ends the batch after the first record. */
  lemma BatchScenario()
    ensures var b := [Some(WithAmount(Some(250.0))), Some(WithAmount(Some(0.0))), Some(WithAmount(Some(10.0)))];
      BatchResult(b) == Success(2) && AfterBatch(Counters(0, 0, 0), b) == Counters(3, 2, 1)
    ensures var b := [Some(WithAmount(Some(250.0))), None, Some(WithAmount(Some(10.0)))];
      BatchResult(b) == Failure(NullTransaction) && AfterBatch(Counters(0, 0, 0), b) == Counters(1, 1, 0)
  {
    var b := [Some(WithAmount(Some(250.0))), Some(WithAmount(Some(0.0))), Some(WithAmount(Some(10.0)))];
    assert NullIndex(b) == 3;
    assert b[..3] == b && b[..2][..1] == b[..1];
    assert AcceptedCount(b[..1]) == 1;
    assert AcceptedCount(b[..2]) == 1;
    assert AcceptedCount(b) == 2;
    var n := [Some(WithAmount(Some(250.0))), None, Some(WithAmount(Some(10.0)))];
    assert NullIndex(n) == 1;
    assert n[..1] == [n[0]];
  }

  /** A record built with a type's enum name carries a type string that `valueOf` parses back
      to that type, and enrichment never alters it. */
  lemma BuiltTypeParses(userId: string, amount: real, k: TypeEnum.TransactionType, freshId: string, built: Timestamp, now: Timestamp)
    ensures var t := Build(NewBuilder(userId, amount, TypeEnum.Name(k)), freshId, built);
      && t.transactionType.Some?
      && TypeEnum.ValueOf(t.transactionType.value) == Some(k)
      && Enriched(t, now).transactionType == t.transactionType
  {
    TypeEnum.ValueOfName(k);
  }
}
