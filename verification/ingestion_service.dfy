/** The ingestion service: enrichment, validation and the received/published/failed counters
    (TransactionIngestionService.java). */
module Ingestion {
  import opened Wrappers
  import opened TransactionModel

  /** The return value of a successful `ingestTransaction`. */
  const AcceptedMessage: string := "Transaction accepted for processing"

  /** Amounts above this are logged as high-value; they are not rejected. */
  const HighValueThreshold: real := 100000.0

  /** The IllegalArgumentException `validateTransaction` throws, by its cause. */
  datatype ValidationError = AmountNull | AmountNotPositive

  /** What `ingestBatch` throws: the NullPointerException a null entry of the list raises. */
  datatype BatchError = NullTransaction

  /** Java's `s == null || s.isEmpty()`. */
  predicate NullOrEmpty(s: Option<string>)
  {
    s.None? || s.value == ""
  }

  // ---------------------------------------------------------------------------------------------
  // Enrichment and validation

  /** `enrichTransaction`: fill the timestamp when null, and the status and currency when null or
      empty. Caller-supplied values are kept and no other field changes. */
  function Enriched(t: Transaction, now: Timestamp): Transaction
  {
    t.(timestamp := if t.timestamp.None? then Some(now) else t.timestamp,
       status := if NullOrEmpty(t.status) then Some(DefaultStatus) else t.status,
       currency := if NullOrEmpty(t.currency) then Some(DefaultCurrency) else t.currency)
  }

  /** After enrichment the timestamp, status and currency are all present and non-empty; each
      one the caller supplied (non-null, and for the strings non-empty) is kept, each missing one
      gets its default, and every other field is unchanged. */
  lemma EnrichedSpec(t: Transaction, now: Timestamp)
    ensures var r := Enriched(t, now);
      && r.timestamp.Some? && !NullOrEmpty(r.status) && !NullOrEmpty(r.currency)
      && r.timestamp == (if t.timestamp.Some? then t.timestamp else Some(now))
      && r.status == (if NullOrEmpty(t.status) then Some(DefaultStatus) else t.status)
      && r.currency == (if NullOrEmpty(t.currency) then Some(DefaultCurrency) else t.currency)
      && r.(timestamp := t.timestamp, status := t.status, currency := t.currency) == t
  {
  }

  /** Enriching an enriched record changes nothing, whatever the clock says the second time. */
  lemma EnrichIdempotent(t: Transaction, now: Timestamp, later: Timestamp)
    ensures Enriched(Enriched(t, now), later) == Enriched(t, now)
  {
  }

  /** Enrichment leaves the amount alone, so validating the enriched record is validating the
      original. */
  lemma ValidateEnriched(t: Transaction, now: Timestamp)
    ensures ValidateTransaction(Enriched(t, now)) == ValidateTransaction(t)
  {
  }

  /** `validateTransaction`: throws exactly when the amount is null or not positive; a high
      amount is only logged. */
  function ValidateTransaction(t: Transaction): (r: Outcome<ValidationError>)
    ensures r.Pass? <==> t.amount.Some? && t.amount.value > 0.0
    ensures r == Fail(AmountNull) <==> t.amount.None?
  {
    if t.amount.None? then Fail(AmountNull)
    else if t.amount.value <= 0.0 then Fail(AmountNotPositive)
    else Pass
  }

  /** The record gets through `ingestTransaction` without an exception. */
  predicate Accepts(t: Transaction)
  {
    ValidateTransaction(t).Pass?
  }

  /** The condition under which validation logs a high-value warning. */
  predicate IsHighValue(t: Transaction)
  {
    t.amount.Some? && t.amount.value > HighValueThreshold
  }

  // ---------------------------------------------------------------------------------------------
  // The counters and what each operation does to them

  datatype Counters = Counters(received: nat, published: nat, failed: nat)

  /** Every outcome counted so far belongs to a received record. */
  predicate Consistent(c: Counters)
  {
    c.published + c.failed <= c.received
  }

  /** The counters after one `ingestTransaction`: received always, published only when the
      record is accepted, failed never. */
  function AfterIngest(c: Counters, t: Transaction): Counters
  {
    Counters(c.received + 1, if Accepts(t) then c.published + 1 else c.published, c.failed)
  }

  /** The position of the first null entry of a batch, or its length when there is none. */
  function NullIndex(s: seq<Option<Transaction>>): (k: nat)
    ensures k <= |s|
    ensures forall j :: 0 <= j < k ==> s[j].Some?
    ensures k < |s| ==> s[k].None?
  {
    if s == [] || s[0].None? then 0 else 1 + NullIndex(s[1..])
  }

  /** How many entries of `s` are records that validation accepts. */
  function AcceptedCount(s: seq<Option<Transaction>>): (n: nat)
    ensures n <= |s|
  {
    if s == [] then 0
    else
      var last := s[|s| - 1];
      AcceptedCount(s[..|s| - 1]) + if last.Some? && Accepts(last.value) then 1 else 0
  }

  /** A batch whose every entry is an accepted record counts all of them; one with none counts
      zero. */
  lemma {:induction false} AcceptedCountExtremes(s: seq<Option<Transaction>>)
    ensures (forall j :: 0 <= j < |s| ==> s[j].Some? && Accepts(s[j].value)) ==> AcceptedCount(s) == |s|
    ensures (forall j :: 0 <= j < |s| ==> s[j].None? || !Accepts(s[j].value)) ==> AcceptedCount(s) == 0
  {
    if s != [] {
      var init := s[..|s| - 1];
      assert forall j :: 0 <= j < |init| ==> init[j] == s[j];
      AcceptedCountExtremes(init);
    }
  }

  /** The counters after `ingestBatch`: only the entries before the first null are processed;
      each is received, and is then either published or failed. */
  function AfterBatch(c: Counters, s: seq<Option<Transaction>>): Counters
  {
    var k := NullIndex(s);
    var a := AcceptedCount(s[..k]);
    Counters(c.received + k, c.published + a, c.failed + (k - a))
  }

  /** What `ingestBatch` returns or throws. */
  function BatchResult(s: seq<Option<Transaction>>): Result<nat, BatchError>
  {
    if NullIndex(s) == |s| then Success(AcceptedCount(s)) else Failure(NullTransaction)
  }

  /** `calculateSuccessRate`: published as a percentage of received, and 100 before anything
      has been received. */
  function SuccessRate(c: Counters): (r: real)
    ensures c.received == 0 ==> r == 100.0
    ensures c.received > 0 ==> r * (c.received as real) == (c.published as real) * 100.0
    ensures c.published <= c.received ==> 0.0 <= r <= 100.0
  {
    if c.received == 0 then 100.0
    else (c.published as real * 100.0) / (c.received as real)
  }

  /** The snapshot `getStatistics` returns, without its wall-clock timestamp. */
  datatype Statistics = Statistics(totalReceived: nat, totalPublished: nat, totalFailed: nat, successRate: real)

  // ---------------------------------------------------------------------------------------------
  // The service object

  class TransactionIngestionService {
    var totalReceived: nat
    var totalPublished: nat
    var totalFailed: nat

    function Stats(): Counters
      reads this
    {
      Counters(totalReceived, totalPublished, totalFailed)
    }

    ghost predicate Valid()
      reads this
    {
      Consistent(Stats())
    }

    constructor ()
      ensures Valid() && Stats() == Counters(0, 0, 0)
    {
      totalReceived, totalPublished, totalFailed := 0, 0, 0;
    }

    /** `enrichTransaction`: the three conditional setter calls, applied to the record. */
    method EnrichTransaction(t: Transaction, now: Timestamp) returns (e: Transaction)
      ensures e == Enriched(t, now)
    {
      e := t;
      if e.timestamp.None? {
        e := e.(timestamp := Some(now));
      }
      if e.status.None? || e.status.value == "" {
        e := e.(status := Some(DefaultStatus));
      }
      if e.currency.None? || e.currency.value == "" {
        e := e.(currency := Some(DefaultCurrency));
      }
    }

    /** `ingestTransaction`: count the record as received, enrich it, validate it, and count it
        as published. A rejected record has still been received and enriched. */
    method IngestTransaction(t: Transaction, now: Timestamp) returns (enriched: Transaction, r: Result<string, ValidationError>)
      requires Valid()
      modifies this
      ensures Valid()
      ensures enriched == Enriched(t, now)
      ensures r.Success? <==> Accepts(t)
      ensures r.Success? ==> r.value == AcceptedMessage
      ensures r.Failure? ==> ValidateTransaction(t) == Fail(r.error)
      ensures Stats() == AfterIngest(old(Stats()), t)
    {
      totalReceived := totalReceived + 1;
      enriched := EnrichTransaction(t, now);
      var check := ValidateTransaction(enriched);
      if check.Fail? {
        r := Failure(check.error);
        return;
      }
      totalPublished := totalPublished + 1;
      r := Success(AcceptedMessage);
    }

    /** `ingestBatch`: ingest each entry in turn, counting a rejected record as failed and going
        on. A null entry throws from inside the catch block, which ends the batch there. Each
        processed entry is enriched in place; `clock(i)` is the time read for entry `i`. */
    method IngestBatch(txs: array<Option<Transaction>>, clock: nat -> Timestamp) returns (r: Result<nat, BatchError>)
      requires Valid()
      modifies this, txs
      ensures Valid()
      ensures r == BatchResult(old(txs[..]))
      ensures Stats() == AfterBatch(old(Stats()), old(txs[..]))
      ensures forall j :: 0 <= j < txs.Length ==>
        txs[j] == if j < NullIndex(old(txs[..])) then Some(Enriched(old(txs[j]).value, clock(j))) else old(txs[j])
    {
      ghost var s := txs[..];
      ghost var c := Stats();
      var successCount := 0;
      var i := 0;
      while i < txs.Length
        invariant 0 <= i <= txs.Length
        invariant Valid()
        invariant forall j :: 0 <= j < i ==> s[j].Some?
        invariant forall j :: 0 <= j < i ==> txs[j] == Some(Enriched(s[j].value, clock(j)))
        invariant forall j :: i <= j < txs.Length ==> txs[j] == s[j]
        invariant successCount == AcceptedCount(s[..i])
        invariant Stats() == Counters(c.received + i, c.published + successCount, c.failed + (i - successCount))
      {
        var entry := txs[i];
        if entry.None? {
          assert NullIndex(s) == i;
          assert s[..i] == s[..NullIndex(s)];
          r := Failure(NullTransaction);
          return;
        }
        var accepted := IngestEntry(txs, i, clock(i));
        assert s[..i + 1][..i] == s[..i];
        if accepted {
          successCount := successCount + 1;
        }
        i := i + 1;
      }
      assert NullIndex(s) == |s|;
      assert s[..i] == s;
      r := Success(successCount);
    }

    /** One pass of the batch loop's try/catch: ingest entry `i` in place, and count it as
        failed when it throws. */
    method IngestEntry(txs: array<Option<Transaction>>, i: nat, now: Timestamp) returns (accepted: bool)
      requires Valid() && i < txs.Length && txs[i].Some?
      modifies this, txs
      ensures Valid()
      ensures accepted == Accepts(old(txs[i]).value)
      ensures txs[..] == old(txs[..])[i := Some(Enriched(old(txs[i]).value, now))]
      ensures Stats() == if accepted then Counters(old(totalReceived) + 1, old(totalPublished) + 1, old(totalFailed))
                         else Counters(old(totalReceived) + 1, old(totalPublished), old(totalFailed) + 1)
    {
      var enriched, outcome := IngestTransaction(txs[i].value, now);
      txs[i] := Some(enriched);
      accepted := outcome.Success?;
      if !accepted {
        totalFailed := totalFailed + 1;
      }
    }

    /** `getStatistics`, without the wall-clock timestamp. */
    function GetStatistics(): (st: Statistics)
      reads this
      requires Valid()
      ensures st.totalReceived == totalReceived && st.totalPublished == totalPublished && st.totalFailed == totalFailed
      ensures st.successRate == SuccessRate(Stats())
      ensures 0.0 <= st.successRate <= 100.0
      ensures totalReceived == 0 ==> st.successRate == 100.0
    {
      Statistics(totalReceived, totalPublished, totalFailed, SuccessRate(Stats()))
    }
  }
}
