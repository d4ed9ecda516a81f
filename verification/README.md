# Transaction ingestion: a Dafny model

This project models the entry stage of the financial transaction simulator. It covers three
parts. The ingestion service receives a transaction record, fills in missing defaults
(enrichment), checks the amount (validation) and keeps three counters: received, published and
failed. It also ingests batches, isolating per-record failures, and reports a success rate. The
shared `Transaction` record has builder defaults and bean-validation constraints. The two
enums `TransactionStatus` and `TransactionType` have their classification predicates.

Modules, one per source file or concern:

- `Wrappers` (wrappers.dfy): `Option` for Java null, `Result` and `Outcome` for a return
  value or a thrown exception.
- `Enums` (enums.dfy): what every Java enum provides implicitly, `values()` order and
  `valueOf(String)`.
- `StatusEnum` and `TypeEnum`: the two enums, their `name()`, and
  `isTerminal`/`isActive` and `isDebit`/`isCredit`.
- `TransactionModel` (transaction.dfy): the record as a value with all 20 fields, the Lombok
  builder with its five `@Builder.Default` fields, and the constraints as `WellFormed`.
- `Ingestion` (ingestion_service.dfy): enrichment and validation as functions, the counters,
  and the class `TransactionIngestionService`. Its methods update the counters in place. The
  batch method enriches the entries of an array in place. Each method is proved against a pure
  function of the old state (`AfterIngest`, `AfterBatch`, `BatchResult`).
- `Accounting` (accounting.dfy): any sequence of calls as a `Call` list. It proves the
  accounting invariants over every history and the lemmas that link the record, the enums and
  the service.

Behaviour that follows the code rather than the intended pipeline design:

- Nothing is sent to the message log. `published` is incremented as soon as validation passes.
- A rejected single-record call is counted as received and never as failed. Only the batch loop
  counts failures. So `published + failed == received` holds exactly when no single-record
  call was rejected (`Accounting.AccountingFromStart`). One rejected record gives failed = 0,
  not 1 (`Accounting.SingleRecordScenarios`).
- A batch returns only a success count. There is no per-record error map, no retry and no
  status-transition graph.
- A null entry in a batch is not isolated. `ingestTransaction` dereferences it (line 32)
  before counting it as received. The catch block then dereferences it again (line 66), so the
  NullPointerException leaves `ingestBatch`. Records before the null keep their effects.
  The null entry and everything after it is not processed, and failed is not incremented
  (`Ingestion.NullIndex`, `Ingestion.BatchResult`).
- Validation only checks the amount. A record without a user id or type passes
  (`Accounting.AcceptedNotWellFormed`).

## Model

| member | source | states |
|---|---|---|
| `Ingestion.EnrichedSpec` | ingestion-service/src/main/java/com/saketh/simulator/ingestion/service/TransactionIngestionService.java:77-94 | After enrichment the timestamp, status and currency are present and non-empty. Caller-supplied values are kept. A null timestamp becomes the clock reading; a null or empty status becomes PENDING and a null or empty currency USD. No other field changes |
| `Ingestion.EnrichIdempotent` | ingestion-service/src/main/java/com/saketh/simulator/ingestion/service/TransactionIngestionService.java:77-94 | Enriching twice equals enriching once, whatever the second clock reading |
| `Ingestion.TransactionIngestionService.EnrichTransaction` | ingestion-service/src/main/java/com/saketh/simulator/ingestion/service/TransactionIngestionService.java:77-94 | The three conditional setter steps produce exactly the enriched record |
| `Ingestion.ValidateTransaction` | ingestion-service/src/main/java/com/saketh/simulator/ingestion/service/TransactionIngestionService.java:99-115 | Validation passes iff the amount is non-null and positive. It fails with the null-amount error iff the amount is null; otherwise it fails with the non-positive error |
| `Ingestion.ValidateEnriched` | ingestion-service/src/main/java/com/saketh/simulator/ingestion/service/TransactionIngestionService.java:38-41 | Validating the enriched record gives the same verdict as validating the original, because enrichment does not touch the amount |
| `Accounting.HighValueAccepted` | ingestion-service/src/main/java/com/saketh/simulator/ingestion/service/TransactionIngestionService.java:109-112 | An amount above 100000 is only logged: the record is accepted |
| `Ingestion.TransactionIngestionService.constructor` | ingestion-service/src/main/java/com/saketh/simulator/ingestion/service/TransactionIngestionService.java:24-26 | All three counters start at 0 |
| `Ingestion.TransactionIngestionService.IngestTransaction` | ingestion-service/src/main/java/com/saketh/simulator/ingestion/service/TransactionIngestionService.java:31-51 | received grows by 1 whatever happens. The returned record is the enriched one, even on rejection. The call succeeds with the acceptance message iff validation passes, otherwise it throws validation's error. published grows by 1 iff it succeeds; failed is unchanged |
| `Ingestion.NullIndex` | ingestion-service/src/main/java/com/saketh/simulator/ingestion/service/TransactionIngestionService.java:60-66 | The batch stops at the first null entry: the result is the index of that entry, or the length when there is none |
| `Ingestion.AcceptedCount` | ingestion-service/src/main/java/com/saketh/simulator/ingestion/service/TransactionIngestionService.java:59-63 | The number of accepted records in a batch is at most its length |
| `Ingestion.AcceptedCountExtremes` | ingestion-service/src/main/java/com/saketh/simulator/ingestion/service/TransactionIngestionService.java:59-68 | A batch of accepted records counts all of them, and one with no accepted records counts zero |
| `Ingestion.TransactionIngestionService.IngestBatch` | ingestion-service/src/main/java/com/saketh/simulator/ingestion/service/TransactionIngestionService.java:56-72 | Every entry before the first null is enriched in place with its own clock reading. Later entries are untouched. The result is the success count, or the null-entry exception. Counters move as `AfterBatch` says: received by the processed entries, published by the accepted ones, failed by the rest. The counter invariant is kept |
| `Ingestion.TransactionIngestionService.IngestEntry` | ingestion-service/src/main/java/com/saketh/simulator/ingestion/service/TransactionIngestionService.java:61-69 | One pass of the batch loop's try/catch on a non-null entry. The entry is replaced by its enriched record and nothing else in the list changes. The result says whether validation accepted it. received grows by 1, and then published grows by 1 if it was accepted, failed otherwise. The counter invariant is kept |
| `Accounting.BatchWithoutNulls` | ingestion-service/src/main/java/com/saketh/simulator/ingestion/service/TransactionIngestionService.java:56-72 | Without null entries every record is processed. The return value n satisfies 0 <= n <= N; received grows by N, published by n and failed by N - n |
| `Ingestion.SuccessRate` | ingestion-service/src/main/java/com/saketh/simulator/ingestion/service/TransactionIngestionService.java:131-137 | Exactly 100 when nothing was received. Otherwise rate * received = published * 100, and the rate lies in [0, 100] when published <= received |
| `Ingestion.TransactionIngestionService.GetStatistics` | ingestion-service/src/main/java/com/saketh/simulator/ingestion/service/TransactionIngestionService.java:120-129 | The snapshot holds the three counters and the success rate of those counters, which lies in [0, 100] and is 100 when nothing was received |
| `Accounting.RunAccounting` | ingestion-service/src/main/java/com/saketh/simulator/ingestion/service/TransactionIngestionService.java:24-72 | Over any sequence of calls no counter decreases. The received records counted neither published nor failed are exactly the rejected single-record calls |
| `Accounting.AccountingFromStart` | ingestion-service/src/main/java/com/saketh/simulator/ingestion/service/TransactionIngestionService.java:24-137 | From a fresh service published + failed <= received always holds, with equality iff no single-record call was rejected. The success rate stays in [0, 100] |
| `Accounting.SingleRecordScenarios` | ingestion-service/src/main/java/com/saketh/simulator/ingestion/service/TransactionIngestionService.java:31-51 | A record of 250 is enriched to PENDING/USD and gives counters (1, 1, 0) and rate 100. A record of -5 is rejected as non-positive and gives (1, 0, 0) and rate 0 |
| `Accounting.BatchScenario` | ingestion-service/src/main/java/com/saketh/simulator/ingestion/service/TransactionIngestionService.java:56-72 | A batch of three with one zero amount returns 2 and gives counters (3, 2, 1). A null second entry throws and leaves (1, 1, 0) |
| `Accounting.WellFormedAccepted` | common-models/src/main/java/com/saketh/simulator/common/model/Transaction.java:34-48 | Every record that satisfies the bean-validation constraints passes the service's validation |
| `Accounting.AcceptedNotWellFormed` | ingestion-service/src/main/java/com/saketh/simulator/ingestion/service/TransactionIngestionService.java:99-107 | Validation does not imply well-formedness: every record with a positive amount but no user id or no transaction type passes, though it breaks the `@NotNull` constraints |
| `Accounting.FreshRecordNotEnriched` | common-models/src/main/java/com/saketh/simulator/common/model/Transaction.java:58-97 | A freshly built record already has its status, currency and timestamp, so enrichment returns it unchanged |
| `Accounting.BuiltTypeParses` | common-models/src/main/java/com/saketh/simulator/common/model/Transaction.java:44-48 | A record built with a type's enum name holds a type string that `valueOf` parses back to that type, and enrichment leaves it unchanged |
| `Accounting.EnrichedStatus` | ingestion-service/src/main/java/com/saketh/simulator/ingestion/service/TransactionIngestionService.java:83-86 | A status naming an enum constant (terminal ones included) is never overwritten. A null or empty status becomes PENDING, which is active and not terminal |
| `TransactionModel.Build` | common-models/src/main/java/com/saketh/simulator/common/model/Transaction.java:28-103 | An unset defaulted field gets its default: a fresh id, PENDING, the build time, USD, fraudFlag false. A defaulted field set on the builder, even to null, keeps that value. Every other field, the three constrained ones included, is copied from the builder |
| `TransactionModel.FreshRecord` | common-models/src/main/java/com/saketh/simulator/common/model/Transaction.java:28-103 | A record built from its three required fields with a positive amount is well-formed and carries every default |
| `TransactionModel.Violations` | common-models/src/main/java/com/saketh/simulator/common/model/Transaction.java:34-48 | Each constraint's message is reported exactly when it is broken: a null userId, a null amount, a non-null amount that is not positive, a null transactionType. `@Positive` accepts null, so a null amount reports only the `@NotNull` message |
| `TransactionModel.WellFormed` | common-models/src/main/java/com/saketh/simulator/common/model/Transaction.java:34-48 | A record is well-formed exactly when bean validation reports no violation |
| `TransactionModel.WellFormedBuild` | common-models/src/main/java/com/saketh/simulator/common/model/Transaction.java:34-48 | A built record is well-formed iff the builder set userId, transactionType and a positive amount |
| `StatusEnum.ValueOf` | common-models/src/main/java/com/saketh/simulator/common/enums/TransactionStatus.java:6-61 | `valueOf` returns only a constant with the given name |
| `StatusEnum.ValuesComplete` | common-models/src/main/java/com/saketh/simulator/common/enums/TransactionStatus.java:6-61 | `values()` lists all 11 constants, each once |
| `StatusEnum.NameInjective` | common-models/src/main/java/com/saketh/simulator/common/enums/TransactionStatus.java:6-61 | Distinct constants have distinct names |
| `StatusEnum.ValueOfName` | common-models/src/main/java/com/saketh/simulator/common/enums/TransactionStatus.java:6-61 | `valueOf(s.name()) == s` for every status |
| `StatusEnum.TerminalNotActive` | common-models/src/main/java/com/saketh/simulator/common/enums/TransactionStatus.java:66-76 | No status is both terminal and active |
| `StatusEnum.IsTerminal` | common-models/src/main/java/com/saketh/simulator/common/enums/TransactionStatus.java:66-69 | A status is terminal exactly when its name is one of SETTLED, REJECTED, CANCELLED, REFUNDED and SETTLEMENT_FAILED |
| `StatusEnum.IsActive` | common-models/src/main/java/com/saketh/simulator/common/enums/TransactionStatus.java:74-76 | A status is active exactly when its name is one of PENDING, VALIDATING, VALIDATED and SETTLING |
| `StatusEnum.NeitherTerminalNorActive` | common-models/src/main/java/com/saketh/simulator/common/enums/TransactionStatus.java:26-76 | A status is neither terminal nor active iff it is VALIDATION_FAILED or FRAUD_REVIEW |
| `StatusEnum.PendingIsActive` | common-models/src/main/java/com/saketh/simulator/common/enums/TransactionStatus.java:11-76 | The name PENDING maps to the PENDING constant, which is active and not terminal |
| `TypeEnum.ValueOf` | common-models/src/main/java/com/saketh/simulator/common/enums/TransactionType.java:6-45 | `valueOf` returns only a constant with the given name |
| `TypeEnum.ValuesComplete` | common-models/src/main/java/com/saketh/simulator/common/enums/TransactionType.java:6-45 | `values()` lists all 8 constants, each once |
| `TypeEnum.NameInjective` | common-models/src/main/java/com/saketh/simulator/common/enums/TransactionType.java:6-45 | Distinct constants have distinct names |
| `TypeEnum.ValueOfName` | common-models/src/main/java/com/saketh/simulator/common/enums/TransactionType.java:6-45 | `valueOf(t.name()) == t` for every type |
| `TypeEnum.DebitNotCredit` | common-models/src/main/java/com/saketh/simulator/common/enums/TransactionType.java:51-60 | No type is both debit and credit |
| `TypeEnum.IsDebit` | common-models/src/main/java/com/saketh/simulator/common/enums/TransactionType.java:51-53 | A type is a debit exactly when its name is one of WITHDRAWAL, TRANSFER, PAYMENT and FEE |
| `TypeEnum.IsCredit` | common-models/src/main/java/com/saketh/simulator/common/enums/TransactionType.java:58-60 | A type is a credit exactly when its name is one of DEPOSIT, REFUND and INTEREST |
| `TypeEnum.DebitOrCredit` | common-models/src/main/java/com/saketh/simulator/common/enums/TransactionType.java:46-60 | ADJUSTMENT is neither debit nor credit, and iff so. Every other type is exactly one of the two |

## Left out

- Concurrency: the `AtomicLong` counters are plain sequential fields. Each call runs to completion before the next.
- Counter width: the counters are unbounded naturals. A 64-bit `long` overflow is not modelled; it would need 2^63 calls. The batch's `int` success count cannot overflow, because it never exceeds the list size.
- Floating point: amounts are exact reals. The `doubleValue()` rounding in validation is not modelled, so neither is the rejection of a tiny positive BigDecimal that rounds to 0.0. The success rate is an exact real, not a double.
- Clock and randomness: `LocalDateTime.now()` and `UUID.randomUUID()` are parameters. The batch takes one clock reading per entry, as `clock(i)`. The `timestamp` entry of `getStatistics` is dropped.
- Logging: every debug, info, warn and error message is dropped. The high-value warning survives only as the `IsHighValue` predicate.
- Ingestion.TransactionIngestionService.IngestBatch: the list is an array of record values, so one Java object appearing twice in the list (aliasing) is not modelled. The HTTP layer deserialises each entry into its own object, so this never arises from that caller.
- Ingestion.TransactionIngestionService.IngestTransaction: the record cannot be null. A null argument would throw a NullPointerException at line 32, before any counter moves. The only outside caller, the HTTP controller, never passes null, because its request body is required (TransactionController.java:45).
- Ingestion.TransactionIngestionService.IngestBatch: the list cannot be null. A null list would throw at line 57 before anything happens. The controller's required request body (TransactionController.java:79) never passes one. Null entries inside the list are modelled.
- The no-argument constructor Jackson uses is not modelled. Whether it applies the `@Builder.Default` values depends on the Lombok version.
- The HTTP controller, the Kafka publisher and its producer configuration are not modelled: the service never calls the publisher. The application bootstrap, the constants classes, the user and fraud-score records, and the Python load generator are also left out.
- Nothing in the code implements a status-transition graph, retries, back-off, deduplication, a per-record error map or publish positions, so none is modelled.
