# Antaeus invoice payment core, modelled in Dafny

Antaeus is a billing service. Once a month it charges pending invoices
through an external payment provider. This project models the parts of it that
hold logic:

- **`BillingService.payInvoice`** (module `Billing`). An invoice that is
  already PAID is refused with `false` and the provider is not called. Any
  other invoice is charged exactly once. The provider's Boolean is returned
  as is. The three documented exceptions (customer not found, currency
  mismatch, network) are caught and logged, and the call then falls through
  to `return true`, the same value as a successful charge. Any other
  exception escapes. There is no retry. The provider is a function
  parameter. The result records the outcome and the invoices passed to the
  provider.
- **`InvoiceStatus`** (module `Models`). The four-constructor enumeration,
  its declaration order, and the `Invoice` record.
- **`InvoiceService`** (module `Invoices`). A class with the two mutable
  pointers `databasePointerStart`/`databasePointerFinish`, both -1 when
  fresh. It delegates `fetchAll`, `fetch` and `updateInvoice` to the data
  access layer. That layer is modelled as a class `Dal` holding a map from
  id to invoice and an abstract range query.
- **The REST handlers with logic** (module `Rest`):
  - `/rest/info` reports "whole db" unless 1 <= start < finish.
  - `/rest/config` validates its two parameters and then sets both pointers
    or neither. Its acceptance test is exactly the negation of the "whole
    db" test.
  - `/rest/v1/invoices/:id` answers an id that is not a 32-bit `Int` with
    the "check again" message and status 500.
  - The reply texts are kept verbatim, with integers in Kotlin's decimal
    rendering, and each text identifies its reply.
- **`billingScheduler`** (module `App`). A class holding the `year`,
  `month` and `calendar` globals. Each call advances one calendar month,
  rolling December (month 11) over to January (0) of the next year. It sets
  the calendar's fields to 00:00:00 on the first of that month. Each timer firing
  calls it again.

## Model

| member | source | states |
|---|---|---|
| `Models.Ordinal` | pleo-antaeus-models/src/main/kotlin/io/pleo/antaeus/models/InvoiceStatus.kt:3-8 | the ordinal of a status is its position in the declaration order PENDING, PAID, ERRORCNF, ERRORCMIS |
| `Models.ExactlyFourStatuses` | pleo-antaeus-models/src/main/kotlin/io/pleo/antaeus/models/InvoiceStatus.kt:3-8 | there are exactly four statuses, each listed once, and every status is one of them |
| `Models.OrdinalOrder` | pleo-antaeus-models/src/main/kotlin/io/pleo/antaeus/models/InvoiceStatus.kt:4-7 | ordinals tell statuses apart (equality by constructor alone) and increase PENDING < PAID < ERRORCNF < ERRORCMIS |
| `Billing.Settle` | pleo-antaeus-core/src/main/kotlin/io/pleo/antaeus/core/services/BillingService.kt:32-47 | a returned Boolean is passed through; customer-not-found, currency-mismatch and network failures give true; only another exception propagates |
| `Billing.PayInvoice` | pleo-antaeus-core/src/main/kotlin/io/pleo/antaeus/core/services/BillingService.kt:23-48 | PAID gives false with no gateway call; otherwise exactly one call, on the same invoice; false exactly when PAID or declined; true exactly for a success or a caught exception; propagates exactly for another exception |
| `Billing.EveryNonPaidStatusIsCharged` | pleo-antaeus-core/src/main/kotlin/io/pleo/antaeus/core/services/BillingService.kt:27-32 | PENDING, ERRORCNF and ERRORCMIS invoices are each charged exactly once |
| `Billing.PaymentDependsOnStatusAndAnswer` | pleo-antaeus-core/src/main/kotlin/io/pleo/antaeus/core/services/BillingService.kt:23-48 | the outcome depends only on the status and the gateway's answer, and only the caller's unchanged invoice reaches the gateway |
| `Billing.FixtureOutcomes` | pleo-antaeus-core/src/test/kotlin/io/pleo/antaeus/core/services/BillingServiceTest.kt:17-31 | on the test's six invoices and mocked provider: true, false without a call, false, true, true, and the generic exception escapes |
| `Invoices.InvoiceService.constructor` | pleo-antaeus-core/src/main/kotlin/io/pleo/antaeus/core/services/InvoiceService.kt:13-17 | a fresh service has both pointers at -1 |
| `Invoices.InvoiceService.FetchAll` | pleo-antaeus-core/src/main/kotlin/io/pleo/antaeus/core/services/InvoiceService.kt:19-21 | the store's range query is asked with the current start and finish pointers, unchanged |
| `Invoices.InvoiceService.Fetch` | pleo-antaeus-core/src/main/kotlin/io/pleo/antaeus/core/services/InvoiceService.kt:23-25 | a present id gives the stored invoice; an absent id gives InvoiceNotFound carrying that id |
| `Invoices.InvoiceService.UpdateInvoice` | pleo-antaeus-core/src/main/kotlin/io/pleo/antaeus/core/services/InvoiceService.kt:28-30 | the store receives the id and status unchanged and only that invoice's status changes; the pointers do not change |
| `Rest.Accepts` | pleo-antaeus-rest/src/main/kotlin/io/pleo/antaeus/rest/AntaeusRest.kt:74 | config's check accepts exactly the pairs the whole-db rule rejects, which are exactly 1 <= dbstart < dbend (the dbend < 1 test is redundant) |
| `Rest.Info` | pleo-antaeus-rest/src/main/kotlin/io/pleo/antaeus/rest/AntaeusRest.kt:58-64 | "whole db" exactly when start >= finish or a pointer is below 1; otherwise the range of the current pointers |
| `Rest.FreshServiceWorksOnWholeDb` | pleo-antaeus-rest/src/main/kotlin/io/pleo/antaeus/rest/AntaeusRest.kt:59 | with both pointers at their initial -1, info reports the whole db |
| `Rest.InfoMessageInjective` | pleo-antaeus-rest/src/main/kotlin/io/pleo/antaeus/rest/AntaeusRest.kt:60-62 | the info replies, line 60's text verbatim and line 62's text with both pointers in decimal, tell the whole-db and range replies apart and give back the exact start and finish |
| `Rest.Decimal` | pleo-antaeus-rest/src/main/kotlin/io/pleo/antaeus/rest/AntaeusRest.kt:62 | an `Int` in a string template renders as a '-' exactly for a negative number, followed by decimal digits with no leading zero (except "0" itself) whose value is the number's magnitude |
| `Rest.DecimalInjective` | pleo-antaeus-rest/src/main/kotlin/io/pleo/antaeus/rest/AntaeusRest.kt:62 | different numbers render to different texts, and a rendering holds no space or comma |
| `Rest.Config` | pleo-antaeus-rest/src/main/kotlin/io/pleo/antaeus/rest/AntaeusRest.kt:67-81 | a missing parameter, a non-integer one or one outside the 32-bit `Int` range gives the "check again" error, and a rejected pair the range error; both leave the pointers unchanged; an accepted pair sets both pointers to exactly the given values; after success info reports that range |
| `Rest.ConfigMessageInjective` | pleo-antaeus-rest/src/main/kotlin/io/pleo/antaeus/rest/AntaeusRest.kt:72-79 | the config replies, line 72's and line 75's texts verbatim and line 79's text with both new pointers in decimal, tell the three replies apart and give back the pointers that were set |
| `Rest.ConfigRunReachable` | pleo-antaeus-rest/src/main/kotlin/io/pleo/antaeus/rest/AntaeusRest.kt:74-78 | after any sequence of config requests the pointers are the pair of the last accepted request, or the starting pair when none was accepted; from the fresh state they are the fresh pair or an accepted range, never a half-updated pair |
| `Rest.GetInvoice` | pleo-antaeus-rest/src/main/kotlin/io/pleo/antaeus/rest/AntaeusRest.kt:97-104 | an id that is not an integer literal or is outside the 32-bit `Int` range gives "Please check again the given id." with status 500; otherwise the stored invoice, or InvoiceNotFound for that id escapes |
| `App.NextMonth` | pleo-antaeus-app/src/main/kotlin/io/pleo/antaeus/app/AntaeusApp.kt:91-98 | the absolute month index year*12+month grows by exactly 1; a month in 0..11 stays in 0..11; the year changes only on the rollover from month 11 |
| `App.AbsMonthInjective` | pleo-antaeus-app/src/main/kotlin/io/pleo/antaeus/app/AntaeusApp.kt:91-98 | within months 0..11 a (year, month) pair is determined by its absolute index |
| `App.NextMonthIsSuccessor` | pleo-antaeus-app/src/main/kotlin/io/pleo/antaeus/app/AntaeusApp.kt:91-98 | for months in 0..11, the rollover result is exactly the calendar month one later |
| `App.StartOf` | pleo-antaeus-app/src/main/kotlin/io/pleo/antaeus/app/AntaeusApp.kt:99 | the scheduled instant is a valid instant of the given year and month that is no later, in (day, hour, minute, second) order, than any other instant of that month |
| `App.AdvanceMonths` | pleo-antaeus-app/src/main/kotlin/io/pleo/antaeus/app/AntaeusApp.kt:103-108 | n scheduler calls advance the absolute month by exactly n and keep a calendar month in 0..11 |
| `App.Scheduler.constructor` | pleo-antaeus-app/src/main/kotlin/io/pleo/antaeus/app/AntaeusApp.kt:35-37 | year, month and calendar start from the clock reading, whose month is 0..11, so the month invariant holds |
| `App.Scheduler.BillingScheduler` | pleo-antaeus-app/src/main/kotlin/io/pleo/antaeus/app/AntaeusApp.kt:90-103 | the month stays 0..11; year/month become the next month, the calendar is set to its first instant, and that instant is where the timer task is scheduled |
| `App.Scheduler.Fire` | pleo-antaeus-app/src/main/kotlin/io/pleo/antaeus/app/AntaeusApp.kt:103-109 | n timer firings each reschedule once, advancing the state n months |
| `App.Scheduler.Start` | pleo-antaeus-app/src/main/kotlin/io/pleo/antaeus/app/AntaeusApp.kt:86-87 | main's call plus n firings make exactly n+1 scheduler calls and advance the state n+1 months, keep the month in 0..11, and leave the calendar at the start of the current month |

## Left out

- Logging, the Javalin server, routing, JSON rendering, HTTP exception mapping, port binding and the customer routes: I/O. The handlers are functions and methods that return reply values. The fixed reply texts are kept verbatim.
- Parsing of query and path parameters (`toIntOrNull`, `toInt`): a handler receives the integer the parameter text spells, or `None` when the text is missing or not an integer literal; the `:id` path parameter of a matched route is never missing, so there `None` means only a non-integer text. The 32-bit `Int` range those functions apply is modelled in the handlers (`Rest.ParsesAsInt`). The digit syntax they accept is not modelled.
- The `catch (e: Exception)` branch of `/rest/config` (AntaeusRest.kt:82-84): nothing in the modelled handler body can throw.
- The database connection, schema creation and sample data: I/O.
- `java.util.Timer`, the wall clock and `Calendar`'s conversion to a time: the clock reading is a constructor parameter and a firing is a method call. Only the year/month arithmetic and the fields passed to `calendar.set` are kept. `calendar.set(year, month, 1, 0, 0, 0)` does not reset `MILLISECOND`, so the real scheduled time is 00:00:00 plus the milliseconds `Calendar.getInstance()` read at startup; `Instant` has no millisecond field.
- The race between the timer thread and the REST handlers over the pointers: concurrency.
- The internals of `AntaeusDal` are not part of this model. The range query is an abstract function of the store, so range inclusivity and filtering stay open. `updateInvoice` sets the status of a present id and does nothing for an absent id. This is an assumption about `AntaeusDal.updateInvoice` (package `io.pleo.antaeus.data`), whose code this model does not cover.
- No retry, batch run or status persistence: `payInvoice` makes one call, the retry is only a `todo` comment (BillingService.kt:45), and `startPaymentProcess` is not defined in BillingService.kt.
- `startPaymentProcess` (called at AntaeusRest.kt:110 and AntaeusApp.kt:104) is not modelled, and neither is the `/invoices/execute` route that only forwards to it (AntaeusRest.kt:109-111). GET `/invoices` only forwards to `fetchAll` (AntaeusRest.kt:92-94), which `Invoices.InvoiceService.FetchAll` models. A timer firing models only its rescheduling.
- App.Scheduler.Fire: assumes every payment run returns normally. If `startPaymentProcess` throws at AntaeusApp.kt:104, line 108 never runs, the timer task ends and billing is never scheduled again. `payInvoice` lets unknown exceptions escape, so this can happen. Fire and Start model only firings that return.
- The integer return codes asserted in BillingServiceTest.kt:37-62 belong to a different version of `payInvoice` than the Boolean one modelled here. The test is used only for its fixture.
- `Money` is carried as an opaque value and currency as a code: neither is computed with.
- App.NextMonth: does not model Kotlin's 32-bit `Int` wrap-around of `year += 1`, which no reachable year comes near.
- The meaning of ERRORCNF (customer not found) and ERRORCMIS (currency mismatch) is recorded only as documentation: no modelled code maps exceptions to these statuses.
