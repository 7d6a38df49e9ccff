# Cinema tickets: a verified model of TicketService

`TicketService` handles a cinema ticket purchase. One `purchaseTickets(accountId, [...])` call
does the following:

- it records the account id;
- it appends one `{type, noOfTickets}` entry per input to the instance's `requests` list;
- it runs three business-rule checks in a fixed order: at least one adult, at most 20 tickets,
  no more infants than adults;
- it asks the payment service for 20 per adult, 5 per child and 0 per infant;
- it asks the seat-reservation service for one seat per adult and child;
- it returns "Cinema tickets purchased and seats reservation is successful".

The model has five modules:

- `Tickets` (tickets.dfy): the values. These are the closed ticket-type set and the check of a
  type name, the stored entry, the reasons an `InvalidPurchaseException` reports, the two error
  kinds, and the two service calls.
- `Rules` (rules.dfy): the computations over the `requests` list, as functions. These are the
  first-match count lookup (`#getNoOfTickets`), the sum of all counts (the `reduce` in
  `#validateNoOfRequest`), the three checks and their order, the charge and the seat count. Next
  to them are independent descriptions of the charge and the seat count and the lemmas that
  connect them.
- `Purchase` (purchase.dfy): `PurchaseOutcome`, a function giving the result of one call from the
  entries the instance already holds. The result is the new list, the service calls made and the
  returned value or raised error. The lemmas here state what the service promises.
- `Service` (service.dfy): the `TicketService` class. `requests` and `accountId` are fields and
  the calls to the two third-party services go into a ghost log `calls`. The methods mirror the
  source's private methods. The append loop is a `while` loop with invariants, and
  `PurchaseTickets` is proved against `PurchaseOutcome`.
- `Scenarios` (scenarios.dfy): the demo order, the repository's test orders, the check order,
  duplicate entries, and a reused instance. The method `Scenarios.ReusedInstance` is the class-level
  version of the two `ReusedInstance*` lemmas: it makes the three purchases on one `TicketService`
  object and asserts each result, the list after the first and the log after the second.

The model follows the code, which differs from a natural reading of the business rules in four ways:

- The code looks up only the FIRST entry of each type. It does not sum the entries of a type.
- The code checks the total cap BEFORE the infant rule.
- The code keeps every earlier call's entries in `requests`, so the instance is not stateless.
- The code never checks the account id itself.

Each of these is stated as a lemma below.

## Model

| member | source | states |
|---|---|---|
| `Tickets.ParseType` | src/pairtest/TicketService.js:29-37 | an accepted type name is exactly the name of the type returned; a rejected name is the name of no ticket type |
| `Tickets.ParseTypeName` | src/pairtest/TicketService.js:29-37 | each ticket type's own name ("ADULT", "CHILD", "INFANT") is accepted as that type, so the names the lookups use (lines 78, 114-115, 130-134 and 160-161) are exactly the names the type check accepts |
| `Rules.TicketPrice` | src/pairtest/TicketService.js:14-18 | with the constructor's constants, no price is negative, every price is a whole multiple of 5, and a type is free exactly when it takes no seat |
| `Rules.NoOfTickets` | src/pairtest/TicketService.js:63-69 | with non-negative counts, the looked-up count of a type is non-negative and never more than the sum of all counts |
| `Rules.TotalTickets` | src/pairtest/TicketService.js:97-100 | with non-negative counts, the sum of all counts is non-negative |
| `Rules.NoOfTicketsFirstMatch` | src/pairtest/TicketService.js:63-69 | the lookup gives the count of the first entry of the type, whatever later entries of that type say, and 0 when the type has no entry |
| `Rules.TotalTicketsCountsEveryEntry` | src/pairtest/TicketService.js:96-100 | with non-negative counts the sum is non-negative and at least the count of every single entry, duplicate types included |
| `Rules.ValidateMinimumNoOfAdultTicket` | src/pairtest/TicketService.js:77-89 | passes exactly when the looked-up adult count is at least 1; reports "no adult" exactly when it is 0; reports the second adult message ("without purchasing an Adult ticket") exactly when it is negative |
| `Rules.ValidateNoOfRequest` | src/pairtest/TicketService.js:96-106 | passes exactly when the counts of all entries add up to at most 20; otherwise reports the cap |
| `Rules.ValidateInfantTicket` | src/pairtest/TicketService.js:113-121 | passes exactly when infants do not outnumber adults; otherwise reports the infant rule |
| `Rules.ValidateRequest` | src/pairtest/TicketService.js:52-56 | passes exactly when all three rules hold; the reason reported is the first rule broken in the order adult minimum, total cap, infant ratio, each case an if-and-only-if |
| `Rules.TotalAmount` | src/pairtest/TicketService.js:129-136 | with non-negative counts, the charge is non-negative and at most 20 per ticket of the sum of all counts |
| `Rules.SeatsToAllocate` | src/pairtest/TicketService.js:159-164 | with non-negative counts, the seat count is non-negative and at most the sum of all counts |
| `Rules.AmountAndSeatsFromFirstEntries` | src/pairtest/TicketService.js:128-164 | the charge is the price-table charge, entry by entry, of the first entry of each type; the seat count is the adults and children among those entries |
| `Rules.DistinctTypesAggregate` | src/pairtest/TicketService.js:63-69 | when no type occurs twice, first-match lookup agrees with aggregation: the charge and the seats are those of every entry and the total is the sum of the three looked-up counts |
| `Rules.LookedUpWithinTotal` | src/pairtest/TicketService.js:96-105 | with non-negative counts, the three looked-up counts add up to at most the total, so duplicate entries can only make the cap stricter |
| `Rules.AdmissibleBounds` | src/pairtest/TicketService.js:14-18 | an admitted order with non-negative counts reserves between 1 and 20 seats and is charged between 20 and 400 |
| `Rules.BelowMinimumOnlyForNegativeCounts` | src/pairtest/TicketService.js:84-88 | with non-negative counts the second adult check ("without purchasing an Adult ticket") is never the reported reason |
| `Rules.InfantsNeitherPaidNorSeated` | src/pairtest/TicketService.js:131-163 | removing all infant entries changes neither the charge nor the seat count |
| `Rules.NoOfTicketsAppend` | src/pairtest/TicketService.js:63-69 | appending entries never changes the looked-up count of a type that already has an entry; for a type without one, the lookup reads the appended entries |
| `Rules.TotalTicketsAppend` | src/pairtest/TicketService.js:97-100 | the total of two lists appended is the sum of their totals |
| `Purchase.ParsedPrefix` | src/pairtest/TicketService.js:29-38 | the entries pushed are one per input, in input order, with the input's type and count, and they stop exactly at the first unknown type name |
| `Purchase.ParsedPrefixUnique` | src/pairtest/TicketService.js:29-38 | any list of entries with those three properties is the list pushed |
| `Purchase.PurchaseOutcome` | src/pairtest/TicketService.js:193-197 | after a call the list is the earlier entries followed by the pushed entries |
| `Purchase.RequestsOnlyGrow` | src/pairtest/TicketService.js:29-39 | earlier entries are kept unchanged; each new entry carries its input's type name and count in input order; when every type is known, all inputs are appended whether or not a check then fails |
| `Purchase.UnknownTypeRejected` | src/pairtest/TicketService.js:29-38 | an unknown type name raises the type error naming the first unknown input; the known inputs before it stay appended; nothing is charged or reserved |
| `Purchase.NoChargeUnlessAllChecksPass` | src/pairtest/TicketService.js:39-41 | a payment or reservation is made if and only if every type is known and all three rules hold, and that is exactly when the call succeeds |
| `Purchase.NoAdultRejected` | src/pairtest/TicketService.js:77-83 | a missing first ADULT entry or one with count 0 fails with the "at least one adult ticket" exception and no calls |
| `Purchase.OverCapRejected` | src/pairtest/TicketService.js:96-105 | more than 20 tickets over all entries, duplicates and earlier calls included, fails with an InvalidPurchaseException and no calls; the cap is reported exactly when the looked-up adult count is at least 1, otherwise an adult-rule reason is |
| `Purchase.TooManyInfantsRejected` | src/pairtest/TicketService.js:113-120 | more infants than adults fails with an InvalidPurchaseException and no calls; the infant rule is reported exactly when the adult and cap checks passed |
| `Purchase.SuccessfulPurchase` | src/pairtest/TicketService.js:128-174 | a successful call makes exactly one payment of adults×20 + children×5 + infants×0 and then exactly one reservation of adults + children seats, both for the call's account, and returns the success message |
| `Purchase.EarlierCallsDominate` | src/pairtest/TicketService.js:13-13 | on a reused instance a type that already has an entry keeps that entry's count whatever the new call asks, and the cap counts earlier calls' tickets too |
| `Service.TicketService.constructor` | src/pairtest/TicketService.js:8-20 | a new service has an empty list, no account id and has made no calls |
| `Service.TicketService.SetAccountId` | src/pairtest/TicketService.js:183-185 | the account id becomes the argument |
| `Service.TicketService.TicketTypeRequest` | src/pairtest/TicketService.js:28-43 | the loop's new list, the calls appended to the log and the error raised, if any, are those of `PurchaseOutcome` for the list held before |
| `Service.TicketService.CalcTotalTicketAmount` | src/pairtest/TicketService.js:128-138 | exactly one payment is logged, for the current account and the charge of the list |
| `Service.TicketService.MakePayments` | src/pairtest/TicketService.js:148-151 | exactly one payment is logged, with the given account and amount |
| `Service.TicketService.ReserveSeats` | src/pairtest/TicketService.js:171-175 | exactly one reservation is logged, for the current account and the seat count of the list |
| `Service.TicketService.PurchaseTickets` | src/pairtest/TicketService.js:193-197 | the account id is set even when the call fails; the list, the log and the returned value are those of `PurchaseOutcome` |
| `Scenarios.DemoOrder` | src/index.js:5-10 | 5 adults, 1 infant and 1 child on account 1: a payment of 105, then a reservation of 6 seats, then success |
| `Scenarios.ValidOrderSucceeds` | test/ticket.test.js:8-15 | 5 adults, 3 infants and 2 children succeed with a payment of 110 and 7 seats |
| `Scenarios.OverCapOrderFails` | test/ticket.test.js:27-34 | 26 tickets fail on the cap with no calls |
| `Scenarios.TooManyInfantsOrderFails` | test/ticket.test.js:36-43 | 7 infants for 5 adults fail on the infant rule with no calls |
| `Scenarios.NoAdultOrderFails` | test/ticket.test.js:45-51 | infants and children without adults fail on the adult rule with no calls |
| `Scenarios.UnknownTypeOrderFails` | test/ticket.test.js:53-60 | the type name "ADUL" raises the type error before anything is appended or called |
| `Scenarios.CapReportedBeforeInfants` | src/pairtest/TicketService.js:52-56 | 5 adults, 7 infants and 18 children break both the cap and the infant rule; the cap is reported |
| `Scenarios.DuplicateAdultIgnoredForPrice` | src/pairtest/TicketService.js:63-69 | a second ADULT entry of 10 is neither charged nor seated |
| `Scenarios.DuplicateAdultCountsTowardCap` | src/pairtest/TicketService.js:96-105 | ADULT 5, CHILD 1, ADULT 15 fail on the cap although the looked-up counts add up to 6 |
| `Scenarios.ReusedInstanceRepeatsFirstCounts` | src/pairtest/TicketService.js:13-13 | after the demo order, an order for 2 adults on the same instance is charged 105 and reserves 6 seats |
| `Scenarios.ReusedInstanceCapIncludesEarlierCalls` | src/pairtest/TicketService.js:96-105 | after those two orders, an order for 15 adults breaks the cap because the earlier 9 tickets still count |

## Left out

- The third-party `TicketPaymentService` and `SeatReservationService` are not part of this model. Each call is an entry in the ghost `calls` log. The model assumes every call returns normally. An error raised inside a service is not modelled, and neither is its propagation to the caller.
- Account ids are integers. The type error the repository's test expects for the account id `'1'` is raised inside the payment service, which is not part of this model. `TicketService` itself accepts any account id, and so does the model; no positivity is required.
- `TicketTypeRequest` and `InvalidPurchaseException` (src/pairtest/lib) are not part of this model. The type check the constructor makes is modelled by `ParseType`, accepting exactly "ADULT", "CHILD" and "INFANT". The error it raises is the `UnknownTicketType` failure. Any check the constructor makes on `noOfTickets` is not modelled. Counts are mathematical integers, negative ones included. That is why the second adult check stays reachable.
- JavaScript numbers are floating point. The counts, sums and products are modelled as exact integers. Precision loss on huge counts is not modelled.
- Only the form the tests and src/index.js use, `purchaseTickets(id, [entries...])`, is modelled. Other call forms are not modelled. With plain entry objects passed as separate arguments, only the first object reaches the loop, and it has no `forEach`. That raises a TypeError before anything is pushed or checked, after the account id is already set. When the first argument is an array, only its entries are processed, and every later argument, array or not, is silently ignored.
- The constructor's fields that hold the imported classes are not modelled. The constant fields (`maxTickets`, `minAdultTicket` and the three prices) are module constants in `Rules`.
- `Tickets.Message` is a reference table of the four exception texts; no contract uses it, and the failures are identified by their `Reason`. The cap message is written with the constant 20 filled in.
- src/index.js prints its result to the console. That I/O is left out, and its order is the `Scenarios.DemoOrder` case.
