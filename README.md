# Cinema ticket purchase, modelled in Dafny

A model of the ticket service of the cinema-tickets exercise. One call buys tickets for an
account. The call holds zero or more line items, each a ticket type (adult, child or
infant) and a number of tickets. With a valid account id, a call with no line items fails
for having no adult (`MissingAdultFailsSecond`). The service runs three checks in a fixed order:

1. the account id must be an integer greater than zero;
2. some line item must be for adult tickets;
3. a running total of the counts must never meet a negative count and never go above
   `MaxTicketCount` (20).

The first check that fails ends the call with an invalid-purchase error. A call that passes
all three pays Σ count × unit price (adult 20, child 10, infant 0) and then reserves
Σ count × seats per ticket (adult 1, child 1, infant 0).

- `constants.dfy` (module `Constants`) holds the ticket types, their names, the limit of 20
  and the two tables. As in the service's constants.js, the tables are maps keyed by the
  type's name.
- `ticket_service.dfy` (module `TicketService`) holds the checks and the totals.
  - Each helper of the service that has a loop (`#includesAdult`, `#isValidTicketCount` and
    the two totals) is a method with the same loop as the service's TicketService.js; the
    account check, which has none, is the function `CheckAccountId`. The adult
    scan stops at the first adult item. The count scan returns at the first failure.
  - The count scan and the two total loops are proved equal to recursive specifications
    over prefixes: `CheckTicketCounts` for the count check, and `Sum` for the amount, seats
    and totals. The adult scan is proved equal to an existential, `HasAdult`. The whole
    pipeline, `PurchaseTickets`, is proved equal to the non-recursive function `Purchase`.
  - The lemmas beside them say what those specifications mean.
  - The thrown error is an `InvalidPurchase(reason)` outcome. `Message` gives each reason's
    text.
  - The payment and reservation services are external. `PurchaseTickets` returns the calls
    it makes to them, in order, as `ServiceCall` values.

The account id is either `Finite(value)`, a finite number that may have a fractional part,
or `NonNumber`, which stands for a string, NaN or an infinity. The integer test is
`value.Floor as real == value`. The JavaScript number type and its dynamic typing are not
modelled further.

Some behaviour follows from the code as written and is proved here:
- The adult check looks only at the type. An adult line item with count 0 lets child
  tickets through (`ExampleZeroAdultsWithChildren`).
- With a valid account id and at least one adult line item, a request whose counts are all 0
  goes ahead and pays 0 (`PurchaseSucceeds`, `PurchasedTotals`).
- The negative check runs before the limit check on the same item. But a request that has
  already passed 20 before its first negative item fails for the limit
  (`FirstNegativeCount`).

## Model

| member | source | states |
|---|---|---|
| `Constants.TypeName` | cinema-tickets-javascript/src/pairtest/constants.js:1-16 | every ticket type's name is a key of both the price table and the seat table, so lookups never miss |
| `Constants.TypeNamesDistinct` | cinema-tickets-javascript/src/pairtest/constants.js:1-3 | two types have the same name exactly when they are the same type |
| `Constants.TicketPrice` | cinema-tickets-javascript/src/pairtest/constants.js:6-10 | a ticket's price is never negative, and it is 0 exactly for infants |
| `Constants.TicketPrices` | cinema-tickets-javascript/src/pairtest/constants.js:6-10 | the prices are adult 20, child 10, infant 0 |
| `Constants.AllocateSeat` | cinema-tickets-javascript/src/pairtest/constants.js:12-16 | a ticket takes 0 or 1 seat, and takes none exactly when it is an infant's |
| `Constants.AllocatedSeats` | cinema-tickets-javascript/src/pairtest/constants.js:12-16 | the seat factors are adult 1, child 1, infant 0 |
| `TicketService.Message` | cinema-tickets-javascript/src/pairtest/TicketService.js:15-59 | each failure reason carries the non-empty text thrown at its site (lines 15-17, 35-37, 52-54, 57-59), character for character |
| `TicketService.MessagesDistinct` | cinema-tickets-javascript/src/pairtest/TicketService.js:13-59 | the four error messages are pairwise different, so a caller can tell the failures apart |
| `TicketService.CheckAccountId` | cinema-tickets-javascript/src/pairtest/TicketService.js:13-19 | the account check either passes or fails with the invalid-account error, never another |
| `TicketService.AccountNumber` | cinema-tickets-javascript/src/pairtest/TicketService.js:13-19 | an id that passes is exactly a positive integer |
| `TicketService.IntegerAccountIds` | cinema-tickets-javascript/src/pairtest/TicketService.js:13-19 | an integral id passes if and only if it is greater than 0 |
| `TicketService.NonIntegerAccountIdsFail` | cinema-tickets-javascript/src/pairtest/TicketService.js:13-19 | a number with a fractional part, or a value that is not a number, fails with the invalid-account error |
| `TicketService.IncludesAdult` | cinema-tickets-javascript/src/pairtest/TicketService.js:26-39 | the adult scan passes if and only if some line item has type adult, whatever its count; otherwise it fails with the no-adult error |
| `TicketService.CheckTicketCounts` | cinema-tickets-javascript/src/pairtest/TicketService.js:46-62 | the count check's only verdicts are pass, negative count and too many tickets |
| `TicketService.FailureIsFinal` | cinema-tickets-javascript/src/pairtest/TicketService.js:49-61 | once a prefix of the items fails the count check, the whole request fails it with the same reason (the first failure stops the scan) |
| `TicketService.CountCheckPasses` | cinema-tickets-javascript/src/pairtest/TicketService.js:46-62 | the count check passes if and only if no count is negative and the total is at most 20 |
| `TicketService.CountCheckWithoutNegatives` | cinema-tickets-javascript/src/pairtest/TicketService.js:47-61 | with no negative count, the check fails for too many tickets exactly when the grand total exceeds 20 |
| `TicketService.FirstNegativeCount` | cinema-tickets-javascript/src/pairtest/TicketService.js:49-60 | at the first negative item the verdict is the negative-count error if the items before it total at most 20, and the too-many error otherwise |
| `TicketService.IsValidTicketCount` | cinema-tickets-javascript/src/pairtest/TicketService.js:46-62 | the running-total loop returns the count check's verdict on the first failing prefix, and passes iff all counts are non-negative and the total is at most 20 |
| `TicketService.SumPrefix` | cinema-tickets-javascript/src/pairtest/TicketService.js:70-74 | each line item adds its count times its type's table entry to a running total |
| `TicketService.TotalByType` | cinema-tickets-javascript/src/pairtest/TicketService.js:47-50 | the total of the counts is the adult, child and infant tickets together |
| `TicketService.AmountByType` | cinema-tickets-javascript/src/pairtest/TicketService.js:69-74 | the amount is 20 per adult ticket plus 10 per child ticket |
| `TicketService.SeatsByType` | cinema-tickets-javascript/src/pairtest/TicketService.js:85-89 | the seats are one per adult ticket plus one per child ticket |
| `TicketService.SumMonotone` | cinema-tickets-javascript/src/pairtest/TicketService.js:85-89 | with no negative count, every total is non-negative, and a table that is nowhere larger than another gives no larger a total |
| `TicketService.SeatsWithinTickets` | cinema-tickets-javascript/src/pairtest/TicketService.js:85-89 | with no negative count, 0 <= seats <= total tickets and the amount is non-negative |
| `TicketService.InfantsTakeNoSeat` | cinema-tickets-javascript/src/pairtest/TicketService.js:85-89 | adding an infant line item leaves the seat total unchanged |
| `TicketService.CalculateTotalAmountAndPay` | cinema-tickets-javascript/src/pairtest/TicketService.js:69-78 | the loop's total is Σ count × price, i.e. 20 per adult plus 10 per child, and the payment asked for is that amount on that account |
| `TicketService.CalculateSeatsAndReserve` | cinema-tickets-javascript/src/pairtest/TicketService.js:85-93 | the loop's total is Σ count × seat factor, i.e. one per adult and child ticket, and the reservation asked for is that many seats on that account |
| `TicketService.Purchase` | cinema-tickets-javascript/src/pairtest/TicketService.js:100-107 | checks in order account, adult, count and the first failure is the outcome: an invalid account gives the account error whatever the line items; a purchase goes ahead only when all three checks pass, and then its amount and seats are the two sums |
| `TicketService.PurchaseTickets` | cinema-tickets-javascript/src/pairtest/TicketService.js:100-107 | checks in the order account, adult, count; on a failure no service is called; otherwise exactly a payment and then a reservation are made, for the same account, with the computed totals |
| `TicketService.MissingAdultFailsSecond` | cinema-tickets-javascript/src/pairtest/TicketService.js:101-102 | with a valid account, no adult line item gives the no-adult error whatever the counts |
| `TicketService.PurchaseSucceeds` | cinema-tickets-javascript/src/pairtest/TicketService.js:100-105 | a purchase goes ahead if and only if the account id is a positive integer, an adult line item is present, no count is negative and the total is at most 20 |
| `TicketService.PurchasedTotals` | cinema-tickets-javascript/src/pairtest/TicketService.js:100-105 | a purchase that goes ahead pays 20 per adult and 10 per child, reserves one seat per adult and child, and 0 <= seats <= tickets <= 20 |
| `TicketService.ExampleValidPurchase` | cinema-tickets-javascript/src/pairtest/TicketService.js:100-107 | account 10 with 7 adult, 3 child and 2 infant tickets pays 170 and reserves 10 seats |
| `TicketService.ExampleInvalidAccounts` | cinema-tickets-javascript/test/TicketService.test.js:20-44 | account 0 and a non-number account id are refused with the invalid-account error |
| `TicketService.ExampleTooManyTickets` | cinema-tickets-javascript/test/TicketService.test.js:64-79 | counts 7, 3, 2, 7, 7 pass for four items and fail with the too-many error at the fifth |
| `TicketService.ExampleNegativeCount` | cinema-tickets-javascript/test/TicketService.test.js:81-92 | a lone adult item with count -2 fails with the negative-count error |
| `TicketService.ExampleZeroAdultsWithChildren` | cinema-tickets-javascript/src/pairtest/TicketService.js:26-39 | an adult item with count 0 and five child tickets goes ahead, paying 50 for 5 seats |

## Left out

- The payment and reservation services are third-party code that is not part of this model.
  They are represented only by the calls made to them. Their failures are not modelled, and
  neither is the missing rollback of a payment when the reservation fails.
- Console output is left out. It is diagnostic only.
- The driver code that buys tickets when the module loads is left out. It is a side effect,
  not logic.
- The `TicketTypeRequest` and `InvalidPurchaseException` classes live in the library
  directory, which is not part of this model. Any validation they do is not modelled. A line
  item is a plain (type, count) pair with an integer count, and the exception is the
  `InvalidPurchase(reason)` outcome.
- JavaScript's dynamic typing is modelled only in part.
  - A ticket-type string that is not one of the three names would give an undefined price
    and a NaN total. It cannot be expressed, because the type is a closed enumeration.
  - Non-integer or non-numeric counts are not expressed either.
  - The account id is modelled as an exact real or a non-number. Numbers beyond 2^53, where
    JavaScript numbers lose precision, are not modelled.
