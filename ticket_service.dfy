// The purchase pipeline of the ticket service: an account check, an adult
// check and a ticket-count check run in that order, the first failure ends the
// purchase, and a purchase that passes all three pays for its tickets and then
// reserves its seats. The payment and reservation services are not part of
// the model: the calls made to them are returned as ServiceCall values.

module TicketService {
  import opened Constants

  /** An account id as the caller hands it over: a finite number (which may or
      may not be an integer) or anything else (a string, NaN, an infinity). */
  datatype AccountId = Finite(value: real) | NonNumber

  /** One line item of a purchase: a ticket type and how many of it. */
  datatype TicketTypeRequest = TicketTypeRequest(ticketType: TicketType, noOfTickets: int)

  /** Why a purchase was refused; each reason is one invalid-purchase error. */
  datatype Failure = InvalidAccountId | NoAdultTicket | NegativeTicketCount | TooManyTickets

  /** The verdict of one check: it passes, or the purchase fails for a reason. */
  datatype Check = Pass | Fail(reason: Failure)

  /** A call made to one of the two external services. */
  datatype ServiceCall =
    | MakePayment(accountId: int, totalAmount: int)
    | ReserveSeat(accountId: int, totalSeats: int)

  /** What a purchase comes to: the amount paid and the seats reserved, or the
      invalid-purchase error that stopped it. */
  datatype Outcome = Purchased(amount: int, seats: int) | InvalidPurchase(reason: Failure)

  /** The message the invalid-purchase error carries for each reason. */
  function Message(f: Failure): (msg: string)
    ensures |msg| > 0
  {
    match f
    case InvalidAccountId => "Invalid account ID. The account ID should be a positive integer value."
    case NoAdultTicket => "Ticket purchase restricted to adults only."
    case NegativeTicketCount => "The ticket count must be zero or a positive number."
    case TooManyTickets => "The maximum number of tickets that can be purchased per request is limited to 20."
  }

  /** A caller can tell the four failures apart by their messages. */
  lemma MessagesDistinct(f: Failure, g: Failure)
    ensures Message(f) == Message(g) <==> f == g
  {
    assert |Message(InvalidAccountId)| == 70 && |Message(NoAdultTicket)| == 42;
    assert |Message(NegativeTicketCount)| == 51 && |Message(TooManyTickets)| == 81;
  }

  // ---------------------------------------------------------------------------
  // Account check

  /** Whether a number has no fractional part. */
  predicate IsInteger(x: real) {
    x.Floor as real == x
  }

  /** The account check: the id must be an integer greater than zero. */
  function CheckAccountId(account: AccountId): (c: Check)
    ensures c == Pass || c == Fail(InvalidAccountId)
  {
    if account.Finite? && IsInteger(account.value) && account.value > 0.0 then Pass
    else Fail(InvalidAccountId)
  }

  /** The account number that a passing account id stands for. */
  function AccountNumber(account: AccountId): (n: int)
    requires CheckAccountId(account).Pass?
    ensures n > 0 && account == Finite(n as real)
  {
    account.value.Floor
  }

  /** An integral account id passes exactly when it is positive. */
  lemma IntegerAccountIds(n: int)
    ensures CheckAccountId(Finite(n as real)).Pass? <==> n > 0
  {
  }

  /** A number with a fractional part, or a value that is not a number at all,
      never passes the account check. */
  lemma NonIntegerAccountIdsFail(account: AccountId)
    requires account.Finite? ==> !IsInteger(account.value)
    ensures CheckAccountId(account) == Fail(InvalidAccountId)
  {
  }

  // ---------------------------------------------------------------------------
  // Adult check

  /** Some line item of the request is for adult tickets (whatever its count). */
  predicate HasAdult(items: seq<TicketTypeRequest>) {
    exists i | 0 <= i < |items| :: items[i].ticketType == Adult
  }

  /** The adult check: scans the line items and stops at the first adult one. */
  method IncludesAdult(items: seq<TicketTypeRequest>) returns (c: Check)
    ensures c.Pass? <==> HasAdult(items)
    ensures c.Fail? ==> c.reason == NoAdultTicket
  {
    var adultFound := false;
    var i := 0;
    while i < |items|
      invariant 0 <= i <= |items|
      invariant !adultFound
      invariant forall j | 0 <= j < i :: items[j].ticketType != Adult
    {
      if items[i].ticketType == Adult {
        adultFound := true;
        break;
      }
      i := i + 1;
    }
    if !adultFound {
      return Fail(NoAdultTicket);
    }
    return Pass;
  }

  // ---------------------------------------------------------------------------
  // Per-ticket sums over the line items

  function Last(items: seq<TicketTypeRequest>): TicketTypeRequest
    requires items != []
  {
    items[|items| - 1]
  }

  /** What a per-ticket sum measures: tickets, money, seats, or the tickets
      of one type. */
  datatype Measure = Tickets | Amount | Seats | TicketsOf(t: TicketType)

  /** What one ticket of type `t` adds to a sum of measure `m`. */
  function PerTicket(m: Measure, t: TicketType): (w: nat)
    ensures m == Seats ==> w <= 1  // a ticket never takes more than one seat
  {
    match m
    case Tickets => 1
    case Amount => TicketPrice(t)
    case Seats => AllocateSeat(t)
    case TicketsOf(u) => if t == u then 1 else 0
  }

  /** Sum over the line items of count times what one ticket of the item's
      type adds; it is built up item by item, as the service's loops build
      their running totals. */
  function Sum(items: seq<TicketTypeRequest>, m: Measure): int
  {
    if items == [] then 0
    else Sum(items[..|items| - 1], m) + Last(items).noOfTickets * PerTicket(m, Last(items).ticketType)
  }

  /** How many tickets the request holds in all. */
  function TotalTickets(items: seq<TicketTypeRequest>): int {
    Sum(items, Tickets)
  }

  /** How many tickets of type `t` the request holds. */
  function CountOf(items: seq<TicketTypeRequest>, t: TicketType): int {
    Sum(items, TicketsOf(t))
  }

  /** The amount to pay: each ticket at its type's unit price. */
  function TotalAmount(items: seq<TicketTypeRequest>): int {
    Sum(items, Amount)
  }

  /** The seats to reserve: each ticket times its type's seat allocation. */
  function TotalSeats(items: seq<TicketTypeRequest>): int {
    Sum(items, Seats)
  }

  predicate NoNegativeCounts(items: seq<TicketTypeRequest>) {
    forall i | 0 <= i < |items| :: items[i].noOfTickets >= 0
  }

  /** One more item adds its count times its per-ticket measure. */
  lemma SumPrefix(items: seq<TicketTypeRequest>, i: nat, m: Measure)
    requires i < |items|
    ensures Sum(items[..i + 1], m) == Sum(items[..i], m) + items[i].noOfTickets * PerTicket(m, items[i].ticketType)
  {
    assert items[..i + 1][..i] == items[..i];
  }

  /** The total tickets are the adult, child and infant tickets together. */
  lemma {:induction false} TotalByType(items: seq<TicketTypeRequest>)
    ensures TotalTickets(items) == CountOf(items, Adult) + CountOf(items, Child) + CountOf(items, Infant)
  {
    if items != [] {
      TotalByType(items[..|items| - 1]);
    }
  }

  /** The amount is 20 per adult ticket and 10 per child ticket. */
  lemma {:induction false} AmountByType(items: seq<TicketTypeRequest>)
    ensures TotalAmount(items) == 20 * CountOf(items, Adult) + 10 * CountOf(items, Child)
  {
    if items != [] {
      AmountByType(items[..|items| - 1]);
      TicketPrices();
    }
  }

  /** The seats are one per adult ticket and one per child ticket. */
  lemma {:induction false} SeatsByType(items: seq<TicketTypeRequest>)
    ensures TotalSeats(items) == CountOf(items, Adult) + CountOf(items, Child)
  {
    if items != [] {
      SeatsByType(items[..|items| - 1]);
      AllocatedSeats();
    }
  }

  /** With no negative count, every sum is non-negative, and a measure that
      adds no more per ticket than another never sums to more. */
  lemma {:induction false} SumMonotone(items: seq<TicketTypeRequest>, lower: Measure, upper: Measure)
    requires NoNegativeCounts(items)
    requires forall t :: PerTicket(lower, t) <= PerTicket(upper, t)
    ensures 0 <= Sum(items, lower) <= Sum(items, upper)
  {
    if items != [] {
      var prefix := items[..|items| - 1];
      assert NoNegativeCounts(prefix) by {
        forall i | 0 <= i < |prefix| ensures prefix[i].noOfTickets >= 0 {
          assert prefix[i] == items[i];
        }
      }
      SumMonotone(prefix, lower, upper);
      var n, t := Last(items).noOfTickets, Last(items).ticketType;
      assert n >= 0;
      MultiplyMonotone(n, PerTicket(lower, t), PerTicket(upper, t));
    }
  }

  lemma MultiplyMonotone(n: int, a: int, b: int)
    requires n >= 0 && 0 <= a <= b
    ensures 0 <= n * a <= n * b
  {
  }

  /** A request never takes more seats than it has tickets, and neither its
      seats nor its amount is negative, when no count is negative. */
  lemma SeatsWithinTickets(items: seq<TicketTypeRequest>)
    requires NoNegativeCounts(items)
    ensures 0 <= TotalSeats(items) <= TotalTickets(items)
    ensures 0 <= TotalAmount(items)
  {
    SumMonotone(items, Seats, Tickets);
    SumMonotone(items, Amount, Amount);
  }

  /** Adding an infant line item adds nothing to the seats. */
  lemma InfantsTakeNoSeat(items: seq<TicketTypeRequest>, n: int)
    ensures TotalSeats(items + [TicketTypeRequest(Infant, n)]) == TotalSeats(items)
  {
  }

  // ---------------------------------------------------------------------------
  // Ticket-count check

  /** The ticket-count check, read prefix by prefix: the verdict of the first
      prefix whose last item is negative (checked first) or whose running total
      is above the maximum; Pass if there is none. */
  function CheckTicketCounts(items: seq<TicketTypeRequest>): (c: Check)
    ensures c == Pass || c == Fail(NegativeTicketCount) || c == Fail(TooManyTickets)
  {
    if items == [] then Pass
    else
      var earlier := CheckTicketCounts(items[..|items| - 1]);
      if earlier.Fail? then earlier
      else if Last(items).noOfTickets < 0 then Fail(NegativeTicketCount)
      else if TotalTickets(items) > MaxTicketCount then Fail(TooManyTickets)
      else Pass
  }

  /** Once a prefix fails the count check, the whole request fails it the same way. */
  lemma {:induction false} FailureIsFinal(items: seq<TicketTypeRequest>, k: nat)
    requires k <= |items|
    requires CheckTicketCounts(items[..k]).Fail?
    ensures CheckTicketCounts(items) == CheckTicketCounts(items[..k])
    decreases |items| - k
  {
    if k < |items| {
      var prefix := items[..|items| - 1];
      assert prefix[..k] == items[..k];
      FailureIsFinal(prefix, k);
    } else {
      assert items[..k] == items;
    }
  }

  /** The count check passes exactly when no count is negative and the request
      holds at most the maximum number of tickets. */
  lemma {:induction false} CountCheckPasses(items: seq<TicketTypeRequest>)
    ensures CheckTicketCounts(items) == Pass <==> NoNegativeCounts(items) && TotalTickets(items) <= MaxTicketCount
  {
    if items != [] {
      var prefix := items[..|items| - 1];
      CountCheckPasses(prefix);
      assert forall i | 0 <= i < |prefix| :: prefix[i] == items[i];
      if NoNegativeCounts(items) {
        assert NoNegativeCounts(prefix);
        assert Last(items).noOfTickets >= 0;
      }
    }
  }

  /** With no negative count the running total never falls, so the count check
      fails exactly when the whole request holds more than the maximum. */
  lemma CountCheckWithoutNegatives(items: seq<TicketTypeRequest>)
    requires NoNegativeCounts(items)
    ensures CheckTicketCounts(items) == Pass <==> TotalTickets(items) <= MaxTicketCount
    ensures CheckTicketCounts(items) == Fail(TooManyTickets) <==> TotalTickets(items) > MaxTicketCount
  {
  }

  /** At the first negative count, index `k`, the count check has failed for
      too many tickets if the items before it already hold more than the
      maximum; otherwise it fails for the negative count. */
  lemma FirstNegativeCount(items: seq<TicketTypeRequest>, k: nat)
    requires k < |items| && items[k].noOfTickets < 0
    requires forall j | 0 <= j < k :: items[j].noOfTickets >= 0
    ensures CheckTicketCounts(items) ==
      if TotalTickets(items[..k]) <= MaxTicketCount then Fail(NegativeTicketCount) else Fail(TooManyTickets)
  {
    var before := items[..k];
    assert NoNegativeCounts(before) by {
      forall j | 0 <= j < k ensures before[j].noOfTickets >= 0 {
        assert before[j] == items[j];
      }
    }
    CountCheckWithoutNegatives(before);
    if TotalTickets(before) <= MaxTicketCount {
      var upTo := items[..k + 1];
      assert upTo[..k] == before;
      assert CheckTicketCounts(upTo) == Fail(NegativeTicketCount);
      FailureIsFinal(items, k + 1);
    } else {
      FailureIsFinal(items, k);
    }
  }

  /** The count check: keeps a running total of the counts, and fails on the
      first item whose count is negative or that takes the total above the
      maximum. */
  method IsValidTicketCount(items: seq<TicketTypeRequest>) returns (c: Check)
    ensures c == CheckTicketCounts(items)
    ensures c.Pass? <==> NoNegativeCounts(items) && TotalTickets(items) <= MaxTicketCount
  {
    CountCheckPasses(items);
    var totalTickets := 0;
    var i := 0;
    while i < |items|
      invariant 0 <= i <= |items|
      invariant totalTickets == TotalTickets(items[..i])
      invariant CheckTicketCounts(items[..i]) == Pass
    {
      var request := items[i];
      totalTickets := totalTickets + request.noOfTickets;
      SumPrefix(items, i, Tickets);
      assert items[..i + 1][..i] == items[..i];
      if request.noOfTickets < 0 {
        FailureIsFinal(items, i + 1);
        return Fail(NegativeTicketCount);
      }
      if totalTickets > MaxTicketCount {
        FailureIsFinal(items, i + 1);
        return Fail(TooManyTickets);
      }
      i := i + 1;
    }
    assert items[..i] == items;
    return Pass;
  }

  // ---------------------------------------------------------------------------
  // Payment and reservation

  /** Adds up the amount owed, item by item, and returns the payment it asks for. */
  method CalculateTotalAmountAndPay(accountId: int, items: seq<TicketTypeRequest>) returns (payment: ServiceCall)
    ensures payment == MakePayment(accountId, TotalAmount(items))
    ensures payment.totalAmount == 20 * CountOf(items, Adult) + 10 * CountOf(items, Child)
  {
    var totalAmount := 0;
    for i := 0 to |items|
      invariant totalAmount == TotalAmount(items[..i])
    {
      totalAmount := totalAmount + items[i].noOfTickets * TicketPrice(items[i].ticketType);
      SumPrefix(items, i, Amount);
    }
    assert items[..|items|] == items;
    AmountByType(items);
    payment := MakePayment(accountId, totalAmount);
  }

  /** Adds up the seats needed, item by item, and returns the reservation it asks for. */
  method CalculateSeatsAndReserve(accountId: int, items: seq<TicketTypeRequest>) returns (reservation: ServiceCall)
    ensures reservation == ReserveSeat(accountId, TotalSeats(items))
    ensures reservation.totalSeats == CountOf(items, Adult) + CountOf(items, Child)
  {
    var totalSeats := 0;
    for i := 0 to |items|
      invariant totalSeats == TotalSeats(items[..i])
    {
      totalSeats := totalSeats + items[i].noOfTickets * AllocateSeat(items[i].ticketType);
      SumPrefix(items, i, Seats);
    }
    assert items[..|items|] == items;
    SeatsByType(items);
    reservation := ReserveSeat(accountId, totalSeats);
  }

  // ---------------------------------------------------------------------------
  // The purchase

  /** What a purchase comes to: the checks in order, the first failure wins,
      and a purchase that passes all three pays for and reserves its tickets. */
  function Purchase(account: AccountId, items: seq<TicketTypeRequest>): (r: Outcome)
    ensures CheckAccountId(account).Fail? ==> r == InvalidPurchase(InvalidAccountId)
    ensures r.Purchased? ==> CheckAccountId(account).Pass? && HasAdult(items) && CheckTicketCounts(items) == Pass
    ensures r.Purchased? ==> r.amount == TotalAmount(items) && r.seats == TotalSeats(items)
  {
    var accountCheck := CheckAccountId(account);
    if accountCheck.Fail? then InvalidPurchase(accountCheck.reason)
    else if !HasAdult(items) then InvalidPurchase(NoAdultTicket)
    else
      var countCheck := CheckTicketCounts(items);
      if countCheck.Fail? then InvalidPurchase(countCheck.reason)
      else Purchased(TotalAmount(items), TotalSeats(items))
  }

  /** Purchases tickets: runs the account, adult and count checks in that order,
      stopping at the first failure with no service called; otherwise pays and
      then reserves, and returns both calls in the order they were made. */
  method PurchaseTickets(account: AccountId, items: seq<TicketTypeRequest>) returns (outcome: Outcome, calls: seq<ServiceCall>)
    ensures outcome == Purchase(account, items)
    ensures outcome.InvalidPurchase? <==> calls == []
    ensures outcome.Purchased? ==>
      CheckAccountId(account).Pass? &&
      calls == [MakePayment(AccountNumber(account), outcome.amount), ReserveSeat(AccountNumber(account), outcome.seats)]
  {
    var accountCheck := CheckAccountId(account);
    if accountCheck.Fail? {
      return InvalidPurchase(accountCheck.reason), [];
    }
    var adultCheck := IncludesAdult(items);
    if adultCheck.Fail? {
      return InvalidPurchase(adultCheck.reason), [];
    }
    var countCheck := IsValidTicketCount(items);
    if countCheck.Fail? {
      return InvalidPurchase(countCheck.reason), [];
    }
    var accountId := AccountNumber(account);
    var payment := CalculateTotalAmountAndPay(accountId, items);
    var reservation := CalculateSeatsAndReserve(accountId, items);
    outcome := Purchased(payment.totalAmount, reservation.totalSeats);
    calls := [payment, reservation];
  }

  // ---------------------------------------------------------------------------
  // Properties of a purchase

  /** With a valid account, a request with no adult line item fails for that,
      whatever its counts. */
  lemma MissingAdultFailsSecond(account: AccountId, items: seq<TicketTypeRequest>)
    requires CheckAccountId(account).Pass?
    requires !HasAdult(items)
    ensures Purchase(account, items) == InvalidPurchase(NoAdultTicket)
  {
  }

  /** A purchase goes ahead exactly when the account id is a positive integer,
      some line item is for adults, no count is negative and the request holds
      at most the maximum number of tickets. */
  lemma PurchaseSucceeds(account: AccountId, items: seq<TicketTypeRequest>)
    ensures Purchase(account, items).Purchased? <==>
      CheckAccountId(account).Pass? && HasAdult(items) &&
      NoNegativeCounts(items) && TotalTickets(items) <= MaxTicketCount
  {
    CountCheckPasses(items);
  }

  /** A purchase that goes ahead pays 20 per adult and 10 per child ticket,
      reserves one seat per adult and child ticket, and reserves no more seats
      than it holds tickets, which is at most the maximum. */
  lemma PurchasedTotals(account: AccountId, items: seq<TicketTypeRequest>)
    requires Purchase(account, items).Purchased?
    ensures Purchase(account, items).amount == 20 * CountOf(items, Adult) + 10 * CountOf(items, Child) >= 0
    ensures Purchase(account, items).seats == CountOf(items, Adult) + CountOf(items, Child)
    ensures 0 <= Purchase(account, items).seats <= TotalTickets(items) <= MaxTicketCount
  {
    PurchaseSucceeds(account, items);
    AmountByType(items);
    SeatsByType(items);
    SeatsWithinTickets(items);
  }

  // ---------------------------------------------------------------------------
  // Example purchases

  /** Account 10 buying 7 adult, 3 child and 2 infant tickets pays 170 for 10 seats. */
  lemma ExampleValidPurchase()
    ensures Purchase(Finite(10.0), [TicketTypeRequest(Adult, 7), TicketTypeRequest(Child, 3), TicketTypeRequest(Infant, 2)])
      == Purchased(170, 10)
  {
    var items := [TicketTypeRequest(Adult, 7), TicketTypeRequest(Child, 3), TicketTypeRequest(Infant, 2)];
    assert HasAdult(items) by { assert items[0].ticketType == Adult; }
    TicketPrices();
    AllocatedSeats();
    forall m: Measure
      ensures Sum(items, m) == 7 * PerTicket(m, Adult) + 3 * PerTicket(m, Child) + 2 * PerTicket(m, Infant)
    {
      assert items[..0] == [];
      SumPrefix(items, 0, m);
      SumPrefix(items, 1, m);
      SumPrefix(items, 2, m);
      assert items[..3] == items;
    }
    CountCheckPasses(items);
  }

  /** Account 0, and an account id that is not a number, are refused. */
  lemma ExampleInvalidAccounts(items: seq<TicketTypeRequest>)
    ensures Purchase(Finite(0.0), items) == InvalidPurchase(InvalidAccountId)
    ensures Purchase(NonNumber, items) == InvalidPurchase(InvalidAccountId)
  {
  }

  /** Counts 7, 3, 2, 7, 7 stay within the maximum for four items (19) and
      reach a running total of 26 at the fifth. */
  lemma ExampleTooManyTickets()
    ensures var items := [TicketTypeRequest(Adult, 7), TicketTypeRequest(Child, 3), TicketTypeRequest(Infant, 2),
                          TicketTypeRequest(Adult, 7), TicketTypeRequest(Adult, 7)];
      CheckTicketCounts(items[..4]) == Pass &&
      Purchase(Finite(10.0), items) == InvalidPurchase(TooManyTickets)
  {
    var items := [TicketTypeRequest(Adult, 7), TicketTypeRequest(Child, 3), TicketTypeRequest(Infant, 2),
                  TicketTypeRequest(Adult, 7), TicketTypeRequest(Adult, 7)];
    assert HasAdult(items) by { assert items[0].ticketType == Adult; }
    assert items[..0] == [] && items[..5] == items;
    SumPrefix(items, 0, Tickets);
    SumPrefix(items, 1, Tickets);
    SumPrefix(items, 2, Tickets);
    SumPrefix(items, 3, Tickets);
    SumPrefix(items, 4, Tickets);
    CountCheckWithoutNegatives(items);
    assert NoNegativeCounts(items[..4]);
    CountCheckWithoutNegatives(items[..4]);
  }

  /** A lone adult line item with count -2 fails for its negative count. */
  lemma ExampleNegativeCount()
    ensures Purchase(Finite(10.0), [TicketTypeRequest(Adult, -2)]) == InvalidPurchase(NegativeTicketCount)
  {
    var items := [TicketTypeRequest(Adult, -2)];
    assert HasAdult(items) by { assert items[0].ticketType == Adult; }
    FirstNegativeCount(items, 0);
  }

  /** The adult check looks only at types: an adult line item with count 0
      lets five child tickets through, paid at 50 for 5 seats. */
  lemma ExampleZeroAdultsWithChildren()
    ensures Purchase(Finite(1.0), [TicketTypeRequest(Adult, 0), TicketTypeRequest(Child, 5)]) == Purchased(50, 5)
  {
    var items := [TicketTypeRequest(Adult, 0), TicketTypeRequest(Child, 5)];
    assert HasAdult(items) by { assert items[0].ticketType == Adult; }
    TicketPrices();
    AllocatedSeats();
    forall m: Measure
      ensures Sum(items, m) == 5 * PerTicket(m, Child)
    {
      assert items[..0] == [] && items[..2] == items;
      SumPrefix(items, 0, m);
      SumPrefix(items, 1, m);
    }
    CountCheckPasses(items);
  }
}
