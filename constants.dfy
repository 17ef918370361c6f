// The ticket types of the cinema, the per-request ticket limit, and the two
// lookup tables (unit price and seats allocated per ticket) that a purchase
// reads. The tables are keyed by the type's name, as in the service's constants.js.

module Constants {

  /** The three kinds of ticket a line item can ask for. */
  datatype TicketType = Adult | Child | Infant

  const AdultTypeName: string := "ADULT"
  const ChildTypeName: string := "CHILD"
  const InfantTypeName: string := "INFANT"

  /** The most tickets one purchase request may hold. */
  const MaxTicketCount: nat := 20

  /** Unit price of a ticket, keyed by the ticket type's name. */
  const TicketPriceTable: map<string, int> :=
    map[AdultTypeName := 20, InfantTypeName := 0, ChildTypeName := 10]

  /** Seats allocated per ticket, keyed by the ticket type's name. */
  const AllocateSeatTable: map<string, int> :=
    map[AdultTypeName := 1, InfantTypeName := 0, ChildTypeName := 1]

  /** The name under which a ticket type is known, and the key of both tables.
      Every type's name has an entry in both tables, so lookups never miss. */
  function TypeName(t: TicketType): (name: string)
    ensures name in TicketPriceTable && name in AllocateSeatTable
  {
    match t
    case Adult => AdultTypeName
    case Child => ChildTypeName
    case Infant => InfantTypeName
  }

  /** Comparing names decides the type: distinct types have distinct names. */
  lemma TypeNamesDistinct(t: TicketType, u: TicketType)
    ensures TypeName(t) == TypeName(u) <==> t == u
  {
  }

  /** The price of one ticket of type `t`: only infant tickets are free. */
  function TicketPrice(t: TicketType): (price: nat)
    ensures price == 0 <==> t == Infant
  {
    TicketPriceTable[TypeName(t)]
  }

  /** The seats one ticket of type `t` takes: at most one, and none for an
      infant. */
  function AllocateSeat(t: TicketType): (seats: nat)
    ensures seats <= 1
    ensures seats == 0 <==> t == Infant
  {
    AllocateSeatTable[TypeName(t)]
  }

  /** The price table's values. */
  lemma TicketPrices()
    ensures TicketPrice(Adult) == 20 && TicketPrice(Child) == 10 && TicketPrice(Infant) == 0
  {
  }

  /** The seat table's values. */
  lemma AllocatedSeats()
    ensures AllocateSeat(Adult) == 1 && AllocateSeat(Child) == 1 && AllocateSeat(Infant) == 0
  {
  }
}
