/** Values exchanged by the ticket service: ticket types, the entries it stores,
    the reasons a purchase is refused and the calls it makes to the payment and
    seat-reservation services. */
module Tickets {

  datatype Option<+T> = None | Some(value: T)

  datatype Result<+R, +E> = Ok(value: R) | Err(error: E)

  /** The closed set of ticket types. */
  datatype TicketType = Adult | Child | Infant

  /** One element of the array handed to purchaseTickets: a type name as the
      caller wrote it and a ticket count. */
  datatype TicketInput = TicketInput(typeName: string, noOfTickets: int)

  /** One entry of the service's `requests` list, after the type was checked. */
  datatype TicketRequest = TicketRequest(kind: TicketType, noOfTickets: int)

  /** The business rule an InvalidPurchaseException reports. */
  datatype Reason =
    | NoAdultTicket          // the first ADULT entry is missing or has count 0
    | AdultBelowMinimum      // the first ADULT entry has a count below the minimum of 1
    | TooManyTickets         // the counts of all entries add up to more than 20
    | TooManyInfants         // more infants than adults

  /** How a purchase fails: a TypeError for a ticket type outside the closed
      set, or an InvalidPurchaseException for a broken business rule. */
  datatype Failure =
    | UnknownTicketType(typeName: string)
    | InvalidPurchase(reason: Reason)

  /** A call to one of the two third-party services, with its arguments. */
  datatype Call =
    | Payment(accountId: int, amount: int)
    | Reservation(accountId: int, seats: int)

  const SuccessMessage: string := "Cinema tickets purchased and seats reservation is successful"

  /** The name under which a ticket type is written in a request. */
  function TypeName(t: TicketType): string
  {
    match t
    case Adult => "ADULT"
    case Child => "CHILD"
    case Infant => "INFANT"
  }

  /** The type check a ticket request undergoes: only the three names are accepted. */
  function ParseType(name: string): (r: Option<TicketType>)
    ensures r.Some? ==> TypeName(r.value) == name
    ensures r.None? ==> forall t: TicketType :: TypeName(t) != name
  {
    if name == "ADULT" then Some(Adult)
    else if name == "CHILD" then Some(Child)
    else if name == "INFANT" then Some(Infant)
    else None
  }

  lemma ParseTypeName(t: TicketType)
    ensures ParseType(TypeName(t)) == Some(t)
  {
  }

  /** The text of the exception raised for each broken rule. */
  function Message(reason: Reason): string
  {
    match reason
    case NoAdultTicket => "You have to purchase at least one adult ticket"
    case AdultBelowMinimum => "Child and Infant tickets cannot be purchased without purchasing an Adult ticket."
    case TooManyTickets => "Only a maximum of 20 tickets can be purchased at a time"
    case TooManyInfants => "Number of Infant tickets cannot be greater than the Number of Adult tickets."
  }
}
