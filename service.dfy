/** The TicketService object: its `requests` list, which every call appends
    to and nothing clears, the account id of the latest call, and a ghost log
    of the calls it makes to the payment and seat-reservation services. */
module Service {
  import opened Tickets
  import opened Rules
  import opened Purchase

  class TicketService {
    var requests: seq<TicketRequest>
    var accountId: Option<int>       // undefined until the first purchase
    ghost var calls: seq<Call>       // every payment and reservation requested, in order

    constructor ()
      ensures requests == [] && accountId == None && calls == []
    {
      requests := [];
      accountId := None;
      calls := [];
    }

    /** Records the account id; it stays set whatever the purchase then does. */
    method SetAccountId(id: int)
      modifies this`accountId
      ensures accountId == Some(id)
    {
      accountId := Some(id);
    }

    /** Appends one entry per input, then validates, charges and reserves.
        The type of each input is checked when its entry is built, so an
        unknown type stops the loop with the earlier entries already pushed. */
    method TicketTypeRequest(inputs: seq<TicketInput>) returns (failure: Option<Failure>)
      requires accountId.Some?
      modifies this`requests, this`calls
      ensures var o := PurchaseOutcome(old(requests), accountId.value, inputs);
        requests == o.requests && calls == old(calls) + o.calls &&
        failure == (if o.result.Ok? then None else Some(o.result.error))
    {
      ghost var prior := requests;
      var i := 0;
      while i < |inputs|
        invariant 0 <= i <= |inputs|
        invariant |requests| == |prior| + i && requests[..|prior|] == prior
        invariant forall j :: 0 <= j < i ==>
                    ParseType(inputs[j].typeName) == Some(requests[|prior| + j].kind) &&
                    requests[|prior| + j].noOfTickets == inputs[j].noOfTickets
        invariant calls == old(calls)
      {
        var kind := ParseType(inputs[i].typeName);
        if kind.None? {
          ParsedPrefixUnique(inputs, requests[|prior|..]);
          assert requests == prior + requests[|prior|..];
          return Some(UnknownTicketType(inputs[i].typeName));
        }
        requests := requests + [TicketRequest(kind.value, inputs[i].noOfTickets)];
        i := i + 1;
      }
      ParsedPrefixUnique(inputs, requests[|prior|..]);
      assert requests == prior + requests[|prior|..];
      var violation := ValidateRequest(requests);
      if violation.Some? {
        return Some(InvalidPurchase(violation.value));
      }
      CalcTotalTicketAmount();
      ReserveSeats();
      return None;
    }

    /** Prices the order and asks the payment service to charge it. */
    method CalcTotalTicketAmount()
      requires accountId.Some?
      modifies this`calls
      ensures calls == old(calls) + [Payment(accountId.value, TotalAmount(requests))]
    {
      var amount := TotalAmount(requests);
      MakePayments(accountId.value, amount);
    }

    /** The payment service's makePayment, recorded in the log. */
    method MakePayments(id: int, amount: int)
      modifies this`calls
      ensures calls == old(calls) + [Payment(id, amount)]
    {
      calls := calls + [Payment(id, amount)];
    }

    /** Asks the seat-reservation service for a seat per adult and child. */
    method ReserveSeats()
      requires accountId.Some?
      modifies this`calls
      ensures calls == old(calls) + [Reservation(accountId.value, SeatsToAllocate(requests))]
    {
      var seats := SeatsToAllocate(requests);
      calls := calls + [Reservation(accountId.value, seats)];
    }

    /** Sets the account id, then appends, validates, charges and reserves;
        returns the success message unless an error was raised. */
    method PurchaseTickets(id: int, inputs: seq<TicketInput>) returns (r: Result<string, Failure>)
      modifies this
      ensures accountId == Some(id)
      ensures var o := PurchaseOutcome(old(requests), id, inputs);
        requests == o.requests && calls == old(calls) + o.calls && r == o.result
    {
      SetAccountId(id);
      var failure := TicketTypeRequest(inputs);
      if failure.Some? {
        return Err(failure.value);
      }
      return Ok(SuccessMessage);
    }
  }
}
