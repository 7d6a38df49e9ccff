/** What one call of purchaseTickets does to a TicketService, as a function of
    the entries it already holds, the account id and the input array: the new
    `requests` list, the calls made to the payment and seat-reservation
    services, and the returned string or the raised error. */
module Purchase {
  import opened Tickets
  import opened Rules

  /** The entries the append loop pushes: one per input, in input order, up to
      the first input whose type name is unknown, where the loop throws. */
  function ParsedPrefix(inputs: seq<TicketInput>): (tickets: seq<TicketRequest>)
    ensures |tickets| <= |inputs|
    ensures forall i :: 0 <= i < |tickets| ==>
              ParseType(inputs[i].typeName) == Some(tickets[i].kind) &&
              tickets[i].noOfTickets == inputs[i].noOfTickets
    ensures |tickets| < |inputs| ==> ParseType(inputs[|tickets|].typeName).None?
  {
    if inputs == [] then []
    else match ParseType(inputs[0].typeName)
      case None => []
      case Some(t) =>
        var rest := ParsedPrefix(inputs[1..]);
        assert forall i :: 1 <= i < |inputs| ==> inputs[i] == inputs[1..][i - 1];
        [TicketRequest(t, inputs[0].noOfTickets)] + rest
  }

  predicate AllTypesKnown(inputs: seq<TicketInput>)
  {
    forall i :: 0 <= i < |inputs| ==> ParseType(inputs[i].typeName).Some?
  }

  /** The three properties of ParsedPrefix determine it: any list of entries
      that has them is ParsedPrefix. */
  lemma {:induction false} ParsedPrefixUnique(inputs: seq<TicketInput>, tickets: seq<TicketRequest>)
    requires |tickets| <= |inputs|
    requires forall i :: 0 <= i < |tickets| ==>
               ParseType(inputs[i].typeName) == Some(tickets[i].kind) &&
               tickets[i].noOfTickets == inputs[i].noOfTickets
    requires |tickets| < |inputs| ==> ParseType(inputs[|tickets|].typeName).None?
    ensures ParsedPrefix(inputs) == tickets
  {
    var p := ParsedPrefix(inputs);
    assert forall i :: 0 <= i < |p| ==> ParseType(inputs[i].typeName).Some?;
    assert forall i :: 0 <= i < |tickets| ==> ParseType(inputs[i].typeName).Some?;
    assert |p| == |tickets|;
    forall i | 0 <= i < |p| ensures p[i] == tickets[i] {
      assert ParseType(inputs[i].typeName) == Some(p[i].kind);
    }
  }

  datatype Outcome = Outcome(requests: seq<TicketRequest>, calls: seq<Call>, result: Result<string, Failure>)

  /** One purchaseTickets call on an instance whose list holds `prior`. */
  function PurchaseOutcome(prior: seq<TicketRequest>, accountId: int, inputs: seq<TicketInput>): (o: Outcome)
    ensures o.requests == prior + ParsedPrefix(inputs)
  {
    var parsed := ParsedPrefix(inputs);
    var requests := prior + parsed;
    if |parsed| < |inputs| then
      Outcome(requests, [], Err(UnknownTicketType(inputs[|parsed|].typeName)))
    else
      match ValidateRequest(requests)
      case Some(reason) => Outcome(requests, [], Err(InvalidPurchase(reason)))
      case None =>
        Outcome(requests,
                [Payment(accountId, TotalAmount(requests)), Reservation(accountId, SeatsToAllocate(requests))],
                Ok(SuccessMessage))
  }

  /** `requests` only grows: earlier entries stay as they were, one entry is
      appended per input in input order, and when every type is known all of
      them are appended, whether or not a business rule then fails. */
  lemma {:induction false} RequestsOnlyGrow(prior: seq<TicketRequest>, accountId: int, inputs: seq<TicketInput>)
    ensures var o := PurchaseOutcome(prior, accountId, inputs);
      |prior| <= |o.requests| <= |prior| + |inputs| &&
      o.requests[..|prior|] == prior &&
      (forall j :: |prior| <= j < |o.requests| ==>
         TypeName(o.requests[j].kind) == inputs[j - |prior|].typeName &&
         o.requests[j].noOfTickets == inputs[j - |prior|].noOfTickets) &&
      (AllTypesKnown(inputs) ==> |o.requests| == |prior| + |inputs|)
  {
    var o := PurchaseOutcome(prior, accountId, inputs);
    var parsed := ParsedPrefix(inputs);
    assert o.requests[..|prior|] == prior;
    forall j | |prior| <= j < |o.requests|
      ensures TypeName(o.requests[j].kind) == inputs[j - |prior|].typeName
      ensures o.requests[j].noOfTickets == inputs[j - |prior|].noOfTickets
    {
      assert o.requests[j] == parsed[j - |prior|];
    }
  }

  /** An unknown type name raises a TypeError naming the first unknown name;
      the entries before it have been appended and nothing is charged or
      reserved. */
  lemma {:induction false} UnknownTypeRejected(prior: seq<TicketRequest>, accountId: int, inputs: seq<TicketInput>)
    requires !AllTypesKnown(inputs)
    ensures var o := PurchaseOutcome(prior, accountId, inputs);
      o.calls == [] &&
      exists k :: 0 <= k < |inputs| &&
        o.result == Err(UnknownTicketType(inputs[k].typeName)) &&
        ParseType(inputs[k].typeName).None? &&
        AllTypesKnown(inputs[..k]) &&
        o.requests == prior + ParsedPrefix(inputs[..k])
  {
    var parsed := ParsedPrefix(inputs);
    var k := |parsed|;
    var j :| 0 <= j < |inputs| && ParseType(inputs[j].typeName).None?;
    assert forall i :: 0 <= i < k ==> ParseType(inputs[i].typeName).Some?;
    assert k <= j;
    assert AllTypesKnown(inputs[..k]) by {
      forall i | 0 <= i < k ensures ParseType(inputs[..k][i].typeName).Some? {
        assert ParseType(inputs[i].typeName) == Some(parsed[i].kind);
      }
    }
    ParsedPrefixUnique(inputs[..k], parsed);
  }

  /** Nothing is charged or reserved unless every type is known and all three
      checks pass; when they do, the call succeeds. */
  lemma {:induction false} NoChargeUnlessAllChecksPass(prior: seq<TicketRequest>, accountId: int, inputs: seq<TicketInput>)
    ensures var o := PurchaseOutcome(prior, accountId, inputs);
      (o.calls != [] <==> AllTypesKnown(inputs) && Admissible(o.requests)) &&
      (o.result.Ok? <==> o.calls != [])
  {
    var parsed := ParsedPrefix(inputs);
    if |parsed| == |inputs| {
      assert AllTypesKnown(inputs) by {
        forall i | 0 <= i < |inputs| ensures ParseType(inputs[i].typeName).Some? {
          assert ParseType(inputs[i].typeName) == Some(parsed[i].kind);
        }
      }
    }
  }

  /** If the first ADULT entry is missing or has count 0, the call fails with
      the "at least one adult" exception and nothing is charged or reserved. */
  lemma {:induction false} NoAdultRejected(prior: seq<TicketRequest>, accountId: int, inputs: seq<TicketInput>)
    requires AllTypesKnown(inputs)
    requires NoOfTickets(prior + ParsedPrefix(inputs), Adult) == 0
    ensures var o := PurchaseOutcome(prior, accountId, inputs);
      o.result == Err(InvalidPurchase(NoAdultTicket)) && o.calls == []
  {
    AllKnownParsesAll(inputs);
  }

  /** More than MaxTickets tickets over all entries, duplicates included, makes
      the call fail with an InvalidPurchaseException; the cap is reported
      exactly when the adult check passed. */
  lemma {:induction false} OverCapRejected(prior: seq<TicketRequest>, accountId: int, inputs: seq<TicketInput>)
    requires AllTypesKnown(inputs)
    requires TotalTickets(prior + ParsedPrefix(inputs)) > MaxTickets
    ensures var o := PurchaseOutcome(prior, accountId, inputs);
      o.calls == [] &&
      o.result.Err? && o.result.error.InvalidPurchase? &&
      o.result.error.reason in {NoAdultTicket, AdultBelowMinimum, TooManyTickets} &&
      (o.result.error.reason == TooManyTickets <==> NoOfTickets(o.requests, Adult) >= MinAdultTicket)
  {
    AllKnownParsesAll(inputs);
  }

  /** More infants than adults makes the call fail with an
      InvalidPurchaseException; the infant rule is reported only when the
      adult and cap checks passed. */
  lemma {:induction false} TooManyInfantsRejected(prior: seq<TicketRequest>, accountId: int, inputs: seq<TicketInput>)
    requires AllTypesKnown(inputs)
    requires NoOfTickets(prior + ParsedPrefix(inputs), Adult) < NoOfTickets(prior + ParsedPrefix(inputs), Infant)
    ensures var o := PurchaseOutcome(prior, accountId, inputs);
      o.calls == [] &&
      o.result.Err? && o.result.error.InvalidPurchase? &&
      (o.result.error.reason == TooManyInfants <==>
         NoOfTickets(o.requests, Adult) >= MinAdultTicket && TotalTickets(o.requests) <= MaxTickets)
  {
    AllKnownParsesAll(inputs);
  }

  /** A successful call makes exactly one payment, of 20 per adult, 5 per
      child and 0 per infant, followed by exactly one reservation of a seat per
      adult and child, both for the given account, and returns the fixed
      success message. */
  lemma {:induction false} SuccessfulPurchase(prior: seq<TicketRequest>, accountId: int, inputs: seq<TicketInput>)
    requires PurchaseOutcome(prior, accountId, inputs).result.Ok?
    ensures var o := PurchaseOutcome(prior, accountId, inputs);
      var adults := NoOfTickets(o.requests, Adult);
      var children := NoOfTickets(o.requests, Child);
      var infants := NoOfTickets(o.requests, Infant);
      o.result.value == SuccessMessage &&
      o.calls == [Payment(accountId, adults * 20 + children * 5 + infants * 0),
                  Reservation(accountId, adults + children)] &&
      1 <= adults && infants <= adults && TotalTickets(o.requests) <= 20
  {
    NoChargeUnlessAllChecksPass(prior, accountId, inputs);
    AllKnownParsesAll(inputs);
    var requests := prior + ParsedPrefix(inputs);
    assert ValidateRequest(requests).None?;
    assert PurchaseOutcome(prior, accountId, inputs) ==
      Outcome(requests,
              [Payment(accountId, TotalAmount(requests)), Reservation(accountId, SeatsToAllocate(requests))],
              Ok(SuccessMessage));
  }

  lemma {:induction false} AllKnownParsesAll(inputs: seq<TicketInput>)
    requires AllTypesKnown(inputs)
    ensures |ParsedPrefix(inputs)| == |inputs|
  {
  }

  /** On a reused instance the list still holds earlier calls' entries: a type
      that already has an entry keeps that entry's count, whatever the new
      call asks for, and the cap counts the earlier entries too. */
  lemma {:induction false} EarlierCallsDominate(prior: seq<TicketRequest>, accountId: int, inputs: seq<TicketInput>, t: TicketType)
    ensures var o := PurchaseOutcome(prior, accountId, inputs);
      (HasType(prior, t) ==> NoOfTickets(o.requests, t) == NoOfTickets(prior, t)) &&
      TotalTickets(o.requests) == TotalTickets(prior) + TotalTickets(ParsedPrefix(inputs))
  {
    NoOfTicketsAppend(prior, ParsedPrefix(inputs), t);
    TotalTicketsAppend(prior, ParsedPrefix(inputs));
  }
}
