/** Concrete purchases: the demo order, the repository's test cases, the
    check order, duplicate entries, and a reused service instance. */
module Scenarios {
  import opened Tickets
  import opened Rules
  import opened Purchase
  import opened Service

  function AdultInput(n: int): TicketInput { TicketInput("ADULT", n) }
  function ChildInput(n: int): TicketInput { TicketInput("CHILD", n) }
  function InfantInput(n: int): TicketInput { TicketInput("INFANT", n) }

  /** The entries three known inputs are parsed into, and the lookups and
      total over them. */
  lemma {:induction false} ThreeEntries(inputs: seq<TicketInput>, reqs: seq<TicketRequest>)
    requires |inputs| == |reqs| == 3
    requires forall i :: 0 <= i < 3 ==>
               ParseType(inputs[i].typeName) == Some(reqs[i].kind) &&
               reqs[i].noOfTickets == inputs[i].noOfTickets
    ensures ParsedPrefix(inputs) == reqs
    ensures forall t :: NoOfTickets(reqs, t) ==
              if reqs[0].kind == t then reqs[0].noOfTickets
              else if reqs[1].kind == t then reqs[1].noOfTickets
              else if reqs[2].kind == t then reqs[2].noOfTickets
              else 0
    ensures TotalTickets(reqs) == reqs[0].noOfTickets + reqs[1].noOfTickets + reqs[2].noOfTickets
  {
    ParsedPrefixUnique(inputs, reqs);
    var second, third := reqs[1..], reqs[2..];
    assert second[1..] == third && third[1..] == [];
    assert second[0] == reqs[1] && third[0] == reqs[2];
    assert TotalTickets(third) == reqs[2].noOfTickets + TotalTickets([]);
    assert TotalTickets(second) == reqs[1].noOfTickets + TotalTickets(third);
    forall t
      ensures NoOfTickets(reqs, t) ==
                if reqs[0].kind == t then reqs[0].noOfTickets
                else if reqs[1].kind == t then reqs[1].noOfTickets
                else if reqs[2].kind == t then reqs[2].noOfTickets
                else 0
    {
      assert NoOfTickets(third, t) == if reqs[2].kind == t then reqs[2].noOfTickets else NoOfTickets([], t);
      assert NoOfTickets(second, t) == if reqs[1].kind == t then reqs[1].noOfTickets else NoOfTickets(third, t);
    }
  }

  /** The entries the demo order leaves in a fresh instance. */
  function DemoRequests(): seq<TicketRequest>
  {
    [TicketRequest(Adult, 5), TicketRequest(Infant, 1), TicketRequest(Child, 1)]
  }

  /** The demo order: 5 adults, 1 infant, 1 child on account 1 is charged 105
      and reserves 6 seats. */
  lemma {:induction false} DemoOrder()
    ensures PurchaseOutcome([], 1, [AdultInput(5), InfantInput(1), ChildInput(1)]) ==
      Outcome(DemoRequests(),
              [Payment(1, 105), Reservation(1, 6)],
              Ok(SuccessMessage))
  {
    var reqs := DemoRequests();
    ThreeEntries([AdultInput(5), InfantInput(1), ChildInput(1)], reqs);
    assert [] + reqs == reqs;
    assert ValidateRequest(reqs) == None;
    assert TotalAmount(reqs) == 105 && SeatsToAllocate(reqs) == 6;
  }

  lemma {:induction false} ValidOrderSucceeds()
    ensures var o := PurchaseOutcome([], 1, [AdultInput(5), InfantInput(3), ChildInput(2)]);
      o.result == Ok(SuccessMessage) && o.calls == [Payment(1, 110), Reservation(1, 7)]
  {
    var inputs := [AdultInput(5), InfantInput(3), ChildInput(2)];
    var reqs := [TicketRequest(Adult, 5), TicketRequest(Infant, 3), TicketRequest(Child, 2)];
    ThreeEntries(inputs, reqs);
    assert [] + reqs == reqs;
  }

  lemma {:induction false} OverCapOrderFails()
    ensures var o := PurchaseOutcome([], 1, [AdultInput(5), InfantInput(3), ChildInput(18)]);
      o.result == Err(InvalidPurchase(TooManyTickets)) && o.calls == []
  {
    var reqs := [TicketRequest(Adult, 5), TicketRequest(Infant, 3), TicketRequest(Child, 18)];
    ThreeEntries([AdultInput(5), InfantInput(3), ChildInput(18)], reqs);
    assert [] + reqs == reqs;
  }

  lemma {:induction false} TooManyInfantsOrderFails()
    ensures var o := PurchaseOutcome([], 1, [AdultInput(5), InfantInput(7), ChildInput(1)]);
      o.result == Err(InvalidPurchase(TooManyInfants)) && o.calls == []
  {
    var reqs := [TicketRequest(Adult, 5), TicketRequest(Infant, 7), TicketRequest(Child, 1)];
    ThreeEntries([AdultInput(5), InfantInput(7), ChildInput(1)], reqs);
    assert [] + reqs == reqs;
  }

  lemma {:induction false} NoAdultOrderFails()
    ensures var o := PurchaseOutcome([], 1, [InfantInput(7), ChildInput(1)]);
      o.result == Err(InvalidPurchase(NoAdultTicket)) && o.calls == []
  {
    var reqs := [TicketRequest(Infant, 7), TicketRequest(Child, 1)];
    ParsedPrefixUnique([InfantInput(7), ChildInput(1)], reqs);
    assert [] + reqs == reqs;
    assert reqs[1..][1..] == [];
  }

  lemma {:induction false} UnknownTypeOrderFails()
    ensures var o := PurchaseOutcome([], 1, [TicketInput("ADUL", 7), InfantInput(7), ChildInput(1)]);
      o.result == Err(UnknownTicketType("ADUL")) && o.calls == [] && o.requests == []
  {
    var none: seq<TicketRequest> := [];
    ParsedPrefixUnique([TicketInput("ADUL", 7), InfantInput(7), ChildInput(1)], none);
    assert none + none == none;
  }

  /** Both the cap and the infant rule are broken; the cap, checked first, is
      the one reported. */
  lemma {:induction false} CapReportedBeforeInfants()
    ensures PurchaseOutcome([], 1, [AdultInput(5), InfantInput(7), ChildInput(18)]).result ==
      Err(InvalidPurchase(TooManyTickets))
  {
    var reqs := [TicketRequest(Adult, 5), TicketRequest(Infant, 7), TicketRequest(Child, 18)];
    ThreeEntries([AdultInput(5), InfantInput(7), ChildInput(18)], reqs);
    assert [] + reqs == reqs;
  }

  /** A second ADULT entry is ignored for the charge and the seats. */
  lemma {:induction false} DuplicateAdultIgnoredForPrice()
    ensures PurchaseOutcome([], 1, [AdultInput(5), AdultInput(10), ChildInput(1)]).calls ==
      [Payment(1, 105), Reservation(1, 6)]
  {
    var reqs := [TicketRequest(Adult, 5), TicketRequest(Adult, 10), TicketRequest(Child, 1)];
    ThreeEntries([AdultInput(5), AdultInput(10), ChildInput(1)], reqs);
    assert [] + reqs == reqs;
  }

  /** A second ADULT entry still counts toward the cap: 5 + 1 + 15 breaks it,
      although the looked-up counts add up to 6. */
  lemma {:induction false} DuplicateAdultCountsTowardCap()
    ensures PurchaseOutcome([], 1, [AdultInput(5), ChildInput(1), AdultInput(15)]).result ==
      Err(InvalidPurchase(TooManyTickets))
  {
    var reqs := [TicketRequest(Adult, 5), TicketRequest(Child, 1), TicketRequest(Adult, 15)];
    ThreeEntries([AdultInput(5), ChildInput(1), AdultInput(15)], reqs);
    assert [] + reqs == reqs;
  }

  lemma {:induction false} DemoPlusAdultCounts()
    ensures var more := DemoRequests() + [TicketRequest(Adult, 2)];
      NoOfTickets(more, Adult) == 5 && NoOfTickets(more, Child) == 1 &&
      NoOfTickets(more, Infant) == 1 && TotalTickets(more) == 9
  {
    var demo := DemoRequests();
    assert demo[0].kind == Adult && demo[2].kind == Child && demo[1].kind == Infant;
    NoOfTicketsAppend(demo, [TicketRequest(Adult, 2)], Adult);
    NoOfTicketsAppend(demo, [TicketRequest(Adult, 2)], Child);
    NoOfTicketsAppend(demo, [TicketRequest(Adult, 2)], Infant);
    TotalTicketsAppend(demo, [TicketRequest(Adult, 2)]);
    ThreeEntries([AdultInput(5), InfantInput(1), ChildInput(1)], demo);
    assert TotalTickets([TicketRequest(Adult, 2)]) == 2;
  }

  /** On the instance that already holds the demo order's entries, an order
      for 2 adults is charged and seated as the demo order was. */
  lemma {:induction false} ReusedInstanceRepeatsFirstCounts()
    ensures var o := PurchaseOutcome(DemoRequests(), 2, [AdultInput(2)]);
      o.requests == DemoRequests() + [TicketRequest(Adult, 2)] &&
      o.calls == [Payment(2, 105), Reservation(2, 6)]
  {
    var more := DemoRequests() + [TicketRequest(Adult, 2)];
    ParsedPrefixUnique([AdultInput(2)], [TicketRequest(Adult, 2)]);
    DemoPlusAdultCounts();
    assert ValidateRequest(more) == None;
    assert TotalAmount(more) == 105 && SeatsToAllocate(more) == 6;
  }

  /** On the same instance, an order for 15 adults breaks the cap only because
      the earlier calls' 9 tickets still count. */
  lemma {:induction false} ReusedInstanceCapIncludesEarlierCalls()
    ensures PurchaseOutcome(DemoRequests() + [TicketRequest(Adult, 2)], 3, [AdultInput(15)]).result ==
      Err(InvalidPurchase(TooManyTickets))
  {
    var prior := DemoRequests() + [TicketRequest(Adult, 2)];
    var all := prior + [TicketRequest(Adult, 15)];
    ParsedPrefixUnique([AdultInput(15)], [TicketRequest(Adult, 15)]);
    DemoPlusAdultCounts();
    assert prior[0].kind == Adult;
    NoOfTicketsAppend(prior, [TicketRequest(Adult, 15)], Adult);
    TotalTicketsAppend(prior, [TicketRequest(Adult, 15)]);
    assert TotalTickets([TicketRequest(Adult, 15)]) == 15;
    assert NoOfTickets(all, Adult) == 5;
  }

  /** The same three purchases through one TicketService object. */
  method ReusedInstance()
  {
    var service := new TicketService();
    DemoOrder();
    var first := service.PurchaseTickets(1, [AdultInput(5), InfantInput(1), ChildInput(1)]);
    assert service.requests == DemoRequests();
    ReusedInstanceRepeatsFirstCounts();
    var second := service.PurchaseTickets(2, [AdultInput(2)]);
    assert second == Ok(SuccessMessage) by { NoChargeUnlessAllChecksPass(DemoRequests(), 2, [AdultInput(2)]); }
    assert service.calls == [Payment(1, 105), Reservation(1, 6), Payment(2, 105), Reservation(2, 6)];
    ReusedInstanceCapIncludesEarlierCalls();
    var third := service.PurchaseTickets(3, [AdultInput(15)]);
    assert third == Err(InvalidPurchase(TooManyTickets));
    assert service.accountId == Some(3);
  }
}
