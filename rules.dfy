/** The computations TicketService performs over its `requests` list: the
    first-match lookup of a type's count, the sum of all counts, the three
    business-rule checks in their fixed order, the charge and the seat count. */
module Rules {
  import opened Tickets

  // The constants the TicketService constructor sets.
  const MaxTickets: int := 20
  const MinAdultTicket: int := 1
  const AdultTicketAmount: int := 20
  const ChildTicketAmount: int := 5
  const InfantTicketAmount: int := 0

  /** The price table: no price is negative, every price is a whole multiple
      of 5, and the only free type is the one that takes no seat. */
  function TicketPrice(t: TicketType): (price: int)
    ensures price >= 0 && price % 5 == 0
    ensures price == 0 <==> !TakesSeat(t)
  {
    match t
    case Adult => AdultTicketAmount
    case Child => ChildTicketAmount
    case Infant => InfantTicketAmount
  }

  /** Infants are the only type that does not occupy a seat. */
  predicate TakesSeat(t: TicketType)
  {
    t != Infant
  }

  predicate HasType(requests: seq<TicketRequest>, t: TicketType)
  {
    exists i :: 0 <= i < |requests| && requests[i].kind == t
  }

  predicate NonNegative(requests: seq<TicketRequest>)
  {
    forall i :: 0 <= i < |requests| ==> requests[i].noOfTickets >= 0
  }

  /** The count of the first entry of type t, or 0 when there is none. */
  function NoOfTickets(requests: seq<TicketRequest>, t: TicketType): (n: int)
    ensures NonNegative(requests) ==> 0 <= n <= TotalTickets(requests)
  {
    if requests == [] then 0
    else if requests[0].kind == t then requests[0].noOfTickets
    else
      var n := NoOfTickets(requests[1..], t);
      assert forall i :: 1 <= i < |requests| ==> requests[i] == requests[1..][i - 1];
      n
  }

  /** The sum of the counts of all entries. */
  function TotalTickets(requests: seq<TicketRequest>): (n: int)
    ensures NonNegative(requests) ==> n >= 0
  {
    if requests == [] then 0
    else
      assert forall i :: 0 <= i < |requests| - 1 ==> requests[1..][i] == requests[i + 1];
      requests[0].noOfTickets + TotalTickets(requests[1..])
  }

  /** The lookup reads the FIRST entry of the type, whatever later entries of
      that type say, and gives 0 when the type has no entry. */
  lemma {:induction false} NoOfTicketsFirstMatch(requests: seq<TicketRequest>, t: TicketType)
    ensures forall i :: 0 <= i < |requests| && requests[i].kind == t &&
                        (forall j :: 0 <= j < i ==> requests[j].kind != t) ==>
                          NoOfTickets(requests, t) == requests[i].noOfTickets
    ensures !HasType(requests, t) ==> NoOfTickets(requests, t) == 0
    decreases |requests|
  {
    if requests != [] {
      var rest := requests[1..];
      NoOfTicketsFirstMatch(rest, t);
      assert forall i :: 1 <= i < |requests| ==> requests[i] == rest[i - 1];
      assert HasType(rest, t) ==> HasType(requests, t) by {
        if HasType(rest, t) {
          var i :| 0 <= i < |rest| && rest[i].kind == t;
          assert requests[i + 1].kind == t;
        }
      }
    }
  }

  /** Every entry counts toward the total, duplicate types included: with
      non-negative counts the total is at least the count of each entry. */
  lemma {:induction false} TotalTicketsCountsEveryEntry(requests: seq<TicketRequest>)
    requires NonNegative(requests)
    ensures TotalTickets(requests) >= 0
    ensures forall i :: 0 <= i < |requests| ==> requests[i].noOfTickets <= TotalTickets(requests)
    decreases |requests|
  {
    if requests != [] {
      var rest := requests[1..];
      assert forall i :: 1 <= i < |requests| ==> requests[i] == rest[i - 1];
      TotalTicketsCountsEveryEntry(rest);
    }
  }

  /** What the three checks together admit, stated independently of their order. */
  predicate Admissible(requests: seq<TicketRequest>)
  {
    NoOfTickets(requests, Adult) >= MinAdultTicket &&
    TotalTickets(requests) <= MaxTickets &&
    NoOfTickets(requests, Infant) <= NoOfTickets(requests, Adult)
  }

  /** At least one adult ticket: a count of 0 (or no ADULT entry) and a count
      below the minimum are reported with different messages. */
  function ValidateMinimumNoOfAdultTicket(requests: seq<TicketRequest>): (v: Option<Reason>)
    ensures v.None? <==> NoOfTickets(requests, Adult) >= MinAdultTicket
    ensures v == Some(NoAdultTicket) <==> NoOfTickets(requests, Adult) == 0
    ensures v == Some(AdultBelowMinimum) <==> NoOfTickets(requests, Adult) < 0
  {
    var adults := NoOfTickets(requests, Adult);
    if adults == 0 then Some(NoAdultTicket)
    else if adults < MinAdultTicket then Some(AdultBelowMinimum)
    else None
  }

  /** At most MaxTickets tickets, counting every entry. */
  function ValidateNoOfRequest(requests: seq<TicketRequest>): (v: Option<Reason>)
    ensures v.None? <==> TotalTickets(requests) <= MaxTickets
    ensures v.Some? ==> v.value == TooManyTickets
  {
    if TotalTickets(requests) > MaxTickets then Some(TooManyTickets) else None
  }

  /** No more infants than adults. */
  function ValidateInfantTicket(requests: seq<TicketRequest>): (v: Option<Reason>)
    ensures v.None? <==> NoOfTickets(requests, Infant) <= NoOfTickets(requests, Adult)
    ensures v.Some? ==> v.value == TooManyInfants
  {
    if NoOfTickets(requests, Adult) < NoOfTickets(requests, Infant) then Some(TooManyInfants) else None
  }

  /** The three checks in their fixed order; the first violation is the one
      reported. */
  function ValidateRequest(requests: seq<TicketRequest>): (v: Option<Reason>)
    ensures v.None? <==> Admissible(requests)
    ensures v == Some(NoAdultTicket) <==> NoOfTickets(requests, Adult) == 0
    ensures v == Some(AdultBelowMinimum) <==> NoOfTickets(requests, Adult) < 0
    ensures v == Some(TooManyTickets) <==>
              NoOfTickets(requests, Adult) >= MinAdultTicket && TotalTickets(requests) > MaxTickets
    ensures v == Some(TooManyInfants) <==>
              NoOfTickets(requests, Adult) >= MinAdultTicket && TotalTickets(requests) <= MaxTickets &&
              NoOfTickets(requests, Adult) < NoOfTickets(requests, Infant)
  {
    match ValidateMinimumNoOfAdultTicket(requests)
    case Some(reason) => Some(reason)
    case None =>
      match ValidateNoOfRequest(requests)
      case Some(reason) => Some(reason)
      case None => ValidateInfantTicket(requests)
  }

  /** The charge: adults, infants and children, each at its price, looked up
      with the first-match rule. */
  function TotalAmount(requests: seq<TicketRequest>): (amount: int)
    ensures NonNegative(requests) ==> 0 <= amount <= AdultTicketAmount * TotalTickets(requests)
  {
    var charge :=
      NoOfTickets(requests, Adult) * AdultTicketAmount +
      NoOfTickets(requests, Child) * ChildTicketAmount +
      NoOfTickets(requests, Infant) * InfantTicketAmount;
    if NonNegative(requests) then LookedUpWithinTotal(requests); charge else charge
  }

  /** The number of seats to reserve: adults and children. */
  function SeatsToAllocate(requests: seq<TicketRequest>): (seats: int)
    ensures NonNegative(requests) ==> 0 <= seats <= TotalTickets(requests)
  {
    var count := NoOfTickets(requests, Adult) + NoOfTickets(requests, Child);
    if NonNegative(requests) then LookedUpWithinTotal(requests); count else count
  }

  // ---------------------------------------------------------------------
  // Independent descriptions of the charge and the seat count

  /** The entries whose type does not occur earlier in the list (nor in
      `seen`): exactly the entries the first-match lookup reads. */
  function FirstOfEachType(requests: seq<TicketRequest>, seen: set<TicketType>): seq<TicketRequest>
  {
    if requests == [] then []
    else if requests[0].kind in seen then FirstOfEachType(requests[1..], seen)
    else [requests[0]] + FirstOfEachType(requests[1..], seen + {requests[0].kind})
  }

  /** Entry by entry, each at the price of its type. */
  function Charge(entries: seq<TicketRequest>): int
  {
    if entries == [] then 0
    else TicketPrice(entries[0].kind) * entries[0].noOfTickets + Charge(entries[1..])
  }

  /** Entry by entry, each seated unless it is an infant entry. */
  function SeatCount(entries: seq<TicketRequest>): int
  {
    if entries == [] then 0
    else (if TakesSeat(entries[0].kind) then entries[0].noOfTickets else 0) + SeatCount(entries[1..])
  }

  function UnseenPart(requests: seq<TicketRequest>, seen: set<TicketType>, t: TicketType, weight: int): int
  {
    if t in seen then 0 else weight * NoOfTickets(requests, t)
  }

  lemma {:induction false} FirstOfEachTypeTally(requests: seq<TicketRequest>, seen: set<TicketType>)
    ensures Charge(FirstOfEachType(requests, seen)) ==
              UnseenPart(requests, seen, Adult, AdultTicketAmount) +
              UnseenPart(requests, seen, Child, ChildTicketAmount) +
              UnseenPart(requests, seen, Infant, InfantTicketAmount)
    ensures SeatCount(FirstOfEachType(requests, seen)) ==
              UnseenPart(requests, seen, Adult, 1) + UnseenPart(requests, seen, Child, 1)
    decreases |requests|
  {
    if requests != [] {
      var x, rest := requests[0], requests[1..];
      if x.kind in seen {
        FirstOfEachTypeTally(rest, seen);
      } else {
        FirstOfEachTypeTally(rest, seen + {x.kind});
        var f := FirstOfEachType(rest, seen + {x.kind});
        assert FirstOfEachType(requests, seen) == [x] + f;
        assert ([x] + f)[1..] == f;
      }
    }
  }

  /** The charge equals the price-table charge of the first entry of each
      type, and the seat count the seated entries among them. */
  lemma {:induction false} AmountAndSeatsFromFirstEntries(requests: seq<TicketRequest>)
    ensures TotalAmount(requests) == Charge(FirstOfEachType(requests, {}))
    ensures SeatsToAllocate(requests) == SeatCount(FirstOfEachType(requests, {}))
  {
    FirstOfEachTypeTally(requests, {});
  }

  predicate DistinctTypes(requests: seq<TicketRequest>)
  {
    forall i, j :: 0 <= i < j < |requests| ==> requests[i].kind != requests[j].kind
  }

  lemma {:induction false} FirstOfEachTypeKeepsDistinct(requests: seq<TicketRequest>, seen: set<TicketType>)
    requires DistinctTypes(requests)
    requires forall i :: 0 <= i < |requests| ==> requests[i].kind !in seen
    ensures FirstOfEachType(requests, seen) == requests
    decreases |requests|
  {
    if requests != [] {
      var x, rest := requests[0], requests[1..];
      assert forall i :: 0 <= i < |rest| ==> rest[i] == requests[i + 1];
      FirstOfEachTypeKeepsDistinct(rest, seen + {x.kind});
    }
  }

  lemma {:induction false} TotalOfDistinct(requests: seq<TicketRequest>)
    requires DistinctTypes(requests)
    ensures TotalTickets(requests) ==
              NoOfTickets(requests, Adult) + NoOfTickets(requests, Child) + NoOfTickets(requests, Infant)
    decreases |requests|
  {
    if requests != [] {
      var x, rest := requests[0], requests[1..];
      assert forall i :: 0 <= i < |rest| ==> rest[i] == requests[i + 1];
      TotalOfDistinct(rest);
      NoOfTicketsFirstMatch(rest, x.kind);
      assert !HasType(rest, x.kind) by {
        forall i | 0 <= i < |rest| ensures rest[i].kind != x.kind {
          assert requests[0].kind != requests[i + 1].kind;
        }
      }
    }
  }

  /** When no type occurs twice, first-match lookup and aggregation agree:
      the charge and the seat count are those of every entry, and the total
      is the sum of the three looked-up counts. */
  lemma {:induction false} DistinctTypesAggregate(requests: seq<TicketRequest>)
    requires DistinctTypes(requests)
    ensures TotalAmount(requests) == Charge(requests)
    ensures SeatsToAllocate(requests) == SeatCount(requests)
    ensures TotalTickets(requests) ==
              NoOfTickets(requests, Adult) + NoOfTickets(requests, Child) + NoOfTickets(requests, Infant)
  {
    FirstOfEachTypeKeepsDistinct(requests, {});
    AmountAndSeatsFromFirstEntries(requests);
    TotalOfDistinct(requests);
  }

  lemma {:induction false} LookedUpWithinTotal(requests: seq<TicketRequest>)
    requires NonNegative(requests)
    ensures NoOfTickets(requests, Adult) + NoOfTickets(requests, Child) + NoOfTickets(requests, Infant)
              <= TotalTickets(requests)
    decreases |requests|
  {
    if requests != [] {
      var rest := requests[1..];
      assert forall i :: 0 <= i < |rest| ==> rest[i] == requests[i + 1];
      LookedUpWithinTotal(rest);
    }
  }

  /** An admitted order with non-negative counts reserves between 1 and 20
      seats and is charged between 20 and 400. */
  lemma {:induction false} AdmissibleBounds(requests: seq<TicketRequest>)
    requires NonNegative(requests) && Admissible(requests)
    ensures MinAdultTicket <= SeatsToAllocate(requests) <= MaxTickets
    ensures AdultTicketAmount <= TotalAmount(requests) <= MaxTickets * AdultTicketAmount
  {
    LookedUpWithinTotal(requests);
  }

  /** With non-negative counts the second adult check never fires. */
  lemma {:induction false} BelowMinimumOnlyForNegativeCounts(requests: seq<TicketRequest>)
    requires NonNegative(requests)
    ensures ValidateRequest(requests) != Some(AdultBelowMinimum)
  {
  }

  function WithoutInfants(requests: seq<TicketRequest>): seq<TicketRequest>
  {
    if requests == [] then []
    else if requests[0].kind == Infant then WithoutInfants(requests[1..])
    else [requests[0]] + WithoutInfants(requests[1..])
  }

  lemma {:induction false} WithoutInfantsLookup(requests: seq<TicketRequest>, t: TicketType)
    requires t != Infant
    ensures NoOfTickets(WithoutInfants(requests), t) == NoOfTickets(requests, t)
    decreases |requests|
  {
    if requests != [] {
      WithoutInfantsLookup(requests[1..], t);
      if requests[0].kind != Infant {
        var w := WithoutInfants(requests[1..]);
        assert ([requests[0]] + w)[1..] == w;
      }
    }
  }

  /** Infant entries are neither charged nor seated: dropping them leaves the
      charge and the seat count unchanged. */
  lemma {:induction false} InfantsNeitherPaidNorSeated(requests: seq<TicketRequest>)
    ensures TotalAmount(WithoutInfants(requests)) == TotalAmount(requests)
    ensures SeatsToAllocate(WithoutInfants(requests)) == SeatsToAllocate(requests)
  {
    WithoutInfantsLookup(requests, Adult);
    WithoutInfantsLookup(requests, Child);
  }

  // ---------------------------------------------------------------------
  // Lookups and totals over a list that grows by appending

  /** Once a type has an entry, later entries of that type never change its
      looked-up count; when it has none, the lookup reads the appended part. */
  lemma {:induction false} NoOfTicketsAppend(a: seq<TicketRequest>, b: seq<TicketRequest>, t: TicketType)
    ensures HasType(a, t) ==> NoOfTickets(a + b, t) == NoOfTickets(a, t)
    ensures !HasType(a, t) ==> NoOfTickets(a + b, t) == NoOfTickets(b, t)
    decreases |a|
  {
    if a != [] {
      assert (a + b)[1..] == a[1..] + b;
      if a[0].kind != t {
        NoOfTicketsAppend(a[1..], b, t);
        assert HasType(a, t) ==> HasType(a[1..], t) by {
          if HasType(a, t) {
            var i :| 0 <= i < |a| && a[i].kind == t;
            assert a[1..][i - 1] == a[i];
          }
        }
        assert HasType(a[1..], t) ==> HasType(a, t) by {
          if HasType(a[1..], t) {
            var i :| 0 <= i < |a[1..]| && a[1..][i].kind == t;
            assert a[i + 1] == a[1..][i];
          }
        }
      } else {
        assert HasType(a, t) by { assert a[0].kind == t; }
      }
    } else {
      assert a + b == b;
    }
  }

  lemma {:induction false} TotalTicketsAppend(a: seq<TicketRequest>, b: seq<TicketRequest>)
    ensures TotalTickets(a + b) == TotalTickets(a) + TotalTickets(b)
    decreases |a|
  {
    if a == [] {
      assert a + b == b;
    } else {
      assert (a + b)[1..] == a[1..] + b;
      TotalTicketsAppend(a[1..], b);
    }
  }
}
