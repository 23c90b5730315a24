/**
 * The member dashboard's list logic: the upcoming/past split of bookings,
 * cancelling a booking, the total spent, the passes left on each package and
 * which actions a booking card offers. Dates are instants in milliseconds and
 * the current time is an input.
 */
module Dashboard {
  import opened Lists
  import opened Entitlement

  datatype BookingStatus = Confirmed | Cancelled | Completed

  datatype Booking = Booking(
    id: string,
    locationName: string,
    locationAddress: string,
    date: int,
    startTime: string,
    endTime: string,
    numberOfPeople: int,
    selectedSeats: seq<string>,
    totalAmount: real,
    status: BookingStatus,
    canEdit: bool,
    canCancel: bool,
    bookingReference: string)

  predicate IsUpcoming(now: int, b: Booking) {
    b.date >= now && b.status == Confirmed
  }

  predicate IsPast(now: int, b: Booking) {
    b.date < now || b.status == Completed || b.status == Cancelled
  }

  function Upcoming(bs: seq<Booking>, now: int): (r: seq<Booking>)
    ensures forall b :: b in r <==> b in bs && IsUpcoming(now, b)
    ensures IsSubsequence(r, bs)
    ensures forall b :: multiset(r)[b] == if IsUpcoming(now, b) then multiset(bs)[b] else 0
  {
    FilterCounts(bs, b => IsUpcoming(now, b));
    Filter(bs, b => IsUpcoming(now, b))
  }

  function Past(bs: seq<Booking>, now: int): (r: seq<Booking>)
    ensures forall b :: b in r <==> b in bs && IsPast(now, b)
    ensures IsSubsequence(r, bs)
    ensures forall b :: multiset(r)[b] == if IsPast(now, b) then multiset(bs)[b] else 0
  {
    FilterCounts(bs, b => IsPast(now, b));
    Filter(bs, b => IsPast(now, b))
  }

  /** Every booking is upcoming or past, never both, so the two tabs together list
      each booking exactly once. */
  lemma UpcomingPastPartition(bs: seq<Booking>, now: int)
    ensures forall b: Booking :: IsUpcoming(now, b) <==> !IsPast(now, b)
    ensures |Upcoming(bs, now)| + |Past(bs, now)| == |bs|
  {
    FilterComplementCount(bs, b => IsUpcoming(now, b), b => IsPast(now, b));
  }

  function CancelOne(b: Booking): Booking {
    b.(status := Cancelled, canEdit := false, canCancel := false)
  }

  /** `handleCancelBooking`: the booking with that id is cancelled and loses both actions. */
  function CancelBooking(bs: seq<Booking>, id: string): (r: seq<Booking>)
    ensures |r| == |bs|
    ensures forall i :: 0 <= i < |bs| && bs[i].id == id ==>
              r[i].status == Cancelled && !r[i].canEdit && !r[i].canCancel
              && r[i] == bs[i].(status := Cancelled, canEdit := false, canCancel := false)
    ensures forall i :: 0 <= i < |bs| && bs[i].id != id ==> r[i] == bs[i]
  {
    UpdateWhere(bs, (b: Booking) => b.id == id, CancelOne)
  }

  /** A cancelled booking leaves the upcoming list and joins the past one; every
      other upcoming booking stays. */
  lemma CancelMovesToPast(bs: seq<Booking>, id: string, now: int)
    ensures forall b :: b in Upcoming(CancelBooking(bs, id), now) ==> b.id != id
    ensures forall b :: b in Upcoming(bs, now) && b.id != id ==> b in Upcoming(CancelBooking(bs, id), now)
    ensures forall i :: 0 <= i < |bs| && bs[i].id == id ==> CancelBooking(bs, id)[i] in Past(CancelBooking(bs, id), now)
  {
    CancelLeavesUpcoming(bs, id, now);
    CancelKeepsOtherUpcoming(bs, id, now);
    CancelJoinsPast(bs, id, now);
  }

  lemma CancelLeavesUpcoming(bs: seq<Booking>, id: string, now: int)
    ensures forall b :: b in Upcoming(CancelBooking(bs, id), now) ==> b.id != id
  {
  }

  lemma CancelKeepsOtherUpcoming(bs: seq<Booking>, id: string, now: int)
    ensures forall b :: b in Upcoming(bs, now) && b.id != id ==> b in Upcoming(CancelBooking(bs, id), now)
  {
    var r := CancelBooking(bs, id);
    forall b | b in Upcoming(bs, now) && b.id != id
      ensures b in Upcoming(r, now)
    {
      var i :| 0 <= i < |bs| && bs[i] == b;
      assert r[i] == b;
    }
  }

  lemma CancelJoinsPast(bs: seq<Booking>, id: string, now: int)
    ensures forall i :: 0 <= i < |bs| && bs[i].id == id ==> CancelBooking(bs, id)[i] in Past(CancelBooking(bs, id), now)
  {
  }

  function Amount(b: Booking): real {
    b.totalAmount
  }

  /** Total spent: the sum of every booking's amount, cancelled ones included. */
  function TotalSpent(bs: seq<Booking>): (r: real)
    ensures |bs| == 0 ==> r == 0.0
    ensures |bs| == 1 ==> r == bs[0].totalAmount
  {
    assert |bs| == 1 ==> bs[..0] == [] && SumOf(bs[..0], Amount) == 0.0;
    SumOf(bs, Amount)
  }

  /** The total spent over two lists of bookings is the sum of their totals, so it
      does not depend on how the list is split or grown. */
  lemma TotalSpentConcat(bs: seq<Booking>, cs: seq<Booking>)
    ensures TotalSpent(bs + cs) == TotalSpent(bs) + TotalSpent(cs)
  {
    SumOfConcat(bs, cs, Amount);
  }

  /** Cancelling does not change the total spent. */
  lemma CancelKeepsTotalSpent(bs: seq<Booking>, id: string)
    ensures TotalSpent(CancelBooking(bs, id)) == TotalSpent(bs)
  {
    SumOfPointwise(CancelBooking(bs, id), bs, Amount);
  }

  /** A total spent over non-negative amounts is non-negative, and the amount of any
      booking is part of it. */
  lemma {:induction false} TotalSpentBounds(bs: seq<Booking>)
    requires forall i :: 0 <= i < |bs| ==> bs[i].totalAmount >= 0.0
    ensures TotalSpent(bs) >= 0.0
    ensures forall i :: 0 <= i < |bs| ==> bs[i].totalAmount <= TotalSpent(bs)
  {
    if |bs| > 0 {
      var init := bs[..|bs| - 1];
      TotalSpentBounds(init);
      assert forall i :: 0 <= i < |init| ==> init[i] == bs[i];
    }
  }

  /** The actions a booking card offers: Edit and Cancel appear only on a confirmed
      booking in a list that shows actions, each behind its own flag. */
  datatype Actions = Actions(edit: bool, cancel: bool)

  function CardActions(b: Booking, showActions: bool): (a: Actions)
    ensures (a.edit || a.cancel) ==> showActions && b.status == Confirmed
    ensures a.edit <==> showActions && b.status == Confirmed && b.canEdit
    ensures a.cancel <==> showActions && b.status == Confirmed && b.canCancel
  {
    var shown := showActions && b.status == Confirmed;
    Actions(shown && b.canEdit, shown && b.canCancel)
  }

  /** After cancelling, the booking's card offers no action anywhere. */
  lemma CancelledOffersNothing(bs: seq<Booking>, id: string, i: nat, showActions: bool)
    requires i < |bs| && bs[i].id == id
    ensures CardActions(CancelBooking(bs, id)[i], showActions) == Actions(false, false)
  {
  }

  /** The passes left on each active package, in order. */
  function PassesLeft(pkgs: seq<UserPackage>): (r: seq<int>)
    ensures |r| == |pkgs|
    ensures forall i :: 0 <= i < |pkgs| ==> r[i] + pkgs[i].passesUsed == pkgs[i].totalPasses
  {
    seq(|pkgs|, i requires 0 <= i < |pkgs| => Remaining(pkgs[i]))
  }
}
