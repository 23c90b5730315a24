/**
 * The seat map: the selection is a JavaScript `Set` of seat ids, modelled as
 * a list without repeats in insertion order, toggled by clicks on seats that
 * are not booked.
 */
module SeatPicker {
  import opened Wrappers
  import opened Lists

  type SeatId = string

  /** `next.delete(id)` */
  function Remove(sel: seq<SeatId>, id: SeatId): (r: seq<SeatId>)
    ensures forall x :: x in r <==> x in sel && x != id
    ensures Distinct(sel) ==> Distinct(r)
    ensures id !in sel ==> r == sel
    ensures IsSubsequence(r, sel)
    ensures multiset(r)[id] == 0 && forall x :: x != id ==> multiset(r)[x] == multiset(sel)[x]
  {
    var r := Filter(sel, (x: SeatId) => x != id);
    FilterKeepsDistinct(sel, (x: SeatId) => x != id);
    FilterKeepsAll(sel, (x: SeatId) => x != id);
    FilterCounts(sel, (x: SeatId) => x != id);
    r
  }

  /** `toggleSeat(id)`: a booked seat is ignored; otherwise the seat leaves the
      selection if present and joins it at the end if absent, and the callback
      receives the new selection. */
  function ToggleSeat(booked: seq<SeatId>, sel: seq<SeatId>, id: SeatId): (r: (seq<SeatId>, Option<seq<SeatId>>))
    ensures id in booked ==> r.0 == sel && r.1.None?
    ensures id !in booked ==> r.1 == Some(r.0)
    ensures id !in booked ==> (id in r.0 <==> id !in sel)
    ensures forall x :: x != id ==> (x in r.0 <==> x in sel)
    ensures id !in booked && id !in sel ==> r.0 == sel + [id]
    ensures Distinct(sel) ==> Distinct(r.0)
  {
    if id in booked then (sel, None)
    else
      var next := if id in sel then Remove(sel, id) else sel + [id];
      (next, Some(next))
  }

  /** No selected seat is booked. */
  predicate DisjointFromBooked(booked: seq<SeatId>, sel: seq<SeatId>) {
    forall i :: 0 <= i < |sel| ==> sel[i] !in booked
  }

  /** Toggling never lets a booked seat into a selection that had none. */
  lemma ToggleKeepsDisjoint(booked: seq<SeatId>, sel: seq<SeatId>, id: SeatId)
    requires DisjointFromBooked(booked, sel)
    ensures DisjointFromBooked(booked, ToggleSeat(booked, sel, id).0)
  {
    var r := ToggleSeat(booked, sel, id).0;
    forall i | 0 <= i < |r|
      ensures r[i] !in booked
    {
      if r[i] != id {
        assert r[i] in sel;
      }
    }
  }

  /** Toggling a free seat twice gives back the same set of seats; the exact list
      comes back when the seat started unselected, and otherwise the seat moves
      to the end. */
  lemma ToggleTwice(booked: seq<SeatId>, sel: seq<SeatId>, id: SeatId)
    requires id !in booked && Distinct(sel)
    ensures var twice := ToggleSeat(booked, ToggleSeat(booked, sel, id).0, id).0;
            (forall x :: x in twice <==> x in sel)
            && (id !in sel ==> twice == sel)
            && (id in sel ==> twice == Remove(sel, id) + [id])
  {
    var once := ToggleSeat(booked, sel, id).0;
    if id !in sel {
      assert once == sel + [id];
      assert id in once;
      var twice := Remove(once, id);
      assert twice == Filter(sel + [id], (x: SeatId) => x != id);
      FilterConcat(sel, [id], (x: SeatId) => x != id);
      FilterKeepsAll(sel, (x: SeatId) => x != id);
      assert Filter([id], (x: SeatId) => x != id) == [];
    }
  }

  datatype Fill = BookedFill | SelectedFill | FreeFill

  /** A seat's colour: booked takes precedence over selected, selected over free. */
  function SeatFill(booked: seq<SeatId>, sel: seq<SeatId>, id: SeatId): (f: Fill)
    ensures f == BookedFill <==> id in booked
    ensures f == SelectedFill <==> id !in booked && id in sel
    ensures f == FreeFill <==> id !in booked && id !in sel
  {
    if id in booked then BookedFill else if id in sel then SelectedFill else FreeFill
  }

  /** A click flips a free seat's colour between selected and free, and changes no
      other seat's colour. */
  lemma ToggleFlipsFill(booked: seq<SeatId>, sel: seq<SeatId>, id: SeatId, other: SeatId)
    ensures var after := ToggleSeat(booked, sel, id).0;
            (id in booked ==> SeatFill(booked, after, id) == BookedFill)
            && (id !in booked ==>
                  {SeatFill(booked, sel, id), SeatFill(booked, after, id)} == {SelectedFill, FreeFill})
            && (other != id ==> SeatFill(booked, after, other) == SeatFill(booked, sel, other))
  {
  }
}
