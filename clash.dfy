/**
 The overlap query of the booking update handler: which stored bookings on a
 room clash with a candidate range, and how many of them there are.
 */
module Clash {
  import opened Records

  /** The query's test: the stored range starts before the new end and ends after the new start. */
  predicate Overlaps(start: int, end: int, newStart: int, newEnd: int)
  {
    start < newEnd && end > newStart
  }

  /** A stored booking matches the query for a room and a candidate range. */
  predicate Clashes(b: Booking, roomNumber: string, newStart: int, newEnd: int)
  {
    b.roomNumber == roomNumber && Overlaps(b.startTime, b.endTime, newStart, newEnd)
  }

  /** The ids of every stored booking the query returns, the booking being updated included. */
  function ClashIds(bookings: map<BookingId, Booking>, roomNumber: string, newStart: int, newEnd: int): (ids: set<BookingId>)
    ensures ids <= bookings.Keys
    ensures forall id :: id in bookings ==> (id in ids <==> Clashes(bookings[id], roomNumber, newStart, newEnd))
  {
    set id | id in bookings && Clashes(bookings[id], roomNumber, newStart, newEnd)
  }

  /** The instant t lies in the half-open range [start, end). */
  predicate Within(t: int, start: int, end: int)
  {
    start <= t < end
  }

  /** Two half-open ranges have an instant in common. */
  ghost predicate SharesInstant(s1: int, e1: int, s2: int, e2: int)
  {
    exists t :: Within(t, s1, e1) && Within(t, s2, e2)
  }

  /** No two distinct bookings on the same room clash with each other. */
  ghost predicate NoOverlap(bookings: map<BookingId, Booking>)
  {
    forall i, j :: i in bookings && j in bookings && i != j ==>
      !Clashes(bookings[j], bookings[i].roomNumber, bookings[i].startTime, bookings[i].endTime)
  }

  /**
   For ranges that start before they end, the query's test holds exactly when
   the two ranges, read as half-open, share an instant.
   */
  lemma OverlapsIffSharedInstant(start: int, end: int, newStart: int, newEnd: int)
    requires start < end && newStart < newEnd
    ensures Overlaps(start, end, newStart, newEnd) <==> SharesInstant(start, end, newStart, newEnd)
  {
    if Overlaps(start, end, newStart, newEnd) {
      var t := if start < newStart then newStart else start;
      assert Within(t, start, end) && Within(t, newStart, newEnd);
    }
  }

  /**
   Nothing checks that a range starts before it ends, and the test then
   reports a clash for a stored range [5, 3) against [0, 10), which share no instant.
   */
  lemma InvertedRangeClashesWithoutSharedInstant()
    ensures Overlaps(5, 3, 0, 10) && !SharesInstant(5, 3, 0, 10)
  {
  }

  /** Ranges that only touch at an endpoint never clash. */
  lemma TouchingRangesNeverClash(b: Booking, roomNumber: string, newStart: int, newEnd: int)
    requires b.endTime == newStart || b.startTime == newEnd
    ensures !Clashes(b, roomNumber, newStart, newEnd)
  {
  }

  /** More than one match is the same as two distinct clashing bookings. */
  lemma ClashCountAboveOneIffTwoClash(bookings: map<BookingId, Booking>, roomNumber: string, newStart: int, newEnd: int)
    ensures |ClashIds(bookings, roomNumber, newStart, newEnd)| > 1 <==>
      exists i, j :: i in bookings && j in bookings && i != j &&
        Clashes(bookings[i], roomNumber, newStart, newEnd) && Clashes(bookings[j], roomNumber, newStart, newEnd)
  {
    var ids := ClashIds(bookings, roomNumber, newStart, newEnd);
    if |ids| > 1 {
      var i :| i in ids;
      assert |ids - {i}| == |ids| - 1;
      var j :| j in ids - {i};
      assert i in bookings && j in bookings && i != j;
    }
    if exists i, j :: i in bookings && j in bookings && i != j &&
        Clashes(bookings[i], roomNumber, newStart, newEnd) && Clashes(bookings[j], roomNumber, newStart, newEnd)
    {
      var i, j :| i in bookings && j in bookings && i != j &&
        Clashes(bookings[i], roomNumber, newStart, newEnd) && Clashes(bookings[j], roomNumber, newStart, newEnd);
      AtLeastTwo(ids, i, j);
    }
  }

  /** A clash set contained in {id} counts at most one. */
  lemma AtMostSelf(ids: set<BookingId>, id: BookingId)
    requires ids <= {id}
    ensures |ids| <= 1
  {
    if id in ids {
      assert ids == {id};
    } else {
      assert ids == {};
    }
  }

  /** A set holding two distinct elements has more than one element. */
  lemma AtLeastTwo(ids: set<BookingId>, i: BookingId, j: BookingId)
    requires i in ids && j in ids && i != j
    ensures |ids| > 1
  {
    var rest := ids - {i, j};
    assert ids == rest + {i, j};
    assert |{i, j}| == 2;
  }
}
