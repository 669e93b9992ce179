/**
 * The two-step reservation flow of RoomDetailView.post (core/views.py):
 * the date checks of step 1 (staging), the re-checks of step 2 (commit),
 * the overlap rule against existing bookings and the service lines a
 * commit adds. Everything here is a pure decision on values; the store
 * in hotel.dfy applies the decisions.
 */
module Availability {
  import opened Models
  import opened Roles

  /** Every refusal the booking flow reports. */
  datatype BookingError =
    | RoomNotFound              // 404 on the room id
    | MissingDates              // a date field is missing or empty
    | BadDate                   // a date does not parse
    | PastCheckIn               // check-in before today
    | CheckOutNotAfterCheckIn
    | NoStagedData              // step 2 without step 1 (status 419)
    | RoomMismatch              // staged for another room
    | ServerError               // an exception caught by the generic handler (status 500)
    | NotSignedIn
    | NoCustomerProfile
    | OverCapacity
    | Conflict                  // status 409
    | UnknownStep

  /** A staged service id, classified by what Python's int() does with it:
      a number, a value int() refuses with ValueError (such as "abc"), or a
      value on which int() raises any other exception (TypeError for null
      or a list, OverflowError for the JSON value Infinity). */
  datatype StagedId = Numeric(id: int) | NotNumeric | WrongType

  /** session['booking_data'], with the dates already parsed. `guests` is
      None when the submitted guest count is not an integer literal. */
  datatype Staged = Staged(
    checkIn: int,
    checkOut: int,
    guests: Option<int>,
    roomId: int,
    serviceIds: seq<StagedId>,
    stagedAt: int)

  /** What a successful step 2 inserts. */
  datatype Plan = Plan(
    customer: int,
    checkIn: int,
    checkOut: int,
    guests: int,
    nights: int,
    price: int,
    serviceIds: seq<StagedId>)

  // ------------------------------------------------------------ step 1

  /** The date checks of step 1, in the order the view makes them. */
  function CheckStage(checkIn: Input<int>, checkOut: Input<int>, today: int): (r: Result<(int, int), BookingError>)
    ensures r.Success? <==> checkIn.Given? && checkOut.Given? && today <= checkIn.value < checkOut.value
    ensures r.Success? ==> r.value == (checkIn.value, checkOut.value)
    ensures checkIn.Absent? || checkOut.Absent? ==> r == Failure(MissingDates)
    ensures checkIn.Malformed? && !checkOut.Absent? ==> r == Failure(BadDate)
    ensures checkIn.Given? && checkIn.value < today && !checkOut.Absent? ==> r == Failure(PastCheckIn)
    ensures checkIn.Given? && today <= checkIn.value && checkOut.Malformed? ==> r == Failure(BadDate)
    ensures checkIn.Given? && checkOut.Given? && today <= checkIn.value && checkOut.value <= checkIn.value
      ==> r == Failure(CheckOutNotAfterCheckIn)
  {
    if checkIn.Absent? || checkOut.Absent? then Failure(MissingDates)
    else if checkIn.Malformed? then Failure(BadDate)
    else if checkIn.value < today then Failure(PastCheckIn)
    else if checkOut.Malformed? then Failure(BadDate)
    else if checkOut.value <= checkIn.value then Failure(CheckOutNotAfterCheckIn)
    else Success((checkIn.value, checkOut.value))
  }

  // ------------------------------------------------------- overlap rule

  /** Whether an existing booking holds the room for part of the stay
      [checkIn, checkOut): same room, confirmed or checked in, and the two
      half-open stays intersect. */
  predicate Blocks(b: Booking, roomId: int, checkIn: int, checkOut: int)
  {
    b.room == roomId && IsActive(b.status) && b.checkIn < checkOut && b.checkOut > checkIn
  }

  /** The existence query of step 2, scanned over the booking table. */
  function AnyBlocking(bookings: seq<Booking>, roomId: int, checkIn: int, checkOut: int): (r: bool)
    ensures r <==> exists i :: 0 <= i < |bookings| && Blocks(bookings[i], roomId, checkIn, checkOut)
  {
    if bookings == [] then false
    else
      var init := bookings[..|bookings| - 1];
      assert forall i :: 0 <= i < |init| ==> init[i] == bookings[i];
      AnyBlocking(init, roomId, checkIn, checkOut) || Blocks(bookings[|bookings| - 1], roomId, checkIn, checkOut)
  }

  /** The night d, counted by its start day, falls inside [checkIn, checkOut). */
  predicate Night(d: int, checkIn: int, checkOut: int)
  {
    checkIn <= d < checkOut
  }

  /** For two stays of at least one night each, a booking blocks a stay
      exactly when it is an active booking of the same room that shares at
      least one night with the stay. */
  lemma BlocksSharesNight(b: Booking, roomId: int, checkIn: int, checkOut: int)
    ensures checkIn < checkOut && b.checkIn < b.checkOut ==>
      (Blocks(b, roomId, checkIn, checkOut) <==>
       b.room == roomId && IsActive(b.status)
       && exists d :: Night(d, checkIn, checkOut) && Night(d, b.checkIn, b.checkOut))
  {
    if checkIn < checkOut && b.checkIn < b.checkOut && Blocks(b, roomId, checkIn, checkOut) {
      var d := if checkIn < b.checkIn then b.checkIn else checkIn;
      assert Night(d, checkIn, checkOut) && Night(d, b.checkIn, b.checkOut);
    }
  }

  /** A booking that does not block is for another room, not active, or
      its stay is disjoint from [checkIn, checkOut); pending, checked-out
      and cancelled bookings never block. */
  lemma NonBlockingMeans(b: Booking, roomId: int, checkIn: int, checkOut: int)
    ensures !Blocks(b, roomId, checkIn, checkOut) <==>
      b.room != roomId || !IsActive(b.status) || b.checkOut <= checkIn || checkOut <= b.checkIn
    ensures b.status in {Pending, CheckedOut, Cancelled} ==> !Blocks(b, roomId, checkIn, checkOut)
  {
  }

  /** The overlap rule is symmetric: two active bookings of one room block
      each other or neither does. */
  lemma BlocksSymmetric(a: Booking, b: Booking)
    requires a.room == b.room && IsActive(a.status) && IsActive(b.status)
    ensures Blocks(a, b.room, b.checkIn, b.checkOut) <==> Blocks(b, a.room, a.checkIn, a.checkOut)
  {
  }

  // ------------------------------------------------------------ step 2

  /** The checks of step 2, in the order the view makes them. A guest count
      that is not an integer, and a negative one (which the unsigned column
      refuses on insert), end in the generic server error. The view's own
      "nights > 0" test cannot fail after the date checks. */
  function CheckCommit(staged: Option<Staged>, roomId: int, room: Room, bookings: seq<Booking>,
                       actor: Account, today: int): (r: Result<Plan, BookingError>)
    ensures r.Success? <==>
      && staged.Some? && staged.value.roomId == roomId && staged.value.guests.Some?
      && actor.authenticated && actor.customer.Some?
      && today <= staged.value.checkIn < staged.value.checkOut
      && staged.value.guests.value <= room.capacity
      && !AnyBlocking(bookings, roomId, staged.value.checkIn, staged.value.checkOut)
      && staged.value.guests.value >= 0
    ensures r == Failure(Conflict) <==>
      && staged.Some? && staged.value.roomId == roomId && staged.value.guests.Some?
      && actor.authenticated && actor.customer.Some?
      && today <= staged.value.checkIn < staged.value.checkOut
      && staged.value.guests.value <= room.capacity
      && AnyBlocking(bookings, roomId, staged.value.checkIn, staged.value.checkOut)
    ensures r.Success? ==>
      var s, p := staged.value, r.value;
      && p.customer == actor.customer.value
      && p.checkIn == s.checkIn && p.checkOut == s.checkOut
      && p.nights == s.checkOut - s.checkIn > 0
      && p.price == room.rate * p.nights
      && 0 <= p.guests <= room.capacity && Some(p.guests) == s.guests
      && p.serviceIds == s.serviceIds
    ensures staged.Some? && staged.value.checkOut <= staged.value.checkIn ==> r.Failure?
  {
    if staged.None? then Failure(NoStagedData)
    else
      var s := staged.value;
      if s.roomId != roomId then Failure(RoomMismatch)
      else if s.guests.None? then Failure(ServerError)
      else if !actor.authenticated then Failure(NotSignedIn)
      else if actor.customer.None? then Failure(NoCustomerProfile)
      else if s.checkIn < today then Failure(PastCheckIn)
      else if s.checkOut <= s.checkIn then Failure(CheckOutNotAfterCheckIn)
      else if s.guests.value > room.capacity then Failure(OverCapacity)
      else if AnyBlocking(bookings, roomId, s.checkIn, s.checkOut) then Failure(Conflict)
      else if s.guests.value < 0 then Failure(ServerError)
      else
        var nights := s.checkOut - s.checkIn;
        Success(Plan(actor.customer.value, s.checkIn, s.checkOut, s.guests.value, nights,
                     room.rate * nights, s.serviceIds))
  }

  /** The booking a successful commit inserts. */
  function PlannedBooking(p: Plan, roomId: int, now: int): (b: Booking)
    ensures b.status == Pending && !b.paid && b.room == roomId && b.guests == p.guests
    ensures b.checkIn == p.checkIn && b.checkOut == p.checkOut && b.price == p.price
    ensures b.customer == p.customer && b.createdAt == now
  {
    NewBooking(p.customer, roomId, p.checkIn, p.checkOut, p.price, now).(guests := p.guests)
  }

  /** A successful commit leaves the new stay disjoint from every confirmed
      or checked-in booking of the same room. */
  lemma {:induction false} CommitAvoidsActiveStays(staged: Option<Staged>, roomId: int, room: Room,
                                                   bookings: seq<Booking>, actor: Account, today: int, i: int)
    requires CheckCommit(staged, roomId, room, bookings, actor, today).Success?
    requires 0 <= i < |bookings| && bookings[i].room == roomId && IsActive(bookings[i].status)
    ensures var p := CheckCommit(staged, roomId, room, bookings, actor, today).value;
      bookings[i].checkOut <= p.checkIn || p.checkOut <= bookings[i].checkIn
  {
    var p := CheckCommit(staged, roomId, room, bookings, actor, today).value;
    assert !Blocks(bookings[i], roomId, p.checkIn, p.checkOut);
  }

  // ------------------------------------------------ staged service lines

  /** The line a commit adds for an active service: quantity 1, dated the
      check-in day, priced at the service fee. */
  function StagedLine(booking: nat, id: int, s: Service, day: int, clock: int): (l: ServiceLine)
    ensures l.booking == booking && l.service == id && l.quantity == 1
    ensures l.usageDate == day && l.usageTime == clock && l.total == s.fee
  {
    ServiceLine(booking, id, day, clock, 1, s.fee, "")
  }

  /** The staged ids that are numbers naming an active service, in order,
      repeats included. */
  function Selected(ids: seq<StagedId>, services: map<int, Service>): (sel: seq<int>)
    ensures |sel| <= |ids|
    ensures forall n :: n in sel <==> Numeric(n) in ids && n in services && services[n].active
  {
    if ids == [] then []
    else
      var init, last := ids[..|ids| - 1], ids[|ids| - 1];
      assert ids == init + [last];
      Selected(init, services) + (if last.Numeric? && last.id in services && services[last.id].active then [last.id] else [])
  }

  /** A service is selected once per staged id naming it when it is active,
      and never otherwise. */
  lemma {:induction false} SelectedCounts(ids: seq<StagedId>, services: map<int, Service>, n: int)
    ensures multiset(Selected(ids, services))[n] ==
      if n in services && services[n].active then multiset(ids)[Numeric(n)] else 0
  {
    if ids != [] {
      var init, last := ids[..|ids| - 1], ids[|ids| - 1];
      assert ids == init + [last];
      assert multiset(ids) == multiset(init) + multiset{last};
      SelectedCounts(init, services, n);
    }
  }

  /** The lines the commit loop inserts, in order: one per staged id that
      is a number naming an active service; other numbers and ids int()
      refuses with ValueError are skipped. None when some id makes int()
      raise any other exception, which escapes the loop and rolls the commit
      back. */
  function StagedLines(ids: seq<StagedId>, services: map<int, Service>, booking: nat, day: int, clock: int)
    : (r: Option<seq<ServiceLine>>)
    ensures r.None? <==> WrongType in ids
  {
    if ids == [] then Some([])
    else
      var init, last := ids[..|ids| - 1], ids[|ids| - 1];
      assert ids == init + [last];
      match (StagedLines(init, services, booking, day, clock), LineFor(last, services, booking, day, clock))
      case (Some(ls), Some(l)) => Some(ls + l)
      case _ => None
  }

  /** What one pass of the commit loop inserts for one staged id: None when
      int() raises an exception other than ValueError, otherwise the line of an active service or
      nothing. */
  function LineFor(sid: StagedId, services: map<int, Service>, booking: nat, day: int, clock: int)
    : Option<seq<ServiceLine>>
  {
    match sid
    case WrongType => None
    case NotNumeric => Some([])
    case Numeric(n) =>
      if n in services && services[n].active
      then Some([StagedLine(booking, n, services[n], day, clock)])
      else Some([])
  }

  /** The i-th line inserted is the line of the i-th selected service. */
  lemma {:induction false} StagedLinesInOrder(ids: seq<StagedId>, services: map<int, Service>,
                                              booking: nat, day: int, clock: int)
    requires StagedLines(ids, services, booking, day, clock).Some?
    ensures var ls, sel := StagedLines(ids, services, booking, day, clock).value, Selected(ids, services);
      |ls| == |sel| &&
      forall i :: 0 <= i < |ls| ==> sel[i] in services && ls[i] == StagedLine(booking, sel[i], services[sel[i]], day, clock)
  {
    if ids != [] {
      var init, last := ids[..|ids| - 1], ids[|ids| - 1];
      assert ids == init + [last];
      StagedLinesInOrder(init, services, booking, day, clock);
    }
  }

  /** Each staged id naming an active service gets exactly one line, and
      no other service gets any. */
  lemma StagedLinesCount(ids: seq<StagedId>, services: map<int, Service>, booking: nat, day: int, clock: int, n: int)
    requires StagedLines(ids, services, booking, day, clock).Some?
    ensures var ls := StagedLines(ids, services, booking, day, clock).value;
      |set i | 0 <= i < |ls| && ls[i].service == n| ==
        if n in services && services[n].active then multiset(ids)[Numeric(n)] else 0
  {
    var ls := StagedLines(ids, services, booking, day, clock).value;
    var sel := Selected(ids, services);
    StagedLinesInOrder(ids, services, booking, day, clock);
    SelectedCounts(ids, services, n);
    MatchingPositions(sel, n);
    assert (set i | 0 <= i < |ls| && ls[i].service == n) == (set i | 0 <= i < |sel| && sel[i] == n);
  }

  /** The positions holding n are as many as the copies of n. */
  lemma {:induction false} MatchingPositions(s: seq<int>, n: int)
    ensures |set i | 0 <= i < |s| && s[i] == n| == multiset(s)[n]
  {
    if s != [] {
      var init := s[..|s| - 1];
      assert s == init + [s[|s| - 1]];
      MatchingPositions(init, n);
      var before := set i | 0 <= i < |init| && init[i] == n;
      var now := set i | 0 <= i < |s| && s[i] == n;
      if s[|s| - 1] == n {
        assert now == before + {|init|};
      } else {
        assert now == before;
      }
    }
  }

  /** Once a prefix of the staged ids aborts the loop, the whole commit
      aborts. */
  lemma {:induction false} AbortPersists(ids: seq<StagedId>, k: nat, services: map<int, Service>,
                                         booking: nat, day: int, clock: int)
    requires k <= |ids|
    requires StagedLines(ids[..k], services, booking, day, clock).None?
    ensures StagedLines(ids, services, booking, day, clock).None?
  {
    assert WrongType in ids[..k];
    var j :| 0 <= j < k && ids[..k][j] == WrongType;
    assert ids[j] == WrongType;
  }

  /** One more staged id extends the lines of the ids before it by its own
      line, if any, and a wrong type aborts the whole loop. */
  lemma StagedLinesNext(ids: seq<StagedId>, k: nat, services: map<int, Service>, booking: nat, day: int, clock: int)
    requires k < |ids| && StagedLines(ids[..k], services, booking, day, clock).Some?
    ensures LineFor(ids[k], services, booking, day, clock).None? ==> StagedLines(ids, services, booking, day, clock).None?
    ensures LineFor(ids[k], services, booking, day, clock).Some? ==>
      StagedLines(ids[..k + 1], services, booking, day, clock) ==
        Some(StagedLines(ids[..k], services, booking, day, clock).value + LineFor(ids[k], services, booking, day, clock).value)
  {
    assert ids[..k + 1][..k] == ids[..k];
    if ids[k].WrongType? {
      AbortPersists(ids, k + 1, services, booking, day, clock);
    }
  }
}
