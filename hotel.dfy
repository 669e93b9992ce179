/**
 * The hotel database as the booking core of core/views.py changes it, and
 * the browser session that stages a reservation.
 *
 * Rooms, services, staff and service requests are created by screens
 * outside this model, so they are maps from their ids. The tables the core
 * inserts into (bookings, service lines, invoices, shift schedules) are
 * sequences in insertion order, and a booking's id is its position.
 */
module Hotel {
  import opened Models
  import opened Roles
  import opened Availability
  import opened Transitions
  import opened Calendar

  // ------------------------------------------------------ store invariants

  /** Room rates are non-negative (MinValueValidator(0) on gia). */
  predicate RatesNonNegative(rooms: map<int, Room>)
  {
    forall id :: id in rooms ==> rooms[id].rate >= 0
  }

  /** Service fees are non-negative (MinValueValidator(0) on phi_dv). */
  predicate FeesNonNegative(services: map<int, Service>)
  {
    forall id :: id in services ==> services[id].fee >= 0
  }

  /** Every amount is non-negative: the MinValueValidator(0) of room rates,
      service fees, booking prices, line totals and invoice totals. */
  predicate MoneyNonNegative(rooms: map<int, Room>, services: map<int, Service>, bookings: seq<Booking>,
                             lines: seq<ServiceLine>, invoices: seq<Invoice>)
  {
    && RatesNonNegative(rooms)
    && FeesNonNegative(services)
    && (forall i :: 0 <= i < |bookings| ==> bookings[i].price >= 0)
    && (forall j :: 0 <= j < |lines| ==> lines[j].total >= 0)
    && (forall j :: 0 <= j < |invoices| ==> invoices[j].total >= 0)
  }

  /** Every booking is for a known room and checks out after it checks in. */
  predicate StaysWellFormed(bookings: seq<Booking>, rooms: map<int, Room>)
  {
    forall i :: 0 <= i < |bookings| ==> bookings[i].room in rooms && bookings[i].checkIn < bookings[i].checkOut
  }

  /** Every service line belongs to a booking, is used inside its stay
      (check-in and check-out days included) and has a non-negative
      quantity. */
  predicate LinesWithinStays(lines: seq<ServiceLine>, bookings: seq<Booking>)
  {
    forall j :: 0 <= j < |lines| ==>
      && lines[j].booking < |bookings|
      && bookings[lines[j].booking].checkIn <= lines[j].usageDate <= bookings[lines[j].booking].checkOut
      && lines[j].quantity >= 0
  }

  predicate HasInvoice(invoices: seq<Invoice>, booking: nat)
  {
    exists j :: 0 <= j < |invoices| && invoices[j].booking == booking
  }

  /** HoaDon.don_dat_phong is one-to-one: each invoice belongs to a booking
      and no booking has two. */
  predicate OneInvoicePerBooking(invoices: seq<Invoice>, bookingCount: nat)
  {
    && (forall j :: 0 <= j < |invoices| ==> invoices[j].booking < bookingCount)
    && (forall j, k :: 0 <= j < k < |invoices| ==> invoices[j].booking != invoices[k].booking)
  }

  predicate SameSlot(a: ScheduleEntry, b: ScheduleEntry)
  {
    a.staff == b.staff && a.day == b.day && a.shift == b.shift
  }

  /** LichLamViec's unique_together on (staff, date, shift). */
  predicate OneEntryPerShift(schedules: seq<ScheduleEntry>)
  {
    forall j, k :: 0 <= j < k < |schedules| ==> !SameSlot(schedules[j], schedules[k])
  }

  predicate RequestsStamped(requests: map<int, ServiceRequest>)
  {
    forall id :: id in requests ==> WellStamped(requests[id])
  }

  // ------------------------------------------------ invoices and totals

  /** The aggregate Sum('thanh_tien') over a booking's service lines, 0 when
      it has none. */
  function LinesTotal(lines: seq<ServiceLine>, booking: nat): (t: int)
    ensures (forall j :: 0 <= j < |lines| ==> lines[j].total >= 0) ==> t >= 0
    ensures (forall j :: 0 <= j < |lines| ==> lines[j].booking != booking) ==> t == 0
  {
    if lines == [] then 0
    else
      var last := lines[|lines| - 1];
      LinesTotal(lines[..|lines| - 1], booking) + (if last.booking == booking then last.total else 0)
  }

  /** Adding a line changes the sum of its own booking only, by its total. */
  lemma LinesTotalAppend(lines: seq<ServiceLine>, l: ServiceLine, booking: nat)
    ensures LinesTotal(lines + [l], booking) == LinesTotal(lines, booking) + (if l.booking == booking then l.total else 0)
  {
    assert (lines + [l])[..|lines|] == lines;
  }

  /** The invoice step of check-out: create the booking's invoice unless it
      already has one. */
  function Settle(invoices: seq<Invoice>, booking: nat, total: int, now: int): (r: seq<Invoice>)
    ensures HasInvoice(r, booking)
    ensures HasInvoice(invoices, booking) ==> r == invoices
    ensures !HasInvoice(invoices, booking) ==> r == invoices + [Invoice(booking, now, total, false, "", "")]
  {
    if HasInvoice(invoices, booking) then invoices
    else
      var r := invoices + [Invoice(booking, now, total, false, "", "")];
      assert r[|invoices|].booking == booking;
      r
  }

  /** Settling twice is settling once, whatever the second total: a second
      check-out never duplicates the invoice. */
  lemma {:induction false} SettleIdempotent(invoices: seq<Invoice>, booking: nat, total: int, now: int, total': int, now': int)
    ensures Settle(Settle(invoices, booking, total, now), booking, total', now') == Settle(invoices, booking, total, now)
  {
    var once := Settle(invoices, booking, total, now);
    assert HasInvoice(once, booking);
  }

  /** Settling keeps invoices one-to-one with bookings. */
  lemma {:induction false} SettleKeepsOneToOne(invoices: seq<Invoice>, bookingCount: nat, booking: nat, total: int, now: int)
    requires OneInvoicePerBooking(invoices, bookingCount) && booking < bookingCount
    ensures OneInvoicePerBooking(Settle(invoices, booking, total, now), bookingCount)
  {
    if !HasInvoice(invoices, booking) {
      var r := Settle(invoices, booking, total, now);
      forall j, k | 0 <= j < k < |r| ensures r[j].booking != r[k].booking {
        if k == |invoices| {
          assert r[j] == invoices[j];
        }
      }
    }
  }

  // ------------------------------------------ keeping the invariants

  /** Appending a well-formed booking keeps every table consistent. */
  lemma AppendBookingKeepsTables(rooms: map<int, Room>, services: map<int, Service>, bookings: seq<Booking>,
                                 lines: seq<ServiceLine>, invoices: seq<Invoice>, b: Booking)
    requires MoneyNonNegative(rooms, services, bookings, lines, invoices)
    requires StaysWellFormed(bookings, rooms) && LinesWithinStays(lines, bookings)
    requires OneInvoicePerBooking(invoices, |bookings|)
    requires b.room in rooms && b.checkIn < b.checkOut && b.price >= 0
    ensures MoneyNonNegative(rooms, services, bookings + [b], lines, invoices)
    ensures StaysWellFormed(bookings + [b], rooms) && LinesWithinStays(lines, bookings + [b])
    ensures OneInvoicePerBooking(invoices, |bookings + [b]|)
  {
    var all := bookings + [b];
    forall j | 0 <= j < |lines|
      ensures all[lines[j].booking] == bookings[lines[j].booking]
    {
    }
  }

  /** Settling with a non-negative total keeps amounts non-negative and
      invoices one-to-one with bookings. */
  lemma SettleKeepsTables(rooms: map<int, Room>, services: map<int, Service>, bookings: seq<Booking>,
                          lines: seq<ServiceLine>, invoices: seq<Invoice>, id: nat, total: int, now: int)
    requires MoneyNonNegative(rooms, services, bookings, lines, invoices)
    requires OneInvoicePerBooking(invoices, |bookings|) && id < |bookings| && total >= 0
    ensures MoneyNonNegative(rooms, services, bookings, lines, Settle(invoices, id, total, now))
    ensures OneInvoicePerBooking(Settle(invoices, id, total, now), |bookings|)
  {
    SettleKeepsOneToOne(invoices, |bookings|, id, total, now);
  }

  /** Changing a booking's status or note keeps every table consistent. */
  lemma RestatusKeepsTables(rooms: map<int, Room>, services: map<int, Service>, bookings: seq<Booking>,
                            lines: seq<ServiceLine>, invoices: seq<Invoice>, id: nat, b: Booking)
    requires MoneyNonNegative(rooms, services, bookings, lines, invoices)
    requires StaysWellFormed(bookings, rooms) && LinesWithinStays(lines, bookings)
    requires id < |bookings|
    requires b.room == bookings[id].room && b.checkIn == bookings[id].checkIn
    requires b.checkOut == bookings[id].checkOut && b.price == bookings[id].price
    ensures MoneyNonNegative(rooms, services, bookings[id := b], lines, invoices)
    ensures StaysWellFormed(bookings[id := b], rooms) && LinesWithinStays(lines, bookings[id := b])
  {
  }

  /** Changing a room's status keeps every table consistent. */
  lemma RoomStatusKeepsTables(rooms: map<int, Room>, services: map<int, Service>, bookings: seq<Booking>,
                              lines: seq<ServiceLine>, invoices: seq<Invoice>, k: int, s: RoomStatus)
    requires MoneyNonNegative(rooms, services, bookings, lines, invoices) && StaysWellFormed(bookings, rooms)
    requires k in rooms
    ensures MoneyNonNegative(rooms[k := rooms[k].(status := s)], services, bookings, lines, invoices)
    ensures StaysWellFormed(bookings, rooms[k := rooms[k].(status := s)])
  {
  }

  /** A new entry for a slot nobody holds keeps schedules unique. */
  lemma {:induction false} AppendEntryKeepsUnique(schedules: seq<ScheduleEntry>, entry: ScheduleEntry)
    requires OneEntryPerShift(schedules)
    requires !(exists j :: 0 <= j < |schedules| && SameSlot(schedules[j], entry))
    ensures OneEntryPerShift(schedules + [entry])
  {
    var all := schedules + [entry];
    forall j, k | 0 <= j < k < |all| ensures !SameSlot(all[j], all[k]) {
      assert all[j] == schedules[j];
      if k == |schedules| {
        assert all[k] == entry;
      } else {
        assert all[k] == schedules[k];
      }
    }
  }

  // ------------------------------------------------------- replies

  /** What RoomDetailView.post answers. */
  datatype Reply = StagedOk | Booked(id: nat) | Rejected(error: BookingError)

  /** The step a reservation post asks for: step 1 carries the form fields,
      with the guest count already read as an integer or not and the
      selected-services JSON already decoded (None when it is not a list). */
  datatype StepRequest =
    | StepOne(checkIn: Input<int>, checkOut: Input<int>, guests: Option<int>, decoded: Option<seq<StagedId>>)
    | StepTwo
    | OtherStep

  datatype DetailReply =
    | DetailDenied
    | DetailNotFound
    | LineAdded
    | AddRefused(error: AddServiceError)
    | BookingCancelled
    | NothingDone

  datatype RequestReply =
    | RequestDenied
    | RequestNotFound
    | RequestServerError
    | RequestRefused(reason: TriageRefusal)
    | RequestUpdated(saved: bool)

  datatype ScheduleReply = ScheduleDenied | ScheduleServerError | InvalidForm | DuplicateEntry | EntryAdded

  /** What NhanVien.objects.get(tai_khoan=user) finds: no staff profile, one,
      or several. tai_khoan is a plain foreign key, so one account may own
      several profiles; get() then raises MultipleObjectsReturned, which the
      views do not catch. */
  datatype ProfileLookup = NoProfile | OneProfile(id: int) | ManyProfiles

  /** The browser session: session['booking_data']. */
  class Session {
    var bookingData: Option<Staged>

    constructor ()
      ensures bookingData == None
    {
      bookingData := None;
    }
  }

  lemma AppendAssoc<T>(a: seq<T>, b: seq<T>, c: seq<T>)
    ensures a + (b + c) == (a + b) + c
  {
  }

  /** The test booking_detail is decorated with. */
  predicate DetailGate(u: Account)
  {
    u.authenticated && (Normalized(u.kind) == "admin" || Normalized(u.kind) == "nhan_vien" || IsCustomer(u))
  }

  /** booking_detail admits an authenticated account typed "admin" or
      "nhan_vien" in any case and padding, or a customer; unlike is_admin,
      the superuser flag alone does not pass. */
  lemma DetailGateMeans(u: Account)
    ensures DetailGate(u) <==>
      u.authenticated && (Matches(u.kind, "admin") || Matches(u.kind, "nhan_vien")
                          || (Matches(u.kind, "khach_hang") && u.customer.Some?))
  {
    GateMeans(u);
    CustomerMeans(u);
  }

  /** The field updates of process_request on a fetched request: who may
      act, then the action's status, assignee and completion changes, and
      the note and modification time when anything changed. */
  method ApplyTriage(q0: ServiceRequest, kind: string, own: Option<int>, cmd: TriageCommand,
                     staffField: Input<int>, staffIds: set<int>, note: string, now: int)
    returns (res: Result<ServiceRequest, TriageRefusal>)
    ensures res == Triage(q0, kind, own, cmd, staffField, staffIds, note, now)
  {
    if kind == "nhan_vien" && q0.assignee.Some? && own.Some? && q0.assignee != own {
      return Failure(OthersRequest);
    }
    var q := q0;
    var changed := false;
    var noteChanged := q.note != note;
    match cmd {
      case Assign =>
        if kind != "admin" {
          return Failure(AdminOnly);
        }
        if staffField.Absent? {
          return Failure(NoStaffChosen);
        }
        if staffField.Malformed? {
          return Failure(BadStaffId);
        }
        if staffField.value !in staffIds {
          return Failure(UnknownStaff);
        }
        if q.assignee != Some(staffField.value) {
          q := q.(assignee := Some(staffField.value));
          changed := true;
        }
        if q.status != Assigned {
          q := q.(status := Assigned);
          changed := true;
        }
      case StartWork =>
        if q.status != InProgress {
          q := q.(status := InProgress);
          if kind == "nhan_vien" && q.assignee.None? && own.Some? {
            q := q.(assignee := own);
          }
          changed := true;
        }
      case Complete =>
        if q.status != Resolved {
          q := q.(status := Resolved, completedAt := Some(now));
          changed := true;
        }
      case Withdraw =>
        if q.status != Withdrawn {
          q := q.(status := Withdrawn);
          changed := true;
        }
      case NoteOnly =>
    }
    if changed || noteChanged {
      q := q.(note := note, updatedAt := now);
    }
    res := Success(q);
  }

  // ------------------------------------------------------------ the store

  class Store {
    var rooms: map<int, Room>
    var services: map<int, Service>
    var staff: set<int>
    var bookings: seq<Booking>
    var lines: seq<ServiceLine>
    var invoices: seq<Invoice>
    var requests: map<int, ServiceRequest>
    var schedules: seq<ScheduleEntry>

    ghost predicate Valid()
      reads this
    {
      && MoneyNonNegative(rooms, services, bookings, lines, invoices)
      && StaysWellFormed(bookings, rooms)
      && LinesWithinStays(lines, bookings)
      && OneInvoicePerBooking(invoices, |bookings|)
      && OneEntryPerShift(schedules)
      && RequestsStamped(requests)
    }

    /** A store holding the rooms, services, staff and requests made by the
        other screens, and no bookings, lines, invoices or schedules. */
    constructor (rooms: map<int, Room>, services: map<int, Service>, staff: set<int>,
                 requests: map<int, ServiceRequest>)
      requires RatesNonNegative(rooms) && FeesNonNegative(services)
      requires RequestsStamped(requests)
      ensures this.rooms == rooms && this.services == services && this.staff == staff
      ensures this.requests == requests
      ensures bookings == [] && lines == [] && invoices == [] && schedules == []
      ensures Valid()
    {
      this.rooms := rooms;
      this.services := services;
      this.staff := staff;
      this.requests := requests;
      bookings := [];
      lines := [];
      invoices := [];
      schedules := [];
    }

    /** DonDatDichVu.save: whatever total the line carries, the stored total
        is the service fee times the quantity. */
    method SaveLine(line: ServiceLine)
      requires Valid()
      requires line.service in services && line.quantity >= 0 && line.booking < |bookings|
      requires bookings[line.booking].checkIn <= line.usageDate <= bookings[line.booking].checkOut
      modifies this
      ensures Valid()
      ensures rooms == old(rooms) && services == old(services) && staff == old(staff)
      ensures lines == old(lines) + [line.(total := services[line.service].fee * line.quantity)]
      ensures bookings == old(bookings) && invoices == old(invoices)
      ensures requests == old(requests) && schedules == old(schedules)
    {
      var priced := line.(total := services[line.service].fee * line.quantity);
      assert priced.total >= 0;
      lines := lines + [priced];
    }

    // ------------------------------------------- reservation, two steps

    /** RoomDetailView.post: the room must exist, then the step decides. */
    method Post(session: Session, roomId: int, step: StepRequest, actor: Account, today: int, clock: int, now: int)
      returns (r: Reply)
      requires Valid()
      modifies this, session
      ensures Valid()
      ensures roomId !in old(rooms) || step.OtherStep? ==>
        r == (if roomId !in old(rooms) then Rejected(RoomNotFound) else Rejected(UnknownStep))
        && bookings == old(bookings) && lines == old(lines) && session.bookingData == old(session.bookingData)
      ensures step.StepOne? ==> bookings == old(bookings) && lines == old(lines)
      ensures rooms == old(rooms) && services == old(services) && staff == old(staff)
      ensures invoices == old(invoices) && requests == old(requests) && schedules == old(schedules)
    {
      if roomId !in rooms {
        return Rejected(RoomNotFound);
      }
      match step {
        case StepOne(checkIn, checkOut, guests, decoded) =>
          r := Stage(session, roomId, checkIn, checkOut, guests, decoded, today, now);
        case StepTwo =>
          r := Commit(session, roomId, actor, today, clock, now);
        case OtherStep =>
          r := Rejected(UnknownStep);
      }
    }

    /** Step 1: check the dates and stage the selection in the session;
        nothing in the store changes. */
    method Stage(session: Session, roomId: int, checkIn: Input<int>, checkOut: Input<int>, guests: Option<int>,
                 decoded: Option<seq<StagedId>>, today: int, now: int) returns (r: Reply)
      requires roomId in rooms
      modifies session
      ensures var c := CheckStage(checkIn, checkOut, today);
        && (c.Failure? ==> r == Rejected(c.error) && session.bookingData == old(session.bookingData))
        && (c.Success? ==> r == StagedOk && session.bookingData.Some?)
      ensures r == StagedOk ==>
        var s := session.bookingData.value;
        && (s.checkIn, s.checkOut) == CheckStage(checkIn, checkOut, today).value
        && s.guests == guests && s.roomId == roomId && s.stagedAt == now
        && (decoded.Some? ==> s.serviceIds == decoded.value)
        && (decoded.None? ==> s.serviceIds == [])
    {
      var c := CheckStage(checkIn, checkOut, today);
      if c.Failure? {
        return Rejected(c.error);
      }
      // a decoded value that is not a list is stored as the empty list
      var ids := if decoded.Some? then decoded.value else [];
      session.bookingData := Some(Staged(c.value.0, c.value.1, guests, roomId, ids, now));
      r := StagedOk;
    }

    /** Step 2: re-check the staged selection and, as one atomic step, insert
        the pending booking and a line per staged active service, then clear
        the staging slot. A refusal, or a staged id that aborts the line
        loop, leaves store and session as they were. */
    method Commit(session: Session, roomId: int, actor: Account, today: int, clock: int, now: int) returns (r: Reply)
      requires Valid() && roomId in rooms
      modifies this, session
      ensures Valid()
      ensures var check := CheckCommit(old(session.bookingData), roomId, old(rooms)[roomId], old(bookings), actor, today);
        var staged := if check.Success?
          then StagedLines(check.value.serviceIds, old(services), |old(bookings)|, check.value.checkIn, clock)
          else None;
        if check.Success? && staged.Some? then
          && r == Booked(|old(bookings)|)
          && bookings == old(bookings) + [PlannedBooking(check.value, roomId, now)]
          && lines == old(lines) + staged.value
          && session.bookingData == None
        else
          && r == Rejected(if check.Failure? then check.error else ServerError)
          && bookings == old(bookings) && lines == old(lines)
          && session.bookingData == old(session.bookingData)
      ensures rooms == old(rooms) && services == old(services) && staff == old(staff)
      ensures invoices == old(invoices) && requests == old(requests) && schedules == old(schedules)
    {
      var check := CheckCommit(session.bookingData, roomId, rooms[roomId], bookings, actor, today);
      if check.Failure? {
        return Rejected(check.error);
      }
      var plan := check.value;
      var id := |bookings|;
      var savedBookings, savedLines := bookings, lines;
      var booking := PlannedBooking(plan, roomId, now);
      assert booking.price >= 0 by {
        assert rooms[roomId].rate >= 0 && plan.nights > 0;
      }
      InsertBooking(booking);
      var ok := SaveStagedLines(plan.serviceIds, id, plan.checkIn, clock);
      if !ok {
        bookings, lines := savedBookings, savedLines;
        return Rejected(ServerError);
      }
      session.bookingData := None;
      r := Booked(id);
    }

    /** Inserts a booking for a known room whose stay is well formed. */
    method InsertBooking(b: Booking)
      requires Valid() && b.room in rooms && b.checkIn < b.checkOut && b.price >= 0
      modifies this
      ensures Valid()
      ensures bookings == old(bookings) + [b]
      ensures rooms == old(rooms) && services == old(services) && staff == old(staff) && lines == old(lines)
      ensures invoices == old(invoices) && requests == old(requests) && schedules == old(schedules)
    {
      AppendBookingKeepsTables(rooms, services, bookings, lines, invoices, b);
      bookings := bookings + [b];
    }

    /** The line loop of step 2: a line, on the check-in day, for every
        staged id that names an active service. An id of the wrong type
        stops the loop and reports failure, leaving the lines saved so far
        for the caller to roll back. */
    method SaveStagedLines(ids: seq<StagedId>, id: nat, day: int, clock: int) returns (ok: bool)
      requires Valid() && id < |bookings| && bookings[id].checkIn == day
      modifies this
      ensures Valid()
      ensures ok <==> StagedLines(ids, old(services), id, day, clock).Some?
      ensures ok ==> lines == old(lines) + StagedLines(ids, old(services), id, day, clock).value
      ensures rooms == old(rooms) && services == old(services) && staff == old(staff) && bookings == old(bookings)
      ensures invoices == old(invoices) && requests == old(requests) && schedules == old(schedules)
    {
      var i := 0;
      while i < |ids|
        invariant 0 <= i <= |ids|
        invariant rooms == old(rooms) && services == old(services) && staff == old(staff) && bookings == old(bookings)
        invariant invoices == old(invoices) && requests == old(requests) && schedules == old(schedules)
        invariant StagedLines(ids[..i], services, id, day, clock).Some?
        invariant lines == old(lines) + StagedLines(ids[..i], services, id, day, clock).value
        invariant Valid()
      {
        StagedLinesNext(ids, i, services, id, day, clock);
        ghost var done := StagedLines(ids[..i], services, id, day, clock).value;
        var saved := SaveStagedId(ids[i], id, day, clock);
        if !saved {
          return false;
        }
        AppendAssoc(old(lines), done, LineFor(ids[i], services, id, day, clock).value);
        i := i + 1;
      }
      assert ids[..|ids|] == ids;
      ok := true;
    }

    /** One pass of the commit loop: inserts the line of a staged id naming
        an active service, and reports false when int() raises on the id an
        exception other than ValueError. */
    method SaveStagedId(sid: StagedId, id: nat, day: int, clock: int) returns (ok: bool)
      requires Valid() && id < |bookings| && bookings[id].checkIn == day
      modifies this
      ensures Valid()
      ensures rooms == old(rooms) && services == old(services) && staff == old(staff) && bookings == old(bookings)
      ensures invoices == old(invoices) && requests == old(requests) && schedules == old(schedules)
      ensures ok <==> LineFor(sid, services, id, day, clock).Some?
      ensures ok ==> lines == old(lines) + LineFor(sid, services, id, day, clock).value
    {
      match sid {
        case WrongType =>
          return false;
        case NotNumeric =>
          assert lines + [] == lines;
        case Numeric(n) =>
          if n in services && services[n].active {
            var line := StagedLine(id, n, services[n], day, clock);
            assert line.(total := services[n].fee * line.quantity) == line;
            SaveLine(line);
          } else {
            assert lines + [] == lines;
          }
      }
      ok := true;
    }

    // ------------------------------------------- booking status machine

    /** process_booking: apply an operator's action to a booking, with the
        room-status side effect and, at check-out, the invoice. */
    method ProcessBooking(id: int, actor: Account, cmd: BookingCommand, note: string, now: int)
      returns (r: BookingStep)
      requires Valid()
      modifies this
      ensures Valid()
      ensures !OperatorGate(actor) ==> r == Refused(NotPermitted)
      ensures OperatorGate(actor) && !(0 <= id < |old(bookings)|) ==> r == Refused(NoSuchBooking)
      ensures OperatorGate(actor) && 0 <= id < |old(bookings)| ==> r == Process(actor.kind, cmd, old(bookings)[id].status)
      ensures r.Refused? ==> bookings == old(bookings) && rooms == old(rooms)
      ensures r.Moved? ==> 0 <= id < |old(bookings)|
      ensures r.Moved? ==> bookings == old(bookings)[id := old(bookings)[id].(status := r.to, note := note)]
      ensures r.Moved? && r.roomStatus.Some? ==>
        var k := old(bookings)[id].room;
        rooms == old(rooms)[k := old(rooms)[k].(status := r.roomStatus.value)]
      ensures r.Moved? && r.roomStatus.None? ==> rooms == old(rooms)
      ensures r.Moved? && r.settles ==>
        invoices == Settle(old(invoices), id, old(bookings)[id].price + LinesTotal(old(lines), id), now)
      ensures !(r.Moved? && r.settles) ==> invoices == old(invoices)
      ensures services == old(services) && staff == old(staff) && lines == old(lines)
      ensures requests == old(requests) && schedules == old(schedules)
    {
      if !OperatorGate(actor) {
        return Refused(NotPermitted);
      }
      if !(0 <= id < |bookings|) {
        return Refused(NoSuchBooking);
      }
      var b := bookings[id];
      if actor.kind == "nhan_vien" {
        if cmd != Confirm {
          return Refused(NotPermitted);
        }
        if b.status != Pending {
          return Refused(NotPending);
        }
      }
      if cmd == Confirm {
        r := Moved(Confirmed, None, false);
      } else if actor.kind == "admin" {
        match cmd {
          case CheckIn =>
            if b.status != Confirmed {
              return Refused(NotConfirmed);
            }
            r := Moved(CheckedIn, Some(Occupied), false);
          case CheckOut =>
            if b.status != CheckedIn {
              return Refused(NotCheckedIn);
            }
            r := Moved(CheckedOut, Some(Available), true);
          case CancelBooking =>
            if b.status == CheckedOut {
              return Refused(AlreadyCheckedOut);
            }
            r := Moved(Cancelled, None, false);
          case _ =>
            return Refused(InvalidAction);
        }
      } else {
        return Refused(NotPermitted);
      }
      ApplyMove(id, r, note, now);
    }

    /** Records an accepted action: the booking's new status and note, the
        room's new status when the action sets one, and at check-out the
        invoice. */
    method ApplyMove(id: nat, step: BookingStep, note: string, now: int)
      requires Valid() && id < |bookings| && step.Moved?
      modifies this
      ensures Valid()
      ensures bookings == old(bookings)[id := old(bookings)[id].(status := step.to, note := note)]
      ensures step.roomStatus.Some? ==>
        var k := old(bookings)[id].room;
        rooms == old(rooms)[k := old(rooms)[k].(status := step.roomStatus.value)]
      ensures step.roomStatus.None? ==> rooms == old(rooms)
      ensures step.settles ==>
        invoices == Settle(old(invoices), id, old(bookings)[id].price + LinesTotal(old(lines), id), now)
      ensures !step.settles ==> invoices == old(invoices)
      ensures services == old(services) && staff == old(staff) && lines == old(lines)
      ensures requests == old(requests) && schedules == old(schedules)
    {
      ghost var before := invoices;
      ghost var cost := bookings[id].price + LinesTotal(lines, id);
      SetStatus(id, step.to, step.roomStatus, note);
      if step.settles {
        assert invoices == before && bookings[id].price + LinesTotal(lines, id) == cost;
        IssueInvoice(id, now);
        assert invoices == Settle(before, id, cost, now);
      }
    }

    /** Saves a booking's new status and note, and its room's new status
        when there is one. */
    method SetStatus(id: nat, to: BookingStatus, roomStatus: Option<RoomStatus>, note: string)
      requires Valid() && id < |bookings|
      modifies this
      ensures Valid()
      ensures bookings == old(bookings)[id := old(bookings)[id].(status := to, note := note)]
      ensures roomStatus.Some? ==>
        var k := old(bookings)[id].room;
        rooms == old(rooms)[k := old(rooms)[k].(status := roomStatus.value)]
      ensures roomStatus.None? ==> rooms == old(rooms)
      ensures services == old(services) && staff == old(staff) && lines == old(lines) && invoices == old(invoices)
      ensures requests == old(requests) && schedules == old(schedules)
    {
      var b := bookings[id];
      if roomStatus.Some? {
        RoomStatusKeepsTables(rooms, services, bookings, lines, invoices, b.room, roomStatus.value);
        rooms := rooms[b.room := rooms[b.room].(status := roomStatus.value)];
      }
      RestatusKeepsTables(rooms, services, bookings, lines, invoices, id, b.(status := to, note := note));
      bookings := bookings[id := b.(status := to, note := note)];
    }

    /** The invoice step of check-out: unless the booking already has an
        invoice, create an unpaid one for the room price plus the sum of the
        booking's service lines. */
    method IssueInvoice(id: nat, now: int)
      requires Valid() && id < |bookings|
      modifies this
      ensures Valid()
      ensures bookings == old(bookings) && lines == old(lines)
      ensures invoices == Settle(old(invoices), id, bookings[id].price + LinesTotal(lines, id), now)
      ensures rooms == old(rooms) && services == old(services) && staff == old(staff)
      ensures requests == old(requests) && schedules == old(schedules)
    {
      var roomCost := bookings[id].price;
      var servicesCost := LinesTotal(lines, id);
      var total := roomCost + servicesCost;
      SettleKeepsTables(rooms, services, bookings, lines, invoices, id, total, now);
      if !HasInvoice(invoices, id) {
        invoices := invoices + [Invoice(id, now, total, false, "", "")];
      }
    }

    // ---------------------------------- booking_detail: add service, cancel

    /** The POST branch of booking_detail: back-office accounts and the
        booking's own customer may add a service line or cancel a pending
        booking. */
    method BookingDetail(id: int, actor: Account, cmd: DetailCommand, quantityLimit: int) returns (r: DetailReply)
      requires Valid()
      modifies this
      ensures Valid()
      ensures !DetailGate(actor) ==> r == DetailDenied
      ensures DetailGate(actor) && !(0 <= id < |old(bookings)|) ==> r == DetailNotFound
      ensures DetailGate(actor) && 0 <= id < |old(bookings)| ==>
        var b := old(bookings)[id];
        var allowed := actor.kind == "admin" || actor.kind == "nhan_vien"
                       || (actor.customer.Some? && b.customer == actor.customer.value);
        && (!allowed ==> r == DetailDenied)
        && (allowed && cmd.AddService? ==>
              var c := CheckAddService(b, id, old(services), cmd.serviceId, cmd.day, cmd.time, cmd.quantity, cmd.note, quantityLimit);
              && (c.Failure? ==> r == AddRefused(c.error))
              && (c.Success? ==> r == LineAdded && lines == old(lines) + [c.value]))
        && (allowed && cmd.CancelPending? ==>
              r == (if b.status == Pending then BookingCancelled else NothingDone)
              && bookings == old(bookings)[id := b.(status := CustomerCancel(b.status))])
        && (allowed && cmd.NoDetailAction? ==> r == NothingDone)
      ensures r != LineAdded ==> lines == old(lines)
      ensures r != BookingCancelled ==> bookings == old(bookings)
      ensures rooms == old(rooms) && services == old(services) && staff == old(staff)
      ensures invoices == old(invoices) && requests == old(requests) && schedules == old(schedules)
    {
      if !DetailGate(actor) {
        return DetailDenied;
      }
      if !(0 <= id < |bookings|) {
        return DetailNotFound;
      }
      var b := bookings[id];
      if !(actor.kind == "admin" || actor.kind == "nhan_vien"
           || (actor.customer.Some? && b.customer == actor.customer.value)) {
        return DetailDenied;
      }
      match cmd {
        case AddService(serviceId, day, time, quantity, note) =>
          var c := CheckAddService(b, id, services, serviceId, day, time, quantity, note, quantityLimit);
          if c.Failure? {
            return AddRefused(c.error);
          }
          SaveLine(c.value);
          r := LineAdded;
        case CancelPending =>
          if b.status == Pending {
            RestatusKeepsTables(rooms, services, bookings, lines, invoices, id, b.(status := Cancelled));
            bookings := bookings[id := b.(status := Cancelled)];
            r := BookingCancelled;
          } else {
            assert bookings[id := b.(status := CustomerCancel(b.status))] == bookings;
            r := NothingDone;
          }
        case NoDetailAction =>
          r := NothingDone;
      }
    }

    // ------------------------------------------------ request triage

    /** process_request: apply a triage action to a service request. The
        staff profile is looked up, after the request, only for accounts of
        type "nhan_vien"; several profiles make the view fail. */
    method ProcessRequest(id: int, actor: Account, lookup: ProfileLookup, cmd: TriageCommand,
                          staffField: Input<int>, note: string, now: int) returns (r: RequestReply)
      requires Valid()
      modifies this
      ensures Valid()
      ensures !OperatorGate(actor) ==> r == RequestDenied && requests == old(requests)
      ensures OperatorGate(actor) && id !in old(requests) ==> r == RequestNotFound && requests == old(requests)
      ensures OperatorGate(actor) && id in old(requests) && actor.kind == "nhan_vien" && lookup.ManyProfiles? ==>
        r == RequestServerError && requests == old(requests)
      ensures OperatorGate(actor) && id in old(requests) && !(actor.kind == "nhan_vien" && lookup.ManyProfiles?) ==>
        var own := if actor.kind == "nhan_vien" && lookup.OneProfile? then Some(lookup.id) else None;
        var t := Triage(old(requests)[id], actor.kind, own, cmd, staffField, old(staff), note, now);
        && (t.Failure? ==> r == RequestRefused(t.error) && requests == old(requests))
        && (t.Success? ==> r == RequestUpdated(t.value != old(requests)[id])
                           && requests == old(requests)[id := t.value])
      ensures rooms == old(rooms) && services == old(services) && staff == old(staff)
      ensures bookings == old(bookings) && lines == old(lines) && invoices == old(invoices)
      ensures schedules == old(schedules)
    {
      if !OperatorGate(actor) {
        return RequestDenied;
      }
      if id !in requests {
        return RequestNotFound;
      }
      if actor.kind == "nhan_vien" && lookup.ManyProfiles? {
        return RequestServerError;
      }
      var own := if actor.kind == "nhan_vien" && lookup.OneProfile? then Some(lookup.id) else None;
      var t := ApplyTriage(requests[id], actor.kind, own, cmd, staffField, staff, note, now);
      if t.Failure? {
        return RequestRefused(t.error);
      }
      TriageKeepsStamps(requests[id], actor.kind, own, cmd, staffField, staff, note, now);
      var saved := t.value != requests[id];
      if saved {
        requests := requests[id := t.value];
      } else {
        assert requests[id := t.value] == requests;
      }
      r := RequestUpdated(saved);
    }

    // ------------------------------------------------ shift schedules

    /** The insert branch of admin_schedule_management. The month code runs
        first, on the `year` and `month` query fields, and fails the request
        where the shown month overflows; then only an "admin" gets the form,
        and an entry for a (staff, date, shift) already scheduled is
        refused. */
    method AddSchedule(actor: Account, lookup: ProfileLookup, year: Input<int>, month: Input<int>,
                       todayYear: int, todayMonth: int, entry: ScheduleEntry) returns (r: ScheduleReply)
      requires Valid()
      requires 1 <= todayYear <= 9999 && 1 <= todayMonth <= 12
      modifies this
      ensures Valid()
      ensures OperatorGate(actor) && MonthFails(year, month, todayYear, todayMonth) ==> r == ScheduleServerError
      ensures OperatorGate(actor) && actor.kind == "nhan_vien" && lookup.ManyProfiles? ==> r == ScheduleServerError
      ensures r == EntryAdded <==>
        OperatorGate(actor) && !MonthFails(year, month, todayYear, todayMonth)
        && actor.kind == "admin" && entry.staff in old(staff)
        && !(exists j :: 0 <= j < |old(schedules)| && SameSlot(old(schedules)[j], entry))
      ensures (OperatorGate(actor) && !MonthFails(year, month, todayYear, todayMonth)
               && actor.kind == "admin" && entry.staff in old(staff)
               && (exists j :: 0 <= j < |old(schedules)| && SameSlot(old(schedules)[j], entry))) ==> r == DuplicateEntry
      ensures schedules == if r == EntryAdded then old(schedules) + [entry] else old(schedules)
      ensures rooms == old(rooms) && services == old(services) && staff == old(staff)
      ensures bookings == old(bookings) && lines == old(lines) && invoices == old(invoices)
      ensures requests == old(requests)
    {
      if !OperatorGate(actor) {
        return ScheduleDenied;
      }
      if MonthFails(year, month, todayYear, todayMonth) {
        return ScheduleServerError;
      }
      if actor.kind == "nhan_vien" && lookup.ManyProfiles? {
        return ScheduleServerError;
      }
      if actor.kind != "admin" {
        return ScheduleDenied;
      }
      if entry.staff !in staff {
        return InvalidForm;
      }
      if exists j :: 0 <= j < |schedules| && SameSlot(schedules[j], entry) {
        return DuplicateEntry;
      }
      AppendEntryKeepsUnique(schedules, entry);
      schedules := schedules + [entry];
      r := EntryAdded;
    }
  }

  // ------------------------------------------------- what is not kept

  /** Confirmed and checked-in stays of one room do not overlap. */
  predicate ActiveStaysDisjoint(bs: seq<Booking>)
  {
    forall i, j :: 0 <= i < |bs| && 0 <= j < |bs| && i != j && bs[i].room == bs[j].room
      && IsActive(bs[i].status) && IsActive(bs[j].status)
      ==> bs[i].checkOut <= bs[j].checkIn || bs[j].checkOut <= bs[i].checkIn
  }

  /** Disjointness of active stays is not an invariant of the workflow: the
      commit check ignores a pending booking for the same nights, and
      confirm does not look at other bookings, so confirming both leaves
      two overlapping active stays. */
  lemma {:induction false} OverlapIsReachable()
    ensures
      var room := NewRoom("101", 100, Standard);
      var first := Booking(1, 7, 10, 12, 2, 200, Pending, "", false, 0);
      var guest := Account(true, false, "khach_hang", Some(2));
      var check := CheckCommit(Some(Staged(10, 12, Some(2), 7, [], 0)), 7, room, [first], guest, 5);
      && check.Success?
      && var second := PlannedBooking(check.value, 7, 1);
      && Process("admin", Confirm, first.status) == Moved(Confirmed, None, false)
      && Process("admin", Confirm, second.status) == Moved(Confirmed, None, false)
      && !ActiveStaysDisjoint([first.(status := Confirmed), second.(status := Confirmed)])
  {
    var room := NewRoom("101", 100, Standard);
    var first := Booking(1, 7, 10, 12, 2, 200, Pending, "", false, 0);
    assert !Blocks(first, 7, 10, 12);
    assert !AnyBlocking([first], 7, 10, 12);
    var guest := Account(true, false, "khach_hang", Some(2));
    var check := CheckCommit(Some(Staged(10, 12, Some(2), 7, [], 0)), 7, room, [first], guest, 5);
    var second := PlannedBooking(check.value, 7, 1);
    var both := [first.(status := Confirmed), second.(status := Confirmed)];
    assert both[0].room == both[1].room && both[0].checkOut > both[1].checkIn && both[1].checkOut > both[0].checkIn;
  }

  /** A commit appends a pending booking, so it keeps whatever disjointness
      of active stays held before it. */
  lemma {:induction false} CommitKeepsDisjoint(bs: seq<Booking>, b: Booking)
    requires ActiveStaysDisjoint(bs) && b.status == Pending
    ensures ActiveStaysDisjoint(bs + [b])
  {
    var all := bs + [b];
    forall i, j | 0 <= i < |all| && 0 <= j < |all| && i != j && all[i].room == all[j].room
        && IsActive(all[i].status) && IsActive(all[j].status)
      ensures all[i].checkOut <= all[j].checkIn || all[j].checkOut <= all[i].checkIn
    {
      assert i < |bs| && j < |bs|;
      assert all[i] == bs[i] && all[j] == bs[j];
    }
  }
}
