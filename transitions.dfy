/**
 * The guarded transitions of core/views.py as pure decisions:
 * process_booking (the booking status machine), the add_service and
 * cancel branch of booking_detail, and process_request (the
 * service-request triage machine). The store in hotel.dfy applies them.
 *
 * process_booking and process_request compare the raw account type with
 * "admin" and "nhan_vien" (no strip, no lower), so they take `kind`.
 */
module Transitions {
  import opened Models

  // ------------------------------------------------ booking status machine

  datatype BookingCommand = Confirm | CheckIn | CheckOut | CancelBooking | UnknownCommand

  datatype BookingRefusal =
    | NoSuchBooking
    | NotPermitted
    | NotPending
    | NotConfirmed
    | NotCheckedIn
    | AlreadyCheckedOut
    | InvalidAction

  /** The outcome of one operator action on a booking: refused, or a move
      to a new status with an optional new room status and whether the
      booking is settled (an invoice is made unless one exists). */
  datatype BookingStep =
    | Refused(reason: BookingRefusal)
    | Moved(to: BookingStatus, roomStatus: Option<RoomStatus>, settles: bool)

  /** process_booking for an account of type `kind` on a booking in status
      `from`. Staff may only confirm, and only a pending booking; confirm
      has no other guard; check-in, check-out and cancel are for "admin". */
  function Process(kind: string, cmd: BookingCommand, from: BookingStatus): (r: BookingStep)
    ensures kind == "nhan_vien" ==> (r.Moved? <==> cmd == Confirm && from == Pending)
    ensures cmd == Confirm ==> (r.Moved? <==> kind != "nhan_vien" || from == Pending)
    ensures cmd == CheckIn ==> (r.Moved? <==> kind == "admin" && from == Confirmed)
    ensures cmd == CheckOut ==> (r.Moved? <==> kind == "admin" && from == CheckedIn)
    ensures cmd == CancelBooking ==> (r.Moved? <==> kind == "admin" && from != CheckedOut)
    ensures cmd == UnknownCommand ==> r.Refused?
    ensures r.Moved? && cmd == Confirm ==> r == Moved(Confirmed, None, false)
    ensures r.Moved? && cmd == CheckIn ==> r == Moved(CheckedIn, Some(Occupied), false)
    ensures r.Moved? && cmd == CheckOut ==> r == Moved(CheckedOut, Some(Available), true)
    ensures r.Moved? && cmd == CancelBooking ==> r == Moved(Cancelled, None, false)
    ensures r.Refused? ==> r.reason != NoSuchBooking
  {
    if kind == "nhan_vien" && cmd != Confirm then Refused(NotPermitted)
    else if kind == "nhan_vien" && from != Pending then Refused(NotPending)
    else if cmd == Confirm then Moved(Confirmed, None, false)
    else if kind == "admin" then
      match cmd
      case CheckIn =>
        if from != Confirmed then Refused(NotConfirmed) else Moved(CheckedIn, Some(Occupied), false)
      case CheckOut =>
        if from != CheckedIn then Refused(NotCheckedIn) else Moved(CheckedOut, Some(Available), true)
      case CancelBooking =>
        if from == CheckedOut then Refused(AlreadyCheckedOut) else Moved(Cancelled, None, false)
      case _ => Refused(InvalidAction)
    else Refused(NotPermitted)
  }

  /** Only check-out settles, and a settled booking cannot be checked out
      again before an admin confirms and checks it in anew. */
  lemma {:induction false} SettleOnlyAtCheckout(kind: string, cmd: BookingCommand, from: BookingStatus)
    requires Process(kind, cmd, from).Moved?
    ensures Process(kind, cmd, from).settles <==> cmd == CheckOut
    ensures Process(kind, cmd, from).settles ==> Process(kind, CheckOut, Process(kind, cmd, from).to).Refused?
  {
    var r := Process(kind, cmd, from);
    if r.settles {
      assert r == Moved(CheckedOut, Some(Available), true);
    }
  }

  /** The one way back from checked-out: confirm, which only an "admin"
      (or an unrecognised spelling of a back-office type) can apply there. */
  lemma LeavingCheckedOut(kind: string, cmd: BookingCommand)
    ensures Process(kind, cmd, CheckedOut).Moved? <==> cmd == Confirm && kind != "nhan_vien"
  {
  }

  // ------------------------------------------- booking_detail add/cancel

  datatype DetailCommand =
    | AddService(serviceId: Input<int>, day: Input<int>, time: Input<int>, quantity: Input<int>, note: string)
    | CancelPending
    | NoDetailAction

  datatype AddServiceError =
    | FieldsMissing     // one of service, date, time, quantity empty
    | UnknownService    // DichVu.DoesNotExist
    | InvalidData       // ValueError: a field does not parse
    | OutsideStay       // usage date outside [check-in, check-out]
    | RejectedLine      // full_clean or the insert: quantity out of range, or negative total

  /** The add_service branch for booking `bookingId`, in the order the view
      checks. The service need not be active; the usage date may be the
      check-out day. `quantityLimit` is the largest quantity the database
      column accepts (2147483647 on PostgreSQL and Oracle, 4294967295 on
      MySQL and MariaDB, 2^63 - 1 on SQLite); a
      larger one fails full_clean or the insert, and the view's handler adds
      no line. */
  function CheckAddService(b: Booking, bookingId: nat, services: map<int, Service>, serviceId: Input<int>,
                           day: Input<int>, time: Input<int>, quantity: Input<int>, note: string,
                           quantityLimit: int)
    : (r: Result<ServiceLine, AddServiceError>)
    ensures serviceId.Absent? || day.Absent? || time.Absent? || quantity.Absent? ==> r == Failure(FieldsMissing)
    ensures r.Success? <==>
      && serviceId.Given? && day.Given? && time.Given? && quantity.Given?
      && serviceId.value in services
      && b.checkIn <= day.value <= b.checkOut
      && 0 <= quantity.value <= quantityLimit && services[serviceId.value].fee * quantity.value >= 0
    ensures r.Success? ==>
      && r.value.booking == bookingId && r.value.service == serviceId.value
      && r.value.usageDate == day.value && r.value.usageTime == time.value
      && r.value.quantity == quantity.value && r.value.note == note
      && r.value.total == services[serviceId.value].fee * quantity.value
    ensures (serviceId.Given? && day.Given? && time.Given? && quantity.Given? && serviceId.value in services
             && !(b.checkIn <= day.value <= b.checkOut)) ==> r == Failure(OutsideStay)
    ensures (serviceId.Given? && day.Given? && time.Given? && quantity.Given? && serviceId.value in services
             && b.checkIn <= day.value <= b.checkOut
             && !(0 <= quantity.value <= quantityLimit)) ==> r == Failure(RejectedLine)
  {
    if serviceId.Absent? || day.Absent? || time.Absent? || quantity.Absent? then Failure(FieldsMissing)
    else if serviceId.Malformed? then Failure(InvalidData)
    else if serviceId.value !in services then Failure(UnknownService)
    else if quantity.Malformed? || day.Malformed? || time.Malformed? then Failure(InvalidData)
    else if !(b.checkIn <= day.value <= b.checkOut) then Failure(OutsideStay)
    else
      var fee := services[serviceId.value].fee;
      if quantity.value < 0 || quantity.value > quantityLimit || fee * quantity.value < 0 then Failure(RejectedLine)
      else Success(ServiceLine(bookingId, serviceId.value, day.value, time.value, quantity.value,
                               fee * quantity.value, note))
  }

  /** The customer-side cancel: only a pending booking becomes cancelled;
      any other status is left as it is. */
  function CustomerCancel(s: BookingStatus): (t: BookingStatus)
    ensures t == Cancelled <==> s == Pending || s == Cancelled
    ensures s != Pending ==> t == s
  {
    if s == Pending then Cancelled else s
  }

  // -------------------------------------------- service-request triage

  datatype TriageCommand = Assign | StartWork | Complete | Withdraw | NoteOnly

  datatype TriageRefusal =
    | OthersRequest     // staff acting on a request assigned to someone else
    | AdminOnly
    | NoStaffChosen
    | BadStaffId        // the staff id does not parse (server error)
    | UnknownStaff      // 404 on the staff id

  /** A staff member (by raw type) holding a profile may not touch a request
      assigned to another staff member. */
  predicate StaffBarred(q: ServiceRequest, kind: string, profile: Option<int>)
  {
    kind == "nhan_vien" && q.assignee.Some? && profile.Some? && q.assignee != profile
  }

  /** process_request for an account of raw type `kind` whose staff profile
      (looked up only for type "nhan_vien") is `profile`. `staffIds` are the
      existing staff members. The request is written back only when its
      status, assignee or note changed; then the submitted note replaces the
      old one and the modification time is stamped. */
  function Triage(q: ServiceRequest, kind: string, profile: Option<int>, cmd: TriageCommand,
                  staffField: Input<int>, staffIds: set<int>, note: string, now: int)
    : (r: Result<ServiceRequest, TriageRefusal>)
    ensures StaffBarred(q, kind, profile) ==> r == Failure(OthersRequest)
    ensures cmd == Assign ==> (r.Success? <==>
      !StaffBarred(q, kind, profile) && kind == "admin" && staffField.Given? && staffField.value in staffIds)
    ensures cmd != Assign ==> (r.Success? <==> !StaffBarred(q, kind, profile))
    ensures r.Success? ==> var s := r.value;
      && s.note == note
      && s.customer == q.customer && s.room == q.room && s.category == q.category
      && s.content == q.content && s.createdAt == q.createdAt
      && (s != q ==> s.updatedAt == now)
    ensures r.Success? && cmd == Assign ==>
      r.value.assignee == Some(staffField.value) && r.value.status == Assigned
      && r.value.completedAt == q.completedAt
    ensures r.Success? && cmd == StartWork ==>
      && r.value.status == InProgress && r.value.completedAt == q.completedAt
      && r.value.assignee ==
         (if q.status != InProgress && kind == "nhan_vien" && q.assignee.None? && profile.Some?
          then profile else q.assignee)
    ensures r.Success? && cmd == Complete ==>
      && r.value.status == Resolved && r.value.assignee == q.assignee
      && r.value.completedAt == (if q.status != Resolved then Some(now) else q.completedAt)
    ensures r.Success? && cmd == Withdraw ==>
      r.value.status == Withdrawn && r.value.assignee == q.assignee && r.value.completedAt == q.completedAt
    ensures r.Success? && cmd == NoteOnly ==>
      r.value.status == q.status && r.value.assignee == q.assignee && r.value.completedAt == q.completedAt
    ensures (r.Success? && r.value.status == q.status && r.value.assignee == q.assignee
             && r.value.completedAt == q.completedAt && note == q.note) ==> r.value == q
  {
    if StaffBarred(q, kind, profile) then Failure(OthersRequest)
    else
      var noteChanged := q.note != note;
      match cmd
      case Assign =>
        if kind != "admin" then Failure(AdminOnly)
        else if staffField.Absent? then Failure(NoStaffChosen)
        else if staffField.Malformed? then Failure(BadStaffId)
        else if staffField.value !in staffIds then Failure(UnknownStaff)
        else
          var changed := q.assignee != Some(staffField.value) || q.status != Assigned;
          var moved := q.(assignee := Some(staffField.value), status := Assigned);
          Success(if changed || noteChanged then moved.(note := note, updatedAt := now) else moved)
      case StartWork =>
        var changed := q.status != InProgress;
        var claim := if kind == "nhan_vien" && q.assignee.None? && profile.Some? then profile else q.assignee;
        var moved := if changed then q.(status := InProgress, assignee := claim) else q;
        Success(if changed || noteChanged then moved.(note := note, updatedAt := now) else moved)
      case Complete =>
        var changed := q.status != Resolved;
        var moved := if changed then q.(status := Resolved, completedAt := Some(now)) else q;
        Success(if changed || noteChanged then moved.(note := note, updatedAt := now) else moved)
      case Withdraw =>
        var changed := q.status != Withdrawn;
        var moved := if changed then q.(status := Withdrawn) else q;
        Success(if changed || noteChanged then moved.(note := note, updatedAt := now) else moved)
      case NoteOnly =>
        Success(if noteChanged then q.(note := note, updatedAt := now) else q)
  }

  /** The "not your request" refusal happens exactly when an account typed
      exactly "nhan_vien" with a staff profile acts on a request assigned to
      another staff member, whatever the action. */
  lemma OthersRequestRefusal(q: ServiceRequest, kind: string, profile: Option<int>, cmd: TriageCommand,
                             staffField: Input<int>, staffIds: set<int>, note: string, now: int)
    ensures Triage(q, kind, profile, cmd, staffField, staffIds, note, now) == Failure(OthersRequest) <==>
      kind == "nhan_vien" && q.assignee.Some? && profile.Some? && q.assignee.value != profile.value
  {
  }

  /** Who can change a request's assignee: an "admin" assigning, or a staff
      member claiming an unassigned request for their own profile. */
  lemma {:induction false} AssigneeChanges(q: ServiceRequest, kind: string, profile: Option<int>, cmd: TriageCommand,
                                           staffField: Input<int>, staffIds: set<int>, note: string, now: int)
    requires Triage(q, kind, profile, cmd, staffField, staffIds, note, now).Success?
    requires Triage(q, kind, profile, cmd, staffField, staffIds, note, now).value.assignee != q.assignee
    ensures
      || (cmd == Assign && kind == "admin" && staffField.Given? && staffField.value in staffIds)
      || (cmd == StartWork && kind == "nhan_vien" && q.assignee.None? && profile.Some?
          && Triage(q, kind, profile, cmd, staffField, staffIds, note, now).value.assignee == profile)
  {
    var s := Triage(q, kind, profile, cmd, staffField, staffIds, note, now).value;
    match cmd
    case Assign =>
    case StartWork =>
      assert s.assignee == profile;
    case Complete =>
    case Withdraw =>
    case NoteOnly =>
  }

  /** The request statuses that carry their own evidence: a resolved request
      has a completion time and an assigned one has an assignee. */
  predicate WellStamped(q: ServiceRequest)
  {
    (q.status == Resolved ==> q.completedAt.Some?) && (q.status == Assigned ==> q.assignee.Some?)
  }

  /** Triage keeps requests well stamped, and a new request is. */
  lemma {:induction false} TriageKeepsStamps(q: ServiceRequest, kind: string, profile: Option<int>, cmd: TriageCommand,
                                             staffField: Input<int>, staffIds: set<int>, note: string, now: int)
    requires WellStamped(q)
    requires Triage(q, kind, profile, cmd, staffField, staffIds, note, now).Success?
    ensures WellStamped(Triage(q, kind, profile, cmd, staffField, staffIds, note, now).value)
  {
    var s := Triage(q, kind, profile, cmd, staffField, staffIds, note, now).value;
    match cmd
    case Assign =>
    case StartWork =>
    case Complete =>
    case Withdraw =>
    case NoteOnly =>
  }
}
