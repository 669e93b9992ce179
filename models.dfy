/**
 * Records and enumerations of the hotel schema (core/models.py).
 *
 * Money is an integer amount, dates are integer day numbers and
 * timestamps integer instants; the source stores money as floats.
 */
module Models {

  datatype Option<+T> = None | Some(value: T)

  datatype Result<+T, +E> = Success(value: T) | Failure(error: E)

  /** A submitted form field: missing or empty, present but not parseable,
      or parsed to a value. */
  datatype Input<+T> = Absent | Malformed | Given(value: T)

  // ---------------------------------------------------------------- rooms

  /** Phong.LOAI_PHONG_CHOICES */
  datatype RoomType = Standard | Deluxe | Suite | Family

  /** Phong.TRANG_THAI_CHOICES: trong, da_dat, dang_su_dung, bao_tri */
  datatype RoomStatus = Available | Reserved | Occupied | Maintenance

  datatype Room = Room(
    name: string,
    rate: int,          // nightly rate (gia)
    kind: RoomType,
    status: RoomStatus,
    capacity: nat)      // suc_chua

  /** A room as created without explicit status and capacity. */
  function NewRoom(name: string, rate: int, kind: RoomType): (r: Room)
    ensures r.status == Available && r.capacity == 2
    ensures r.name == name && r.rate == rate && r.kind == kind
  {
    Room(name, rate, kind, Available, 2)
  }

  /** Phong.guest_range: the guest counts a room can be booked for. */
  function GuestRange(r: Room): (counts: seq<nat>)
    ensures |counts| == r.capacity
    ensures forall i :: 0 <= i < |counts| ==> counts[i] == i + 1
    ensures forall g :: g in counts <==> 1 <= g <= r.capacity
  {
    var counts := seq(r.capacity, i => i + 1);
    assert forall g :: 1 <= g <= r.capacity ==> g in counts by {
      forall g | 1 <= g <= r.capacity ensures g in counts {
        assert counts[g - 1] == g;
      }
    }
    counts
  }

  // ------------------------------------------------------------- services

  datatype Service = Service(name: string, fee: int, active: bool)

  /** A service as created without an explicit active flag. */
  function NewService(name: string, fee: int): (s: Service)
    ensures s.active && s.name == name && s.fee == fee
  {
    Service(name, fee, true)
  }

  // ------------------------------------------------------------- bookings

  /** DonDatPhong.TRANG_THAI_CHOICES: cho_xac_nhan, da_xac_nhan, da_checkin,
      da_checkout, da_huy */
  datatype BookingStatus = Pending | Confirmed | CheckedIn | CheckedOut | Cancelled

  /** The two statuses the availability check treats as holding the room. */
  predicate IsActive(s: BookingStatus)
  {
    s == Confirmed || s == CheckedIn
  }

  datatype Booking = Booking(
    customer: int,
    room: int,
    checkIn: int,       // ngay_nhan
    checkOut: int,      // ngay_tra
    guests: int,        // so_luong_nguoi
    price: int,         // gia_ddp
    status: BookingStatus,
    note: string,
    paid: bool,
    createdAt: int)

  /** A booking as created without explicit guest count, status, note and
      payment flag. */
  function NewBooking(customer: int, room: int, checkIn: int, checkOut: int, price: int, createdAt: int): (b: Booking)
    ensures b.status == Pending && !b.paid && b.guests == 1 && b.note == ""
    ensures b.customer == customer && b.room == room && b.price == price && b.createdAt == createdAt
    ensures b.checkIn == checkIn && b.checkOut == checkOut
  {
    Booking(customer, room, checkIn, checkOut, 1, price, Pending, "", false, createdAt)
  }

  /** A booked-service line (DonDatDichVu); `booking` is the booking's id. */
  datatype ServiceLine = ServiceLine(
    booking: nat,
    service: int,
    usageDate: int,
    usageTime: int,
    quantity: int,
    total: int,         // thanh_tien
    note: string)

  // ------------------------------------------------------ service requests

  /** YeuCau.LOAI_YC_CHOICES */
  datatype RequestCategory = Housekeeping | Technical | RoomService | FrontDesk | OtherCategory

  /** YeuCau.TINH_TRANG_CHOICES: cho_phan_cong, da_phan_cong, dang_xu_ly,
      da_xu_ly, da_huy */
  datatype RequestStatus = Unassigned | Assigned | InProgress | Resolved | Withdrawn

  datatype ServiceRequest = ServiceRequest(
    assignee: Option<int>,      // nhan_vien
    customer: int,
    room: int,
    category: RequestCategory,
    content: string,
    createdAt: int,
    updatedAt: int,
    status: RequestStatus,
    completedAt: Option<int>,   // thoi_gian_hoan_thanh
    note: string)

  /** A request as raised by a guest, with every defaulted field left out. */
  function NewRequest(customer: int, room: int, category: RequestCategory, content: string, now: int): (q: ServiceRequest)
    ensures q.status == Unassigned && q.completedAt == None && q.assignee == None
    ensures q.customer == customer && q.room == room && q.category == category && q.content == content
    ensures q.createdAt == now && q.updatedAt == now && q.note == ""
  {
    ServiceRequest(None, customer, room, category, content, now, now, Unassigned, None, "")
  }

  // ------------------------------------------------------------- invoices

  /** HoaDon; `booking` is the booking's id (a one-to-one link). */
  datatype Invoice = Invoice(
    booking: nat,
    createdAt: int,
    total: int,
    paid: bool,
    paymentMethod: string,
    note: string)

  // ------------------------------------------------------ staff schedules

  /** LichLamViec.CA_LAM_CHOICES: sang, chieu, toi */
  datatype Shift = Morning | Afternoon | Night

  datatype ScheduleEntry = ScheduleEntry(staff: int, day: int, shift: Shift, note: string)
}
