# Hotel booking core, modelled in Dafny

A model of the booking core of a Django hotel application (`core/views.py`
and `core/models.py`). It covers the following parts of the application:

- **Two-step reservation.** A guest first stages a stay (the dates, the guest
  count and the chosen services) in the browser session. The guest then
  commits it. The commit re-checks the stay against the confirmed and
  checked-in bookings of the room. It inserts a pending booking and one
  service line per staged active service, all at once.
- **Operator actions on bookings** (`process_booking`). Operators confirm,
  check in, check out and cancel bookings. Check-in marks the room occupied
  and check-out marks it available; confirm and cancel leave the room as it
  is, so an admin cancel of a checked-in booking leaves the room occupied.
  Check-out creates the invoice: one per booking, totalling the room price
  and the service lines.
- **The booking page** (`booking_detail`). Here the booking's customer or an
  account typed exactly `admin` or `nhan_vien` adds a service line or
  cancels; a cancel changes only a pending booking.
- **Service-request triage** (`process_request`): assign, start, complete,
  withdraw, or change the note.
- **The monthly shift calendar** (`admin_schedule_management`). This is the
  week grid of the month shown, and the insertion of a shift entry. Each
  (staff, date, shift) may hold only one entry.
- **The role predicates and the operator gate.** The gate (stripped,
  lower-cased type `admin` or `nhan_vien`) guards the back-office views
  modelled here: `process_booking`, `process_request` and
  `admin_schedule_management`. `booking_detail` has its own gate, which also
  lets customers in (`Hotel.DetailGate`). The reservation POST
  (`RoomDetailView.post`) has no role gate. Its staging step checks neither
  sign-in nor profile; only its commit step needs a signed-in account with a
  customer profile (`Availability.CheckCommit`). An account type passes a comparison exactly when
  it is the compared word in any letter case, padded with whitespace
  (`Roles.NormalizedMatches`).

The model is in six modules:

- `Models` (`models.dfy`) holds the records, enumerations and field defaults.
- `Roles` (`roles.dfy`) holds the role predicates. The account type is
  compared after `strip()` and `lower()`.
- `Availability` (`availability.dfy`) holds the reservation checks: the
  overlap rule, step 1 and step 2, and the lines a commit adds.
- `Transitions` (`transitions.dfy`) holds the booking status machine, the
  add-service and cancel decisions, and the triage machine, all as pure
  functions.
- `Calendar` (`calendar.dfy`) holds the proleptic Gregorian calendar of
  Python's `date`, the month shown and the loop that builds the week grid.
- `Hotel` (`hotel.dfy`) holds the database as a class `Store`, and the
  browser session as a class `Session`. The `Store` methods change the tables
  in place, in the order the views do. Each method is proved against the pure
  decision functions above. Each keeps the store invariant `Valid()`:
  - money is never negative;
  - every booking has a known room and a stay of at least one night;
  - every service line falls inside its booking's stay;
  - each booking has at most one invoice;
  - each staff slot has at most one schedule entry;
  - every resolved request has a completion time, and every assigned request
    has an assignee.

Rooms, services and requests are maps from their ids, and staff is the set
of staff ids. The tables the core inserts into are sequences in insertion order, and a booking's id is its
position. Money is an integer, dates are day numbers and timestamps are
integer instants. "Today", the clock and the current time are parameters.

The model follows the code, not the intended workflow:

- Confirm has no guard on the booking's current status for anyone except
  staff. An account whose type passes the normalised gate but is neither
  exactly `"admin"` nor `"nhan_vien"` can still confirm any booking
  (`Roles.PaddedKindPassesGate`).
- An admin may cancel a booking in any status except checked-out.
- Completing or withdrawing a request has no guard on its status.
- In the schedule view, a `year` or `month` beyond a C int makes `date()`
  raise `OverflowError`, which the view does not catch. The model shows no
  month and builds no grid then (`Calendar.ShownMonth`,
  `Calendar.ScheduleWeeks`).
- The overlap check at commit ignores pending bookings, and confirm never
  looks at other bookings. So two overlapping stays of one room can both
  become active (`Hotel.OverlapIsReachable`). A commit alone never creates an
  overlap (`Hotel.CommitKeepsDisjoint`).

## Model

| member | source | states |
|---|---|---|
| Models.NewRoom | core/models.py:30-31 | A new room is available and has capacity 2. Its name, rate and type are the ones given. |
| Models.GuestRange | core/models.py:37-39 | The guest range has length equal to the capacity. It is 1, 2, …, capacity in order. A count is in it exactly when 1 ≤ count ≤ capacity. |
| Models.NewService | core/models.py:56 | A new service is active. |
| Models.NewBooking | core/models.py:143-147 | A new booking is pending and unpaid. It has one guest and an empty note. |
| Models.NewRequest | core/models.py:187-196 | A new request is unassigned, with no assignee and no completion time. Its creation and update times are both "now". |
| Roles.TrimStartSpec | core/views.py:25-29 | The left half of `strip()`: the result is a suffix of the input that does not start with whitespace, and everything dropped is whitespace. |
| Roles.TrimEndSpec | core/views.py:25-29 | The right half of `strip()`: the result is a prefix that does not end with whitespace, and everything dropped is whitespace. |
| Roles.StripSpec | core/views.py:25-29 | `strip()` leaves a middle part of its input that neither starts nor ends with whitespace. |
| Roles.LowerChar | core/views.py:25-29 | One character of `lower()`: each of A to Z becomes the letter 32 code points above it (its lower-case form), the Kelvin sign becomes `k`, every other character is kept, and no such capital is left. |
| Roles.LowerSpec | core/views.py:25-29 | `lower()` keeps the length and maps each character on its own. |
| Roles.LowerFixes | core/views.py:25-29 | `lower()` leaves a string unchanged when it has no capital that lowers to a single ASCII letter (A to Z and the Kelvin sign). |
| Roles.StripFixes | core/views.py:25-29 | `strip()` leaves a string with no surrounding whitespace unchanged. |
| Roles.NormalizedFixes | core/views.py:25-43 | An account type that is already lower-case and trimmed compares as itself. |
| Roles.ExactKindPassesGate | core/views.py:905-906 | An account typed exactly `admin` or `nhan_vien` passes the operator gate. |
| Roles.ExactKindIsCustomer | core/views.py:39-43 | An account typed exactly `khach_hang` that has a customer profile is a customer. |
| Roles.RolesDisjoint | core/views.py:25-47 | Staff are never customers. Admin and staff together only through the superuser flag. An anonymous user has no role and does not pass the gate. |
| Roles.GateIsAdminOrStaff | core/views.py:906 | The gate admits only admins or staff. It admits every one of them, except a superuser whose own type is neither. |
| Roles.PaddedKindPassesGate | core/views.py:906-933 | A type of `" Admin"` passes the gate and `is_admin`. Yet it differs from both raw spellings that `process_booking` compares with. |
| Roles.SeparatorPaddedKindPassesGate | core/views.py:25-29 | The information separators 0x1C to 0x1F count as whitespace for `strip()`: a type of `"\x1cadmin"` passes the gate and `is_admin`. |
| Roles.LowerHead | core/views.py:39-43 | `lower()` of a string whose only capital is its first character lowers that character alone. |
| Roles.KelvinKindIsCustomer | core/views.py:39-43 | `lower()` maps the Kelvin sign to `k`, so a type spelled with it in place of the first letter of `khach_hang` is a customer. |
| Roles.TrimStartPadded | core/views.py:25-29 | The left half of `strip()` drops exactly a whitespace prefix followed by a non-whitespace character or the end. |
| Roles.TrimEndPadded | core/views.py:25-29 | The right half of `strip()` drops exactly a whitespace suffix that follows a non-whitespace character or the start. |
| Roles.NormalizedMatches | core/views.py:25-43 | A type equals a word after `strip()` and `lower()` exactly when it is that word in any letter case, with whitespace on either side. |
| Roles.MatchedWord | core/views.py:25-43 | The backward half: a type padded with whitespace around a case variant of the word normalises to the word. |
| Roles.AdminMeans | core/views.py:25-29 | `is_admin` holds exactly for an authenticated superuser, or an authenticated account typed `admin` in any case and padding. |
| Roles.StaffMeans | core/views.py:32-36 | `is_staff` holds exactly for an authenticated account typed `nhan_vien` in any case and padding. |
| Roles.CustomerMeans | core/views.py:39-43 | `is_customer` holds exactly for an authenticated account typed `khach_hang` in any case and padding that has a customer profile. |
| Roles.AdminOrStaffMeans | core/views.py:46-47 | `is_admin_or_staff` holds exactly for an authenticated superuser, or an authenticated account whose type matches `admin` or `nhan_vien`. |
| Roles.GateMeans | core/views.py:906 | The operator gate admits exactly the authenticated accounts whose type matches `admin` or `nhan_vien`. The superuser flag plays no part. |
| Availability.CheckStage | core/views.py:167-183 | Step 1 accepts exactly two given dates with today ≤ check-in < check-out. A missing date, a check-in in the past, and a check-out not after check-in each give their own error, in the view's order. A malformed check-in, or a malformed check-out after a valid check-in not in the past, gives the bad-date error. |
| Availability.AnyBlocking | core/views.py:247-252 | The conflict query is true exactly when some booking holds the room for part of the stay. Holding means confirmed or checked in, with an overlapping half-open stay. |
| Availability.NonBlockingMeans | core/views.py:247-252 | A booking does not block exactly when one of these holds: another room, not active, or a disjoint stay. Pending, checked-out and cancelled bookings never block. |
| Availability.BlocksSharesNight | core/views.py:247-252 | For stays of at least one night, a booking blocks a stay exactly when it is a confirmed or checked-in booking of the same room that shares a night with the stay. |
| Availability.BlocksSymmetric | core/views.py:247-252 | Two active bookings of one room block each other, or neither does. |
| Availability.CheckCommit | core/views.py:211-259 | The conditions under which step 2 succeeds, and those under which it reports a conflict. On success: the nights, the price (rate × nights), the guest count within capacity, and the staged services. |
| Availability.PlannedBooking | core/views.py:262-270 | The inserted booking is pending and unpaid, for the planned room, dates, guests, price and customer. |
| Availability.CommitAvoidsActiveStays | core/views.py:247-255 | After a successful check, the new stay is disjoint from every confirmed or checked-in stay of the room. |
| Availability.StagedLine | core/views.py:280-287 | A staged line has quantity 1 and is dated the check-in day. Its total is the service fee. |
| Availability.Selected | core/views.py:276-287 | The selected ids are no more than the staged ids. A service is among them exactly when some staged number names it and it is active. |
| Availability.SelectedCounts | core/views.py:276-287 | An active service is selected once per staged number naming it, repeats included. Any other service is never selected. |
| Availability.StagedLines | core/views.py:272-291 | The commit loop aborts exactly when some id has the wrong type. How many lines it yields, and in what order, is stated by `StagedLinesInOrder` and `StagedLinesCount`. |
| Availability.StagedLinesInOrder | core/views.py:276-287 | The lines come in the order of the staged ids: the i-th line is the line of the i-th selected service. |
| Availability.StagedLinesCount | core/views.py:276-287 | An active service gets exactly one line per staged number naming it. Any other service gets none. |
| Availability.AbortPersists | core/views.py:276-291 | Once a prefix of the ids aborts the loop, the whole loop aborts. |
| Availability.StagedLinesNext | core/views.py:276-291 | One more id either aborts the whole loop or extends the lines of the ids before it by its own line, if it has one. |
| Transitions.Process | core/views.py:911-998 | For each action: when it is accepted, in terms of the raw account type and the current status, and the target status and room status. Staff may only confirm pending bookings. |
| Transitions.SettleOnlyAtCheckout | core/views.py:950-978 | Only check-out creates an invoice. A booking just checked out cannot be checked out again at once. |
| Transitions.LeavingCheckedOut | core/views.py:916-998 | A checked-out booking can leave that status only by confirm, and not by staff. |
| Transitions.CheckAddService | core/views.py:1353-1395 | Adding a service succeeds exactly when all fields are given, the service exists, the date is inside the stay (both ends included), the quantity is between 0 and the column's limit, and the total is non-negative. A given quantity outside that range is rejected. The line's total is fee × quantity. |
| Transitions.CustomerCancel | core/views.py:1397-1401 | Only a pending booking becomes cancelled. Any other status is kept. |
| Transitions.Triage | core/views.py:1177-1240 | When the triage succeeds, for each action and account. The new status, assignee and completion time. The note is replaced. The update time is stamped whenever the record changes. A request whose status, assignee, completion time and note all stay the same comes back exactly as it was. |
| Transitions.OthersRequestRefusal | core/views.py:1177-1179 | The "not your request" refusal happens exactly when an account typed exactly `nhan_vien` with a staff profile acts on a request assigned to another staff member. |
| Transitions.AssigneeChanges | core/views.py:1190-1211 | Only two things change the assignee: an admin assignment to an existing staff member, or a staff member claiming an unassigned request for themself. |
| Transitions.TriageKeepsStamps | core/views.py:1197-1217 | Triage keeps every resolved request with a completion time and every assigned request with an assignee. |
| Calendar.DaysInMonth | core/views.py:1030 | Months have 28 to 31 days. February has 29 days exactly in leap years. |
| Calendar.DaysBeforeMonth | core/views.py:1030 | The days before December: 335 in a leap year, 334 otherwise. |
| Calendar.Weekday | core/views.py:1035 | `date.weekday()` is between 0 and 6. |
| Calendar.YearLength | core/views.py:1030 | A year has 366 days if it is a leap year and 365 otherwise. |
| Calendar.NextMonthFollows | core/views.py:1027-1030 | The first of the next month is the day after the last day of this month. This is how the view finds the last day. |
| Calendar.WeekdayOfDay | core/views.py:1035-1045 | Day d falls on weekday (weekday of the 1st + d − 1) mod 7. |
| Calendar.WeekdayAnchors | core/views.py:1035 | 1 January of year 1 is a Monday, and 15 October 2026 is a Thursday, as `date.weekday()` gives. |
| Calendar.NextMonth | core/views.py:1027 | The next month is a valid month whose month index (12 × year + month) is one more than this month's. That its first day follows this month's last day is `NextMonthFollows`. |
| Calendar.PrevMonth | core/views.py:1026 | The previous month is a valid month whose month index is one less than this month's, and the month after it is this one. |
| Calendar.ShownMonth | core/views.py:1014-1024 | A field that does not parse shows today's month. A year or month beyond a C int makes the view fail (no month). Otherwise an absent field takes today's value; a valid pair is shown as given, and an out-of-range pair falls back to today's month. A shown month lies in years 1 to 9999. |
| Calendar.Trailing | core/views.py:1047-1048 | The trailing padding is under 7 and completes a whole number of weeks. |
| Calendar.BuildWeeks | core/views.py:1032-1048 | The loop yields whole weeks of 7 slots. Read in order: `start` blanks, the days 1..last, then blanks to the week's end. |
| Calendar.CloseLastWeek | core/views.py:1047-1048 | Padding the last, partly filled week completes the grid. |
| Calendar.PadFillsLastWeek | core/views.py:1047-1048 | The blanks that close the last week are the month's trailing blanks. |
| Calendar.GridWeekCount | core/views.py:1032-1048 | A month's grid has 4 to 6 weeks. |
| Calendar.GridDaySlot | core/views.py:1035-1048 | Day d sits in week (start + d − 1) / 7, slot (start + d − 1) mod 7. |
| Calendar.MonthFailsExamples | core/views.py:1019-1027 | The schedule view fails (OverflowError, not caught) for a year of 3000000000 and for the shown months 0001-01 and 9999-12, and not for 2026-10. |
| Calendar.ScheduleWeeks | core/views.py:1014-1048 | A grid exists exactly when the month shown exists (no C int overflow) and both its neighbouring months exist. The grid starts on the weekday of the 1st and has as many days as the month. |
| Calendar.DayInItsColumn | core/views.py:1035-1048 | Every day sits in the column of its own weekday. |
| Hotel.LinesTotal | core/views.py:965-966 | The sum of a booking's line totals. It is 0 when the booking has no lines, and non-negative when every total is. |
| Hotel.LinesTotalAppend | core/views.py:965-966 | Adding a line changes only its own booking's sum, by the line's total. |
| Hotel.Settle | core/views.py:969-974 | Afterwards the booking has an invoice. An existing invoice is kept. Otherwise one unpaid invoice is appended for the total. |
| Hotel.SettleIdempotent | core/views.py:969-977 | Settling twice is settling once, whatever the second total. |
| Hotel.SettleKeepsOneToOne | core/models.py:205 | Settling keeps invoices one-to-one with bookings. |
| Hotel.SettleKeepsTables | core/models.py:205-207 | Settling with a non-negative total keeps money non-negative and invoices one-to-one. |
| Hotel.AppendBookingKeepsTables | core/views.py:262-270 | Inserting a well-formed booking keeps every table consistent. |
| Hotel.RestatusKeepsTables | core/views.py:926-989 | Changing a booking's status and note keeps every table consistent. |
| Hotel.RoomStatusKeepsTables | core/views.py:940-958 | Changing a room's status keeps every table consistent. |
| Hotel.AppendEntryKeepsUnique | core/models.py:122-123 | An entry for a free (staff, date, shift) slot keeps the schedule unique. |
| Hotel.ApplyTriage | core/views.py:1186-1235 | The view's step-by-step field updates compute exactly `Transitions.Triage`. |
| Hotel.DetailGateMeans | core/views.py:1330 | The booking page admits exactly an authenticated account typed `admin` or `nhan_vien` in any case and padding, or a customer. Unlike `is_admin`, the superuser flag alone does not pass. |
| Hotel.Store.constructor | core/models.py:23-31 | A store of given rooms, services, staff and requests, with empty bookings, lines, invoices and schedules, satisfies the invariant. |
| Hotel.Store.SaveLine | core/models.py:163-165 | The stored line's total is fee × quantity, whatever total it carried. Nothing else changes, and the invariant holds. |
| Hotel.Store.Post | core/views.py:159-312 | An unknown room gives 404 and an unknown step gives an error. Both leave store and session alone. Step 1 never touches the tables. |
| Hotel.Store.Stage | core/views.py:167-209 | A step-1 refusal keeps the session. A success stages exactly the checked dates, guests, room and time, and the decoded service list, or an empty list when the JSON is not a list. |
| Hotel.Store.Commit | core/views.py:211-309 | On success: the booking id, the pending booking appended, exactly the staged lines appended, and the session cleared. A refusal, or an aborting id, leaves tables and session as they were. The invariant holds. |
| Hotel.Store.InsertBooking | core/views.py:262-270 | Appends the booking and keeps the invariant. |
| Hotel.Store.SaveStagedLines | core/views.py:272-291 | The loop succeeds exactly when the staged lines exist. It then appends exactly those lines, in order, and keeps the invariant. |
| Hotel.Store.SaveStagedId | core/views.py:276-291 | One pass of the loop: it reports false exactly for an id of the wrong type, and otherwise appends that id's line, if it has one. The invariant holds. |
| Hotel.Store.ProcessBooking | core/views.py:907-1000 | The gate, then 404, then `Transitions.Process`. On acceptance, the booking's status and note change, and the room status changes too when the action sets one. At check-out the invoices become `Settle` of the room price plus the line sum. A refusal changes nothing. |
| Hotel.Store.ApplyMove | core/views.py:926-989 | Records an accepted action: the status, note and room status, and the invoice at check-out. |
| Hotel.Store.SetStatus | core/views.py:939-962 | The new booking status and note, and the room's new status when there is one. |
| Hotel.Store.IssueInvoice | core/views.py:964-974 | The invoices become `Settle` of the room price plus the booking's line sum. Nothing else changes. |
| Hotel.Store.BookingDetail | core/views.py:1329-1401 | The gate, 404 and owner checks. Adding a service appends exactly the checked line, with the quantity bounded by the database column's limit. A cancel applies `CustomerCancel`. Otherwise nothing changes. |
| Hotel.Store.ProcessRequest | core/views.py:1166-1240 | The gate, 404, then the profile lookup for type `nhan_vien`: several profiles for the account give a server error and change nothing; one profile is the caller's, none means no profile. Then `Transitions.Triage`. The request is rewritten with the triage result, and the reply says whether it changed. A refusal changes nothing. |
| Hotel.Store.AddSchedule | core/views.py:1012-1091 | An entry is added exactly when the month code does not fail (`Calendar.MonthFails`: a year or month beyond a C int, or a shown month of 0001-01 or 9999-12, gives a server error) and an `admin` names an existing staff member for a free slot. An account of type `nhan_vien` with several staff profiles gets a server error from the profile lookup. A taken slot is reported as a duplicate. The invariant of one entry per slot holds. |
| Hotel.OverlapIsReachable | core/views.py:247-252 | An example: a commit passes over a pending booking for the same nights, and confirming both leaves overlapping active stays. |
| Hotel.CommitKeepsDisjoint | core/views.py:247-270 | Appending a pending booking keeps active stays disjoint if they were. |

## Left out

- Money is a Python float in the source. Here it is an unbounded integer, so
  rounding and float formatting are not modelled.
- Date parsing (`strptime`) and the JSON decoding of the staged services are
  taken as already done. A field is absent, malformed or given. In the
  schedule view, an empty `year` or `month` field counts as malformed.
- Sessions, the ORM, `transaction.atomic` and concurrent requests are not
  modelled. A commit is one atomic method. Two commits racing for the same
  room cannot be expressed.
- `strip()` removes exactly the characters for which Python's `str.isspace()`
  holds. `lower()` maps A to Z and the Kelvin sign, the characters that lower
  to a single ASCII letter. Other non-ASCII capitals are kept as they are: Python
  lowers them too, but never to a result made of ASCII characters only, so no
  role comparison can tell the difference.
- Hotel.Store.AddSchedule: the schedule form's validation is reduced to "the
  staff member exists". The form's own unique-together check, which may
  report the duplicate before the view does, is not distinguished.
- The database backend is not part of the source, so the largest service-line
  quantity (`quantityLimit` of `Transitions.CheckAddService` and
  `Hotel.Store.BookingDetail`) is a parameter: 2147483647 on PostgreSQL and
  Oracle, 4294967295 on MySQL and MariaDB (an unsigned column), 2^63 − 1 on
  SQLite.
- Deleting staff is not part of this model. In the source a request's
  assignee is set to null when its staff member is deleted (`on_delete=SET_NULL`),
  which would leave an assigned request with no assignee; the store invariant
  that every assigned request has an assignee holds only because staff are
  never deleted here.
- The staff-profile lookups are modelled as none, one or several profiles
  (`Hotel.ProfileLookup`), given as a parameter. The schedule view's listing
  of a staff member's own shifts is not modelled, only its lookup's failure.
  Its month code is modelled by `Calendar.MonthFails`, which makes
  `Hotel.Store.AddSchedule` fail before the form on an overflowing month.
- Hotel.Store.Post: states the 404, the unknown-step reply and the frame. What
  steps 1 and 2 do is stated on `Stage` and `Commit`, which it calls.
- The room, customer, staff and service screens (create, edit, delete), the
  dashboards, search and list views, and the other customer views are not
  part of this model. Rooms, services, staff and requests are given to the
  store's constructor.
- Currency formatting, messages, logging, redirects and template rendering are
  left out.
- The commit's "nights ≤ 0" refusal is not modelled as a separate error,
  because it cannot fire after the date checks.
- The `gia_ddp is None` fallback at check-out is not modelled, because the
  price is never missing here.
- The invoice total is fixed at check-out. Lines added later are not carried
  into it, as in the source.
- No invariant says that active stays of a room never overlap, because the
  code does not keep one (`Hotel.OverlapIsReachable`).
