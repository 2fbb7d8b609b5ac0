/**
  The maintenance page: a month calendar whose day cells list the
  maintenances starting that day, the filter that decides which maintenances
  the calendar and the summary see, the summary counts, and the page state
  (the loaded list, loading and error flags, the create handler).
 */
module Mantenimientos {
  import opened Js
  import opened Gregorian
  import opened Interfaces
  import opened Seqs

  /** The colour families of the status chips. */
  datatype Colour = Green | Orange | Red | Blue

  /** `getStatusColor`: every status has a colour; unknown ones are blue. */
  function StatusColor(estado: string): (c: Colour)
    ensures c == Green <==> estado == Completado
    ensures c == Orange <==> estado == Pendiente
    ensures c == Red <==> estado == Cancelado
    ensures c == Blue <==> estado != Completado && estado != Pendiente && estado != Cancelado
  {
    if estado == Completado then Green
    else if estado == Pendiente then Orange
    else if estado == Cancelado then Red
    else Blue
  }

  // ---------------------------------------------------------------- calendar

  /**
    `daysInMonth(month, year)`, i.e. `new Date(year, month + 1, 0).getDate()`:
    the day of month `month` that is day 0 of the following month.
   */
  function DaysInMonthOf(month: int, year: int): (n: int)
    ensures 28 <= n <= 31
    ensures MakeDay(year, month + 1, 0) == MakeDay(year, month, n)
  {
    DayZeroOfNextMonth(year, month);
    DaysInMonth(year + month / 12, month % 12)
  }

  /** `firstDayOfMonth(month, year)`: the weekday (0 = Sunday) of the first of the month. */
  function FirstDayOfMonth(month: int, year: int): (w: int)
    ensures 0 <= w < 7
  {
    WeekDay(MakeDay(year, month, 1))
  }

  /** The grid of consecutive months lines up: a month starts where the previous one stopped. */
  lemma NextMonthStartsAfterThisOne(month: int, year: int)
    ensures FirstDayOfMonth(month + 1, year) == (FirstDayOfMonth(month, year) + DaysInMonthOf(month, year)) % 7
  {
    NextMonthWeekDay(year, month);
  }

  lemma InRangeMonth(month: int, year: int)
    requires 0 <= month < 12
    ensures DaysInMonthOf(month, year) == DaysInMonth(year, month)
  {
    DivExact(month, 12, 0, month);
  }

  /** `getMantenimientosForDay` matches year, month and day of `fechaInicio`; `fechaFin` is not read. */
  predicate StartsOn(m: Mantenimiento, year: int, month: int, day: int) {
    m.fechaInicio.date == Date(year, month, day)
  }

  predicate InMonth(m: Mantenimiento, year: int, month: int) {
    m.fechaInicio.date.year == year && m.fechaInicio.date.month == month
  }

  /** `getMantenimientosForDay(day)` for the displayed `year` and `month`. */
  function MantenimientosForDay(ms: seq<Mantenimiento>, year: int, month: int, day: int): (r: seq<Mantenimiento>)
    ensures forall i :: 0 <= i < |r| ==> r[i] in ms && StartsOn(r[i], year, month, day)
    ensures forall i :: 0 <= i < |ms| && StartsOn(ms[i], year, month, day) ==> ms[i] in r
  {
    Filter(ms, DayTest(year, month, day))
  }

  /**
    A day's bucket keeps the records in the order of the fetched list, and
    holds each record of that day as many times as the list does.
   */
  lemma ForDayKeepsOrder(ms: seq<Mantenimiento>, year: int, month: int, day: int)
    ensures SubsequenceOf(MantenimientosForDay(ms, year, month, day), ms)
    ensures forall m ::
      multiset(MantenimientosForDay(ms, year, month, day))[m] == if StartsOn(m, year, month, day) then multiset(ms)[m] else 0
  {
    FilterIsSubsequence(ms, DayTest(year, month, day));
    FilterCounts(ms, DayTest(year, month, day));
  }

  function DayTest(year: int, month: int, day: int): Mantenimiento -> bool {
    m => StartsOn(m, year, month, day)
  }

  /** The records of `ms` whose start lies in the displayed month. */
  function InMonthOf(ms: seq<Mantenimiento>, year: int, month: int): seq<Mantenimiento> {
    Filter(ms, (m: Mantenimiento) => InMonth(m, year, month))
  }

  /** One coloured entry of a day cell. */
  datatype Chip = Chip(idMantenimiento: int, colour: Colour, text: string)

  /** A calendar cell: a leading blank, or a day with its chips. */
  datatype Cell = Blank(index: nat) | Day(day: int, isToday: bool, chips: seq<Chip>)

  function ChipOf(m: Mantenimiento): Chip {
    Chip(m.idMantenimiento, StatusColor(m.estado), m.observaciones)
  }

  function Chips(ms: seq<Mantenimiento>): (cs: seq<Chip>)
    ensures |cs| == |ms|
    ensures forall i :: 0 <= i < |ms| ==> cs[i] == ChipOf(ms[i])
  {
    seq(|ms|, i requires 0 <= i < |ms| => ChipOf(ms[i]))
  }

  function DayCell(ms: seq<Mantenimiento>, month: int, year: int, today: Date, day: int): Cell {
    Day(day, today == Date(year, month, day), Chips(MantenimientosForDay(ms, year, month, day)))
  }

  /**
    The `Calendar` component: `startDay` blank cells, then one cell per day
    1..`totalDays` in order, each listing that day's maintenances; the cell of
    `today` is marked.
   */
  function Calendar(ms: seq<Mantenimiento>, month: int, year: int, today: Date): (cells: seq<Cell>)
    ensures var start, total := FirstDayOfMonth(month, year), DaysInMonthOf(month, year);
      && |cells| == start + total
      && (forall i :: 0 <= i < start ==> cells[i] == Blank(i))
      && (forall d :: 1 <= d <= total ==> cells[start + d - 1] == DayCell(ms, month, year, today, d))
  {
    var start, total := FirstDayOfMonth(month, year), DaysInMonthOf(month, year);
    var blanks := seq(start, i requires 0 <= i < start => Blank(i));
    var days := seq(total, i requires 0 <= i < total => DayCell(ms, month, year, today, i + 1));
    blanks + days
  }

  lemma ForDayCons(m: Mantenimiento, rest: seq<Mantenimiento>, year: int, month: int, day: int)
    ensures DaySize([m] + rest, year, month, day)
         == DaySize(rest, year, month, day) + (if StartsOn(m, year, month, day) then 1 else 0)
  {
    var ms := [m] + rest;
    assert ms[0] == m && ms[1..] == rest;
    assert Filter(ms, DayTest(year, month, day))
        == (if StartsOn(m, year, month, day) then [m] else []) + Filter(rest, DayTest(year, month, day));
  }

  /** Number of chips in the cells of days 1..n. */
  function BucketTotal(ms: seq<Mantenimiento>, year: int, month: int, n: nat): nat {
    if n == 0 then 0 else BucketTotal(ms, year, month, n - 1) + DaySize(ms, year, month, n)
  }

  /** Number of chips in the cell of `day`. */
  function DaySize(ms: seq<Mantenimiento>, year: int, month: int, day: int): nat {
    |MantenimientosForDay(ms, year, month, day)|
  }

  lemma {:induction false} BucketTotalEmpty(year: int, month: int, n: nat)
    ensures BucketTotal([], year, month, n) == 0
  {
    if n > 0 {
      BucketTotalEmpty(year, month, n - 1);
    }
  }

  lemma {:induction false} BucketTotalCons(m: Mantenimiento, rest: seq<Mantenimiento>, year: int, month: int, n: nat)
    ensures BucketTotal([m] + rest, year, month, n)
         == BucketTotal(rest, year, month, n) + (if InMonth(m, year, month) && 1 <= m.fechaInicio.date.day <= n then 1 else 0)
  {
    if n > 0 {
      BucketTotalCons(m, rest, year, month, n - 1);
      ForDayCons(m, rest, year, month, n);
      assert StartsOn(m, year, month, n) <==> InMonth(m, year, month) && m.fechaInicio.date.day == n;
    }
  }

  /**
    The day cells partition the displayed month: every maintenance starting
    in it is listed exactly once over all the cells, so the chips of the
    month add up to the number of such maintenances.
   */
  lemma {:induction false} BucketsPartitionMonth(ms: seq<Mantenimiento>, year: int, month: int)
    requires 0 <= month < 12
    requires forall i :: 0 <= i < |ms| ==> ValidTimestamp(ms[i].fechaInicio)
    ensures BucketTotal(ms, year, month, DaysInMonthOf(month, year)) == |InMonthOf(ms, year, month)|
  {
    var n := DaysInMonthOf(month, year);
    InRangeMonth(month, year);
    if ms == [] {
      BucketTotalEmpty(year, month, n);
    } else {
      var m, rest := ms[0], ms[1..];
      assert ms == [m] + rest;
      BucketsPartitionMonth(rest, year, month);
      BucketTotalCons(m, rest, year, month, n);
    }
  }

  /** A maintenance starting in the displayed month is in its own day's cell and in no other. */
  lemma InExactlyOneBucket(ms: seq<Mantenimiento>, i: nat, year: int, month: int)
    requires i < |ms| && InMonth(ms[i], year, month)
    ensures ms[i] in MantenimientosForDay(ms, year, month, ms[i].fechaInicio.date.day)
    ensures forall d :: d != ms[i].fechaInicio.date.day ==> ms[i] !in MantenimientosForDay(ms, year, month, d)
  {
  }

  /** The end date plays no part: two records that differ only in `fechaFin` share their cells. */
  lemma FechaFinIgnored(ms: seq<Mantenimiento>, k: nat, fin: Option<Timestamp>, year: int, month: int, day: int)
    requires k < |ms|
    ensures var ms' := ms[k := ms[k].(fechaFin := fin)];
      ms[k] in MantenimientosForDay(ms, year, month, day) <==> ms'[k] in MantenimientosForDay(ms', year, month, day)
  {
  }

  // ------------------------------------------------------------------ filter

  /** The filter bar's values; an empty date input is `None`. */
  datatype Filters = Filters(startDate: Option<Date>, endDate: Option<Date>, userId: string, month: int)

  /** `currentUserId` and `currentUserRoleId` of the page. */
  datatype Session = Session(userId: Option<string>, roleId: Option<Num>)

  predicate IsAdmin(s: Session) {
    s.roleId == Some(Int(1))
  }

  predicate MatchesStartDate(m: Mantenimiento, f: Filters) {
    f.startDate.None? || TimeValue(m.fechaInicio) >= DayStart(f.startDate.value)
  }

  predicate MatchesEndDate(m: Mantenimiento, f: Filters) {
    f.endDate.None? || TimeValue(m.fechaInicio) <= DayStart(f.endDate.value)
  }

  /**
    A non-admin sees their own records. An admin who picked a user (by
    `cedula`) sees the records whose `idUsuario` equals that user's `idRol`.
   */
  predicate MatchesUserId(m: Mantenimiento, f: Filters, s: Session, users: seq<Usuario>) {
    if !IsAdmin(s) && Truthy(s.userId) then Int(m.idUsuario) == ParseInt(s.userId.value)
    else if f.userId != "" then
      var u := Find(users, (u: Usuario) => u.cedula == f.userId);
      u.Some? && u.value.idRol == m.idUsuario
    else true
  }

  /** The month test compares the month only, whatever the year. */
  predicate MatchesMonth(m: Mantenimiento, f: Filters) {
    m.fechaInicio.date.month == f.month
  }

  predicate Matches(m: Mantenimiento, f: Filters, s: Session, users: seq<Usuario>) {
    MatchesStartDate(m, f) && MatchesEndDate(m, f) && MatchesUserId(m, f, s, users) && MatchesMonth(m, f)
  }

  /** `filteredMantenimientos`: the order-preserving sub-list of records that pass all four tests. */
  function FilteredMantenimientos(ms: seq<Mantenimiento>, f: Filters, s: Session, users: seq<Usuario>): (r: seq<Mantenimiento>)
    ensures forall i :: 0 <= i < |r| ==> r[i] in ms && Matches(r[i], f, s, users)
    ensures forall i :: 0 <= i < |ms| && Matches(ms[i], f, s, users) ==> ms[i] in r
    ensures SubsequenceOf(r, ms)
  {
    var p := (m: Mantenimiento) => Matches(m, f, s, users);
    FilterIsSubsequence(ms, p);
    Filter(ms, p)
  }

  /** The filtered list holds each record that passes as many times as the fetched list does. */
  lemma FilteredCounts(ms: seq<Mantenimiento>, f: Filters, s: Session, users: seq<Usuario>)
    ensures forall m ::
      multiset(FilteredMantenimientos(ms, f, s, users))[m] == if Matches(m, f, s, users) then multiset(ms)[m] else 0
  {
    FilterCounts(ms, (m: Mantenimiento) => Matches(m, f, s, users));
  }

  /** A non-admin with a session sees only records of their own user id; every kept record is in the chosen month. */
  lemma FilteredAreOwnAndInMonth(ms: seq<Mantenimiento>, f: Filters, s: Session, users: seq<Usuario>)
    ensures forall m :: m in FilteredMantenimientos(ms, f, s, users) ==> m.fechaInicio.date.month == f.month
    ensures !IsAdmin(s) && Truthy(s.userId) ==>
      forall m :: m in FilteredMantenimientos(ms, f, s, users) ==> Int(m.idUsuario) == ParseInt(s.userId.value)
  {
    var r := FilteredMantenimientos(ms, f, s, users);
    forall m | m in r
      ensures Matches(m, f, s, users)
    {
      var i :| 0 <= i < |r| && r[i] == m;
    }
  }

  /** Empty date inputs impose no bound: only the user and month tests remain. */
  lemma NoDatesNoBounds(m: Mantenimiento, f: Filters, s: Session, users: seq<Usuario>)
    requires f.startDate.None? && f.endDate.None?
    ensures Matches(m, f, s, users) <==> MatchesUserId(m, f, s, users) && MatchesMonth(m, f)
  {
  }

  /**
    The end bound compares with midnight at the start of the end date, so a
    record later on that very day is left out.
   */
  lemma EndDateStopsAtMidnight(m: Mantenimiento, f: Filters, s: Session, users: seq<Usuario>)
    requires f.endDate == Some(m.fechaInicio.date)
    requires 0 < m.fechaInicio.minute
    ensures !Matches(m, f, s, users)
  {
  }

  /**
    The month test ignores the year: without date bounds, moving a record to
    another year does not change whether it is kept.
   */
  lemma YearIgnored(m: Mantenimiento, y: int, f: Filters, s: Session, users: seq<Usuario>)
    requires f.startDate.None? && f.endDate.None?
    ensures var m' := m.(fechaInicio := m.fechaInicio.(date := m.fechaInicio.date.(year := y)));
      Matches(m, f, s, users) <==> Matches(m', f, s, users)
  {
  }

  // ----------------------------------------------------------------- summary

  datatype Summary = Summary(completados: nat, pendientes: nat, total: nat)

  /** The three summary boxes: completed, pending and total of the filtered list. */
  function Summarize(ms: seq<Mantenimiento>): (s: Summary)
    ensures s.total == |ms|
    ensures s.completados + s.pendientes <= s.total
    ensures s.completados == |Filter(ms, (m: Mantenimiento) => m.estado == Completado)|
    ensures s.pendientes == |Filter(ms, (m: Mantenimiento) => m.estado == Pendiente)|
  {
    var p := (m: Mantenimiento) => m.estado == Completado;
    var q := (m: Mantenimiento) => m.estado == Pendiente;
    DisjointFiltersBound(ms, p, q);
    Summary(|Filter(ms, p)|, |Filter(ms, q)|, |ms|)
  }

  /**
    The summary counts filtered records of the chosen month in every year,
    while the calendar only shows the current year: a kept record from
    another year adds to the total but to no day cell.
   */
  lemma OtherYearCountedNotShown(ms: seq<Mantenimiento>, f: Filters, s: Session, users: seq<Usuario>, i: nat, thisYear: int)
    requires i < |ms| && Matches(ms[i], f, s, users) && ms[i].fechaInicio.date.year != thisYear
    ensures ms[i] in FilteredMantenimientos(ms, f, s, users)
    ensures forall d :: ms[i] !in MantenimientosForDay(FilteredMantenimientos(ms, f, s, users), thisYear, f.month, d)
  {
  }

  // -------------------------------------------------------------- page state

  datatype Loading = Loading(mantenimientos: bool, users: bool)

  datatype Errors = Errors(mantenimientos: string, users: string)

  /** Which list the page asks the backend for. */
  datatype MantenimientoQuery = AllMantenimientos | OfUser(userId: string)

  /** What the page shows. */
  datatype PageView =
    | Spinner
    | LoadFailure
    | Main(
        mantenimientosError: Option<string>,
        usersWarning: Option<string>,
        showNewButton: bool,
        showFilters: bool,
        calendar: Option<seq<Cell>>,
        summary: Summary)

  class MantenimientosPage {
    var mantenimientos: seq<Mantenimiento>
    var users: seq<Usuario>
    var loading: Loading
    var error: Errors
    var filters: Filters
    var isModalOpen: bool
    var session: Session

    /** The initial state; `today` stands for `new Date()`. */
    constructor (today: Date)
      ensures mantenimientos == [] && users == [] && session == Session(None, None)
      ensures loading == Loading(true, true) && error == Errors("", "")
      ensures filters == Filters(None, None, "", today.month) && !isModalOpen
    {
      mantenimientos, users, session := [], [], Session(None, None);
      loading, error := Loading(true, true), Errors("", "");
      filters, isModalOpen := Filters(None, None, "", today.month), false;
    }

    /** The session effect: without both cookies the page redirects to the login page. */
    method ReadSession(userIdCookie: Option<string>, roleCookie: Option<string>) returns (redirect: bool)
      modifies this`session
      ensures redirect <==> !(Truthy(userIdCookie) && Truthy(roleCookie))
      ensures redirect ==> session == old(session)
      ensures !redirect ==> session == Session(userIdCookie, Some(ParseInt(roleCookie.value)))
    {
      redirect := !(Truthy(userIdCookie) && Truthy(roleCookie));
      if !redirect {
        session := Session(userIdCookie, Some(ParseInt(roleCookie.value)));
      }
    }

    /**
      `getMantenimientos`: nothing happens without a user id (not even the
      loading flag is cleared); otherwise the list is replaced or the error
      is set, and loading ends. A non-admin asks for their own list only.
     */
    method LoadMantenimientos(response: Result<seq<Mantenimiento>>) returns (query: Option<MantenimientoQuery>)
      modifies this`mantenimientos, this`error, this`loading
      ensures query.None? <==> !Truthy(session.userId)
      ensures query.None? ==> mantenimientos == old(mantenimientos) && error == old(error) && loading == old(loading)
      ensures query.Some? ==> query.value == if IsAdmin(session) then AllMantenimientos else OfUser(session.userId.value)
      ensures query.Some? ==> loading == old(loading).(mantenimientos := false) && error.users == old(error.users)
      ensures query.Some? && response.Ok? ==> mantenimientos == response.value && error.mantenimientos == ""
      ensures query.Some? && response.Err? ==>
        mantenimientos == old(mantenimientos) && error.mantenimientos == "Error al cargar mantenimientos"
    {
      if !Truthy(session.userId) {
        return None;
      }
      query := Some(if !IsAdmin(session) then OfUser(session.userId.value) else AllMantenimientos);
      match response {
        case Ok(ms) =>
          mantenimientos := ms;
          error := error.(mantenimientos := "");
        case Err(_) =>
          error := error.(mantenimientos := "Error al cargar mantenimientos");
      }
      loading := loading.(mantenimientos := false);
    }

    /** `getUsers`: only an admin loads the user list; loading ends either way. */
    method LoadUsers(response: Result<seq<Usuario>>) returns (requested: bool)
      modifies this`users, this`error, this`loading
      ensures requested <==> IsAdmin(session)
      ensures loading == old(loading).(users := false)
      ensures error.mantenimientos == old(error.mantenimientos)
      ensures !requested ==> users == old(users) && error == old(error)
      ensures requested && response.Ok? ==> users == response.value && error.users == ""
      ensures requested && response.Err? ==> users == old(users) && error.users == "Error al cargar usuarios"
    {
      requested := IsAdmin(session);
      if requested {
        match response {
          case Ok(us) =>
            users := us;
            error := error.(users := "");
          case Err(_) =>
            error := error.(users := "Error al cargar usuarios");
        }
      }
      loading := loading.(users := false);
    }

    /**
      `handleAddMaintenance`: a created record is appended to the list and
      the modal closes; on failure the list and the modal are unchanged.
     */
    method AddMaintenance(response: Result<Mantenimiento>)
      modifies this`mantenimientos, this`isModalOpen
      ensures response.Ok? ==> mantenimientos == old(mantenimientos) + [response.value] && !isModalOpen
      ensures response.Err? ==> mantenimientos == old(mantenimientos) && isModalOpen == old(isModalOpen)
    {
      if response.Ok? {
        mantenimientos := mantenimientos + [response.value];
        isModalOpen := false;
      }
    }

    function Filtered(): seq<Mantenimiento>
      reads this
    {
      FilteredMantenimientos(mantenimientos, filters, session, users)
    }

    /**
      What the page renders: a spinner while either list loads, a failure
      panel when both loads failed, otherwise the calendar of the filtered
      records for the chosen month of the current year and their summary.
     */
    function Render(today: Date): (v: PageView)
      reads this
      ensures v.Spinner? <==> loading.mantenimientos || loading.users
      ensures v.LoadFailure? <==> !v.Spinner? && error.mantenimientos != "" && error.users != ""
      ensures v.Main? ==> v.summary == Summarize(Filtered())
      ensures v.Main? ==> (v.calendar.None? <==> error.mantenimientos != "")
      ensures v.Main? && v.calendar.Some? ==> v.calendar.value == Calendar(Filtered(), filters.month, today.year, today)
      ensures v.Main? ==> v.showNewButton == v.showFilters == IsAdmin(session)
    {
      if loading.mantenimientos || loading.users then Spinner
      else if error.mantenimientos != "" && error.users != "" then LoadFailure
      else
        Main(
          if error.mantenimientos != "" then Some(error.mantenimientos) else None,
          if error.users != "" then Some(error.users) else None,
          IsAdmin(session),
          IsAdmin(session),
          if error.mantenimientos != "" then None else Some(Calendar(Filtered(), filters.month, today.year, today)),
          Summarize(Filtered()))
    }
  }
}
