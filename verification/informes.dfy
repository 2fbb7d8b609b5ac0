/**
  The reports page. Its core is `handleSubmit`, a fixed chain of dependent
  backend calls: create the report header, ask for the user's completed
  maintenances in the chosen date range, attach each of them to the new
  report, optionally upload a detail record, then reload the list. A failure
  at any step skips the rest; nothing already done is undone.

  The backend is a `Store` object whose operations may fail; which of them
  fail is left open (`if *`), so every proved property holds for every
  pattern of failures.
 */
module Informes {
  import opened Js
  import opened Gregorian
  import opened Interfaces

  /** The body of the header creation request. */
  datatype HeaderPayload = HeaderPayload(idUsuario: Num, titulo: string, estado: string)

  /** A report header as the backend holds it after creation. */
  datatype Header = Header(idInforme: int, payload: HeaderPayload)

  /** The multipart body of the detail creation request. */
  datatype DetailPayload = DetailPayload(idInforme: int, descripcion: string, archivo: File)

  /** The requests the page sends, in the order the backend receives them. */
  datatype Request =
    | PostHeader(header: HeaderPayload)
    | GetCompleted(userId: string, desde: Date, hasta: Date)
    | PutMantenimiento(id: int, body: Mantenimiento)
    | PostDetail(detail: DetailPayload)
    | GetInformes(userId: string)

  /** Every record of `found` is the store's current record under its own id. */
  predicate FromStore(found: seq<Mantenimiento>, ms: map<int, Mantenimiento>) {
    forall i :: 0 <= i < |found| ==> found[i].idMantenimiento in ms && ms[found[i].idMantenimiento] == found[i]
  }

  /** The backend, reduced to what the workflow reads and writes. */
  class Store {
    var mantenimientos: map<int, Mantenimiento>
    var headers: seq<Header>
    var details: seq<DetailPayload>
    var nextId: int
    var log: seq<Request>

    /** Records are filed under their own id, and header ids below `nextId` are taken. */
    ghost predicate Valid()
      reads this
    {
      && (forall k :: k in mantenimientos ==> mantenimientos[k].idMantenimiento == k)
      && (forall i :: 0 <= i < |headers| ==> headers[i].idInforme < nextId)
    }

    constructor (ms: map<int, Mantenimiento>, firstId: int)
      requires forall k :: k in ms ==> ms[k].idMantenimiento == k
      ensures Valid()
      ensures mantenimientos == ms && headers == [] && details == [] && nextId == firstId && log == []
    {
      mantenimientos, headers, details, nextId, log := ms, [], [], firstId, [];
    }

    /** `POST /InformesEncabezado`: on success a new header with a fresh id. */
    method CreateHeader(h: HeaderPayload) returns (r: Result<int>)
      modifies this
      ensures log == old(log) + [PostHeader(h)]
      ensures mantenimientos == old(mantenimientos) && details == old(details)
      ensures r.Ok? ==> r.value == old(nextId) && nextId == old(nextId) + 1 && headers == old(headers) + [Header(r.value, h)]
      ensures r.Err? ==> headers == old(headers) && nextId == old(nextId)
      ensures old(Valid()) ==> Valid()
    {
      log := log + [PostHeader(h)];
      if * {
        r := Ok(nextId);
        headers := headers + [Header(nextId, h)];
        nextId := nextId + 1;
      } else {
        var e: ApiError :| true;
        r := Err(e);
      }
    }

    /**
      `GET /Mantenimiento?IdUsuario=..&FechaDesde=..&FechaHasta=..&Estado=Completado`.
      Which records the backend selects is its own business; they are
      records it holds.
     */
    method QueryCompleted(userId: string, desde: Date, hasta: Date) returns (r: Result<seq<Mantenimiento>>)
      modifies this`log
      ensures log == old(log) + [GetCompleted(userId, desde, hasta)]
      ensures r.Ok? ==> FromStore(r.value, mantenimientos)
    {
      log := log + [GetCompleted(userId, desde, hasta)];
      if * {
        var found: seq<Mantenimiento> :| FromStore(found, mantenimientos);
        r := Ok(found);
      } else {
        var e: ApiError :| true;
        r := Err(e);
      }
    }

    /** `PUT /Mantenimiento/{id}`: on success the record under `id` becomes `body`. */
    method Update(id: int, body: Mantenimiento) returns (err: Option<ApiError>)
      modifies this`mantenimientos, this`log
      ensures log == old(log) + [PutMantenimiento(id, body)]
      ensures err.None? ==> mantenimientos == old(mantenimientos)[id := body]
      ensures err.Some? ==> mantenimientos == old(mantenimientos)
      ensures old(Valid()) && body.idMantenimiento == id ==> Valid()
    {
      log := log + [PutMantenimiento(id, body)];
      if * {
        mantenimientos := mantenimientos[id := body];
        err := None;
      } else {
        var e: ApiError :| true;
        err := Some(e);
      }
    }

    /** `POST /DetalleInforme`: on success the detail is stored. */
    method CreateDetail(d: DetailPayload) returns (err: Option<ApiError>)
      modifies this`details, this`log
      ensures log == old(log) + [PostDetail(d)]
      ensures err.None? ==> details == old(details) + [d]
      ensures err.Some? ==> details == old(details)
    {
      log := log + [PostDetail(d)];
      if * {
        details := details + [d];
        err := None;
      } else {
        var e: ApiError :| true;
        err := Some(e);
      }
    }

    /** `GET /InformesEncabezado?IdUsuario=..`: the user's reports, or a failure. */
    method ListInformes(userId: string) returns (r: Result<seq<Informe>>)
      modifies this`log
      ensures log == old(log) + [GetInformes(userId)]
    {
      log := log + [GetInformes(userId)];
      if * {
        var listed: seq<Informe> :| true;
        r := Ok(listed);
      } else {
        var e: ApiError :| true;
        r := Err(e);
      }
    }
  }

  // ----------------------------------------------------- association of records

  /** The store's records after the updates of `found`, in order, each setting `idInforme` to `id`. */
  function Associate(ms: map<int, Mantenimiento>, id: int, found: seq<Mantenimiento>): map<int, Mantenimiento>
    decreases |found|
  {
    if found == [] then ms
    else
      var last := found[|found| - 1];
      Associate(ms, id, found[..|found| - 1])[last.idMantenimiento := last.(idInforme := id)]
  }

  /** Requests of the updates of `found`. */
  function Updates(id: int, found: seq<Mantenimiento>): (rs: seq<Request>)
    ensures |rs| == |found|
    ensures forall i :: 0 <= i < |found| ==> rs[i] == PutMantenimiento(found[i].idMantenimiento, found[i].(idInforme := id))
  {
    seq(|found|, i requires 0 <= i < |found| => PutMantenimiento(found[i].idMantenimiento, found[i].(idInforme := id)))
  }

  /** No record outside the query result is touched. */
  lemma {:induction false} AssociateLeavesOthers(ms: map<int, Mantenimiento>, id: int, found: seq<Mantenimiento>, k: int)
    requires forall i :: 0 <= i < |found| ==> found[i].idMantenimiento != k
    ensures k in Associate(ms, id, found) <==> k in ms
    ensures k in ms ==> Associate(ms, id, found)[k] == ms[k]
    decreases |found|
  {
    if found != [] {
      AssociateLeavesOthers(ms, id, found[..|found| - 1], k);
    }
  }

  /**
    Every record of the query result ends up as itself with `idInforme` set
    to the new report, its other fields copied, provided records with the
    same id are the same record (as they are when they come from the store).
   */
  lemma {:induction false} AssociateSetsInforme(ms: map<int, Mantenimiento>, id: int, found: seq<Mantenimiento>, i: nat)
    requires FromStore(found, ms)
    requires i < |found|
    ensures found[i].idMantenimiento in Associate(ms, id, found)
    ensures Associate(ms, id, found)[found[i].idMantenimiento] == found[i].(idInforme := id)
    decreases |found|
  {
    var n := |found| - 1;
    var front := found[..n];
    assert FromStore(front, ms) by {
      assert forall j :: 0 <= j < n ==> front[j] == found[j];
    }
    if i < n && found[i].idMantenimiento != found[n].idMantenimiento {
      AssociateSetsInforme(ms, id, front, i);
    }
  }

  /** With the store valid, records stay filed under their own ids after association. */
  lemma AssociateKeepsIds(ms: map<int, Mantenimiento>, id: int, found: seq<Mantenimiento>, k: int)
    requires forall j :: j in ms ==> ms[j].idMantenimiento == j
    requires FromStore(found, ms)
    requires k in Associate(ms, id, found)
    ensures Associate(ms, id, found)[k].idMantenimiento == k
  {
    if exists i :: 0 <= i < |found| && found[i].idMantenimiento == k {
      var i :| 0 <= i < |found| && found[i].idMantenimiento == k;
      AssociateSetsInforme(ms, id, found, i);
    } else {
      AssociateLeavesOthers(ms, id, found, k);
    }
  }

  // ---------------------------------------------------------------- workflow

  const SuccessText := "Informe creado exitosamente!"
  const NoUserText := "No se pudo identificar al usuario"
  const SubmitFallback := "Error al crear el informe"
  /** The message of the RangeError `toISOString` throws for an invalid date. */
  const InvalidTimeText := "Invalid time value"

  /** The creation form; an empty date input is `None`. */
  datatype ReportForm = ReportForm(
    titulo: string,
    descripcion: string,
    archivo: Option<File>,
    desde: Option<Date>,
    hasta: Option<Date>,
    userId: string)

  const EmptyForm := ReportForm("", "", None, None, None, "")

  /** The header body: the parsed session user, the title, state 'Generado' (no `estaEliminado`). */
  function HeaderOf(userId: string, f: ReportForm): HeaderPayload {
    HeaderPayload(ParseInt(userId), f.titulo, Generado)
  }

  /** The detail body for report `id`, when a file is chosen. */
  function DetailOf(id: int, f: ReportForm): Option<DetailPayload> {
    if f.archivo.Some? then Some(DetailPayload(id, f.descripcion, f.archivo.value)) else None
  }

  /** How far `handleSubmit` got. */
  datatype SubmitOutcome =
    | NoUser
    | HeaderFailed
    | InvalidDates(id: int)
    | QueryFailed(id: int)
    | UpdateFailed(id: int, found: seq<Mantenimiento>, applied: nat)
    | DetailFailed(id: int, found: seq<Mantenimiento>)
    | Created(id: int, found: seq<Mantenimiento>, listed: Option<seq<Informe>>)

  /** The first steps either stop the run or yield the new header's id and the query result. */
  datatype Opening = Stopped(o: SubmitOutcome) | Opened(id: int, found: seq<Mantenimiento>)

  /** The header was created. */
  predicate HasHeader(o: SubmitOutcome) {
    !o.NoUser? && !o.HeaderFailed?
  }

  /** The query was sent. */
  predicate Queried(o: SubmitOutcome) {
    o.QueryFailed? || o.UpdateFailed? || o.DetailFailed? || o.Created?
  }

  /** The query answered. */
  predicate Answered(o: SubmitOutcome) {
    o.UpdateFailed? || o.DetailFailed? || o.Created?
  }

  /** The records whose update took effect. */
  function Applied(o: SubmitOutcome): seq<Mantenimiento> {
    match o
    case UpdateFailed(_, found, k) => if k <= |found| then found[..k] else found
    case DetailFailed(_, found) => found
    case Created(_, found, _) => found
    case _ => []
  }

  /** The updates the page sent: all of them, or up to and including the one that failed. */
  function Sent(o: SubmitOutcome): seq<Mantenimiento> {
    match o
    case UpdateFailed(_, found, k) => if k < |found| then found[..k + 1] else found
    case DetailFailed(_, found) => found
    case Created(_, found, _) => found
    case _ => []
  }

  /**
    The requests of one run, in order: header; query; one update per record
    (up to the failing one); the detail when a file is chosen; the reload.
    Each request is sent only when every earlier one succeeded.
   */
  function Trace(o: SubmitOutcome, userId: string, f: ReportForm): seq<Request>
    requires Queried(o) ==> f.desde.Some? && f.hasta.Some?
  {
    if o.NoUser? then []
    else if !Queried(o) then [PostHeader(HeaderOf(userId, f))]
    else [PostHeader(HeaderOf(userId, f)), GetCompleted(userId, f.desde.value, f.hasta.value)] + AfterQuery(o, userId, f)
  }

  /** The requests after the query: the updates sent, the detail, the reload. */
  function AfterQuery(o: SubmitOutcome, userId: string, f: ReportForm): seq<Request> {
    (if Answered(o) then Updates(o.id, Sent(o)) else [])
    + (if (o.DetailFailed? || o.Created?) && f.archivo.Some? then [PostDetail(DetailOf(o.id, f).value)] else [])
    + (if o.Created? then [GetInformes(userId)] else [])
  }

  /** The header, the query and the later requests, appended one after another, make up the trace. */
  lemma LogGrowsByTrace(log: seq<Request>, o: SubmitOutcome, userId: string, f: ReportForm)
    requires Queried(o) && f.desde.Some? && f.hasta.Some?
    ensures log + [PostHeader(HeaderOf(userId, f))] + [GetCompleted(userId, f.desde.value, f.hasta.value)] + AfterQuery(o, userId, f)
      == log + Trace(o, userId, f)
  {
    var firstTwo := [PostHeader(HeaderOf(userId, f)), GetCompleted(userId, f.desde.value, f.hasta.value)];
    assert log + [firstTwo[0]] + [firstTwo[1]] == log + firstTwo;
  }

  /**
    Sets `idInforme` on each record of `found`, one request at a time,
    stopping at the first failure, which is returned with its position.
   */
  method AttachAll(store: Store, id: int, found: seq<Mantenimiento>) returns (failure: Option<(nat, ApiError)>)
    modifies store`mantenimientos, store`log
    ensures failure.Some? ==>
      && failure.value.0 < |found|
      && store.mantenimientos == Associate(old(store.mantenimientos), id, found[..failure.value.0])
      && store.log == old(store.log) + Updates(id, found[..failure.value.0 + 1])
    ensures failure.None? ==>
      && store.mantenimientos == Associate(old(store.mantenimientos), id, found)
      && store.log == old(store.log) + Updates(id, found)
    ensures FromStore(found, old(store.mantenimientos)) && old(store.Valid()) ==> store.Valid()
  {
    var i := 0;
    while i < |found|
      invariant 0 <= i <= |found|
      invariant store.mantenimientos == Associate(old(store.mantenimientos), id, found[..i])
      invariant store.log == old(store.log) + Updates(id, found[..i])
      invariant FromStore(found, old(store.mantenimientos)) && old(store.Valid()) ==> store.Valid()
    {
      var m := found[i];
      assert found[..i + 1] == found[..i] + [m];
      assert found[..i + 1][..i] == found[..i];
      var err := store.Update(m.idMantenimiento, m.(idInforme := id));
      if err.Some? {
        return Some((i, err.value));
      }
      i := i + 1;
    }
    assert found[..i] == found;
    return None;
  }

  /** The state of the reports page that the workflow reads and writes. */
  class InformesPage {
    var informes: seq<Informe>
    var currentUserId: Option<string>
    var form: ReportForm
    var submitting: bool
    var submitError: Option<string>
    var submitSuccess: Option<string>

    constructor ()
      ensures informes == [] && currentUserId == None && form == EmptyForm
      ensures !submitting && submitError == None && submitSuccess == None
    {
      informes, currentUserId, form := [], None, EmptyForm;
      submitting, submitError, submitSuccess := false, None, None;
    }

    /** Records the failure of a step: its message, or the fallback text. */
    method Fail(e: ApiError)
      modifies this`submitError, this`submitting
      ensures submitError == Some(ErrorText(e, SubmitFallback)) && !submitting
    {
      submitError := Some(ErrorText(e, SubmitFallback));
      submitting := false;
    }

    /**
      The steps after the updates: the detail upload when a file is chosen,
      then the success message, the cleared form and the reload of the list.
     */
    method Conclude(store: Store, id: int, found: seq<Mantenimiento>, userId: string) returns (o: SubmitOutcome)
      modifies this, store
      ensures o == DetailFailed(id, found) || (o.Created? && o.id == id && o.found == found)
      ensures o.DetailFailed? ==> old(form).archivo.Some?
      ensures !submitting && currentUserId == old(currentUserId)
      ensures informes == if o.Created? && o.listed.Some? then o.listed.value else old(informes)
      ensures o.DetailFailed? ==> submitSuccess == old(submitSuccess) && submitError.Some? && form == old(form)
      ensures o.Created? ==> submitSuccess == Some(SuccessText) && form == EmptyForm
      ensures o.Created? && o.listed.Some? ==> submitError == old(submitError)
      ensures o.Created? && o.listed.None? ==> submitError.Some?
      ensures store.log == old(store.log)
        + (if old(form).archivo.Some? then [PostDetail(DetailOf(id, old(form)).value)] else [])
        + (if o.Created? then [GetInformes(userId)] else [])
      ensures store.details == old(store.details)
        + if o.Created? && old(form).archivo.Some? then [DetailOf(id, old(form)).value] else []
      ensures store.mantenimientos == old(store.mantenimientos)
      ensures store.headers == old(store.headers) && store.nextId == old(store.nextId)
    {
      var detail := DetailOf(id, form);
      if detail.Some? {
        var err := store.CreateDetail(detail.value);
        if err.Some? {
          Fail(err.value);
          return DetailFailed(id, found);
        }
      }
      submitSuccess := Some(SuccessText);
      form := EmptyForm;
      var listed := store.ListInformes(userId);
      if listed.Ok? {
        informes := listed.value;
        o := Created(id, found, Some(listed.value));
      } else {
        Fail(listed.error);
        o := Created(id, found, None);
      }
      submitting := false;
    }

    /**
      The first steps: create the header, turn the dates into ISO strings
      (which throws on an empty date) and query the completed maintenances.
     */
    method Open(store: Store, userId: string) returns (r: Opening)
      modifies this`submitError, this`submitting, store
      ensures r.Stopped? ==> (r.o.HeaderFailed? || r.o.InvalidDates? || r.o.QueryFailed?)
      ensures r.Stopped? && r.o.InvalidDates? ==> submitError == Some(InvalidTimeText) && (form.desde.None? || form.hasta.None?)
      ensures r.Stopped? && r.o.QueryFailed? ==> form.desde.Some? && form.hasta.Some?
      ensures r.Stopped? ==> !submitting && submitError.Some? && store.log == old(store.log) + Trace(r.o, userId, form)
      ensures r.Opened? ==>
        && submitting == old(submitting) && submitError == old(submitError)
        && form.desde.Some? && form.hasta.Some?
        && store.log == old(store.log) + [PostHeader(HeaderOf(userId, form))] + [GetCompleted(userId, form.desde.value, form.hasta.value)]
        && FromStore(r.found, store.mantenimientos)
      ensures store.mantenimientos == old(store.mantenimientos) && store.details == old(store.details)
      ensures r.Stopped? && r.o.HeaderFailed? ==> store.headers == old(store.headers) && store.nextId == old(store.nextId)
      ensures r.Opened? ==>
        && r.id == old(store.nextId)
        && store.headers == old(store.headers) + [Header(r.id, HeaderOf(userId, form))]
      ensures r.Stopped? && !r.o.HeaderFailed? ==>
        && r.o.id == old(store.nextId)
        && store.headers == old(store.headers) + [Header(r.o.id, HeaderOf(userId, form))]
      ensures old(store.Valid()) ==> store.Valid()
    {
      var header := store.CreateHeader(HeaderOf(userId, form));
      if header.Err? {
        Fail(header.error);
        return Stopped(HeaderFailed);
      }
      var id := header.value;
      if form.desde.None? || form.hasta.None? {
        Fail(ApiError(None, InvalidTimeText));
        return Stopped(InvalidDates(id));
      }
      var query := store.QueryCompleted(userId, form.desde.value, form.hasta.value);
      if query.Err? {
        Fail(query.error);
        return Stopped(QueryFailed(id));
      }
      return Opened(id, query.value);
    }

    /** The steps after a successful query: the updates, then `Conclude`. */
    method Proceed(store: Store, id: int, found: seq<Mantenimiento>, userId: string) returns (o: SubmitOutcome)
      modifies this, store
      ensures Answered(o) && o.id == id && o.found == found
      ensures o.UpdateFailed? ==> o.applied < |found|
      ensures o.DetailFailed? ==> form.archivo.Some?
      ensures !submitting && currentUserId == old(currentUserId)
      ensures informes == if o.Created? && o.listed.Some? then o.listed.value else old(informes)
      ensures !o.Created? ==> submitSuccess == old(submitSuccess) && submitError.Some? && form == old(form)
      ensures o.Created? ==> submitSuccess == Some(SuccessText) && form == EmptyForm
      ensures o.Created? && o.listed.Some? ==> submitError == old(submitError)
      ensures o.Created? && o.listed.None? ==> submitError.Some?
      ensures store.log == old(store.log) + AfterQuery(o, userId, old(form))
      ensures store.mantenimientos == Associate(old(store.mantenimientos), id, Applied(o))
      ensures store.details == old(store.details)
        + if o.Created? && old(form).archivo.Some? then [DetailOf(id, old(form)).value] else []
      ensures store.headers == old(store.headers) && store.nextId == old(store.nextId)
      ensures FromStore(found, old(store.mantenimientos)) && old(store.Valid()) ==> store.Valid()
    {
      var failure := AttachAll(store, id, found);
      if failure.Some? {
        Fail(failure.value.1);
        o := UpdateFailed(id, found, failure.value.0);
        assert AfterQuery(o, userId, old(form)) == Updates(id, found[..failure.value.0 + 1]);
        return;
      }
      ghost var updated := store.log;
      o := Conclude(store, id, found, userId);
      assert Sent(o) == found;
    }

    /**
      The run once a user is known: every request goes out under `userId`,
      and each is sent only when every earlier one succeeded.
     */
    method Run(store: Store, userId: string) returns (o: SubmitOutcome)
      modifies this, store
      ensures HasHeader(o) || o.HeaderFailed?
      ensures o.InvalidDates? <==> HasHeader(o) && (old(form).desde.None? || old(form).hasta.None?)
      ensures Queried(o) ==> old(form).desde.Some? && old(form).hasta.Some?
      ensures !submitting && currentUserId == old(currentUserId)
      ensures informes == if o.Created? && o.listed.Some? then o.listed.value else old(informes)
      ensures o.InvalidDates? ==> submitError == Some(InvalidTimeText)
      ensures !o.Created? ==> submitSuccess == old(submitSuccess) && submitError.Some? && form == old(form)
      ensures o.Created? ==> submitSuccess == Some(SuccessText) && form == EmptyForm
      ensures o.Created? && o.listed.Some? ==> submitError == old(submitError)
      ensures o.Created? && o.listed.None? ==> submitError.Some?
      ensures store.log == old(store.log) + Trace(o, userId, old(form))
      ensures !HasHeader(o) ==> store.headers == old(store.headers) && store.nextId == old(store.nextId)
      ensures HasHeader(o) ==>
        && o.id == old(store.nextId)
        && store.headers == old(store.headers) + [Header(o.id, HeaderOf(userId, old(form)))]
      ensures Answered(o) ==> FromStore(o.found, old(store.mantenimientos))
      ensures o.UpdateFailed? ==> o.applied < |o.found|
      ensures store.mantenimientos == Associate(old(store.mantenimientos), if HasHeader(o) then o.id else 0, Applied(o))
      ensures store.details == old(store.details)
        + if o.Created? && old(form).archivo.Some? then [DetailOf(o.id, old(form)).value] else []
      ensures old(store.Valid()) ==> store.Valid()
    {
      ghost var f0, log0 := form, store.log;
      var opening := Open(store, userId);
      if opening.Stopped? {
        o := opening.o;
        assert Applied(o) == [] && Associate(old(store.mantenimientos), if HasHeader(o) then o.id else 0, []) == old(store.mantenimientos);
        return;
      }
      o := Proceed(store, opening.id, opening.found, userId);
      LogGrowsByTrace(log0, o, userId, f0);
    }

    /** `handleSubmit`. */
    method HandleSubmit(store: Store) returns (o: SubmitOutcome)
      modifies this, store
      ensures o.NoUser? <==> !Truthy(old(currentUserId))
      ensures !o.NoUser? ==> old(currentUserId).Some?
      ensures o.InvalidDates? <==> HasHeader(o) && (old(form).desde.None? || old(form).hasta.None?)
      ensures Queried(o) ==> old(form).desde.Some? && old(form).hasta.Some?
      // the page
      ensures !submitting && currentUserId == old(currentUserId)
      ensures informes == if o.Created? && o.listed.Some? then o.listed.value else old(informes)
      ensures o.NoUser? ==> submitError == Some(NoUserText)
      ensures o.InvalidDates? ==> submitError == Some(InvalidTimeText)
      ensures !o.Created? ==> submitSuccess == None && submitError.Some? && form == old(form)
      ensures o.Created? ==> submitSuccess == Some(SuccessText) && form == EmptyForm
      ensures o.Created? ==> (submitError == None <==> o.listed.Some?)
      // the backend
      ensures store.log == old(store.log) + Trace(o, if o.NoUser? then "" else old(currentUserId).value, old(form))
      ensures !HasHeader(o) ==> store.headers == old(store.headers) && store.nextId == old(store.nextId)
      ensures HasHeader(o) ==>
        && o.id == old(store.nextId)
        && store.headers == old(store.headers) + [Header(o.id, HeaderOf(old(currentUserId).value, old(form)))]
      ensures Answered(o) ==> FromStore(o.found, old(store.mantenimientos))
      ensures o.UpdateFailed? ==> o.applied < |o.found|
      ensures store.mantenimientos == Associate(old(store.mantenimientos), if HasHeader(o) then o.id else 0, Applied(o))
      ensures store.details == old(store.details)
        + if o.Created? && old(form).archivo.Some? then [DetailOf(o.id, old(form)).value] else []
      ensures old(store.Valid()) ==> store.Valid()
    {
      submitting, submitError, submitSuccess := true, None, None;
      if !Truthy(currentUserId) {
        submitError := Some(ErrorText(ApiError(None, NoUserText), SubmitFallback));
        submitting := false;
        return NoUser;
      }
      o := Run(store, currentUserId.value);
    }
  }

  // ------------------------------------------------------------- pure pieces

  /** The expanded report row and the maintenances loaded for it. */
  datatype Expansion = Expansion(expandedInformeId: Option<int>, expandedMantenimientos: seq<Mantenimiento>)

  /**
    `handleToggleExpand`: the expanded row collapses and its list is
    cleared; any other row becomes the expanded one and a load of its
    maintenances is started (`fetch`).
   */
  function ToggleExpand(s: Expansion, id: int): (r: (Expansion, Option<int>))
    ensures s.expandedInformeId == Some(id) ==> r.0 == Expansion(None, []) && r.1 == None
    ensures s.expandedInformeId != Some(id) ==>
      r.0 == s.(expandedInformeId := Some(id)) && r.1 == Some(id)
  {
    if s.expandedInformeId == Some(id) then (Expansion(None, []), None)
    else (s.(expandedInformeId := Some(id)), Some(id))
  }

  /** `fetchMantenimientosForInforme`: the loaded list, or the empty list on failure. */
  function FetchDone(s: Expansion, response: Result<seq<Mantenimiento>>): (r: Expansion)
    ensures r.expandedInformeId == s.expandedInformeId
    ensures r.expandedMantenimientos == if response.Ok? then response.value else []
  {
    s.(expandedMantenimientos := if response.Ok? then response.value else [])
  }

  /** Expanding a row and clicking it again collapses it, whatever was expanded before. */
  lemma ToggleExpandTwice(s: Expansion, id: int, response: Result<seq<Mantenimiento>>)
    requires s.expandedInformeId != Some(id)
    ensures var (open, fetch) := ToggleExpand(s, id);
      fetch == Some(id) && ToggleExpand(FetchDone(open, response), id).0 == Expansion(None, [])
  {
  }

  /** `handleToggleBitacoras`: the log rows of `id` open, or close if they were open. */
  function ToggleBitacoras(prev: Option<int>, id: int): (r: Option<int>)
    ensures r == None <==> prev == Some(id)
    ensures r != None ==> r == Some(id)
  {
    if prev == Some(id) then None else Some(id)
  }

  /**
    Toggling the same row twice restores the previous state exactly when
    nothing or that very row was open before; when another row was open, the
    two toggles end with everything closed.
   */
  lemma ToggleBitacorasTwice(prev: Option<int>, id: int)
    ensures ToggleBitacoras(ToggleBitacoras(prev, id), id) == prev <==> prev == None || prev == Some(id)
    ensures prev != None && prev != Some(id) ==> ToggleBitacoras(ToggleBitacoras(prev, id), id) == None
  {
  }

  /**
    The start-date input's change handler: the new start is stored, and the
    end date is cleared exactly when both dates are set and the new start
    lies after the end (`new Date('')` compares false with everything).
   */
  function ChangeStartDate(start: Option<Date>, end: Option<Date>, newStart: Option<Date>): (r: (Option<Date>, Option<Date>))
    ensures r.0 == newStart
    ensures r.1 == None || r.1 == end
    ensures end.Some? && r.1 == None <==> end.Some? && newStart.Some? && DayStart(newStart.value) > DayStart(end.value)
    ensures r.0.Some? && r.1.Some? ==> DayStart(r.0.value) <= DayStart(r.1.value)
  {
    if end.Some? && newStart.Some? && DayStart(newStart.value) > DayStart(end.value) then (newStart, None)
    else (newStart, end)
  }

  /** For real calendar dates the guard is the calendar order: the end is cleared iff it precedes the new start. */
  lemma ChangeStartDateOrder(end: Date, newStart: Date, start: Option<Date>)
    requires ValidDate(end) && ValidDate(newStart)
    ensures ChangeStartDate(start, Some(end), Some(newStart)).1 == None <==> DateBefore(end, newStart)
  {
    DayNumberOrder(end, newStart);
  }
}
