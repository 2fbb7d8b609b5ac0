/**
  The report modal, used both to create a report (no `informe` given) and to
  edit one. It keeps the form fields as state, prefills or resets them when
  it opens, and on submit hands two payloads and the date range to its
  parent.
 */
module InformeModal {
  import opened Js
  import opened Gregorian
  import opened Interfaces
  import Informes

  /** The report payload handed to the parent; `None` stands for an undefined field. */
  datatype InformeData = InformeData(
    idInforme: Option<int>,
    idUsuario: Num,
    titulo: string,
    estado: string,
    estaEliminado: bool)

  /** The detail payload handed to the parent. */
  datatype DetalleData = DetalleData(
    idDetalleInforme: Option<int>,
    descripcion: string,
    archivoFile: Option<File>)

  /**
    `informeData`: the edited report's id, estado (when not empty) and
    deletion flag are carried over; a new report gets no id, the state
    'Generado' and `estaEliminado` false.
   */
  function BuildInformeData(informe: Option<Informe>, currentUserId: string, titulo: string): (d: InformeData)
    ensures d.idUsuario == ParseInt(currentUserId) && d.titulo == titulo
    ensures d.idInforme.Some? <==> informe.Some?
    ensures informe.Some? ==> d.idInforme == Some(informe.value.idInforme) && d.estaEliminado == informe.value.estaEliminado
    ensures d.estado == if informe.Some? && informe.value.estado != "" then informe.value.estado else Generado
    ensures informe.None? ==> !d.estaEliminado
  {
    InformeData(
      if informe.Some? then Some(informe.value.idInforme) else None,
      ParseInt(currentUserId),
      titulo,
      if informe.Some? && informe.value.estado != "" then informe.value.estado else Generado,
      informe.Some? && informe.value.estaEliminado)
  }

  /** `detalleInformeData`: the id of the report's first detail, if it has one. */
  function BuildDetalleData(informe: Option<Informe>, descripcion: string, archivoFile: Option<File>): (d: DetalleData)
    ensures d.descripcion == descripcion && d.archivoFile == archivoFile
    ensures d.idDetalleInforme.Some? <==> informe.Some? && |informe.value.detalles| > 0
    ensures d.idDetalleInforme.Some? ==> d.idDetalleInforme.value == informe.value.detalles[0].idDetalleInforme
  {
    DetalleData(
      if informe.Some? && |informe.value.detalles| > 0 then Some(informe.value.detalles[0].idDetalleInforme) else None,
      descripcion,
      archivoFile)
  }

  /**
    Editing a report and submitting it unchanged sends back what identifies
    it: the same id, state and deletion flag, and the id of its first detail.
   */
  lemma EditKeepsIdentity(i: Informe, userId: string, titulo: string, descripcion: string, f: Option<File>)
    requires i.estado != "" && |i.detalles| > 0
    ensures var d := BuildInformeData(Some(i), userId, titulo);
      d.idInforme == Some(i.idInforme) && d.estado == i.estado && d.estaEliminado == i.estaEliminado
    ensures BuildDetalleData(Some(i), descripcion, f).idDetalleInforme == Some(i.detalles[0].idDetalleInforme)
  {
  }

  /** A report with an empty state is sent back as 'Generado' (the `||` default). */
  lemma EmptyEstadoBecomesGenerado(i: Informe, userId: string, titulo: string)
    requires i.estado == ""
    ensures BuildInformeData(Some(i), userId, titulo).estado == Generado
  {
  }

  /** A session id written by `String(n)` reaches the payload as `n`. */
  lemma UserIdRoundTrip(n: int, titulo: string, informe: Option<Informe>)
    ensures BuildInformeData(informe, IntToDecimal(n), titulo).idUsuario == Int(n)
  {
    ParseIntOfDecimal(n);
  }

  /** What the modal renders when open. */
  datatype View = View(title: string, showDates: bool, fileRequired: bool, submitLabel: string)

  /** Nothing when closed; the date inputs and the required file only when creating. */
  function Render(isOpen: bool, informe: Option<Informe>, submitting: bool): (v: Option<View>)
    ensures v.None? <==> !isOpen
    ensures v.Some? ==> (v.value.showDates <==> informe.None?) && (v.value.fileRequired <==> informe.None?)
    ensures v.Some? ==> v.value.title == if informe.Some? then "Editar Informe" else "Crear Nuevo Informe"
    ensures v.Some? && submitting ==> v.value.submitLabel == "Procesando..."
  {
    if !isOpen then None
    else Some(View(
      if informe.Some? then "Editar Informe" else "Crear Nuevo Informe",
      informe.None?,
      informe.None?,
      if submitting then "Procesando..." else if informe.Some? then "Actualizar Informe" else "Generar Informe"))
  }

  /** The text after the last '/' (`s.split('/').pop()`). */
  function LastSegment(s: string): (r: string)
    ensures |r| <= |s| && r == s[|s| - |r|..]
    ensures forall i :: 0 <= i < |r| ==> r[i] != '/'
    ensures |r| < |s| ==> s[|s| - |r| - 1] == '/'
  {
    if s == [] then []
    else if s[|s| - 1] == '/' then []
    else
      LastSegment(s[..|s| - 1]) + [s[|s| - 1]]
  }

  /**
    The hint under the file input: the chosen file's name; else, when
    editing, the last path segment of the first detail's URL; else the
    default text.
   */
  function FileHint(archivoFile: Option<File>, informe: Option<Informe>): (t: string)
    ensures archivoFile.Some? ==> t == archivoFile.value.name
    ensures archivoFile.None? && informe.Some? && |informe.value.detalles| > 0 && informe.value.detalles[0].archivoUrl != "" ==>
      t == LastSegment(informe.value.detalles[0].archivoUrl)
    ensures archivoFile.None? && (informe.None? || |informe.value.detalles| == 0 || informe.value.detalles[0].archivoUrl == "") ==>
      t == "PDF o DOCX de hasta 10MB"
  {
    if archivoFile.Some? then archivoFile.value.name
    else if informe.Some? && |informe.value.detalles| > 0 && informe.value.detalles[0].archivoUrl != "" then
      LastSegment(informe.value.detalles[0].archivoUrl)
    else "PDF o DOCX de hasta 10MB"
  }

  /** What a submit did: refused for want of a user, or called `onSubmit` with these arguments. */
  datatype SubmitEffect =
    | NoUserAlert
    | Submitted(informeData: InformeData, detalleData: DetalleData, desde: Option<Date>, hasta: Option<Date>, closed: bool)

  /** The modal's form state. */
  class InformeModalState {
    var titulo: string
    var descripcion: string
    var archivoFile: Option<File>
    var reportStartDate: Option<Date>
    var reportEndDate: Option<Date>
    var submitting: bool

    constructor ()
      ensures titulo == "" && descripcion == "" && archivoFile == None
      ensures reportStartDate == None && reportEndDate == None && !submitting
    {
      titulo, descripcion, archivoFile := "", "", None;
      reportStartDate, reportEndDate, submitting := None, None, false;
    }

    /**
      The open effect. With a report: its title, its first detail's
      description (or ''), both dates cleared; the chosen file is kept.
      Without one: every field is reset. Closed: nothing changes.
     */
    method OnOpen(isOpen: bool, informe: Option<Informe>)
      modifies this`titulo, this`descripcion, this`archivoFile, this`reportStartDate, this`reportEndDate
      ensures !isOpen ==>
        && titulo == old(titulo) && descripcion == old(descripcion) && archivoFile == old(archivoFile)
        && reportStartDate == old(reportStartDate) && reportEndDate == old(reportEndDate)
      ensures isOpen && informe.Some? ==>
        && titulo == informe.value.titulo
        && descripcion == (if |informe.value.detalles| > 0 then informe.value.detalles[0].descripcion else "")
        && archivoFile == old(archivoFile)
      ensures isOpen && informe.None? ==> titulo == "" && descripcion == "" && archivoFile == None
      ensures isOpen ==> reportStartDate == None && reportEndDate == None
    {
      if isOpen && informe.Some? {
        titulo := informe.value.titulo;
        descripcion := if |informe.value.detalles| > 0 then informe.value.detalles[0].descripcion else "";
        reportStartDate, reportEndDate := None, None;
      } else if isOpen {
        titulo, descripcion, archivoFile := "", "", None;
        reportStartDate, reportEndDate := None, None;
      }
    }

    /** The start-date input: the same guard as on the reports page. */
    method SetReportStartDate(value: Option<Date>)
      modifies this`reportStartDate, this`reportEndDate
      ensures (reportStartDate, reportEndDate) == Informes.ChangeStartDate(old(reportStartDate), old(reportEndDate), value)
    {
      var next := Informes.ChangeStartDate(reportStartDate, reportEndDate, value);
      reportStartDate, reportEndDate := next.0, next.1;
    }

    /**
      `handleSubmit`: without a user, only an alert. Otherwise `onSubmit` is
      called with the two payloads and the dates; `onClose` follows only if
      it resolves (`onSubmitResolves`); `submitting` ends false either way.
     */
    method HandleSubmit(currentUserId: Option<string>, informe: Option<Informe>, onSubmitResolves: bool) returns (e: SubmitEffect)
      modifies this`submitting
      ensures e.NoUserAlert? <==> !Truthy(currentUserId)
      ensures e.NoUserAlert? ==> submitting == old(submitting)
      ensures e.Submitted? ==>
        && e.informeData == BuildInformeData(informe, currentUserId.value, titulo)
        && e.detalleData == BuildDetalleData(informe, descripcion, archivoFile)
        && e.desde == reportStartDate && e.hasta == reportEndDate
        && (e.closed <==> onSubmitResolves)
        && !submitting
    {
      if !Truthy(currentUserId) {
        return NoUserAlert;
      }
      submitting := true;
      var informeData := BuildInformeData(informe, currentUserId.value, titulo);
      var detalleData := BuildDetalleData(informe, descripcion, archivoFile);
      e := Submitted(informeData, detalleData, reportStartDate, reportEndDate, onSubmitResolves);
      submitting := false;
    }
  }

  /**
    Opening the modal on a report after a file was chosen for another keeps
    that file: the payload then carries the stale file into the edit.
   */
  method StaleFileOnEdit(f: File, i: Informe, userId: string) returns (e: SubmitEffect)
    requires userId != ""
    ensures e.Submitted? && e.detalleData.archivoFile == Some(f)
  {
    var modal := new InformeModalState();
    modal.archivoFile := Some(f);
    modal.OnOpen(true, Some(i));
    e := modal.HandleSubmit(Some(userId), Some(i), true);
  }
}
