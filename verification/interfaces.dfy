/**
  The records the pages exchange with the backend. Field names follow the
  TypeScript interfaces. Date-time strings are modelled as parsed
  `Timestamp`s; an empty `fechaFin` is `None`. The second declaration of
  `DetalleInforme` (with `idDetalleInforme` and `estaEliminado`) is the one
  used, as the two TypeScript declarations merge.
 */
module Interfaces {
  import opened Js
  import opened Gregorian

  const Completado := "Completado"
  const Pendiente := "Pendiente"
  const Cancelado := "Cancelado"
  const Generado := "Generado"

  /** A log entry of a maintenance. */
  datatype Bitacora = Bitacora(
    idBitacora: int,
    idMantenimiento: int,
    fechaHora: string,
    descripcion: string,
    imagenUrl: string,
    estaEliminado: bool,
    fechaCreacion: string,
    fechaModificacion: string)

  /** A scheduled maintenance of a parking lot. */
  datatype Mantenimiento = Mantenimiento(
    idMantenimiento: int,
    idUsuario: int,
    idParqueadero: int,
    idTipoMantenimiento: int,
    idInforme: int,
    fechaInicio: Timestamp,
    fechaCreacion: string,
    fechaFin: Option<Timestamp>,
    observaciones: string,
    estado: string,
    estaEliminado: bool,
    fechaModificacion: string,
    bitacoras: seq<Bitacora>)

  /** The descriptive attachment of a report. */
  datatype DetalleInforme = DetalleInforme(
    idDetalleInforme: int,
    idInforme: int,
    descripcion: string,
    archivoUrl: string,
    estaEliminado: bool,
    fechaCreacion: string,
    fechaModificacion: string)

  /** A report header with its details. */
  datatype Informe = Informe(
    idInforme: int,
    idUsuario: int,
    titulo: string,
    estado: string,
    fechaCreacion: string,
    detalles: seq<DetalleInforme>,
    estaEliminado: bool)

  /** A user account as the pages read it. */
  datatype Usuario = Usuario(
    idUsuario: int,
    idRol: int,
    nombre: string,
    apellido: string,
    correo: string,
    cedula: string,
    contrasena: Option<string>,
    contrasenaActualizada: bool)

  datatype Parqueadero = Parqueadero(idParqueadero: int, nombre: string)

  datatype TipoMantenimiento = TipoMantenimiento(idTipo: int, nombre: string)

  /** A file chosen in a file input. */
  datatype File = File(name: string)

  /** The failure of a backend call: the server's `message`, if any, and the error's own message. */
  datatype ApiError = ApiError(responseMessage: Option<string>, message: string)

  /** The outcome of a backend call. */
  datatype Result<+T> = Ok(value: T) | Err(error: ApiError)

  /**
    `error.response?.data?.message || error.message || fallback`: the text a
    page shows for a failed call.
   */
  function ErrorText(e: ApiError, fallback: string): (t: string)
    ensures Truthy(e.responseMessage) ==> t == e.responseMessage.value
    ensures !Truthy(e.responseMessage) && e.message != "" ==> t == e.message
    ensures !Truthy(e.responseMessage) && e.message == "" ==> t == fallback
    ensures fallback != "" ==> t != ""
  {
    if Truthy(e.responseMessage) then e.responseMessage.value
    else if e.message != "" then e.message
    else fallback
  }
}
