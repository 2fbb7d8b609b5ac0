/**
  The create-maintenance modal: a form record updated one field at a time
  by a single change handler, and handed unchanged to the parent on submit.
 */
module MaintenanceModal {
  import opened Js
  import opened Interfaces

  /** The form's fields, named as the inputs' `name` attributes. */
  datatype Field =
    | IdUsuario | IdParqueadero | IdTipoMantenimiento | IdInforme
    | FechaInicio | FechaFin | Observaciones | Estado

  function Name(f: Field): string {
    match f
    case IdUsuario => "idUsuario"
    case IdParqueadero => "idParqueadero"
    case IdTipoMantenimiento => "idTipoMantenimiento"
    case IdInforme => "idInforme"
    case FechaInicio => "fechaInicio"
    case FechaFin => "fechaFin"
    case Observaciones => "observaciones"
    case Estado => "estado"
  }

  /** `name.startsWith('id')`. */
  predicate StartsWithId(name: string) {
    |name| >= 2 && name[..2] == "id"
  }

  /** The fields that hold numbers. */
  predicate IsIdField(f: Field) {
    f.IdUsuario? || f.IdParqueadero? || f.IdTipoMantenimiento? || f.IdInforme?
  }

  /** The name prefix picks out exactly the numeric fields. */
  lemma IdPrefixMeansNumeric(f: Field)
    ensures StartsWithId(Name(f)) <==> IsIdField(f)
  {
    match f
    case FechaInicio => assert Name(f)[0] == 'f';
    case FechaFin => assert Name(f)[0] == 'f';
    case Observaciones => assert Name(f)[0] == 'o';
    case Estado => assert Name(f)[0] == 'e';
    case _ =>
  }

  /** The value one field holds. */
  datatype FieldValue = Number(num: Num) | Text(text: string)

  /** The form record: the maintenance without its server-side fields. */
  datatype MaintenanceForm = MaintenanceForm(
    idUsuario: Num,
    idParqueadero: Num,
    idTipoMantenimiento: Num,
    idInforme: Num,
    fechaInicio: string,
    fechaFin: string,
    observaciones: string,
    estado: string)

  function Get(form: MaintenanceForm, f: Field): (v: FieldValue)
    ensures v.Number? <==> IsIdField(f)
  {
    match f
    case IdUsuario => Number(form.idUsuario)
    case IdParqueadero => Number(form.idParqueadero)
    case IdTipoMantenimiento => Number(form.idTipoMantenimiento)
    case IdInforme => Number(form.idInforme)
    case FechaInicio => Text(form.fechaInicio)
    case FechaFin => Text(form.fechaFin)
    case Observaciones => Text(form.observaciones)
    case Estado => Text(form.estado)
  }

  /** `{...prev, [name]: v}`. */
  function Set(form: MaintenanceForm, f: Field, v: FieldValue): (r: MaintenanceForm)
    requires v.Number? <==> IsIdField(f)
    ensures Get(r, f) == v
    ensures forall g :: g != f ==> Get(r, g) == Get(form, g)
  {
    match f
    case IdUsuario => form.(idUsuario := v.num)
    case IdParqueadero => form.(idParqueadero := v.num)
    case IdTipoMantenimiento => form.(idTipoMantenimiento := v.num)
    case IdInforme => form.(idInforme := v.num)
    case FechaInicio => form.(fechaInicio := v.text)
    case FechaFin => form.(fechaFin := v.text)
    case Observaciones => form.(observaciones := v.text)
    case Estado => form.(estado := v.text)
  }

  /**
    `handleChange`: the named field takes `parseInt(value)` when its name
    starts with "id" and the raw string otherwise; no other field changes.
   */
  function Changed(form: MaintenanceForm, f: Field, value: string): (r: MaintenanceForm)
    ensures StartsWithId(Name(f)) ==> Get(r, f) == Number(ParseInt(value))
    ensures !StartsWithId(Name(f)) ==> Get(r, f) == Text(value)
    ensures forall g :: g != f ==> Get(r, g) == Get(form, g)
  {
    IdPrefixMeansNumeric(f);
    Set(form, f, if StartsWithId(Name(f)) then Number(ParseInt(value)) else Text(value))
  }

  /** The initial form: every id 0, every text empty, the state 'Pendiente'. */
  function InitialForm(): (form: MaintenanceForm)
    ensures forall f :: IsIdField(f) ==> Get(form, f) == Number(Int(0))
    ensures forall f :: !IsIdField(f) && f != Estado ==> Get(form, f) == Text("")
    ensures form.estado == Pendiente
  {
    MaintenanceForm(Int(0), Int(0), Int(0), Int(0), "", "", "", Pendiente)
  }

  /** The states the `estado` select offers. */
  const EstadoOptions: seq<string> := [Pendiente, Completado, Cancelado]

  /** An option of a select: its value and its text. */
  datatype SelectOption = SelectOption(value: string, text: string)

  /**
    The user select: a placeholder with the empty value, then one option
    per user whose value is the user's `idRol`.
   */
  function UserOptions(users: seq<Usuario>): (os: seq<SelectOption>)
    ensures |os| == |users| + 1 && os[0].value == ""
    ensures forall i :: 0 <= i < |users| ==>
      os[i + 1] == SelectOption(IntToDecimal(users[i].idRol), users[i].nombre + " " + users[i].apellido)
  {
    [SelectOption("", "Seleccione un usuario")] +
      seq(|users|, i requires 0 <= i < |users| => SelectOption(IntToDecimal(users[i].idRol), users[i].nombre + " " + users[i].apellido))
  }

  /**
    Choosing a user stores that user's role id, not the user's id, as the
    maintenance's `idUsuario`; the placeholder stores NaN.
   */
  lemma ChosenUserStoresRoleId(form: MaintenanceForm, users: seq<Usuario>, i: nat)
    requires i < |users|
    ensures Changed(form, IdUsuario, UserOptions(users)[i + 1].value).idUsuario == Int(users[i].idRol)
    ensures Changed(form, IdUsuario, UserOptions(users)[0].value).idUsuario == NaN
  {
    ParseIntOfDecimal(users[i].idRol);
    assert Get(Changed(form, IdUsuario, UserOptions(users)[i + 1].value), IdUsuario) == Number(Int(users[i].idRol));
  }

  class MaintenanceModalState {
    var formData: MaintenanceForm

    /** The state is one of the select's options. */
    ghost predicate Valid()
      reads this
    {
      formData.estado in EstadoOptions
    }

    constructor ()
      ensures formData == InitialForm() && Valid()
    {
      formData := InitialForm();
    }

    /** A change event; the `estado` select only ever reports one of its options. */
    method HandleChange(f: Field, value: string)
      requires Valid()
      requires f == Estado ==> value in EstadoOptions
      modifies this
      ensures formData == Changed(old(formData), f, value)
      ensures Valid()
    {
      formData := Changed(formData, f, value);
      assert Get(formData, Estado) == Get(old(formData), Estado) || f == Estado;
    }

    /** `handleSubmit`: the form goes to `onSubmit` as it is, then the modal closes. */
    method HandleSubmit() returns (submitted: MaintenanceForm, closed: bool)
      ensures submitted == formData && closed
    {
      submitted, closed := formData, true;
    }
  }
}
