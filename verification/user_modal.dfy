/**
  The user modal, shared by create and edit: a form record reset whenever
  the modal opens or its user changes, updated one field at a time, and
  handed unchanged to the parent on submit.
 */
module UserModal {
  import opened Js
  import opened Interfaces

  /** The form's fields, named as the inputs' `name` attributes. */
  datatype Field = IdRol | Nombre | Apellido | Correo | Cedula | Contrasena

  function Name(f: Field): string {
    match f
    case IdRol => "idRol"
    case Nombre => "nombre"
    case Apellido => "apellido"
    case Correo => "correo"
    case Cedula => "cedula"
    case Contrasena => "contrasena"
  }

  /**
    The form record. The fields a new form does not have (`idUsuario`,
    `contrasenaActualizada`) are `None` there; editing copies them from the
    user.
   */
  datatype UserForm = UserForm(
    idUsuario: Option<int>,
    idRol: Num,
    nombre: string,
    apellido: string,
    correo: string,
    cedula: string,
    contrasena: string,
    contrasenaActualizada: Option<bool>)

  /** The text held by one of the text fields. */
  function TextOf(form: UserForm, f: Field): string
    requires f != IdRol
  {
    match f
    case Nombre => form.nombre
    case Apellido => form.apellido
    case Correo => form.correo
    case Cedula => form.cedula
    case Contrasena => form.contrasena
  }

  /** The empty form of the create mode. */
  function EmptyForm(): (form: UserForm)
    ensures form.idRol == Int(0) && form.idUsuario.None? && form.contrasenaActualizada.None?
    ensures forall f :: f != IdRol ==> TextOf(form, f) == ""
  {
    UserForm(None, Int(0), "", "", "", "", "", None)
  }

  /** `{...user, contrasena: user.contrasena || ''}`. */
  function FormOf(u: Usuario): (form: UserForm)
    ensures form.idUsuario == Some(u.idUsuario) && form.idRol == Int(u.idRol)
    ensures form.nombre == u.nombre && form.apellido == u.apellido
    ensures form.correo == u.correo && form.cedula == u.cedula
    ensures form.contrasena == if Truthy(u.contrasena) then u.contrasena.value else ""
    ensures form.contrasenaActualizada == Some(u.contrasenaActualizada)
  {
    UserForm(Some(u.idUsuario), Int(u.idRol), u.nombre, u.apellido, u.correo, u.cedula,
      if Truthy(u.contrasena) then u.contrasena.value else "", Some(u.contrasenaActualizada))
  }

  /**
    `handleChange`: `idRol` takes `parseInt(value)`, any other field the raw
    string; no other field changes.
   */
  function Changed(form: UserForm, f: Field, value: string): (r: UserForm)
    ensures f == IdRol ==> r.idRol == ParseInt(value)
    ensures f != IdRol ==> TextOf(r, f) == value && r.idRol == form.idRol
    ensures forall g :: g != IdRol && g != f ==> TextOf(r, g) == TextOf(form, g)
    ensures r.idUsuario == form.idUsuario && r.contrasenaActualizada == form.contrasenaActualizada
  {
    match f
    case IdRol => form.(idRol := ParseInt(value))
    case Nombre => form.(nombre := value)
    case Apellido => form.(apellido := value)
    case Correo => form.(correo := value)
    case Cedula => form.(cedula := value)
    case Contrasena => form.(contrasena := value)
  }

  /** Opening on a user and submitting unchanged sends back that user (with `''` for a missing password). */
  lemma EditRoundTrip(u: Usuario)
    requires Truthy(u.contrasena)
    ensures var form := FormOf(u);
      Usuario(form.idUsuario.value, form.idRol.n, form.nombre, form.apellido, form.correo, form.cedula,
        Some(form.contrasena), form.contrasenaActualizada.value) == u
  {
  }

  /** What the modal renders when open. */
  datatype View = View(title: string, cedulaDisabled: bool, passwordRequired: bool)

  /** Nothing when closed; in edit mode the cédula is locked and the password optional. */
  function Render(isOpen: bool, user: Option<Usuario>): (v: Option<View>)
    ensures v.None? <==> !isOpen
    ensures v.Some? ==> (v.value.cedulaDisabled <==> user.Some?) && (v.value.passwordRequired <==> user.None?)
    ensures v.Some? ==> v.value.title == if user.Some? then "Editar Usuario" else "Crear Nuevo Usuario"
  {
    if !isOpen then None
    else Some(View(if user.Some? then "Editar Usuario" else "Crear Nuevo Usuario", user.Some?, user.None?))
  }

  class UserModalState {
    var formData: UserForm

    constructor ()
      ensures formData == EmptyForm()
    {
      formData := EmptyForm();
    }

    /**
      The reset effect, run whenever `isOpen` or `user` changes (closing
      included): the user's fields, or the empty form.
     */
    method Reset(user: Option<Usuario>)
      modifies this
      ensures user.Some? ==> formData == FormOf(user.value)
      ensures user.None? ==> formData == EmptyForm()
    {
      if user.Some? {
        formData := FormOf(user.value);
      } else {
        formData := EmptyForm();
      }
    }

    method HandleChange(f: Field, value: string)
      modifies this
      ensures formData == Changed(old(formData), f, value)
    {
      formData := Changed(formData, f, value);
    }

    /** `handleSubmit`: the form goes to `onSubmit` as it is; the modal does not close itself. */
    method HandleSubmit() returns (submitted: UserForm, closed: bool)
      ensures submitted == formData && !closed
    {
      submitted, closed := formData, false;
    }
  }
}
