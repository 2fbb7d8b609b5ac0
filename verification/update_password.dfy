/**
  The forced password change: the form checks the two inputs, then sends the
  new password for the user in the session cookie, and on success drops the
  `requiresPasswordUpdate` cookie and goes to the home page.
 */
module UpdatePassword {
  import opened Js

  const BothRequired := "Ambos campos son obligatorios"
  const Mismatch := "Las contraseñas no coinciden"
  const TooShort := "La contraseña debe tener al menos 8 caracteres"
  const SessionExpired := "Sesión expirada. Redirigiendo..."
  const UpdateFallback := "Error al actualizar la contraseña"
  const MinLength := 8

  /**
    The answer to the PUT: accepted; refused (not OK) with the `message` of
    its JSON body, if truthy; or a thrown error (network failure, unreadable
    body) with its message.
   */
  datatype PutReply = Accepted | Refused(message: Option<string>) | Failed(reason: string)

  datatype PasswordBody = PasswordBody(contrasena: string, contrasenaActualizada: bool)

  /** `PUT /api/Usuarios/{userId}` with its JSON body. */
  datatype PutRequest = PutRequest(userId: string, body: PasswordBody)

  /** Cookie and router effects, in the order they happen. */
  datatype Effect = RemoveCookie(name: string) | Navigate(path: string) | NavigateLater(path: string, delayMs: nat)

  /**
    The checks before any request, in the order the form makes them: both
    fields filled, equal, at least eight characters long.
   */
  function ValidationError(newPassword: string, confirmPassword: string): (r: Option<string>)
    ensures r.None? <==> newPassword != "" && newPassword == confirmPassword && |newPassword| >= MinLength
    ensures newPassword == "" || confirmPassword == "" ==> r == Some(BothRequired)
    ensures newPassword != "" && confirmPassword != "" && newPassword != confirmPassword ==> r == Some(Mismatch)
    ensures newPassword != "" && newPassword == confirmPassword && |newPassword| < MinLength ==> r == Some(TooShort)
  {
    if newPassword == "" || confirmPassword == "" then Some(BothRequired)
    else if newPassword != confirmPassword then Some(Mismatch)
    else if |newPassword| < MinLength then Some(TooShort)
    else None
  }

  /** The message shown when the PUT does not succeed. */
  function FailureText(reply: PutReply): (t: string)
    requires !reply.Accepted?
    ensures reply.Refused? && Truthy(reply.message) ==> t == reply.message.value
    ensures reply.Refused? && !Truthy(reply.message) ==> t == UpdateFallback
    ensures reply.Failed? ==> t == reply.reason
    ensures reply.Refused? ==> t != ""
  {
    match reply
    case Refused(m) => if Truthy(m) then m.value else UpdateFallback
    case Failed(m) => m
  }

  /** `type` of both inputs. */
  function InputType(showPassword: bool): (t: string)
    ensures t == "text" <==> showPassword
    ensures t == "password" <==> !showPassword
  {
    if showPassword then "text" else "password"
  }

  class UpdatePasswordPage {
    var newPassword: string
    var confirmPassword: string
    var error: string
    var isLoading: bool
    var showPassword: bool

    constructor ()
      ensures newPassword == "" && confirmPassword == "" && error == ""
      ensures !isLoading && !showPassword
    {
      newPassword, confirmPassword, error := "", "", "";
      isLoading, showPassword := false, false;
    }

    method SetNewPassword(value: string)
      modifies this`newPassword
      ensures newPassword == value
    {
      newPassword := value;
    }

    method SetConfirmPassword(value: string)
      modifies this`confirmPassword
      ensures confirmPassword == value
    {
      confirmPassword := value;
    }

    /** The eye button: shows or hides both passwords. */
    method ToggleShowPassword()
      modifies this`showPassword
      ensures showPassword == !old(showPassword)
    {
      showPassword := !showPassword;
    }

    /**
      `handleSubmit`. A failed check shows its message and sends nothing. A
      missing session shows the expiry message, schedules the redirect to
      the login page and leaves `isLoading` set. Otherwise exactly one PUT
      carries the checked password; on success the cookie is removed and the
      page moves home, on failure its message is shown; `isLoading` ends
      false.
     */
    method HandleSubmit(userIdCookie: Option<string>, reply: PutReply) returns (sent: Option<PutRequest>, effects: seq<Effect>)
      modifies this`error, this`isLoading
      ensures ValidationError(newPassword, confirmPassword).Some? ==>
        && error == ValidationError(newPassword, confirmPassword).value
        && !isLoading && sent.None? && effects == []
      ensures ValidationError(newPassword, confirmPassword).None? && !Truthy(userIdCookie) ==>
        && error == SessionExpired && isLoading
        && sent.None? && effects == [NavigateLater("/login", 2000)]
      ensures ValidationError(newPassword, confirmPassword).None? && Truthy(userIdCookie) ==>
        sent == Some(PutRequest(userIdCookie.value, PasswordBody(newPassword, true))) && !isLoading
      ensures sent.Some? ==> |sent.value.body.contrasena| >= MinLength && sent.value.body.contrasena == confirmPassword
      ensures sent.Some? && reply.Accepted? ==>
        error == "" && effects == [RemoveCookie("requiresPasswordUpdate"), Navigate("/?passwordUpdated=true")]
      ensures sent.Some? && !reply.Accepted? ==> error == FailureText(reply) && effects == []
    {
      isLoading := true;
      error := "";
      sent, effects := None, [];
      var invalid := ValidationError(newPassword, confirmPassword);
      if invalid.Some? {
        error := invalid.value;
        isLoading := false;
        return;
      }
      if !Truthy(userIdCookie) {
        error := SessionExpired;
        effects := [NavigateLater("/login", 2000)];
        return;
      }
      sent := Some(PutRequest(userIdCookie.value, PasswordBody(newPassword, true)));
      if reply.Accepted? {
        effects := [RemoveCookie("requiresPasswordUpdate"), Navigate("/?passwordUpdated=true")];
      } else {
        error := FailureText(reply);
      }
      isLoading := false;
    }
  }
}
