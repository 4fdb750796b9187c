/** The login page (`Login`): its schema, and what a submit does with the
    store's `login`: move to "/usuarios" on success, or show an alert. */
module Login {
  import opened JsValues
  import opened AuthContext
  import App

  datatype LoginField = LoginEmail | LoginPassword

  const InvalidEmail: string := "Correo inválido"
  const ShortPassword: string := "Mínimo 6 caracteres"
  const LoginFailed: string := "Error al iniciar sesión"

  /** The schema: the e-mail must pass `isEmail`, the password needs six
      characters; each failing field carries its message. */
  function Validate(email: string, password: string, isEmail: string -> bool): (errors: map<LoginField, string>)
    ensures LoginEmail in errors <==> !isEmail(email)
    ensures LoginPassword in errors <==> |password| < 6
    ensures LoginEmail in errors ==> errors[LoginEmail] == InvalidEmail
    ensures LoginPassword in errors ==> errors[LoginPassword] == ShortPassword
  {
    var e0: map<LoginField, string> := map[];
    var e1 := if !isEmail(email) then e0[LoginEmail := InvalidEmail] else e0;
    if |password| < 6 then e1[LoginPassword := ShortPassword] else e1
  }

  /** The alert of a failed login: the response's message, the error's
      message, or "Error al iniciar sesión". */
  function AlertText(e: JsError): (text: string)
    ensures text != ""
  {
    ErrorText(e, LoginFailed)
  }

  /** A rejected credential is reported with the store's own words. */
  lemma RejectedLoginAlert()
    ensures AlertText(InvalidCredentials) == "Credenciales inválidas"
  {
  }

  /** A press of "Ingresar". Invalid values only show their errors and
      never reach the store. Valid ones call `login`: on success the page
      moves to "/usuarios" (which a non-administrator sees as the forbidden
      notice), on failure it stays and alerts the error's message. */
  method Submit(store: AuthProvider, email: string, password: string, isEmail: string -> bool, reply: MeReply)
    returns (errors: map<LoginField, string>, navigate: Option<string>, alert: Option<string>)
    requires store.Valid()
    modifies store
    ensures store.Valid()
    ensures errors == Validate(email, password, isEmail)
    ensures errors != map[] ==> navigate == None && alert == None && unchanged(store)
    ensures errors == map[] ==> (navigate.Some? <==> Credential(email, password).Some? && reply.MeOk?)
    ensures errors == map[] ==> store.stored == old(store.stored)
    ensures errors == map[] && navigate.Some? ==>
      navigate == Some("/usuarios") && alert == None && store.IsAuthenticated() &&
      store.basic == Credential(email, password) && store.user == Some(IdentityOf(reply.data)) &&
      App.Render("/usuarios", store.IsAuthenticated(), store.user) ==
        (if App.IsAdmin(store.user) then App.UsersScreen else App.ForbiddenScreen)
    ensures errors == map[] && navigate.None? ==>
      store.basic == old(store.basic) && store.user == old(store.user) && store.stored == old(store.stored) &&
      alert == Some(AlertText(if Credential(email, password).None? then InvalidCharacter else InvalidCredentials))
  {
    errors := Validate(email, password, isEmail);
    if errors != map[] {
      return errors, None, None;
    }
    var err := store.Login(email, password, reply);
    if err.None? {
      navigate, alert := Some("/usuarios"), None;
      App.UsersScreenIffAdmin(store.user);
    } else {
      navigate, alert := None, Some(AlertText(err.value));
    }
  }
}
