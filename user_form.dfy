/** The user editor (`UserForm`): the form schema with its create-only
    password rule, the defaults the form is reset to, the role options
    loaded from `/roles`, the payload sent on submit and the mapping of a
    rejected save onto a field error or an alert. Server replies are inputs;
    the e-mail check of the schema library is the parameter `isEmail`. */
module UserForm {
  import opened JsValues
  import opened JsStrings
  import opened JsNumbers

  /** A role as the server sends it. */
  datatype RoleRecord = RoleRecord(id: Option<int>, nombre: Option<string>, name: Option<string>)

  /** A user as the server sends it; the fields the client reads, each of
      them possibly missing. */
  datatype UserRecord = UserRecord(
    id: Option<int>, nombre: Option<string>, name: Option<string>,
    email: Option<string>, correo: Option<string>, roles: Option<seq<RoleRecord>>)

  /** The empty object `{}` the list page opens the editor with for a new user. */
  const NewUser: UserRecord := UserRecord(None, None, None, None, None, None)

  /** `!!initial?.id`: the editor edits when the record has a truthy id
      (so an id of 0 means a new user). */
  predicate IsEdit(initial: UserRecord) {
    initial.id.Some? && initial.id.value != 0
  }

  datatype Field = NombreField | EmailField | PasswordField | RolIdField

  /** The form's values as strings (`password` may be undefined). */
  datatype FormValues = FormValues(nombre: string, email: string, password: Option<string>, rolId: string)

  const Required: string := "Requerido"
  const InvalidEmail: string := "Correo inválido"
  const ShortPassword: string := "Mínimo 6 caracteres"
  const PickRole: string := "Selecciona un rol"
  const DuplicateEmail: string := "El correo ya está registrado"
  const SaveFailed: string := "Error al guardar"

  /** The schema and its refinement: every failing field with its message.
      The name needs two characters (counted before trimming), the e-mail
      must pass `isEmail`, a role must be chosen, and only when creating the
      password must be present with at least six characters. */
  function Validate(values: FormValues, isEdit: bool, isEmail: string -> bool): (errors: map<Field, string>)
    ensures NombreField in errors <==> |values.nombre| < 2
    ensures EmailField in errors <==> !isEmail(values.email)
    ensures RolIdField in errors <==> values.rolId == ""
    ensures PasswordField in errors <==> !isEdit && (!Truthy(values.password) || |values.password.value| < 6)
    ensures NombreField in errors ==> errors[NombreField] == Required
    ensures EmailField in errors ==> errors[EmailField] == InvalidEmail
    ensures RolIdField in errors ==> errors[RolIdField] == PickRole
    ensures PasswordField in errors ==> errors[PasswordField] == ShortPassword
  {
    var e0: map<Field, string> := map[];
    var e1 := if |values.nombre| < 2 then e0[NombreField := Required] else e0;
    var e2 := if !isEmail(values.email) then e1[EmailField := InvalidEmail] else e1;
    var e3 := if |values.rolId| < 1 then e2[RolIdField := PickRole] else e2;
    if !isEdit && (!Truthy(values.password) || |values.password.value| < 6) then e3[PasswordField := ShortPassword]
    else e3
  }

  /** Creating with a password of five characters is refused before any
      request; with six (and the other fields valid) the form is valid. */
  lemma CreatePasswordBoundary(nombre: string, email: string, rolId: string, isEmail: string -> bool)
    requires |nombre| >= 2 && isEmail(email) && rolId != ""
    ensures PasswordField in Validate(FormValues(nombre, email, Some("12345"), rolId), false, isEmail)
    ensures Validate(FormValues(nombre, email, Some("123456"), rolId), false, isEmail) == map[]
    ensures Validate(FormValues(nombre, email, None, rolId), true, isEmail) == map[]
  {
    var ok := Validate(FormValues(nombre, email, Some("123456"), rolId), false, isEmail);
    assert ok.Keys == {};
    var edit := Validate(FormValues(nombre, email, None, rolId), true, isEmail);
    assert edit.Keys == {};
  }

  /** The name is measured before it is trimmed: two spaces and a letter
      pass the two-character rule, although only one letter is sent. */
  lemma NameCheckedBeforeTrim()
    ensures NombreField !in Validate(FormValues("  a", "", None, ""), true, _ => true)
    ensures Trim("  a") == "a"
  {
    assert IsWhiteSpace(' ') && !IsWhiteSpace('a');
    assert "  a"[1..] == " a" && " a"[1..] == "a";
    assert TrimStart("a") == "a" && TrimEnd("a") == "a";
    assert TrimStart("  a") == TrimStart(" a") == TrimStart("a");
  }

  /** A role reference of the payload: `{ id: Number(rolId) }` (None is NaN). */
  datatype RoleRef = RoleRef(id: Option<int>)

  /** The body of a create or update request. */
  datatype Payload = Payload(nombre: string, email: string, roles: seq<RoleRef>, password: Option<string>)

  /** The request a submit issues. */
  datatype ApiCall = CreateUser(payload: Payload) | UpdateUser(id: Option<int>, payload: Payload)

  /** The reply to that request. */
  datatype SaveReply = SaveOk | SaveFailed(error: JsError)

  /** What the form does after the request. */
  datatype SaveOutcome = Saved | FieldError(field: Field, message: string) | Alerted(message: string)

  /** A rejected save: a conflict (status 409, or "duplicate" in any case in
      the message) marks the e-mail as taken; otherwise a status 400 whose
      message mentions "rol" in any case puts the message on the role
      field; anything else is an alert with the message. */
  function Classify(status: Option<int>, message: string): (o: SaveOutcome)
    ensures !o.Saved?
    ensures o.FieldError? && o.field == EmailField <==> status == Some(409) || ContainsIgnoringCase(message, "duplicate")
    ensures o.FieldError? && o.field == EmailField ==> o.message == DuplicateEmail
    ensures o.FieldError? && o.field == RolIdField <==>
      !(status == Some(409) || ContainsIgnoringCase(message, "duplicate")) && status == Some(400) && ContainsIgnoringCase(message, "rol")
    ensures o.FieldError? ==> o.field == EmailField || o.field == RolIdField
    ensures o.FieldError? && o.field == RolIdField ==> o.message == message
    ensures o.Alerted? ==> o.message == message
  {
    if status == Some(409) || ContainsIgnoringCase(message, "duplicate") then FieldError(EmailField, DuplicateEmail)
    else if status == Some(400) && ContainsIgnoringCase(message, "rol") then FieldError(RolIdField, message)
    else Alerted(message)
  }

  /** The outcome of a rejected save, its message taken from the response,
      the error, or the fallback "Error al guardar" in that order. */
  function FailureOutcome(e: JsError): (o: SaveOutcome)
    ensures !o.Saved?
    ensures e.status == Some(409) ==> o == FieldError(EmailField, DuplicateEmail)
    ensures o.FieldError? && o.field == RolIdField ==> e.status == Some(400) && o.message == ErrorText(e, SaveFailed)
    ensures o.Alerted? ==> o.message == ErrorText(e, SaveFailed) && o.message != ""
    ensures o.Alerted? && Truthy(e.responseMessage) ==> o.message == e.responseMessage.value
    ensures o.Alerted? && !Truthy(e.responseMessage) && !Truthy(e.message) ==> o.message == SaveFailed
  {
    Classify(e.status, ErrorText(e, SaveFailed))
  }

  /** The conflict rule is checked first: a 400 reply whose message speaks
      of a duplicate role still marks the e-mail, and a 409 does so
      whatever its message. */
  lemma ConflictCheckedFirst(message: string)
    ensures Classify(Some(400), "Duplicate rol") == FieldError(EmailField, DuplicateEmail)
    ensures Classify(Some(409), message) == FieldError(EmailField, DuplicateEmail)
  {
    assert MatchesAt("Duplicate rol", "duplicate", 0);
  }

  /** A 409 reply marks the e-mail as taken, whatever its messages. */
  lemma ConflictMarksEmail(e: JsError)
    requires e.status == Some(409)
    ensures FailureOutcome(e) == FieldError(EmailField, DuplicateEmail)
  {
  }

  /** The role rule is a substring test: a 400 reply whose message holds
      the letters "rol" and not "duplicate" lands on the role field, with
      its own words. */
  lemma RoleRuleForBadRequest(message: string)
    requires ContainsIgnoringCase(message, "rol") && !ContainsIgnoringCase(message, "duplicate")
    ensures Classify(Some(400), message) == FieldError(RolIdField, message)
  {
  }

  /** "Error de control" holds "rol" and so is a role error under 400. */
  lemma RoleRuleIsASubstringTest()
    ensures Classify(Some(400), "Error de control") == FieldError(RolIdField, "Error de control")
  {
    assert MatchesAt("rol", "rol", 0);
    ContainsIgnoringCaseWithin("Error de cont", "rol", "", "rol");
    assert "Error de cont" + "rol" + "" == "Error de control";
    NotContainedWithoutLetter("Error de control", "duplicate", 1);
    RoleRuleForBadRequest("Error de control");
  }

  /** Outside 400 and 409, a message without "duplicate" is only an alert,
      whatever it says about roles. */
  lemma AlertOutsideBadRequestAndConflict(status: Option<int>, message: string)
    requires status != Some(400) && status != Some(409) && !ContainsIgnoringCase(message, "duplicate")
    ensures Classify(status, message) == Alerted(message)
  {
  }

  /** "Rol inexistente" under 422 is such an alert. */
  lemma RoleRuleNeedsStatus400()
    ensures Classify(Some(422), "Rol inexistente") == Alerted("Rol inexistente")
  {
    NotContainedWithoutLetter("Rol inexistente", "duplicate", 1);
    AlertOutsideBadRequestAndConflict(Some(422), "Rol inexistente");
  }

  /** The request a submit issues, once the schema accepts the values: the
      payload has the name and e-mail trimmed, exactly one role
      `{id: Number(rolId)}` and the password always when creating but only
      a non-empty one when editing; it goes out as an update of
      `initial.id` or as a create. */
  function BuildCall(values: FormValues, initial: UserRecord): (call: ApiCall)
    ensures call.payload.nombre == Trim(values.nombre) && call.payload.email == Trim(values.email)
    ensures call.payload.roles == [RoleRef(ToNumber(values.rolId))]
    ensures !IsEdit(initial) ==> call.payload.password == values.password
    ensures IsEdit(initial) ==> call.payload.password == (if Truthy(values.password) then values.password else None)
    ensures call.UpdateUser? <==> IsEdit(initial)
    ensures call.UpdateUser? ==> call.id == initial.id
  {
    var password := if !IsEdit(initial) || Truthy(values.password) then values.password else None;
    var payload := Payload(Trim(values.nombre), Trim(values.email), [RoleRef(ToNumber(values.rolId))], password);
    if IsEdit(initial) then UpdateUser(initial.id, payload) else CreateUser(payload)
  }

  /** `onSubmit`: the payload is built field by field as the handler does,
      sent, and the reply decides the outcome. */
  method OnSubmit(values: FormValues, initial: UserRecord, reply: SaveReply) returns (call: ApiCall, outcome: SaveOutcome)
    ensures call == BuildCall(values, initial)
    ensures reply.SaveOk? ==> outcome == Saved
    ensures reply.SaveFailed? ==> outcome == FailureOutcome(reply.error)
  {
    var isEdit := IsEdit(initial);
    var payload := Payload(Trim(values.nombre), Trim(values.email), [RoleRef(ToNumber(values.rolId))], None);
    if !isEdit {
      payload := payload.(password := values.password);
    }
    if isEdit && Truthy(values.password) {
      payload := payload.(password := values.password);
    }
    if isEdit {
      call := UpdateUser(initial.id, payload);
    } else {
      call := CreateUser(payload);
    }
    match reply
    case SaveOk =>
      outcome := Saved;
    case SaveFailed(e) =>
      outcome := FailureOutcome(e);
  }

  /** The values the form is reset to from `initial`: its name and e-mail
      (or ""), an empty password and the first role's id as a string when
      that id is truthy (or ""). */
  function ResetValues(initial: UserRecord): (values: FormValues)
    ensures values.nombre == OrElse(initial.nombre, "") && values.email == OrElse(initial.email, "")
    ensures values.password == Some("")
    ensures values.rolId == "" <==>
      !(initial.roles.Some? && |initial.roles.value| > 0 && initial.roles.value[0].id.Some? && initial.roles.value[0].id.value != 0)
    ensures values.rolId != "" ==> values.rolId == IntToString(initial.roles.value[0].id.value)
  {
    var rolId :=
      if initial.roles.Some? && |initial.roles.value| > 0 && initial.roles.value[0].id.Some? && initial.roles.value[0].id.value != 0
      then IntToString(initial.roles.value[0].id.value)
      else "";
    FormValues(OrElse(initial.nombre, ""), OrElse(initial.email, ""), Some(""), rolId)
  }

  /** Submitting the reset values unchanged sends the user's first role
      again: the id printed into the form reads back as the same number. */
  lemma ResetRoleRoundTrip(initial: UserRecord)
    requires initial.roles.Some? && |initial.roles.value| > 0
    requires initial.roles.value[0].id.Some? && initial.roles.value[0].id.value != 0
    ensures ToNumber(ResetValues(initial).rolId) == initial.roles.value[0].id
  {
    ToNumberOfIntToString(initial.roles.value[0].id.value);
  }

  /** A record without a usable first role resets to no role, which the
      schema refuses until one is picked. */
  lemma ResetWithoutRoleNeedsPick(initial: UserRecord, isEmail: string -> bool)
    requires initial.roles.None? || initial.roles.value == []
    ensures Validate(ResetValues(initial), IsEdit(initial), isEmail)[RolIdField] == PickRole
  {
  }

  /** An option of the role picker. */
  datatype RoleOption = RoleOption(id: Option<int>, nombre: Option<string>)

  /** The body of the `/roles` reply: an array, or anything else. */
  datatype RolesData = RoleArray(entries: seq<RoleRecord>) | NotAnArray

  datatype RolesReply = RolesOk(data: RolesData) | RolesFailed

  /** `(Array.isArray(data) ? data : []).map(r => ({id: r.id, nombre: r.nombre ?? r.name}))`. */
  function RoleOptions(data: RolesData): (options: seq<RoleOption>)
    ensures data.NotAnArray? ==> options == []
    ensures data.RoleArray? ==> |options| == |data.entries|
    ensures data.RoleArray? ==> forall i :: 0 <= i < |options| ==>
      options[i].id == data.entries[i].id &&
      options[i].nombre == if data.entries[i].nombre.Some? then data.entries[i].nombre else data.entries[i].name
  {
    match data
    case NotAnArray => []
    case RoleArray(entries) =>
      seq(|entries|, i requires 0 <= i < |entries| =>
        RoleOption(entries[i].id, if entries[i].nombre.Some? then entries[i].nombre else entries[i].name))
  }

  /** `??` falls back only on a missing name: an empty `nombre` is kept. */
  lemma EmptyNombreIsKept(id: Option<int>, name: Option<string>)
    ensures RoleOptions(RoleArray([RoleRecord(id, Some(""), name)]))[0].nombre == Some("")
    ensures RoleOptions(RoleArray([RoleRecord(id, None, name)]))[0].nombre == name
  {
  }

  /** The editor's own state: the role options and the field errors. */
  class Form {
    const initial: UserRecord
    var roleOptions: seq<RoleOption>
    var errors: map<Field, string>

    constructor (initial: UserRecord)
      ensures this.initial == initial && roleOptions == [] && errors == map[]
    {
      this.initial := initial;
      roleOptions := [];
      errors := map[];
    }

    /** The effect that loads the role options; a failed request leaves
        them as they were. */
    method LoadRoles(reply: RolesReply)
      modifies this`roleOptions
      ensures reply.RolesOk? ==> roleOptions == RoleOptions(reply.data)
      ensures reply.RolesFailed? ==> roleOptions == old(roleOptions)
    {
      if reply.RolesOk? {
        roleOptions := RoleOptions(reply.data);
      }
    }

    /** A press of "Guardar": invalid values only show their errors and
        send nothing; valid ones send exactly one request, then either call
        `onSaved`, set one field error, or raise one alert. */
    method Submit(values: FormValues, isEmail: string -> bool, reply: SaveReply)
      returns (call: Option<ApiCall>, alert: Option<string>, saved: bool)
      modifies this`errors
      ensures Validate(values, IsEdit(initial), isEmail) != map[] ==>
        call == None && alert == None && !saved && errors == Validate(values, IsEdit(initial), isEmail)
      ensures Validate(values, IsEdit(initial), isEmail) == map[] ==>
        call == Some(BuildCall(values, initial)) && (saved <==> reply.SaveOk?)
      ensures Validate(values, IsEdit(initial), isEmail) == map[] && reply.SaveOk? ==> alert == None && errors == map[]
      ensures Validate(values, IsEdit(initial), isEmail) == map[] && reply.SaveFailed? ==>
        match FailureOutcome(reply.error)
        case FieldError(f, m) => alert == None && errors == map[f := m]
        case Alerted(m) => alert == Some(m) && errors == map[]
        case Saved => false
    {
      var invalid := Validate(values, IsEdit(initial), isEmail);
      if invalid != map[] {
        errors := invalid;
        return None, None, false;
      }
      errors := map[];
      var request, outcome := OnSubmit(values, initial, reply);
      call, alert, saved := Some(request), None, false;
      match outcome
      case Saved =>
        saved := true;
      case FieldError(f, m) =>
        errors := map[f := m];
      case Alerted(m) =>
        alert := Some(m);
    }
  }
}
