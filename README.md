# Admin client: authentication, route guard and user management

A Dafny model of the core of a small React administration client for a
user-management back end. The model covers:

- the authentication store (`AuthProvider`). It holds an HTTP Basic credential and keeps it in browser storage under the key "basic". It confirms the identity through `/auth/me` and exposes `login` and `logout`;
- the route guard (`ProtectedRoute`). It redirects to the login page, renders the guarded screen, or shows "No tienes permisos.";
- the application shell (`App`): the navigation bar and the route table;
- the home screen (`Home`);
- the login page (`Login`);
- the user list (`UsersPage`);
- the user editor (`UserForm`).

Four helper modules describe the JavaScript built-ins these decisions depend on:

- `JsValues`: null/undefined, truthiness, `||`, and the error shape a `catch` sees;
- `JsStrings`: `startsWith`, `trim`, and the case-insensitive `/x/i.test`;
- `JsNumbers`: `String(n)` and `Number(s)` on integers;
- `Base64`: `btoa`, which is the encoding of section 4 of RFC 4648. Its decoder is proved to invert it.

Things the client reads from outside become inputs of the model:

- every server reply;
- the answer of the confirmation dialog;
- the e-mail check of the schema library, as the parameter `isEmail`.

The alerts the client shows become outputs. Each asynchronous handler is one
atomic step. Where it matters, a step is split at its `await`: the store's
bootstrap effect is `BeginBootstrap` then `CompleteBootstrap`, and the list
page's `load` is `BeginLoad` then `FinishLoad`. The store and the two
stateful pages are classes whose methods update their fields. Everything else
is pure functions with lemmas.

Two facts about role names shape the guard:

- Only the user's roles lose their "ROLE_" prefix. `allowedRoles` is compared as written; see `ProtectedRoute.AllowedRolesComparedVerbatim`.
- Stripping removes exactly one leading "ROLE_", so it is not idempotent: "ROLE_ROLE_X" becomes "ROLE_X"; see `ProtectedRoute.StripRemovesOnePrefix`.

## Model

| member | source | states |
|---|---|---|
| AuthContext.RolesOf | src/modules/auth/AuthContext.jsx:23 | the roles extracted from `/auth/me` are all non-empty, and there are never more of them than authorities |
| AuthContext.RolesOfMembership | src/modules/auth/AuthContext.jsx:23 | a string is a role exactly when it is non-empty and some entry carries it as its authority |
| AuthContext.RolesOfAppend | src/modules/auth/AuthContext.jsx:23 | extraction keeps the server's order: it commutes with concatenation |
| AuthContext.RolesOfAllTruthy | src/modules/auth/AuthContext.jsx:39 | when every entry has a non-empty authority, nothing is dropped and the roles are those authorities in order |
| AuthContext.AuthoritiesOf | src/modules/auth/AuthContext.jsx:23 | `data?.authorities \|\| []`: the reply's authorities, or none for a null body or a missing list |
| AuthContext.IdentityOf | src/modules/auth/AuthContext.jsx:23-24 | the identity's e-mail is the reply's `username`, and its roles are exactly the non-empty authorities of the reply |
| AuthContext.Credential | src/modules/auth/AuthContext.jsx:34 | the credential exists exactly when `email:password` is Latin-1. It is never empty, and it decodes back to the bytes of `email:password` |
| AuthContext.AuthProvider.IsAuthenticated | src/modules/auth/AuthContext.jsx:53 | `!!basic`: a null credential and an empty one both mean signed out |
| AuthContext.AuthProvider.constructor | src/modules/auth/AuthContext.jsx:10-11 | the credential is read from storage and the identity starts as null |
| AuthContext.AuthProvider.BeginBootstrap | src/modules/auth/AuthContext.jsx:13-19 | without a credential, storage and identity are cleared and no query starts. With one, it is written to storage and the query starts |
| AuthContext.AuthProvider.CompleteBootstrap | src/modules/auth/AuthContext.jsx:20-30 | a reply is applied while the credential that started its query is still held. A good reply sets the identity from its username and authorities. A failure clears storage, identity and credential together. It keeps "no identity without a credential" |
| AuthContext.AuthProvider.Bootstrap | src/modules/auth/AuthContext.jsx:13-31 | the whole effect, for each of the three cases |
| AuthContext.AuthProvider.Login | src/modules/auth/AuthContext.jsx:33-45 | a non-Latin-1 input fails before any query. A rejected credential throws "Credenciales inválidas" and changes nothing. Success sets credential and identity and leaves storage to the bootstrap |
| AuthContext.AuthProvider.Logout | src/modules/auth/AuthContext.jsx:47-51 | storage, credential and identity are all cleared |
| AuthContext.LoginThenLogout | src/modules/auth/AuthContext.jsx:10-51 | signed out, the provider mounts and its first bootstrap clears storage. Then `login` and the bootstrap it triggers each get their own `/auth/me` reply. Storage holds the new credential exactly when both replies succeed, and nothing otherwise. The logout that follows leaves storage empty, no identity and the store unauthenticated |
| ProtectedRoute.UserRoles | src/modules/auth/ProtectedRoute.jsx:10 | `user?.roles \|\| []`: a null user has no roles, and otherwise the roles are the identity's |
| ProtectedRoute.HasAllowedRole | src/modules/auth/ProtectedRoute.jsx:11 | the `some`/`includes` walk over the user's stripped roles. An empty list on either side never admits |
| ProtectedRoute.StripRolePrefix | src/modules/auth/ProtectedRoute.jsx:10 | a leading "ROLE_" is removed, and a string without it is unchanged |
| ProtectedRoute.StripRemovesOnePrefix | src/modules/auth/ProtectedRoute.jsx:10 | stripping undoes exactly one prefix, so it is not idempotent |
| ProtectedRoute.HasAllowedRoleIff | src/modules/auth/ProtectedRoute.jsx:11 | the `some` over the roles holds exactly when some stripped role is in `allowedRoles` |
| ProtectedRoute.Guard | src/modules/auth/ProtectedRoute.jsx:5-13 | unauthenticated means a redirect to "/login". Authenticated with no required roles means the child renders. Otherwise the child renders exactly when some stripped role is required, and the forbidden notice shows if not |
| ProtectedRoute.AllowedRolesComparedVerbatim | src/modules/auth/ProtectedRoute.jsx:10-12 | "ROLE_ADMIN" is admitted by ["ADMIN"] but not by ["ROLE_ADMIN"], and "USER" is refused by ["ADMIN"] |
| ProtectedRoute.GuardWithoutIdentity | src/modules/auth/ProtectedRoute.jsx:10-12 | while the identity is still null, every route with required roles is forbidden |
| ProtectedRoute.GuardMonotone | src/modules/auth/ProtectedRoute.jsx:8-12 | more user roles, or more entries in a non-empty required list, never turn an admission into a denial |
| ProtectedRoute.GuardOrderFree | src/modules/auth/ProtectedRoute.jsx:10-11 | the order and repetition of roles on either side do not matter |
| App.NormalizeRole | src/App.jsx:14-17 | a string role loses one leading "ROLE_"; a role object is reduced to its first truthy field, then stripped the same way |
| App.NormalizeRoleAnchored | src/App.jsx:16 | `replace(/^ROLE_/, "")` removes at most one prefix, and only at the start |
| App.NormalizeRoleObject | src/App.jsx:16-17 | a role object is named by its first truthy `authority`, `nombre` or `name`, or by "" |
| App.NormalizeRoles | src/App.jsx:14-18 | one normalised name per entry, in order |
| App.IsAdmin | src/App.jsx:19 | `roles.includes("ADMIN")` on the normalised roles |
| App.IsAdminIff | src/App.jsx:19 | administrator exactly when some role is "ADMIN" once stripped. A null user is not an administrator |
| App.Nav | src/App.jsx:29-55 | "Gestionar" shows exactly for an authenticated administrator. The account part follows authentication |
| App.Render | src/App.jsx:63-82 | an unauthenticated user always ends on the login page, and an authenticated user never does |
| App.LoginPageAndFallback | src/App.jsx:63-66 | "/login" sends an authenticated user to "/" and shows the login page otherwise. Every path outside the table redirects to "/" or "/login" |
| App.RouteTable | src/App.jsx:63-82 | once any redirect is followed, an unauthenticated user is on the login page. An authenticated one sees the list or the forbidden notice on "/usuarios", and the home screen on every other path |
| App.HomeForEveryAuthenticatedUser | src/App.jsx:69-71 | every authenticated user reaches the home screen, with any roles or none |
| App.UsersScreenIffAdmin | src/App.jsx:74-76 | "/usuarios" shows the list exactly to administrators, and the forbidden notice to every other authenticated user |
| App.ManageLinkMatchesGuard | src/App.jsx:29-36 | the "Gestionar" link is offered exactly when its target admits the user |
| App.RedirectSettles | src/App.jsx:63-82 | the target of a redirect is never itself a redirect |
| Home.Roles | src/modules/home/Home.jsx:7 | each role is stripped of one prefix, in order |
| Home.IsAdmin | src/modules/home/Home.jsx:8 | `roles.includes("ADMIN")` on the stripped roles |
| Home.RoleLabel | src/modules/home/Home.jsx:21 | the label is "ADMIN" exactly for an administrator and "USER" otherwise |
| Home.AdminPanel | src/modules/home/Home.jsx:26-39 | the administration panel and its link to "/usuarios" appear exactly for an administrator |
| Home.NoRolesMeansUser | src/modules/home/Home.jsx:7-8 | with no roles, the label is "USER" and there is no panel |
| Home.AgreesWithApp | src/modules/home/Home.jsx:8 | the home screen and the shell decide "administrator" alike |
| Home.PanelLinkIsAdmitted | src/modules/home/Home.jsx:32-34 | the panel's link leads to the user list, never to the forbidden notice |
| Login.Validate | src/modules/auth/Login.jsx:8-11 | the e-mail error is "Correo inválido" exactly when the check fails. The password error is "Mínimo 6 caracteres" exactly when it has fewer than six characters |
| Login.AlertText | src/modules/auth/Login.jsx:25 | the alert text is never empty |
| Login.RejectedLoginAlert | src/modules/auth/Login.jsx:25 | a rejected credential is alerted as "Credenciales inválidas" |
| Login.Submit | src/modules/auth/Login.jsx:20-27 | invalid values never reach the store. A successful login stores the new credential and the reply's identity, leaves storage as it was, and goes to "/usuarios", where an administrator sees the list and anyone else the forbidden notice. A failure stays on the page with the store untouched and alerts the error's text |
| UserForm.IsEdit | src/modules/users/UserForm.jsx:16 | `!!initial?.id`: the editor edits when the record has a truthy id |
| UserForm.Validate | src/modules/users/UserForm.jsx:8-31 | each field error appears exactly when its rule fails, with its message. The password rule applies only when creating |
| UserForm.CreatePasswordBoundary | src/modules/users/UserForm.jsx:22 | when creating, a five-character password is refused and a six-character one is accepted. When editing, no password is needed |
| UserForm.NameCheckedBeforeTrim | src/modules/users/UserForm.jsx:9 | the name is measured before trimming, so "  a" passes although only "a" is sent |
| UserForm.Classify | src/modules/users/UserForm.jsx:84-99 | a save error goes to the e-mail field exactly on 409 or "duplicate". Otherwise it goes to the role field exactly on 400 with "rol". Anything else alerts the message |
| UserForm.FailureOutcome | src/modules/users/UserForm.jsx:78-99 | a rejected save is never a success. A 409 marks the e-mail. A role error needs a 400. The alerted text is the response's message, else the error's, else "Error al guardar", and is never empty |
| UserForm.ConflictCheckedFirst | src/modules/users/UserForm.jsx:85-94 | the conflict rule wins over the role rule, and a 409 marks the e-mail whatever the message |
| UserForm.ConflictMarksEmail | src/modules/users/UserForm.jsx:78-91 | a 409 reply shows "El correo ya está registrado" on the e-mail field |
| UserForm.RoleRuleForBadRequest | src/modules/users/UserForm.jsx:85-95 | a 400 message that holds "rol" and not "duplicate" lands on the role field with its own words |
| UserForm.RoleRuleIsASubstringTest | src/modules/users/UserForm.jsx:94 | an example of the substring test: "Error de control" under 400 lands on the role field |
| UserForm.AlertOutsideBadRequestAndConflict | src/modules/users/UserForm.jsx:85-99 | with a status other than 400 and 409, a message without "duplicate" is only an alert, whatever it says about roles |
| UserForm.RoleRuleNeedsStatus400 | src/modules/users/UserForm.jsx:94-99 | an example: "Rol inexistente" under 422 is only an alert |
| UserForm.BuildCall | src/modules/users/UserForm.jsx:65-75 | the name and e-mail are sent trimmed, with exactly one role `Number(rolId)`. A create always sends the password, an update only a non-empty one. An update goes to `initial.id` exactly when editing |
| UserForm.OnSubmit | src/modules/users/UserForm.jsx:64-101 | the payload built step by step is the request `BuildCall` describes. A good reply is saved, and a rejected one is classified by `FailureOutcome` |
| UserForm.ResetValues | src/modules/users/UserForm.jsx:55-62 | the name and e-mail reset to the record's, or "". The password resets to "". The role resets to "" exactly when the first role has no truthy id, and otherwise to `String` of that id |
| UserForm.ResetRoleRoundTrip | src/modules/users/UserForm.jsx:60-68 | submitting the reset role unchanged sends back the same role id |
| UserForm.ResetWithoutRoleNeedsPick | src/modules/users/UserForm.jsx:12-60 | a record without roles resets to a form that asks for a role |
| UserForm.RoleOptions | src/modules/users/UserForm.jsx:47-50 | one option per role, keeping ids and order. The name falls back to `name` only when `nombre` is missing. Anything other than an array gives no options |
| UserForm.EmptyNombreIsKept | src/modules/users/UserForm.jsx:49 | `??` keeps an empty `nombre` and falls back only on a missing one |
| UserForm.Form.constructor | src/modules/users/UserForm.jsx:41 | the editor starts with no role options and no field errors |
| UserForm.Form.LoadRoles | src/modules/users/UserForm.jsx:43-53 | a loaded reply replaces the options, and a failed one leaves them |
| UserForm.Form.Submit | src/modules/users/UserForm.jsx:64-101 | invalid values send nothing and show their errors. Valid ones send exactly the request `BuildCall` gives, then either save, set one field error, or raise one alert |
| UsersPage.ItemsOf | src/modules/users/UsersPage.jsx:16 | a bare array, or an envelope's `content`, gives the items. Null or a missing `content` gives none |
| UsersPage.Join | src/modules/users/UsersPage.jsx:66 | `join` of no parts is "", and of one part is that part |
| UsersPage.JoinSnoc | src/modules/users/UsersPage.jsx:66 | appending a part appends one separator and that part, so the joined string is the parts in order with one separator between neighbours |
| UsersPage.JoinLength | src/modules/users/UsersPage.jsx:66 | the joined string is as long as its parts plus one separator per pair of neighbours |
| UsersPage.RoleNames | src/modules/users/UsersPage.jsx:66 | each role is named by `name`, else `nombre`, else "" |
| UsersPage.RowOf | src/modules/users/UsersPage.jsx:62-66 | the row's id, `nombre \|\| name` and `email \|\| correo` cells. The roles cell is the role names joined with ", ", and empty for a user without roles |
| UsersPage.SingleRoleCell | src/modules/users/UsersPage.jsx:66 | with one role, the cell is that role's name |
| UsersPage.BodyOf | src/modules/users/UsersPage.jsx:57-61 | "Cargando..." exactly while loading. "Sin registros" exactly for an empty list. Otherwise one row per item, in order and unfiltered |
| UsersPage.EnvelopeRendersLikeArray | src/modules/users/UsersPage.jsx:16 | an envelope and a bare array with the same users render the same rows |
| UsersPage.Page.constructor | src/modules/users/UsersPage.jsx:7-10 | the page starts empty, loading, with no search and the editor closed |
| UsersPage.Page.Body | src/modules/users/UsersPage.jsx:57-61 | the table body for the page's current state: "Cargando..." exactly while loading, "Sin registros" exactly for an empty list, otherwise one row per current item in order |
| UsersPage.Page.FormVisible | src/modules/users/UsersPage.jsx:89 | the editor shows exactly while a record is being edited |
| UsersPage.Page.SetSearch | src/modules/users/UsersPage.jsx:38 | typing replaces the search text |
| UsersPage.Page.BeginLoad | src/modules/users/UsersPage.jsx:13-15 | loading is raised, so the body shows "Cargando...", and the list is requested with the current search |
| UsersPage.Page.FinishLoad | src/modules/users/UsersPage.jsx:16-19 | success replaces the items, failure keeps them, and loading drops either way, so the body shows the items |
| UsersPage.Page.Load | src/modules/users/UsersPage.jsx:12-20 | one request with the search text, then the items as above |
| UsersPage.Page.Delete | src/modules/users/UsersPage.jsx:76-78 | nothing is sent unless confirmed. A confirmed delete is sent, then a reload follows only if the delete succeeded; a failed delete changes nothing else |
| UsersPage.Page.OpenNew | src/modules/users/UsersPage.jsx:30 | "Nuevo" opens the editor on `{}`, in create mode, and the form shows |
| UsersPage.Page.OpenEdit | src/modules/users/UsersPage.jsx:70 | "Editar" opens the editor on the row's record, and the form shows |
| UsersPage.Page.CloseEditor | src/modules/users/UsersPage.jsx:92 | cancelling closes the editor and hides the form, without reloading |
| UsersPage.Page.AfterSave | src/modules/users/UsersPage.jsx:93 | after a save the editor closes, the form hides and the list reloads |
| JsStrings.Trim | src/modules/users/UserForm.jsx:66-67 | `trim` drops exactly the leading and trailing whitespace and keeps the middle |
| JsStrings.TrimIdempotent | src/modules/users/UserForm.jsx:66-67 | trimming twice is trimming once |
| JsStrings.StartsWith | src/modules/auth/ProtectedRoute.jsx:10 | `startsWith`: holds exactly when the prefix fits and agrees with the string at each of its positions. Also used at src/modules/home/Home.jsx:7 |
| JsStrings.ContainsIgnoringCase | src/modules/users/UserForm.jsx:85-94 | `/duplicate/i.test` and `/rol/i.test`: an empty pattern always matches, and a text shorter than the pattern never does |
| JsStrings.ContainsIgnoringCaseIff | src/modules/users/UserForm.jsx:85 | `/x/i.test` holds exactly when the pattern occurs somewhere, ignoring ASCII case |
| JsNumbers.IntToString | src/modules/users/UserForm.jsx:60 | `String(i)`: never empty, a minus sign before the digits of a negative number |
| JsNumbers.ToNumber | src/modules/users/UserForm.jsx:68 | `Number(s)` on trimmed decimal integers: blank text is 0 |
| JsNumbers.ToNumberOfIntToString | src/modules/users/UserForm.jsx:60 | `Number(String(i))` is `i` for every integer |
| JsValues.OrElse | src/modules/users/UsersPage.jsx:64-65 | `a \|\| b`: a non-empty string is kept, and a missing or empty one gives the fallback. The same fallback appears in src/modules/users/UserForm.jsx:57-58 and src/App.jsx:16 |
| JsValues.ErrorText | src/modules/users/UserForm.jsx:79-82 | the message is the response's, else the error's, else the fallback. It is non-empty when the fallback is |
| Base64.DecodeEncode | src/modules/auth/AuthContext.jsx:34 | the base 64 encoding that `btoa` produces decodes back to its bytes |
| Base64.Btoa | src/modules/auth/AuthContext.jsx:34 | `btoa` succeeds exactly on Latin-1 text, and its output is empty only for empty input |

## Left out

- Router path matching is taken as exact string equality on the path. Query strings, trailing slashes, letter case and nested routes are not modelled. The router matches paths without regard to letter case, so there "/USUARIOS" shows the guarded user list; here it falls to the `*` route and settles on the home screen.
- Asynchrony is not modelled. Each handler runs as one step, or as two steps split at its `await`. Three orderings fall outside the model:
  - a bootstrap reply arriving after the credential has changed. `CompleteBootstrap` requires the credential that started the query to still be held;
  - the bootstrap query racing a login;
  - a list reply arriving after the page is unmounted.
- AuthContext.LoginThenLogout: the scenario starts signed out, with nothing usable saved. A start with a saved credential runs a bootstrap query of its own, which `Bootstrap` covers.
- AuthContext.AuthProvider.Login: the follow-up bootstrap that the new credential triggers is a separate `Bootstrap` call, not part of `Login`.
- The HTTP client is not modelled. That covers how it attaches the credential to requests, how `/usuarios?q=` encodes the search, and the request URLs. A request is a value: `ListUsers`, `DeleteUser`, `CreateUser` or `UpdateUser`.
- `useAuth` throwing outside a provider is not modelled, because the shell always mounts inside the provider.
- Server data is typed:
  - `authorities` and `content` are arrays or missing;
  - names and e-mails are strings or missing;
  - ids are integers or missing. They are unbounded here; in JavaScript they are doubles, so ids beyond 2^53 are already rounded when the reply is parsed, and `String` prints ids of 10^21 and above in exponent form. The model covers ids as the parsed reply holds them, and `Number(String(i)) == i` holds for every such JavaScript id, so no outcome of the client changes.

  Other JavaScript shapes, such as numbers where strings are expected, are not modelled.
- `Number(s)` is modelled for optional-signed decimal integers only. Any other text gives `None`, which stands for NaN, and the fractional, exponent and hexadecimal forms are not modelled.
- Lengths count Unicode scalar values, not UTF-16 code units. They differ only outside the Basic Multilingual Plane. This affects the schema's minimum lengths.
- The e-mail rule of the schema library is the parameter `isEmail`. Its regular expression is not modelled.
- The message of `btoa`'s exception depends on the browser. `InvalidCharacter` uses Chromium's wording.
- `/x/i` is modelled as a substring test that folds ASCII letters only. Without the `u` flag, a case-insensitive JavaScript regular expression never folds a non-ASCII character onto an ASCII one, so this is exact for the ASCII patterns "duplicate" and "rol".
- The following are not modelled: the `isSubmitting` flag that disables the submit buttons, markup and styling, and which element has focus. The alert and confirmation dialogs appear as outputs and inputs.
- UserForm.Form.Submit: a failed submit keeps the field values on screen. The model does not keep the values, because the form library holds them.

