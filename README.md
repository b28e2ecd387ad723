# Event enrolment app: data layer and page logic in Dafny

This project models the client-side data layer of an event and workshop
enrolment app. It also models the selection and guard logic of the pages
built on that layer.

**The `useDataManager` hook**
- It holds four collections: eventos, inscripciones, solicitudes de desinscripción and usuarios.
- It also holds an error text and a local-storage mirror with one slot per collection.
- Events, registrations and unenrolment requests are *fallback collections*. An operation tries the server. When the call is not ok or throws, it applies the same change locally. Either way it reports success.
- Users live only on the server. A failed user call reports failure, sets the error text and changes nothing.
- Two workflows add business guards before creating a record:
  - `inscribirseEvento`: duplicate, unknown event, full event;
  - `solicitarDesinscripcion`: unknown registration, not the owner, request already pending.
- The admin's decision on a request may delete the registration it refers to.

**The `AuthProvider`**
- `login` checks credentials against the server's user list first, then against the stored 'usuarios' list.
- `register` refuses an email already in the list it checks.
- The session user carries no password.
- It also provides `logout`, `isAuthenticated` and `isAdmin`.

**The pages**
- Enrolment page: available slots, "already enrolled", the category list and filters, the button state.
- "My registrations" page: the user's confirmed registrations, pending-request lookups, the card and its button.
- Admin request page: the admin guard, the search and status filter, the pending-only actions, the approve and reject handlers.
- Sign-up form: field updates, validation order, error text and loading flag.

**How the model is built**
- Changing state becomes classes:
  - `UseDataManager.DataManager`;
  - `AuthContext.AuthProvider`;
  - `RegisterPage.Register`;
  - the shared `Storage.LocalStorage`.
- Each method states its whole new state: every collection, storage slot and error text it may change. The page handlers restate the hook method they call.
- The fallback methods keep the invariant that memory mirrors storage (`Mirrored`).
- Page logic that only computes becomes functions, with lemmas tying it to the hook.
- Ids are `Num(int) | Str(string)`:
  - CRUD matches with `===`, which is Dafny `==`;
  - the workflows and pages compare `toString()` texts, written `IdText`/`SameText`;
  - `Ids.TextConflatesKinds` shows the two comparisons differ.
- Remote calls whose outcome matters are `Response` parameters: `Ok(body)`, `NotOk` or `Threw`.
- The user list that `login` and `register` fetch is an `Option`: `None` stands for a call that yields no user array: it threw, or its body did not parse or was not an array. Both functions then fall back to the stored list. The source never looks at `ok` on this fetch.
- The deletes of events and registrations take no answer, because both paths remove the records locally. This includes the delete that follows an approval.
- `Date.now()` is the parameter `now`, and today's ISO date is `today`.

Registration `estado` is kept as the source's free string, and only 'confirmada' is singled out. It is not a closed set of statuses.

## Model

| member | source | states |
|---|---|---|
| Ids.SameTextWithinKind | src/hooks/useDataManager.ts:569-648 | between two ids of the same kind, text comparison agrees with `===` |
| Ids.TextConflatesKinds | src/hooks/useDataManager.ts:572-576 | the number 7 and the string "7" compare equal as texts but differ under `===` |
| Records.Reconcile | src/hooks/useDataManager.ts:136-174 | a fallback collection takes the server's record when the call was ok, and the locally built record otherwise |
| Records.NewEvento | src/hooks/useDataManager.ts:138-142 | a new event gets the id `Date.now()` and `disponibles` equal to `cupos`; every other field is the caller's |
| Records.NewInscripcion | src/hooks/useDataManager.ts:262-267 | a new registration gets the id `Date.now().toString()`; an empty date becomes today and an empty status becomes 'confirmada' |
| Records.NewSolicitud | src/hooks/useDataManager.ts:474-479 | a new request gets the id `Date.now().toString()`, status 'pendiente' and today's date, and keeps the registration, user, event and reason |
| Records.ToSession | src/context/AuthContext.tsx:62-68 | the session user holds id, nombre, email, telefono and isAdmin of the record, and no password |
| Records.OrElse | src/hooks/useDataManager.ts:265-266 | `a \|\| b` on strings picks `a` unless it is empty |
| Records.FindByUniqueText | src/hooks/useDataManager.ts:584 | when no two records share an id text, the lookup by text returns the one record with that text |
| Records.MergeEventoLaws | src/hooks/useDataManager.ts:200-205 | merging an empty partial changes nothing; merging the same partial twice equals merging it once; a partial without id keeps the id |
| Records.MergeInscripcionLaws | src/hooks/useDataManager.ts:325-330 | the same laws for registrations |
| Storage.Slot | src/context/AuthContext.tsx:157-158 | an absent list slot reads as the empty list |
| Storage.FromSlot | src/hooks/useDataManager.ts:97-117 | a present slot replaces what memory holds and an absent slot leaves it |
| Seqs.FindFirst | src/hooks/useDataManager.ts:584 | `find` returns the element at the first position whose record satisfies the callback |
| Seqs.RemoveIdempotent | src/hooks/useDataManager.ts:233-235 | filtering out the same id twice is filtering it out once |
| Seqs.RemoveIsSubsequence | src/hooks/useDataManager.ts:358-360 | a delete keeps the remaining records in their order |
| Seqs.RemoveCount | src/hooks/useDataManager.ts:358-360 | a delete removes exactly as many records as carry the id |
| Seqs.MapWhereKeepsKeys | src/hooks/useDataManager.ts:200-205 | an id-matched update whose rewrite keeps ids keeps every id at its position |
| UseDataManager.EnrolPlan | src/hooks/useDataManager.ts:569-611 | the enrolment guards in the order they run: 'Ya estás inscrito…' on a confirmed duplicate by text, then 'Evento no encontrado', then 'No hay cupos…' once the confirmed count reaches `cupos`, and only otherwise a confirmed draft for today, each as an if-and-only-if |
| UseDataManager.RequestPlan | src/hooks/useDataManager.ts:613-648 | the request guards in order: 'Inscripción no encontrada', then the ownership message, then the pending message, each as an if-and-only-if; it proceeds exactly when the registration exists, is the user's by id text and has no pending request, and then drafts a request whose eventoId is copied from that registration |
| UseDataManager.AfterDecision | src/hooks/useDataManager.ts:547-558 | the registrations that remain keep their order; a rejection, or a request not in memory, leaves them all; an approval keeps exactly those whose id is not `===` the request's `inscripcionId` |
| UseDataManager.DataManager.constructor | src/hooks/useDataManager.ts:46-53 | the hook starts with four empty collections and no error |
| UseDataManager.DataManager.InitializeData | src/hooks/useDataManager.ts:59-88 | clears the error, removes the 'usuarios' slot, loads the three mirrored collections from storage, then applies each server answer; afterwards memory mirrors storage |
| UseDataManager.DataManager.CleanupUsersFromLocalStorage | src/hooks/useDataManager.ts:91-95 | the 'usuarios' slot is absent afterwards |
| UseDataManager.DataManager.LoadFromLocalStorage | src/hooks/useDataManager.ts:97-117 | each mirrored collection takes its slot's list when the slot exists; users are never read from storage |
| UseDataManager.DataManager.LoadEventos | src/hooks/useDataManager.ts:120-134 | an ok list replaces memory and slot, a not-ok answer changes nothing, a thrown call reloads the slot |
| UseDataManager.DataManager.CreateEvento | src/hooks/useDataManager.ts:136-174 | always succeeds and appends exactly one event, the server's or the local one, and writes the list to its slot |
| UseDataManager.DataManager.UpdateEvento | src/hooks/useDataManager.ts:176-210 | always succeeds; length and order are kept; exactly the events whose id is `===` the target become the server's record or the merge with the partial |
| UseDataManager.DataManager.DeleteEvento | src/hooks/useDataManager.ts:212-241 | always succeeds and removes exactly the events whose id is `===` the target, whatever the server answers |
| UseDataManager.DataManager.LoadInscripciones | src/hooks/useDataManager.ts:244-258 | as for events |
| UseDataManager.DataManager.CreateInscripcion | src/hooks/useDataManager.ts:260-299 | as for events, with the local registration of `NewInscripcion` |
| UseDataManager.DataManager.UpdateInscripcion | src/hooks/useDataManager.ts:301-335 | as for events |
| UseDataManager.DataManager.DeleteInscripcion | src/hooks/useDataManager.ts:337-366 | as for events |
| UseDataManager.DataManager.LoadUsuarios | src/hooks/useDataManager.ts:369-382 | the server's list when ok, else the empty list; the storage is not touched |
| UseDataManager.DataManager.CreateUsuario | src/hooks/useDataManager.ts:384-410 | succeeds exactly on an ok answer and appends its record; otherwise the users are unchanged and the error is 'Error: Usuarios requieren conexión al servidor' |
| UseDataManager.DataManager.UpdateUsuario | src/hooks/useDataManager.ts:412-432 | succeeds exactly on an ok answer and replaces the users whose id is `===` the target; otherwise unchanged, with the connection error |
| UseDataManager.DataManager.DeleteUsuario | src/hooks/useDataManager.ts:434-451 | succeeds exactly on an ok answer and removes the matching users; otherwise unchanged, with the connection error |
| UseDataManager.DataManager.LoadSolicitudesDesinscripcion | src/hooks/useDataManager.ts:454-470 | as for events, except that a thrown call with no slot empties the list |
| UseDataManager.DataManager.CreateSolicitudDesinscripcion | src/hooks/useDataManager.ts:472-511 | always succeeds and appends exactly one request, the server's or the pending local one |
| UseDataManager.DataManager.UpdateSolicitudDesinscripcion | src/hooks/useDataManager.ts:513-566 | the requests whose id is `===` the target take the new status, or the server's record; an approval of a request found in memory then deletes the registrations its `inscripcionId` names; a rejection leaves registrations and their slot alone |
| UseDataManager.DataManager.InscribirseEvento | src/hooks/useDataManager.ts:569-611 | succeeds exactly when `EnrolPlan` proceeds, and then appends exactly one registration; a refusal sets the guard's message and leaves the registrations and their slot unchanged |
| UseDataManager.DataManager.SolicitarDesinscripcion | src/hooks/useDataManager.ts:613-648 | succeeds exactly when `RequestPlan` proceeds, and then appends exactly one pending request; a refusal sets the guard's message and changes no request |
| UseDataManager.EnrolKeepsCapacity | src/hooks/useDataManager.ts:590-598 | when no two events have ids of the same text, adding a confirmed registration for an event that passed the guards keeps every event within its `cupos` |
| UseDataManager.EnrolmentKeepsCapacity | src/hooks/useDataManager.ts:590-606 | when no two events have ids of the same text and enrolment is the only writer, the confirmed count never exceeds `cupos`, given that the record appended is the local one or a server record that echoes it |
| UseDataManager.SecondEnrolRejected | src/hooks/useDataManager.ts:572-581 | once a confirmed registration of the user for the event exists, a second enrolment is refused as a duplicate |
| UseDataManager.SecondRequestRejected | src/hooks/useDataManager.ts:630-635 | once a pending request for the registration exists, a second request is refused |
| UseDataManager.DecisionEffect | src/hooks/useDataManager.ts:527-535 | approving a request found in memory removes as many registrations as carry its `inscripcionId` by `===`, and no more |
| UseDataManager.ApprovalAfterRequest | src/hooks/useDataManager.ts:547-558 | approving a freshly filed request deletes the registrations whose id is `===` the one the user passed |
| UseDataManager.ApprovalMissesTextMatchedRegistration | src/hooks/useDataManager.ts:547-558 | a request filed with the number 5 for the registration "5" passes the text guard, yet approving it deletes nothing |
| UseDataManager.FallbackUpdateEventoIdempotent | src/hooks/useDataManager.ts:200-205 | repeating a fallback event update with the same id-preserving partial changes nothing more |
| UseDataManager.FallbackUpdateInscripcionIdempotent | src/hooks/useDataManager.ts:325-330 | the same for registrations |
| AuthContext.NewUser | src/context/AuthContext.tsx:165-169 | a new user is never an admin, has the id `Date.now()` and the given password, name, email and phone |
| AuthContext.LoginMatch | src/context/AuthContext.tsx:50-104 | the user signed in has the given email and password; some user is found exactly when the server's list or the stored list has one; the server's list wins |
| AuthContext.RegisterEffect | src/context/AuthContext.tsx:106-188 | refused exactly when the server's list has the email, or when the list came back and the POST was not ok and the stored list has it; a registration appends one user to the stored list and signs in the server's record or the new local user |
| AuthContext.AuthProvider.constructor | src/context/AuthContext.tsx:38-48 | the session user is read back from the 'user' slot |
| AuthContext.AuthProvider.IsAuthenticated | src/context/AuthContext.tsx:200 | true exactly when there is a user |
| AuthContext.AuthProvider.IsAdmin | src/context/AuthContext.tsx:201 | true exactly when there is a user and it is an admin, so false without a user |
| AuthContext.AuthProvider.Login | src/context/AuthContext.tsx:50-104 | succeeds exactly when `LoginMatch` finds a user; then the session user and the 'user' slot hold it without password; a failure changes nothing |
| AuthContext.AuthProvider.Register | src/context/AuthContext.tsx:106-188 | succeeds exactly when `RegisterEffect` registers; then the 'usuarios' slot, the session user and the 'user' slot are the effect's; a refusal changes nothing |
| AuthContext.AuthProvider.Logout | src/context/AuthContext.tsx:190-193 | no session user and no 'user' slot afterwards |
| AuthContext.LocalLoginIff | src/context/AuthContext.tsx:78-99 | without the server, login succeeds exactly when a stored user has an equal email and an equal password |
| AuthContext.StoredRegisterKeepsEmailsUnique | src/context/AuthContext.tsx:157-172 | the stored path of `register` keeps stored emails pairwise distinct |
| AuthContext.ServerRegisterDuplicatesStoredEmail | src/context/AuthContext.tsx:132-139 | the server path appends to the stored list without checking it, so an email can be stored twice |
| AuthContext.RegisterThenLogin | src/context/AuthContext.tsx:171-183 | after the stored path of `register`, a login without the server with the same credentials finds the new user |
| InscribirseEventoPage.CuposDisponibles | src/pages/eventos/inscribirseEvento/inscribirseEvento.tsx:50-56 | the available slots never exceed `cupos`, and equal it exactly when no confirmed registration names the event by text |
| InscribirseEventoPage.CuposAfterEnrol | src/pages/eventos/inscribirseEvento/inscribirseEvento.tsx:50-56 | each further confirmed registration of the event takes exactly one slot |
| InscribirseEventoPage.EstaInscrito | src/pages/eventos/inscribirseEvento/inscribirseEvento.tsx:41-48 | false without a user; otherwise true exactly when a confirmed registration has the event's and the user's id texts |
| InscribirseEventoPage.BotonInscripcion | src/pages/eventos/inscribirseEvento/inscribirseEvento.tsx:173-195 | the button follows the priority: not signed in, then already enrolled, then no slots, then enrol, each as an if-and-only-if |
| InscribirseEventoPage.Categorias | src/pages/eventos/inscribirseEvento/inscribirseEvento.tsx:69 | the category list has no duplicates and no empty entry, holds exactly the non-empty categories of the events, and lists them in order of first occurrence |
| InscribirseEventoPage.EventosDisponiblesSpec | src/pages/eventos/inscribirseEvento/inscribirseEvento.tsx:58-67 | the list holds, in order and as often as they occur, exactly the upcoming events that pass the search and the category filter; an empty category filter passes every category and a non-empty one only that exact category |
| InscribirseEventoPage.HandleInscribirse | src/pages/eventos/inscribirseEvento/inscribirseEvento.tsx:15-39 | without a user it goes to the login page and leaves the hook alone; with one it reports the hook's enrolment outcome, and the registrations, their slot and the error text are what `inscribirseEvento` leaves; memory keeps mirroring storage |
| InscribirseEventoPage.BotonAgreesWithHook | src/pages/eventos/inscribirseEvento/inscribirseEvento.tsx:116-118 | for a listed event, a signed-in user and events whose ids have distinct texts, "Inscribirme" shows exactly when the hook's guards pass, and each disabled button is the guard that would refuse |
| InscribirseEventoPage.CuposNeverNegative | src/pages/eventos/inscribirseEvento/inscribirseEvento.tsx:50-56 | while capacity is respected, available slots are never negative, so no slots means exactly full |
| MisInscripcionesPage.GetSolicitudPendiente | src/pages/usuarios/misInscripciones/misInscripciones.tsx:74-80 | finds a request exactly when `tieneSolicitudPendiente` holds; the request found is pending and refers to the id; a falsy id finds none |
| MisInscripcionesPage.GetEvento | src/pages/usuarios/misInscripciones/misInscripciones.tsx:61-64 | the event found has a truthy id with the same text; none is found for a falsy id or when no truthy id matches |
| MisInscripcionesPage.BotonDesinscripcion | src/pages/usuarios/misInscripciones/misInscripciones.tsx:207-222 | finished event first, then pending request, then the request action, each as an if-and-only-if |
| MisInscripcionesPage.TarjetaDe | src/pages/usuarios/misInscripciones/misInscripciones.tsx:117-134 | a registration whose event is missing shows only the warning card; otherwise the card carries the event, its button and the pending request |
| MisInscripcionesPage.Pagina | src/pages/usuarios/misInscripciones/misInscripciones.tsx:13-16 | without a user it redirects to '/login'; otherwise one card per registration of the user, in order |
| MisInscripcionesPage.HandleSolicitarDesinscripcion | src/pages/usuarios/misInscripciones/misInscripciones.tsx:18-53 | a cancelled dialog changes nothing; a confirmed one reports the hook's request outcome for the signed-in user with the typed reason, and the requests, their slot and the error text are what `solicitarDesinscripcion` leaves; memory keeps mirroring storage |
| MisInscripcionesPage.MisInscripcionesSpec | src/pages/usuarios/misInscripciones/misInscripciones.tsx:55-59 | the list holds, in order and as often as they occur, exactly the confirmed registrations whose user id is truthy and has the text of the user's truthy id; it is empty without a user or with a falsy user id |
| MisInscripcionesPage.TieneSolicitudPendienteIff | src/pages/usuarios/misInscripciones/misInscripciones.tsx:66-72 | true exactly when the id is truthy and a pending request with a truthy reference of the same text exists |
| MisInscripcionesPage.SolicitarAgreesWithHook | src/pages/usuarios/misInscripciones/misInscripciones.tsx:207-222 | for one of the user's registrations whose own id is truthy, when no two registrations have ids of the same text and no request has a falsy reference, the card offers the request action only when the hook's guards pass, and offers it for an unfinished event whenever they pass |
| SolicitudesDesinscripcionPage.GetUsuario | src/pages/inscripciones/solicitudesDesinscripcion/solicitudesDesinscripcion.tsx:91-93 | the first user whose id has the same text, and none exactly when no user's id has it |
| SolicitudesDesinscripcionPage.GetEvento | src/pages/inscripciones/solicitudesDesinscripcion/solicitudesDesinscripcion.tsx:95-97 | the first event whose id has the same text, and none exactly when no event's id has it |
| SolicitudesDesinscripcionPage.Pagina | src/pages/inscripciones/solicitudesDesinscripcion/solicitudesDesinscripcion.tsx:15-18 | a visitor who is not an admin is sent to '/eventos' and sees nothing; an admin sees the filtered requests |
| SolicitudesDesinscripcionPage.PieDe | src/pages/inscripciones/solicitudesDesinscripcion/solicitudesDesinscripcion.tsx:217-241 | approve and reject show exactly for pending requests; other requests show their decided status |
| SolicitudesDesinscripcionPage.AccesoIsAdmin | src/pages/inscripciones/solicitudesDesinscripcion/solicitudesDesinscripcion.tsx:15 | the page's guard is the auth context's `isAdmin` |
| SolicitudesDesinscripcionPage.SolicitudesFiltradasSpec | src/pages/inscripciones/solicitudesDesinscripcion/solicitudesDesinscripcion.tsx:103-115 | the list holds, in order and as often as they occur, exactly the requests that pass the search and the status test; with no search and no status all are kept; with a status only that status is kept |
| SolicitudesDesinscripcionPage.HandleAprobar | src/pages/inscripciones/solicitudesDesinscripcion/solicitudesDesinscripcion.tsx:20-52 | nothing happens unless confirmed; then the hook's update with 'aprobada': the requests with that id take the status or the server's record and are written to their slot, the referenced registrations are removed, and their slot is rewritten when the request was found; memory keeps mirroring storage |
| SolicitudesDesinscripcionPage.HandleRechazar | src/pages/inscripciones/solicitudesDesinscripcion/solicitudesDesinscripcion.tsx:54-89 | nothing happens unless confirmed; then the hook's update with 'rechazada': the requests with that id take the status or the server's record and are written to their slot; the registrations and their slot are untouched either way; memory keeps mirroring storage |
| RegisterPage.WithField | src/pages/auth/register/register.tsx:23-28 | the named field takes the value and every other field keeps its own |
| RegisterPage.Validate | src/pages/auth/register/register.tsx:35-45 | a mismatch gives 'Las contraseñas no coinciden' before the length is looked at; matching passwords shorter than 6 give the length message; the form passes exactly when both hold |
| RegisterPage.Payload | src/pages/auth/register/register.tsx:48-53 | `register` receives nombre, email, telefono and password, and no confirmation |
| RegisterPage.Register.constructor | src/pages/auth/register/register.tsx:8-18 | the form starts empty, with no error and no spinner |
| RegisterPage.Register.HandleChange | src/pages/auth/register/register.tsx:23-28 | only the named field changes |
| RegisterPage.Register.TogglePassword | src/pages/auth/register/register.tsx:157 | the password visibility flips |
| RegisterPage.Register.ToggleConfirmPassword | src/pages/auth/register/register.tsx:183 | the confirmation visibility flips |
| RegisterPage.Register.HandleSubmit | src/pages/auth/register/register.tsx:30-65 | `loading` is false on every exit; a failed check shows its message and does not call `register`; otherwise a registration goes to '/' and a refusal shows 'Este email ya está registrado' |
| RegisterPage.WithFieldLaws | src/pages/auth/register/register.tsx:23-28 | typing twice into one field keeps the last value; restoring the old text restores the form |
| RegisterPage.StoredUserPassedChecks | src/pages/auth/register/register.tsx:35-53 | a user stored by a sign-up has the form's email and a password at least 6 long that the confirmation repeated, and is not an admin |
| Scenarios.CapacityTwo | src/hooks/useDataManager.ts:569-611 | with the server down, two users fill a two-slot event, a third is refused with 'No hay cupos…', and two confirmed registrations remain |
| Scenarios.UsersHaveNoFallback | src/hooks/useDataManager.ts:384-410 | under a network failure a user create fails and changes nothing, while an event create succeeds locally |
| Scenarios.StaleUsersSlotRemoved | src/hooks/useDataManager.ts:91-95 | a leftover 'usuarios' slot is gone after initialisation, whatever the server answers |
| Scenarios.EventSurvivesOutage | src/hooks/useDataManager.ts:165-169 | an event created offline is loaded back, every field intact, by a later session that is also offline |

## Left out

- HTTP, status codes and JSON bodies become the `Response` outcome of each call.
- The server-returned record is an input. What the server does with a request is not modelled.
- `JSON.parse`/`JSON.stringify` of the storage slots are taken to round-trip. A corrupt slot, which makes the mount-time parse throw, is not modelled.
- The hook's `loading` flag and `console` logging are not modelled.
- Each operation has an outer `catch` that sets a generic error text, such as 'Error al crear evento', when something unexpected throws. A storage write that fails is one example. This path is not modelled.
- `Promise.all` in `initializeData` is not modelled. Every operation is atomic and the loads run one after another.
- The stale-closure difference between `setX(prev => …)` and mirror writes from the captured list is not modelled.
- Racing double clicks are not modelled.
- `UseDataManager.EnrolKeepsCapacity`, `UseDataManager.EnrolmentKeepsCapacity` and `InscribirseEventoPage.BotonAgreesWithHook` assume that no two events have ids of the same text. If `Num(1)` and `Str("1")` were both event ids, the guard would check only the first event's `cupos`, while both events count the same registrations.
- `MisInscripcionesPage.SolicitarAgreesWithHook` assumes that no two registrations have ids of the same text. With `Num(5)` and `Str("5")` owned by different users, the hook's lookup may find the other user's registration and refuse, while the card offers the action.
- `MisInscripcionesPage.SolicitarAgreesWithHook` also assumes that no request has a falsy `inscripcionId`. The page skips such requests when it looks for a pending one, but the hook's guard does not. A pending request referring to `Num(0)` therefore blocks a registration `Str("0")` in the hook, while the card offers the action.
- `MisInscripcionesPage.SolicitarAgreesWithHook` also assumes that the registration's own id is truthy. For a falsy id the page's `tieneSolicitudPendiente` is false, but the hook compares texts. A registration `Num(0)` with a pending request referring to `Str("0")` is therefore refused by the hook as already pending, while the card offers the action.
- Ids come from `Date.now()`, passed as `now`. Two calls made in one millisecond, and so id collisions, are left to the caller.
- `register` calls `Date.now()` twice on its two paths. Both are the one `now`.
- JavaScript numbers are unbounded integers here. Fractional and non-finite ids and `cupos` are not modelled, and neither is floating-point `precio`.
- `UseDataManager.DataManager.CreateUsuario`, `UpdateUsuario` and `DeleteUsuario` do not model the request body sent to the server. Only the answer matters to the hook.
- `UseDataManager.DataManager.UpdateEvento` and `UpdateInscripcion`: a partial is a record of optional fields. A property explicitly set to `undefined`, which the spread copies, is not modelled.
- The lower-cased `includes` search is the uninterpreted parameter `matches`, since case folding is a library behaviour.
- The date tests "event in the future" and "event finished" are the parameters `futuro` and `terminado`, since they read the wall clock.
- `RegisterPage.Validate` counts characters. JavaScript's `length` counts UTF-16 code units, so passwords with characters outside the Basic Multilingual Plane can differ.
- The browser's own checks of the form are not modelled. These are `required` and `type="email"`, which stop a submit with empty fields or a malformed email.
- `RegisterPage.Register.HandleSubmit` has no case for the generic 'Error al crear la cuenta. Intenta de nuevo.' message. `register` catches every error and returns false, so that message cannot appear.
- Dialogs are booleans (`confirmado`) and the typed reason is a string. The alert and toast texts are rendering and are not modelled.
- Other rendering is not modelled: icons, the registration date shown on the admin card, navigation buttons.
- The demo form pages (crearEvento, editarEvento, crearInscripcion, editarInscripcion, eliminarEvento, eliminarInscripcion, configuracion) are not part of this model. They only check for non-empty trimmed inputs and show alerts.
- The other pages are not part of this model: eventos.tsx, inscripciones.tsx, mostrarEvento, mostrarInscripcion, login.tsx.
- Routes, navigation and application wiring are not part of this model.
