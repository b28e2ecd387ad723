/**
 * The record types declared at the top of src/hooks/useDataManager.ts (and
 * the session user of src/context/AuthContext.tsx), the records the hook
 * builds locally, the `{ ...record, ...partial }` merges, and the outcome of
 * a remote call.
 */
module Records {
  import opened Seqs
  import opened Ids

  /** The registration status the enrolment workflow writes and every guard tests for. */
  const Confirmada := "confirmada"

  /** An event or workshop. `precio` is a JavaScript number, so a real. */
  datatype Evento = Evento(
    id: Id,
    nombre: string,
    fecha: string,
    descripcion: string,
    cupos: int,
    disponibles: Option<int>,
    imagen: Option<string>,
    instructor: Option<string>,
    duracion: Option<string>,
    precio: Option<real>,
    categoria: Option<string>)

  /** `Omit<Evento, 'id'>`, what `createEvento` is given. */
  datatype EventoDraft = EventoDraft(
    nombre: string,
    fecha: string,
    descripcion: string,
    cupos: int,
    disponibles: Option<int>,
    imagen: Option<string>,
    instructor: Option<string>,
    duracion: Option<string>,
    precio: Option<real>,
    categoria: Option<string>)

  /** `Partial<Evento>`: None is a property the partial object does not have. */
  datatype EventoPatch = EventoPatch(
    id: Option<Id>,
    nombre: Option<string>,
    fecha: Option<string>,
    descripcion: Option<string>,
    cupos: Option<int>,
    disponibles: Option<int>,
    imagen: Option<string>,
    instructor: Option<string>,
    duracion: Option<string>,
    precio: Option<real>,
    categoria: Option<string>)

  /** A registration of a user to an event; `estado` is a free string in the source. */
  datatype Inscripcion = Inscripcion(
    id: Id,
    usuarioId: Id,
    eventoId: Id,
    fechaInscripcion: string,
    estado: string)

  /** `Omit<Inscripcion, 'id'>`, what `createInscripcion` is given. */
  datatype InscripcionDraft = InscripcionDraft(
    usuarioId: Id,
    eventoId: Id,
    fechaInscripcion: string,
    estado: string)

  /** `Partial<Inscripcion>`. */
  datatype InscripcionPatch = InscripcionPatch(
    id: Option<Id>,
    usuarioId: Option<Id>,
    eventoId: Option<Id>,
    fechaInscripcion: Option<string>,
    estado: Option<string>)

  /** The closed status union `'pendiente' | 'aprobada' | 'rechazada'`. */
  datatype EstadoSolicitud = Pendiente | Aprobada | Rechazada

  /** An unenrolment request. */
  datatype Solicitud = Solicitud(
    id: Id,
    inscripcionId: Id,
    usuarioId: Id,
    eventoId: Id,
    fechaSolicitud: string,
    estado: EstadoSolicitud,
    motivo: Option<string>)

  /** `Omit<SolicitudDesinscripcion, 'id' | 'fechaSolicitud' | 'estado'>`. */
  datatype SolicitudDraft = SolicitudDraft(
    inscripcionId: Id,
    usuarioId: Id,
    eventoId: Id,
    motivo: Option<string>)

  /** A user record as the server (or the auth context's local list) holds it. */
  datatype Usuario = Usuario(
    id: Id,
    nombre: string,
    email: string,
    password: Option<string>,
    telefono: Option<string>,
    isAdmin: bool,
    fechaRegistro: Option<string>)

  /** The `User` of the auth context: a user record without password or registration date. */
  datatype SessionUser = SessionUser(
    id: Id,
    nombre: string,
    email: string,
    telefono: Option<string>,
    isAdmin: bool)

  /**
   * The outcome of one `fetch` as the caller sees it: a response that is ok
   * with its parsed body, a response that is not ok, or a thrown error (the
   * network failed, or the body did not parse).
   */
  datatype Response<T> = Ok(body: T) | NotOk | Threw

  /** The policy of the fallback collections: the server's record when it answered, else the local one. */
  function Reconcile<T>(r: Response<T>, local: T): (x: T)
    ensures r.Ok? ==> x == r.body
    ensures !r.Ok? ==> x == local
  {
    match r
    case Ok(body) => body
    case _ => local
  }

  function EventoKey(e: Evento): Id { e.id }
  function InscripcionKey(i: Inscripcion): Id { i.id }
  function SolicitudKey(s: Solicitud): Id { s.id }
  function UsuarioKey(u: Usuario): Id { u.id }

  /** The predicate `x => key(x).toString() === text`. */
  function TextIs<T>(key: T -> Id, text: string): T -> bool
  {
    (x: T) => IdText(key(x)) == text
  }

  /** No two records of `s` have ids with the same text. */
  predicate UniqueTexts<T>(s: seq<T>, key: T -> Id)
  {
    forall a, b :: 0 <= a < b < |s| ==> IdText(key(s[a])) != IdText(key(s[b]))
  }

  /** Under unique id texts, a `find` by text returns the one record with that text. */
  lemma FindByUniqueText<T>(s: seq<T>, key: T -> Id, k: nat, text: string)
    requires UniqueTexts(s, key)
    requires k < |s| && IdText(key(s[k])) == text
    ensures Find(s, TextIs(key, text)) == Some(s[k])
  {
    FindOnly(s, TextIs(key, text), k);
  }

  /** `a || b` on strings: `a` unless it is empty. */
  function OrElse(a: string, b: string): (r: string)
    ensures a != "" ==> r == a
    ensures a == "" ==> r == b
  {
    if a != "" then a else b
  }

  /** One property of `{ ...record, ...partial }`: the partial's value when it has the property. */
  function Pick<T>(current: T, patched: Option<T>): T
  {
    if patched.Some? then patched.value else current
  }

  /** The same for a property that may itself be absent. */
  function PickOpt<T>(current: Option<T>, patched: Option<T>): Option<T>
  {
    if patched.Some? then patched else current
  }

  /** `{ ...e, ...p }`. */
  function MergeEvento(e: Evento, p: EventoPatch): Evento
  {
    Evento(
      Pick(e.id, p.id), Pick(e.nombre, p.nombre), Pick(e.fecha, p.fecha),
      Pick(e.descripcion, p.descripcion), Pick(e.cupos, p.cupos),
      PickOpt(e.disponibles, p.disponibles), PickOpt(e.imagen, p.imagen),
      PickOpt(e.instructor, p.instructor), PickOpt(e.duracion, p.duracion),
      PickOpt(e.precio, p.precio), PickOpt(e.categoria, p.categoria))
  }

  /** `{ ...i, ...p }`. */
  function MergeInscripcion(i: Inscripcion, p: InscripcionPatch): Inscripcion
  {
    Inscripcion(
      Pick(i.id, p.id), Pick(i.usuarioId, p.usuarioId), Pick(i.eventoId, p.eventoId),
      Pick(i.fechaInscripcion, p.fechaInscripcion), Pick(i.estado, p.estado))
  }

  /** The partial object with no properties. */
  const NoEventoChange := EventoPatch(None, None, None, None, None, None, None, None, None, None, None)
  const NoInscripcionChange := InscripcionPatch(None, None, None, None, None)

  /** A merge keeps what the partial does not mention, and merging the same partial again changes nothing. */
  lemma MergeEventoLaws(e: Evento, p: EventoPatch)
    ensures MergeEvento(e, NoEventoChange) == e
    ensures MergeEvento(MergeEvento(e, p), p) == MergeEvento(e, p)
    ensures p.id.None? ==> MergeEvento(e, p).id == e.id
  {
  }

  lemma MergeInscripcionLaws(i: Inscripcion, p: InscripcionPatch)
    ensures MergeInscripcion(i, NoInscripcionChange) == i
    ensures MergeInscripcion(MergeInscripcion(i, p), p) == MergeInscripcion(i, p)
    ensures p.id.None? ==> MergeInscripcion(i, p).id == i.id
  {
  }

  /** The `Omit<Evento, 'id'>` view of an event. */
  function DraftOf(e: Evento): EventoDraft
  {
    EventoDraft(e.nombre, e.fecha, e.descripcion, e.cupos, e.disponibles, e.imagen,
                e.instructor, e.duracion, e.precio, e.categoria)
  }

  /** `{ ...evento, id: Date.now(), disponibles: evento.cupos }`. */
  function NewEvento(d: EventoDraft, now: nat): (e: Evento)
    ensures e.id == Num(now)
    ensures e.disponibles == Some(e.cupos)
    ensures DraftOf(e) == d.(disponibles := Some(d.cupos))
  {
    Evento(Num(now), d.nombre, d.fecha, d.descripcion, d.cupos, Some(d.cupos), d.imagen,
           d.instructor, d.duracion, d.precio, d.categoria)
  }

  /**
   * `{ ...inscripcion, id: Date.now().toString(), fechaInscripcion:
   * inscripcion.fechaInscripcion || today, estado: inscripcion.estado || 'confirmada' }`.
   */
  function NewInscripcion(d: InscripcionDraft, now: nat, today: string): (i: Inscripcion)
    ensures i.id == Str(NatText(now))
    ensures i.usuarioId == d.usuarioId && i.eventoId == d.eventoId
    ensures d.estado != "" ==> i.estado == d.estado
    ensures d.estado == "" ==> i.estado == Confirmada
    ensures i.fechaInscripcion == (if d.fechaInscripcion == "" then today else d.fechaInscripcion)
  {
    Inscripcion(Str(NatText(now)), d.usuarioId, d.eventoId,
                OrElse(d.fechaInscripcion, today), OrElse(d.estado, Confirmada))
  }

  /** `{ ...solicitud, id: Date.now().toString(), fechaSolicitud: today, estado: 'pendiente' }`. */
  function NewSolicitud(d: SolicitudDraft, now: nat, today: string): (s: Solicitud)
    ensures s.id == Str(NatText(now)) && s.estado == Pendiente && s.fechaSolicitud == today
    ensures s.inscripcionId == d.inscripcionId && s.usuarioId == d.usuarioId
    ensures s.eventoId == d.eventoId && s.motivo == d.motivo
  {
    Solicitud(Str(NatText(now)), d.inscripcionId, d.usuarioId, d.eventoId, today, Pendiente, d.motivo)
  }

  /** The session user built from a user record: id, nombre, email, telefono and isAdmin, nothing else. */
  function ToSession(u: Usuario): (s: SessionUser)
    ensures s.id == u.id && s.nombre == u.nombre && s.email == u.email
    ensures s.telefono == u.telefono && s.isAdmin == u.isAdmin
  {
    SessionUser(u.id, u.nombre, u.email, u.telefono, u.isAdmin)
  }
}
