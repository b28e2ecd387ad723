/**
 * The `useDataManager` hook of src/hooks/useDataManager.ts: four in-memory
 * collections and an error text, kept alongside the local storage mirror.
 *
 * Events, registrations and unenrolment requests are fallback collections:
 * an operation tries the server, and when the call is not ok or throws it
 * applies the same change locally; either way it reports success and writes
 * the new list to its storage slot. Users live only on the server: a failed
 * call reports failure, sets the error text and changes nothing.
 *
 * Each remote call is a `Response` parameter, `Date.now()` is `now` and
 * today's ISO date is `today`. Operations are atomic and run one at a time.
 */
module UseDataManager {
  import opened Seqs
  import opened Ids
  import opened Records
  import opened Storage

  const YaInscrito := "Ya estás inscrito en este evento"
  const EventoNoEncontrado := "Evento no encontrado"
  const SinCupos := "No hay cupos disponibles para este evento"
  const InscripcionNoEncontrada := "Inscripción no encontrada"
  const SinPermisos := "No tienes permisos para desinscribirte de esta inscripción"
  const SolicitudYaPendiente := "Ya tienes una solicitud de desinscripción pendiente para este evento"
  const UsuariosSinConexion := "Error: Usuarios requieren conexión al servidor"

  /** A confirmed registration of the event and user with these id texts. */
  function ConfirmadaDe(eventoText: string, usuarioText: string): Inscripcion -> bool
  {
    (i: Inscripcion) => IdText(i.eventoId) == eventoText && IdText(i.usuarioId) == usuarioText && i.estado == Confirmada
  }

  /** A confirmed registration of the event with this id text. */
  function ConfirmadaEn(eventoText: string): Inscripcion -> bool
  {
    (i: Inscripcion) => IdText(i.eventoId) == eventoText && i.estado == Confirmada
  }

  /** A pending request for the registration with this id text. */
  function PendienteDe(inscripcionText: string): Solicitud -> bool
  {
    (s: Solicitud) => IdText(s.inscripcionId) == inscripcionText && s.estado == Pendiente
  }

  /** The number of confirmed registrations for an event. */
  function Inscritos(ins: seq<Inscripcion>, eventoId: Id): nat
  {
    Count(ins, ConfirmadaEn(IdText(eventoId)))
  }

  /** The outcome of a workflow's guards: the error text it stops with, or the record it goes on to create. */
  datatype Plan<D> = Reject(message: string) | Proceed(draft: D)

  /** The guards of `inscribirseEvento`, in the order they run. */
  function EnrolPlan(ins: seq<Inscripcion>, evs: seq<Evento>, eventoId: Id, usuarioId: Id, today: string): (p: Plan<InscripcionDraft>)
    ensures p == Reject(YaInscrito) <==> Any(ins, ConfirmadaDe(IdText(eventoId), IdText(usuarioId)))
    ensures p == Reject(EventoNoEncontrado) <==>
      !Any(ins, ConfirmadaDe(IdText(eventoId), IdText(usuarioId))) && !Any(evs, TextIs(EventoKey, IdText(eventoId)))
    ensures p == Reject(SinCupos) <==>
      !Any(ins, ConfirmadaDe(IdText(eventoId), IdText(usuarioId))) && Any(evs, TextIs(EventoKey, IdText(eventoId))) &&
      Inscritos(ins, eventoId) >= Find(evs, TextIs(EventoKey, IdText(eventoId))).value.cupos
    ensures p.Proceed? <==>
      !Any(ins, ConfirmadaDe(IdText(eventoId), IdText(usuarioId))) && Any(evs, TextIs(EventoKey, IdText(eventoId))) &&
      Inscritos(ins, eventoId) < Find(evs, TextIs(EventoKey, IdText(eventoId))).value.cupos
    ensures p.Proceed? ==> p.draft == InscripcionDraft(usuarioId, eventoId, today, Confirmada)
  {
    if Any(ins, ConfirmadaDe(IdText(eventoId), IdText(usuarioId))) then Reject(YaInscrito)
    else match Find(evs, TextIs(EventoKey, IdText(eventoId)))
      case None => Reject(EventoNoEncontrado)
      case Some(e) =>
        if Inscritos(ins, eventoId) >= e.cupos then Reject(SinCupos)
        else Proceed(InscripcionDraft(usuarioId, eventoId, today, Confirmada))
  }

  /** The guards of `solicitarDesinscripcion`, in the order they run. */
  function RequestPlan(ins: seq<Inscripcion>, sols: seq<Solicitud>, inscripcionId: Id, usuarioId: Id, motivo: Option<string>): (p: Plan<SolicitudDraft>)
    ensures p == Reject(InscripcionNoEncontrada) <==> !Any(ins, TextIs(InscripcionKey, IdText(inscripcionId)))
    ensures p == Reject(SinPermisos) <==>
      Any(ins, TextIs(InscripcionKey, IdText(inscripcionId))) &&
      !SameText(Find(ins, TextIs(InscripcionKey, IdText(inscripcionId))).value.usuarioId, usuarioId)
    ensures p == Reject(SolicitudYaPendiente) <==>
      Any(ins, TextIs(InscripcionKey, IdText(inscripcionId))) &&
      SameText(Find(ins, TextIs(InscripcionKey, IdText(inscripcionId))).value.usuarioId, usuarioId) &&
      Any(sols, PendienteDe(IdText(inscripcionId)))
    ensures p.Proceed? <==>
      Any(ins, TextIs(InscripcionKey, IdText(inscripcionId))) &&
      SameText(Find(ins, TextIs(InscripcionKey, IdText(inscripcionId))).value.usuarioId, usuarioId) &&
      !Any(sols, PendienteDe(IdText(inscripcionId)))
    ensures p.Proceed? ==>
      p.draft == SolicitudDraft(inscripcionId, usuarioId, Find(ins, TextIs(InscripcionKey, IdText(inscripcionId))).value.eventoId, motivo)
    ensures p.Proceed? ==>
      exists k :: 0 <= k < |ins| && SameText(ins[k].id, inscripcionId) && SameText(ins[k].usuarioId, usuarioId) &&
        ins[k].eventoId == p.draft.eventoId
  {
    match FindIndex(ins, TextIs(InscripcionKey, IdText(inscripcionId)))
    case None => Reject(InscripcionNoEncontrada)
    case Some(k) =>
      if IdText(ins[k].usuarioId) != IdText(usuarioId) then Reject(SinPermisos)
      else if Any(sols, PendienteDe(IdText(inscripcionId))) then Reject(SolicitudYaPendiente)
      else
        assert TextIs(InscripcionKey, IdText(inscripcionId))(ins[k]);
        assert IdText(InscripcionKey(ins[k])) == IdText(inscripcionId);
        assert SameText(ins[k].id, inscripcionId) && SameText(ins[k].usuarioId, usuarioId);
        Proceed(SolicitudDraft(inscripcionId, usuarioId, ins[k].eventoId, motivo))
  }

  /**
   * The registrations left after deciding request `id`, kept in order: a
   * rejection, or a request that is not in memory, leaves them alone; an
   * approval deletes exactly the registrations whose id is `===` the
   * request's `inscripcionId`.
   */
  function AfterDecision(ins: seq<Inscripcion>, sols: seq<Solicitud>, id: Id, estado: EstadoSolicitud): (r: seq<Inscripcion>)
    ensures IsSubsequence(r, ins)
    ensures estado != Aprobada || Find(sols, KeyIs(SolicitudKey, id)).None? ==> r == ins
    ensures estado == Aprobada && Find(sols, KeyIs(SolicitudKey, id)).Some? ==>
      var ref := Find(sols, KeyIs(SolicitudKey, id)).value.inscripcionId;
      (forall j :: 0 <= j < |r| ==> r[j].id != ref && r[j] in ins) &&
      (forall j :: 0 <= j < |ins| && ins[j].id != ref ==> ins[j] in r)
  {
    if estado == Aprobada then
      match Find(sols, KeyIs(SolicitudKey, id))
      case Some(s) =>
        RemoveIsSubsequence(ins, InscripcionKey, s.inscripcionId);
        Remove(ins, InscripcionKey, s.inscripcionId)
      case None =>
        SubsequenceReflexive(ins);
        ins
    else
      SubsequenceReflexive(ins);
      ins
  }

  /** The fallback rewrite `e => ({ ...e, ...patch })`. */
  function MergeEventoWith(patch: EventoPatch): Evento -> Evento
  {
    (e: Evento) => MergeEvento(e, patch)
  }

  /** The fallback rewrite `i => ({ ...i, ...patch })`. */
  function MergeInscripcionWith(patch: InscripcionPatch): Inscripcion -> Inscripcion
  {
    (i: Inscripcion) => MergeInscripcion(i, patch)
  }

  /** The fallback rewrite `s => ({ ...s, estado })`. */
  function WithEstado(estado: EstadoSolicitud): Solicitud -> Solicitud
  {
    (s: Solicitud) => s.(estado := estado)
  }

  /** Every event's confirmed registrations stay within its capacity. */
  predicate CapacityRespected(evs: seq<Evento>, ins: seq<Inscripcion>)
  {
    forall k :: 0 <= k < |evs| ==> Inscritos(ins, evs[k].id) <= evs[k].cupos
  }

  class DataManager {
    var eventos: seq<Evento>
    var inscripciones: seq<Inscripcion>
    var usuarios: seq<Usuario>
    var solicitudes: seq<Solicitud>
    var error: Option<string>
    const store: LocalStorage

    /** The three fallback collections equal what their storage slots hold. */
    predicate Mirrored()
      reads this, store
    {
      eventos == Slot(store.eventos) && inscripciones == Slot(store.inscripciones) && solicitudes == Slot(store.solicitudes)
    }

    /** The state before anything was loaded. */
    predicate Pristine()
      reads this
    {
      eventos == [] && inscripciones == [] && solicitudes == []
    }

    constructor (store: LocalStorage)
      ensures this.store == store
      ensures eventos == [] && inscripciones == [] && usuarios == [] && solicitudes == [] && error == None
    {
      this.store := store;
      eventos := [];
      inscripciones := [];
      usuarios := [];
      solicitudes := [];
      error := None;
    }

    /** `initializeData`: clear the error, drop the 'usuarios' slot, load the mirror, then ask the server. */
    method InitializeData(rEv: Response<seq<Evento>>, rIns: Response<seq<Inscripcion>>,
                          rUs: Response<seq<Usuario>>, rSol: Response<seq<Solicitud>>)
      modifies this`eventos, this`inscripciones, this`usuarios, this`solicitudes, this`error
      modifies store`eventos, store`inscripciones, store`solicitudes, store`usuarios
      ensures error == None && store.usuarios == None
      ensures eventos == Reconcile(rEv, FromSlot(old(eventos), old(store.eventos)))
      ensures inscripciones == Reconcile(rIns, FromSlot(old(inscripciones), old(store.inscripciones)))
      ensures solicitudes == Reconcile(rSol,
        if rSol.Threw? then Slot(old(store.solicitudes)) else FromSlot(old(solicitudes), old(store.solicitudes)))
      ensures usuarios == Reconcile(rUs, [])
      ensures store.eventos == (if rEv.Ok? then Some(rEv.body) else old(store.eventos))
      ensures store.inscripciones == (if rIns.Ok? then Some(rIns.body) else old(store.inscripciones))
      ensures store.solicitudes == (if rSol.Ok? then Some(rSol.body) else old(store.solicitudes))
      ensures old(Mirrored() || Pristine()) ==> Mirrored()
    {
      error := None;
      CleanupUsersFromLocalStorage();
      LoadFromLocalStorage();
      LoadEventos(rEv);
      LoadInscripciones(rIns);
      LoadUsuarios(rUs);
      LoadSolicitudesDesinscripcion(rSol);
    }

    /** `cleanupUsersFromLocalStorage`: the 'usuarios' slot is removed if present. */
    method CleanupUsersFromLocalStorage()
      modifies store`usuarios
      ensures store.usuarios == None
    {
      if store.usuarios.Some? {
        store.usuarios := None;
      }
    }

    /** `loadFromLocalStorage`: each fallback collection takes its slot's list when the slot exists; users never. */
    method LoadFromLocalStorage()
      modifies this`eventos, this`inscripciones, this`solicitudes
      ensures eventos == FromSlot(old(eventos), store.eventos)
      ensures inscripciones == FromSlot(old(inscripciones), store.inscripciones)
      ensures solicitudes == FromSlot(old(solicitudes), store.solicitudes)
      ensures old(Mirrored() || Pristine()) ==> Mirrored()
    {
      if store.eventos.Some? {
        eventos := store.eventos.value;
      }
      if store.inscripciones.Some? {
        inscripciones := store.inscripciones.value;
      }
      if store.solicitudes.Some? {
        solicitudes := store.solicitudes.value;
      }
    }

    // EVENTOS

    /** `loadEventos`: an ok list replaces memory and slot; a thrown call reloads the slot; a response that is not ok changes nothing. */
    method LoadEventos(r: Response<seq<Evento>>)
      modifies this`eventos, store`eventos
      ensures r.Ok? ==> eventos == r.body && store.eventos == Some(r.body)
      ensures r.NotOk? ==> eventos == old(eventos) && store.eventos == old(store.eventos)
      ensures r.Threw? ==> eventos == FromSlot(old(eventos), store.eventos) && store.eventos == old(store.eventos)
      ensures old(Mirrored()) ==> Mirrored()
    {
      match r
      case Ok(data) =>
        eventos := data;
        store.eventos := Some(data);
      case NotOk =>
      case Threw =>
        if store.eventos.Some? {
          eventos := store.eventos.value;
        }
    }

    /** `createEvento`: append the server's record, or the locally built one. */
    method CreateEvento(draft: EventoDraft, now: nat, r: Response<Evento>) returns (ok: bool)
      modifies this`eventos, store`eventos
      ensures ok
      ensures eventos == old(eventos) + [Reconcile(r, NewEvento(draft, now))]
      ensures store.eventos == Some(eventos)
      ensures old(Mirrored()) ==> Mirrored()
    {
      var nuevo := NewEvento(draft, now);
      if r.Ok? {
        eventos := eventos + [r.body];
      } else {
        eventos := eventos + [nuevo];
      }
      store.eventos := Some(eventos);
      ok := true;
    }

    /** `updateEvento`: every event whose id is `===` `id` becomes the server's record, or is merged with `patch`. */
    method UpdateEvento(id: Id, patch: EventoPatch, r: Response<Evento>) returns (ok: bool)
      modifies this`eventos, store`eventos
      ensures ok
      ensures |eventos| == |old(eventos)|
      ensures forall i :: 0 <= i < |eventos| ==>
        eventos[i] == if old(eventos)[i].id == id then Reconcile(r, MergeEvento(old(eventos)[i], patch)) else old(eventos)[i]
      ensures store.eventos == Some(eventos)
      ensures old(Mirrored()) ==> Mirrored()
    {
      if r.Ok? {
        eventos := MapWhere(eventos, EventoKey, id, Const(r.body));
      } else {
        eventos := MapWhere(eventos, EventoKey, id, MergeEventoWith(patch));
      }
      store.eventos := Some(eventos);
      ok := true;
    }

    /** `deleteEvento`: the server answering or not, the events whose id is `===` `id` are filtered out. */
    method DeleteEvento(id: Id) returns (ok: bool)
      modifies this`eventos, store`eventos
      ensures ok
      ensures eventos == Remove(old(eventos), EventoKey, id)
      ensures store.eventos == Some(eventos)
      ensures old(Mirrored()) ==> Mirrored()
    {
      eventos := Remove(eventos, EventoKey, id);
      store.eventos := Some(eventos);
      ok := true;
    }

    // INSCRIPCIONES

    /** `loadInscripciones`. */
    method LoadInscripciones(r: Response<seq<Inscripcion>>)
      modifies this`inscripciones, store`inscripciones
      ensures r.Ok? ==> inscripciones == r.body && store.inscripciones == Some(r.body)
      ensures r.NotOk? ==> inscripciones == old(inscripciones) && store.inscripciones == old(store.inscripciones)
      ensures r.Threw? ==> inscripciones == FromSlot(old(inscripciones), store.inscripciones) && store.inscripciones == old(store.inscripciones)
      ensures old(Mirrored()) ==> Mirrored()
    {
      match r
      case Ok(data) =>
        inscripciones := data;
        store.inscripciones := Some(data);
      case NotOk =>
      case Threw =>
        if store.inscripciones.Some? {
          inscripciones := store.inscripciones.value;
        }
    }

    /** `createInscripcion`. */
    method CreateInscripcion(draft: InscripcionDraft, now: nat, today: string, r: Response<Inscripcion>) returns (ok: bool)
      modifies this`inscripciones, store`inscripciones
      ensures ok
      ensures inscripciones == old(inscripciones) + [Reconcile(r, NewInscripcion(draft, now, today))]
      ensures store.inscripciones == Some(inscripciones)
      ensures old(Mirrored()) ==> Mirrored()
    {
      var nueva := NewInscripcion(draft, now, today);
      if r.Ok? {
        inscripciones := inscripciones + [r.body];
      } else {
        inscripciones := inscripciones + [nueva];
      }
      store.inscripciones := Some(inscripciones);
      ok := true;
    }

    /** `updateInscripcion`. */
    method UpdateInscripcion(id: Id, patch: InscripcionPatch, r: Response<Inscripcion>) returns (ok: bool)
      modifies this`inscripciones, store`inscripciones
      ensures ok
      ensures |inscripciones| == |old(inscripciones)|
      ensures forall i :: 0 <= i < |inscripciones| ==>
        inscripciones[i] ==
          if old(inscripciones)[i].id == id then Reconcile(r, MergeInscripcion(old(inscripciones)[i], patch)) else old(inscripciones)[i]
      ensures store.inscripciones == Some(inscripciones)
      ensures old(Mirrored()) ==> Mirrored()
    {
      if r.Ok? {
        inscripciones := MapWhere(inscripciones, InscripcionKey, id, Const(r.body));
      } else {
        inscripciones := MapWhere(inscripciones, InscripcionKey, id, MergeInscripcionWith(patch));
      }
      store.inscripciones := Some(inscripciones);
      ok := true;
    }

    /** `deleteInscripcion`. */
    method DeleteInscripcion(id: Id) returns (ok: bool)
      modifies this`inscripciones, store`inscripciones
      ensures ok
      ensures inscripciones == Remove(old(inscripciones), InscripcionKey, id)
      ensures store.inscripciones == Some(inscripciones)
      ensures old(Mirrored()) ==> Mirrored()
    {
      inscripciones := Remove(inscripciones, InscripcionKey, id);
      store.inscripciones := Some(inscripciones);
      ok := true;
    }

    // USUARIOS: server only, never the storage

    /** `loadUsuarios`: the server's list, else the empty list. */
    method LoadUsuarios(r: Response<seq<Usuario>>)
      modifies this`usuarios
      ensures r.Ok? ==> usuarios == r.body
      ensures !r.Ok? ==> usuarios == []
    {
      if r.Ok? {
        usuarios := r.body;
      } else {
        usuarios := [];
      }
    }

    /** `createUsuario`: only an ok response appends the server's record. */
    method CreateUsuario(r: Response<Usuario>) returns (ok: bool)
      modifies this`usuarios, this`error
      ensures ok == r.Ok?
      ensures r.Ok? ==> usuarios == old(usuarios) + [r.body] && error == old(error)
      ensures !r.Ok? ==> usuarios == old(usuarios) && error == Some(UsuariosSinConexion)
    {
      if r.Ok? {
        usuarios := usuarios + [r.body];
        ok := true;
      } else {
        error := Some(UsuariosSinConexion);
        ok := false;
      }
    }

    /** `updateUsuario`: only an ok response replaces the users whose id is `===` `id`. */
    method UpdateUsuario(id: Id, r: Response<Usuario>) returns (ok: bool)
      modifies this`usuarios, this`error
      ensures ok == r.Ok?
      ensures r.Ok? ==> error == old(error) && |usuarios| == |old(usuarios)|
      ensures r.Ok? ==>
        forall i :: 0 <= i < |usuarios| ==> usuarios[i] == if old(usuarios)[i].id == id then r.body else old(usuarios)[i]
      ensures !r.Ok? ==> usuarios == old(usuarios) && error == Some(UsuariosSinConexion)
    {
      if r.Ok? {
        usuarios := MapWhere(usuarios, UsuarioKey, id, Const(r.body));
        ok := true;
      } else {
        error := Some(UsuariosSinConexion);
        ok := false;
      }
    }

    /** `deleteUsuario`: only an ok response filters out the users whose id is `===` `id`. */
    method DeleteUsuario(id: Id, r: Response<()>) returns (ok: bool)
      modifies this`usuarios, this`error
      ensures ok == r.Ok?
      ensures r.Ok? ==> usuarios == Remove(old(usuarios), UsuarioKey, id) && error == old(error)
      ensures !r.Ok? ==> usuarios == old(usuarios) && error == Some(UsuariosSinConexion)
    {
      if r.Ok? {
        usuarios := Remove(usuarios, UsuarioKey, id);
        ok := true;
      } else {
        error := Some(UsuariosSinConexion);
        ok := false;
      }
    }

    // SOLICITUDES DE DESINSCRIPCIÓN

    /** `loadSolicitudesDesinscripcion`: like the other loads, except that a thrown call with no slot empties the list. */
    method LoadSolicitudesDesinscripcion(r: Response<seq<Solicitud>>)
      modifies this`solicitudes, store`solicitudes
      ensures r.Ok? ==> solicitudes == r.body && store.solicitudes == Some(r.body)
      ensures r.NotOk? ==> solicitudes == old(solicitudes) && store.solicitudes == old(store.solicitudes)
      ensures r.Threw? ==> solicitudes == Slot(store.solicitudes) && store.solicitudes == old(store.solicitudes)
      ensures old(Mirrored()) ==> Mirrored()
    {
      match r
      case Ok(data) =>
        solicitudes := data;
        store.solicitudes := Some(data);
      case NotOk =>
      case Threw =>
        if store.solicitudes.Some? {
          solicitudes := store.solicitudes.value;
        } else {
          solicitudes := [];
        }
    }

    /** `createSolicitudDesinscripcion`. */
    method CreateSolicitudDesinscripcion(draft: SolicitudDraft, now: nat, today: string, r: Response<Solicitud>) returns (ok: bool)
      modifies this`solicitudes, store`solicitudes
      ensures ok
      ensures solicitudes == old(solicitudes) + [Reconcile(r, NewSolicitud(draft, now, today))]
      ensures store.solicitudes == Some(solicitudes)
      ensures old(Mirrored()) ==> Mirrored()
    {
      var nueva := NewSolicitud(draft, now, today);
      if r.Ok? {
        solicitudes := solicitudes + [r.body];
      } else {
        solicitudes := solicitudes + [nueva];
      }
      store.solicitudes := Some(solicitudes);
      ok := true;
    }

    /**
     * `updateSolicitudDesinscripcion`: the requests whose id is `===` `id`
     * become the server's record, or take the new status; an approval then
     * deletes the registration the old request referenced.
     */
    method UpdateSolicitudDesinscripcion(id: Id, estado: EstadoSolicitud, r: Response<Solicitud>) returns (ok: bool)
      requires estado != Pendiente
      modifies this`solicitudes, store`solicitudes, this`inscripciones, store`inscripciones
      ensures ok
      ensures |solicitudes| == |old(solicitudes)|
      ensures forall i :: 0 <= i < |solicitudes| ==>
        solicitudes[i] == if old(solicitudes)[i].id == id then Reconcile(r, old(solicitudes)[i].(estado := estado)) else old(solicitudes)[i]
      ensures store.solicitudes == Some(solicitudes)
      ensures inscripciones == AfterDecision(old(inscripciones), old(solicitudes), id, estado)
      ensures store.inscripciones ==
        if estado == Aprobada && Find(old(solicitudes), KeyIs(SolicitudKey, id)).Some? then Some(inscripciones)
        else old(store.inscripciones)
      ensures old(Mirrored()) ==> Mirrored()
    {
      var previa := Find(solicitudes, KeyIs(SolicitudKey, id));
      var actualizadas;
      if r.Ok? {
        actualizadas := MapWhere(solicitudes, SolicitudKey, id, Const(r.body));
      } else {
        actualizadas := MapWhere(solicitudes, SolicitudKey, id, WithEstado(estado));
      }
      solicitudes := actualizadas;
      if estado == Aprobada && previa.Some? {
        var borrada := DeleteInscripcion(previa.value.inscripcionId);
      }
      store.solicitudes := Some(actualizadas);
      ok := true;
    }

    // WORKFLOWS

    /** `inscribirseEvento`: the guards of `EnrolPlan`, then `createInscripcion`. */
    method InscribirseEvento(eventoId: Id, usuarioId: Id, now: nat, today: string, r: Response<Inscripcion>) returns (ok: bool)
      modifies this`inscripciones, this`error, store`inscripciones
      ensures ok == EnrolPlan(old(inscripciones), eventos, eventoId, usuarioId, today).Proceed?
      ensures !ok ==>
        error == Some(EnrolPlan(old(inscripciones), eventos, eventoId, usuarioId, today).message) &&
        inscripciones == old(inscripciones) && store.inscripciones == old(store.inscripciones)
      ensures ok ==>
        error == old(error) && store.inscripciones == Some(inscripciones) &&
        inscripciones == old(inscripciones) +
          [Reconcile(r, NewInscripcion(EnrolPlan(old(inscripciones), eventos, eventoId, usuarioId, today).draft, now, today))]
      ensures old(Mirrored()) ==> Mirrored()
    {
      if Any(inscripciones, ConfirmadaDe(IdText(eventoId), IdText(usuarioId))) {
        error := Some(YaInscrito);
        return false;
      }
      var evento := Find(eventos, TextIs(EventoKey, IdText(eventoId)));
      if evento.None? {
        error := Some(EventoNoEncontrado);
        return false;
      }
      var inscritos := Count(inscripciones, ConfirmadaEn(IdText(eventoId)));
      if inscritos >= evento.value.cupos {
        error := Some(SinCupos);
        return false;
      }
      ok := CreateInscripcion(InscripcionDraft(usuarioId, eventoId, today, Confirmada), now, today, r);
    }

    /** `solicitarDesinscripcion`: the guards of `RequestPlan`, then `createSolicitudDesinscripcion`. */
    method SolicitarDesinscripcion(inscripcionId: Id, usuarioId: Id, motivo: Option<string>, now: nat, today: string,
                                   r: Response<Solicitud>) returns (ok: bool)
      modifies this`solicitudes, this`error, store`solicitudes
      ensures ok == RequestPlan(inscripciones, old(solicitudes), inscripcionId, usuarioId, motivo).Proceed?
      ensures !ok ==>
        error == Some(RequestPlan(inscripciones, old(solicitudes), inscripcionId, usuarioId, motivo).message) &&
        solicitudes == old(solicitudes) && store.solicitudes == old(store.solicitudes)
      ensures ok ==>
        error == old(error) && store.solicitudes == Some(solicitudes) &&
        solicitudes == old(solicitudes) +
          [Reconcile(r, NewSolicitud(RequestPlan(inscripciones, old(solicitudes), inscripcionId, usuarioId, motivo).draft, now, today))]
      ensures old(Mirrored()) ==> Mirrored()
    {
      var inscripcion := Find(inscripciones, TextIs(InscripcionKey, IdText(inscripcionId)));
      if inscripcion.None? {
        error := Some(InscripcionNoEncontrada);
        return false;
      }
      if IdText(inscripcion.value.usuarioId) != IdText(usuarioId) {
        error := Some(SinPermisos);
        return false;
      }
      if Any(solicitudes, PendienteDe(IdText(inscripcionId))) {
        error := Some(SolicitudYaPendiente);
        return false;
      }
      ok := CreateSolicitudDesinscripcion(SolicitudDraft(inscripcionId, usuarioId, inscripcion.value.eventoId, motivo), now, today, r);
    }
  }

  // PROPERTIES OF THE WORKFLOWS

  /** One more confirmed registration for the event that passed the guards keeps every event within capacity. */
  lemma EnrolKeepsCapacity(evs: seq<Evento>, ins: seq<Inscripcion>, eventoId: Id, usuarioId: Id, today: string, rec: Inscripcion)
    requires UniqueTexts(evs, EventoKey) && CapacityRespected(evs, ins)
    requires EnrolPlan(ins, evs, eventoId, usuarioId, today).Proceed?
    requires rec.estado == Confirmada && SameText(rec.eventoId, eventoId)
    ensures CapacityRespected(evs, ins + [rec])
  {
    forall k | 0 <= k < |evs|
      ensures Inscritos(ins + [rec], evs[k].id) <= evs[k].cupos
    {
      var p := ConfirmadaEn(IdText(evs[k].id));
      CountAppend(ins, [rec], p);
      CountSingleton(rec, p);
      if IdText(evs[k].id) == IdText(eventoId) {
        FindByUniqueText(evs, EventoKey, k, IdText(eventoId));
      }
    }
  }

  /**
   * While `inscribirseEvento` is the only writer, confirmed registrations
   * never exceed an event's `cupos`: the record a successful enrolment
   * appends is the local one, or a server record that echoes it.
   */
  lemma EnrolmentKeepsCapacity(evs: seq<Evento>, ins: seq<Inscripcion>, eventoId: Id, usuarioId: Id, now: nat, today: string,
                               r: Response<Inscripcion>)
    requires UniqueTexts(evs, EventoKey) && CapacityRespected(evs, ins)
    requires EnrolPlan(ins, evs, eventoId, usuarioId, today).Proceed?
    requires r.Ok? ==> r.body.estado == Confirmada && SameText(r.body.eventoId, eventoId)
    ensures CapacityRespected(evs, ins + [Reconcile(r, NewInscripcion(EnrolPlan(ins, evs, eventoId, usuarioId, today).draft, now, today))])
  {
    var rec := Reconcile(r, NewInscripcion(EnrolPlan(ins, evs, eventoId, usuarioId, today).draft, now, today));
    EnrolKeepsCapacity(evs, ins, eventoId, usuarioId, today, rec);
  }

  /** Once a confirmed registration of the user for the event exists, enrolling again is refused as a duplicate. */
  lemma SecondEnrolRejected(evs: seq<Evento>, ins: seq<Inscripcion>, eventoId: Id, usuarioId: Id, today: string, rec: Inscripcion)
    requires rec.estado == Confirmada && SameText(rec.eventoId, eventoId) && SameText(rec.usuarioId, usuarioId)
    ensures EnrolPlan(ins + [rec], evs, eventoId, usuarioId, today) == Reject(YaInscrito)
  {
    assert (ins + [rec])[|ins|] == rec;
    assert ConfirmadaDe(IdText(eventoId), IdText(usuarioId))((ins + [rec])[|ins|]);
  }

  /** After a request is filed, filing another for the same registration is refused as pending. */
  lemma SecondRequestRejected(ins: seq<Inscripcion>, sols: seq<Solicitud>, inscripcionId: Id, usuarioId: Id,
                              motivo: Option<string>, otro: Option<string>, s: Solicitud)
    requires RequestPlan(ins, sols, inscripcionId, usuarioId, motivo).Proceed?
    requires s.estado == Pendiente && SameText(s.inscripcionId, inscripcionId)
    ensures RequestPlan(ins, sols + [s], inscripcionId, usuarioId, otro) == Reject(SolicitudYaPendiente)
  {
    assert (sols + [s])[|sols|] == s;
    assert PendienteDe(IdText(inscripcionId))((sols + [s])[|sols|]);
  }

  /**
   * Approving a request that exists removes as many registrations as carry
   * its `inscripcionId`, by `===`, and no more.
   */
  lemma DecisionEffect(ins: seq<Inscripcion>, sols: seq<Solicitud>, id: Id)
    requires Find(sols, KeyIs(SolicitudKey, id)).Some?
    ensures var ref := Find(sols, KeyIs(SolicitudKey, id)).value.inscripcionId;
      |AfterDecision(ins, sols, id, Aprobada)| == |ins| - Count(ins, KeyIs(InscripcionKey, ref))
  {
    RemoveCount(ins, InscripcionKey, Find(sols, KeyIs(SolicitudKey, id)).value.inscripcionId);
  }

  /**
   * A request filed on the fallback path and then approved by its own id
   * deletes the registrations whose id is `===` the id the user passed,
   * provided no earlier request already carried the new request's id.
   */
  lemma ApprovalAfterRequest(ins: seq<Inscripcion>, sols: seq<Solicitud>, inscripcionId: Id, usuarioId: Id,
                             motivo: Option<string>, now: nat, today: string)
    requires RequestPlan(ins, sols, inscripcionId, usuarioId, motivo).Proceed?
    requires forall j :: 0 <= j < |sols| ==> sols[j].id != Str(NatText(now))
    ensures var s := NewSolicitud(RequestPlan(ins, sols, inscripcionId, usuarioId, motivo).draft, now, today);
      AfterDecision(ins, sols + [s], s.id, Aprobada) == Remove(ins, InscripcionKey, inscripcionId)
  {
    var s := NewSolicitud(RequestPlan(ins, sols, inscripcionId, usuarioId, motivo).draft, now, today);
    var p := KeyIs(SolicitudKey, s.id);
    FindAppendMiss(sols, [s], p);
    assert [s][0] == s;
    assert Find([s], p) == Some(s);
  }

  /**
   * The request guard matches registrations by id text, the approval deletes
   * by `===`: a request filed with the number 5 for the registration whose
   * id is the string "5" is accepted, and approving it deletes nothing.
   */
  lemma ApprovalMissesTextMatchedRegistration()
    ensures var ins := [Inscripcion(Str("5"), Num(1), Num(2), "2025-01-01", Confirmada)];
      var p := RequestPlan(ins, [], Num(5), Num(1), None);
      p.Proceed? &&
      var s := NewSolicitud(p.draft, 7, "2025-01-02");
      AfterDecision(ins, [s], s.id, Aprobada) == ins
  {
    var ins := [Inscripcion(Str("5"), Num(1), Num(2), "2025-01-01", Confirmada)];
    assert DigitChar(5) == '5' && DigitChar(1) == '1';
    assert IdText(Num(5)) == "5" && IdText(Num(1)) == "1";
    assert IdText(InscripcionKey(ins[0])) == IdText(Num(5));
    assert TextIs(InscripcionKey, IdText(Num(5)))(ins[0]);
    var p := RequestPlan(ins, [], Num(5), Num(1), None);
    assert p.Proceed?;
    var s := NewSolicitud(p.draft, 7, "2025-01-02");
    assert [s][0] == s;
    assert SolicitudKey([s][0]) == s.id;
    assert KeyIs(SolicitudKey, s.id)([s][0]);
    assert Find([s], KeyIs(SolicitudKey, s.id)) == Some(s);
    assert KeyIsNot(InscripcionKey, Num(5))(ins[0]);
    assert ins[1..] == [];
  }

  /** Repeating a fallback update with the same partial, when it leaves the id alone, changes nothing more. */
  lemma FallbackUpdateEventoIdempotent(s: seq<Evento>, id: Id, patch: EventoPatch)
    requires patch.id.None? || patch.id == Some(id)
    ensures MapWhere(MapWhere(s, EventoKey, id, MergeEventoWith(patch)), EventoKey, id, MergeEventoWith(patch)) ==
            MapWhere(s, EventoKey, id, MergeEventoWith(patch))
  {
    forall x: Evento | EventoKey(x) == id
      ensures EventoKey(MergeEventoWith(patch)(x)) == id
      ensures MergeEventoWith(patch)(MergeEventoWith(patch)(x)) == MergeEventoWith(patch)(x)
    {
      MergeEventoLaws(x, patch);
    }
    MapWhereIdempotent(s, EventoKey, id, MergeEventoWith(patch));
  }

  lemma FallbackUpdateInscripcionIdempotent(s: seq<Inscripcion>, id: Id, patch: InscripcionPatch)
    requires patch.id.None? || patch.id == Some(id)
    ensures MapWhere(MapWhere(s, InscripcionKey, id, MergeInscripcionWith(patch)), InscripcionKey, id, MergeInscripcionWith(patch)) ==
            MapWhere(s, InscripcionKey, id, MergeInscripcionWith(patch))
  {
    forall x: Inscripcion | InscripcionKey(x) == id
      ensures InscripcionKey(MergeInscripcionWith(patch)(x)) == id
      ensures MergeInscripcionWith(patch)(MergeInscripcionWith(patch)(x)) == MergeInscripcionWith(patch)(x)
    {
      MergeInscripcionLaws(x, patch);
    }
    MapWhereIdempotent(s, InscripcionKey, id, MergeInscripcionWith(patch));
  }
}
