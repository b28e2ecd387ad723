/**
 * The selection logic of the "my registrations" page,
 * src/pages/usuarios/misInscripciones/misInscripciones.tsx: the user's
 * confirmed registrations, the event and pending-request lookups, and the
 * card and button each registration shows. The page guards every id with a
 * truthiness test before comparing texts; those tests are kept.
 *
 * Whether an event has finished (`new Date(evento.fecha) < new Date()`) is
 * the parameter `terminado`.
 */
module MisInscripcionesPage {
  import opened Seqs
  import opened Ids
  import opened Records
  import opened UseDataManager

  /** The filter callback: a truthy user id, a truthy registration user id, equal texts and status 'confirmada'. */
  function DelUsuario(user: Option<SessionUser>): Inscripcion -> bool
  {
    (i: Inscripcion) =>
      user.Some? && !Falsy(user.value.id) && !Falsy(i.usuarioId) &&
      IdText(i.usuarioId) == IdText(user.value.id) && i.estado == Confirmada
  }

  /** `misInscripciones`. */
  function MisInscripciones(ins: seq<Inscripcion>, user: Option<SessionUser>): seq<Inscripcion>
  {
    Filter(ins, DelUsuario(user))
  }

  /** A request the page counts as pending for the registration with this id text. */
  function PendienteVisible(inscripcionText: string): Solicitud -> bool
  {
    (s: Solicitud) => !Falsy(s.inscripcionId) && IdText(s.inscripcionId) == inscripcionText && s.estado == Pendiente
  }

  /** `tieneSolicitudPendiente(inscripcionId)`. */
  predicate TieneSolicitudPendiente(sols: seq<Solicitud>, inscripcionId: Id)
  {
    !Falsy(inscripcionId) && Any(sols, PendienteVisible(IdText(inscripcionId)))
  }

  /** `getSolicitudPendiente(inscripcionId)`: the first visible pending request for the registration. */
  function GetSolicitudPendiente(sols: seq<Solicitud>, inscripcionId: Id): (r: Option<Solicitud>)
    ensures r.Some? <==> TieneSolicitudPendiente(sols, inscripcionId)
    ensures r.Some? ==>
      r.value in sols && r.value.estado == Pendiente && SameText(r.value.inscripcionId, inscripcionId) &&
      !Falsy(r.value.inscripcionId)
    ensures Falsy(inscripcionId) ==> r.None?
  {
    if Falsy(inscripcionId) then None else Find(sols, PendienteVisible(IdText(inscripcionId)))
  }

  /** `getEvento(eventoId)`: for a truthy id, the first event with a truthy id of the same text. */
  function GetEvento(evs: seq<Evento>, eventoId: Id): (r: Option<Evento>)
    ensures r.Some? ==> r.value in evs && SameText(r.value.id, eventoId) && !Falsy(r.value.id)
    ensures r.None? <==> Falsy(eventoId) || forall k :: 0 <= k < |evs| ==> Falsy(evs[k].id) || !SameText(evs[k].id, eventoId)
  {
    if Falsy(eventoId) then None
    else Find(evs, (e: Evento) => !Falsy(e.id) && IdText(e.id) == IdText(eventoId))
  }

  /** The button of a registration card. */
  datatype BotonSolicitud = EventoFinalizado | SolicitudEnCurso | SolicitarDesinscripcion

  /** The button: a finished event first, then a pending request, then the request action. */
  function BotonDesinscripcion(terminado: bool, pendiente: bool): (b: BotonSolicitud)
    ensures b == EventoFinalizado <==> terminado
    ensures b == SolicitudEnCurso <==> !terminado && pendiente
    ensures b == SolicitarDesinscripcion <==> !terminado && !pendiente
  {
    if terminado then EventoFinalizado
    else if pendiente then SolicitudEnCurso
    else SolicitarDesinscripcion
  }

  /** A registration card: only a warning when its event is missing, else the event, its button and the pending request shown. */
  datatype Tarjeta = SinEvento | ConEvento(evento: Evento, boton: BotonSolicitud, pendiente: Option<Solicitud>)

  function TarjetaDe(i: Inscripcion, evs: seq<Evento>, sols: seq<Solicitud>, terminado: Evento -> bool): (t: Tarjeta)
    ensures t.SinEvento? <==> GetEvento(evs, i.eventoId).None?
    ensures t.ConEvento? ==>
      t.evento == GetEvento(evs, i.eventoId).value &&
      t.boton == BotonDesinscripcion(terminado(t.evento), TieneSolicitudPendiente(sols, i.id)) &&
      t.pendiente == GetSolicitudPendiente(sols, i.id)
  {
    match GetEvento(evs, i.eventoId)
    case None => SinEvento
    case Some(e) => ConEvento(e, BotonDesinscripcion(terminado(e), TieneSolicitudPendiente(sols, i.id)), GetSolicitudPendiente(sols, i.id))
  }

  /** What the page shows: without a user, a redirect to '/login'; else one card per registration of the user. */
  datatype Vista = Redirigir(ruta: string) | Tarjetas(tarjetas: seq<Tarjeta>)

  function Pagina(user: Option<SessionUser>, ins: seq<Inscripcion>, evs: seq<Evento>, sols: seq<Solicitud>,
                  terminado: Evento -> bool): (v: Vista)
    ensures v.Redirigir? <==> user.None?
    ensures v.Redirigir? ==> v.ruta == "/login"
    ensures v.Tarjetas? ==>
      |v.tarjetas| == |MisInscripciones(ins, user)| &&
      forall i :: 0 <= i < |v.tarjetas| ==> v.tarjetas[i] == TarjetaDe(MisInscripciones(ins, user)[i], evs, sols, terminado)
  {
    if user.None? then Redirigir("/login")
    else
      var m := MisInscripciones(ins, user);
      Tarjetas(seq(|m|, i requires 0 <= i < |m| => TarjetaDe(m[i], evs, sols, terminado)))
  }

  /**
   * `handleSolicitarDesinscripcion`: once the dialog is confirmed, the hook's
   * `solicitarDesinscripcion` for the signed-in user with the typed reason;
   * a cancelled dialog changes nothing.
   */
  method HandleSolicitarDesinscripcion(dm: DataManager, u: SessionUser, inscripcionId: Id, confirmado: bool, texto: string,
                                       now: nat, today: string, r: Response<Solicitud>) returns (exito: Option<bool>)
    modifies dm`solicitudes, dm`error, dm.store`solicitudes
    ensures !confirmado ==>
      exito == None && dm.solicitudes == old(dm.solicitudes) && dm.error == old(dm.error) &&
      dm.store.solicitudes == old(dm.store.solicitudes)
    ensures confirmado ==>
      exito == Some(RequestPlan(dm.inscripciones, old(dm.solicitudes), inscripcionId, u.id, Some(texto)).Proceed?)
    ensures exito == Some(true) ==>
      dm.error == old(dm.error) && dm.store.solicitudes == Some(dm.solicitudes) &&
      dm.solicitudes ==
        old(dm.solicitudes) +
        [Reconcile(r, NewSolicitud(RequestPlan(dm.inscripciones, old(dm.solicitudes), inscripcionId, u.id, Some(texto)).draft, now, today))]
    ensures exito == Some(false) ==>
      dm.solicitudes == old(dm.solicitudes) && dm.store.solicitudes == old(dm.store.solicitudes) &&
      dm.error == Some(RequestPlan(dm.inscripciones, old(dm.solicitudes), inscripcionId, u.id, Some(texto)).message)
    ensures old(dm.Mirrored()) ==> dm.Mirrored()
  {
    if !confirmado {
      return None;
    }
    var ok := dm.SolicitarDesinscripcion(inscripcionId, u.id, Some(texto), now, today, r);
    exito := Some(ok);
  }

  /**
   * `misInscripciones` holds, in their order and as often as they occur,
   * exactly the confirmed registrations whose user id is truthy and has the
   * id text of the signed-in user, whose own id is truthy; without a user,
   * or with a falsy user id, it is empty.
   */
  lemma MisInscripcionesSpec(ins: seq<Inscripcion>, user: Option<SessionUser>)
    ensures var r := MisInscripciones(ins, user);
      IsSubsequence(r, ins) &&
      (forall i :: 0 <= i < |r| ==>
         user.Some? && !Falsy(user.value.id) && !Falsy(r[i].usuarioId) &&
         SameText(r[i].usuarioId, user.value.id) && r[i].estado == Confirmada) &&
      (forall x :: multiset(r)[x] ==
         if user.Some? && !Falsy(user.value.id) && !Falsy(x.usuarioId) &&
            SameText(x.usuarioId, user.value.id) && x.estado == Confirmada
         then multiset(ins)[x] else 0) &&
      (user.None? || Falsy(user.value.id) ==> r == [])
  {
    var p := DelUsuario(user);
    FilterIsSubsequence(ins, p);
    var r := MisInscripciones(ins, user);
    forall i | 0 <= i < |r|
      ensures user.Some? && !Falsy(user.value.id) && !Falsy(r[i].usuarioId) &&
              SameText(r[i].usuarioId, user.value.id) && r[i].estado == Confirmada
    {
      assert p(r[i]);
    }
    forall x
      ensures multiset(r)[x] ==
        if user.Some? && !Falsy(user.value.id) && !Falsy(x.usuarioId) &&
           SameText(x.usuarioId, user.value.id) && x.estado == Confirmada
        then multiset(ins)[x] else 0
    {
      FilterMultiset(ins, p, x);
    }
  }

  /** `tieneSolicitudPendiente` holds exactly when a pending request with a truthy reference of the same text exists. */
  lemma TieneSolicitudPendienteIff(sols: seq<Solicitud>, inscripcionId: Id)
    ensures TieneSolicitudPendiente(sols, inscripcionId) <==>
      !Falsy(inscripcionId) &&
      exists k :: 0 <= k < |sols| && sols[k].estado == Pendiente && !Falsy(sols[k].inscripcionId) &&
        SameText(sols[k].inscripcionId, inscripcionId)
  {
    if !Falsy(inscripcionId) {
      var p := PendienteVisible(IdText(inscripcionId));
      if exists k :: 0 <= k < |sols| && sols[k].estado == Pendiente && !Falsy(sols[k].inscripcionId) &&
           SameText(sols[k].inscripcionId, inscripcionId) {
        var k :| 0 <= k < |sols| && sols[k].estado == Pendiente && !Falsy(sols[k].inscripcionId) &&
          SameText(sols[k].inscripcionId, inscripcionId);
        assert p(sols[k]);
      }
    }
  }

  /**
   * The page and the hook agree on filing a request. For one of the user's
   * registrations whose own id is truthy, with registration ids of distinct
   * texts and no request with a falsy reference: when the card offers the
   * request action the
   * hook's guards pass, and when the guards pass the card of an unfinished
   * event offers the action.
   */
  lemma SolicitarAgreesWithHook(ins: seq<Inscripcion>, evs: seq<Evento>, sols: seq<Solicitud>, k: nat, u: SessionUser,
                               terminado: Evento -> bool, motivo: Option<string>)
    requires k < |ins| && UniqueTexts(ins, InscripcionKey)
    requires DelUsuario(Some(u))(ins[k]) && !Falsy(ins[k].id)
    requires forall j :: 0 <= j < |sols| ==> !Falsy(sols[j].inscripcionId)
    ensures TarjetaDe(ins[k], evs, sols, terminado).ConEvento? &&
            TarjetaDe(ins[k], evs, sols, terminado).boton == SolicitarDesinscripcion ==>
            RequestPlan(ins, sols, ins[k].id, u.id, motivo).Proceed?
    ensures RequestPlan(ins, sols, ins[k].id, u.id, motivo).Proceed? && GetEvento(evs, ins[k].eventoId).Some? &&
            !terminado(GetEvento(evs, ins[k].eventoId).value) ==>
            TarjetaDe(ins[k], evs, sols, terminado).boton == SolicitarDesinscripcion
  {
    var t := IdText(ins[k].id);
    FindByUniqueText(ins, InscripcionKey, k, t);
    var hook := PendienteDe(t);
    var page := PendienteVisible(t);
    assert Any(sols, hook) <==> Any(sols, page) by {
      forall j | 0 <= j < |sols|
        ensures hook(sols[j]) <==> page(sols[j])
      {
      }
    }
  }
}
