/**
 * The admin page for unenrolment requests,
 * src/pages/inscripciones/solicitudesDesinscripcion/solicitudesDesinscripcion.tsx:
 * the admin guard, the search and status filter, which requests show the
 * approve and reject actions, and the handlers that forward a fixed status
 * to the hook once the admin confirms the dialog.
 *
 * The lower-cased `includes` search is the parameter `matches`; the
 * dialog's answer is the boolean `confirmado`.
 */
module SolicitudesDesinscripcionPage {
  import opened Seqs
  import opened Ids
  import opened Records
  import opened UseDataManager
  import opened AuthContext

  /** `!user || !user.isAdmin` sends the visitor away. */
  predicate Acceso(user: Option<SessionUser>)
  {
    user.Some? && user.value.isAdmin
  }

  /** What the page shows: a redirect, or the filtered requests. */
  datatype Vista = Redirigir(ruta: string) | Lista(solicitudes: seq<Solicitud>)

  /** `getUsuario(usuarioId)`: the first user whose id has the same text, if any. */
  function GetUsuario(usuarios: seq<Usuario>, usuarioId: Id): (u: Option<Usuario>)
    ensures u.None? <==> forall k :: 0 <= k < |usuarios| ==> !SameText(usuarios[k].id, usuarioId)
    ensures u.Some? ==>
      exists k :: 0 <= k < |usuarios| && usuarios[k] == u.value && SameText(u.value.id, usuarioId) &&
        forall j :: 0 <= j < k ==> !SameText(usuarios[j].id, usuarioId)
  {
    var p := TextIs(UsuarioKey, IdText(usuarioId));
    assert forall k :: 0 <= k < |usuarios| ==> UsuarioKey(usuarios[k]) == usuarios[k].id;
    assert forall k :: 0 <= k < |usuarios| ==> (p(usuarios[k]) <==> SameText(usuarios[k].id, usuarioId));
    FindFirst(usuarios, p);
    Find(usuarios, p)
  }

  /** `getEvento(eventoId)`: the first event whose id has the same text, if any. */
  function GetEvento(evs: seq<Evento>, eventoId: Id): (e: Option<Evento>)
    ensures e.None? <==> forall k :: 0 <= k < |evs| ==> !SameText(evs[k].id, eventoId)
    ensures e.Some? ==>
      exists k :: 0 <= k < |evs| && evs[k] == e.value && SameText(e.value.id, eventoId) &&
        forall j :: 0 <= j < k ==> !SameText(evs[j].id, eventoId)
  {
    var p := TextIs(EventoKey, IdText(eventoId));
    assert forall k :: 0 <= k < |evs| ==> EventoKey(evs[k]) == evs[k].id;
    assert forall k :: 0 <= k < |evs| ==> (p(evs[k]) <==> SameText(evs[k].id, eventoId));
    FindFirst(evs, p);
    Find(evs, p)
  }

  /** `cumpleBusqueda`: no search text, or the user's name, the event's name or the reason matches it. */
  predicate CumpleBusqueda(s: Solicitud, usuarios: seq<Usuario>, evs: seq<Evento>, busqueda: string,
                           matches: (string, string) -> bool)
  {
    busqueda == "" ||
    (GetUsuario(usuarios, s.usuarioId).Some? && matches(GetUsuario(usuarios, s.usuarioId).value.nombre, busqueda)) ||
    (GetEvento(evs, s.eventoId).Some? && matches(GetEvento(evs, s.eventoId).value.nombre, busqueda)) ||
    (s.motivo.Some? && matches(s.motivo.value, busqueda))
  }

  /** `cumpleEstado`: the status select is empty (None) or names exactly this status. */
  predicate CumpleEstado(s: Solicitud, estadoFiltro: Option<EstadoSolicitud>)
  {
    estadoFiltro.None? || s.estado == estadoFiltro.value
  }

  function Cumple(usuarios: seq<Usuario>, evs: seq<Evento>, busqueda: string, estadoFiltro: Option<EstadoSolicitud>,
                  matches: (string, string) -> bool): Solicitud -> bool
  {
    (s: Solicitud) => CumpleBusqueda(s, usuarios, evs, busqueda, matches) && CumpleEstado(s, estadoFiltro)
  }

  /** `solicitudesFiltradas`. */
  function SolicitudesFiltradas(sols: seq<Solicitud>, usuarios: seq<Usuario>, evs: seq<Evento>, busqueda: string,
                                estadoFiltro: Option<EstadoSolicitud>, matches: (string, string) -> bool): seq<Solicitud>
  {
    Filter(sols, Cumple(usuarios, evs, busqueda, estadoFiltro, matches))
  }

  /** The page: a visitor who is not an admin is sent to '/eventos' and sees no request. */
  function Pagina(user: Option<SessionUser>, sols: seq<Solicitud>, usuarios: seq<Usuario>, evs: seq<Evento>,
                  busqueda: string, estadoFiltro: Option<EstadoSolicitud>, matches: (string, string) -> bool): (v: Vista)
    ensures v.Redirigir? <==> !Acceso(user)
    ensures v.Redirigir? ==> v.ruta == "/eventos"
    ensures v.Lista? ==> v.solicitudes == SolicitudesFiltradas(sols, usuarios, evs, busqueda, estadoFiltro, matches)
  {
    if !Acceso(user) then Redirigir("/eventos")
    else Lista(SolicitudesFiltradas(sols, usuarios, evs, busqueda, estadoFiltro, matches))
  }

  /** The foot of a request card: the two actions, or a label with the decided status. */
  datatype Pie = Acciones | Decidida(estado: EstadoSolicitud)

  function PieDe(s: Solicitud): (p: Pie)
    ensures p.Acciones? <==> s.estado == Pendiente
    ensures p.Decidida? ==> p.estado == s.estado && p.estado != Pendiente
  {
    if s.estado == Pendiente then Acciones else Decidida(s.estado)
  }

  /** The page's admin guard is the auth context's `isAdmin`. */
  lemma AccesoIsAdmin(auth: AuthProvider)
    ensures Acceso(auth.user) <==> auth.IsAdmin()
    ensures Acceso(auth.user) ==> auth.IsAuthenticated()
  {
  }

  /**
   * The filtered list keeps requests in their order; with no search text and
   * no status every request is kept; with a status only requests of exactly
   * that status are kept, and every request of that status that passes the
   * search is, as often as it occurs.
   */
  lemma SolicitudesFiltradasSpec(sols: seq<Solicitud>, usuarios: seq<Usuario>, evs: seq<Evento>, busqueda: string,
                                 estadoFiltro: Option<EstadoSolicitud>, matches: (string, string) -> bool)
    ensures var r := SolicitudesFiltradas(sols, usuarios, evs, busqueda, estadoFiltro, matches);
      IsSubsequence(r, sols) &&
      (busqueda == "" && estadoFiltro.None? ==> r == sols) &&
      (estadoFiltro.Some? ==> forall i :: 0 <= i < |r| ==> r[i].estado == estadoFiltro.value) &&
      (forall j :: (0 <= j < |sols| && CumpleEstado(sols[j], estadoFiltro) &&
                    CumpleBusqueda(sols[j], usuarios, evs, busqueda, matches)) ==> sols[j] in r) &&
      (forall x :: multiset(r)[x] ==
         if CumpleBusqueda(x, usuarios, evs, busqueda, matches) && CumpleEstado(x, estadoFiltro) then multiset(sols)[x] else 0)
  {
    var p := Cumple(usuarios, evs, busqueda, estadoFiltro, matches);
    FilterIsSubsequence(sols, p);
    var r := SolicitudesFiltradas(sols, usuarios, evs, busqueda, estadoFiltro, matches);
    if busqueda == "" && estadoFiltro.None? {
      FilterKeepsAll(sols, p);
    }
    forall i | 0 <= i < |r|
      ensures CumpleEstado(r[i], estadoFiltro)
    {
      assert p(r[i]);
    }
    forall x
      ensures multiset(r)[x] ==
        if CumpleBusqueda(x, usuarios, evs, busqueda, matches) && CumpleEstado(x, estadoFiltro) then multiset(sols)[x] else 0
    {
      FilterMultiset(sols, p, x);
    }
  }

  /** `handleAprobar`: once confirmed, the hook's update with status 'aprobada'; otherwise nothing. */
  method HandleAprobar(dm: DataManager, solicitudId: Id, confirmado: bool, r: Response<Solicitud>) returns (exito: Option<bool>)
    modifies dm`solicitudes, dm.store`solicitudes, dm`inscripciones, dm.store`inscripciones
    ensures !confirmado ==>
      exito == None && dm.solicitudes == old(dm.solicitudes) && dm.inscripciones == old(dm.inscripciones) &&
      dm.store.solicitudes == old(dm.store.solicitudes) && dm.store.inscripciones == old(dm.store.inscripciones)
    ensures confirmado ==>
      exito == Some(true) && |dm.solicitudes| == |old(dm.solicitudes)| && dm.store.solicitudes == Some(dm.solicitudes) &&
      dm.inscripciones == AfterDecision(old(dm.inscripciones), old(dm.solicitudes), solicitudId, Aprobada) &&
      dm.store.inscripciones ==
        if Find(old(dm.solicitudes), KeyIs(SolicitudKey, solicitudId)).Some? then Some(dm.inscripciones)
        else old(dm.store.inscripciones)
    ensures confirmado ==>
      forall i :: 0 <= i < |dm.solicitudes| ==>
        dm.solicitudes[i] ==
          if old(dm.solicitudes)[i].id == solicitudId then Reconcile(r, old(dm.solicitudes)[i].(estado := Aprobada))
          else old(dm.solicitudes)[i]
    ensures old(dm.Mirrored()) ==> dm.Mirrored()
  {
    if !confirmado {
      return None;
    }
    var ok := dm.UpdateSolicitudDesinscripcion(solicitudId, Aprobada, r);
    exito := Some(ok);
  }

  /** `handleRechazar`: once confirmed, the hook's update with status 'rechazada', which leaves every registration in place. */
  method HandleRechazar(dm: DataManager, solicitudId: Id, confirmado: bool, r: Response<Solicitud>) returns (exito: Option<bool>)
    modifies dm`solicitudes, dm.store`solicitudes, dm`inscripciones, dm.store`inscripciones
    ensures !confirmado ==>
      exito == None && dm.solicitudes == old(dm.solicitudes) && dm.store.solicitudes == old(dm.store.solicitudes)
    ensures dm.inscripciones == old(dm.inscripciones) && dm.store.inscripciones == old(dm.store.inscripciones)
    ensures confirmado ==>
      exito == Some(true) && |dm.solicitudes| == |old(dm.solicitudes)| && dm.store.solicitudes == Some(dm.solicitudes)
    ensures confirmado ==>
      forall i :: 0 <= i < |dm.solicitudes| ==>
        dm.solicitudes[i] ==
          if old(dm.solicitudes)[i].id == solicitudId then Reconcile(r, old(dm.solicitudes)[i].(estado := Rechazada))
          else old(dm.solicitudes)[i]
    ensures old(dm.Mirrored()) ==> dm.Mirrored()
  {
    if !confirmado {
      return None;
    }
    var ok := dm.UpdateSolicitudDesinscripcion(solicitudId, Rechazada, r);
    exito := Some(ok);
  }
}
