/**
 * The selection and guard logic of the enrolment page,
 * src/pages/eventos/inscribirseEvento/inscribirseEvento.tsx: available
 * slots, "already enrolled", the category list and filters, the choice of
 * button, and the handler that calls the hook's `inscribirseEvento`.
 *
 * The date test `new Date(evento.fecha) > new Date()` is the parameter
 * `futuro`, and the lower-cased `includes` search is the parameter `matches`.
 */
module InscribirseEventoPage {
  import opened Seqs
  import opened Ids
  import opened Records
  import opened UseDataManager

  /**
   * `getCuposDisponibles(evento)`: capacity minus the confirmed registrations
   * for the event, so never more than the capacity, and the whole capacity
   * exactly when no confirmed registration names the event.
   */
  function CuposDisponibles(ins: seq<Inscripcion>, e: Evento): (c: int)
    ensures c <= e.cupos
    ensures c == e.cupos <==> !exists k :: 0 <= k < |ins| && ins[k].estado == Confirmada && SameText(ins[k].eventoId, e.id)
  {
    CountZero(ins, ConfirmadaEn(IdText(e.id)));
    e.cupos - Inscritos(ins, e.id)
  }

  /** `estaInscrito(eventoId)`: false without a user, else a confirmed registration of that event and user, by text. */
  function EstaInscrito(user: Option<SessionUser>, ins: seq<Inscripcion>, eventoId: Id): (b: bool)
    ensures b <==>
      user.Some? &&
      exists k :: 0 <= k < |ins| && ins[k].estado == Confirmada && SameText(ins[k].eventoId, eventoId) &&
        SameText(ins[k].usuarioId, user.value.id)
  {
    user.Some? && Any(ins, ConfirmadaDe(IdText(eventoId), IdText(user.value.id)))
  }

  /** The button of an event card. */
  datatype Boton = IniciarSesion | YaEstaInscrito | Agotado | Inscribirme

  /** The card's button: not signed in, then already enrolled, then no slots left, then enrol. */
  function BotonInscripcion(user: Option<SessionUser>, ins: seq<Inscripcion>, e: Evento): (b: Boton)
    ensures b == IniciarSesion <==> user.None?
    ensures b == YaEstaInscrito <==> user.Some? && EstaInscrito(user, ins, e.id)
    ensures b == Agotado <==> user.Some? && !EstaInscrito(user, ins, e.id) && CuposDisponibles(ins, e) <= 0
    ensures b == Inscribirme <==> user.Some? && !EstaInscrito(user, ins, e.id) && CuposDisponibles(ins, e) > 0
  {
    if user.None? then IniciarSesion
    else if EstaInscrito(user, ins, e.id) then YaEstaInscrito
    else if CuposDisponibles(ins, e) <= 0 then Agotado
    else Inscribirme
  }

  /** `!categoriaFiltro || evento.categoria === categoriaFiltro`. */
  predicate CumpleCategoria(e: Evento, filtro: string)
  {
    filtro == "" || e.categoria == Some(filtro)
  }

  /** The name, the description or the instructor matches the search text. */
  predicate CumpleBusqueda(e: Evento, busqueda: string, matches: (string, string) -> bool)
  {
    matches(e.nombre, busqueda) || matches(e.descripcion, busqueda) ||
    (e.instructor.Some? && matches(e.instructor.value, busqueda))
  }

  function Disponible(busqueda: string, filtro: string, matches: (string, string) -> bool, futuro: Evento -> bool): Evento -> bool
  {
    (e: Evento) => futuro(e) && CumpleBusqueda(e, busqueda, matches) && CumpleCategoria(e, filtro)
  }

  /** `eventosDisponibles`: the upcoming events that pass the search and the category filter. */
  function EventosDisponibles(evs: seq<Evento>, busqueda: string, filtro: string,
                              matches: (string, string) -> bool, futuro: Evento -> bool): seq<Evento>
  {
    Filter(evs, Disponible(busqueda, filtro, matches, futuro))
  }

  /** Some event carries the truthy category `c`. */
  predicate TieneCategoria(evs: seq<Evento>, c: string)
  {
    exists k :: 0 <= k < |evs| && evs[k].categoria == Some(c) && c != ""
  }

  /** `[...new Set(eventos.map(e => e.categoria).filter(Boolean))]`: the truthy categories, first occurrence first. */
  function Categorias(evs: seq<Evento>): (r: seq<string>)
    ensures forall i, j :: 0 <= i < j < |r| ==> r[i] != r[j]
    ensures forall i :: 0 <= i < |r| ==> r[i] != ""
    ensures forall c :: c in r <==> TieneCategoria(evs, c)
    ensures forall i, j :: 0 <= i < j < |r| ==> Antes(evs, r[i], r[j])
  {
    if evs == [] then []
    else
      var init := evs[..|evs| - 1];
      var prev := Categorias(init);
      var last := evs[|evs| - 1].categoria;
      assert forall c :: TieneCategoria(evs, c) <==> TieneCategoria(init, c) || (last == Some(c) && c != "") by {
        forall c
          ensures TieneCategoria(evs, c) ==> TieneCategoria(init, c) || (last == Some(c) && c != "")
        {
          if TieneCategoria(evs, c) {
            var k :| 0 <= k < |evs| && evs[k].categoria == Some(c) && c != "";
            if k < |init| {
              assert init[k] == evs[k];
            }
          }
        }
        forall c | TieneCategoria(init, c)
          ensures TieneCategoria(evs, c)
        {
          var k :| 0 <= k < |init| && init[k].categoria == Some(c) && c != "";
          assert evs[k] == init[k];
        }
      }
      var r := if last.Some? && last.value != "" && last.value !in prev then prev + [last.value] else prev;
      assert evs == init + [evs[|evs| - 1]];
      forall i, j | 0 <= i < j < |r|
        ensures Antes(evs, r[i], r[j])
      {
        assert r[i] == prev[i];
        if j < |prev| {
          assert r[j] == prev[j];
          AntesExtend(init, evs[|evs| - 1], r[i], r[j]);
        } else {
          AntesNew(init, evs[|evs| - 1], r[i], r[j]);
        }
      }
      r
  }

  /** Every event with category `b` comes after some event with category `a`. */
  predicate Antes(evs: seq<Evento>, a: string, b: string)
  {
    forall k :: 0 <= k < |evs| && evs[k].categoria == Some(b) ==> exists m :: 0 <= m < k && evs[m].categoria == Some(a)
  }

  /** An event added at the end keeps an order that held and in which `a` already occurs. */
  lemma AntesExtend(init: seq<Evento>, x: Evento, a: string, b: string)
    requires Antes(init, a, b) && TieneCategoria(init, a)
    ensures Antes(init + [x], a, b)
  {
    var evs := init + [x];
    forall k | 0 <= k < |evs| && evs[k].categoria == Some(b)
      ensures exists m :: 0 <= m < k && evs[m].categoria == Some(a)
    {
      if k < |init| {
        assert init[k] == evs[k];
        var m :| 0 <= m < k && init[m].categoria == Some(a);
        assert evs[m] == init[m];
      } else {
        var m :| 0 <= m < |init| && init[m].categoria == Some(a) && a != "";
        assert evs[m] == init[m];
      }
    }
  }

  /** A category first seen in the added event comes after every category already seen. */
  lemma AntesNew(init: seq<Evento>, x: Evento, a: string, b: string)
    requires TieneCategoria(init, a) && !TieneCategoria(init, b) && b != ""
    ensures Antes(init + [x], a, b)
  {
    var evs := init + [x];
    forall k | 0 <= k < |evs| && evs[k].categoria == Some(b)
      ensures exists m :: 0 <= m < k && evs[m].categoria == Some(a)
    {
      if k < |init| {
        assert false;
      }
      var m :| 0 <= m < |init| && init[m].categoria == Some(a) && a != "";
      assert evs[m] == init[m];
    }
  }

  /** The outcome of `handleInscribirse`. */
  datatype Resultado = IrALogin | Aviso(exito: bool)

  /** `handleInscribirse`: without a user go to the login page and leave the hook alone; else enrol the user. */
  method HandleInscribirse(dm: DataManager, user: Option<SessionUser>, eventoId: Id, now: nat, today: string,
                           r: Response<Inscripcion>) returns (res: Resultado)
    modifies dm`inscripciones, dm`error, dm.store`inscripciones
    ensures user.None? ==>
      res == IrALogin && dm.inscripciones == old(dm.inscripciones) && dm.error == old(dm.error) &&
      dm.store.inscripciones == old(dm.store.inscripciones)
    ensures user.Some? ==>
      res == Aviso(EnrolPlan(old(dm.inscripciones), dm.eventos, eventoId, user.value.id, today).Proceed?)
    ensures user.Some? && res == Aviso(true) ==>
      dm.error == old(dm.error) && dm.store.inscripciones == Some(dm.inscripciones) &&
      dm.inscripciones ==
        old(dm.inscripciones) +
        [Reconcile(r, NewInscripcion(EnrolPlan(old(dm.inscripciones), dm.eventos, eventoId, user.value.id, today).draft, now, today))]
    ensures user.Some? && res == Aviso(false) ==>
      dm.inscripciones == old(dm.inscripciones) && dm.store.inscripciones == old(dm.store.inscripciones) &&
      dm.error == Some(EnrolPlan(old(dm.inscripciones), dm.eventos, eventoId, user.value.id, today).message)
    ensures old(dm.Mirrored()) ==> dm.Mirrored()
  {
    if user.None? {
      return IrALogin;
    }
    var ok := dm.InscribirseEvento(eventoId, user.value.id, now, today, r);
    res := Aviso(ok);
  }

  /**
   * The page and the hook agree on every listed event, for a signed-in user
   * and event ids with distinct texts: the card offers "Inscribirme" exactly
   * when the hook's guards pass, and each disabled button is the guard that
   * would refuse.
   */
  lemma BotonAgreesWithHook(evs: seq<Evento>, ins: seq<Inscripcion>, k: nat, u: SessionUser, today: string)
    requires k < |evs| && UniqueTexts(evs, EventoKey)
    ensures BotonInscripcion(Some(u), ins, evs[k]) == Inscribirme <==> EnrolPlan(ins, evs, evs[k].id, u.id, today).Proceed?
    ensures BotonInscripcion(Some(u), ins, evs[k]) == YaEstaInscrito <==> EnrolPlan(ins, evs, evs[k].id, u.id, today) == Reject(YaInscrito)
    ensures BotonInscripcion(Some(u), ins, evs[k]) == Agotado <==> EnrolPlan(ins, evs, evs[k].id, u.id, today) == Reject(SinCupos)
    ensures EnrolPlan(ins, evs, evs[k].id, u.id, today) != Reject(EventoNoEncontrado)
  {
    FindByUniqueText(evs, EventoKey, k, IdText(evs[k].id));
  }

  /** Each further confirmed registration of the event takes exactly one slot. */
  lemma CuposAfterEnrol(ins: seq<Inscripcion>, e: Evento, rec: Inscripcion)
    requires rec.estado == Confirmada && SameText(rec.eventoId, e.id)
    ensures CuposDisponibles(ins + [rec], e) == CuposDisponibles(ins, e) - 1
  {
    var p := ConfirmadaEn(IdText(e.id));
    CountAppend(ins, [rec], p);
    CountSingleton(rec, p);
  }

  /** While capacity is respected no listed event shows a negative number of slots, so "no slots" means exactly full. */
  lemma CuposNeverNegative(evs: seq<Evento>, ins: seq<Inscripcion>, k: nat)
    requires k < |evs| && CapacityRespected(evs, ins)
    ensures CuposDisponibles(ins, evs[k]) >= 0
    ensures CuposDisponibles(ins, evs[k]) <= 0 <==> Inscritos(ins, evs[k].id) == evs[k].cupos
  {
  }

  /**
   * The listed events are the upcoming events of the list that pass the
   * search and the category filter, in order and as often as they occur; an empty category filter lets every category through and a
   * non-empty one only that exact category.
   */
  lemma EventosDisponiblesSpec(evs: seq<Evento>, busqueda: string, filtro: string,
                               matches: (string, string) -> bool, futuro: Evento -> bool)
    ensures var r := EventosDisponibles(evs, busqueda, filtro, matches, futuro);
      IsSubsequence(r, evs) &&
      (forall i :: 0 <= i < |r| ==> futuro(r[i]) && CumpleBusqueda(r[i], busqueda, matches)) &&
      (filtro != "" ==> forall i :: 0 <= i < |r| ==> r[i].categoria == Some(filtro)) &&
      (filtro == "" ==> r == Filter(evs, (e: Evento) => futuro(e) && CumpleBusqueda(e, busqueda, matches))) &&
      (forall x :: multiset(r)[x] ==
         if futuro(x) && CumpleBusqueda(x, busqueda, matches) && CumpleCategoria(x, filtro) then multiset(evs)[x] else 0)
  {
    var p := Disponible(busqueda, filtro, matches, futuro);
    FilterIsSubsequence(evs, p);
    forall x
      ensures multiset(EventosDisponibles(evs, busqueda, filtro, matches, futuro))[x] ==
        if futuro(x) && CumpleBusqueda(x, busqueda, matches) && CumpleCategoria(x, filtro) then multiset(evs)[x] else 0
    {
      FilterMultiset(evs, p, x);
    }
    if filtro == "" {
      FilterSamePredicate(evs, p, (e: Evento) => futuro(e) && CumpleBusqueda(e, busqueda, matches));
    }
  }
}
