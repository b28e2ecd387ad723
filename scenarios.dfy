/**
 * Whole runs of the hook against a fresh storage, with the server down:
 * a two-slot event filling up, users versus events under a network
 * failure, and the removal of a stale 'usuarios' slot on initialisation.
 */
module Scenarios {
  import opened Seqs
  import opened Ids
  import opened Records
  import opened Storage
  import opened UseDataManager

  /** An event with two slots, stored under the id 1. */
  const Taller := Evento(Num(1), "Taller", "2030-05-01", "Cerámica", 2, Some(2), None, None, None, None, None)

  const Hoy := "2030-01-01"

  /** The registration the fallback builds for user `u` at time `now`. */
  function Local(u: string, now: nat): Inscripcion
  {
    NewInscripcion(InscripcionDraft(Str(u), Num(1), Hoy, Confirmada), now, Hoy)
  }

  /** The event's id reads "1", and a lookup by that text finds it. */
  lemma TallerFound()
    ensures IdText(Num(1)) == "1"
    ensures Find([Taller], TextIs(EventoKey, "1")) == Some(Taller)
  {
    assert DigitChar(1) == '1';
    assert [Taller][0] == Taller && EventoKey(Taller) == Num(1);
    assert TextIs(EventoKey, "1")([Taller][0]);
  }

  /** A user with no registration yet passes the guards while a slot is left. */
  lemma EnrolOpen(ins: seq<Inscripcion>, u: string)
    requires forall k :: 0 <= k < |ins| ==> IdText(ins[k].usuarioId) != u
    requires Inscritos(ins, Num(1)) < 2
    ensures EnrolPlan(ins, [Taller], Num(1), Str(u), Hoy) == Proceed(InscripcionDraft(Str(u), Num(1), Hoy, Confirmada))
  {
    TallerFound();
    var p := ConfirmadaDe("1", u);
    assert !Any(ins, p) by {
      forall k | 0 <= k < |ins|
        ensures !p(ins[k])
      {
      }
    }
  }

  /** A user with no registration yet is refused once both slots are taken. */
  lemma EnrolFull(ins: seq<Inscripcion>, u: string)
    requires forall k :: 0 <= k < |ins| ==> IdText(ins[k].usuarioId) != u
    requires Inscritos(ins, Num(1)) == 2
    ensures EnrolPlan(ins, [Taller], Num(1), Str(u), Hoy) == Reject(SinCupos)
  {
    TallerFound();
    var p := ConfirmadaDe("1", u);
    assert !Any(ins, p) by {
      forall k | 0 <= k < |ins|
        ensures !p(ins[k])
      {
      }
    }
  }

  /** Both local registrations count as confirmed registrations of the event. */
  lemma TwoConfirmed()
    ensures Inscritos([Local("ana", 100)], Num(1)) == 1
    ensures Inscritos([Local("ana", 100), Local("bea", 101)], Num(1)) == 2
  {
    TallerFound();
    var p := ConfirmadaEn("1");
    assert p(Local("ana", 100)) && p(Local("bea", 101));
    CountSingleton(Local("ana", 100), p);
    CountSingleton(Local("bea", 101), p);
    CountAppend([Local("ana", 100)], [Local("bea", 101)], p);
  }

  /**
   * With the server unreachable, two different users enrol in the two-slot
   * event, a third is refused for lack of slots, and the event keeps two
   * confirmed registrations.
   */
  method CapacityTwo() returns (primera: bool, segunda: bool, tercera: bool, inscritos: nat, error: Option<string>)
    ensures primera && segunda && !tercera
    ensures inscritos == 2 && error == Some(SinCupos)
  {
    var store := new LocalStorage(Some([Taller]), None, None, None, None);
    var dm := new DataManager(store);
    dm.InitializeData(Threw, Threw, Threw, Threw);
    assert dm.eventos == [Taller] && dm.inscripciones == [];

    EnrolOpen([], "ana");
    primera := dm.InscribirseEvento(Num(1), Str("ana"), 100, Hoy, Threw);
    assert dm.inscripciones == [Local("ana", 100)];

    TwoConfirmed();
    EnrolOpen([Local("ana", 100)], "bea");
    segunda := dm.InscribirseEvento(Num(1), Str("bea"), 101, Hoy, Threw);
    assert dm.inscripciones == [Local("ana", 100), Local("bea", 101)];

    EnrolFull([Local("ana", 100), Local("bea", 101)], "caro");
    tercera := dm.InscribirseEvento(Num(1), Str("caro"), 102, Hoy, Threw);
    inscritos := Inscritos(dm.inscripciones, Num(1));
    error := dm.error;
  }

  /**
   * Under the same network failure, creating a user fails and leaves the
   * users alone, while creating an event succeeds through the local
   * fallback and adds it.
   */
  method UsersHaveNoFallback(u: Usuario, d: EventoDraft, now: nat)
    returns (usuarioCreado: bool, usuariosAntes: seq<Usuario>, usuariosDespues: seq<Usuario>,
             eventoCreado: bool, eventos: seq<Evento>)
    ensures !usuarioCreado && usuariosDespues == usuariosAntes
    ensures eventoCreado && eventos == [NewEvento(d, now)]
  {
    var store := new LocalStorage(None, None, None, None, None);
    var dm := new DataManager(store);
    usuariosAntes := dm.usuarios;
    usuarioCreado := dm.CreateUsuario(Threw);
    usuariosDespues := dm.usuarios;
    eventoCreado := dm.CreateEvento(d, now, Threw);
    eventos := dm.eventos;
  }

  /** A 'usuarios' slot left in the storage is gone once the hook has initialised, whatever the server answers. */
  method StaleUsersSlotRemoved(stale: seq<Usuario>, rEv: Response<seq<Evento>>, rIns: Response<seq<Inscripcion>>,
                               rUs: Response<seq<Usuario>>, rSol: Response<seq<Solicitud>>)
    returns (antes: Option<seq<Usuario>>, despues: Option<seq<Usuario>>)
    ensures antes == Some(stale) && despues == None
  {
    var store := new LocalStorage(None, None, None, Some(stale), None);
    var dm := new DataManager(store);
    antes := store.usuarios;
    dm.InitializeData(rEv, rIns, rUs, rSol);
    despues := store.usuarios;
  }

  /**
   * An event created while the server is down is in the storage, and a
   * later session started with the server still down loads it back with
   * every field as created.
   */
  method EventSurvivesOutage(d: EventoDraft, now: nat) returns (creado: bool, recargados: seq<Evento>)
    ensures creado && recargados == [NewEvento(d, now)]
  {
    var store := new LocalStorage(None, None, None, None, None);
    var primera := new DataManager(store);
    creado := primera.CreateEvento(d, now, Threw);
    var segunda := new DataManager(store);
    segunda.InitializeData(Threw, Threw, Threw, Threw);
    recargados := segunda.eventos;
  }
}
