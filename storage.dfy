/**
 * The browser's `localStorage` as the application uses it: one slot per
 * key, each holding the parsed value of its JSON text, or nothing when
 * `getItem` returns null. The hook and the auth context share it.
 */
module Storage {
  import opened Seqs
  import opened Records

  class LocalStorage {
    /** The 'eventos' slot. */
    var eventos: Option<seq<Evento>>
    /** The 'inscripciones' slot. */
    var inscripciones: Option<seq<Inscripcion>>
    /** The 'solicitudesDesinscripcion' slot. */
    var solicitudes: Option<seq<Solicitud>>
    /** The 'usuarios' slot: the auth context's local user list, passwords included. */
    var usuarios: Option<seq<Usuario>>
    /** The 'user' slot: the signed-in session user. */
    var user: Option<SessionUser>

    constructor (
      eventos: Option<seq<Evento>>,
      inscripciones: Option<seq<Inscripcion>>,
      solicitudes: Option<seq<Solicitud>>,
      usuarios: Option<seq<Usuario>>,
      user: Option<SessionUser>)
      ensures this.eventos == eventos && this.inscripciones == inscripciones
      ensures this.solicitudes == solicitudes && this.usuarios == usuarios && this.user == user
    {
      this.eventos := eventos;
      this.inscripciones := inscripciones;
      this.solicitudes := solicitudes;
      this.usuarios := usuarios;
      this.user := user;
    }
  }

  /** `JSON.parse(localStorage.getItem(key) || '[]')`: a missing list slot reads as the empty list. */
  function Slot<T>(o: Option<seq<T>>): (s: seq<T>)
    ensures o.None? ==> s == []
    ensures o.Some? ==> s == o.value
  {
    if o.Some? then o.value else []
  }

  /** `if (local) setX(JSON.parse(local))`: the slot's list when the slot exists, else what memory holds. */
  function FromSlot<T>(mem: seq<T>, o: Option<seq<T>>): (s: seq<T>)
    ensures o.None? ==> s == mem
    ensures o.Some? ==> s == o.value
  {
    if o.Some? then o.value else mem
  }
}
