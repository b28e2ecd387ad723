/**
 * The `AuthProvider` of src/context/AuthContext.tsx: the signed-in session
 * user, credential lookup for `login`, the email check and new-user record
 * of `register`, and `logout`. Both `login` and `register` try the server's
 * user list first and fall back to the 'usuarios' storage slot.
 *
 * The server's user list is `Some(list)` when the fetch and its JSON parse
 * succeeded (the source does not look at the status) and `None` when either
 * threw; the POST of `register` is a `Response`.
 */
module AuthContext {
  import opened Seqs
  import opened Ids
  import opened Records
  import opened Storage

  /** `Omit<User, 'id' | 'isAdmin'> & { password: string }`. */
  datatype RegisterData = RegisterData(nombre: string, email: string, telefono: Option<string>, password: string)

  /** `u => u.email === email && u.password === password`. */
  function Credenciales(email: string, password: string): Usuario -> bool
  {
    (u: Usuario) => u.email == email && u.password == Some(password)
  }

  /** `u => u.email === email`. */
  function EmailIs(email: string): Usuario -> bool
  {
    (u: Usuario) => u.email == email
  }

  /** `{ ...userData, isAdmin: false, id: Date.now() }`. */
  function NewUser(d: RegisterData, now: nat): (u: Usuario)
    ensures !u.isAdmin && u.id == Num(now) && u.password == Some(d.password)
    ensures u.nombre == d.nombre && u.email == d.email && u.telefono == d.telefono
  {
    Usuario(Num(now), d.nombre, d.email, Some(d.password), d.telefono, false, None)
  }

  /** The user `login` signs in: the first server user with these credentials, else the first stored one. */
  function LoginMatch(remote: Option<seq<Usuario>>, local: Option<seq<Usuario>>, email: string, password: string): (m: Option<Usuario>)
    ensures m.Some? ==> m.value.email == email && m.value.password == Some(password)
    ensures m.Some? <==>
      (remote.Some? && Any(remote.value, Credenciales(email, password))) || Any(Slot(local), Credenciales(email, password))
    ensures remote.Some? && Any(remote.value, Credenciales(email, password)) ==>
      m == Find(remote.value, Credenciales(email, password))
    ensures m.Some? ==> (remote.Some? && m.value in remote.value) || m.value in Slot(local)
  {
    var fromServer := if remote.Some? then Find(remote.value, Credenciales(email, password)) else None;
    if fromServer.Some? then fromServer
    else if local.Some? then Find(local.value, Credenciales(email, password))
    else None
  }

  /** What `register` leaves behind: a refusal, or the new stored list and the session user. */
  datatype RegisterOutcome = Refused | Registered(usuarios: seq<Usuario>, session: SessionUser)

  /** The server path of `register` is taken when the list arrived and the POST was ok. */
  predicate ServerPath(remote: Option<seq<Usuario>>, created: Response<Usuario>)
  {
    remote.Some? && created.Ok?
  }

  /** The outcome of `register`: the server's list is checked first; a failed POST falls through to the stored list. */
  function RegisterEffect(d: RegisterData, now: nat, remote: Option<seq<Usuario>>, created: Response<Usuario>,
                          local: Option<seq<Usuario>>): (e: RegisterOutcome)
    ensures remote.Some? && Any(remote.value, EmailIs(d.email)) ==> e.Refused?
    ensures e.Refused? <==>
      (remote.Some? && Any(remote.value, EmailIs(d.email))) ||
      (!ServerPath(remote, created) && Any(Slot(local), EmailIs(d.email)))
    ensures e.Registered? ==> e.usuarios == Slot(local) + [NewUser(d, now)]
    ensures e.Registered? && ServerPath(remote, created) ==> e.session == ToSession(created.body)
    ensures e.Registered? && !ServerPath(remote, created) ==> e.session == ToSession(NewUser(d, now)) && !e.session.isAdmin
  {
    if remote.Some? && Any(remote.value, EmailIs(d.email)) then Refused
    else if ServerPath(remote, created) then Registered(Slot(local) + [NewUser(d, now)], ToSession(created.body))
    else if Any(Slot(local), EmailIs(d.email)) then Refused
    else Registered(Slot(local) + [NewUser(d, now)], ToSession(NewUser(d, now)))
  }

  class AuthProvider {
    var user: Option<SessionUser>
    const store: LocalStorage

    /** On mount the session user is read back from the 'user' slot. */
    constructor (store: LocalStorage)
      ensures this.store == store && user == store.user
    {
      this.store := store;
      user := store.user;
    }

    /** `isAuthenticated: !!user`. */
    function IsAuthenticated(): (b: bool)
      reads this`user
      ensures b <==> user != None
    {
      user.Some?
    }

    /** `isAdmin: user?.isAdmin || false`. */
    function IsAdmin(): (b: bool)
      reads this`user
      ensures b ==> IsAuthenticated()
      ensures b <==> user.Some? && user.value.isAdmin
    {
      match user
      case Some(u) => u.isAdmin
      case None => false
    }

    /** `login`: a match signs the user in, without the password; no match changes nothing. */
    method Login(email: string, password: string, remote: Option<seq<Usuario>>) returns (ok: bool)
      modifies this`user, store`user
      ensures ok == LoginMatch(remote, store.usuarios, email, password).Some?
      ensures ok ==>
        user == Some(ToSession(LoginMatch(remote, store.usuarios, email, password).value)) && store.user == user
      ensures !ok ==> user == old(user) && store.user == old(store.user)
    {
      if remote.Some? {
        var found := Find(remote.value, Credenciales(email, password));
        if found.Some? {
          var sesion := ToSession(found.value);
          user := Some(sesion);
          store.user := Some(sesion);
          return true;
        }
      }
      if store.usuarios.Some? {
        var found := Find(store.usuarios.value, Credenciales(email, password));
        if found.Some? {
          var sesion := ToSession(found.value);
          user := Some(sesion);
          store.user := Some(sesion);
          return true;
        }
      }
      ok := false;
    }

    /** `register`. */
    method Register(d: RegisterData, now: nat, remote: Option<seq<Usuario>>, created: Response<Usuario>) returns (ok: bool)
      modifies this`user, store`usuarios, store`user
      ensures ok == RegisterEffect(d, now, remote, created, old(store.usuarios)).Registered?
      ensures !ok ==> user == old(user) && store.usuarios == old(store.usuarios) && store.user == old(store.user)
      ensures ok ==>
        store.usuarios == Some(RegisterEffect(d, now, remote, created, old(store.usuarios)).usuarios) &&
        user == Some(RegisterEffect(d, now, remote, created, old(store.usuarios)).session) && store.user == user
    {
      if remote.Some? {
        if Any(remote.value, EmailIs(d.email)) {
          return false;
        }
        var nuevo := NewUser(d, now);
        if created.Ok? {
          store.usuarios := Some(Slot(store.usuarios) + [nuevo]);
          var sesion := ToSession(created.body);
          user := Some(sesion);
          store.user := Some(sesion);
          return true;
        }
      }
      var usuarios := Slot(store.usuarios);
      if Any(usuarios, EmailIs(d.email)) {
        return false;
      }
      var nuevo := NewUser(d, now);
      usuarios := usuarios + [nuevo];
      store.usuarios := Some(usuarios);
      var sesion := ToSession(nuevo);
      user := Some(sesion);
      store.user := Some(sesion);
      ok := true;
    }

    /** `logout`: no session user, and no 'user' slot. */
    method Logout()
      modifies this`user, store`user
      ensures user == None && store.user == None
      ensures !IsAuthenticated() && !IsAdmin()
    {
      user := None;
      store.user := None;
    }
  }

  /** Without the server, `login` succeeds exactly when a stored user has that email and that password. */
  lemma LocalLoginIff(local: Option<seq<Usuario>>, email: string, password: string)
    ensures LoginMatch(None, local, email, password).Some? <==>
      exists k :: 0 <= k < |Slot(local)| && Slot(local)[k].email == email && Slot(local)[k].password == Some(password)
  {
    var s := Slot(local);
    if exists k :: 0 <= k < |s| && s[k].email == email && s[k].password == Some(password) {
      var k :| 0 <= k < |s| && s[k].email == email && s[k].password == Some(password);
      assert Credenciales(email, password)(s[k]);
    }
  }

  /** No two stored users share an email. */
  predicate UniqueEmails(s: seq<Usuario>)
  {
    forall a, b :: 0 <= a < b < |s| ==> s[a].email != s[b].email
  }

  /** The stored path of `register` keeps the stored emails unique. */
  lemma StoredRegisterKeepsEmailsUnique(d: RegisterData, now: nat, remote: Option<seq<Usuario>>, created: Response<Usuario>,
                                        local: Option<seq<Usuario>>)
    requires UniqueEmails(Slot(local)) && !ServerPath(remote, created)
    requires RegisterEffect(d, now, remote, created, local).Registered?
    ensures UniqueEmails(RegisterEffect(d, now, remote, created, local).usuarios)
  {
  }

  /**
   * The server path appends to the stored list without looking at it: an
   * email already stored locally is stored a second time.
   */
  lemma ServerRegisterDuplicatesStoredEmail()
    ensures var d := RegisterData("Ana", "ana@example.com", None, "secreto");
      var stored := [NewUser(d, 1)];
      var e := RegisterEffect(d, 2, Some([]), Ok(NewUser(d, 2)), Some(stored));
      e.Registered? && !UniqueEmails(e.usuarios)
  {
    var d := RegisterData("Ana", "ana@example.com", None, "secreto");
    var e := RegisterEffect(d, 2, Some([]), Ok(NewUser(d, 2)), Some([NewUser(d, 1)]));
    assert e.usuarios[0].email == e.usuarios[1].email;
  }

  /** After the stored path of `register`, logging in without the server with the same credentials signs in the new user. */
  lemma RegisterThenLogin(d: RegisterData, now: nat, remote: Option<seq<Usuario>>, created: Response<Usuario>,
                          local: Option<seq<Usuario>>)
    requires !ServerPath(remote, created)
    requires RegisterEffect(d, now, remote, created, local).Registered?
    ensures LoginMatch(None, Some(RegisterEffect(d, now, remote, created, local).usuarios), d.email, d.password) ==
            Some(NewUser(d, now))
  {
    var s := Slot(local);
    var p := Credenciales(d.email, d.password);
    assert !Any(s, p);
    FindAppendMiss(s, [NewUser(d, now)], p);
    assert p([NewUser(d, now)][0]);
    assert Find([NewUser(d, now)], p) == Some(NewUser(d, now));
  }
}
