/**
 * The sign-up page, src/pages/auth/register/register.tsx: the form state,
 * its field-by-field update, the password checks that run before the auth
 * context is called, and the submit handler's error text, loading flag and
 * navigation.
 */
module RegisterPage {
  import opened Seqs
  import opened Ids
  import opened Records
  import opened Storage
  import opened AuthContext

  const NoCoinciden := "Las contraseñas no coinciden"
  const MuyCorta := "La contraseña debe tener al menos 6 caracteres"
  const EmailRegistrado := "Este email ya está registrado"

  /** The shortest password the form accepts. */
  const MinPassword := 6

  /** The five inputs of the form. */
  datatype FormData = FormData(nombre: string, email: string, telefono: string, password: string, confirmPassword: string)

  /** The `name` attribute of an input. */
  datatype Campo = Nombre | Email | Telefono | Password | ConfirmPassword

  /** The form as the page first shows it. */
  const Vacio := FormData("", "", "", "", "")

  /** `formData[name]`. */
  function Field(f: FormData, c: Campo): string
  {
    match c
    case Nombre => f.nombre
    case Email => f.email
    case Telefono => f.telefono
    case Password => f.password
    case ConfirmPassword => f.confirmPassword
  }

  /** `{ ...formData, [name]: value }`. */
  function WithField(f: FormData, c: Campo, v: string): (g: FormData)
    ensures Field(g, c) == v
    ensures forall d :: d != c ==> Field(g, d) == Field(f, d)
  {
    match c
    case Nombre => f.(nombre := v)
    case Email => f.(email := v)
    case Telefono => f.(telefono := v)
    case Password => f.(password := v)
    case ConfirmPassword => f.(confirmPassword := v)
  }

  /** The checks `handleSubmit` runs before calling `register`: the confirmation first, then the length. */
  function Validate(f: FormData): (e: Option<string>)
    ensures e.None? <==> f.password == f.confirmPassword && |f.password| >= MinPassword
    ensures e == Some(NoCoinciden) <==> f.password != f.confirmPassword
    ensures e == Some(MuyCorta) <==> f.password == f.confirmPassword && |f.password| < MinPassword
  {
    if f.password != f.confirmPassword then Some(NoCoinciden)
    else if |f.password| < MinPassword then Some(MuyCorta)
    else None
  }

  /** The object handed to `register`: the confirmation stays behind and the phone text is always present. */
  function Payload(f: FormData): (d: RegisterData)
    ensures d.nombre == f.nombre && d.email == f.email && d.telefono == Some(f.telefono) && d.password == f.password
  {
    RegisterData(f.nombre, f.email, Some(f.telefono), f.password)
  }

  class Register {
    var formData: FormData
    var showPassword: bool
    var showConfirmPassword: bool
    var loading: bool
    var error: string
    const auth: AuthProvider

    constructor (auth: AuthProvider)
      ensures this.auth == auth && formData == Vacio && !showPassword && !showConfirmPassword && !loading && error == ""
    {
      this.auth := auth;
      formData := Vacio;
      showPassword := false;
      showConfirmPassword := false;
      loading := false;
      error := "";
    }

    /** `handleChange`: the named input takes the typed value and every other input keeps its own. */
    method HandleChange(c: Campo, valor: string)
      modifies this`formData
      ensures formData == WithField(old(formData), c, valor)
    {
      formData := WithField(formData, c, valor);
    }

    /** The eye button of the password input. */
    method TogglePassword()
      modifies this`showPassword
      ensures showPassword == !old(showPassword)
    {
      showPassword := !showPassword;
    }

    /** The eye button of the confirmation input. */
    method ToggleConfirmPassword()
      modifies this`showConfirmPassword
      ensures showConfirmPassword == !old(showConfirmPassword)
    {
      showConfirmPassword := !showConfirmPassword;
    }

    /**
     * `handleSubmit`: a failed check shows its message and leaves the auth
     * context alone; otherwise `register` runs, a success goes to '/', and a
     * refusal shows that the email is taken. The spinner is off afterwards.
     */
    method HandleSubmit(now: nat, remote: Option<seq<Usuario>>, created: Response<Usuario>) returns (destino: Option<string>)
      modifies this`loading, this`error, auth`user, auth.store`usuarios, auth.store`user
      ensures !loading
      ensures Validate(formData).Some? ==>
        error == Validate(formData).value && destino == None &&
        auth.user == old(auth.user) && auth.store.usuarios == old(auth.store.usuarios) &&
        auth.store.user == old(auth.store.user)
      ensures Validate(formData).None? ==>
        var e := RegisterEffect(Payload(formData), now, remote, created, old(auth.store.usuarios));
        (e.Registered? ==>
           destino == Some("/") && error == "" &&
           auth.store.usuarios == Some(e.usuarios) && auth.user == Some(e.session) && auth.store.user == auth.user) &&
        (e.Refused? ==>
           destino == None && error == EmailRegistrado &&
           auth.user == old(auth.user) && auth.store.usuarios == old(auth.store.usuarios) &&
           auth.store.user == old(auth.store.user))
    {
      loading := true;
      error := "";
      var invalido := Validate(formData);
      if invalido.Some? {
        error := invalido.value;
        loading := false;
        return None;
      }
      var ok := auth.Register(Payload(formData), now, remote, created);
      if ok {
        destino := Some("/");
      } else {
        error := EmailRegistrado;
        destino := None;
      }
      loading := false;
    }
  }

  /** Typing into one input and reading it back gives the typed text; retyping the old text restores the form. */
  lemma WithFieldLaws(f: FormData, c: Campo, v: string, w: string)
    ensures WithField(WithField(f, c, v), c, w) == WithField(f, c, w)
    ensures WithField(WithField(f, c, v), c, Field(f, c)) == f
    ensures WithField(f, c, Field(f, c)) == f
  {
  }

  /**
   * A user stored by a successful sign-up carries the form's email and a
   * password that its confirmation repeated and that is at least six
   * characters long.
   */
  lemma StoredUserPassedChecks(f: FormData, now: nat, remote: Option<seq<Usuario>>, created: Response<Usuario>,
                               local: Option<seq<Usuario>>)
    requires Validate(f).None?
    requires RegisterEffect(Payload(f), now, remote, created, local).Registered?
    ensures var s := RegisterEffect(Payload(f), now, remote, created, local).usuarios;
      |s| > 0 && s[|s| - 1].email == f.email && s[|s| - 1].password == Some(f.confirmPassword) &&
      |s[|s| - 1].password.value| >= MinPassword && !s[|s| - 1].isAdmin
  {
  }
}
