/**
  POST /api/auth/login and POST /api/auth/register: early-return decision
  chains over the user table. Password hashing and checking (bcrypt), token
  signing (JWT) and the email check of the schemas are parameters; the
  session cookie is a small object the handlers write on success.
*/
module Auth {
  import opened Wrappers
  import opened Schema
  import opened Validations
  import opened Db

  const EmailOuSenhaIncorretos := "Email ou senha incorretos"
  const UsuarioInativo := "Usuário inativo"
  const EmailJaCadastrado := "Email já cadastrado"
  const ErroInterno := "Erro interno do servidor"

  /** The user as the response shows it: no password hash, no active flag. */
  datatype PublicUser = PublicUser(id: int, nome: string, email: string, role: UserRole)

  function PublicOf(u: Usuario): (p: PublicUser)
    ensures p.id == u.id && p.nome == u.nome && p.email == u.email && p.role == u.role
  {
    PublicUser(u.id, u.nome, u.email, u.role)
  }

  /** The claims signed into the session token of a user. */
  function PayloadOf(p: PublicUser): (t: UserPayload)
    ensures t.userId == p.id && t.email == p.email && t.role == p.role
  {
    UserPayload(p.id, p.email, p.role)
  }

  /** The `auth-token` cookie of the client. */
  class Session {
    var cookie: Option<string>

    constructor ()
      ensures cookie == None
    {
      cookie := None;
    }

    /** `setSession(token)` */
    method Set(token: string)
      modifies this
      ensures cookie == Some(token)
    {
      cookie := Some(token);
    }
  }

  /** `findFirst({ where: eq(usuarios.email, email) })`: the first user with that email. */
  function FindByEmail(us: seq<Usuario>, email: string): (r: Option<Usuario>)
    ensures r.None? <==> forall i | 0 <= i < |us| :: us[i].email != email
    ensures r.Some? ==> exists i | 0 <= i < |us| :: us[i] == r.value && r.value.email == email
  {
    if us == [] then None
    else if us[0].email == email then Some(us[0])
    else
      var r := FindByEmail(us[1..], email);
      assert forall i | 1 <= i < |us| :: us[i] == us[1..][i - 1];
      r
  }

  // ================================================================ login

  /**
    The login chain: an unparsable body is a 500, a body failing the schema a
    400; an unknown email, and a known one with the wrong password, give the
    same 401; an inactive user is refused before the password is checked.
  */
  function LoginDecision(us: seq<Usuario>, body: Option<LoginBody>, isEmail: string -> bool,
                         verify: (string, string) -> bool): (r: Response<PublicUser>)
    ensures body.None? ==> r == Fail(500, ErroInterno)
    ensures body.Some? && LoginIssues(body.value, isEmail) != [] ==> r == Fail(400, DadosInvalidos)
    ensures body.Some? && LoginIssues(body.value, isEmail) == [] ==>
              match FindByEmail(us, body.value.email)
              case None => r == Fail(401, EmailOuSenhaIncorretos)
              case Some(u) =>
                if !u.ativo then r == Fail(401, UsuarioInativo)
                else if !verify(body.value.password, u.senhaHash) then r == Fail(401, EmailOuSenhaIncorretos)
                else r == Respond(200, PublicOf(u))
  {
    match body
    case None => Fail(500, ErroInterno)
    case Some(b) =>
      if LoginIssues(b, isEmail) != [] then Fail(400, DadosInvalidos)
      else
        match FindByEmail(us, b.email)
        case None => Fail(401, EmailOuSenhaIncorretos)
        case Some(u) =>
          if !u.ativo then Fail(401, UsuarioInativo)
          else if !verify(b.password, u.senhaHash) then Fail(401, EmailOuSenhaIncorretos)
          else Respond(200, PublicOf(u))
  }

  /** An inactive user gets the same answer whatever password is sent. */
  lemma InactiveIgnoresPassword(us: seq<Usuario>, email: string, p1: string, p2: string,
                                isEmail: string -> bool, verify: (string, string) -> bool)
    requires FindByEmail(us, email).Some? && !FindByEmail(us, email).value.ativo
    requires |p1| >= 6 && |p2| >= 6
    ensures LoginDecision(us, Some(LoginBody(email, p1)), isEmail, verify)
            == LoginDecision(us, Some(LoginBody(email, p2)), isEmail, verify)
  {
  }

  /**
    A wrong password and an unknown email cannot be told apart: both give
    the same 401 with the same message.
  */
  lemma NoEmailEnumeration(us: seq<Usuario>, known: string, unknown: string, password: string,
                           isEmail: string -> bool, verify: (string, string) -> bool)
    requires isEmail(known) && isEmail(unknown) && |password| >= 6
    requires FindByEmail(us, known).Some? && FindByEmail(us, known).value.ativo
    requires !verify(password, FindByEmail(us, known).value.senhaHash)
    requires FindByEmail(us, unknown).None?
    ensures LoginDecision(us, Some(LoginBody(known, password)), isEmail, verify)
            == LoginDecision(us, Some(LoginBody(unknown, password)), isEmail, verify)
            == Fail(401, EmailOuSenhaIncorretos)
  {
  }

  /**
    The login handler: the decision over the user table, and on success only
    the session cookie is set to the signed claims of the user.
  */
  method Login(db: Database, session: Session, body: Option<LoginBody>, isEmail: string -> bool,
               verify: (string, string) -> bool, sign: UserPayload -> string) returns (r: Response<PublicUser>)
    modifies session
    ensures r == LoginDecision(db.usuarios, body, isEmail, verify)
    ensures r.Respond? ==> session.cookie == Some(sign(PayloadOf(r.body)))
    ensures r.Fail? ==> session.cookie == old(session.cookie)
  {
    r := LoginDecision(db.usuarios, body, isEmail, verify);
    if r.Respond? {
      var token := sign(PayloadOf(r.body));
      session.Set(token);
    }
  }

  // ============================================================= register

  /** The row the register handler inserts: the given name and email, the hash, role 'vendedor', active. */
  function NewUser(id: int, b: RegisterBody, hash: string -> string): (u: Usuario)
    ensures u.nome == b.nome && u.email == b.email && u.senhaHash == hash(b.password)
    ensures u.role == Vendedor && u.ativo && u.id == id
  {
    Usuario(id, b.nome, b.email, hash(b.password), Vendedor, true)
  }

  /**
    The register chain over the user table and the next serial id: the
    answer and the table afterwards. Only the success path adds a row. The
    schema sets no maximum length, so a name or email too long for its
    varchar(255) column passes validation, and the insert's refusal reaches
    the catch as a 500.
  */
  function RegisterOutcome(us: seq<Usuario>, nextId: int, body: Option<RegisterBody>, isEmail: string -> bool,
                           hash: string -> string): (r: (Response<PublicUser>, seq<Usuario>))
    ensures body.None? ==> r == (Fail(500, ErroInterno), us)
    ensures body.Some? && RegisterIssues(body.value, isEmail) != [] ==> r == (Fail(400, DadosInvalidos), us)
    ensures body.Some? && RegisterIssues(body.value, isEmail) == [] && FindByEmail(us, body.value.email).Some? ==>
              r == (Fail(400, EmailJaCadastrado), us)
    ensures body.Some? && RegisterIssues(body.value, isEmail) == [] && FindByEmail(us, body.value.email).None? &&
            !UsuarioFits(body.value.nome, body.value.email) ==>
              r == (Fail(500, ErroInterno), us)
    ensures r.0.Respond? <==>
              body.Some? && RegisterIssues(body.value, isEmail) == [] && FindByEmail(us, body.value.email).None?
              && UsuarioFits(body.value.nome, body.value.email)
    ensures r.0.Respond? ==>
              var u := NewUser(nextId, body.value, hash);
              r.0 == Respond(200, PublicOf(u)) && r.1 == us + [u]
  {
    match body
    case None => (Fail(500, ErroInterno), us)
    case Some(b) =>
      if RegisterIssues(b, isEmail) != [] then (Fail(400, DadosInvalidos), us)
      else if FindByEmail(us, b.email).Some? then (Fail(400, EmailJaCadastrado), us)
      else if !UsuarioFits(b.nome, b.email) then (Fail(500, ErroInterno), us)
      else
        var u := NewUser(nextId, b, hash);
        (Respond(200, PublicOf(u)), us + [u])
  }

  /** Once an email is registered, registering it again fails and adds nothing. */
  lemma {:induction false} SecondRegisterFails(us: seq<Usuario>, nextId: int, b1: RegisterBody, b2: RegisterBody,
                                               isEmail: string -> bool, hash: string -> string)
    requires RegisterOutcome(us, nextId, Some(b1), isEmail, hash).0.Respond?
    requires b2.email == b1.email && RegisterIssues(b2, isEmail) == []
    ensures var us1 := RegisterOutcome(us, nextId, Some(b1), isEmail, hash).1;
            RegisterOutcome(us1, nextId + 1, Some(b2), isEmail, hash) == (Fail(400, EmailJaCadastrado), us1)
  {
    var us1 := RegisterOutcome(us, nextId, Some(b1), isEmail, hash).1;
    assert us1[|us|].email == b2.email;
  }

  /** A registered user can log in with the password they chose, as an active 'vendedor'. */
  lemma RegisteredUserCanLogIn(us: seq<Usuario>, nextId: int, b: RegisterBody, isEmail: string -> bool,
                               hash: string -> string, verify: (string, string) -> bool)
    requires RegisterOutcome(us, nextId, Some(b), isEmail, hash).0.Respond?
    requires verify(b.password, hash(b.password))
    ensures var us1 := RegisterOutcome(us, nextId, Some(b), isEmail, hash).1;
            LoginDecision(us1, Some(LoginBody(b.email, b.password)), isEmail, verify)
            == Respond(200, PublicUser(nextId, b.nome, b.email, Vendedor))
  {
    var us1 := RegisterOutcome(us, nextId, Some(b), isEmail, hash).1;
    FindAfterAppend(us, NewUser(nextId, b, hash));
  }

  /** Looking up the email of a row appended to a table that lacked it finds that row. */
  lemma {:induction false} FindAfterAppend(us: seq<Usuario>, u: Usuario)
    requires FindByEmail(us, u.email).None?
    ensures FindByEmail(us + [u], u.email) == Some(u)
  {
    if us != [] {
      assert (us + [u])[1..] == us[1..] + [u];
      FindAfterAppend(us[1..], u);
    }
  }

  /**
    The register handler: the decision, the insert, and on success the
    session cookie carrying the new user's claims.
  */
  method Register(db: Database, session: Session, body: Option<RegisterBody>, isEmail: string -> bool,
                  hash: string -> string, sign: UserPayload -> string) returns (r: Response<PublicUser>)
    requires db.Valid()
    modifies db`usuarios, db`nextUsuarioId, session
    ensures db.Valid()
    ensures (r, db.usuarios) == RegisterOutcome(old(db.usuarios), old(db.nextUsuarioId), body, isEmail, hash)
    ensures r.Respond? ==> session.cookie == Some(sign(PayloadOf(r.body))) && r.body.id == old(db.nextUsuarioId)
                           && db.nextUsuarioId == old(db.nextUsuarioId) + 1
    ensures r.Fail? ==> session.cookie == old(session.cookie) && db.nextUsuarioId == old(db.nextUsuarioId)
  {
    match body
    case None =>
      return Fail(500, ErroInterno);
    case Some(b) =>
      if RegisterIssues(b, isEmail) != [] {
        return Fail(400, DadosInvalidos);
      }
      if FindByEmail(db.usuarios, b.email).Some? {
        return Fail(400, EmailJaCadastrado);
      }
      var senhaHash := hash(b.password);
      var created := db.InsertUsuario(b.nome, b.email, senhaHash, Some(Vendedor));
      if created.None? {
        return Fail(500, ErroInterno);
      }
      r := Respond(200, PublicOf(created.value));
      session.Set(sign(PayloadOf(r.body)));
  }
}
