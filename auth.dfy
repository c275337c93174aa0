/** The account service (`services/public/auth_service.py`): registration, login, password
    recovery and profile edits. Passwords are hashed by the password library; the model takes
    its hasher `gerarHash` and its comparison `conferir` as parameters. */
module Auth {
  import opened Common
  import opened Models
  import opened Store

  datatype AuthErro = EmailJaCadastrado | CredenciaisInvalidas | UsuarioNaoEncontrado | EmailEmUso

  /** Some user has this email (`Usuario.query.filter_by(email=...).first()` is not None). */
  predicate EmailUsado(usuarios: map<Id, Usuario>, email: string) {
    exists k :: k in usuarios && usuarios[k].email == email
  }

  /** The `unique=True` of the email column: no two users share an email. */
  predicate EmailsUnicos(usuarios: map<Id, Usuario>) {
    forall k, l :: k in usuarios && l in usuarios && usuarios[k].email == usuarios[l].email ==> k == l
  }

  /** `registrar`. `novoId` is the fresh uuid. A used email raises; otherwise one user is added
      with the hash of the password, never the password, and no CPF. */
  method Registrar(db: Db, nome: string, sobrenome: string, email: string, telefone: Option<string>,
                   senha: string, isAdmin: bool, gerarHash: string -> string, novoId: Id)
    returns (r: Result<Usuario, AuthErro>)
    requires novoId !in db.usuarios
    modifies db`usuarios
    ensures r.Err? <==> EmailUsado(old(db.usuarios), email)
    ensures r.Err? ==> r.error == EmailJaCadastrado && db.usuarios == old(db.usuarios)
    ensures r.Ok? ==> r.value == Usuario(nome, sobrenome, email, telefone, None, gerarHash(senha), isAdmin)
                      && db.usuarios == old(db.usuarios)[novoId := r.value]
    ensures EmailsUnicos(old(db.usuarios)) ==> EmailsUnicos(db.usuarios)
  {
    if exists k :: k in db.usuarios && db.usuarios[k].email == email {
      return Err(EmailJaCadastrado);
    }
    var u := Usuario(nome, sobrenome, email, telefone, None, gerarHash(senha), isAdmin);
    db.usuarios := db.usuarios[novoId := u];
    r := Ok(u);
  }

  /** `login`: the user with that email when the password checks against its hash; otherwise
      the same error whether the email is unknown or the password wrong. */
  method Login(db: Db, email: string, senha: string, conferir: (string, string) -> bool)
    returns (r: Result<Id, AuthErro>)
    requires EmailsUnicos(db.usuarios)
    ensures r.Ok? <==> exists k :: k in db.usuarios && db.usuarios[k].email == email
                                   && conferir(db.usuarios[k].senhaHash, senha)
    ensures r.Ok? ==> r.value in db.usuarios && db.usuarios[r.value].email == email
    ensures r.Err? ==> r.error == CredenciaisInvalidas
  {
    if exists k :: k in db.usuarios && db.usuarios[k].email == email {
      var k :| k in db.usuarios && db.usuarios[k].email == email;
      if conferir(db.usuarios[k].senhaHash, senha) {
        return Ok(k);
      }
    }
    r := Err(CredenciaisInvalidas);
  }

  /** `recuperar_senha`: an unknown email raises; otherwise only that user's hash is replaced. */
  method RecuperarSenha(db: Db, email: string, novaSenha: string, gerarHash: string -> string)
    returns (r: Result<Id, AuthErro>)
    modifies db`usuarios
    ensures r.Err? <==> !EmailUsado(old(db.usuarios), email)
    ensures r.Err? ==> r.error == UsuarioNaoEncontrado && db.usuarios == old(db.usuarios)
    ensures r.Ok? ==> && r.value in old(db.usuarios) && old(db.usuarios)[r.value].email == email
                      && db.usuarios == old(db.usuarios)[r.value := old(db.usuarios)[r.value].(senhaHash := gerarHash(novaSenha))]
    ensures EmailsUnicos(old(db.usuarios)) ==> EmailsUnicos(db.usuarios)
  {
    if !exists k :: k in db.usuarios && db.usuarios[k].email == email {
      return Err(UsuarioNaoEncontrado);
    }
    var k :| k in db.usuarios && db.usuarios[k].email == email;
    db.usuarios := db.usuarios[k := db.usuarios[k].(senhaHash := gerarHash(novaSenha))];
    r := Ok(k);
  }

  /** The user after `editar_perfil`'s assignments: each truthy argument replaces its field. */
  function PerfilEditado(u: Usuario, nome: Option<string>, sobrenome: Option<string>, email: Option<string>,
                         telefone: Option<string>, senha: Option<string>, gerarHash: string -> string): (r: Usuario)
    ensures r.nome == OrElse(nome, u.nome) && r.sobrenome == OrElse(sobrenome, u.sobrenome)
    ensures r.email == OrElse(email, u.email)
    ensures r.telefone == (if Truthy(telefone) then telefone else u.telefone)
    ensures r.senhaHash == (if Truthy(senha) then gerarHash(senha.value) else u.senhaHash)
    ensures r.cpf == u.cpf && r.isAdmin == u.isAdmin
  {
    u.(nome := OrElse(nome, u.nome), sobrenome := OrElse(sobrenome, u.sobrenome), email := OrElse(email, u.email),
       telefone := if Truthy(telefone) then telefone else u.telefone,
       senhaHash := if Truthy(senha) then gerarHash(senha.value) else u.senhaHash)
  }

  /** `editar_perfil`: an unknown current email raises; a truthy new email that any user already
      has, the caller included, raises before the commit, so nothing is stored; otherwise only
      that user changes. */
  method EditarPerfil(db: Db, emailAtual: string, nome: Option<string>, sobrenome: Option<string>,
                      novoEmail: Option<string>, telefone: Option<string>, novaSenha: Option<string>,
                      gerarHash: string -> string) returns (r: Result<Id, AuthErro>)
    modifies db`usuarios
    ensures r.Err? <==> !EmailUsado(old(db.usuarios), emailAtual)
                        || (Truthy(novoEmail) && EmailUsado(old(db.usuarios), novoEmail.value))
    ensures r.Err? ==> db.usuarios == old(db.usuarios)
                       && r.error == (if !EmailUsado(old(db.usuarios), emailAtual) then UsuarioNaoEncontrado else EmailEmUso)
    ensures r.Ok? ==> && r.value in old(db.usuarios) && old(db.usuarios)[r.value].email == emailAtual
                      && db.usuarios == old(db.usuarios)[r.value := PerfilEditado(old(db.usuarios)[r.value], nome,
                                                            sobrenome, novoEmail, telefone, novaSenha, gerarHash)]
    ensures EmailsUnicos(old(db.usuarios)) ==> EmailsUnicos(db.usuarios)
  {
    if !exists k :: k in db.usuarios && db.usuarios[k].email == emailAtual {
      return Err(UsuarioNaoEncontrado);
    }
    var k :| k in db.usuarios && db.usuarios[k].email == emailAtual;
    if Truthy(novoEmail) && exists l :: l in db.usuarios && db.usuarios[l].email == novoEmail.value {
      return Err(EmailEmUso);
    }
    var u := PerfilEditado(db.usuarios[k], nome, sobrenome, novoEmail, telefone, novaSenha, gerarHash);
    db.usuarios := db.usuarios[k := u];
    r := Ok(k);
  }
}
