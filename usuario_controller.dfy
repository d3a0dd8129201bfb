/** The account handlers of `UsuarioController`. Each handler is a method over
    the store and the session manager, proved equal to a function of the state
    before the call; the functions carry what the handlers promise. */
module UsuarioController {
  import opened Common
  import opened Usuario
  import opened Sessao
  import opened Store
  import opened Protocol

  /** Accounts other than `cpf` are kept, with the same rows. */
  ghost predicate OthersKept(before: map<string, Row>, after: map<string, Row>, cpf: string)
  {
    forall c :: c in before && c != cpf ==> c in after && after[c] == before[c]
  }

  /** `criarUsuario`: a duplicate CPF is refused with nothing changed;
      otherwise exactly one account is added, holding the given name, password
      and the balance the request supplied. */
  function CriarUsuarioSpec(s: State, op: string, nome: string, cpf: string, senha: string, saldo: int)
    : (res: (Response, State))
    ensures res.0.op == op && res.0.extras == NoExtras
    ensures res.0.status <==> cpf !in s.accounts
    ensures !res.0.status ==> res.0.info == CpfJaCadastrado && res.1 == s
    ensures res.0.status ==>
              && res.0.info == UsuarioCriado
              && res.1.accounts.Keys == s.accounts.Keys + {cpf}
              && |res.1.accounts| == |s.accounts| + 1
              && res.1.accounts[cpf] == Row(nome, senha, saldo)
              && OthersKept(s.accounts, res.1.accounts, cpf)
              && res.1.ledger == s.ledger && res.1.sessions == s.sessions
  {
    if cpf in s.accounts then (Failed(op, CpfJaCadastrado), s)
    else
      var accounts := s.accounts[cpf := Row(nome, senha, saldo)];
      assert |accounts.Keys| == |s.accounts.Keys + {cpf}| == |s.accounts.Keys| + 1 by {
        assert accounts.Keys == s.accounts.Keys + {cpf};
      }
      (Succeeded(op, UsuarioCriado), s.(accounts := accounts))
  }

  /** `login`: an unknown CPF and a wrong password give the same refusal and
      create no session. A correct pair issues the given token for that CPF
      and returns it, leaving every other session as it was. As written, the
      success reply carries `status=false`. */
  function LoginSpec(s: State, op: string, cpf: string, senha: string, uuid: string)
    : (res: (Response, State))
    ensures res.0.op == op && !res.0.status
    ensures cpf !in s.accounts || s.accounts[cpf].senha != senha ==>
              res.0 == Failed(op, CredenciaisInvalidas) && res.1 == s
    ensures cpf in s.accounts && s.accounts[cpf].senha == senha ==>
              && res.0 == Response(op, false, LoginSucesso, TokenField(uuid))
              && Lookup(res.1.sessions, uuid) == Some(cpf)
              && (forall t :: t != uuid ==> Lookup(res.1.sessions, t) == Lookup(s.sessions, t))
              && res.1.accounts == s.accounts && res.1.ledger == s.ledger
  {
    if cpf !in s.accounts || s.accounts[cpf].senha != senha then (Failed(op, CredenciaisInvalidas), s)
    else
      // The source calls a five-argument `criarResposta` that RespostaManager
      // does not declare (UsuarioController.java:55); the evident intent is a
      // response with an extra `token` field.
      (Response(op, false, LoginSucesso, TokenField(uuid)), s.(sessions := Issue(s.sessions, uuid, cpf)))
  }

  /** `logout`: always reports success; the token no longer resolves and no
      other session, account or record changes. */
  function LogoutSpec(s: State, op: string, token: string): (res: (Response, State))
    ensures res.0 == Succeeded(op, LogoutSucesso)
    ensures Lookup(res.1.sessions, token) == None
    ensures forall t :: t != token ==> Lookup(res.1.sessions, t) == Lookup(s.sessions, t)
    ensures res.1.accounts == s.accounts && res.1.ledger == s.ledger
  {
    (Succeeded(op, LogoutSucesso), s.(sessions := Revoke(s.sessions, Some(token))))
  }

  /** `lerUsuario`: refuses an unresolved token, then a vanished account;
      otherwise returns that account's name, CPF and balance. */
  function LerUsuarioSpec(s: State, op: string, token: string): (r: Response)
    ensures r.op == op
    ensures r.status <==> Lookup(s.sessions, token).Some? && Lookup(s.sessions, token).value in s.accounts
    ensures Lookup(s.sessions, token).None? ==> r == Failed(op, TokenInvalido)
    ensures Lookup(s.sessions, token).Some? && Lookup(s.sessions, token).value !in s.accounts ==>
              r == Failed(op, UsuarioNaoEncontrado)
    ensures r.status ==>
              var cpf := Lookup(s.sessions, token).value;
              r.info == DadosRecuperados &&
              r.extras == UsuarioField(s.accounts[cpf].nome, cpf, s.accounts[cpf].saldo)
  {
    match Lookup(s.sessions, token)
    case None => Failed(op, TokenInvalido)
    case Some(cpf) =>
      if cpf !in s.accounts then Failed(op, UsuarioNaoEncontrado)
      else
        var row := s.accounts[cpf];
        Response(op, true, DadosRecuperados, UsuarioField(row.nome, cpf, row.saldo))
  }

  /** `depositar`: refuses an unresolved token, then a vanished account, with
      nothing changed. Otherwise it reports success, and the balance rises by
      `valor` when `valor` is positive and stays put when it is not; nothing
      else changes and no ledger record is written. */
  function DepositarSpec(s: State, op: string, token: string, valor: int): (res: (Response, State))
    ensures res.0.op == op && res.0.extras == NoExtras
    ensures res.0.status <==> Lookup(s.sessions, token).Some? && Lookup(s.sessions, token).value in s.accounts
    ensures Lookup(s.sessions, token).None? ==> res.0 == Failed(op, TokenInvalido) && res.1 == s
    ensures Lookup(s.sessions, token).Some? && Lookup(s.sessions, token).value !in s.accounts ==>
              res.0 == Failed(op, UsuarioNaoEncontrado) && res.1 == s
    ensures res.0.status ==>
              var cpf := Lookup(s.sessions, token).value;
              && res.0.info == DepositoSucesso
              && res.1.accounts.Keys == s.accounts.Keys
              && res.1.accounts[cpf].saldo == s.accounts[cpf].saldo + (if valor > 0 then valor else 0)
              && res.1.accounts[cpf].nome == s.accounts[cpf].nome
              && res.1.accounts[cpf].senha == s.accounts[cpf].senha
              && OthersKept(s.accounts, res.1.accounts, cpf)
              && res.1.ledger == s.ledger && res.1.sessions == s.sessions
  {
    match Lookup(s.sessions, token)
    case None => (Failed(op, TokenInvalido), s)
    case Some(cpf) =>
      if cpf !in s.accounts then (Failed(op, UsuarioNaoEncontrado), s)
      else
        var row := s.accounts[cpf];
        (Succeeded(op, DepositoSucesso), s.(accounts := s.accounts[cpf := row.(saldo := Deposited(row.saldo, valor))]))
  }

  /** `updateUsuario`: an unknown CPF is refused with nothing changed;
      otherwise the name and password are replaced and the balance kept. The
      success message is the creation message, as written. */
  function UpdateUsuarioSpec(s: State, op: string, nome: string, cpf: string, senha: string)
    : (res: (Response, State))
    ensures res.0.op == op && res.0.extras == NoExtras
    ensures res.0.status <==> cpf in s.accounts
    ensures !res.0.status ==> res.0.info == CpfNaoEncontrado && res.1 == s
    ensures res.0.status ==>
              && res.0.info == UsuarioCriado
              && res.1.accounts.Keys == s.accounts.Keys
              && res.1.accounts[cpf] == Row(nome, senha, s.accounts[cpf].saldo)
              && OthersKept(s.accounts, res.1.accounts, cpf)
              && res.1.ledger == s.ledger && res.1.sessions == s.sessions
  {
    if cpf !in s.accounts then (Failed(op, CpfNaoEncontrado), s)
    else (Succeeded(op, UsuarioCriado), s.(accounts := s.accounts[cpf := Row(nome, senha, s.accounts[cpf].saldo)]))
  }

  /** `deleteUsuario`: an unknown CPF is refused with nothing changed;
      otherwise only that account is removed. Sessions and ledger records that
      name it stay. */
  function DeleteUsuarioSpec(s: State, op: string, cpf: string): (res: (Response, State))
    ensures res.0.op == op && res.0.extras == NoExtras
    ensures res.0.status <==> cpf in s.accounts
    ensures !res.0.status ==> res.0.info == CpfNaoEncontrado && res.1 == s
    ensures res.0.status ==>
              && res.0.info == UsuarioDeletado
              && res.1.accounts.Keys == s.accounts.Keys - {cpf}
              && OthersKept(s.accounts, res.1.accounts, cpf)
              && res.1.ledger == s.ledger && res.1.sessions == s.sessions
  {
    if cpf !in s.accounts then (Failed(op, CpfNaoEncontrado), s)
    else (Succeeded(op, UsuarioDeletado), s.(accounts := s.accounts - {cpf}))
  }

  method CriarUsuario(store: Store, sessoes: SessaoManager, op: string, nome: string, cpf: string,
                      senha: string, saldo: int) returns (r: Response)
    modifies store
    ensures (r, Snapshot(store, sessoes)) == CriarUsuarioSpec(old(Snapshot(store, sessoes)), op, nome, cpf, senha, saldo)
  {
    var existente := store.FindByCpf(cpf);
    if existente != null {
      return Failed(op, CpfJaCadastrado);
    }
    var novo := new Usuario(nome, cpf, senha, saldo);
    store.Save(novo);
    r := Succeeded(op, UsuarioCriado);
  }

  method Login(store: Store, sessoes: SessaoManager, op: string, cpf: string, senha: string, uuid: string)
    returns (r: Response)
    modifies sessoes
    ensures (r, Snapshot(store, sessoes)) == LoginSpec(old(Snapshot(store, sessoes)), op, cpf, senha, uuid)
  {
    var usuario := store.FindByCpf(cpf);
    if usuario == null || usuario.senha != senha {
      return Failed(op, CredenciaisInvalidas);
    }
    var token := sessoes.CriarSessao(cpf, uuid);
    r := Response(op, false, LoginSucesso, TokenField(token));
  }

  method Logout(store: Store, sessoes: SessaoManager, op: string, token: string) returns (r: Response)
    modifies sessoes
    ensures (r, Snapshot(store, sessoes)) == LogoutSpec(old(Snapshot(store, sessoes)), op, token)
  {
    sessoes.EncerrarSessao(Some(token));
    r := Succeeded(op, LogoutSucesso);
  }

  /** Read-only: the state is not changed. */
  method LerUsuario(store: Store, sessoes: SessaoManager, op: string, token: string) returns (r: Response)
    ensures r == LerUsuarioSpec(Snapshot(store, sessoes), op, token)
  {
    var cpf := sessoes.GetCpfPeloToken(token);
    if cpf.None? {
      return Failed(op, TokenInvalido);
    }
    var usuario := store.FindByCpf(cpf.value);
    if usuario == null {
      return Failed(op, UsuarioNaoEncontrado);
    }
    r := Response(op, true, DadosRecuperados, UsuarioField(usuario.nome, usuario.cpf, usuario.saldo));
  }

  /** An instance method in the source that the dispatcher calls as if it were
      static (ClientHandler.java:101); here it is one handler like the rest. */
  method Depositar(store: Store, sessoes: SessaoManager, op: string, token: string, valor: int)
    returns (r: Response)
    modifies store
    ensures (r, Snapshot(store, sessoes)) == DepositarSpec(old(Snapshot(store, sessoes)), op, token, valor)
  {
    var cpf := sessoes.GetCpfPeloToken(token);
    if cpf.None? {
      return Failed(op, TokenInvalido);
    }
    var usuario := store.FindByCpf(cpf.value);
    if usuario == null {
      return Failed(op, UsuarioNaoEncontrado);
    }
    usuario.Depositar(valor);
    store.Update(usuario);
    r := Succeeded(op, DepositoSucesso);
  }

  method UpdateUsuario(store: Store, sessoes: SessaoManager, op: string, nome: string, cpf: string,
                       senha: string) returns (r: Response)
    modifies store
    ensures (r, Snapshot(store, sessoes)) == UpdateUsuarioSpec(old(Snapshot(store, sessoes)), op, nome, cpf, senha)
  {
    var usuario := store.FindByCpf(cpf);
    if usuario == null {
      return Failed(op, CpfNaoEncontrado);
    }
    var atualizado := new Usuario(nome, cpf, senha, usuario.saldo);
    store.Update(atualizado);
    r := Succeeded(op, UsuarioCriado);
  }

  method DeleteUsuario(store: Store, sessoes: SessaoManager, op: string, cpf: string) returns (r: Response)
    modifies store
    ensures (r, Snapshot(store, sessoes)) == DeleteUsuarioSpec(old(Snapshot(store, sessoes)), op, cpf)
  {
    var usuario := store.FindByCpf(cpf);
    if usuario == null {
      return Failed(op, CpfNaoEncontrado);
    }
    store.Delete(cpf);
    r := Succeeded(op, UsuarioDeletado);
  }

  /** The two ways a login can fail are indistinguishable to the caller. */
  lemma LoginFailureIsUniform(s: State, op: string, cpf1: string, senha1: string, uuid1: string,
                              cpf2: string, senha2: string, uuid2: string)
    requires cpf1 !in s.accounts
    requires cpf2 in s.accounts && s.accounts[cpf2].senha != senha2
    ensures LoginSpec(s, op, cpf1, senha1, uuid1) == LoginSpec(s, op, cpf2, senha2, uuid2)
  {
  }

  /** Creating an account and then logging in with the same CPF and password
      issues a session for that CPF. */
  lemma CreateThenLogin(s: State, nome: string, cpf: string, senha: string, saldo: int, uuid: string)
    requires cpf !in s.accounts
    ensures var created := CriarUsuarioSpec(s, "usuario_criar", nome, cpf, senha, saldo).1;
            var logged := LoginSpec(created, "usuario_login", cpf, senha, uuid);
            logged.0.extras == TokenField(uuid) && Lookup(logged.1.sessions, uuid) == Some(cpf)
  {
  }

  /** Creating an account with a zero balance, depositing 100 and reading the
      account back shows exactly 100. */
  lemma CreateDepositRead(s: State, nome: string, cpf: string, senha: string, token: string)
    requires cpf !in s.accounts && Lookup(s.sessions, token) == Some(cpf)
    ensures var created := CriarUsuarioSpec(s, "usuario_criar", nome, cpf, senha, 0).1;
            var deposited := DepositarSpec(created, "depositar", token, 100).1;
            LerUsuarioSpec(deposited, "usuario_ler", token).extras == UsuarioField(nome, cpf, 100)
  {
  }
}
