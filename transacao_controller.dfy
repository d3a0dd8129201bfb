/** The transfer handlers of `TransacaoController`: `criarTransacao`, a chain of
    checks followed by debit, credit and one appended ledger record, and
    `getTransacoes`, a statement listing with an optional closed date window. */
module TransacaoController {
  import opened Common
  import opened Seqs
  import opened Usuario
  import opened Sessao
  import opened Transacao
  import opened Store
  import opened Protocol
  import UsuarioController

  /** Whether `criarTransacao` reaches its debit: the token resolves, the
      destination is another CPF, both accounts exist and the sender's balance
      covers `valor`. */
  predicate PassesChecks(s: State, token: string, cpfDestino: string, valor: int)
  {
    && Lookup(s.sessions, token).Some?
    && Lookup(s.sessions, token).value != cpfDestino
    && Lookup(s.sessions, token).value in s.accounts
    && cpfDestino in s.accounts
    && s.accounts[Lookup(s.sessions, token).value].saldo >= valor
  }

  /** The record a successful transfer appends. */
  function NovaTransacao(s: State, remetente: string, cpfDestino: string, valor: int, now: int): Record
    requires remetente in s.accounts && cpfDestino in s.accounts
  {
    Record(|s.ledger| + 1, Party(remetente, s.accounts[remetente].nome),
           Party(cpfDestino, s.accounts[cpfDestino].nome), valor, Some(now))
  }

  /** `criarTransacao`. Rejections come in the source's order: unresolved
      token, self-transfer (before any account is looked up), missing sender,
      missing destination, insufficient balance; each leaves the state as it
      was. A non-positive `valor` passes the balance check but makes `sacar`
      throw, again before anything is written. Only a positive `valor` the
      sender can cover moves money: the sender loses exactly `valor`, the
      destination gains exactly `valor`, no other account changes, and exactly
      one record is appended. `now` is the clock reading the record is stamped
      with. */
  function CriarTransacaoSpec(s: State, op: string, token: string, cpfDestino: string, valor: int, now: int)
    : (res: (Outcome, State))
    ensures res.0.Answered? ==> res.0.response.op == op && res.0.response.extras == NoExtras
    ensures res.0.Raised? || !res.0.response.status ==> res.1 == s
    ensures Lookup(s.sessions, token).None? ==> res.0 == Answered(Failed(op, TokenInvalido))
    ensures Lookup(s.sessions, token).Some? && Lookup(s.sessions, token).value == cpfDestino ==>
              res.0 == Answered(Failed(op, AutoTransferencia))
    ensures Lookup(s.sessions, token).Some? && Lookup(s.sessions, token).value != cpfDestino ==>
              var remetente := Lookup(s.sessions, token).value;
              && (remetente !in s.accounts ==> res.0 == Answered(Failed(op, RemetenteNaoEncontrado)))
              && (remetente in s.accounts && cpfDestino !in s.accounts ==>
                    res.0 == Answered(Failed(op, DestinoNaoEncontrado)))
              && (remetente in s.accounts && cpfDestino in s.accounts && s.accounts[remetente].saldo < valor ==>
                    res.0 == Answered(Failed(op, SaldoInsuficiente)))
    ensures PassesChecks(s, token, cpfDestino, valor) && valor <= 0 ==>
              res.0 == Raised(Exc(IllegalArgument, SaqueNaoPositivo))
    ensures res.0 == Answered(Succeeded(op, TransacaoSucesso)) <==>
              PassesChecks(s, token, cpfDestino, valor) && valor > 0
    ensures res.0 == Answered(Succeeded(op, TransacaoSucesso)) ==>
              var remetente := Lookup(s.sessions, token).value;
              && res.1.accounts.Keys == s.accounts.Keys
              && res.1.accounts[remetente] == s.accounts[remetente].(saldo := s.accounts[remetente].saldo - valor)
              && res.1.accounts[cpfDestino] == s.accounts[cpfDestino].(saldo := s.accounts[cpfDestino].saldo + valor)
              && res.1.accounts[remetente].saldo >= 0
              && (forall c :: c in s.accounts && c != remetente && c != cpfDestino ==> res.1.accounts[c] == s.accounts[c])
              && res.1.ledger == s.ledger + [NovaTransacao(s, remetente, cpfDestino, valor, now)]
              && res.1.sessions == s.sessions
  {
    match Lookup(s.sessions, token)
    case None => (Answered(Failed(op, TokenInvalido)), s)
    case Some(remetente) =>
      if remetente == cpfDestino then (Answered(Failed(op, AutoTransferencia)), s)
      else if remetente !in s.accounts then (Answered(Failed(op, RemetenteNaoEncontrado)), s)
      else if cpfDestino !in s.accounts then (Answered(Failed(op, DestinoNaoEncontrado)), s)
      else if s.accounts[remetente].saldo < valor then (Answered(Failed(op, SaldoInsuficiente)), s)
      else
        match Withdrawn(s.accounts[remetente].saldo, valor)
        case Err(e) => (Raised(e), s)
        case Ok(restante) =>
          var origem := s.accounts[remetente];
          var destino := s.accounts[cpfDestino];
          var accounts := s.accounts[remetente := origem.(saldo := restante)]
                                    [cpfDestino := destino.(saldo := Deposited(destino.saldo, valor))];
          (Answered(Succeeded(op, TransacaoSucesso)),
           s.(accounts := accounts, ledger := s.ledger + [NovaTransacao(s, remetente, cpfDestino, valor, now)]))
  }

  /** Money conservation: whatever the outcome, the sum of all balances is the
      same after `criarTransacao` as before. */
  lemma TransferConservesMoney(s: State, op: string, token: string, cpfDestino: string, valor: int, now: int)
    ensures Total(CriarTransacaoSpec(s, op, token, cpfDestino, valor, now).1.accounts) == Total(s.accounts)
  {
    var res := CriarTransacaoSpec(s, op, token, cpfDestino, valor, now);
    if res.0 == Answered(Succeeded(op, TransacaoSucesso)) {
      var remetente := Lookup(s.sessions, token).value;
      var origem, destino := s.accounts[remetente], s.accounts[cpfDestino];
      var debited := s.accounts[remetente := origem.(saldo := origem.saldo - valor)];
      TotalUpdate(s.accounts, remetente, origem.(saldo := origem.saldo - valor));
      TotalUpdate(debited, cpfDestino, destino.(saldo := destino.saldo + valor));
      assert res.1.accounts == debited[cpfDestino := destino.(saldo := destino.saldo + valor)];
    }
  }

  /** The ledger grows by one record exactly when the transfer succeeds, and
      the records already there are never touched. */
  lemma TransferAppendsOnlyOnSuccess(s: State, op: string, token: string, cpfDestino: string, valor: int, now: int)
    ensures var res := CriarTransacaoSpec(s, op, token, cpfDestino, valor, now);
            && |res.1.ledger| == |s.ledger| + (if res.0 == Answered(Succeeded(op, TransacaoSucesso)) then 1 else 0)
            && res.1.ledger[..|s.ledger|] == s.ledger
  {
  }

  /** `getTransacoes`: refuses an unresolved token, then a vanished account.
      Otherwise it lists exactly the dated records that involve the account
      and, when both bounds are given and parse, fall in the closed window; in
      store order. */
  function GetTransacoesSpec(s: State, op: string, token: string, dataInicial: Option<string>,
                             dataFinal: Option<string>, parse: string -> Option<int>): (r: Response)
    ensures r.op == op
    ensures r.status <==> Lookup(s.sessions, token).Some? && Lookup(s.sessions, token).value in s.accounts
    ensures Lookup(s.sessions, token).None? ==> r == Failed(op, TokenInvalido)
    ensures Lookup(s.sessions, token).Some? && Lookup(s.sessions, token).value !in s.accounts ==>
              r == Failed(op, UsuarioNaoEncontrado)
    ensures r.status ==>
              var cpf, w := Lookup(s.sessions, token).value, WindowOf(dataInicial, dataFinal, parse);
              && r.info == TransacoesRecuperadas
              && r.extras == TransacoesField(Listing(Statement(s.ledger, cpf), w))
              && (forall t :: t in r.extras.transacoes <==> t in s.ledger && Involves(t, cpf) && Listed(t, w))
  {
    match Lookup(s.sessions, token)
    case None => Failed(op, TokenInvalido)
    case Some(cpf) =>
      if cpf !in s.accounts then Failed(op, UsuarioNaoEncontrado)
      else
        var listed := Listing(Statement(s.ledger, cpf), WindowOf(dataInicial, dataFinal, parse));
        Response(op, true, TransacoesRecuperadas, TransacoesField(listed))
  }

  method CriarTransacao(store: Store, sessoes: SessaoManager, op: string, token: string, cpfDestino: string,
                        valor: int, now: int) returns (out: Outcome)
    modifies store
    ensures (out, Snapshot(store, sessoes)) ==
              CriarTransacaoSpec(old(Snapshot(store, sessoes)), op, token, cpfDestino, valor, now)
  {
    var cpfRemetente := sessoes.GetCpfPeloToken(token);
    if cpfRemetente.None? {
      return Answered(Failed(op, TokenInvalido));
    }
    if cpfRemetente.value == cpfDestino {
      return Answered(Failed(op, AutoTransferencia));
    }
    var remetente := store.FindByCpf(cpfRemetente.value);
    var destinatario := store.FindByCpf(cpfDestino);
    if remetente == null {
      return Answered(Failed(op, RemetenteNaoEncontrado));
    }
    if destinatario == null {
      return Answered(Failed(op, DestinoNaoEncontrado));
    }
    if remetente.saldo < valor {
      return Answered(Failed(op, SaldoInsuficiente));
    }
    var thrown := remetente.Sacar(valor);
    if thrown.Some? {
      return Raised(thrown.value);
    }
    destinatario.Depositar(valor);
    store.Update(remetente);
    store.Update(destinatario);
    // The source passes the two `Usuario` objects to a constructor that takes
    // CPF strings (TransacaoController.java:197, Transacao.java:27); the record
    // keeps both sides' CPF and name, with the id the store assigns.
    store.SaveTransacao(Record(0, Party(remetente.cpf, remetente.nome),
                               Party(destinatario.cpf, destinatario.nome), valor, Some(now)));
    out := Answered(Succeeded(op, TransacaoSucesso));
  }

  /** Read-only. The listing loop skips undated records and, when the filter
      is on, records outside the window. */
  method GetTransacoes(store: Store, sessoes: SessaoManager, op: string, token: string,
                       dataInicial: Option<string>, dataFinal: Option<string>,
                       parse: string -> Option<int>) returns (r: Response)
    ensures r == GetTransacoesSpec(Snapshot(store, sessoes), op, token, dataInicial, dataFinal, parse)
  {
    var cpf := sessoes.GetCpfPeloToken(token);
    if cpf.None? {
      return Failed(op, TokenInvalido);
    }
    var usuario := store.FindByCpf(cpf.value);
    if usuario == null {
      return Failed(op, UsuarioNaoEncontrado);
    }
    var encontradas := Statement(store.ledger, cpf.value);

    var w := Unfiltered;
    if dataInicial.Some? && dataFinal.Some? && dataInicial.value != "" && dataFinal.value != "" {
      var inicio, fim := parse(dataInicial.value), parse(dataFinal.value);
      if inicio.Some? && fim.Some? {
        w := Between(inicio.value, fim.value);
      }
    }

    var lista: seq<Record> := [];
    var i := 0;
    while i < |encontradas|
      invariant 0 <= i <= |encontradas|
      invariant lista == Listing(encontradas[..i], w)
    {
      var t := encontradas[i];
      assert encontradas[..i + 1][..i] == encontradas[..i];
      if t.data.Some? {
        var estaNoPeriodo := false;
        if w.Between? && !(t.data.value < w.inicio) && !(t.data.value > w.fim) {
          estaNoPeriodo := true;
        }
        if w.Unfiltered? || estaNoPeriodo {
          lista := lista + [t];
        }
      }
      i := i + 1;
    }
    assert encontradas[..i] == encontradas;
    r := Response(op, true, TransacoesRecuperadas, TransacoesField(lista));
  }

  /** The worked scenario: accounts "111" and "222" are created empty, "111"
      logs in, deposits 5000 cents and sends 2000 cents to "222". Then "111"
      reads 3000, "222" reads 2000, and the statement of "111" is the one
      transfer from "111" to "222". */
  lemma Scenario(tokenA: string, now: int)
    ensures
      var s0 := State(map[], [], map[]);
      var s1 := UsuarioController.CriarUsuarioSpec(s0, "usuario_criar", "A", "111", "secret1", 0).1;
      var s2 := UsuarioController.CriarUsuarioSpec(s1, "usuario_criar", "B", "222", "secret2", 0).1;
      var s3 := UsuarioController.LoginSpec(s2, "usuario_login", "111", "secret1", tokenA).1;
      var s4 := UsuarioController.DepositarSpec(s3, "depositar", tokenA, 5000).1;
      var s5 := CriarTransacaoSpec(s4, "transacao_criar", tokenA, "222", 2000, now).1;
      && s5.accounts["111"].saldo == 3000
      && s5.accounts["222"].saldo == 2000
      && GetTransacoesSpec(s5, "transacao_ler", tokenA, None, None, _ => None).extras ==
           TransacoesField([Record(1, Party("111", "A"), Party("222", "B"), 2000, Some(now))])
  {
    var s0 := State(map[], [], map[]);
    var s1 := UsuarioController.CriarUsuarioSpec(s0, "usuario_criar", "A", "111", "secret1", 0).1;
    var s2 := UsuarioController.CriarUsuarioSpec(s1, "usuario_criar", "B", "222", "secret2", 0).1;
    var s3 := UsuarioController.LoginSpec(s2, "usuario_login", "111", "secret1", tokenA).1;
    var s4 := UsuarioController.DepositarSpec(s3, "depositar", tokenA, 5000).1;
    var s5 := CriarTransacaoSpec(s4, "transacao_criar", tokenA, "222", 2000, now).1;
    var rec := Record(1, Party("111", "A"), Party("222", "B"), 2000, Some(now));
    assert s5.ledger == [rec];
    assert Statement(s5.ledger, "111") == Filter([], (r: Record) => Involves(r, "111")) + [rec];
    assert Listing([rec], Unfiltered) == Filter([], (r: Record) => Listed(r, Unfiltered)) + [rec];
  }
}
