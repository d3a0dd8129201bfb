# simulador-pix: a verified model of the banking core

simulador-pix is a client/server Pix simulator. The server keeps accounts
(`Usuario`: name, CPF, password, balance), a ledger of transfers and a map of
session tokens. It answers one JSON request per line:

- account handlers (`UsuarioController`): create, login, logout, read,
  deposit, update, delete;
- transfer handlers (`TransacaoController`): create a transfer, list a
  statement over an optional date window.

The console client keeps the session token, runs the menu loop and builds
requests.

This project models that core in Dafny:

- `usuario.dfy`: the `Usuario` class, with its guarded deposit and withdrawal.
- `sessao.dfy`: the `SessaoManager` token map.
- `transacao.dfy`: transfer records, the statement of one CPF and the date
  window.
- `store.dfy`: an in-memory account store and ledger. These stand in for the
  SQLite repositories.
- `protocol.dfy`: validated requests and the response envelope
  `{operacao, status, info, ...}`.
- `usuario_controller.dfy` and `transacao_controller.dfy`: the handlers.
- `client_handler.dfy`: the dispatch table and the per-connection loop.
- `client.dfy`: the client's pure rules and its token and menu state.

Each handler is a method over the store and the session manager. It is proved
equal to a specification function of the state before the call. The
properties the source promises are stated on those functions and in lemmas
about them:

- ordered rejections that change nothing;
- money conservation on transfer;
- exactness of the statement filter;
- idempotent revoke;
- one response per request line;
- the client's classification and token rules.

Balances are integers (cents). Timestamps are integers counting the clock's finest unit (nanoseconds, UTC), so the window's bounds compare with them exactly.
Where the source's behaviour is questionable, it is modelled as written.
Two cases stand out:

- A successful login replies `status=false`.
- A non-positive deposit is ignored but reported as a success.

The source also contains calls that would not compile as shown. The model
follows their evident intent; comments at the modelled members note each one:

- `getRemetente`/`getDestinatario` on `Transacao`, whose names the model takes at transfer time (see "## Left out");
- `Usuario` objects passed where CPFs are expected;
- the 5-argument `criarResposta`;
- the static call to the instance method `depositar`.

## Model

| member | source | states |
|---|---|---|
| Usuario.Usuario.constructor | src/main/java/common/models/Usuario.java:23-28 | the four given fields are stored as they are |
| Usuario.Usuario.Depositar | src/main/java/common/models/Usuario.java:70-74 | the balance becomes `Deposited(old saldo, valor)`; name, CPF and password unchanged |
| Usuario.Usuario.Sacar | src/main/java/common/models/Usuario.java:81-89 | when `Withdrawn` fails, returns its exception and keeps the balance; otherwise lowers the balance to the withdrawn value; name, CPF and password unchanged |
| Usuario.Withdrawn | src/main/java/common/models/Usuario.java:81-89 | succeeds iff `0 < valor <= saldo`; the new balance is `saldo - valor` and is non-negative; a non-positive amount is refused before the funds are checked, each with its own message |
| Usuario.DepositAddsExactly | src/main/java/common/models/Usuario.java:70-74 | a deposit never lowers the balance; a positive amount is added exactly; a non-positive one is ignored |
| Usuario.DepositUndoesWithdrawal | src/main/java/common/models/Usuario.java:70-89 | a successful withdrawal followed by a deposit of the same amount restores the balance |
| Usuario.WithdrawalUndoesDeposit | src/main/java/common/models/Usuario.java:70-89 | on a non-negative balance, a positive deposit can be withdrawn again, giving the original balance |
| Sessao.Lookup | src/main/java/common/util/SessaoManager.java:33-35 | resolves iff the token is in the map, to the CPF stored under it |
| Sessao.IssueResolves | src/main/java/common/util/SessaoManager.java:21-25 | the new token resolves to its CPF; every other token resolves as before, so an earlier session of the same CPF survives |
| Sessao.IssueFreshGrows | src/main/java/common/util/SessaoManager.java:22-23 | with an unused token, issuing adds exactly one session and removes none |
| Sessao.RevokeResolves | src/main/java/common/util/SessaoManager.java:41-47 | a revoked token no longer resolves; other tokens resolve as before; a null token changes nothing |
| Sessao.RevokeIdempotent | src/main/java/common/util/SessaoManager.java:41-47 | revoking twice is revoking once |
| Sessao.SessaoManager.constructor | src/main/java/common/util/SessaoManager.java:14 | the map starts empty |
| Sessao.SessaoManager.CriarSessao | src/main/java/common/util/SessaoManager.java:21-25 | returns the generated token and puts it in the map under the CPF |
| Sessao.SessaoManager.GetCpfPeloToken | src/main/java/common/util/SessaoManager.java:33-35 | a pure read equal to `Lookup` on the current map |
| Sessao.SessaoManager.EncerrarSessao | src/main/java/common/util/SessaoManager.java:41-47 | the map becomes `Revoke` of the old map |
| Transacao.Statement | src/main/java/server/repository/TransacaoRepository.java:48-80 | a record is in the statement iff it is in the ledger and the CPF is its sender or receiver |
| Transacao.WindowOf | src/main/java/server/controllers/TransacaoController.java:59-84 | the filter is on iff both bounds are present, non-empty and parse; it is then the interval between the parsed instants |
| Transacao.ListingExact | src/main/java/server/controllers/TransacaoController.java:88-106 | with the filter on, a record is listed iff it involves the account, has a date and `inicio <= date <= fim` |
| Transacao.ListingIsOneQuery | src/main/java/server/controllers/TransacaoController.java:55-106 | listing the statement through the window equals one pass over the ledger keeping the records that involve the account and lie in the window |
| Transacao.UnfilteredIsWholeStatement | src/main/java/server/controllers/TransacaoController.java:98-131 | with the filter off and every record dated, the listing is the whole statement in store order |
| Transacao.ListingAfterAppend | src/main/java/server/controllers/TransacaoController.java:88-131 | appending a record to the ledger appends it to a listing when it involves the account and falls in the window, and leaves the earlier entries alone |
| Store.Store.constructor | src/main/java/server/repository/UsuarioRepository.java:10 | both tables start empty |
| Store.Store.FindByCpf | src/main/java/server/repository/UsuarioRepository.java:17-41 | null iff no account has the CPF; otherwise a fresh object holding exactly that account's row |
| Store.Store.Save | src/main/java/server/repository/UsuarioRepository.java:47-65 | for a CPF not yet present (the table's primary key), the account is stored under it; the ledger is unchanged |
| Store.Store.Update | src/main/java/server/repository/UsuarioRepository.java:71-87 | the account's row is replaced when the CPF exists, otherwise nothing changes |
| Store.Store.Delete | src/main/java/server/repository/UsuarioRepository.java:93-106 | only the account with that CPF is removed |
| Store.Store.SaveTransacao | src/main/java/server/repository/TransacaoRepository.java:27-45 | the record is appended with the next key; accounts unchanged |
| UsuarioController.CriarUsuarioSpec | src/main/java/server/controllers/UsuarioController.java:22-38 | succeeds iff the CPF is new; a duplicate is refused with "CPF já cadastrado." and nothing changes; success adds exactly one account with the given name, password and request balance, keeping all others |
| UsuarioController.LoginSpec | src/main/java/server/controllers/UsuarioController.java:43-56 | `status` is always false; unknown CPF or wrong password give "CPF ou senha inválidos." and change nothing; a correct pair issues the token for that CPF, returns it, and leaves other sessions and the store alone |
| UsuarioController.LogoutSpec | src/main/java/server/controllers/UsuarioController.java:61-65 | always succeeds; the token no longer resolves; other sessions, accounts and ledger unchanged |
| UsuarioController.LerUsuarioSpec | src/main/java/server/controllers/UsuarioController.java:70-96 | succeeds iff the token resolves to an existing account; refusals in order (token, then account); success carries that account's name, CPF and balance |
| UsuarioController.DepositarSpec | src/main/java/server/controllers/UsuarioController.java:101-120 | succeeds iff the token resolves to an existing account, refusals changing nothing; on success the balance becomes `Deposited(saldo, valor)`, so a non-positive amount is ignored yet reported as success; nothing else changes and no record is written |
| UsuarioController.UpdateUsuarioSpec | src/main/java/server/controllers/UsuarioController.java:125-141 | succeeds iff the CPF exists, else "CPF não encontrado." and nothing changes; success replaces name and password, keeps the balance and every other account, and answers with the creation message |
| UsuarioController.DeleteUsuarioSpec | src/main/java/server/controllers/UsuarioController.java:146-157 | succeeds iff the CPF exists, else "CPF não encontrado." and nothing changes; success removes only that account; sessions and ledger untouched |
| UsuarioController.CriarUsuario | src/main/java/server/controllers/UsuarioController.java:22-38 | reply and new state equal `CriarUsuarioSpec` of the old state |
| UsuarioController.Login | src/main/java/server/controllers/UsuarioController.java:43-56 | reply and new state equal `LoginSpec` of the old state |
| UsuarioController.Logout | src/main/java/server/controllers/UsuarioController.java:61-65 | reply and new state equal `LogoutSpec` of the old state |
| UsuarioController.LerUsuario | src/main/java/server/controllers/UsuarioController.java:70-96 | changes nothing and replies `LerUsuarioSpec` of the state |
| UsuarioController.Depositar | src/main/java/server/controllers/UsuarioController.java:101-120 | reply and new state equal `DepositarSpec` of the old state |
| UsuarioController.UpdateUsuario | src/main/java/server/controllers/UsuarioController.java:125-141 | reply and new state equal `UpdateUsuarioSpec` of the old state |
| UsuarioController.DeleteUsuario | src/main/java/server/controllers/UsuarioController.java:146-157 | reply and new state equal `DeleteUsuarioSpec` of the old state |
| UsuarioController.LoginFailureIsUniform | src/main/java/server/controllers/UsuarioController.java:49-50 | an unknown CPF and a wrong password give the identical reply and state |
| UsuarioController.CreateThenLogin | src/main/java/server/controllers/UsuarioController.java:22-56 | after creating an account, logging in with its CPF and password returns the token, which resolves to that CPF |
| UsuarioController.CreateDepositRead | src/main/java/server/controllers/UsuarioController.java:22-120 | create with balance 0, deposit 100, read: the account shows exactly 100 |
| TransacaoController.CriarTransacaoSpec | src/main/java/server/controllers/TransacaoController.java:160-201 | rejections in order (token, self-transfer, sender, destination, balance), each changing nothing; a non-positive amount that passes them raises the withdrawal exception, changing nothing; success iff all checks pass and the amount is positive; it debits the sender and credits the destination by exactly the amount, keeps every other account, and appends exactly one record |
| TransacaoController.TransferConservesMoney | src/main/java/server/controllers/TransacaoController.java:184-195 | whatever the outcome, the sum of all balances is unchanged |
| TransacaoController.TransferAppendsOnlyOnSuccess | src/main/java/server/controllers/TransacaoController.java:197-198 | the ledger grows by one record exactly on success, and existing records are untouched |
| TransacaoController.GetTransacoesSpec | src/main/java/server/controllers/TransacaoController.java:41-143 | succeeds iff the token resolves to an existing account, refusals in order; success lists exactly the dated statement records inside the window (all of them when the filter is off), in store order |
| TransacaoController.CriarTransacao | src/main/java/server/controllers/TransacaoController.java:160-201 | outcome and new state equal `CriarTransacaoSpec` of the old state |
| TransacaoController.GetTransacoes | src/main/java/server/controllers/TransacaoController.java:41-143 | the loop over the found records builds exactly `GetTransacoesSpec`'s reply; nothing changes |
| TransacaoController.Scenario | src/main/java/server/controllers/TransacaoController.java:160-201 | two accounts, login, deposit 5000, transfer 2000: balances 3000 and 2000, and the statement holds the one transfer |
| ClientHandler.Dispatch | src/main/java/server/ClientHandler.java:66-113 | only an unsupported operation or a transfer whose withdrawal throws raises, and raising changes nothing; every answer echoes the operation; `conectar` and `erro_servidor` answer their fixed success; an unsupported operation raises `IllegalArgumentException` with its message; reads change nothing |
| ClientHandler.Handle | src/main/java/server/ClientHandler.java:66-70 | a line the validator rejects raises its exception and changes nothing |
| ClientHandler.Step | src/main/java/server/ClientHandler.java:43-52 | a raised exception becomes the error envelope `usuario_login`/`false`/message with the state kept; an answer is written as is |
| ClientHandler.Replay | src/main/java/server/ClientHandler.java:40-53 | exactly one response per line |
| ClientHandler.ReplyCorrelation | src/main/java/server/ClientHandler.java:40-53 | the i-th response answers the i-th line in the state the first i lines left |
| ClientHandler.ReplayAppend | src/main/java/server/ClientHandler.java:40-53 | more lines append more responses; what was written is never revised |
| ClientHandler.ClientHandler.constructor | src/main/java/server/ClientHandler.java:25-27 | nothing written yet, socket open |
| ClientHandler.ClientHandler.HandleRequest | src/main/java/server/ClientHandler.java:66-113 | outcome and new state equal `Handle` of the old state |
| ClientHandler.ClientHandler.Run | src/main/java/server/ClientHandler.java:30-64 | writes exactly `Replay`'s responses in order, leaves `Replay`'s state, and closes the socket |
| Client.Classify | src/main/java/client/Client.java:328-331 | DEPOSITO iff receiver equals sender; RECEBIMENTO iff they differ and the receiver is the user; ENVIO otherwise |
| Client.ClassifyOwnStatement | src/main/java/client/Client.java:328-331 | on the user's statement, ENVIO iff the user sent to another CPF, RECEBIMENTO iff the user received from another CPF |
| Client.StripLeading | src/main/java/client/Client.java:271 | a suffix not starting with whitespace; everything dropped is whitespace |
| Client.StripTrailing | src/main/java/client/Client.java:271 | a prefix not ending with whitespace; everything dropped is whitespace |
| Client.StripBlank | src/main/java/client/Client.java:275-279 | a stripped line is blank iff it is empty iff the typed line was blank |
| Client.StartBound | src/main/java/client/Client.java:271-272 | the stripped date followed by "T00:00:00Z" |
| Client.EndBound | src/main/java/client/Client.java:274-283 | the current instant when the input is blank, else the stripped date followed by "T23:59:59Z" |
| Client.UpdatePayload | src/main/java/client/Client.java:219-221 | holds `nome` iff the name typed is non-empty and `senha` iff the password typed is non-empty, each with what was typed, and nothing else |
| Client.Turn | src/main/java/client/Client.java:77-99 | stops iff logged out and choice 3; logged out, only a `status=true` login reply stores its token; logged in, 5 and 7 clear the token and other choices keep it |
| Client.SessionStopsOnlyOnExit | src/main/java/client/Client.java:36-51 | a stopped session stopped at a 3 typed while logged out |
| Client.StoppedStaysStopped | src/main/java/client/Client.java:36-51 | once the loop has stopped, later inputs change nothing |
| Client.ServerLoginNeverLogsClientIn | src/main/java/client/Client.java:136-137 | since the server's login reply is always `status=false`, the client stays logged out after choosing login |
| Client.Client.constructor | src/main/java/client/Client.java:23-28 | starts logged out |
| Client.Client.Login | src/main/java/client/Client.java:119-152 | keeps the token of a `status=true` reply, otherwise the token is unchanged |
| Client.Client.Logout | src/main/java/client/Client.java:154-161 | the token is cleared whatever the reply |
| Client.Client.HandleEscolhaDeslogado | src/main/java/client/Client.java:77-85 | token and running flag equal `Turn` from logged out |
| Client.Client.HandleEscolhaLogado | src/main/java/client/Client.java:87-99 | token and running flag equal `Turn` from logged in; deletion logs out (Client.java:198-207) |
| Client.Client.Start | src/main/java/client/Client.java:30-53 | the final token and running flag equal `Session` over the inputs |

## Left out

- JSON text, Jackson parsing and rendering, and `RespostaManager`. Requests and responses are datatypes. Statement entries are carried as records rather than JSON nodes.
- The request validator and `RulesEnum`. They are not part of this model; a `Codec` parameter stands for them, mapping a line to a request or an exception.
- JDBC and SQLite. An in-memory map keyed by CPF and an append-only sequence stand for them. Swallowed SQL errors and `Database.java` are not modelled.
- Statement names are the names the two accounts had when the transfer was made. The source stores only the two CPFs, and its calls at TransacaoController.java:120-124 evidently look the names up when the statement is read; that lookup is not modelled, so a later rename does not show in the statement, and a deleted counterpart does not send the listing into the catch-all at TransacaoController.java:145-153.
- The statement read path never sets a record's id, because `TransacaoRepository.findByCpf` does not read it. The model keeps the id assigned on insert.
- `double` balances and amounts are exact integers, so floating-point rounding is not modelled.
- Dates are integers in nanoseconds, and the model treats `LocalDateTime.now()` as UTC. `Instant.parse` and the client's `Instant.now()` are parameters.
- UUID generation is a parameter. `Sessao.SessaoManager.CriarSessao` does not require the token to be fresh, because a repeated token would be overwritten as with the source's `put`. `Sessao.IssueFreshGrows` states the fresh case.
- Concurrency is not modelled: the `ConcurrentHashMap`, thread-per-client serving and lost updates between threads. The model is sequential.
- `Server.java`, its GUI, `Connection.java`, console I/O and logging are not part of this model.
- The catch-all of `getTransacoes` (TransacaoController.java:145-153) cannot be reached in the model, which has no null fields or parse exceptions inside the loop.
- `ClientHandler.ClientHandler.Run`: an `IOException` from the socket is not modelled. The input is the finite list of lines read before `readLine` returned null.
- `Client.Client.Start`: it ends when the inputs run out. The source would instead throw from `Scanner.nextInt`. A failed `connect` and a non-numeric choice are not modelled.
- `Client.Client.Login`: a `status=true` reply without a token, or an unparsable reply, would throw in the source. The model requires a readable reply (`Client.Readable`).
- Client operations that only send a request and print the reply (`criarConta`, `verSaldo`, `depositar`, `fazerPix`, the printing of `verExtrato`) are console I/O. Their request contents are not modelled.
- Behaviours kept as the code has them:
  - a deposit writes no ledger record;
  - deleting an account does not end its sessions;
  - `updateUsuario` reads top-level `nome`/`cpf`/`senha`, while the client sends a token and a nested `usuario` object (`Client.UpdatePayload` models what the client sends);
  - `criarUsuario` uses the balance given in the request rather than zero;
  - a non-positive deposit is not refused.
