/** `ClientHandler`: the per-connection loop that reads one request line at a
    time and writes exactly one response line for it, and the dispatch from a
    validated request to its handler. */
module ClientHandler {
  import opened Common
  import opened Sessao
  import opened Store
  import opened Protocol
  import UsuarioController
  import TransacaoController

  /** One request line as it arrives, with the clock reading and the random
      UUID its handling may consume (the clock and UUID generator are not
      modelled). */
  datatype Arrival = Arrival(line: string, now: int, uuid: string)

  /** The library calls the server relies on: the request validator, which
      parses a line into a request or throws, and `Instant.parse`. */
  datatype Codec = Codec(validate: string -> Result<Request>, parseInstant: string -> Option<int>)

  /** The operation name every error envelope carries, whatever the request. */
  const ErrorOp := "usuario_login"

  /** The `switch` of `handleRequest`: each recognised operation goes to its
      one handler. Only an operation without a case, and a transfer whose
      withdrawal throws, raise; raising never leaves a change behind. Every
      answer echoes the request's operation, and reads change nothing. */
  function Dispatch(s: State, req: Request, a: Arrival, parse: string -> Option<int>): (res: (Outcome, State))
    ensures res.0.Raised? ==> res.1 == s
    ensures res.0.Raised? <==>
              || req.body.Unsupported?
              || (&& req.body.TransacaoCriar?
                  && TransacaoController.PassesChecks(s, req.body.token, req.body.cpfDestino, req.body.valor)
                  && req.body.valor <= 0)
    ensures res.0.Answered? ==> res.0.response.op == req.operacao
    ensures req.body.Conectar? ==> res == (Answered(Succeeded(req.operacao, Conectado)), s)
    ensures req.body.ErroServidor? ==> res == (Answered(Succeeded(req.operacao, ErroRecebido)), s)
    ensures req.body.Unsupported? ==>
              res.0 == Raised(Exc(IllegalArgument, OperacaoDesconhecida + req.body.constant))
    ensures req.body.UsuarioLer? || req.body.TransacaoLer? ==> res.1 == s
  {
    var op := req.operacao;
    match req.body
    case Conectar => (Answered(Succeeded(op, Conectado)), s)
    case UsuarioLogin(cpf, senha) =>
      var (r, s') := UsuarioController.LoginSpec(s, op, cpf, senha, a.uuid); (Answered(r), s')
    case UsuarioLogout(token) =>
      var (r, s') := UsuarioController.LogoutSpec(s, op, token); (Answered(r), s')
    case UsuarioCriar(nome, cpf, senha, saldo) =>
      var (r, s') := UsuarioController.CriarUsuarioSpec(s, op, nome, cpf, senha, saldo); (Answered(r), s')
    case UsuarioLer(token) =>
      (Answered(UsuarioController.LerUsuarioSpec(s, op, token)), s)
    case UsuarioAtualizar(nome, cpf, senha) =>
      var (r, s') := UsuarioController.UpdateUsuarioSpec(s, op, nome, cpf, senha); (Answered(r), s')
    case UsuarioDeletar(cpf) =>
      var (r, s') := UsuarioController.DeleteUsuarioSpec(s, op, cpf); (Answered(r), s')
    case TransacaoCriar(token, cpfDestino, valor) =>
      TransacaoController.CriarTransacaoSpec(s, op, token, cpfDestino, valor, a.now)
    case TransacaoLer(token, dataInicial, dataFinal) =>
      (Answered(TransacaoController.GetTransacoesSpec(s, op, token, dataInicial, dataFinal, parse)), s)
    case Depositar(token, valor) =>
      var (r, s') := UsuarioController.DepositarSpec(s, op, token, valor); (Answered(r), s')
    case ErroServidor => (Answered(Succeeded(op, ErroRecebido)), s)
    case Unsupported(constant) => (Raised(Exc(IllegalArgument, OperacaoDesconhecida + constant)), s)
  }

  /** `handleRequest`: validation, then dispatch. A line the validator rejects
      raises with the validator's exception and changes nothing. */
  function Handle(s: State, a: Arrival, codec: Codec): (res: (Outcome, State))
    ensures codec.validate(a.line).Err? ==> res == (Raised(codec.validate(a.line).exc), s)
    ensures res.0.Raised? ==> res.1 == s
  {
    match codec.validate(a.line)
    case Err(e) => (Raised(e), s)
    case Ok(req) => Dispatch(s, req, a, codec.parseInstant)
  }

  /** The response line for an exception: `handleRequest` wraps it in a
      `RuntimeException`, whose message is the exception's `toString()`. */
  function ErrorEnvelope(e: Exc): Response
  {
    Failed(ErrorOp, Describe(e))
  }

  /** One turn of the loop: the line's answer, or an error envelope when
      handling it threw. */
  function Step(s: State, a: Arrival, codec: Codec): (res: (Response, State))
    ensures Handle(s, a, codec).0.Raised? ==>
              res == (ErrorEnvelope(Handle(s, a, codec).0.exc), s)
    ensures Handle(s, a, codec).0.Answered? ==>
              res == (Handle(s, a, codec).0.response, Handle(s, a, codec).1)
  {
    match Handle(s, a, codec)
    case (Answered(r), s') => (r, s')
    case (Raised(e), s') => (ErrorEnvelope(e), s')
  }

  /** The responses to a sequence of lines, in order, and the state after
      them. There is exactly one response per line. */
  function Replay(s: State, input: seq<Arrival>, codec: Codec): (res: (seq<Response>, State))
    ensures |res.0| == |input|
    decreases |input|
  {
    if input == [] then ([], s)
    else
      var (earlier, mid) := Replay(s, input[..|input| - 1], codec);
      var (r, s') := Step(mid, input[|input| - 1], codec);
      (earlier + [r], s')
  }

  /** Request/response correlation: the i-th response is the answer to the
      i-th line, given in the state the first i lines left behind. */
  lemma {:induction false} ReplyCorrelation(s: State, input: seq<Arrival>, codec: Codec, i: nat)
    requires i < |input|
    ensures Replay(s, input, codec).0[i] == Step(Replay(s, input[..i], codec).1, input[i], codec).0
    decreases |input|
  {
    var init := input[..|input| - 1];
    if i < |input| - 1 {
      ReplyCorrelation(s, init, codec, i);
      assert init[..i] == input[..i];
    } else {
      assert init == input[..i];
    }
  }

  /** Appending lines appends their responses: what was already written is
      never revised. */
  lemma {:induction false} ReplayAppend(s: State, a: seq<Arrival>, b: seq<Arrival>, codec: Codec)
    ensures Replay(s, a + b, codec).0 == Replay(s, a, codec).0 + Replay(Replay(s, a, codec).1, b, codec).0
    ensures Replay(s, a + b, codec).1 == Replay(Replay(s, a, codec).1, b, codec).1
    decreases |b|
  {
    if b == [] {
      assert a + b == a;
    } else {
      var init := b[..|b| - 1];
      assert (a + b)[..|a + b| - 1] == a + init;
      assert (a + b)[|a + b| - 1] == b[|b| - 1];
      ReplayAppend(s, a, init, codec);
    }
  }

  class ClientHandler {
    const store: Store
    const sessoes: SessaoManager
    /** The response lines written to the socket so far. */
    var written: seq<Response>
    var closed: bool

    constructor (store: Store, sessoes: SessaoManager)
      ensures this.store == store && this.sessoes == sessoes
      ensures written == [] && !closed
    {
      this.store := store;
      this.sessoes := sessoes;
      written := [];
      closed := false;
    }

    method HandleRequest(a: Arrival, codec: Codec) returns (out: Outcome)
      modifies store, sessoes
      ensures (out, Snapshot(store, sessoes)) == Handle(old(Snapshot(store, sessoes)), a, codec)
    {
      var parsed := codec.validate(a.line);
      if parsed.Err? {
        return Raised(parsed.exc);
      }
      var op := parsed.value.operacao;
      match parsed.value.body {
        case Conectar =>
          out := Answered(Succeeded(op, Conectado));
        case UsuarioLogin(cpf, senha) =>
          var r := UsuarioController.Login(store, sessoes, op, cpf, senha, a.uuid);
          out := Answered(r);
        case UsuarioLogout(token) =>
          var r := UsuarioController.Logout(store, sessoes, op, token);
          out := Answered(r);
        case UsuarioCriar(nome, cpf, senha, saldo) =>
          var r := UsuarioController.CriarUsuario(store, sessoes, op, nome, cpf, senha, saldo);
          out := Answered(r);
        case UsuarioLer(token) =>
          var r := UsuarioController.LerUsuario(store, sessoes, op, token);
          out := Answered(r);
        case UsuarioAtualizar(nome, cpf, senha) =>
          var r := UsuarioController.UpdateUsuario(store, sessoes, op, nome, cpf, senha);
          out := Answered(r);
        case UsuarioDeletar(cpf) =>
          var r := UsuarioController.DeleteUsuario(store, sessoes, op, cpf);
          out := Answered(r);
        case TransacaoCriar(token, cpfDestino, valor) =>
          out := TransacaoController.CriarTransacao(store, sessoes, op, token, cpfDestino, valor, a.now);
        case TransacaoLer(token, dataInicial, dataFinal) =>
          var r := TransacaoController.GetTransacoes(store, sessoes, op, token, dataInicial, dataFinal,
                                                     codec.parseInstant);
          out := Answered(r);
        case Depositar(token, valor) =>
          var r := UsuarioController.Depositar(store, sessoes, op, token, valor);
          out := Answered(r);
        case ErroServidor =>
          out := Answered(Succeeded(op, ErroRecebido));
        case Unsupported(constant) =>
          out := Raised(Exc(IllegalArgument, OperacaoDesconhecida + constant));
      }
    }

    /** `run`: reads lines until the stream ends (`input` is everything read
        before `readLine` returned null), writes one response per line before
        reading the next, turns every exception into an error envelope and
        goes on, and closes the socket at the end. */
    method Run(input: seq<Arrival>, codec: Codec)
      requires !closed
      modifies this, store, sessoes
      ensures closed
      ensures written == old(written) + Replay(old(Snapshot(store, sessoes)), input, codec).0
      ensures Snapshot(store, sessoes) == Replay(old(Snapshot(store, sessoes)), input, codec).1
    {
      ghost var start := Snapshot(store, sessoes);
      var i := 0;
      while i < |input|
        invariant 0 <= i <= |input|
        invariant written == old(written) + Replay(start, input[..i], codec).0
        invariant Snapshot(store, sessoes) == Replay(start, input[..i], codec).1
      {
        assert input[..i + 1][..i] == input[..i];
        var out := HandleRequest(input[i], codec);
        var response := match out
          case Answered(r) => r
          case Raised(e) => ErrorEnvelope(e);
        written := written + [response];
        i := i + 1;
      }
      assert input[..i] == input;
      closed := true;
    }
  }
}
