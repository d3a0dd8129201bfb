/** The line protocol between client and server: requests after validation,
    the response envelope `{operacao, status, info, ...}` and the messages the
    handlers put in `info`. JSON text itself is not modelled. */
module Protocol {
  import opened Common
  import opened Transacao

  /** The operation-specific fields of a validated request. `Unsupported` is an
      operation constant the dispatcher has no case for. */
  datatype Body =
    | Conectar
    | UsuarioLogin(cpf: string, senha: string)
    | UsuarioLogout(token: string)
    | UsuarioCriar(nome: string, cpf: string, senha: string, saldo: int)
    | UsuarioLer(token: string)
    | UsuarioAtualizar(nome: string, cpf: string, senha: string)
    | UsuarioDeletar(cpf: string)
    | Depositar(token: string, valorEnviado: int)
    | TransacaoCriar(token: string, cpfDestino: string, valor: int)
    | TransacaoLer(token: string, dataInicial: Option<string>, dataFinal: Option<string>)
    | ErroServidor
    | Unsupported(constant: string)

  /** A validated request: the `operacao` text, echoed in the response, and
      the fields its operation reads. */
  datatype Request = Request(operacao: string, body: Body)

  /** Fields a response carries beyond `operacao`, `status` and `info`. */
  datatype Extras =
    | NoExtras
    | TokenField(token: string)
    | UsuarioField(nome: string, cpf: string, saldo: int)
    | TransacoesField(transacoes: seq<Record>)

  datatype Response = Response(op: string, status: bool, info: string, extras: Extras)

  /** What a handler does with a request: answer it, or throw. */
  datatype Outcome = Answered(response: Response) | Raised(exc: Exc)

  /** `criarResposta(op, false, info)`. */
  function Failed(op: string, info: string): Response
  {
    Response(op, false, info, NoExtras)
  }

  /** `criarResposta(op, true, info)`. */
  function Succeeded(op: string, info: string): Response
  {
    Response(op, true, info, NoExtras)
  }

  const TokenInvalido := "Token inválido ou sessão expirada."
  const UsuarioNaoEncontrado := "Usuário não encontrado."
  const CpfJaCadastrado := "CPF já cadastrado."
  const UsuarioCriado := "Usuário criado com sucesso."
  const CredenciaisInvalidas := "CPF ou senha inválidos."
  const LoginSucesso := "Login bem-sucedido."
  const LogoutSucesso := "Logout realizado com sucesso."
  const DadosRecuperados := "Dados do usuário recuperados com sucesso."
  const DepositoSucesso := "Depósito realizado com sucesso."
  const CpfNaoEncontrado := "CPF não encontrado."
  const UsuarioDeletado := "Usuário deletado com sucesso."
  const AutoTransferencia := "Não é possível enviar dinheiro para si mesmo."
  const RemetenteNaoEncontrado := "Usuário remetente não encontrado."
  const DestinoNaoEncontrado := "Usuário de destino não encontrado."
  const SaldoInsuficiente := "Saldo insuficiente."
  const TransacaoSucesso := "Transação realizada com sucesso."
  const TransacoesRecuperadas := "Transações do usuário recuperados com sucesso."
  const Conectado := "Conectado com sucesso."
  const ErroRecebido := "Mensagem de erro recebida."
  const OperacaoDesconhecida := "Operação do cliente desconhecida ou não suportada: "
}
