/** The console client's own rules: how a statement entry is classified, how
    the date bounds of a statement request are built, which fields an update
    request carries, and how the session token and the menu loop evolve.
    Console input and output and the socket are not modelled: what the user
    types and what the server answers are parameters. */
module Client {
  import opened Common
  import opened Transacao
  import opened Protocol
  import UsuarioController
  import opened Store

  // ---------------------------------------------------------------------------
  // Statement entries

  datatype TipoTransacao = Recebimento | Envio | Deposito

  /** The classification in `verExtrato`: an entry whose receiver is its sender
      is a deposit, whoever looks at it; otherwise it was received when the
      viewing user is the receiver, and sent in every other case. */
  function Classify(cpfEnviador: string, cpfRecebedor: string, cpfUsuario: string): (tipo: TipoTransacao)
    ensures tipo == Deposito <==> cpfRecebedor == cpfEnviador
    ensures tipo == Recebimento <==> cpfRecebedor != cpfEnviador && cpfRecebedor == cpfUsuario
    ensures tipo == Envio <==> cpfRecebedor != cpfEnviador && cpfRecebedor != cpfUsuario
  {
    if cpfRecebedor == cpfEnviador then Deposito
    else if cpfRecebedor == cpfUsuario then Recebimento
    else Envio
  }

  /** On the user's own statement, where every entry involves the user, the
      client's classification is the server's notion: sent means the user is
      the sender of a transfer between two different accounts, received means
      the user is its receiver. */
  lemma ClassifyOwnStatement(ledger: seq<Record>, cpfUsuario: string, r: Record)
    requires r in Statement(ledger, cpfUsuario)
    ensures var tipo := Classify(r.remetente.cpf, r.destinatario.cpf, cpfUsuario);
            && (tipo == Envio <==> r.remetente.cpf == cpfUsuario && r.destinatario.cpf != cpfUsuario)
            && (tipo == Recebimento <==> r.destinatario.cpf == cpfUsuario && r.remetente.cpf != cpfUsuario)
  {
  }

  // ---------------------------------------------------------------------------
  // Date bounds

  /** `Character.isWhitespace`: the space, line and paragraph separators
      except the non-breaking ones, and the control characters U+0009-U+000D
      and U+001C-U+001F. */
  predicate IsWhitespace(c: char)
  {
    || c == ' '
    || ('\t' <= c <= '\r')
    || ('\U{1C}' <= c <= '\U{1F}')
    || c == '\U{1680}'
    || ('\U{2000}' <= c <= '\U{200A}' && c != '\U{2007}')
    || c == '\U{2028}' || c == '\U{2029}' || c == '\U{205F}' || c == '\U{3000}'
  }

  /** `String.isBlank()`. */
  predicate IsBlank(s: string)
  {
    forall i :: 0 <= i < |s| ==> IsWhitespace(s[i])
  }

  /** Drops the leading whitespace: the result is a suffix of `s` that does
      not start with whitespace, and everything dropped was whitespace. */
  function StripLeading(s: string): (r: string)
    ensures |r| <= |s| && r == s[|s| - |r|..]
    ensures r == [] || !IsWhitespace(r[0])
    ensures forall i :: 0 <= i < |s| - |r| ==> IsWhitespace(s[i])
  {
    if s != [] && IsWhitespace(s[0]) then StripLeading(s[1..]) else s
  }

  /** Drops the trailing whitespace: the result is a prefix of `s` that does
      not end with whitespace, and everything dropped was whitespace. */
  function StripTrailing(s: string): (r: string)
    ensures |r| <= |s| && r == s[..|r|]
    ensures r == [] || !IsWhitespace(r[|r| - 1])
    ensures forall i :: |r| <= i < |s| ==> IsWhitespace(s[i])
  {
    if s != [] && IsWhitespace(s[|s| - 1]) then StripTrailing(s[..|s| - 1]) else s
  }

  /** `String.strip()`. */
  function Strip(s: string): string
  {
    StripTrailing(StripLeading(s))
  }

  /** A stripped line is blank exactly when it is empty, which is exactly when
      the line typed was blank. */
  lemma StripBlank(s: string)
    ensures IsBlank(Strip(s)) <==> Strip(s) == []
    ensures Strip(s) == [] <==> IsBlank(s)
  {
    var lead := StripLeading(s);
    var r := StripTrailing(lead);
    if r == [] {
      assert lead == [];
    } else {
      assert !IsWhitespace(r[|r| - 1]);
      assert r[|r| - 1] == lead[|r| - 1] == s[|s| - |lead| + |r| - 1];
    }
  }

  const StartOfDay := "T00:00:00Z"
  const EndOfDay := "T23:59:59Z"

  /** The start bound: the stripped date typed, at midnight UTC. */
  function StartBound(typed: string): (bound: string)
    ensures |bound| == |Strip(typed)| + |StartOfDay|
    ensures bound[..|Strip(typed)|] == Strip(typed) && bound[|Strip(typed)|..] == StartOfDay
  {
    Strip(typed) + StartOfDay
  }

  /** The end bound: the current instant (`nowIso`, truncated to seconds, a
      parameter) when the stripped input is blank, else the date at the last
      second of the day, UTC. */
  function EndBound(typed: string, nowIso: string): (bound: string)
    ensures IsBlank(typed) ==> bound == nowIso
    ensures !IsBlank(typed) ==>
              |bound| == |Strip(typed)| + |EndOfDay| &&
              bound[..|Strip(typed)|] == Strip(typed) && bound[|Strip(typed)|..] == EndOfDay
  {
    StripBlank(typed);
    if IsBlank(Strip(typed)) then nowIso else Strip(typed) + EndOfDay
  }

  // ---------------------------------------------------------------------------
  // Update payload

  /** The `usuario` object of an update request: a field is sent only when the
      user typed something for it, and then with what was typed. */
  function UpdatePayload(nome: string, senha: string): (node: map<string, string>)
    ensures node.Keys <= {"nome", "senha"}
    ensures "nome" in node <==> nome != ""
    ensures "senha" in node <==> senha != ""
    ensures "nome" in node ==> node["nome"] == nome
    ensures "senha" in node ==> node["senha"] == senha
  {
    var withNome := if nome != "" then map["nome" := nome] else map[];
    if senha != "" then withNome["senha" := senha] else withNome
  }

  // ---------------------------------------------------------------------------
  // Token and menu

  /** What the user chose at one turn of the menu, with the server's reply to
      the login that choice 2 sends when logged out. */
  datatype Input = Input(escolha: int, loginReply: Response)

  /** A login reply the client can read: a `status=true` reply must carry the
      token, or reading it throws out of the client. */
  predicate Readable(reply: Response)
  {
    reply.status ==> reply.extras.TokenField?
  }

  datatype Menu = Menu(token: Option<string>, running: bool)

  /** One turn of the menu loop. Logged out, choice 2 stores the token only
      when the reply says `status=true`, and choice 3 alone ends the loop.
      Logged in, the loop goes on whatever the choice; logout (5) and delete
      (7, which logs out after deleting) clear the token whatever the server
      replied, and every other choice leaves it. */
  function Turn(token: Option<string>, input: Input): (m: Menu)
    requires Readable(input.loginReply)
    ensures !m.running <==> token.None? && input.escolha == 3
    ensures token.Some? ==> m.token == (if input.escolha == 5 || input.escolha == 7 then None else token)
    ensures token.None? ==>
              m.token == (if input.escolha == 2 && input.loginReply.status
                          then Some(input.loginReply.extras.token) else None)
  {
    match token
    case None =>
      if input.escolha == 3 then Menu(None, false)
      else if input.escolha == 2 && input.loginReply.status then Menu(Some(input.loginReply.extras.token), true)
      else Menu(None, true)
    case Some(_) =>
      if input.escolha == 5 || input.escolha == 7 then Menu(None, true) else Menu(token, true)
  }

  /** The menu state after the given turns, stopping at the first turn that
      ends the loop. */
  function Session(token: Option<string>, inputs: seq<Input>): (m: Menu)
    requires forall i :: 0 <= i < |inputs| ==> Readable(inputs[i].loginReply)
    decreases |inputs|
  {
    if inputs == [] then Menu(token, true)
    else
      var before := Session(token, inputs[..|inputs| - 1]);
      if !before.running then before else Turn(before.token, inputs[|inputs| - 1])
  }

  /** The loop stops only on a logged-out 3: once a session has stopped, the
      last turn it took was a 3 typed while logged out. */
  lemma {:induction false} SessionStopsOnlyOnExit(token: Option<string>, inputs: seq<Input>)
    requires forall i :: 0 <= i < |inputs| ==> Readable(inputs[i].loginReply)
    ensures !Session(token, inputs).running ==>
              exists k :: 0 <= k < |inputs| && inputs[k].escolha == 3 &&
                          Session(token, inputs[..k]).token.None? && Session(token, inputs[..k]).running
    decreases |inputs|
  {
    if inputs != [] {
      var init := inputs[..|inputs| - 1];
      var before := Session(token, init);
      if !before.running {
        SessionStopsOnlyOnExit(token, init);
        var k :| 0 <= k < |init| && init[k].escolha == 3 &&
                 Session(token, init[..k]).token.None? && Session(token, init[..k]).running;
        assert init[..k] == inputs[..k];
      } else if !Session(token, inputs).running {
        assert inputs[..|inputs| - 1] == init;
      }
    }
  }

  /** As written, the server answers a correct login with `status=false`, so
      the client never stores the token it is sent and stays logged out. */
  lemma ServerLoginNeverLogsClientIn(s: State, cpf: string, senha: string, uuid: string)
    ensures var reply := UsuarioController.LoginSpec(s, "usuario_login", cpf, senha, uuid).0;
            Readable(reply) && Turn(None, Input(2, reply)) == Menu(None, true)
  {
  }

  class Client {
    /** The session token; null while logged out. */
    var token: Option<string>

    constructor ()
      ensures token == None
    {
      token := None;
    }

    /** `login`: keeps the token of a `status=true` reply. */
    method Login(reply: Response)
      requires Readable(reply)
      modifies this
      ensures token == (if reply.status then Some(reply.extras.token) else old(token))
    {
      if reply.status {
        token := Some(reply.extras.token);
      }
    }

    /** `logout`: the token is cleared after the request, whatever the reply. */
    method Logout()
      modifies this
      ensures token == None
    {
      token := None;
    }

    method HandleEscolhaDeslogado(input: Input) returns (running: bool)
      requires token.None? && Readable(input.loginReply)
      modifies this
      ensures Menu(token, running) == Turn(old(token), input)
    {
      if input.escolha == 2 {
        Login(input.loginReply);
      } else if input.escolha == 3 {
        return false;
      }
      running := true;
    }

    method HandleEscolhaLogado(input: Input) returns (running: bool)
      requires token.Some? && Readable(input.loginReply)
      modifies this
      ensures Menu(token, running) == Turn(old(token), input)
    {
      if input.escolha == 5 || input.escolha == 7 {
        // Choice 7 deletes the account and then logs out.
        Logout();
      }
      running := true;
    }

    /** `start`: one menu turn per input while the loop runs; it also stops
        when the inputs run out. */
    method Start(inputs: seq<Input>) returns (running: bool)
      requires forall i :: 0 <= i < |inputs| ==> Readable(inputs[i].loginReply)
      modifies this
      ensures Menu(token, running) == Session(old(token), inputs)
    {
      running := true;
      var i := 0;
      while running && i < |inputs|
        invariant 0 <= i <= |inputs|
        invariant Menu(token, running) == Session(old(token), inputs[..i])
        invariant !running ==> Session(old(token), inputs) == Session(old(token), inputs[..i])
      {
        assert inputs[..i + 1][..i] == inputs[..i];
        if token.None? {
          running := HandleEscolhaDeslogado(inputs[i]);
        } else {
          running := HandleEscolhaLogado(inputs[i]);
        }
        i := i + 1;
        if !running {
          StoppedStaysStopped(old(token), inputs, i);
        }
      }
      if running {
        assert inputs[..i] == inputs;
      }
    }
  }

  /** Once the loop has stopped, later inputs are never read. */
  lemma {:induction false} StoppedStaysStopped(token: Option<string>, inputs: seq<Input>, i: nat)
    requires forall k :: 0 <= k < |inputs| ==> Readable(inputs[k].loginReply)
    requires i <= |inputs| && !Session(token, inputs[..i]).running
    ensures Session(token, inputs) == Session(token, inputs[..i])
    decreases |inputs| - i
  {
    if i < |inputs| {
      var init := inputs[..|inputs| - 1];
      assert init[..i] == inputs[..i];
      StoppedStaysStopped(token, init, i);
    } else {
      assert inputs[..i] == inputs;
    }
  }
}
