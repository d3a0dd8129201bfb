/** The session authority `SessaoManager`: the process-wide map from session
    token to the CPF that logged in. */
module Sessao {
  import opened Common

  /** `getCpfPeloToken` on a given map: the CPF, or null for a token that was
      never issued or has been revoked. */
  function Lookup(sessions: map<string, string>, token: string): (cpf: Option<string>)
    ensures cpf.Some? <==> token in sessions
    ensures cpf.Some? ==> cpf.value == sessions[token]
  {
    if token in sessions then Some(sessions[token]) else None
  }

  /** The map after `criarSessao` has put `token`. */
  function Issue(sessions: map<string, string>, token: string, cpf: string): map<string, string>
  {
    sessions[token := cpf]
  }

  /** The map after `encerrarSessao(token)`; a null token leaves it as it is. */
  function Revoke(sessions: map<string, string>, token: Option<string>): map<string, string>
  {
    if token.None? then sessions else sessions - {token.value}
  }

  /** The token just issued resolves to its CPF; every other token resolves as
      before, so a second login of the same CPF keeps the first session. */
  lemma IssueResolves(sessions: map<string, string>, token: string, cpf: string, other: string)
    ensures Lookup(Issue(sessions, token, cpf), token) == Some(cpf)
    ensures other != token ==> Lookup(Issue(sessions, token, cpf), other) == Lookup(sessions, other)
  {
  }

  /** With an unused token (what the random UUID provides), issuing adds
      exactly one session and removes none. */
  lemma {:induction false} IssueFreshGrows(sessions: map<string, string>, token: string, cpf: string)
    requires token !in sessions
    ensures Issue(sessions, token, cpf).Keys == sessions.Keys + {token}
    ensures |Issue(sessions, token, cpf)| == |sessions| + 1
  {
    var after := Issue(sessions, token, cpf);
    assert after.Keys == sessions.Keys + {token};
    assert |sessions.Keys + {token}| == |sessions.Keys| + 1;
  }

  /** After a revoke the token no longer resolves; other tokens are untouched
      and a null token changes nothing. */
  lemma RevokeResolves(sessions: map<string, string>, token: Option<string>, other: string)
    ensures token.Some? ==> Lookup(Revoke(sessions, token), token.value) == None
    ensures token.Some? && other != token.value ==>
              Lookup(Revoke(sessions, token), other) == Lookup(sessions, other)
    ensures token.None? ==> Revoke(sessions, token) == sessions
  {
  }

  /** Revoking is idempotent. */
  lemma RevokeIdempotent(sessions: map<string, string>, token: Option<string>)
    ensures Revoke(Revoke(sessions, token), token) == Revoke(sessions, token)
  {
  }

  class SessaoManager {
    var sessoesAtivas: map<string, string>

    constructor ()
      ensures sessoesAtivas == map[]
    {
      sessoesAtivas := map[];
    }

    /** Puts the freshly generated `uuid` (a parameter here: the random UUID
        generator is not modelled) and returns it as the token. As with the
        source's `put`, an already present token would be overwritten. */
    method CriarSessao(cpf: string, uuid: string) returns (token: string)
      modifies this
      ensures token == uuid
      ensures sessoesAtivas == Issue(old(sessoesAtivas), token, cpf)
    {
      token := uuid;
      sessoesAtivas := sessoesAtivas[token := cpf];
    }

    /** A pure read of the map. */
    function GetCpfPeloToken(token: string): (cpf: Option<string>)
      reads this
      ensures cpf == Lookup(sessoesAtivas, token)
    {
      if token in sessoesAtivas then Some(sessoesAtivas[token]) else None
    }

    method EncerrarSessao(token: Option<string>)
      modifies this
      ensures sessoesAtivas == Revoke(old(sessoesAtivas), token)
    {
      if token.Some? {
        sessoesAtivas := sessoesAtivas - {token.value};
      }
    }
  }
}
