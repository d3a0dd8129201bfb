/** The in-memory stand-in for the SQLite account and transfer tables, and the
    whole server state as one value. */
module Store {
  import opened Common
  import opened Usuario
  import opened Transacao
  import opened Sessao

  /** Everything the server handlers read or write: accounts by CPF, the
      append-only ledger and the session map. */
  datatype State = State(accounts: map<string, Row>, ledger: seq<Record>, sessions: map<string, string>)

  /** The sum of all balances. */
  ghost function Total(accounts: map<string, Row>): int
    decreases |accounts|
  {
    if accounts == map[] then 0
    else
      var cpf :| cpf in accounts;
      assert |(accounts - {cpf}).Keys| < |accounts.Keys| by {
        assert (accounts - {cpf}).Keys < accounts.Keys;
      }
      accounts[cpf].saldo + Total(accounts - {cpf})
  }

  /** The sum can be split at any account, not only at the one `Total` picks. */
  lemma {:induction false} TotalSplit(accounts: map<string, Row>, cpf: string)
    requires cpf in accounts
    ensures Total(accounts) == accounts[cpf].saldo + Total(accounts - {cpf})
    decreases |accounts|
  {
    var picked :| picked in accounts && Total(accounts) == accounts[picked].saldo + Total(accounts - {picked});
    if picked != cpf {
      assert (accounts - {picked}).Keys < accounts.Keys;
      assert (accounts - {cpf}).Keys < accounts.Keys;
      TotalSplit(accounts - {picked}, cpf);
      TotalSplit(accounts - {cpf}, picked);
      assert accounts - {picked} - {cpf} == accounts - {cpf} - {picked};
    }
  }

  /** Replacing one account's row changes the sum by exactly the change of that
      account's balance. */
  lemma TotalUpdate(accounts: map<string, Row>, cpf: string, row: Row)
    requires cpf in accounts
    ensures Total(accounts[cpf := row]) == Total(accounts) - accounts[cpf].saldo + row.saldo
  {
    var updated := accounts[cpf := row];
    TotalSplit(accounts, cpf);
    TotalSplit(updated, cpf);
    assert updated - {cpf} == accounts - {cpf};
  }

  class Store {
    var accounts: map<string, Row>
    var ledger: seq<Record>

    constructor ()
      ensures accounts == map[] && ledger == []
    {
      accounts := map[];
      ledger := [];
    }

    /** `findByCpf`: a fresh `Usuario` built from the row, or null. Handlers
        change that copy and write it back with `Update`. */
    method FindByCpf(cpf: string) returns (u: Usuario?)
      ensures u == null <==> cpf !in accounts
      ensures u != null ==> fresh(u) && u.cpf == cpf && u.AsRow() == accounts[cpf]
    {
      if cpf in accounts {
        var row := accounts[cpf];
        u := new Usuario(row.nome, cpf, row.senha, row.saldo);
      } else {
        u := null;
      }
    }

    /** `save`: inserts the account under its CPF. The CPF is the table's
        primary key, so the insert is only meant for a CPF not yet present. */
    method Save(u: Usuario)
      requires u.cpf !in accounts
      modifies this
      ensures accounts == old(accounts)[u.cpf := u.AsRow()] && ledger == old(ledger)
    {
      accounts := accounts[u.cpf := u.AsRow()];
    }

    /** `update`: an SQL `UPDATE ... WHERE cpf = ?`, which changes nothing
        when no row has that CPF. */
    method Update(u: Usuario)
      modifies this
      ensures accounts == (if u.cpf in old(accounts) then old(accounts)[u.cpf := u.AsRow()] else old(accounts))
      ensures ledger == old(ledger)
    {
      if u.cpf in accounts {
        accounts := accounts[u.cpf := u.AsRow()];
      }
    }

    /** `delete`: removes the row with that CPF, if any. */
    method Delete(cpf: string)
      modifies this
      ensures accounts == old(accounts) - {cpf} && ledger == old(ledger)
    {
      accounts := accounts - {cpf};
    }

    /** `save` of a transfer: appended with the next autoincrement key. */
    method SaveTransacao(t: Record)
      modifies this
      ensures ledger == old(ledger) + [t.(id := |old(ledger)| + 1)]
      ensures accounts == old(accounts)
    {
      ledger := ledger + [t.(id := |ledger| + 1)];
    }
  }

  /** The server state held by a store and a session manager. */
  ghost function Snapshot(store: Store, sessoes: SessaoManager): State
    reads store, sessoes
  {
    State(store.accounts, store.ledger, sessoes.sessoesAtivas)
  }
}
