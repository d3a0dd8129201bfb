/** The account entity `Usuario`: personal data, credential and a balance that
    changes only through the guarded `depositar` and `sacar` operations.
    Balances are exact integers (cents); the source's `double` rounding is not
    modelled. */
module Usuario {
  import opened Common

  /** What the account store keeps under a CPF: the non-key columns of the
      `usuarios` table. */
  datatype Row = Row(nome: string, senha: string, saldo: int)

  const SaqueNaoPositivo := "O valor do saque deve ser positivo."
  const SaqueSemSaldo := "Saldo insuficiente para realizar o saque."

  /** The balance after `depositar(valor)`: a non-positive amount is ignored
      without any error. */
  function Deposited(saldo: int, valor: int): int
  {
    if valor > 0 then saldo + valor else saldo
  }

  /** The balance after `sacar(valor)`, or the exception it throws. The two
      guards are checked in the source's order: the sign of the amount first,
      then the funds. */
  function Withdrawn(saldo: int, valor: int): (r: Result<int>)
    ensures r.Ok? <==> 0 < valor <= saldo
    ensures r.Ok? ==> r.value >= 0 && r.value + valor == saldo
    ensures valor <= 0 ==> r == Err(Exc(IllegalArgument, SaqueNaoPositivo))
    ensures 0 < valor && saldo < valor ==> r == Err(Exc(IllegalArgument, SaqueSemSaldo))
  {
    if valor <= 0 then Err(Exc(IllegalArgument, SaqueNaoPositivo))
    else if saldo < valor then Err(Exc(IllegalArgument, SaqueSemSaldo))
    else Ok(saldo - valor)
  }

  /** A deposit never lowers the balance and raises it by exactly the amount
      when the amount is positive. */
  lemma DepositAddsExactly(saldo: int, valor: int)
    ensures Deposited(saldo, valor) >= saldo
    ensures valor > 0 ==> Deposited(saldo, valor) - saldo == valor
    ensures valor <= 0 ==> Deposited(saldo, valor) == saldo
  {
  }

  /** Round trip: a successful withdrawal followed by a deposit of the same
      amount gives back the original balance. */
  lemma DepositUndoesWithdrawal(saldo: int, valor: int)
    requires Withdrawn(saldo, valor).Ok?
    ensures Deposited(Withdrawn(saldo, valor).value, valor) == saldo
  {
  }

  /** The other round trip: on a non-negative balance, a positive deposit can
      always be withdrawn again, and that restores the balance. */
  lemma WithdrawalUndoesDeposit(saldo: int, valor: int)
    requires saldo >= 0 && valor > 0
    ensures Withdrawn(Deposited(saldo, valor), valor) == Ok(saldo)
  {
  }

  class Usuario {
    var nome: string
    var cpf: string
    var senha: string
    var saldo: int

    /** Stores the four given fields as they are. */
    constructor (nome: string, cpf: string, senha: string, saldo: int)
      ensures this.nome == nome && this.cpf == cpf
      ensures this.senha == senha && this.saldo == saldo
    {
      this.nome := nome;
      this.cpf := cpf;
      this.senha := senha;
      this.saldo := saldo;
    }

    /** The store row this object is written back as. */
    function AsRow(): Row
      reads this
    {
      Row(nome, senha, saldo)
    }

    method Depositar(valor: int)
      modifies this
      ensures saldo == Deposited(old(saldo), valor)
      ensures nome == old(nome) && cpf == old(cpf) && senha == old(senha)
    {
      if valor > 0 {
        saldo := saldo + valor;
      }
    }

    /** Throws (returns the exception) and changes nothing when a guard
        fails; otherwise takes `valor` off the balance. */
    method Sacar(valor: int) returns (thrown: Option<Exc>)
      modifies this
      ensures Withdrawn(old(saldo), valor).Ok? ==>
                thrown == None && saldo == Withdrawn(old(saldo), valor).value
      ensures Withdrawn(old(saldo), valor).Err? ==>
                thrown == Some(Withdrawn(old(saldo), valor).exc) && saldo == old(saldo)
      ensures nome == old(nome) && cpf == old(cpf) && senha == old(senha)
    {
      if valor <= 0 {
        return Some(Exc(IllegalArgument, SaqueNaoPositivo));
      }
      if saldo < valor {
        return Some(Exc(IllegalArgument, SaqueSemSaldo));
      }
      saldo := saldo - valor;
      thrown := None;
    }
  }
}
