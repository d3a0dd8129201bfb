/** Transfer records (`Transacao`) and the two selections made over the ledger:
    the statement of one CPF and the date window of a statement request. */
module Transacao {
  import opened Common
  import opened Seqs

  /** One side of a transfer: the account's CPF and its name as it was when
      the transfer was made. The source hands whole `Usuario` objects to the
      `Transacao` constructor (TransacaoController.java:197), which declares
      CPF parameters, and reads names back through `getRemetente()` and
      `getDestinatario()` (TransacaoController.java:120-124), which
      `Transacao.java` does not declare. The table keeps only the two CPFs, so
      the source evidently means to look the names up when the statement is
      read; this model keeps the names taken at transfer time instead. */
  datatype Party = Party(cpf: string, nome: string)

  /** A ledger entry. `id` is the store-assigned key; `data` is the timestamp
      in the clock's finest unit (nanoseconds, UTC), so a bound compares with
      it exactly; the filtering loop treats it as possibly null. */
  datatype Record = Record(id: int, remetente: Party, destinatario: Party, valor: int, data: Option<int>)

  /** The store query behind a statement: sender or receiver is `cpf`. */
  predicate Involves(r: Record, cpf: string)
  {
    r.remetente.cpf == cpf || r.destinatario.cpf == cpf
  }

  /** Every record involving `cpf`, in insertion order. */
  function Statement(ledger: seq<Record>, cpf: string): (rs: seq<Record>)
    ensures forall r :: r in rs <==> r in ledger && Involves(r, cpf)
  {
    Filter(ledger, r => Involves(r, cpf))
  }

  /** The date filter of a statement request: off, or a closed interval. */
  datatype Window = Unfiltered | Between(inicio: int, fim: int)

  /** The filter is active only when both bounds are present, non-empty and
      both parse as instants; one failure anywhere turns it off. `parse` is
      `Instant.parse`, given as a parameter. */
  function WindowOf(dataInicial: Option<string>, dataFinal: Option<string>,
                    parse: string -> Option<int>): (w: Window)
    ensures w.Between? <==>
              dataInicial.Some? && dataFinal.Some? &&
              dataInicial.value != "" && dataFinal.value != "" &&
              parse(dataInicial.value).Some? && parse(dataFinal.value).Some?
    ensures w.Between? ==>
              w.inicio == parse(dataInicial.value).value && w.fim == parse(dataFinal.value).value
  {
    if dataInicial.Some? && dataFinal.Some? && dataInicial.value != "" && dataFinal.value != "" then
      match (parse(dataInicial.value), parse(dataFinal.value))
      case (Some(inicio), Some(fim)) => Between(inicio, fim)
      case _ => Unfiltered
    else Unfiltered
  }

  /** Whether the listing loop keeps a record: it must carry a date and, when
      the filter is on, that date must be neither before the start nor after
      the end. */
  predicate Listed(r: Record, w: Window)
  {
    r.data.Some? && (w.Unfiltered? || (w.inicio <= r.data.value && r.data.value <= w.fim))
  }

  /** The records of a statement that the listing returns. */
  function Listing(found: seq<Record>, w: Window): seq<Record>
  {
    Filter(found, r => Listed(r, w))
  }

  /** Filter exactness: with the filter on, a record is listed if and only if
      it involves the account, has a date and that date lies in the closed
      interval, both ends included. */
  lemma ListingExact(ledger: seq<Record>, cpf: string, inicio: int, fim: int, r: Record)
    ensures r in Listing(Statement(ledger, cpf), Between(inicio, fim)) <==>
              r in ledger && Involves(r, cpf) && r.data.Some? && inicio <= r.data.value <= fim
  {
  }

  /** The statement listing is one query over the whole ledger: keeping the
      records that involve the account and then those in the window is
      keeping, in one pass, the records that satisfy both. */
  lemma ListingIsOneQuery(ledger: seq<Record>, cpf: string, w: Window, query: Record -> bool)
    requires forall r :: query(r) == (Involves(r, cpf) && Listed(r, w))
    ensures Listing(Statement(ledger, cpf), w) == Filter(ledger, query)
  {
    FilterTwice(ledger, r => Involves(r, cpf), r => Listed(r, w), query);
  }

  /** With the filter off, every dated record of the statement is listed, in
      store order; when no record lacks a date this is the whole statement. */
  lemma UnfilteredIsWholeStatement(ledger: seq<Record>, cpf: string)
    requires forall r :: r in ledger ==> r.data.Some?
    ensures Listing(Statement(ledger, cpf), Unfiltered) == Statement(ledger, cpf)
  {
    FilterKeepsAll(Statement(ledger, cpf), r => Listed(r, Unfiltered));
  }

  /** Appending a record to the ledger appends it to the listing of every
      account it involves, when it falls in the window, and changes nothing
      earlier in that listing. */
  lemma ListingAfterAppend(ledger: seq<Record>, r: Record, cpf: string, w: Window)
    ensures Listing(Statement(ledger + [r], cpf), w) ==
              Listing(Statement(ledger, cpf), w) + (if Involves(r, cpf) && Listed(r, w) then [r] else [])
  {
    var involves := (x: Record) => Involves(x, cpf);
    var listed := (x: Record) => Listed(x, w);
    FilterAppend(ledger, [r], involves);
    assert Filter([r], involves) == Filter([], involves) + (if involves(r) then [r] else []);
    FilterAppend(Filter(ledger, involves), Filter([r], involves), listed);
    if involves(r) {
      assert Filter([r], listed) == Filter([], listed) + (if listed(r) then [r] else []);
    }
  }
}
