/** The two status enumerations of the store (payment and order), their member names and
    values, the lookup by member name (`Enum[name]`), and the order status a payment status
    implies. */
module Status {
  import opened Common

  /** StatusPagamentoEnum: the status of a payment transaction. */
  datatype StatusPagamento = Pendente | Aprovado | Recusado | Estornado

  /** StatusPedidoEnum: the status of an order. */
  datatype StatusPedido = Pendente | Pago | EmSeparacao | Enviado | Entregue | Cancelado

  /** `StatusPagamentoEnum.X.name` */
  function PagamentoNome(s: StatusPagamento): string {
    match s
    case Pendente => "PENDENTE"
    case Aprovado => "APROVADO"
    case Recusado => "RECUSADO"
    case Estornado => "ESTORNADO"
  }

  /** `StatusPagamentoEnum.X.value` */
  function PagamentoValor(s: StatusPagamento): string {
    match s
    case Pendente => "Pendente"
    case Aprovado => "Aprovado"
    case Recusado => "Recusado"
    case Estornado => "Estornado"
  }

  /** `StatusPedidoEnum.X.name`, which is also its value. */
  function PedidoNome(s: StatusPedido): string {
    match s
    case Pendente => "PENDENTE"
    case Pago => "PAGO"
    case EmSeparacao => "EM_SEPARACAO"
    case Enviado => "ENVIADO"
    case Entregue => "ENTREGUE"
    case Cancelado => "CANCELADO"
  }

  /** `StatusPagamentoEnum[n]`: the member whose name is exactly `n`, if any. */
  function PagamentoPorNome(n: string): (r: Option<StatusPagamento>)
    ensures forall s :: r == Some(s) <==> PagamentoNome(s) == n
  {
    if n == "PENDENTE" then Some(StatusPagamento.Pendente)
    else if n == "APROVADO" then Some(Aprovado)
    else if n == "RECUSADO" then Some(Recusado)
    else if n == "ESTORNADO" then Some(Estornado)
    else None
  }

  /** `StatusPedidoEnum[n]`: the member whose name is exactly `n`, if any. */
  function PedidoPorNome(n: string): (r: Option<StatusPedido>)
    ensures forall s :: r == Some(s) <==> PedidoNome(s) == n
  {
    if n == "PENDENTE" then Some(StatusPedido.Pendente)
    else if n == "PAGO" then Some(Pago)
    else if n == "EM_SEPARACAO" then Some(EmSeparacao)
    else if n == "ENVIADO" then Some(Enviado)
    else if n == "ENTREGUE" then Some(Entregue)
    else if n == "CANCELADO" then Some(Cancelado)
    else None
  }

  /** The order status after a transaction with status `pag` is recorded: an approved payment
      makes the order paid, a refused or refunded one cancels it, a pending one leaves it. */
  function PedidoAposPagamento(pag: StatusPagamento, atual: StatusPedido): (r: StatusPedido)
    ensures r == Pago <==> pag == Aprovado || (pag == StatusPagamento.Pendente && atual == Pago)
    ensures r == Cancelado <==> pag in {Recusado, Estornado} || (pag == StatusPagamento.Pendente && atual == Cancelado)
    ensures pag == StatusPagamento.Pendente ==> r == atual
  {
    match pag
    case Aprovado => Pago
    case Recusado => Cancelado
    case Estornado => Cancelado
    case Pendente => atual
  }

  /** Recording the same payment status twice has the effect of recording it once. */
  lemma PedidoAposPagamentoIdempotent(pag: StatusPagamento, atual: StatusPedido)
    ensures PedidoAposPagamento(pag, PedidoAposPagamento(pag, atual)) == PedidoAposPagamento(pag, atual)
  {
  }
}
