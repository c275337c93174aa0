/** Payment transactions (`PagamentoService`): creating a transaction for an order, with the
    amount required to equal the order total, and listing an order's transactions. */
module Pagamentos {
  import opened Common
  import opened Status
  import opened Models
  import opened Store

  datatype PagamentoErro =
    | PedidoNaoEncontrado
      /** `valor` or `metodo_pagamento` is None. */
    | DadosObrigatorios
    | ValorDiferente

  /** The dictionary `criar_transacao` returns. */
  datatype ResumoTransacao = ResumoTransacao(
    transacaoId: Id,
    pedidoId: Id,
    valor: Fixed2,
    status: string,
    metodoPagamento: string,
    pedidoStatus: string)

  /** The checks of `criar_transacao`, in order: the order exists, both values are given, and the
      amount is the order's total. */
  function ErroTransacao(pedidos: map<Id, Pedido>, pedidoId: Id, valor: Option<Fixed2>,
                         metodo: Option<string>): (r: Option<PagamentoErro>)
    ensures r.None? <==> pedidoId in pedidos && valor.Some? && metodo.Some?
                         && valor.value == pedidos[pedidoId].valorTotal
    ensures pedidoId !in pedidos ==> r == Some(PedidoNaoEncontrado)
  {
    if pedidoId !in pedidos then Some(PedidoNaoEncontrado)
    else if valor.None? || metodo.None? then Some(DadosObrigatorios)
    else if valor.value != pedidos[pedidoId].valorTotal then Some(ValorDiferente)
    else None
  }

  /** `criar_transacao`: `transacaoId` is the fresh uuid. On an error nothing changes. Otherwise
      one pending transaction with the given amount and method is added, and the order status is
      the one the new transaction's status implies, which for a pending one is the status the
      order already had. */
  method CriarTransacao(db: Db, pedidoId: Id, valor: Option<Fixed2>, metodo: Option<string>, transacaoId: Id)
    returns (r: Result<ResumoTransacao, PagamentoErro>)
    requires transacaoId !in db.transacoes
    modifies db`transacoes, db`pedidos
    ensures var e := ErroTransacao(old(db.pedidos), pedidoId, valor, metodo);
      && (r.Err? <==> e.Some?)
      && (r.Err? ==> r.error == e.value)
    ensures db.pedidos == old(db.pedidos)
    ensures r.Err? ==> db.transacoes == old(db.transacoes)
    ensures r.Ok? ==>
      && db.transacoes == old(db.transacoes)[transacaoId := Transacao(pedidoId, valor.value, StatusPagamento.Pendente,
                                                                      metodo.value, None, None)]
      && r.value == ResumoTransacao(transacaoId, pedidoId, valor.value, "Pendente", metodo.value,
                                    PedidoNome(db.pedidos[pedidoId].status))
  {
    var erro := ErroTransacao(db.pedidos, pedidoId, valor, metodo);
    if erro.Some? {
      return Err(erro.value);
    }
    var t := Transacao(pedidoId, valor.value, StatusPagamento.Pendente, metodo.value, None, None);
    db.transacoes := db.transacoes[transacaoId := t];
    var pedido := db.pedidos[pedidoId];
    db.pedidos := db.pedidos[pedidoId := pedido.(status := PedidoAposPagamento(t.status, pedido.status))];
    r := Ok(ResumoTransacao(transacaoId, pedidoId, t.valor, PagamentoValor(t.status), t.metodoPagamento,
                            PedidoNome(db.pedidos[pedidoId].status)));
  }

  /** `listar_transacoes`: an unknown order is an error; otherwise exactly the transactions of
      that order. */
  function ListarTransacoes(db: Db, pedidoId: Id): (r: Result<map<Id, Transacao>, PagamentoErro>)
    reads db
    ensures r.Err? <==> pedidoId !in db.pedidos
    ensures r.Err? ==> r.error == PedidoNaoEncontrado
    ensures r.Ok? ==> forall k :: k in r.value <==> k in db.transacoes && db.transacoes[k].pedidoId == pedidoId
    ensures r.Ok? ==> forall k :: k in r.value ==> r.value[k] == db.transacoes[k]
  {
    if pedidoId !in db.pedidos then Err(PedidoNaoEncontrado)
    else Ok(Restrict(db.transacoes, (t: Transacao) => t.pedidoId == pedidoId))
  }
}
