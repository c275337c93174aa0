/** The older order service (`services/public/pedidos_service.py`): no user or address checks,
    no shipping and no stock. Each item's product must exist; its price is snapshotted and the
    order total is the sum of price × quantity. */
module PedidosLegado {
  import opened Common
  import opened Status
  import opened Models
  import opened Store
  import opened Checkout

  datatype LegadoRequest = LegadoRequest(usuarioId: Option<Id>, itens: seq<ItemRequest>)

  datatype LegadoErro =
    | SemItens
      /** `item["produto_id"]` on an item without that key raises `KeyError`. */
    | ChaveAusente
    | ProdutoNaoEncontrado(id: Id)

  /** The row stored for `q` units of product `p`; this service records no physical attributes. */
  function ItemLegado(pedidoId: Id, id: Id, p: Produto, q: int): ItemPedido {
    ItemPedido(pedidoId, id, q, p.preco, None, None, None, None)
  }

  /** One item: the row for its product, or `KeyError` without a product id, or the missing product. */
  function LinhaLegado(P: map<Id, Produto>, pedidoId: Id, it: ItemRequest): Result<ItemPedido, LegadoErro> {
    if it.produtoId.None? then Err(ChaveAusente)
    else if it.produtoId.value !in P then Err(LegadoErro.ProdutoNaoEncontrado(it.produtoId.value))
    else Ok(ItemLegado(pedidoId, it.produtoId.value, P[it.produtoId.value], Quantidade(it)))
  }

  /** The item loop over `S` as a fold: the rows made, or the first item's error. */
  function Itens(P: map<Id, Produto>, pedidoId: Id, S: seq<ItemRequest>): Result<seq<ItemPedido>, LegadoErro>
    decreases |S|
  {
    if S == [] then Ok([])
    else
      match Itens(P, pedidoId, S[..|S| - 1])
      case Err(e) => Err(e)
      case Ok(rows) =>
        match LinhaLegado(P, pedidoId, S[|S| - 1])
        case Err(e) => Err(e)
        case Ok(row) => Ok(rows + [row])
  }

  /** The loop succeeds exactly when every item names an existing product, and then there is one
      row per item, in order, with the product's current price and the requested quantity. */
  lemma {:induction false} ItensForma(P: map<Id, Produto>, pedidoId: Id, S: seq<ItemRequest>)
    ensures Itens(P, pedidoId, S).Ok? <==>
              forall k :: 0 <= k < |S| ==> S[k].produtoId.Some? && S[k].produtoId.value in P
    ensures Itens(P, pedidoId, S).Ok? ==>
              var rows := Itens(P, pedidoId, S).value;
              && |rows| == |S|
              && forall j :: 0 <= j < |S| ==>
                   rows[j] == ItemLegado(pedidoId, S[j].produtoId.value, P[S[j].produtoId.value], Quantidade(S[j]))
    decreases |S|
  {
    if S != [] {
      var n := |S|;
      var S' := S[..n - 1];
      ItensForma(P, pedidoId, S');
      forall k | 0 <= k < n - 1
        ensures S[k] == S'[k]
      {
      }
    }
  }

  /** Where the current service accepts an order's items, the older one accepts them too and
      charges the same product total: stock checks aside, both price the items alike. */
  lemma {:induction false} ItensConcordaComReserva(P: map<Id, Produto>, pedidoId: Id, S: seq<ItemRequest>)
    requires Reservar(P, S).Ok?
    ensures Itens(P, pedidoId, S).Ok?
    ensures TotalItens(Itens(P, pedidoId, S).value) == Reservar(P, S).value.totalProdutos
    decreases |S|
  {
    if S != [] {
      var n := |S|;
      var S' := S[..n - 1];
      ItensConcordaComReserva(P, pedidoId, S');
      var r' := Reservar(P, S').value;
      var it := S[n - 1];
      PassoForma(r', it);
      var id := it.produtoId.value;
      ReservarProdutos(P, S');
      assert r'.produtos[id].preco == P[id].preco;
      ItensUltimo(P, pedidoId, S);
    }
  }

  /** The last item, naming an existing product, adds its price × quantity to the rows' total. */
  lemma ItensUltimo(P: map<Id, Produto>, pedidoId: Id, S: seq<ItemRequest>)
    requires S != [] && Itens(P, pedidoId, S[..|S| - 1]).Ok?
    requires S[|S| - 1].produtoId.Some? && S[|S| - 1].produtoId.value in P
    ensures Itens(P, pedidoId, S).Ok?
    ensures TotalItens(Itens(P, pedidoId, S).value)
            == TotalItens(Itens(P, pedidoId, S[..|S| - 1]).value)
               + P[S[|S| - 1].produtoId.value].preco * Quantidade(S[|S| - 1])
  {
    var rows' := Itens(P, pedidoId, S[..|S| - 1]).value;
    var it := S[|S| - 1];
    var row := ItemLegado(pedidoId, it.produtoId.value, P[it.produtoId.value], Quantidade(it));
    assert Itens(P, pedidoId, S).value == rows' + [row];
    assert (rows' + [row])[..|rows'|] == rows';
  }

  /** The order row this service creates: only the user and the total are set. */
  function PedidoLegado(uid: Option<Id>, total: Fixed2, agora: int): Pedido {
    Pedido(uid, None, total, StatusPedido.Pendente, None, None, None, None, agora, None, None, None, None)
  }

  /** The item loop on the session's pending rows: `tabela` starts as the stored rows and gains one
      row per item; the first failing item ends the loop with its error. */
  method ItensNaSessao(P: map<Id, Produto>, itens0: map<Id, ItemPedido>, pedidoId: Id, S: seq<ItemRequest>,
                       itemIds: seq<Id>)
    returns (r: Result<seq<ItemPedido>, LegadoErro>, total: Fixed2, tabela: map<Id, ItemPedido>)
    requires |itemIds| == |S|
    ensures r == Itens(P, pedidoId, S)
    ensures r.Ok? ==> |r.value| == |S| && total == TotalItens(r.value) && tabela == itens0 + Indexar(itemIds, r.value)
  {
    total := 0;
    tabela := itens0;
    var rows: seq<ItemPedido> := [];
    var i := 0;
    while i < |S|
      invariant 0 <= i <= |S|
      invariant Itens(P, pedidoId, S[..i]) == Ok(rows)
      invariant |rows| == i && total == TotalItens(rows)
      invariant tabela == itens0 + Indexar(itemIds[..i], rows)
    {
      var l := LinhaLegado(P, pedidoId, S[i]);
      assert S[..i + 1][..i] == S[..i];
      if l.Err? {
        PropagaErro(P, pedidoId, S, i + 1);
        return Err(l.error), total, tabela;
      }
      var row := l.value;
      total := total + row.precoUnitario * row.quantidade;
      IndexarMais(itens0, itemIds, rows, row, i);
      tabela := tabela[itemIds[i] := row];
      assert (rows + [row])[..i] == rows;
      rows := rows + [row];
      i := i + 1;
    }
    assert S[..i] == S;
    assert itemIds[..i] == itemIds;
    r := Ok(rows);
  }

  /** `criar_pedido` of the older service: `pedidoId` and `itemIds` are the fresh uuids. An empty
      item list or a failing item leaves the tables as they were (the session is rolled back);
      otherwise the order is added, row `j` is stored under `itemIds[j]`, and the order's total is
      the rows' sum.
      Products are never changed. */
  method CriarPedidoLegado(db: Db, req: LegadoRequest, pedidoId: Id, itemIds: seq<Id>, agora: int)
    returns (r: Result<(Id, Fixed2), LegadoErro>)
    requires pedidoId !in db.pedidos
    requires |itemIds| == |req.itens|
    modifies db`pedidos, db`itens
    ensures db.produtos == old(db.produtos)
    ensures var v := Itens(old(db.produtos), pedidoId, req.itens);
      && (r.Err? <==> req.itens == [] || v.Err?)
      && (r.Err? ==> && r.error == (if req.itens == [] then SemItens else v.error)
                     && db.pedidos == old(db.pedidos) && db.itens == old(db.itens))
      && (r.Ok? ==> && r.value == (pedidoId, TotalItens(v.value))
                    && |v.value| == |itemIds|
                    && db.itens == old(db.itens) + Indexar(itemIds, v.value)
                    && db.pedidos == old(db.pedidos)[pedidoId := PedidoLegado(req.usuarioId, TotalItens(v.value), agora)])
  {
    if req.itens == [] {
      return Err(SemItens);
    }
    var v, total, tabela := ItensNaSessao(db.produtos, db.itens, pedidoId, req.itens, itemIds);
    if v.Err? {
      return Err(v.error);
    }
    db.pedidos, db.itens := db.pedidos[pedidoId := PedidoLegado(req.usuarioId, total, agora)], tabela;
    r := Ok((pedidoId, total));
  }

  /** Once a prefix of the items fails, the whole loop fails with that error. */
  lemma {:induction false} PropagaErro(P: map<Id, Produto>, pedidoId: Id, S: seq<ItemRequest>, i: nat)
    requires i <= |S| && Itens(P, pedidoId, S[..i]).Err?
    ensures Itens(P, pedidoId, S) == Itens(P, pedidoId, S[..i])
    decreases |S|
  {
    if i < |S| {
      var S' := S[..|S| - 1];
      assert S'[..i] == S[..i];
      PropagaErro(P, pedidoId, S', i);
    } else {
      assert S[..i] == S;
    }
  }
}
