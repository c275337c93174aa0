/** The admin order service (`services/admin/AdminPedidosService.py`): listing orders with date and
    category filters, and updating or deleting orders, order items and payment transactions. */
module AdminPedidos {
  import opened Common
  import opened Text
  import opened Status
  import opened Models
  import opened Store

  datatype AdminErro =
    | CategoriaInvalida
    | PedidoNaoEncontrado
    | StatusInvalido
    | ItemNaoEncontrado
    | TransacaoNaoEncontrada

  /** `CATEGORIAS_MAP.get(id)` */
  function Categoria(id: int): (r: Option<string>)
    ensures r.Some? <==> 1 <= id <= 4
    ensures r.Some? ==> r.value in {"facas", "aventais", "estojos", "churrascos"}
  {
    if id == 1 then Some("facas")
    else if id == 2 then Some("aventais")
    else if id == 3 then Some("estojos")
    else if id == 4 then Some("churrascos")
    else None
  }

  /** The filters of a listing; None is a filter that was not given. */
  datatype Filtro = Filtro(dataInicial: Option<int>, dataFinal: Option<int>, categoria: Option<string>)

  /** Order `pid` has an item whose product is in category `cat` (the inner join on items and products). */
  predicate TemCategoria(db: Db, pid: Id, cat: string)
    reads db
  {
    exists k :: k in db.itens && db.itens[k].pedidoId == pid && db.itens[k].produtoId in db.produtos
                && db.produtos[db.itens[k].produtoId].categoria == Some(cat)
  }

  /** Order `pid` passes the filters: both dates are inclusive bounds on its creation time. */
  predicate Passa(db: Db, f: Filtro, pid: Id)
    reads db
    requires pid in db.pedidos
  {
    && (f.dataInicial.Some? ==> db.pedidos[pid].criadoEm >= f.dataInicial.value)
    && (f.dataFinal.Some? ==> db.pedidos[pid].criadoEm <= f.dataFinal.value)
    && (f.categoria.Some? ==> TemCategoria(db, pid, f.categoria.value))
  }

  /** One entry of the listing. */
  datatype PedidoAdmin = PedidoAdmin(
    id: Id,
    usuarioId: Option<Id>,
    valorTotal: Fixed2,
    nome: Option<string>,
    status: string,
    criadoEm: int)

  function Projecao(db: Db, pid: Id): (r: PedidoAdmin)
    reads db
    requires pid in db.pedidos
    ensures r.id == pid && r.status == PedidoNome(db.pedidos[pid].status)
  {
    var p := db.pedidos[pid];
    PedidoAdmin(pid, p.usuarioId, p.valorTotal,
                if p.usuarioId.Some? && p.usuarioId.value in db.usuarios then Some(db.usuarios[p.usuarioId.value].nome) else None,
                PedidoNome(p.status), p.criadoEm)
  }

  /** The loop over the query's rows as a fold: the entries of the orders that pass. */
  function Listagem(db: Db, f: Filtro, ordem: seq<Id>): seq<PedidoAdmin>
    reads db
    requires forall j :: 0 <= j < |ordem| ==> ordem[j] in db.pedidos
    decreases |ordem|
  {
    if ordem == [] then []
    else
      var k := ordem[|ordem| - 1];
      Listagem(db, f, ordem[..|ordem| - 1]) + (if Passa(db, f, k) then [Projecao(db, k)] else [])
  }

  /** Every entry of the listing is an enumerated order that passes the filters, projected. */
  lemma {:induction false} ListagemCorreta(db: Db, f: Filtro, ordem: seq<Id>)
    requires forall j :: 0 <= j < |ordem| ==> ordem[j] in db.pedidos
    ensures var r := Listagem(db, f, ordem);
      forall j :: 0 <= j < |r| ==>
        && r[j].id in ordem && r[j].id in db.pedidos && Passa(db, f, r[j].id) && r[j] == Projecao(db, r[j].id)
    decreases |ordem|
  {
    if ordem != [] {
      var o' := ordem[..|ordem| - 1];
      var k := ordem[|ordem| - 1];
      ListagemCorreta(db, f, o');
      ListagemEstende(db, f, ordem);
      var r' := Listagem(db, f, o');
      var r := Listagem(db, f, ordem);
      forall j | 0 <= j < |r|
        ensures r[j].id in ordem && r[j].id in db.pedidos && Passa(db, f, r[j].id) && r[j] == Projecao(db, r[j].id)
      {
        if j < |r'| {
          assert r[j] == r'[j] && r'[j].id in o';
        } else {
          assert r[j] == Projecao(db, k);
        }
      }
    }
  }

  /** One more row extends the listing: the rows before keep their entries. */
  lemma ListagemEstende(db: Db, f: Filtro, ordem: seq<Id>)
    requires ordem != [] && forall j :: 0 <= j < |ordem| ==> ordem[j] in db.pedidos
    ensures var k := ordem[|ordem| - 1];
      Listagem(db, f, ordem) == Listagem(db, f, ordem[..|ordem| - 1]) + (if Passa(db, f, k) then [Projecao(db, k)] else [])
  {
  }

  /** With no filter every enumerated order is listed, in the enumeration's order. */
  lemma {:induction false} ListagemSemFiltro(db: Db, ordem: seq<Id>)
    requires forall j :: 0 <= j < |ordem| ==> ordem[j] in db.pedidos
    ensures var l := Listagem(db, Filtro(None, None, None), ordem);
      |l| == |ordem| && forall j :: 0 <= j < |l| ==> l[j] == Projecao(db, ordem[j])
    decreases |ordem|
  {
    if ordem != [] {
      var f := Filtro(None, None, None);
      var o' := ordem[..|ordem| - 1];
      var k := ordem[|ordem| - 1];
      ListagemSemFiltro(db, o');
      ListagemEstende(db, f, ordem);
      assert Passa(db, f, k);
      var l' := Listagem(db, f, o');
      assert Listagem(db, f, ordem) == l' + [Projecao(db, k)];
      assert forall j :: 0 <= j < |o'| ==> ordem[j] == o'[j];
    }
  }

  /** The listing names every passing order. */
  lemma {:induction false} ListagemCompleta(db: Db, f: Filtro, ordem: seq<Id>, x: Id)
    requires forall j :: 0 <= j < |ordem| ==> ordem[j] in db.pedidos
    requires x in ordem && Passa(db, f, x)
    ensures var r := Listagem(db, f, ordem);
      exists j :: 0 <= j < |r| && r[j].id == x
    decreases |ordem|
  {
    var n := |ordem|;
    var o' := ordem[..n - 1];
    var r' := Listagem(db, f, o');
    var r := Listagem(db, f, ordem);
    ListagemEstende(db, f, ordem);
    if x == ordem[n - 1] {
      assert r[|r'|].id == x;
    } else {
      assert x in o';
      ListagemCompleta(db, f, o', x);
      var j :| 0 <= j < |r'| && r'[j].id == x;
      assert r[j] == r'[j];
    }
  }

  /** No order appears twice in a listing. */
  predicate IdsDistintos(r: seq<PedidoAdmin>) {
    forall j, l :: 0 <= j < l < |r| ==> r[j].id != r[l].id
  }

  /** The listing names no order twice. */
  lemma {:induction false} ListagemDistinta(db: Db, f: Filtro, ordem: seq<Id>)
    requires Distintos(ordem) && forall j :: 0 <= j < |ordem| ==> ordem[j] in db.pedidos
    ensures IdsDistintos(Listagem(db, f, ordem))
    decreases |ordem|
  {
    if ordem != [] {
      var n := |ordem|;
      var o' := ordem[..n - 1];
      var k := ordem[n - 1];
      assert Distintos(o');
      ListagemDistinta(db, f, o');
      ListagemCorreta(db, f, o');
      ListagemEstende(db, f, ordem);
      var r' := Listagem(db, f, o');
      assert k !in o';
      var r := Listagem(db, f, ordem);
      if Passa(db, f, k) {
        assert r == r' + [Projecao(db, k)];
        forall j, l | 0 <= j < l < |r| ensures r[j].id != r[l].id {
          if l == |r'| {
            assert r[l].id == k && r[j] == r'[j] && r'[j].id in o';
          } else {
            assert r[j] == r'[j] && r[l] == r'[l];
          }
        }
      } else {
        assert r == r';
      }
    }
  }

  /** `listar_pedidos`: an unknown category id is rejected; otherwise the entries of the orders
      that pass the filters, in the query's order. */
  method ListarPedidos(db: Db, dataInicial: Option<int>, dataFinal: Option<int>, categoriaId: Option<int>,
                       ordem: seq<Id>) returns (r: Result<seq<PedidoAdmin>, AdminErro>)
    requires Enumera(db.pedidos, ordem)
    ensures r.Err? <==> categoriaId.Some? && Categoria(categoriaId.value).None?
    ensures r.Err? ==> r.error == CategoriaInvalida
    ensures r.Ok? ==>
      var f := Filtro(dataInicial, dataFinal, if categoriaId.Some? then Categoria(categoriaId.value) else None);
      && r.value == Listagem(db, f, ordem)
      && (forall k :: k in db.pedidos && Passa(db, f, k) <==> exists j :: 0 <= j < |r.value| && r.value[j].id == k)
      && IdsDistintos(r.value)
  {
    var categoria: Option<string> := None;
    if categoriaId.Some? {
      categoria := Categoria(categoriaId.value);
      if categoria.None? {
        return Err(CategoriaInvalida);
      }
    }
    var f := Filtro(dataInicial, dataFinal, categoria);
    var resultado: seq<PedidoAdmin> := [];
    for i := 0 to |ordem|
      invariant resultado == Listagem(db, f, ordem[..i])
    {
      assert ordem[..i + 1][..i] == ordem[..i];
      if Passa(db, f, ordem[i]) {
        resultado := resultado + [Projecao(db, ordem[i])];
      }
    }
    assert ordem[..|ordem|] == ordem;
    forall k | k in db.pedidos && Passa(db, f, k)
      ensures exists j :: 0 <= j < |resultado| && resultado[j].id == k
    {
      ListagemCompleta(db, f, ordem, k);
    }
    ListagemCorreta(db, f, ordem);
    ListagemDistinta(db, f, ordem);
    r := Ok(resultado);
  }

  /** `StatusPedidoEnum[s.upper()]` for a truthy `s`; None for no `s`. An unknown name is an error. */
  function StatusPedidoDado(s: Option<string>): (r: Result<Option<StatusPedido>, AdminErro>)
    ensures !Truthy(s) ==> r == Ok(None)
    ensures Truthy(s) ==> (r.Ok? <==> PedidoPorNome(Upper(s.value)).Some?)
    ensures r.Ok? && r.value.Some? ==> Truthy(s) && PedidoNome(r.value.value) == Upper(s.value)
    ensures r.Err? ==> r.error == StatusInvalido
  {
    if !Truthy(s) then Ok(None)
    else match PedidoPorNome(Upper(s.value))
      case None => Err(StatusInvalido)
      case Some(st) => Ok(Some(st))
  }

  /** The order after `atualizar_pedido`: the status when one is given, the shipping value when
      it is not None, the carrier when truthy; nothing else, and the total is not recomputed. */
  function PedidoAtualizado(p: Pedido, status: Option<StatusPedido>, freteValor: Option<Fixed2>,
                            freteTipo: Option<string>): (r: Pedido)
    ensures r.status == (if status.Some? then status.value else p.status)
    ensures r.freteValor == (if freteValor.Some? then freteValor else p.freteValor)
    ensures r.freteTipo == (if Truthy(freteTipo) then freteTipo else p.freteTipo)
    ensures r.(status := p.status, freteValor := p.freteValor, freteTipo := p.freteTipo) == p
    ensures r.valorTotal == p.valorTotal
  {
    var q := if status.Some? then p.(status := status.value) else p;
    var q := if freteValor.Some? then q.(freteValor := freteValor) else q;
    if Truthy(freteTipo) then q.(freteTipo := freteTipo) else q
  }

  /** Updating an order with the values it already has changes nothing. */
  lemma PedidoAtualizadoIdempotente(p: Pedido, status: Option<StatusPedido>, freteValor: Option<Fixed2>,
                                    freteTipo: Option<string>)
    ensures var q := PedidoAtualizado(p, status, freteValor, freteTipo);
      PedidoAtualizado(q, status, freteValor, freteTipo) == q
  {
  }

  /** `atualizar_pedido`: an unknown order or status name raises before anything changes. */
  method AtualizarPedido(db: Db, pid: Id, status: Option<string>, freteValor: Option<Fixed2>, freteTipo: Option<string>)
    returns (r: Result<Pedido, AdminErro>)
    modifies db`pedidos
    ensures r.Err? <==> pid !in old(db.pedidos) || StatusPedidoDado(status).Err?
    ensures r.Err? ==> db.pedidos == old(db.pedidos)
                       && r.error == (if pid !in old(db.pedidos) then PedidoNaoEncontrado else StatusInvalido)
    ensures r.Ok? ==>
      && r.value == PedidoAtualizado(old(db.pedidos)[pid], StatusPedidoDado(status).value, freteValor, freteTipo)
      && db.pedidos == old(db.pedidos)[pid := r.value]
  {
    if pid !in db.pedidos {
      return Err(PedidoNaoEncontrado);
    }
    var st := StatusPedidoDado(status);
    if st.Err? {
      return Err(StatusInvalido);
    }
    var p := PedidoAtualizado(db.pedidos[pid], st.value, freteValor, freteTipo);
    db.pedidos := db.pedidos[pid := p];
    r := Ok(p);
  }

  /** The rows of `I` not belonging to order `pid`. */
  function SemItensDoPedido(I: map<Id, ItemPedido>, pid: Id): (r: map<Id, ItemPedido>)
    ensures forall k :: k in r <==> k in I && I[k].pedidoId != pid
    ensures forall k :: k in r ==> r[k] == I[k]
  {
    Restrict(I, (i: ItemPedido) => i.pedidoId != pid)
  }

  /** The transactions of `T` not belonging to order `pid`. */
  function SemTransacoesDoPedido(T: map<Id, Transacao>, pid: Id): (r: map<Id, Transacao>)
    ensures forall k :: k in r <==> k in T && T[k].pedidoId != pid
    ensures forall k :: k in r ==> r[k] == T[k]
  {
    Restrict(T, (t: Transacao) => t.pedidoId != pid)
  }

  /** Every item and transaction belongs to an existing order. */
  predicate Integro(pedidos: map<Id, Pedido>, I: map<Id, ItemPedido>, T: map<Id, Transacao>) {
    && (forall k :: k in I ==> I[k].pedidoId in pedidos)
    && (forall k :: k in T ==> T[k].pedidoId in pedidos)
  }

  /** Deleting an order with its items and transactions keeps every remaining row attached. */
  lemma RemocaoIntegra(pedidos: map<Id, Pedido>, I: map<Id, ItemPedido>, T: map<Id, Transacao>, pid: Id)
    requires Integro(pedidos, I, T)
    ensures Integro(pedidos - {pid}, SemItensDoPedido(I, pid), SemTransacoesDoPedido(T, pid))
  {
  }

  /** `deletar_pedido`: the order's items are deleted in bulk, then the order, whose transactions
      go with it (the `transacoes` relationship cascades deletes). */
  method DeletarPedido(db: Db, pid: Id) returns (r: Result<Pedido, AdminErro>)
    modifies db`pedidos, db`itens, db`transacoes
    ensures r.Err? <==> pid !in old(db.pedidos)
    ensures r.Err? ==> r.error == PedidoNaoEncontrado && db.pedidos == old(db.pedidos)
                       && db.itens == old(db.itens) && db.transacoes == old(db.transacoes)
    ensures r.Ok? ==>
      && r.value == old(db.pedidos)[pid]
      && db.pedidos == old(db.pedidos) - {pid}
      && db.itens == SemItensDoPedido(old(db.itens), pid)
      && db.transacoes == SemTransacoesDoPedido(old(db.transacoes), pid)
  {
    if pid !in db.pedidos {
      return Err(PedidoNaoEncontrado);
    }
    var p := db.pedidos[pid];
    db.itens := SemItensDoPedido(db.itens, pid);
    db.transacoes := SemTransacoesDoPedido(db.transacoes, pid);
    db.pedidos := db.pedidos - {pid};
    r := Ok(p);
  }

  /** The item after `atualizar_item`: quantity and unit price where the request has them, and
      nothing else. */
  function ItemAtualizado(i: ItemPedido, quantidade: Option<int>, preco: Option<Fixed2>): (r: ItemPedido)
    ensures r.quantidade == quantidade.GetOr(i.quantidade)
    ensures r.precoUnitario == preco.GetOr(i.precoUnitario)
    ensures r.(quantidade := i.quantidade, precoUnitario := i.precoUnitario) == i
  {
    i.(quantidade := quantidade.GetOr(i.quantidade), precoUnitario := preco.GetOr(i.precoUnitario))
  }

  /** `atualizar_item`: an unknown item raises; otherwise only that row changes. */
  method AtualizarItem(db: Db, itemId: Id, quantidade: Option<int>, preco: Option<Fixed2>)
    returns (r: Result<ItemPedido, AdminErro>)
    modifies db`itens
    ensures r.Err? <==> itemId !in old(db.itens)
    ensures r.Err? ==> r.error == ItemNaoEncontrado && db.itens == old(db.itens)
    ensures r.Ok? ==> r.value == ItemAtualizado(old(db.itens)[itemId], quantidade, preco)
                      && db.itens == old(db.itens)[itemId := r.value]
  {
    if itemId !in db.itens {
      return Err(ItemNaoEncontrado);
    }
    var i := ItemAtualizado(db.itens[itemId], quantidade, preco);
    db.itens := db.itens[itemId := i];
    r := Ok(i);
  }

  /** `deletar_item`: an unknown item raises; otherwise exactly that row is removed. */
  method DeletarItem(db: Db, itemId: Id) returns (r: Result<ItemPedido, AdminErro>)
    modifies db`itens
    ensures r.Err? <==> itemId !in old(db.itens)
    ensures r.Err? ==> r.error == ItemNaoEncontrado && db.itens == old(db.itens)
    ensures r.Ok? ==> r.value == old(db.itens)[itemId] && db.itens == old(db.itens) - {itemId}
  {
    if itemId !in db.itens {
      return Err(ItemNaoEncontrado);
    }
    r := Ok(db.itens[itemId]);
    db.itens := db.itens - {itemId};
  }

  /** `StatusPagamentoEnum[s.upper()]` for a truthy `s`; None for no `s`. An unknown name is an error. */
  function StatusPagamentoDado(s: Option<string>): (r: Result<Option<StatusPagamento>, AdminErro>)
    ensures !Truthy(s) ==> r == Ok(None)
    ensures Truthy(s) ==> (r.Ok? <==> PagamentoPorNome(Upper(s.value)).Some?)
    ensures r.Ok? && r.value.Some? ==> Truthy(s) && PagamentoNome(r.value.value) == Upper(s.value)
    ensures r.Err? ==> r.error == StatusInvalido
  {
    if !Truthy(s) then Ok(None)
    else match PagamentoPorNome(Upper(s.value))
      case None => Err(StatusInvalido)
      case Some(st) => Ok(Some(st))
  }

  /** `atualizar_transacao`: an unknown transaction or status name raises; otherwise only the
      status of that transaction may change. The order's status is not touched. */
  method AtualizarTransacao(db: Db, tid: Id, status: Option<string>) returns (r: Result<Transacao, AdminErro>)
    modifies db`transacoes
    ensures r.Err? <==> tid !in old(db.transacoes) || StatusPagamentoDado(status).Err?
    ensures r.Err? ==> db.transacoes == old(db.transacoes)
                       && r.error == (if tid !in old(db.transacoes) then TransacaoNaoEncontrada else StatusInvalido)
    ensures r.Ok? ==>
      var t := old(db.transacoes)[tid];
      var st := StatusPagamentoDado(status).value;
      && r.value == (if st.Some? then t.(status := st.value) else t)
      && db.transacoes == old(db.transacoes)[tid := r.value]
  {
    if tid !in db.transacoes {
      return Err(TransacaoNaoEncontrada);
    }
    var st := StatusPagamentoDado(status);
    if st.Err? {
      return Err(StatusInvalido);
    }
    var t := db.transacoes[tid];
    if st.value.Some? {
      t := t.(status := st.value.value);
    }
    db.transacoes := db.transacoes[tid := t];
    r := Ok(t);
  }
}
