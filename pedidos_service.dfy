/** Order creation with stock reservation (`PedidoService.criar_pedido`) and the order status
    update (`atualizar_status_pedido`). The request is validated, the delivery address resolved
    and the shipping checked before anything is written; then the order row is added, every item
    is checked against stock, snapshotted as an order line and taken out of stock, and the order
    total becomes the products' sum plus shipping. Any failure rolls the session back. */
module PedidosService {
  import opened Common
  import opened Status
  import opened Models
  import opened Store
  import opened Checkout

  /** The `frete` dictionary of a request. A falsy `frete` (absent, None or `{}`) is `None` in the
      request; a present dictionary may still lack any of these keys. */
  datatype FreteRequest = FreteRequest(
    valor: Option<Fixed2>,
    tipo: Option<string>,
    servicoId: Option<int>,
    servico: Option<string>)

  /** The request body: `usuario_id`, `endereco_id`, `itens` (absent means `[]`) and `frete`. */
  datatype PedidoRequest = PedidoRequest(
    usuarioId: Option<Id>,
    enderecoId: Option<Id>,
    itens: seq<ItemRequest>,
    frete: Option<FreteRequest>)

  /** The shipping data the order is created with. */
  datatype Frete = Frete(valor: Fixed2, tipo: Option<string>, servicoId: Option<int>, servico: Option<string>)

  /** The `ValueError`s `criar_pedido` raises, in the order it checks for them. */
  datatype PedidoErro =
    | UsuarioNaoInformado
    | SemItens
    | UsuarioNaoEncontrado
    | EnderecoNaoEncontrado
    | EnderecoDeOutroUsuario
    | SemEndereco
    | FreteInvalido
    | ServicoFreteNaoInformado
    | ItemInvalido(e: ReservaErro)
    | PedidoNaoEncontrado

  /** What `criar_pedido` returns (the amounts are floats in the source, exact here). */
  datatype ResumoPedido = ResumoPedido(
    pedidoId: Id,
    valorProdutos: Fixed2,
    valorFrete: Fixed2,
    valorTotal: Fixed2,
    freteTipo: Option<string>,
    freteServico: Option<string>)

  /** The shipping part of the request: no shipping costs 0; otherwise `valor` defaults to 0,
      must not be negative, and a service id is required. */
  function ValidarFrete(f: Option<FreteRequest>): (r: Result<Frete, PedidoErro>)
    ensures r.Ok? <==> f.None? || (f.value.valor.GetOr(0) >= 0 && TruthyNum(f.value.servicoId))
    ensures r.Err? ==> r.error == (if f.value.valor.GetOr(0) < 0 then FreteInvalido else ServicoFreteNaoInformado)
    ensures f.None? ==> r == Ok(Frete(0, None, None, None))
    ensures r.Ok? && f.Some? ==>
      r.value == Frete(f.value.valor.GetOr(0), f.value.tipo, f.value.servicoId, f.value.servico)
    ensures r.Ok? ==> r.value.valor >= 0
  {
    match f
    case None => Ok(Frete(0, None, None, None))
    case Some(fr) =>
      var valor := fr.valor.GetOr(0);
      if valor < 0 then Err(FreteInvalido)
      else if !TruthyNum(fr.servicoId) then Err(ServicoFreteNaoInformado)
      else Ok(Frete(valor, fr.tipo, fr.servicoId, fr.servico))
  }

  /** Address `e` may serve as the order's delivery address: it exists, belongs to the user and,
      when an address id was given, is that one. */
  predicate EnderecoAceito(enderecos: map<Id, Endereco>, uid: Id, eid: Option<Id>, e: Id) {
    e in enderecos && enderecos[e].usuarioId == uid && (Truthy(eid) ==> e == eid.value)
  }

  /** The error of the address step, if any: a given id must exist and be the user's; without one
      the user must have some address. */
  function ErroEndereco(enderecos: map<Id, Endereco>, uid: Id, eid: Option<Id>): Option<PedidoErro> {
    if Truthy(eid) then
      if eid.value !in enderecos then Some(EnderecoNaoEncontrado)
      else if enderecos[eid.value].usuarioId != uid then Some(EnderecoDeOutroUsuario)
      else None
    else if exists k :: k in enderecos && enderecos[k].usuarioId == uid then None
    else Some(SemEndereco)
  }

  /** The address step fails exactly when no address is acceptable. */
  lemma ErroEnderecoSse(enderecos: map<Id, Endereco>, uid: Id, eid: Option<Id>)
    ensures ErroEndereco(enderecos, uid, eid).None? <==> exists e :: EnderecoAceito(enderecos, uid, eid, e)
  {
    if Truthy(eid) {
      if ErroEndereco(enderecos, uid, eid).None? {
        assert EnderecoAceito(enderecos, uid, eid, eid.value);
      }
    } else if exists k :: k in enderecos && enderecos[k].usuarioId == uid {
      var k :| k in enderecos && enderecos[k].usuarioId == uid;
      assert EnderecoAceito(enderecos, uid, eid, k);
    }
  }

  /** Resolves the delivery address: the given one, or else the first address of the user (the
      query has no ordering, so any of the user's addresses). */
  method ResolverEndereco(db: Db, uid: Id, eid: Option<Id>) returns (r: Result<Id, PedidoErro>)
    ensures r.Err? <==> ErroEndereco(db.enderecos, uid, eid).Some?
    ensures r.Err? ==> r.error == ErroEndereco(db.enderecos, uid, eid).value
    ensures r.Ok? ==> EnderecoAceito(db.enderecos, uid, eid, r.value)
  {
    if Truthy(eid) {
      if eid.value !in db.enderecos {
        r := Err(EnderecoNaoEncontrado);
      } else if db.enderecos[eid.value].usuarioId != uid {
        r := Err(EnderecoDeOutroUsuario);
      } else {
        r := Ok(eid.value);
      }
    } else if exists k :: k in db.enderecos && db.enderecos[k].usuarioId == uid {
      var k :| k in db.enderecos && db.enderecos[k].usuarioId == uid;
      r := Ok(k);
    } else {
      r := Err(SemEndereco);
    }
  }

  /** Everything `criar_pedido` decides, in its order of checks: on success the shipping data and
      the reservation of the items; otherwise the first error. */
  function Verificar(usuarios: map<Id, Usuario>, enderecos: map<Id, Endereco>, produtos: map<Id, Produto>,
                     req: PedidoRequest): (r: Result<(Frete, Reserva), PedidoErro>)
    ensures !Truthy(req.usuarioId) ==> r == Err(UsuarioNaoInformado)
    ensures Truthy(req.usuarioId) && req.itens == [] ==> r == Err(SemItens)
    ensures r.Ok? ==> Reservar(produtos, req.itens) == Ok(r.value.1)
  {
    if !Truthy(req.usuarioId) then Err(UsuarioNaoInformado)
    else if req.itens == [] then Err(SemItens)
    else if req.usuarioId.value !in usuarios then Err(UsuarioNaoEncontrado)
    else if ErroEndereco(enderecos, req.usuarioId.value, req.enderecoId).Some? then
      Err(ErroEndereco(enderecos, req.usuarioId.value, req.enderecoId).value)
    else match ValidarFrete(req.frete)
      case Err(e) => Err(e)
      case Ok(f) =>
        match Reservar(produtos, req.itens)
        case Err(e) => Err(ItemInvalido(e))
        case Ok(res) => Ok((f, res))
  }

  /** An order is accepted exactly when the user is given and exists, there are items, some
      address is acceptable, the shipping is valid and every item fits the stock left by the
      items before it. */
  lemma VerificarOkSse(usuarios: map<Id, Usuario>, enderecos: map<Id, Endereco>, produtos: map<Id, Produto>,
                       req: PedidoRequest)
    ensures Verificar(usuarios, enderecos, produtos, req).Ok? <==>
      && Truthy(req.usuarioId) && req.itens != [] && req.usuarioId.value in usuarios
      && (exists e :: EnderecoAceito(enderecos, req.usuarioId.value, req.enderecoId, e))
      && ValidarFrete(req.frete).Ok?
      && (forall k :: 0 <= k < |req.itens| ==> Cabe(produtos, req.itens, k))
  {
    ReservarOkSse(produtos, req.itens);
    if Truthy(req.usuarioId) {
      ErroEnderecoSse(enderecos, req.usuarioId.value, req.enderecoId);
    }
  }

  /** On success the order total is the sum of price × quantity over its lines plus shipping, the
      lines copy the requested products in order, and each product's stock falls by exactly the
      quantity ordered of it. */
  lemma VerificarOk(usuarios: map<Id, Usuario>, enderecos: map<Id, Endereco>, produtos: map<Id, Produto>,
                    req: PedidoRequest)
    requires Verificar(usuarios, enderecos, produtos, req).Ok?
    ensures var (f, res) := Verificar(usuarios, enderecos, produtos, req).value;
      && res.totalProdutos == Total(res.linhas)
      && Resumo("", f, res).valorTotal == Total(res.linhas) + f.valor
      && |res.linhas| == |req.itens|
      && (forall j :: 0 <= j < |req.itens| ==>
            Truthy(req.itens[j].produtoId) && req.itens[j].produtoId.value in produtos &&
            res.linhas[j] == LinhaDe(req.itens[j].produtoId.value, produtos[req.itens[j].produtoId.value],
                                     Quantidade(req.itens[j])))
      && res.produtos.Keys == produtos.Keys
      && (forall id :: id in produtos ==> res.produtos[id].estoque == produtos[id].estoque - Pedida(req.itens, id))
  {
    ReservarLinhas(produtos, req.itens);
    ReservarProdutos(produtos, req.itens);
  }

  /** The new order row: pending, created now, with its total and shipping; no carrier data yet. */
  function NovoPedido(uid: Id, enderecoId: Id, f: Frete, total: Fixed2, agora: int): Pedido {
    Pedido(Some(uid), Some(enderecoId), total, StatusPedido.Pendente, f.tipo, Some(f.valor), f.servicoId,
           f.servico, agora, None, None, None, None)
  }

  /** The item row stored for an order line. */
  function ItemDe(pedidoId: Id, l: Linha): ItemPedido {
    ItemPedido(pedidoId, l.produtoId, l.quantidade, l.precoUnitario, Some(l.peso), Some(l.comprimento),
               Some(l.altura), Some(l.largura))
  }

  /** The item rows of an order, one per line. */
  function ItensDe(pedidoId: Id, L: seq<Linha>): (r: seq<ItemPedido>)
    ensures |r| == |L|
    decreases |L|
  {
    if L == [] then [] else ItensDe(pedidoId, L[..|L| - 1]) + [ItemDe(pedidoId, L[|L| - 1])]
  }

  /** Row `j` of an order is the row of its line `j`. */
  lemma {:induction false} ItensDeLinha(pedidoId: Id, L: seq<Linha>, j: int)
    requires 0 <= j < |L|
    ensures ItensDe(pedidoId, L)[j] == ItemDe(pedidoId, L[j])
    decreases |L|
  {
    if j < |L| - 1 {
      ItensDeLinha(pedidoId, L[..|L| - 1], j);
    }
  }

  /** The rows of an order carry its lines' quantities and prices, so they sum to the same total. */
  lemma {:induction false} TotalItensDe(pedidoId: Id, L: seq<Linha>)
    ensures TotalItens(ItensDe(pedidoId, L)) == Total(L)
    decreases |L|
  {
    if L != [] {
      var n := |L|;
      var I := ItensDe(pedidoId, L);
      assert I[..n - 1] == ItensDe(pedidoId, L[..n - 1]);
      TotalItensDe(pedidoId, L[..n - 1]);
    }
  }

  /** What the service returns: the products' value, the shipping and their sum. */
  function Resumo(pedidoId: Id, f: Frete, res: Reserva): (r: ResumoPedido)
    ensures r.valorProdutos + r.valorFrete == r.valorTotal
    ensures r.valorFrete == f.valor && r.valorProdutos == res.totalProdutos
  {
    ResumoPedido(pedidoId, res.totalProdutos, f.valor, res.totalProdutos + f.valor, f.tipo, f.servico)
  }

  /** The outcome `criar_pedido` promises, from the tables before (`produtos0`, `pedidos0`,
      `itens0`) to the tables after: on failure the error `Verificar` names and every table as it
      was; on success the products carry the reserved stock, the order row is added, item row `j`
      is stored under `itemIds[j]` (a new row each for distinct fresh ids, see `IndexarEm`), and the
      order's total is the products' value plus shipping. */
  predicate PedidoCriado(usuarios: map<Id, Usuario>, enderecos: map<Id, Endereco>,
                         produtos0: map<Id, Produto>, pedidos0: map<Id, Pedido>, itens0: map<Id, ItemPedido>,
                         req: PedidoRequest, pedidoId: Id, itemIds: seq<Id>, agora: int,
                         r: Result<ResumoPedido, PedidoErro>,
                         produtos: map<Id, Produto>, pedidos: map<Id, Pedido>, itens: map<Id, ItemPedido>)
  {
    var v := Verificar(usuarios, enderecos, produtos0, req);
    && (r.Err? <==> v.Err?)
    && (r.Err? ==> r.error == v.error && produtos == produtos0 && pedidos == pedidos0 && itens == itens0)
    && (r.Ok? ==>
          && v.Ok?
          && var (f, res) := v.value;
          && r.value == Resumo(pedidoId, f, res)
          && produtos == res.produtos
          && |res.linhas| == |itemIds|
          && itens == itens0 + Indexar(itemIds, ItensDe(pedidoId, res.linhas))
          && pedidoId in pedidos
          && pedidos == pedidos0[pedidoId := pedidos[pedidoId]]
          && pedidos[pedidoId].enderecoId.Some?
          && EnderecoAceito(enderecos, req.usuarioId.value, req.enderecoId, pedidos[pedidoId].enderecoId.value)
          && pedidos[pedidoId] == NovoPedido(req.usuarioId.value, pedidos[pedidoId].enderecoId.value, f,
                                             res.totalProdutos + f.valor, agora))
  }

  /** `criar_pedido`. `pedidoId` and `itemIds` are the fresh uuids the rows receive and `agora` the
      creation time. The tables change as `PedidoCriado` says; users and addresses are only read.
      The confirmation email is left out. */
  method CriarPedido(db: Db, req: PedidoRequest, pedidoId: Id, itemIds: seq<Id>, agora: int)
    returns (r: Result<ResumoPedido, PedidoErro>)
    requires pedidoId !in db.pedidos
    requires |itemIds| == |req.itens|
    modifies db`produtos, db`pedidos, db`itens
    ensures PedidoCriado(old(db.usuarios), old(db.enderecos), old(db.produtos), old(db.pedidos), old(db.itens),
                         req, pedidoId, itemIds, agora, r, db.produtos, db.pedidos, db.itens)
  {
    ghost var usuarios0, enderecos0 := db.usuarios, db.enderecos;
    var produtos, pedidos, itens := db.produtos, db.pedidos, db.itens;
    var validacao := ValidarPedido(db, req);
    if validacao.Err? {
      PedidoCriadoErro(usuarios0, enderecos0, produtos, pedidos, itens, req, pedidoId, itemIds, agora, validacao.error);
      r := Err(validacao.error);
    } else {
      var (uid, eid, f) := validacao.value;
      var produtos1, pedidos1, itens1;
      r, produtos1, pedidos1, itens1 := GravarNaSessao(produtos, pedidos, itens, req.itens, pedidoId, itemIds, agora, uid, eid, f);
      if r.Err? {
        PedidoCriadoErro(usuarios0, enderecos0, produtos, pedidos, itens, req, pedidoId, itemIds, agora, r.error);
      } else {
        PedidoCriadoOk(usuarios0, enderecos0, produtos, pedidos, itens, req, pedidoId, itemIds, agora, uid, eid, f,
                       Reservar(produtos, req.itens).value);
      }
      produtos, pedidos, itens := produtos1, pedidos1, itens1;
    }
    db.produtos, db.pedidos, db.itens := produtos, pedidos, itens;
  }

  /** The writes of `criar_pedido` on the session's pending state: the order row is added first,
      then the item loop runs; a failing item rolls the whole session back, so the tables come
      back as they were. Otherwise the order's total becomes the products' value plus shipping. */
  method GravarNaSessao(produtos0: map<Id, Produto>, pedidos0: map<Id, Pedido>, itens0: map<Id, ItemPedido>,
                        S: seq<ItemRequest>, pedidoId: Id, itemIds: seq<Id>, agora: int, uid: Id, eid: Id, f: Frete)
    returns (r: Result<ResumoPedido, PedidoErro>, produtos: map<Id, Produto>, pedidos: map<Id, Pedido>,
             itens: map<Id, ItemPedido>)
    requires |itemIds| == |S|
    ensures Reservar(produtos0, S).Err? ==>
      r == Err(ItemInvalido(Reservar(produtos0, S).error)) && produtos == produtos0 && pedidos == pedidos0 && itens == itens0
    ensures Reservar(produtos0, S).Ok? ==>
      var res := Reservar(produtos0, S).value;
      && r == Ok(Resumo(pedidoId, f, res)) && produtos == res.produtos && |res.linhas| == |itemIds|
      && pedidos == pedidos0[pedidoId := NovoPedido(uid, eid, f, res.totalProdutos + f.valor, agora)]
      && itens == itens0 + Indexar(itemIds, ItensDe(pedidoId, res.linhas))
  {
    produtos, pedidos, itens := produtos0, pedidos0, itens0;
    var pendentes := pedidos0[pedidoId := NovoPedido(uid, eid, f, 0, agora)];
    var reserva, tabela := ReservarNaSessao(produtos0, itens0, S, pedidoId, itemIds);
    if reserva.Err? {
      return Err(ItemInvalido(reserva.error)), produtos, pedidos, itens;
    }
    var res := reserva.value;
    pendentes := pendentes[pedidoId := NovoPedido(uid, eid, f, res.totalProdutos + f.valor, agora)];
    assert pendentes == pedidos0[pedidoId := NovoPedido(uid, eid, f, res.totalProdutos + f.valor, agora)];
    produtos, pedidos, itens := res.produtos, pendentes, tabela;
    r := Ok(Resumo(pedidoId, f, res));
  }

  /** A failed check leaves the tables as they were. */
  lemma PedidoCriadoErro(usuarios: map<Id, Usuario>, enderecos: map<Id, Endereco>,
                         produtos0: map<Id, Produto>, pedidos0: map<Id, Pedido>, itens0: map<Id, ItemPedido>,
                         req: PedidoRequest, pedidoId: Id, itemIds: seq<Id>, agora: int, e: PedidoErro)
    requires Verificar(usuarios, enderecos, produtos0, req) == Err(e)
    ensures PedidoCriado(usuarios, enderecos, produtos0, pedidos0, itens0, req, pedidoId, itemIds, agora,
                         Err(e), produtos0, pedidos0, itens0)
  {
  }

  /** Passed checks and a reservation store the reserved products, the order row and the item rows. */
  lemma PedidoCriadoOk(usuarios: map<Id, Usuario>, enderecos: map<Id, Endereco>,
                       produtos0: map<Id, Produto>, pedidos0: map<Id, Pedido>, itens0: map<Id, ItemPedido>,
                       req: PedidoRequest, pedidoId: Id, itemIds: seq<Id>, agora: int,
                       uid: Id, eid: Id, f: Frete, res: Reserva)
    requires Truthy(req.usuarioId) && uid == req.usuarioId.value
    requires EnderecoAceito(enderecos, uid, req.enderecoId, eid)
    requires Verificar(usuarios, enderecos, produtos0, req) == Ok((f, res))
    requires |res.linhas| == |itemIds|
    ensures PedidoCriado(usuarios, enderecos, produtos0, pedidos0, itens0, req, pedidoId, itemIds, agora,
                         Ok(Resumo(pedidoId, f, res)), res.produtos,
                         pedidos0[pedidoId := NovoPedido(uid, eid, f, res.totalProdutos + f.valor, agora)],
                         itens0 + Indexar(itemIds, ItensDe(pedidoId, res.linhas)))
  {
  }

  /** The checks of `criar_pedido` before anything is written: the user is given, there are items,
      the user exists, the address resolves and the shipping is valid. On success the user, the
      delivery address and the shipping data; what is left to decide is the item loop. */
  method ValidarPedido(db: Db, req: PedidoRequest) returns (r: Result<(Id, Id, Frete), PedidoErro>)
    ensures var v := Verificar(db.usuarios, db.enderecos, db.produtos, req);
      && (r.Err? ==> v == Err(r.error))
      && (r.Ok? ==>
            var (uid, eid, f) := r.value;
            && Truthy(req.usuarioId) && uid == req.usuarioId.value && req.itens != []
            && EnderecoAceito(db.enderecos, uid, req.enderecoId, eid)
            && ValidarFrete(req.frete) == Ok(f)
            && (Reservar(db.produtos, req.itens).Err? ==> v == Err(ItemInvalido(Reservar(db.produtos, req.itens).error)))
            && (Reservar(db.produtos, req.itens).Ok? ==> v == Ok((f, Reservar(db.produtos, req.itens).value))))
  {
    if !Truthy(req.usuarioId) {
      return Err(UsuarioNaoInformado);
    }
    if req.itens == [] {
      return Err(SemItens);
    }
    var uid := req.usuarioId.value;
    if uid !in db.usuarios {
      return Err(UsuarioNaoEncontrado);
    }
    var endereco := ResolverEndereco(db, uid, req.enderecoId);
    if endereco.Err? {
      return Err(endereco.error);
    }
    var frete := ValidarFrete(req.frete);
    if frete.Err? {
      return Err(frete.error);
    }
    r := Ok((uid, endereco.value, frete.value));
  }

  /** The item loop of `criar_pedido` over the session's pending state: each item names a product,
      which must exist and have the stock; its row is added to `tabela` under the next item id and
      the product's stock is decremented in `produtos`. The first failing item ends the loop. */
  method ReservarNaSessao(produtos0: map<Id, Produto>, itens0: map<Id, ItemPedido>, itens: seq<ItemRequest>,
                          pedidoId: Id, itemIds: seq<Id>)
    returns (r: Result<Reserva, ReservaErro>, tabela: map<Id, ItemPedido>)
    requires |itemIds| == |itens|
    ensures r == Reservar(produtos0, itens)
    ensures r.Ok? ==> |r.value.linhas| == |itens| && tabela == itens0 + Indexar(itemIds, ItensDe(pedidoId, r.value.linhas))
  {
    var res := Reserva(produtos0, [], 0);
    tabela := itens0;
    var i := 0;
    while i < |itens|
      invariant 0 <= i <= |itens|
      invariant Reservar(produtos0, itens[..i]) == Ok(res)
      invariant |res.linhas| == i
      invariant tabela == itens0 + Indexar(itemIds[..i], ItensDe(pedidoId, res.linhas))
    {
      // One item: the product must be named and exist, and its stock must cover the quantity.
      var passo := Passo(res, itens[i]);
      ReservarPasso(produtos0, itens, i);
      if passo.Err? {
        ReservarErroPropaga(produtos0, itens, i + 1);
        return passo, tabela;
      }
      PassoForma(res, itens[i]);
      var l := passo.value.linhas[i];
      TabelaMais(itens0, itemIds, pedidoId, res.linhas, l, i);
      tabela := tabela[itemIds[i] := ItemDe(pedidoId, l)];
      res := passo.value;
      i := i + 1;
    }
    assert itens[..i] == itens;
    assert itemIds[..i] == itemIds;
    r := Ok(res);
  }

  /** Storing the row of one more line under the next id extends the item table by that line. */
  lemma TabelaMais(T: map<Id, ItemPedido>, ids: seq<Id>, pedidoId: Id, L: seq<Linha>, l: Linha, i: int)
    requires 0 <= i < |ids| && |L| == i
    ensures (T + Indexar(ids[..i], ItensDe(pedidoId, L)))[ids[i] := ItemDe(pedidoId, l)]
            == T + Indexar(ids[..i + 1], ItensDe(pedidoId, L + [l]))
  {
    IndexarMais(T, ids, ItensDe(pedidoId, L), ItemDe(pedidoId, l), i);
    assert (L + [l])[..i] == L;
  }

  /** `atualizar_status_pedido`: an unknown order is an error; otherwise exactly the order's status
      becomes `novo`. The status email is left out. */
  method AtualizarStatusPedido(db: Db, pedidoId: Id, novo: StatusPedido) returns (r: Result<Pedido, PedidoErro>)
    modifies db`pedidos
    ensures pedidoId !in old(db.pedidos) <==> r.Err?
    ensures r.Err? ==> r.error == PedidoNaoEncontrado && db.pedidos == old(db.pedidos)
    ensures r.Ok? ==> db.pedidos == old(db.pedidos)[pedidoId := old(db.pedidos)[pedidoId].(status := novo)]
                      && r.value == db.pedidos[pedidoId]
  {
    if pedidoId !in db.pedidos {
      return Err(PedidoNaoEncontrado);
    }
    var p := db.pedidos[pedidoId].(status := novo);
    db.pedidos := db.pedidos[pedidoId := p];
    r := Ok(p);
  }
}
