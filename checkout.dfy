/** The item loop of order creation, as a fold from the first requested item to the last:
    each item is checked against the stock the earlier items left, becomes an order line that
    copies the product's price and physical attributes, and is taken out of stock. */
module Checkout {
  import opened Common
  import opened Models

  /** One requested item, `{"produto_id": ..., "quantidade": ...}`; an absent key is None. */
  datatype ItemRequest = ItemRequest(produtoId: Option<Id>, quantidade: Option<int>)

  /** `item.get("quantidade", 1)` */
  function Quantidade(it: ItemRequest): int {
    it.quantidade.GetOr(1)
  }

  /** An order line: product, quantity, and the snapshot of unit price and attributes
      (Numeric(10,2) hundredths). */
  datatype Linha = Linha(
    produtoId: Id,
    quantidade: int,
    precoUnitario: Fixed2,
    peso: Fixed2,
    comprimento: Fixed2,
    altura: Fixed2,
    largura: Fixed2)

  /** The line for `q` units of product `p`; a missing attribute is stored as 0. */
  function LinhaDe(id: Id, p: Produto, q: int): Linha {
    Linha(id, q, p.preco, OrZero(p.peso), CmToFixed2(OrZero(p.comprimento)),
          CmToFixed2(OrZero(p.altura)), CmToFixed2(OrZero(p.largura)))
  }

  /** The state after some items: the product table with their stock taken out, the lines made
      so far and the running product total. */
  datatype Reserva = Reserva(produtos: map<Id, Produto>, linhas: seq<Linha>, totalProdutos: Fixed2)

  datatype ReservaErro =
    | ProdutoNaoInformado
    | ProdutoNaoEncontrado(id: Id)
    | EstoqueInsuficiente(nome: string, disponivel: int, solicitado: int)

  /** One pass of the loop body. */
  function Passo(r: Reserva, it: ItemRequest): Result<Reserva, ReservaErro> {
    if !Truthy(it.produtoId) then Err(ProdutoNaoInformado)
    else if it.produtoId.value !in r.produtos then Err(ProdutoNaoEncontrado(it.produtoId.value))
    else
      var id := it.produtoId.value;
      var p := r.produtos[id];
      var q := Quantidade(it);
      if p.estoque < q then Err(EstoqueInsuficiente(p.nome, p.estoque, q))
      else Ok(Reserva(r.produtos[id := p.(estoque := p.estoque - q)],
                      r.linhas + [LinhaDe(id, p, q)],
                      r.totalProdutos + p.preco * q))
  }

  /** The whole loop over `S`, starting from product table `P`; the first failing item stops it. */
  function Reservar(P: map<Id, Produto>, S: seq<ItemRequest>): Result<Reserva, ReservaErro>
    decreases |S|
  {
    if S == [] then Ok(Reserva(P, [], 0))
    else
      match Reservar(P, S[..|S| - 1])
      case Err(e) => Err(e)
      case Ok(r) => Passo(r, S[|S| - 1])
  }

  /** The total quantity the items request of product `id`. */
  function Pedida(S: seq<ItemRequest>, id: Id): int
    decreases |S|
  {
    if S == [] then 0
    else Pedida(S[..|S| - 1], id) + (if S[|S| - 1].produtoId == Some(id) then Quantidade(S[|S| - 1]) else 0)
  }

  /** `Σ preco_unitario × quantidade` over the lines. */
  function Total(L: seq<Linha>): int
    decreases |L|
  {
    if L == [] then 0 else Total(L[..|L| - 1]) + L[|L| - 1].precoUnitario * L[|L| - 1].quantidade
  }

  /** Item `k` names an existing product whose stock, after what the earlier items took, covers it. */
  predicate Cabe(P: map<Id, Produto>, S: seq<ItemRequest>, k: int)
    requires 0 <= k < |S|
  {
    Truthy(S[k].produtoId) && S[k].produtoId.value in P
    && Quantidade(S[k]) <= P[S[k].produtoId.value].estoque - Pedida(S[..k], S[k].produtoId.value)
  }

  /** The error the loop raises on item `k` when it does not fit. */
  function ErroDe(P: map<Id, Produto>, S: seq<ItemRequest>, k: int): ReservaErro
    requires 0 <= k < |S|
  {
    if !Truthy(S[k].produtoId) then ProdutoNaoInformado
    else if S[k].produtoId.value !in P then ProdutoNaoEncontrado(S[k].produtoId.value)
    else
      var id := S[k].produtoId.value;
      EstoqueInsuficiente(P[id].nome, P[id].estoque - Pedida(S[..k], id), Quantidade(S[k]))
  }

  /** What one successful loop pass changes: the stock of the named product, one more line and
      the running total. */
  lemma PassoForma(r: Reserva, it: ItemRequest)
    requires Passo(r, it).Ok?
    ensures var r2 := Passo(r, it).value; var id := it.produtoId.value;
      && Truthy(it.produtoId) && id in r.produtos
      && r2.produtos == r.produtos[id := r.produtos[id].(estoque := r.produtos[id].estoque - Quantidade(it))]
      && r2.linhas == r.linhas + [LinhaDe(id, r.produtos[id], Quantidade(it))]
      && r2.totalProdutos == r.totalProdutos + r.produtos[id].preco * Quantidade(it)
  {
  }

  /** After a successful loop the products are the same, with only their stock changed, each by
      exactly the quantity ordered of it. */
  lemma {:induction false} ReservarProdutos(P: map<Id, Produto>, S: seq<ItemRequest>)
    requires Reservar(P, S).Ok?
    ensures var r := Reservar(P, S).value;
      && r.produtos.Keys == P.Keys
      && (forall id :: id in P ==> r.produtos[id] == P[id].(estoque := P[id].estoque - Pedida(S, id)))
    decreases |S|
  {
    if S != [] {
      var S' := S[..|S| - 1];
      ReservarProdutos(P, S');
      PassoForma(Reservar(P, S').value, S[|S| - 1]);
    }
  }

  /** A line made after some items copies the same product fields as one made from the start:
      the earlier items changed only stock. */
  lemma LinhaNaReserva(P: map<Id, Produto>, S: seq<ItemRequest>, id: Id, q: int)
    requires Reservar(P, S).Ok? && id in Reservar(P, S).value.produtos
    ensures id in P && LinhaDe(id, Reservar(P, S).value.produtos[id], q) == LinhaDe(id, P[id], q)
  {
    ReservarProdutos(P, S);
  }

  /** After a successful loop the running product total is the sum of the lines. */
  lemma {:induction false} ReservarTotal(P: map<Id, Produto>, S: seq<ItemRequest>)
    requires Reservar(P, S).Ok?
    ensures Reservar(P, S).value.totalProdutos == Total(Reservar(P, S).value.linhas)
    decreases |S|
  {
    if S != [] {
      var S' := S[..|S| - 1];
      ReservarTotal(P, S');
      var r' := Reservar(P, S').value;
      var it := S[|S| - 1];
      PassoForma(r', it);
      var L := Reservar(P, S).value.linhas;
      assert L[..|L| - 1] == r'.linhas;
    }
  }

  /** After a successful loop there is one line per item, in order, copying the price and
      attributes of the product it names. */
  lemma {:induction false} ReservarLinhasForma(P: map<Id, Produto>, S: seq<ItemRequest>)
    requires Reservar(P, S).Ok?
    ensures var L := Reservar(P, S).value.linhas;
      && |L| == |S|
      && forall j :: 0 <= j < |S| ==>
           Truthy(S[j].produtoId) && S[j].produtoId.value in P
           && L[j] == LinhaDe(S[j].produtoId.value, P[S[j].produtoId.value], Quantidade(S[j]))
    decreases |S|
  {
    if S != [] {
      var n := |S|;
      var S' := S[..n - 1];
      ReservarLinhasForma(P, S');
      var r' := Reservar(P, S').value;
      var it := S[n - 1];
      PassoForma(r', it);
      var id := it.produtoId.value;
      LinhaNaReserva(P, S', id, Quantidade(it));
      var L := Reservar(P, S).value.linhas;
      assert L == r'.linhas + [LinhaDe(id, P[id], Quantidade(it))];
      forall j | 0 <= j < n
        ensures Truthy(S[j].produtoId) && S[j].produtoId.value in P
                && L[j] == LinhaDe(S[j].produtoId.value, P[S[j].produtoId.value], Quantidade(S[j]))
      {
        if j < n - 1 {
          assert S[j] == S'[j] && L[j] == r'.linhas[j];
        }
      }
    }
  }

  /** After a successful loop there is one line per item, in order, copying the price and
      attributes of the product it names, and the product total is the sum of the lines. */
  lemma ReservarLinhas(P: map<Id, Produto>, S: seq<ItemRequest>)
    requires Reservar(P, S).Ok?
    ensures var r := Reservar(P, S).value;
      && |r.linhas| == |S|
      && (forall j :: 0 <= j < |S| ==>
            Truthy(S[j].produtoId) && S[j].produtoId.value in P
            && r.linhas[j] == LinhaDe(S[j].produtoId.value, P[S[j].produtoId.value], Quantidade(S[j])))
      && r.totalProdutos == Total(r.linhas)
  {
    ReservarTotal(P, S);
    ReservarLinhasForma(P, S);
  }

  /** Stock conservation: after a successful loop each product's stock is its old stock minus
      the total quantity the items ordered of it; products no item names keep their stock. */
  lemma EstoqueConservado(P: map<Id, Produto>, S: seq<ItemRequest>, id: Id)
    requires Reservar(P, S).Ok? && id in P
    ensures id in Reservar(P, S).value.produtos
    ensures Reservar(P, S).value.produtos[id].estoque == P[id].estoque - Pedida(S, id)
  {
    ReservarProdutos(P, S);
  }

  /** Whether an item before the last fits, and the error it raises, depend only on the items
      before it. */
  lemma PrefixoCabe(P: map<Id, Produto>, S: seq<ItemRequest>, k: int)
    requires 0 <= k < |S| - 1
    ensures Cabe(P, S, k) == Cabe(P, S[..|S| - 1], k) && ErroDe(P, S, k) == ErroDe(P, S[..|S| - 1], k)
  {
    var S' := S[..|S| - 1];
    assert S[k] == S'[k];
    assert S[..k] == S'[..k];
  }

  /** After a successful prefix, the last item's pass succeeds exactly when that item fits, and
      fails with the error `ErroDe` names. */
  lemma UltimoPasso(P: map<Id, Produto>, S: seq<ItemRequest>)
    requires S != [] && Reservar(P, S[..|S| - 1]).Ok?
    ensures var p := Passo(Reservar(P, S[..|S| - 1]).value, S[|S| - 1]);
      && (p.Ok? <==> Cabe(P, S, |S| - 1))
      && (p.Err? ==> p.error == ErroDe(P, S, |S| - 1))
  {
    var S' := S[..|S| - 1];
    ReservarProdutos(P, S');
    assert S[..|S| - 1] == S';
  }

  /** The loop succeeds exactly when every item fits the stock the earlier items left: a product
      named twice is checked against its already-decremented stock. */
  lemma {:induction false} ReservarOkSse(P: map<Id, Produto>, S: seq<ItemRequest>)
    ensures Reservar(P, S).Ok? <==> forall k :: 0 <= k < |S| ==> Cabe(P, S, k)
    decreases |S|
  {
    if S != [] {
      var n := |S|;
      var S' := S[..n - 1];
      ReservarOkSse(P, S');
      forall k | 0 <= k < n - 1
        ensures Cabe(P, S, k) <==> Cabe(P, S', k)
      {
        PrefixoCabe(P, S, k);
      }
      if Reservar(P, S').Ok? {
        UltimoPasso(P, S);
      }
    }
  }

  /** A failing loop raises the error of the first item that does not fit. */
  lemma {:induction false} ReservarErroPrimeiro(P: map<Id, Produto>, S: seq<ItemRequest>)
    requires Reservar(P, S).Err?
    ensures exists k :: 0 <= k < |S| && !Cabe(P, S, k) && (forall j :: 0 <= j < k ==> Cabe(P, S, j))
                        && Reservar(P, S).error == ErroDe(P, S, k)
    decreases |S|
  {
    var S' := S[..|S| - 1];
    if Reservar(P, S').Err? {
      ReservarErroPrimeiro(P, S');
      var k :| 0 <= k < |S'| && !Cabe(P, S', k) && (forall j :: 0 <= j < k ==> Cabe(P, S', j))
               && Reservar(P, S').error == ErroDe(P, S', k);
      ErroNoPrefixo(P, S, k);
    } else {
      ErroNoUltimo(P, S);
    }
  }

  /** The first failing item of a failing prefix is the first failing item of the whole list. */
  lemma ErroNoPrefixo(P: map<Id, Produto>, S: seq<ItemRequest>, k: int)
    requires 0 <= k < |S| - 1
    requires var S' := S[..|S| - 1];
      && Reservar(P, S').Err? && !Cabe(P, S', k) && (forall j :: 0 <= j < k ==> Cabe(P, S', j))
      && Reservar(P, S').error == ErroDe(P, S', k)
    ensures Reservar(P, S).Err? && !Cabe(P, S, k) && (forall j :: 0 <= j < k ==> Cabe(P, S, j))
            && Reservar(P, S).error == ErroDe(P, S, k)
  {
    PrefixoCabe(P, S, k);
    forall j | 0 <= j < k
      ensures Cabe(P, S, j)
    {
      PrefixoCabe(P, S, j);
    }
  }

  /** When every item before the last fits and the loop fails, the last item is the one that does
      not fit. */
  lemma ErroNoUltimo(P: map<Id, Produto>, S: seq<ItemRequest>)
    requires S != [] && Reservar(P, S[..|S| - 1]).Ok? && Reservar(P, S).Err?
    ensures !Cabe(P, S, |S| - 1) && (forall j :: 0 <= j < |S| - 1 ==> Cabe(P, S, j))
            && Reservar(P, S).error == ErroDe(P, S, |S| - 1)
  {
    var S' := S[..|S| - 1];
    UltimoPasso(P, S);
    ReservarOkSse(P, S');
    forall j | 0 <= j < |S| - 1
      ensures Cabe(P, S, j)
    {
      PrefixoCabe(P, S, j);
    }
  }

  /** Once some prefix of the items fails, the whole loop fails with that same error. */
  lemma {:induction false} ReservarErroPropaga(P: map<Id, Produto>, S: seq<ItemRequest>, i: nat)
    requires i <= |S| && Reservar(P, S[..i]).Err?
    ensures Reservar(P, S) == Reservar(P, S[..i])
    decreases |S|
  {
    if i < |S| {
      var S' := S[..|S| - 1];
      assert S'[..i] == S[..i];
      ReservarErroPropaga(P, S', i);
    } else {
      assert S[..i] == S;
    }
  }

  /** One more item extends the fold by one loop pass. */
  lemma ReservarPasso(P: map<Id, Produto>, S: seq<ItemRequest>, i: nat)
    requires i < |S| && Reservar(P, S[..i]).Ok?
    ensures Reservar(P, S[..i + 1]) == Passo(Reservar(P, S[..i]).value, S[i])
  {
    assert S[..i + 1][..i] == S[..i];
  }
}
