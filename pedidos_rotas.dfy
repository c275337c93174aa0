/** The order routes with logic of their own (`routes/public/pedidos_public.py`): the shipping
    quote of a cart, the shipping summary of an order and the listing of a user's orders. The
    carrier's HTTP answer is an input: the list of service options it returned. */
module PedidosRotas {
  import opened Common
  import opened Models
  import opened Store
  import Status
  import PedidosService
  import opened MelhorEnvio

  /** One cart entry of a quote request: `{"produto_id", "quantidade"?}`. */
  datatype ItemCotacao = ItemCotacao(produtoId: Option<Id>, quantidade: Option<int>)

  datatype CotacaoRequest = CotacaoRequest(usuarioId: Option<Id>, enderecoId: Option<Id>, itens: seq<ItemCotacao>)

  datatype CotacaoErro =
    | UsuarioObrigatorio
    | CarrinhoVazio
    | EnderecoInvalido(e: PedidosService.PedidoErro)
    | ProdutoAusente(produtoId: Option<Id>)
      /** `calcular_frete_pedido` raised. */
    | FalhaCotacao(f: FretePedidoErro)

  /** The HTTP status the route answers each error with. */
  function Codigo(e: CotacaoErro): (r: int)
    ensures r in {400, 403, 404}
    ensures r == 404 <==> e.ProdutoAusente? || e == EnderecoInvalido(PedidosService.EnderecoNaoEncontrado)
    ensures r == 403 <==> e == EnderecoInvalido(PedidosService.EnderecoDeOutroUsuario)
  {
    if e.ProdutoAusente? || e == EnderecoInvalido(PedidosService.EnderecoNaoEncontrado) then 404
    else if e == EnderecoInvalido(PedidosService.EnderecoDeOutroUsuario) then 403
    else 400
  }

  /** `float(x) if x else 0` of a Numeric(10,2) column. */
  function RealOuZero(v: Option<Fixed2>): (r: real)
    ensures TruthyNum(v) ==> r == ParaReal(v.value)
    ensures !TruthyNum(v) ==> r == 0.0
  {
    if TruthyNum(v) then ParaReal(v.value) else 0.0
  }

  /** The quote item of a product: its weight and whole-centimetre dimensions, 0 where missing,
      and the requested quantity, 1 when the entry has none. */
  function ItemPreparado(p: Produto, quantidade: Option<int>): (r: ItemFrete)
    ensures r.quantidade == quantidade.GetOr(1)
    ensures r.peso == RealOuZero(p.peso)
    ensures r.altura == OrZero(p.altura) as real && r.largura == OrZero(p.largura) as real
            && r.comprimento == OrZero(p.comprimento) as real
  {
    ItemFrete(RealOuZero(p.peso), OrZero(p.altura) as real, OrZero(p.largura) as real,
              OrZero(p.comprimento) as real, quantidade.GetOr(1))
  }

  /** The `itens_preparados` loop over `S` as a fold: the quote items, or the first unknown product. */
  function Preparar(P: map<Id, Produto>, S: seq<ItemCotacao>): Result<seq<ItemFrete>, CotacaoErro>
    decreases |S|
  {
    if S == [] then Ok([])
    else
      match Preparar(P, S[..|S| - 1])
      case Err(e) => Err(e)
      case Ok(itens) =>
        var it := S[|S| - 1];
        if it.produtoId.None? || it.produtoId.value !in P then Err(ProdutoAusente(it.produtoId))
        else Ok(itens + [ItemPreparado(P[it.produtoId.value], it.quantidade)])
  }

  /** The loop succeeds exactly when every entry names an existing product, and then yields one
      quote item per entry, in order. */
  lemma {:induction false} PrepararForma(P: map<Id, Produto>, S: seq<ItemCotacao>)
    ensures Preparar(P, S).Ok? <==> forall k :: 0 <= k < |S| ==> S[k].produtoId.Some? && S[k].produtoId.value in P
    ensures Preparar(P, S).Ok? ==>
      var itens := Preparar(P, S).value;
      && |itens| == |S|
      && forall j :: 0 <= j < |S| ==> itens[j] == ItemPreparado(P[S[j].produtoId.value], S[j].quantidade)
    ensures Preparar(P, S).Err? ==> Preparar(P, S).error.ProdutoAusente?
    decreases |S|
  {
    if S != [] {
      var S' := S[..|S| - 1];
      PrepararForma(P, S');
      assert forall k :: 0 <= k < |S| - 1 ==> S[k] == S'[k];
    }
  }

  /** The preparation loop: returns at the first unknown product. */
  method PrepararItens(db: Db, S: seq<ItemCotacao>) returns (r: Result<seq<ItemFrete>, CotacaoErro>)
    ensures r == Preparar(db.produtos, S)
  {
    var itens: seq<ItemFrete> := [];
    for i := 0 to |S|
      invariant Preparar(db.produtos, S[..i]) == Ok(itens)
    {
      assert S[..i + 1][..i] == S[..i];
      var it := S[i];
      if it.produtoId.None? || it.produtoId.value !in db.produtos {
        PropagaErro(db.produtos, S, i + 1);
        return Err(ProdutoAusente(it.produtoId));
      }
      itens := itens + [ItemPreparado(db.produtos[it.produtoId.value], it.quantidade)];
    }
    assert S[..|S|] == S;
    r := Ok(itens);
  }

  /** Once a prefix of the entries fails, the whole loop fails with that error. */
  lemma {:induction false} PropagaErro(P: map<Id, Produto>, S: seq<ItemCotacao>, i: nat)
    requires i <= |S| && Preparar(P, S[..i]).Err?
    ensures Preparar(P, S) == Preparar(P, S[..i])
    decreases |S|
  {
    if i < |S| {
      var S' := S[..|S| - 1];
      assert S'[..i] == S[..i];
      PropagaErro(P, S', i);
    } else {
      assert S[..i] == S;
    }
  }

  /** An option of the answer, as the route returns it. */
  datatype OpcaoFrete = OpcaoFrete(
    id: Option<int>,
    transportadora: Option<string>,
    servico: Option<string>,
    preco: real,
    prazoDias: int,
    prazoMin: Option<int>,
    prazoMax: Option<int>)

  /** An option is shown only with a positive price (absent counts as 0) and a delivery time. */
  predicate Aceita(o: OpcaoApi) {
    o.price.GetOr(0.0) > 0.0 && o.deliveryTime.Some?
  }

  function Formatada(o: OpcaoApi): (r: OpcaoFrete)
    requires Aceita(o)
    ensures r.preco > 0.0 && r.preco == o.price.value && r.prazoDias == o.deliveryTime.value
  {
    OpcaoFrete(o.id, o.companyName, o.name, o.price.GetOr(0.0), o.deliveryTime.value, o.prazoMin, o.prazoMax)
  }

  /** The filter loop as a fold. */
  function Filtradas(opcoes: seq<OpcaoApi>): (r: seq<OpcaoFrete>)
    ensures |r| <= |opcoes|
    ensures forall j :: 0 <= j < |r| ==> r[j].preco > 0.0
    decreases |opcoes|
  {
    if opcoes == [] then []
    else
      var o := opcoes[|opcoes| - 1];
      Filtradas(opcoes[..|opcoes| - 1]) + (if Aceita(o) then [Formatada(o)] else [])
  }

  /** The shown options are exactly the accepted answers, formatted. */
  lemma {:induction false} FiltradasSse(opcoes: seq<OpcaoApi>)
    ensures forall x :: x in Filtradas(opcoes) <==>
                          exists j :: 0 <= j < |opcoes| && Aceita(opcoes[j]) && x == Formatada(opcoes[j])
    decreases |opcoes|
  {
    if opcoes != [] {
      var n := |opcoes|;
      var o' := opcoes[..n - 1];
      FiltradasSse(o');
      assert forall j :: 0 <= j < n - 1 ==> opcoes[j] == o'[j];
      forall x | x in Filtradas(opcoes)
        ensures exists j :: 0 <= j < n && Aceita(opcoes[j]) && x == Formatada(opcoes[j])
      {
        if x !in Filtradas(o') {
          assert Aceita(opcoes[n - 1]) && x == Formatada(opcoes[n - 1]);
        }
      }
    }
  }

  /** The filter loop of `cotacao_frete_carrinho`. */
  method FiltrarOpcoes(opcoes: seq<OpcaoApi>) returns (r: seq<OpcaoFrete>)
    ensures r == Filtradas(opcoes)
  {
    r := [];
    for i := 0 to |opcoes|
      invariant r == Filtradas(opcoes[..i])
    {
      assert opcoes[..i + 1][..i] == opcoes[..i];
      if Aceita(opcoes[i]) {
        r := r + [Formatada(opcoes[i])];
      }
    }
    assert opcoes[..|opcoes|] == opcoes;
  }

  /** Ascending by price. */
  predicate PorPreco(s: seq<OpcaoFrete>) {
    forall k, l :: 0 <= k < l < |s| ==> s[k].preco <= s[l].preco
  }

  /** `x` put into `t` after every option no dearer than it, as one insertion step does. */
  function InserirPreco(t: seq<OpcaoFrete>, x: OpcaoFrete): (r: seq<OpcaoFrete>)
    ensures |r| == |t| + 1
    decreases |t|
  {
    if t == [] || t[|t| - 1].preco <= x.preco then t + [x]
    else InserirPreco(t[..|t| - 1], x) + [t[|t| - 1]]
  }

  /** The options as a stable sort by price arranges them: each inserted after the ones before it
      that are no dearer. */
  function Ordenado(s: seq<OpcaoFrete>): (r: seq<OpcaoFrete>)
    ensures |r| == |s|
    decreases |s|
  {
    if s == [] then [] else InserirPreco(Ordenado(s[..|s| - 1]), s[|s| - 1])
  }

  /** `resultado["opcoes"].sort(key=preco)`, as an insertion sort on the array. */
  method OrdenarPorPreco(a: array<OpcaoFrete>)
    modifies a
    ensures PorPreco(a[..])
    ensures multiset(a[..]) == multiset(old(a[..]))
    ensures a[..] == Ordenado(old(a[..]))
  {
    ghost var o := a[..];
    for i := 0 to a.Length
      invariant PorPreco(a[..i])
      invariant a[..i] == Ordenado(o[..i]) && a[i..] == o[i..]
    {
      ghost var antes := a[..];
      Sufixo(antes, o, i);
      Inserir(a, i);
      PassoOrdenado(o, i);
    }
    assert a[..a.Length] == a[..];
    assert o[..a.Length] == o;
    OrdenadoPermuta(o);
  }

  /** Two arrangements that agree from `i` on agree at `i` and after it. */
  lemma Sufixo(s: seq<OpcaoFrete>, o: seq<OpcaoFrete>, i: int)
    requires 0 <= i < |s| == |o| && s[i..] == o[i..]
    ensures s[i] == o[i] && s[i + 1..] == o[i + 1..]
  {
    assert s[i] == s[i..][0] && o[i] == o[i..][0];
    assert s[i + 1..] == s[i..][1..] && o[i + 1..] == o[i..][1..];
  }

  /** One insertion extends the sorted prefix of `o` by its next option. */
  lemma PassoOrdenado(o: seq<OpcaoFrete>, i: int)
    requires 0 <= i < |o|
    ensures var u := InserirPreco(Ordenado(o[..i]), o[i]) + o[i + 1..];
      u[..i + 1] == Ordenado(o[..i + 1]) && u[i + 1..] == o[i + 1..]
  {
    assert o[..i + 1][..i] == o[..i];
  }

  /** The arrangement keeps exactly the options it is given. */
  lemma {:induction false} OrdenadoPermuta(s: seq<OpcaoFrete>)
    ensures multiset(Ordenado(s)) == multiset(s)
    decreases |s|
  {
    if s != [] {
      var n := |s| - 1;
      OrdenadoPermuta(s[..n]);
      InserirMultiset(Ordenado(s[..n]), s[n]);
      assert s == s[..n] + [s[n]];
    }
  }

  /** The arrangement is in price order. */
  lemma {:induction false} OrdenadoOrdena(s: seq<OpcaoFrete>)
    ensures PorPreco(Ordenado(s))
    decreases |s|
  {
    if s != [] {
      var n := |s| - 1;
      OrdenadoOrdena(s[..n]);
      InserirOrdena(Ordenado(s[..n]), s[n]);
    }
  }

  /** The options of price `p`, in their order in `s`. */
  function ComPreco(s: seq<OpcaoFrete>, p: real): seq<OpcaoFrete>
    decreases |s|
  {
    if s == [] then []
    else ComPreco(s[..|s| - 1], p) + (if s[|s| - 1].preco == p then [s[|s| - 1]] else [])
  }

  /** An insertion puts `x` after every option of its price already there. */
  lemma {:induction false} InserirEstavel(t: seq<OpcaoFrete>, x: OpcaoFrete, p: real)
    ensures ComPreco(InserirPreco(t, x), p) == ComPreco(t, p) + (if x.preco == p then [x] else [])
    decreases |t|
  {
    var n := |t|;
    if t == [] || t[n - 1].preco <= x.preco {
      assert (t + [x])[..n] == t;
    } else {
      var t' := t[..n - 1];
      var r' := InserirPreco(t', x);
      InserirEstavel(t', x, p);
      assert (r' + [t[n - 1]])[..|r'|] == r';
    }
  }

  /** The sort is stable: the options of any one price keep their relative order. */
  lemma {:induction false} OrdenadoEstavel(s: seq<OpcaoFrete>, p: real)
    ensures ComPreco(Ordenado(s), p) == ComPreco(s, p)
    decreases |s|
  {
    if s != [] {
      var n := |s| - 1;
      OrdenadoEstavel(s[..n], p);
      InserirEstavel(Ordenado(s[..n]), s[n], p);
    }
  }

  /** One step of the insertion sort: `a[i]` moves left past every dearer option before it. */
  method Inserir(a: array<OpcaoFrete>, i: int)
    requires 0 <= i < a.Length && PorPreco(a[..i])
    modifies a
    ensures PorPreco(a[..i + 1])
    ensures multiset(a[..]) == multiset(old(a[..]))
    ensures a[..] == InserirPreco(old(a[..i]), old(a[i])) + old(a[i + 1..])
  {
    var j := i;
    ghost var t, x, resto := a[..i], a[i], a[i + 1..];
    assert t[..j] == t && t[j..] == [];
    assert a[..] == t + [x] + resto;
    assert a[..] == t[..j] + [x] + t[j..] + resto;
    while j > 0 && a[j - 1].preco > a[j].preco
      invariant 0 <= j <= i
      invariant a[..] == t[..j] + [x] + t[j..] + resto
      invariant InserirPreco(t, x) == InserirPreco(t[..j], x) + t[j..]
    {
      ghost var antes := a[..];
      assert antes[j - 1] == t[j - 1] && antes[j] == x;
      TrocaVizinhos(t, x, resto, j);
      InserirRecua(t, x, j);
      a[j - 1], a[j] := a[j], a[j - 1];
      assert a[..] == antes[j - 1 := antes[j]][j := antes[j - 1]];
      j := j - 1;
    }
    assert j > 0 ==> a[j - 1] == t[j - 1] && a[j] == x;
    InsercaoFeita(t, x, resto, j);
  }

  /** Where an insertion stops, the options hold the insertion's result: sorted in the first
      `|t| + 1` places and with the same options as before. */
  lemma InsercaoFeita(t: seq<OpcaoFrete>, x: OpcaoFrete, resto: seq<OpcaoFrete>, j: int)
    requires PorPreco(t) && 0 <= j <= |t| && (j == 0 || t[j - 1].preco <= x.preco)
    requires InserirPreco(t, x) == InserirPreco(t[..j], x) + t[j..]
    ensures var u := t[..j] + [x] + t[j..] + resto;
      && u == InserirPreco(t, x) + resto
      && PorPreco(u[..|t| + 1])
      && multiset(u) == multiset(t + [x] + resto)
  {
    var u := t[..j] + [x] + t[j..] + resto;
    InserirPara(t, x, j);
    InserirOrdena(t, x);
    InserirMultiset(t, x);
    assert u[..|t| + 1] == InserirPreco(t, x);
    assert t == t[..j] + t[j..];
  }

  /** Swapping `x` with the option before it moves it one place left. */
  lemma TrocaVizinhos(t: seq<OpcaoFrete>, x: OpcaoFrete, resto: seq<OpcaoFrete>, j: int)
    requires 0 < j <= |t|
    ensures var s := t[..j] + [x] + t[j..] + resto;
      s[j - 1 := s[j]][j := s[j - 1]] == t[..j - 1] + [x] + t[j - 1..] + resto
  {
    var s := t[..j] + [x] + t[j..] + resto;
    var u := t[..j - 1] + [x] + t[j - 1..] + resto;
    var w := s[j - 1 := s[j]][j := s[j - 1]];
    assert |w| == |u|;
    forall k | 0 <= k < |u|
      ensures w[k] == u[k]
    {
      if k < j - 1 {
        assert s[k] == t[k] && u[k] == t[k];
      } else if k > j {
        assert s[k] == u[k];
      }
    }
  }

  /** Passing a dearer option moves the insertion point one place left. */
  lemma InserirRecua(t: seq<OpcaoFrete>, x: OpcaoFrete, j: int)
    requires 0 < j <= |t| && t[j - 1].preco > x.preco
    ensures InserirPreco(t[..j], x) + t[j..] == InserirPreco(t[..j - 1], x) + t[j - 1..]
  {
    assert t[..j][..j - 1] == t[..j - 1];
    assert t[j - 1..] == [t[j - 1]] + t[j..];
  }

  /** Where the option before is no dearer, the insertion stops. */
  lemma InserirPara(t: seq<OpcaoFrete>, x: OpcaoFrete, j: int)
    requires 0 <= j <= |t| && (j == 0 || t[j - 1].preco <= x.preco)
    ensures InserirPreco(t[..j], x) == t[..j] + [x]
  {
  }

  /** Inserting into options in price order keeps them in price order. */
  lemma {:induction false} InserirOrdena(t: seq<OpcaoFrete>, x: OpcaoFrete)
    requires PorPreco(t)
    ensures PorPreco(InserirPreco(t, x))
    decreases |t|
  {
    var n := |t|;
    if t == [] || t[n - 1].preco <= x.preco {
      var r := t + [x];
      forall k, l | 0 <= k < l < |r|
        ensures r[k].preco <= r[l].preco
      {
        if l == n {
          assert r[k] == t[k] && t[k].preco <= t[n - 1].preco;
        } else {
          assert r[k] == t[k] && r[l] == t[l];
        }
      }
    } else {
      var t' := t[..n - 1];
      assert forall k :: 0 <= k < n - 1 ==> t'[k] == t[k];
      InserirOrdena(t', x);
      InserirMultiset(t', x);
      var r' := InserirPreco(t', x);
      var r := r' + [t[n - 1]];
      forall k, l | 0 <= k < l < |r|
        ensures r[k].preco <= r[l].preco
      {
        assert r[k] == r'[k];
        if l == |r'| {
          assert r'[k] in multiset(t') + multiset{x};
          if r'[k] != x {
            var m :| 0 <= m < |t'| && t'[m] == r'[k];
          }
        } else {
          assert r[l] == r'[l];
        }
      }
    }
  }

  /** Inserting adds exactly the one option. */
  lemma {:induction false} InserirMultiset(t: seq<OpcaoFrete>, x: OpcaoFrete)
    ensures multiset(InserirPreco(t, x)) == multiset(t) + multiset{x}
    decreases |t|
  {
    var n := |t|;
    if t != [] && t[n - 1].preco > x.preco {
      InserirMultiset(t[..n - 1], x);
      assert t == t[..n - 1] + [t[n - 1]];
    }
  }

  /** The position `min(opcoes, key=prazo_dias)` picks: a shortest delivery time, the first one
      among equals. */
  function IndiceMaisRapida(s: seq<OpcaoFrete>): (i: nat)
    requires s != []
    ensures i < |s|
    ensures forall j :: 0 <= j < |s| ==> s[i].prazoDias <= s[j].prazoDias
    ensures forall j :: 0 <= j < i ==> s[j].prazoDias > s[i].prazoDias
    decreases |s|
  {
    if |s| == 1 then 0
    else
      var m := IndiceMaisRapida(s[..|s| - 1]);
      assert forall j :: 0 <= j < |s| - 1 ==> s[j] == s[..|s| - 1][j];
      if s[|s| - 1].prazoDias < s[m].prazoDias then |s| - 1 else m
  }

  /** The route's answer to a quote. */
  datatype CotacaoCarrinho = CotacaoCarrinho(
    cepOrigem: Option<string>,
    cepDestino: string,
    opcoes: seq<OpcaoFrete>,
    maisBarata: Option<OpcaoFrete>,
    maisRapida: Option<OpcaoFrete>)

  /** The post-processing of the carrier's answer: the shown options sorted by price, and the
      cheapest and fastest of them when there is any. */
  method ProcessarOpcoes(resposta: seq<OpcaoApi>)
    returns (opcoes: seq<OpcaoFrete>, maisBarata: Option<OpcaoFrete>, maisRapida: Option<OpcaoFrete>)
    ensures PorPreco(opcoes) && multiset(opcoes) == multiset(Filtradas(resposta))
    ensures opcoes == Ordenado(Filtradas(resposta))
    ensures maisBarata.None? <==> opcoes == []
    ensures maisRapida.None? <==> opcoes == []
    ensures opcoes != [] ==> maisBarata == Some(opcoes[0]) && maisRapida == Some(opcoes[IndiceMaisRapida(opcoes)])
  {
    var filtradas := FiltrarOpcoes(resposta);
    var a := new OpcaoFrete[|filtradas|](i requires 0 <= i < |filtradas| => filtradas[i]);
    assert a[..] == filtradas;
    OrdenarPorPreco(a);
    opcoes := a[..];
    if opcoes == [] {
      maisBarata, maisRapida := None, None;
    } else {
      maisBarata, maisRapida := Some(opcoes[0]), Some(opcoes[IndiceMaisRapida(opcoes)]);
    }
  }

  /** The cheapest option is no dearer than any shown option: the sorted list starts with it. */
  lemma MaisBarataMinima(opcoes: seq<OpcaoFrete>)
    requires PorPreco(opcoes) && opcoes != []
    ensures forall j :: 0 <= j < |opcoes| ==> opcoes[0].preco <= opcoes[j].preco
  {
    forall j | 0 < j < |opcoes|
      ensures opcoes[0].preco <= opcoes[j].preco
    {
    }
  }

  /** `cotacao_frete_carrinho`: `empresaCep` is the store's postal code and `resposta` what the
      carrier answered for the computed package. The checks run in order (user, items, address,
      products, package); on success the answer lists the acceptable options by price. */
  method CotacaoFreteCarrinho(db: Db, empresaCep: Option<string>, req: CotacaoRequest, resposta: seq<OpcaoApi>)
    returns (r: Result<CotacaoCarrinho, CotacaoErro>)
    ensures !Truthy(req.usuarioId) ==> r == Err(UsuarioObrigatorio)
    ensures Truthy(req.usuarioId) && req.itens == [] ==> r == Err(CarrinhoVazio)
    ensures Truthy(req.usuarioId) && req.itens != [] ==>
      var erro := PedidosService.ErroEndereco(db.enderecos, req.usuarioId.value, req.enderecoId);
      && (erro.Some? ==> r == Err(EnderecoInvalido(erro.value)))
      && (erro.None? && Preparar(db.produtos, req.itens).Err? ==> r == Err(Preparar(db.produtos, req.itens).error))
    ensures Truthy(req.usuarioId) && req.itens != []
            && PedidosService.ErroEndereco(db.enderecos, req.usuarioId.value, req.enderecoId).None?
            && Preparar(db.produtos, req.itens).Ok? ==>
      var uid, P := req.usuarioId.value, Preparar(db.produtos, req.itens).value;
      && (r.Ok? || r.error.FalhaCotacao?)
      && ((forall e :: PedidosService.EnderecoAceito(db.enderecos, uid, req.enderecoId, e) ==>
             CalcularFretePedido(empresaCep, Some(db.enderecos[e].cep), P).Ok?) ==> r.Ok?)
      && ((forall e :: PedidosService.EnderecoAceito(db.enderecos, uid, req.enderecoId, e) ==>
             CalcularFretePedido(empresaCep, Some(db.enderecos[e].cep), P).Err?) ==> r.Err?)
      && (Truthy(req.enderecoId) ==>
            (r.Ok? <==> CalcularFretePedido(empresaCep, Some(db.enderecos[req.enderecoId.value].cep), P).Ok?))
    ensures r.Err? && r.error.FalhaCotacao? ==>
      && Truthy(req.usuarioId) && Preparar(db.produtos, req.itens).Ok?
      && exists e :: PedidosService.EnderecoAceito(db.enderecos, req.usuarioId.value, req.enderecoId, e)
                     && CalcularFretePedido(empresaCep, Some(db.enderecos[e].cep), Preparar(db.produtos, req.itens).value)
                        == Err(r.error.f)
    ensures r.Ok? ==>
      var c := r.value;
      && Truthy(req.usuarioId) && req.itens != [] && Preparar(db.produtos, req.itens).Ok?
      && (exists e :: PedidosService.EnderecoAceito(db.enderecos, req.usuarioId.value, req.enderecoId, e)
                      && db.enderecos[e].cep == c.cepDestino)
      && CalcularFretePedido(empresaCep, Some(c.cepDestino), Preparar(db.produtos, req.itens).value).Ok?
      && c.cepOrigem == empresaCep
      && PorPreco(c.opcoes) && multiset(c.opcoes) == multiset(Filtradas(resposta))
      && c.opcoes == Ordenado(Filtradas(resposta))
      && (c.maisBarata.None? <==> c.opcoes == []) && (c.maisRapida.None? <==> c.opcoes == [])
      && (c.opcoes != [] ==> c.maisBarata == Some(c.opcoes[0])
                             && c.maisRapida == Some(c.opcoes[IndiceMaisRapida(c.opcoes)]))
  {
    if !Truthy(req.usuarioId) {
      return Err(UsuarioObrigatorio);
    }
    if req.itens == [] {
      return Err(CarrinhoVazio);
    }
    var uid := req.usuarioId.value;
    var endereco := PedidosService.ResolverEndereco(db, uid, req.enderecoId);
    if endereco.Err? {
      return Err(EnderecoInvalido(endereco.error));
    }
    var cepDestino := db.enderecos[endereco.value].cep;
    var itens := PrepararItens(db, req.itens);
    if itens.Err? {
      PrepararForma(db.produtos, req.itens);
      return Err(itens.error);
    }
    var pacote := CalcularFretePedido(empresaCep, Some(cepDestino), itens.value);
    if pacote.Err? {
      return Err(FalhaCotacao(pacote.error));
    }
    var opcoes, maisBarata, maisRapida := ProcessarOpcoes(resposta);
    r := Ok(CotacaoCarrinho(empresaCep, cepDestino, opcoes, maisBarata, maisRapida));
  }

  /** The quote item of an order row, as `resumo_frete` reads it: each Numeric(10,2) column as a
      real, 0 where it is empty or zero. An id that is not a row counts as an empty item. */
  function LinhaFrete(I: map<Id, ItemPedido>, k: Id): ItemFrete {
    if k in I then
      var i := I[k];
      ItemFrete(RealOuZero(i.peso), RealOuZero(i.altura), RealOuZero(i.largura), RealOuZero(i.comprimento), i.quantidade)
    else ItemFrete(0.0, 0.0, 0.0, 0.0, 0)
  }

  /** The quote items of the rows `ordem` lists, in that order. */
  function FretesDe(I: map<Id, ItemPedido>, ordem: seq<Id>): (r: seq<ItemFrete>)
    ensures |r| == |ordem| && forall j :: 0 <= j < |ordem| ==> r[j] == LinhaFrete(I, ordem[j])
    decreases |ordem|
  {
    if ordem == [] then []
    else
      var r' := FretesDe(I, ordem[..|ordem| - 1]);
      assert forall j :: 0 <= j < |ordem| - 1 ==> ordem[..|ordem| - 1][j] == ordem[j];
      r' + [LinhaFrete(I, ordem[|ordem| - 1])]
  }

  /** `ordem` lists the rows of order `pid`, each once: the relationship `pedido.itens`, whose
      order the store does not fix. */
  predicate ListaItens(I: map<Id, ItemPedido>, pid: Id, ordem: seq<Id>) {
    && Distintos(ordem)
    && (forall j :: 0 <= j < |ordem| ==> ordem[j] in I && I[ordem[j]].pedidoId == pid)
    && (forall k :: k in I && I[k].pedidoId == pid ==> k in ordem)
  }

  /** One entry of the summary's `itens`. */
  datatype ItemResumo = ItemResumo(produtoId: Id, frete: ItemFrete)

  /** What `resumo_frete` answers. */
  datatype ResumoFrete = ResumoFrete(
    pedidoId: Id,
    cepOrigem: Option<string>,
    cepDestino: string,
    itens: seq<ItemResumo>,
    pesoTotal: real)

  datatype ResumoErro = ResumoPedidoNaoEncontrado | ResumoSemEndereco

  /** `resumo_frete` (`ordem` enumerates the order's rows): an unknown order or one without an
      address is an error; otherwise one entry per row and the total weight Σ peso × quantidade. */
  function ResumoDoFrete(pedidos: map<Id, Pedido>, enderecos: map<Id, Endereco>, I: map<Id, ItemPedido>,
                         empresaCep: Option<string>, pid: Id, ordem: seq<Id>): (r: Result<ResumoFrete, ResumoErro>)
    requires ListaItens(I, pid, ordem)
    ensures pid !in pedidos ==> r == Err(ResumoPedidoNaoEncontrado)
    ensures r.Err? ==> pid !in pedidos || pedidos[pid].enderecoId.None? || pedidos[pid].enderecoId.value !in enderecos
    ensures r.Ok? ==>
      && pid in pedidos && pedidos[pid].enderecoId.Some? && pedidos[pid].enderecoId.value in enderecos
      && r.value.cepDestino == enderecos[pedidos[pid].enderecoId.value].cep
      && |r.value.itens| == |ordem|
      && (forall j :: 0 <= j < |ordem| ==> r.value.itens[j].produtoId == I[ordem[j]].produtoId
                                           && r.value.itens[j].frete == LinhaFrete(I, ordem[j]))
      && r.value.pesoTotal == PesoTotal(FretesDe(I, ordem))
  {
    if pid !in pedidos then Err(ResumoPedidoNaoEncontrado)
    else
      var p := pedidos[pid];
      if p.enderecoId.None? || p.enderecoId.value !in enderecos then Err(ResumoSemEndereco)
      else
        var itens := seq(|ordem|, j requires 0 <= j < |ordem| => ItemResumo(I[ordem[j]].produtoId, LinhaFrete(I, ordem[j])));
        Ok(ResumoFrete(pid, empresaCep, enderecos[p.enderecoId.value].cep, itens, PesoTotal(FretesDe(I, ordem))))
  }

  /** The summary's total weight does not depend on the order in which the rows come. */
  lemma ResumoIndependeDaOrdem(pedidos: map<Id, Pedido>, enderecos: map<Id, Endereco>, I: map<Id, ItemPedido>,
                               empresaCep: Option<string>, pid: Id, a: seq<Id>, b: seq<Id>)
    requires ListaItens(I, pid, a) && ListaItens(I, pid, b)
    ensures var ra := ResumoDoFrete(pedidos, enderecos, I, empresaCep, pid, a);
            var rb := ResumoDoFrete(pedidos, enderecos, I, empresaCep, pid, b);
      && (ra.Ok? <==> rb.Ok?)
      && (ra.Ok? ==> ra.value.pesoTotal == rb.value.pesoTotal && |ra.value.itens| == |rb.value.itens|)
  {
    PesoIndependeDaOrdem(I, pid, a, b);
  }

  /** Two enumerations of an order's rows have the same length and the same total weight. */
  lemma PesoIndependeDaOrdem(I: map<Id, ItemPedido>, pid: Id, a: seq<Id>, b: seq<Id>)
    requires ListaItens(I, pid, a) && ListaItens(I, pid, b)
    ensures |a| == |b| && PesoTotal(FretesDe(I, a)) == PesoTotal(FretesDe(I, b))
  {
    MesmoMultiset(a, b);
    FretesPermutacao(I, a, b);
    PesoTotalPermutacao(FretesDe(I, a), FretesDe(I, b));
    assert |a| == |multiset(a)| == |multiset(b)| == |b|;
  }

  /** In a list without repetitions each element occurs once. */
  lemma {:induction false} MultiplicidadeDistinta(s: seq<Id>, x: Id)
    requires Distintos(s)
    ensures multiset(s)[x] == if x in s then 1 else 0
    decreases |s|
  {
    if s != [] {
      var s' := s[..|s| - 1];
      assert s == s' + [s[|s| - 1]];
      assert Distintos(s');
      MultiplicidadeDistinta(s', x);
      if x == s[|s| - 1] {
        assert x !in s';
      }
    }
  }

  /** Two lists without repetitions of the same elements are permutations of each other. */
  lemma MesmoMultiset(a: seq<Id>, b: seq<Id>)
    requires Distintos(a) && Distintos(b) && forall x :: x in a <==> x in b
    ensures multiset(a) == multiset(b)
  {
    forall x
      ensures multiset(a)[x] == multiset(b)[x]
    {
      MultiplicidadeDistinta(a, x);
      MultiplicidadeDistinta(b, x);
    }
  }

  lemma FretesConcat(I: map<Id, ItemPedido>, u: seq<Id>, v: seq<Id>)
    ensures FretesDe(I, u + v) == FretesDe(I, u) + FretesDe(I, v)
  {
    assert forall j :: 0 <= j < |u| ==> (u + v)[j] == u[j];
    assert forall j :: |u| <= j < |u| + |v| ==> (u + v)[j] == v[j - |u|];
  }

  /** Permuting the rows permutes their quote items. */
  lemma {:induction false} FretesPermutacao(I: map<Id, ItemPedido>, a: seq<Id>, b: seq<Id>)
    requires multiset(a) == multiset(b)
    ensures multiset(FretesDe(I, a)) == multiset(FretesDe(I, b))
    decreases |a|
  {
    if a != [] {
      var n := |a|;
      var x := a[n - 1];
      assert a == a[..n - 1] + [x];
      assert x in multiset(b);
      var k :| 0 <= k < |b| && b[k] == x;
      RemoverItemMultiset(b, k);
      FretesPermutacao(I, a[..n - 1], b[..k] + b[k + 1..]);
      FretesConcat(I, a[..n - 1], [x]);
      FretesRemover(I, b, k);
    } else {
      assert |b| == |multiset(b)|;
    }
  }

  /** Taking row `k` out of the list takes its quote item out of the items' multiset. */
  lemma FretesRemover(I: map<Id, ItemPedido>, b: seq<Id>, k: int)
    requires 0 <= k < |b|
    ensures multiset(FretesDe(I, b)) == multiset(FretesDe(I, b[..k] + b[k + 1..])) + multiset{LinhaFrete(I, b[k])}
  {
    FretesSemLinha(I, b, k);
    RemoverItemMultiset(FretesDe(I, b), k);
  }

  /** The items of the rows without row `k` are the items without item `k`. */
  lemma FretesSemLinha(I: map<Id, ItemPedido>, b: seq<Id>, k: int)
    requires 0 <= k < |b|
    ensures FretesDe(I, b[..k] + b[k + 1..]) == FretesDe(I, b)[..k] + FretesDe(I, b)[k + 1..]
  {
    var c := b[..k] + b[k + 1..];
    assert forall j :: 0 <= j < |c| ==> c[j] == if j < k then b[j] else b[j + 1];
  }

  /** `ordem` is what `listar_pedidos_usuario` returns: the user's orders, each once, newest first. */
  predicate ListaPedidos(pedidos: map<Id, Pedido>, uid: Id, ordem: seq<Id>) {
    && Distintos(ordem)
    && (forall j :: 0 <= j < |ordem| ==> ordem[j] in pedidos && pedidos[ordem[j]].usuarioId == Some(uid))
    && (forall k :: k in pedidos && pedidos[k].usuarioId == Some(uid) ==> k in ordem)
    && (forall j, l :: 0 <= j < l < |ordem| ==> pedidos[ordem[j]].criadoEm >= pedidos[ordem[l]].criadoEm)
  }

  /** One entry of `pedidos_usuario`. */
  datatype PedidoListado = PedidoListado(
    pedidoId: Id,
    nomeUsuario: Option<string>,
    sobrenomeUsuario: Option<string>,
    valorTotal: Fixed2,
    status: string,
    freteValor: Option<Fixed2>,
    criadoEm: int,
    temRastreio: bool)

  /** The projection of one order: the user's names when the user exists, the shipping value only
      when it is non-zero, and the tracking flag when the carrier has an id for it. */
  function Listado(pedidos: map<Id, Pedido>, usuarios: map<Id, Usuario>, id: Id): (r: PedidoListado)
    requires id in pedidos
    ensures var p := pedidos[id];
      && r.pedidoId == id && r.valorTotal == p.valorTotal && r.criadoEm == p.criadoEm
      && r.status == Status.PedidoNome(p.status)
      && (r.temRastreio <==> p.melhorEnvioId.Some?)
      && (r.freteValor.Some? <==> TruthyNum(p.freteValor))
      && (r.freteValor.Some? ==> r.freteValor == p.freteValor)
      && (r.nomeUsuario.Some? <==> p.usuarioId.Some? && p.usuarioId.value in usuarios)
      && (r.nomeUsuario.Some? ==> r.nomeUsuario.value == usuarios[p.usuarioId.value].nome
                                  && r.sobrenomeUsuario == Some(usuarios[p.usuarioId.value].sobrenome))
  {
    var p := pedidos[id];
    var u := if p.usuarioId.Some? && p.usuarioId.value in usuarios then Some(usuarios[p.usuarioId.value]) else None;
    PedidoListado(id,
                  if u.Some? then Some(u.value.nome) else None,
                  if u.Some? then Some(u.value.sobrenome) else None,
                  p.valorTotal, Status.PedidoNome(p.status),
                  if TruthyNum(p.freteValor) then p.freteValor else None,
                  p.criadoEm, p.melhorEnvioId.Some?)
  }

  /** `pedidos_usuario`: one entry per order of the user, newest first. */
  function PedidosUsuario(pedidos: map<Id, Pedido>, usuarios: map<Id, Usuario>, uid: Id, ordem: seq<Id>)
    : (r: seq<PedidoListado>)
    requires ListaPedidos(pedidos, uid, ordem)
    ensures |r| == |ordem| && forall j :: 0 <= j < |r| ==> r[j] == Listado(pedidos, usuarios, ordem[j])
    ensures forall k :: k in pedidos && pedidos[k].usuarioId == Some(uid) <==> exists j :: 0 <= j < |r| && r[j].pedidoId == k
    ensures forall j, l :: 0 <= j < l < |r| ==> r[j].criadoEm >= r[l].criadoEm
  {
    var r := seq(|ordem|, j requires 0 <= j < |ordem| => Listado(pedidos, usuarios, ordem[j]));
    assert forall j :: 0 <= j < |r| ==> r[j].pedidoId == ordem[j];
    r
  }
}
