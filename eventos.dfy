/** The event log and its rankings (`services/public/evento_service.py`): recording an event,
    the best sellers, and the best sellers of a product's category. The two rankings are SQL
    `GROUP BY … ORDER BY count DESC LIMIT n` queries; here they are built from one ranking of the
    purchase events' keys, whose properties are proved once. */
module Eventos {
  import opened Common
  import opened Models
  import opened Store

  /** `registrar_evento`: exactly one event with the given fields is appended to the log. */
  method RegistrarEvento(db: Db, usuarioId: Option<Id>, produtoId: Option<Id>, tipoEvento: Option<string>)
    returns (e: Evento)
    modifies db`eventos
    ensures e == Evento(usuarioId, produtoId, tipoEvento) && db.eventos == old(db.eventos) + [e]
  {
    e := Evento(usuarioId, produtoId, tipoEvento);
    db.eventos := db.eventos + [e];
  }

  /** `tipo_evento == "compra"` */
  predicate Compra(e: Evento) {
    e.tipoEvento == Some("compra")
  }

  /** How often `x` occurs among the keys `s`: the `func.count` of its group. */
  function Vendas<K(==,!new)>(s: seq<K>, x: K): nat {
    multiset(s)[x]
  }

  /** The keys of `s`, each once, in order of first occurrence: the groups of `GROUP BY`. */
  function Chaves<K(==,!new)>(s: seq<K>): (r: seq<K>)
    ensures forall x :: x in r <==> x in s
    ensures Distintos(r)
    decreases |s|
  {
    if s == [] then []
    else
      var r := Chaves(s[..|s| - 1]);
      assert forall x :: x in s <==> x in s[..|s| - 1] || x == s[|s| - 1];
      if s[|s| - 1] in r then r else r + [s[|s| - 1]]
  }

  /** `t` is ordered by descending count in `s`. */
  predicate Decrescente<K(==,!new)>(t: seq<K>, s: seq<K>) {
    forall j, l :: 0 <= j < l < |t| ==> Vendas(s, t[j]) >= Vendas(s, t[l])
  }

  /** `x` put into the descending order `t`, before the first key it outsells or ties. */
  function InserirDesc<K(==,!new)>(x: K, t: seq<K>, s: seq<K>): (r: seq<K>)
    ensures |r| == |t| + 1
    ensures forall y :: y in r <==> y == x || y in t
    decreases |t|
  {
    if t == [] || Vendas(s, x) >= Vendas(s, t[0]) then [x] + t
    else
      assert forall y :: y in t <==> y == t[0] || y in t[1..];
      [t[0]] + InserirDesc(x, t[1..], s)
  }

  /** Inserting keeps the order descending. */
  lemma {:induction false} InserirDescOrdena<K(!new)>(x: K, t: seq<K>, s: seq<K>)
    requires Decrescente(t, s)
    ensures Decrescente(InserirDesc(x, t, s), s)
    decreases |t|
  {
    if t != [] && Vendas(s, x) < Vendas(s, t[0]) {
      var t' := t[1..];
      assert Decrescente(t', s);
      InserirDescOrdena(x, t', s);
      var r' := InserirDesc(x, t', s);
      assert forall y :: y in t' ==> Vendas(s, y) <= Vendas(s, t[0]);
      forall j | 0 <= j < |r'|
        ensures Vendas(s, r'[j]) <= Vendas(s, t[0])
      {
        assert r'[j] in r';
      }
      assert InserirDesc(x, t, s) == [t[0]] + r';
    }
  }

  /** Inserting a new key keeps the keys distinct. */
  lemma {:induction false} InserirDescDistinta<K(!new)>(x: K, t: seq<K>, s: seq<K>)
    ensures x !in t && Distintos(t) ==> Distintos(InserirDesc(x, t, s))
    decreases |t|
  {
    if x !in t && Distintos(t) && t != [] && Vendas(s, x) < Vendas(s, t[0]) {
      var t' := t[1..];
      assert Distintos(t');
      InserirDescDistinta(x, t', s);
      var r' := InserirDesc(x, t', s);
      assert t[0] !in t';
      assert t[0] !in r';
      assert InserirDesc(x, t, s) == [t[0]] + r';
    }
  }

  /** Insertion sort of the keys `t` by descending count in `s`. */
  function OrdenarDesc<K(==,!new)>(t: seq<K>, s: seq<K>): (r: seq<K>)
    ensures |r| == |t|
    ensures forall y :: y in r <==> y in t
    ensures Decrescente(r, s)
    ensures Distintos(t) ==> Distintos(r)
    decreases |t|
  {
    if t == [] then []
    else
      assert forall y :: y in t <==> y == t[0] || y in t[1..];
      InserirDescOrdena(t[0], OrdenarDesc(t[1..], s), s);
      InserirDescDistinta(t[0], OrdenarDesc(t[1..], s), s);
      InserirDesc(t[0], OrdenarDesc(t[1..], s), s)
  }

  /** One row of a ranking: a group's key and its count. */
  datatype Contagem<K> = Contagem(chave: K, total: nat)

  function Min(a: nat, b: nat): nat {
    if a <= b then a else b
  }

  /** The `limite` largest groups of `s` by count, largest first. */
  function Ranking<K(==,!new)>(s: seq<K>, limite: nat): (r: seq<Contagem<K>>)
    ensures |r| == Min(limite, |Chaves(s)|)
    ensures forall j :: 0 <= j < |r| ==> r[j].chave in s && r[j].total == Vendas(s, r[j].chave)
  {
    var o := OrdenarDesc(Chaves(s), s);
    var n := Min(limite, |o|);
    seq(n, j requires 0 <= j < n => Contagem(o[j], Vendas(s, o[j])))
  }

  /** The ranking is what the query promises: largest first, each group once, at most `limite`
      rows, and a group left out never outsells one kept; with room to spare every group is kept. */
  lemma RankingCorreto<K(!new)>(s: seq<K>, limite: nat)
    ensures var r := Ranking(s, limite);
      && |r| <= limite
      && (forall j, l :: 0 <= j < l < |r| ==> r[j].total >= r[l].total && r[j].chave != r[l].chave)
      && (forall x :: x in s && (forall j :: 0 <= j < |r| ==> r[j].chave != x) ==>
            |r| == limite && (limite > 0 ==> Vendas(s, x) <= r[|r| - 1].total))
  {
    var o := OrdenarDesc(Chaves(s), s);
    var r := Ranking(s, limite);
    assert forall j :: 0 <= j < |r| ==> r[j].chave == o[j];
    forall x | x in s && (forall j :: 0 <= j < |r| ==> r[j].chave != x)
      ensures |r| == limite && (limite > 0 ==> Vendas(s, x) <= r[|r| - 1].total)
    {
      assert x in o;
      var i :| 0 <= i < |o| && o[i] == x;
      assert i >= |r|;
      if limite > 0 {
        assert Vendas(s, o[|r| - 1]) >= Vendas(s, o[i]);
      }
    }
  }

  /** The products of the purchase events, in log order (`NULL` products form a group too). */
  function Compras(E: seq<Evento>): (r: seq<Option<Id>>)
    ensures forall x :: x in r <==> exists j :: 0 <= j < |E| && Compra(E[j]) && E[j].produtoId == x
    decreases |E|
  {
    if E == [] then []
    else
      var r' := Compras(E[..|E| - 1]);
      assert forall j :: 0 <= j < |E| - 1 ==> E[..|E| - 1][j] == E[j];
      r' + (if Compra(E[|E| - 1]) then [E[|E| - 1].produtoId] else [])
  }

  /** `top_vendas(limit)`: products ranked by purchase events (the source's default is 3). */
  function TopVendas(E: seq<Evento>, limite: nat): (r: seq<Contagem<Option<Id>>>)
    ensures |r| <= limite
    ensures forall j :: 0 <= j < |r| ==> r[j].total >= 1
  {
    var r := Ranking(Compras(E), limite);
    assert forall j :: 0 <= j < |r| ==> r[j].chave in multiset(Compras(E));
    r
  }

  const LimiteTopVendas: nat := 3

  /** The best sellers are what `ORDER BY count DESC LIMIT n` over the purchase events gives:
      each product's number of purchases, largest first, each product once, and no product left
      out outsells the last one kept. */
  lemma TopVendasOrdenado(E: seq<Evento>, limite: nat)
    ensures var r := TopVendas(E, limite);
      && (forall j :: 0 <= j < |r| ==> r[j].total == Vendas(Compras(E), r[j].chave))
      && (forall j, l :: 0 <= j < l < |r| ==> r[j].total >= r[l].total && r[j].chave != r[l].chave)
      && (forall x :: x in Compras(E) && (forall j :: 0 <= j < |r| ==> r[j].chave != x) ==>
            |r| == limite && (limite > 0 ==> Vendas(Compras(E), x) <= r[|r| - 1].total))
  {
    RankingCorreto(Compras(E), limite);
  }

  /** Events other than purchases never change the best sellers. */
  lemma TopVendasSoCompras(E: seq<Evento>, e: Evento, limite: nat)
    requires !Compra(e)
    ensures TopVendas(E + [e], limite) == TopVendas(E, limite)
  {
    assert (E + [e])[..|E + [e]| - 1] == E;
    assert Compras(E + [e]) == Compras(E);
  }

  /** The positions of `q`'s purchase events in the log. */
  function Posicoes(E: seq<Evento>, q: Option<Id>): set<int> {
    set j | 0 <= j < |E| && Compra(E[j]) && E[j].produtoId == q
  }

  /** One more event adds its position exactly when it is a purchase of `q`. */
  lemma PosicoesEstende(E: seq<Evento>, q: Option<Id>)
    requires E != []
    ensures var n := |E| - 1;
      Posicoes(E, q) == Posicoes(E[..n], q) + (if Compra(E[n]) && E[n].produtoId == q then {n} else {})
      && n !in Posicoes(E[..n], q)
  {
    var n := |E| - 1;
    assert forall j :: 0 <= j < n ==> E[..n][j] == E[j];
  }

  /** The purchases of `q` counted among those of the log. */
  lemma {:induction false} ComprasConta(E: seq<Evento>, q: Option<Id>)
    ensures Vendas(Compras(E), q) == |set j | 0 <= j < |E| && Compra(E[j]) && E[j].produtoId == q|
    decreases |E|
  {
    if E != [] {
      var n := |E| - 1;
      ComprasConta(E[..n], q);
      PosicoesEstende(E, q);
      assert Compras(E) == Compras(E[..n]) + (if Compra(E[n]) then [E[n].produtoId] else []);
      assert Posicoes(E[..n], q) == set j | 0 <= j < |E[..n]| && Compra(E[..n][j]) && E[..n][j].produtoId == q;
    }
    assert Posicoes(E, q) == set j | 0 <= j < |E| && Compra(E[j]) && E[j].produtoId == q;
  }

  /** The purchases of products other than `pid` that share its category, in log order. Products
      without a category match each other: the query compares the column with the product's
      value, and SQLAlchemy renders a comparison with `None` as `IS NULL`. */
  function ComprasSimilares(produtos: map<Id, Produto>, E: seq<Evento>, pid: Id): (r: seq<Id>)
    requires pid in produtos
    ensures forall q :: q in r ==> q in produtos && q != pid && produtos[q].categoria == produtos[pid].categoria
    ensures forall q :: q in r <==> q in produtos && q != pid && produtos[q].categoria == produtos[pid].categoria
                                    && Some(q) in Compras(E)
    decreases |E|
  {
    if E == [] then []
    else
      var r' := ComprasSimilares(produtos, E[..|E| - 1], pid);
      var e := E[|E| - 1];
      assert Compras(E) == Compras(E[..|E| - 1]) + (if Compra(e) then [e.produtoId] else []);
      r' + (if Compra(e) && e.produtoId.Some? && e.produtoId.value in produtos && e.produtoId.value != pid
               && produtos[e.produtoId.value].categoria == produtos[pid].categoria
            then [e.produtoId.value] else [])
  }

  /** One recommendation: the product, its name and its purchases. */
  datatype Recomendacao = Recomendacao(id: Id, nome: string, vendas: nat)

  /** `recomendacoes(produto_id, limit)`: nothing for an unknown product; otherwise products of
      the same category, never the product itself, ranked by purchases (the source's default
      limit is 5). */
  function Recomendacoes(produtos: map<Id, Produto>, E: seq<Evento>, pid: Id, limite: nat): (r: seq<Recomendacao>)
    ensures pid !in produtos ==> r == []
    ensures |r| <= limite
    ensures forall j :: 0 <= j < |r| ==>
      && pid in produtos && r[j].id in produtos && r[j].id != pid
      && produtos[r[j].id].categoria == produtos[pid].categoria
      && r[j].nome == produtos[r[j].id].nome && r[j].vendas >= 1
  {
    if pid !in produtos then []
    else
      var s := ComprasSimilares(produtos, E, pid);
      var k := Ranking(s, limite);
      assert forall j :: 0 <= j < |k| ==> k[j].chave in multiset(s);
      Linhas(produtos, k)
  }

  /** The recommendation rows of ranking rows: each product with its name and count. */
  function Linhas(produtos: map<Id, Produto>, k: seq<Contagem<Id>>): (r: seq<Recomendacao>)
    requires forall j :: 0 <= j < |k| ==> k[j].chave in produtos
    ensures |r| == |k|
    ensures forall j :: 0 <= j < |k| ==> r[j] == Recomendacao(k[j].chave, produtos[k[j].chave].nome, k[j].total)
    decreases |k|
  {
    if k == [] then []
    else
      var n := |k| - 1;
      assert forall j :: 0 <= j < n ==> k[..n][j] == k[j];
      Linhas(produtos, k[..n]) + [Recomendacao(k[n].chave, produtos[k[n].chave].nome, k[n].total)]
  }

  const LimiteRecomendacoes: nat := 5

  /** The recommendations are the rows of the ranking of the similar purchases. */
  lemma RecomendacoesDoRanking(produtos: map<Id, Produto>, E: seq<Evento>, pid: Id, limite: nat)
    requires pid in produtos
    ensures var k, r := Ranking(ComprasSimilares(produtos, E, pid), limite), Recomendacoes(produtos, E, pid, limite);
      |r| == |k| && forall j :: 0 <= j < |r| ==> r[j].id == k[j].chave && r[j].vendas == k[j].total
  {
  }

  /** Each recommendation carries its product's number of purchase events. */
  lemma RecomendacoesContam(produtos: map<Id, Produto>, E: seq<Evento>, pid: Id, limite: nat)
    requires pid in produtos
    ensures var r := Recomendacoes(produtos, E, pid, limite);
      forall j :: 0 <= j < |r| ==> r[j].vendas == Vendas(Compras(E), Some(r[j].id))
  {
    var r := Recomendacoes(produtos, E, pid, limite);
    RecomendacoesDoRanking(produtos, E, pid, limite);
    forall j | 0 <= j < |r|
      ensures r[j].vendas == Vendas(Compras(E), Some(r[j].id))
    {
      RecomendacaoConta(produtos, E, pid, r[j].id);
    }
  }

  /** The recommendations are ranked like `ORDER BY count DESC LIMIT n`: largest first, each
      product once, and a purchased product of the category left out never outsells the last one
      kept. */
  lemma RecomendacoesOrdenadas(produtos: map<Id, Produto>, E: seq<Evento>, pid: Id, limite: nat)
    requires pid in produtos
    ensures var r := Recomendacoes(produtos, E, pid, limite);
      && (forall j, l :: 0 <= j < l < |r| ==> r[j].vendas >= r[l].vendas && r[j].id != r[l].id)
      && (forall q :: q in produtos && q != pid && produtos[q].categoria == produtos[pid].categoria
                      && Some(q) in Compras(E) && (forall j :: 0 <= j < |r| ==> r[j].id != q) ==>
            |r| == limite && (limite > 0 ==> Vendas(Compras(E), Some(q)) <= r[|r| - 1].vendas))
  {
    var s := ComprasSimilares(produtos, E, pid);
    var r := Recomendacoes(produtos, E, pid, limite);
    RecomendacoesDoRanking(produtos, E, pid, limite);
    RankingCorreto(s, limite);
    forall q | q in produtos && q != pid && produtos[q].categoria == produtos[pid].categoria
               && Some(q) in Compras(E) && (forall j :: 0 <= j < |r| ==> r[j].id != q)
      ensures |r| == limite && (limite > 0 ==> Vendas(Compras(E), Some(q)) <= r[|r| - 1].vendas)
    {
      RecomendacaoOmitida(produtos, E, pid, limite, q);
    }
  }

  /** A group left out of the ranking means the ranking is full and outsells it. */
  lemma RankingOmitido<K(!new)>(s: seq<K>, limite: nat, x: K)
    requires x in s && forall j :: 0 <= j < |Ranking(s, limite)| ==> Ranking(s, limite)[j].chave != x
    ensures var r := Ranking(s, limite); |r| == limite && (limite > 0 ==> Vendas(s, x) <= r[|r| - 1].total)
  {
    RankingCorreto(s, limite);
  }

  /** A purchased product of the same category, other than `pid`, is among the similar purchases. */
  lemma SimilarComprado(produtos: map<Id, Produto>, E: seq<Evento>, pid: Id, q: Id)
    requires pid in produtos && q in produtos && q != pid && produtos[q].categoria == produtos[pid].categoria
    requires Some(q) in Compras(E)
    ensures q in ComprasSimilares(produtos, E, pid)
  {
  }

  /** A purchased product of the category that is not recommended sells no more than the last one. */
  lemma RecomendacaoOmitida(produtos: map<Id, Produto>, E: seq<Evento>, pid: Id, limite: nat, q: Id)
    requires pid in produtos && q in produtos && q != pid && produtos[q].categoria == produtos[pid].categoria
    requires Some(q) in Compras(E)
    requires forall j :: 0 <= j < |Recomendacoes(produtos, E, pid, limite)| ==> Recomendacoes(produtos, E, pid, limite)[j].id != q
    ensures var r := Recomendacoes(produtos, E, pid, limite);
      |r| == limite && (limite > 0 ==> Vendas(Compras(E), Some(q)) <= r[|r| - 1].vendas)
  {
    var s := ComprasSimilares(produtos, E, pid);
    var r := Recomendacoes(produtos, E, pid, limite);
    RecomendacoesDoRanking(produtos, E, pid, limite);
    SimilarComprado(produtos, E, pid, q);
    RankingOmitido(s, limite, q);
    RecomendacaoConta(produtos, E, pid, q);
  }

  /** A recommendation's count is the product's number of purchase events. */
  lemma {:induction false} RecomendacaoConta(produtos: map<Id, Produto>, E: seq<Evento>, pid: Id, q: Id)
    requires pid in produtos && q in produtos && q != pid && produtos[q].categoria == produtos[pid].categoria
    ensures Vendas(ComprasSimilares(produtos, E, pid), q) == Vendas(Compras(E), Some(q))
    decreases |E|
  {
    if E != [] {
      RecomendacaoConta(produtos, E[..|E| - 1], pid, q);
    }
  }
}
