/** The in-memory cart of `CarrinhoService` (`services/public/carrinho_service.py`): one list of
    products kept on the class and shared by every caller, and its checkout into a WhatsApp link. */
module Carrinho {
  import opened Common
  import opened Text
  import opened Models

  datatype CarrinhoErro = ProdutoNaoEncontrado | CarrinhoVazio

  /** The number the link is sent to when none is given. */
  const TelefonePadrao: string := "555492205166"

  const Cabecalho: string := "Olá! Quero comprar:\n"

  /** `f"- {p.nome} (R${p.preco})\n"` */
  function Linha(p: Produto): string {
    "- " + p.nome + " (R$" + DecimalText(p.preco) + ")\n"
  }

  /** The lines of the products, in cart order. */
  function Linhas(S: seq<Produto>): string
    decreases |S|
  {
    if S == [] then "" else Linhas(S[..|S| - 1]) + Linha(S[|S| - 1])
  }

  /** The message `finalizar` builds: the header and one line per product. */
  function Mensagem(S: seq<Produto>): string {
    Cabecalho + Linhas(S)
  }

  /** The loop of `finalizar` that builds the message, one line per product after the header. */
  method MontarMensagem(S: seq<Produto>) returns (mensagem: string)
    ensures mensagem == Mensagem(S)
  {
    mensagem := Cabecalho;
    assert S[..0] == [];
    for i := 0 to |S|
      invariant mensagem == Mensagem(S[..i])
    {
      MensagemMais(S, i);
      mensagem := mensagem + Linha(S[i]);
    }
    assert S[..|S|] == S;
  }

  /** One more product adds its line at the end of the message. */
  lemma MensagemMais(S: seq<Produto>, i: int)
    requires 0 <= i < |S|
    ensures Mensagem(S[..i + 1]) == Mensagem(S[..i]) + Linha(S[i])
  {
    assert S[..i + 1][..i] == S[..i];
  }

  /** The link `finalizar` returns for a phone number and a message. */
  function Link(telefone: string, mensagem: string): (r: string)
    ensures IsPrefix("https://wa.me/", r)
  {
    "https://wa.me/" + telefone + "?text=" + EncodeSpaces(mensagem)
  }

  /** The lines of two carts put together are the lines of one, then of the other. */
  lemma {:induction false} LinhasConcat(a: seq<Produto>, b: seq<Produto>)
    ensures Linhas(a + b) == Linhas(a) + Linhas(b)
    decreases |b|
  {
    if b != [] {
      var b' := b[..|b| - 1];
      LinhasUltimo(a, b);
      LinhasConcat(a, b');
      Associa(Linhas(a), Linhas(b'), Linha(b[|b| - 1]));
    } else {
      assert a + b == a;
    }
  }

  /** One step of `Linhas` on a cart put together from two. */
  lemma LinhasUltimo(a: seq<Produto>, b: seq<Produto>)
    requires b != []
    ensures Linhas(a + b) == Linhas(a + b[..|b| - 1]) + Linha(b[|b| - 1])
  {
    assert (a + b)[..|a + b| - 1] == a + b[..|b| - 1];
  }

  lemma Associa(p: string, q: string, r: string)
    ensures (p + q) + r == p + (q + r)
  {
  }

  /** How many times `c` occurs in `s`. */
  function Ocorrencias(s: string, c: char): nat
    decreases |s|
  {
    if s == [] then 0 else Ocorrencias(s[..|s| - 1], c) + (if s[|s| - 1] == c then 1 else 0)
  }

  lemma {:induction false} OcorrenciasConcat(s: string, t: string, c: char)
    ensures Ocorrencias(s + t, c) == Ocorrencias(s, c) + Ocorrencias(t, c)
    decreases |t|
  {
    if t != [] {
      var t' := t[..|t| - 1];
      assert (s + t)[..|s + t| - 1] == s + t' && (s + t)[|s + t| - 1] == t[|t| - 1];
      OcorrenciasConcat(s, t', c);
    } else {
      assert s + t == s;
    }
  }

  lemma {:induction false} OcorrenciasAusente(s: string, c: char)
    requires c !in s
    ensures Ocorrencias(s, c) == 0
    decreases |s|
  {
    if s != [] {
      assert c !in s[..|s| - 1];
      OcorrenciasAusente(s[..|s| - 1], c);
    }
  }

  /** Each product contributes exactly one line break when its name has none. */
  lemma LinhaUmaQuebra(p: Produto)
    requires '\n' !in p.nome
    ensures Ocorrencias(Linha(p), '\n') == 1
  {
    var a := if p.preco < 0 then -p.preco else p.preco;
    var n := NatToString(a / 100);
    assert '\n' !in n by {
      forall i | 0 <= i < |n| ensures n[i] != '\n' { assert IsDigit(n[i]); }
    }
    var preco := DecimalText(p.preco);
    assert preco == (if p.preco < 0 then "-" else "") + n + "." + [DigitChar(a % 100 / 10), DigitChar(a % 10)];
    assert '\n' !in preco;
    var semQuebra := "- " + p.nome + " (R$" + preco + ")";
    assert '\n' !in semQuebra;
    assert Linha(p) == semQuebra + "\n";
    OcorrenciasConcat(semQuebra, "\n", '\n');
    OcorrenciasAusente(semQuebra, '\n');
    assert Ocorrencias("\n", '\n') == Ocorrencias("", '\n') + 1;
  }

  /** The message has one line per cart entry after its header: as many line breaks as products,
      plus the header's. */
  lemma {:induction false} UmaLinhaPorProduto(S: seq<Produto>)
    requires forall j :: 0 <= j < |S| ==> '\n' !in S[j].nome
    ensures Ocorrencias(Linhas(S), '\n') == |S|
    decreases |S|
  {
    if S != [] {
      UmaLinhaPorProduto(S[..|S| - 1]);
      LinhaUmaQuebra(S[|S| - 1]);
      OcorrenciasConcat(Linhas(S[..|S| - 1]), Linha(S[|S| - 1]), '\n');
    }
  }

  /** The link holds no space when the phone number holds none: every space of the message is sent
      as "%20". */
  lemma LinkSemEspacos(telefone: string, mensagem: string)
    requires ' ' !in telefone
    ensures ' ' !in Link(telefone, mensagem)
  {
    var r := Link(telefone, mensagem);
    assert "https://wa.me/"[6] == '/';
    assert forall i :: 0 <= i < |"https://wa.me/"| ==> "https://wa.me/"[i] != ' ';
    assert forall i :: 0 <= i < |"?text="| ==> "?text="[i] != ' ';
  }

  /** The shared cart. */
  class Carrinho {
    var itens: seq<Produto>

    /** An empty cart, as the class attribute starts. */
    constructor ()
      ensures itens == []
    {
      itens := [];
    }

    /** `adicionar`: an unknown product raises and leaves the cart as it was; otherwise the product
        is appended and the whole cart returned. */
    method Adicionar(produtos: map<Id, Produto>, pid: Id) returns (r: Result<seq<Produto>, CarrinhoErro>)
      modifies this
      ensures r.Err? <==> pid !in produtos
      ensures r.Err? ==> r.error == ProdutoNaoEncontrado && itens == old(itens)
      ensures r.Ok? ==> itens == old(itens) + [produtos[pid]] && r.value == itens
    {
      if pid !in produtos {
        return Err(ProdutoNaoEncontrado);
      }
      itens := itens + [produtos[pid]];
      r := Ok(itens);
    }

    /** `listar` */
    method Listar() returns (r: seq<Produto>)
      ensures r == itens
    {
      r := itens;
    }

    /** `limpar` */
    method Limpar()
      modifies this
      ensures itens == []
    {
      itens := [];
    }

    /** `finalizar`. `telefone` is None when the caller passes none. An empty cart raises and is
        left as it was; otherwise the message lists the cart, the cart is emptied and the link is
        returned. */
    method Finalizar(telefone: Option<string>) returns (r: Result<string, CarrinhoErro>)
      modifies this
      ensures r.Err? <==> old(itens) == []
      ensures r.Err? ==> r.error == CarrinhoVazio && itens == old(itens)
      ensures r.Ok? ==> r.value == Link(telefone.GetOr(TelefonePadrao), Mensagem(old(itens))) && itens == []
    {
      if itens == [] {
        return Err(CarrinhoVazio);
      }
      var mensagem := MontarMensagem(itens);
      var link := Link(telefone.GetOr(TelefonePadrao), mensagem);
      Limpar();
      r := Ok(link);
    }
  }
}
