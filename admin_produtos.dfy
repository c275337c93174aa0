/** The admin catalogue service (`services/admin/admin_service.py`): adding, updating and deleting
    products, setting stock, and creating and removing promotions. */
module AdminProdutos {
  import opened Common
  import opened Models
  import opened Store
  import AdminPedidos

  /** `CATEGORIAS_VALIDAS` */
  const CategoriasValidas: seq<string> := ["facas", "aventais", "estojos", "churrascos"]

  /** The valid categories are exactly the names the order listing accepts by id. */
  lemma CategoriasConcordam(c: string)
    ensures c in CategoriasValidas <==> exists id :: AdminPedidos.Categoria(id) == Some(c)
  {
    if c in CategoriasValidas {
      var id := if c == "facas" then 1 else if c == "aventais" then 2 else if c == "estojos" then 3 else 4;
      assert AdminPedidos.Categoria(id) == Some(c);
    }
  }

  datatype ProdutoErro =
    | CategoriaInvalida
    | CampoObrigatorio(campo: string)
    | ProdutoNaoEncontrado
    | EstoqueInvalido
    | DescontoInvalido
    | JaEmPromocao
    | PromocaoNaoEncontrada

  /** A request body: `Some` is a key that is present. `descricao` and `img` may be present with
      a null value, hence their inner option. */
  datatype DadosProduto = DadosProduto(
    nome: Option<string>,
    descricao: Option<Option<string>>,
    categoria: Option<string>,
    preco: Option<Fixed2>,
    img: Option<Option<string>>,
    estoque: Option<int>,
    peso: Option<Fixed2>,
    altura: Option<int>,
    largura: Option<int>,
    comprimento: Option<int>)

  /** The required fields of a new product, in the order they are checked. */
  const Obrigatorios: seq<string> := ["nome", "preco", "estoque", "peso", "altura", "largura", "comprimento"]

  /** `data.get(campo) is not None` for a required field. */
  predicate Informado(d: DadosProduto, campo: string) {
    match campo
    case "nome" => d.nome.Some?
    case "preco" => d.preco.Some?
    case "estoque" => d.estoque.Some?
    case "peso" => d.peso.Some?
    case "altura" => d.altura.Some?
    case "largura" => d.largura.Some?
    case "comprimento" => d.comprimento.Some?
    case _ => true
  }

  /** The first of `campos` that is not given, if any. */
  function PrimeiroAusente(d: DadosProduto, campos: seq<string>): (r: Option<string>)
    ensures r.None? <==> forall j :: 0 <= j < |campos| ==> Informado(d, campos[j])
    ensures r.Some? ==> exists j :: 0 <= j < |campos| && campos[j] == r.value && !Informado(d, campos[j])
                          && forall l :: 0 <= l < j ==> Informado(d, campos[l])
    decreases |campos|
  {
    if campos == [] then None
    else if !Informado(d, campos[0]) then Some(campos[0])
    else
      var r := PrimeiroAusente(d, campos[1..]);
      assert forall j :: 0 <= j < |campos| - 1 ==> campos[1..][j] == campos[j + 1];
      if r.Some? then
        var j :| 0 <= j < |campos| - 1 && campos[1..][j] == r.value && !Informado(d, campos[1..][j])
                 && forall l :: 0 <= l < j ==> Informado(d, campos[1..][l]);
        assert campos[j + 1] == r.value;
        r
      else r
  }

  /** The product `adicionar_produto` builds: the given fields, the description if any, and the
      uploaded image's url (None without an upload). */
  function NovoProduto(d: DadosProduto, imagem: Option<string>): (r: Produto)
    requires d.categoria.Some? && PrimeiroAusente(d, Obrigatorios).None?
    ensures r.nome == d.nome.value && r.categoria == d.categoria && r.preco == d.preco.value
    ensures r.estoque == d.estoque.value && r.img == imagem
    ensures r.descricao == (if d.descricao.Some? then d.descricao.value else None)
    ensures r.peso == d.peso && r.altura == d.altura && r.largura == d.largura && r.comprimento == d.comprimento
  {
    assert Informado(d, Obrigatorios[0]) && Informado(d, Obrigatorios[1]) && Informado(d, Obrigatorios[2]);
    assert Informado(d, Obrigatorios[3]) && Informado(d, Obrigatorios[4]) && Informado(d, Obrigatorios[5]);
    assert Informado(d, Obrigatorios[6]);
    Produto(d.nome.value, if d.descricao.Some? then d.descricao.value else None, d.categoria, d.preco.value,
            imagem, d.estoque.value, d.peso, d.altura, d.largura, d.comprimento)
  }

  /** `adicionar_produto`. `novoId` is the fresh uuid and `imagem` the url the image upload
      returned, None when no file was sent. The category is checked first, then the required
      fields in order. */
  method AdicionarProduto(db: Db, d: DadosProduto, imagem: Option<string>, novoId: Id)
    returns (r: Result<Produto, ProdutoErro>)
    requires novoId !in db.produtos
    modifies db`produtos
    ensures r.Err? <==> d.categoria.None? || d.categoria.value !in CategoriasValidas
                        || PrimeiroAusente(d, Obrigatorios).Some?
    ensures r.Err? ==> db.produtos == old(db.produtos)
                       && r.error == (if d.categoria.None? || d.categoria.value !in CategoriasValidas then CategoriaInvalida
                                      else CampoObrigatorio(PrimeiroAusente(d, Obrigatorios).value))
    ensures r.Ok? ==> r.value == NovoProduto(d, imagem) && db.produtos == old(db.produtos)[novoId := r.value]
  {
    if d.categoria.None? || d.categoria.value !in CategoriasValidas {
      return Err(CategoriaInvalida);
    }
    var ausente := PrimeiroAusente(d, Obrigatorios);
    if ausente.Some? {
      return Err(CampoObrigatorio(ausente.value));
    }
    var p := NovoProduto(d, imagem);
    db.produtos := db.produtos[novoId := p];
    r := Ok(p);
  }

  /** `deletar_produto`: an unknown id raises; otherwise exactly that product is removed. */
  method DeletarProduto(db: Db, pid: Id) returns (r: Result<Produto, ProdutoErro>)
    modifies db`produtos
    ensures r.Err? <==> pid !in old(db.produtos)
    ensures r.Err? ==> r.error == ProdutoNaoEncontrado && db.produtos == old(db.produtos)
    ensures r.Ok? ==> r.value == old(db.produtos)[pid] && db.produtos == old(db.produtos) - {pid}
  {
    if pid !in db.produtos {
      return Err(ProdutoNaoEncontrado);
    }
    r := Ok(db.produtos[pid]);
    db.produtos := db.produtos - {pid};
  }

  /** The fields `atualizar_produto` may set, in the order of its loop. */
  datatype Campo = Nome | Descricao | Categoria | Preco | Img | Estoque | Peso | Altura | Largura | Comprimento

  const Editaveis: seq<Campo> := [Nome, Descricao, Categoria, Preco, Img, Estoque, Peso, Altura, Largura, Comprimento]

  /** `if campo in data: setattr(produto, campo, data[campo])` */
  function Aplicar(p: Produto, c: Campo, d: DadosProduto): Produto {
    match c
    case Nome => p.(nome := d.nome.GetOr(p.nome))
    case Descricao => p.(descricao := d.descricao.GetOr(p.descricao))
    case Categoria => p.(categoria := if d.categoria.Some? then d.categoria else p.categoria)
    case Preco => p.(preco := d.preco.GetOr(p.preco))
    case Img => p.(img := d.img.GetOr(p.img))
    case Estoque => p.(estoque := d.estoque.GetOr(p.estoque))
    case Peso => p.(peso := if d.peso.Some? then d.peso else p.peso)
    case Altura => p.(altura := if d.altura.Some? then d.altura else p.altura)
    case Largura => p.(largura := if d.largura.Some? then d.largura else p.largura)
    case Comprimento => p.(comprimento := if d.comprimento.Some? then d.comprimento else p.comprimento)
  }

  /** The loop over `campos`, one `setattr` after another. */
  function AplicarTodos(p: Produto, campos: seq<Campo>, d: DadosProduto): Produto
    decreases |campos|
  {
    if campos == [] then p else AplicarTodos(Aplicar(p, campos[0], d), campos[1..], d)
  }

  /** The product as the request describes it: every present key replaces its field, every
      absent key keeps it. */
  function ProdutoAtualizado(p: Produto, d: DadosProduto): (r: Produto)
    ensures r.nome == d.nome.GetOr(p.nome) && r.descricao == d.descricao.GetOr(p.descricao)
    ensures r.categoria == (if d.categoria.Some? then d.categoria else p.categoria)
    ensures r.preco == d.preco.GetOr(p.preco) && r.img == d.img.GetOr(p.img)
    ensures r.estoque == d.estoque.GetOr(p.estoque)
    ensures r.peso == (if d.peso.Some? then d.peso else p.peso)
    ensures r.altura == (if d.altura.Some? then d.altura else p.altura)
    ensures r.largura == (if d.largura.Some? then d.largura else p.largura)
    ensures r.comprimento == (if d.comprimento.Some? then d.comprimento else p.comprimento)
  {
    Produto(d.nome.GetOr(p.nome), d.descricao.GetOr(p.descricao), if d.categoria.Some? then d.categoria else p.categoria,
            d.preco.GetOr(p.preco), d.img.GetOr(p.img), d.estoque.GetOr(p.estoque),
            if d.peso.Some? then d.peso else p.peso, if d.altura.Some? then d.altura else p.altura,
            if d.largura.Some? then d.largura else p.largura,
            if d.comprimento.Some? then d.comprimento else p.comprimento)
  }

  /** The `setattr` loop over the editable fields yields exactly the described product. */
  lemma LoopDescreveAtualizacao(p: Produto, d: DadosProduto)
    ensures AplicarTodos(p, Editaveis, d) == ProdutoAtualizado(p, d)
  {
    var e := Editaveis;
    var p1 := Aplicar(p, Nome, d);
    var p2 := Aplicar(p1, Descricao, d);
    var p3 := Aplicar(p2, Categoria, d);
    var p4 := Aplicar(p3, Preco, d);
    var p5 := Aplicar(p4, Img, d);
    var p6 := Aplicar(p5, Estoque, d);
    var p7 := Aplicar(p6, Peso, d);
    var p8 := Aplicar(p7, Altura, d);
    var p9 := Aplicar(p8, Largura, d);
    var p10 := Aplicar(p9, Comprimento, d);
    assert AplicarTodos(p, e, d) == AplicarTodos(p1, e[1..], d);
    assert AplicarTodos(p1, e[1..], d) == AplicarTodos(p2, e[2..], d);
    assert AplicarTodos(p2, e[2..], d) == AplicarTodos(p3, e[3..], d);
    assert AplicarTodos(p3, e[3..], d) == AplicarTodos(p4, e[4..], d);
    assert AplicarTodos(p4, e[4..], d) == AplicarTodos(p5, e[5..], d);
    assert AplicarTodos(p5, e[5..], d) == AplicarTodos(p6, e[6..], d);
    assert AplicarTodos(p6, e[6..], d) == AplicarTodos(p7, e[7..], d);
    assert AplicarTodos(p7, e[7..], d) == AplicarTodos(p8, e[8..], d);
    assert AplicarTodos(p8, e[8..], d) == AplicarTodos(p9, e[9..], d);
    assert AplicarTodos(p9, e[9..], d) == AplicarTodos(p10, e[10..], d);
    assert e[10..] == [];
  }

  /** `atualizar_produto`: an unknown id raises, then a present but invalid category raises before
      any field is set; otherwise each editable key present in the request replaces its field. */
  method AtualizarProduto(db: Db, pid: Id, d: DadosProduto) returns (r: Result<Produto, ProdutoErro>)
    modifies db`produtos
    ensures r.Err? <==> pid !in old(db.produtos) || (d.categoria.Some? && d.categoria.value !in CategoriasValidas)
    ensures r.Err? ==> db.produtos == old(db.produtos)
                       && r.error == (if pid !in old(db.produtos) then ProdutoNaoEncontrado else CategoriaInvalida)
    ensures r.Ok? ==> r.value == ProdutoAtualizado(old(db.produtos)[pid], d)
                      && db.produtos == old(db.produtos)[pid := r.value]
  {
    if pid !in db.produtos {
      return Err(ProdutoNaoEncontrado);
    }
    if d.categoria.Some? && d.categoria.value !in CategoriasValidas {
      return Err(CategoriaInvalida);
    }
    var p := db.produtos[pid];
    ghost var p0 := p;
    for i := 0 to |Editaveis|
      invariant AplicarTodos(p, Editaveis[i..], d) == AplicarTodos(p0, Editaveis, d)
    {
      p := Aplicar(p, Editaveis[i], d);
      assert Editaveis[i..][1..] == Editaveis[i + 1..];
    }
    LoopDescreveAtualizacao(p0, d);
    db.produtos := db.produtos[pid := p];
    r := Ok(p);
  }

  /** `atualizar_estoque`. `novoEstoque` is None when the value is not an int, which is rejected
      before the product is looked up; otherwise the stock becomes exactly that value. */
  method AtualizarEstoque(db: Db, pid: Id, novoEstoque: Option<int>) returns (r: Result<Produto, ProdutoErro>)
    modifies db`produtos
    ensures r.Err? <==> novoEstoque.None? || pid !in old(db.produtos)
    ensures r.Err? ==> db.produtos == old(db.produtos)
                       && r.error == (if novoEstoque.None? then EstoqueInvalido else ProdutoNaoEncontrado)
    ensures r.Ok? ==> r.value == old(db.produtos)[pid].(estoque := novoEstoque.value)
                      && db.produtos == old(db.produtos)[pid := r.value]
  {
    if novoEstoque.None? {
      return Err(EstoqueInvalido);
    }
    if pid !in db.produtos {
      return Err(ProdutoNaoEncontrado);
    }
    var p := db.produtos[pid].(estoque := novoEstoque.value);
    db.produtos := db.produtos[pid := p];
    r := Ok(p);
  }

  /** `produto.promocao` is not None: some promotion names the product. */
  predicate EmPromocao(promocoes: map<Id, Promocao>, pid: Id) {
    exists k :: k in promocoes && promocoes[k].produtoId == pid
  }

  /** The one-to-one relationship `produto.promocao` relies on: no product has two promotions. */
  predicate UmaPorProduto(promocoes: map<Id, Promocao>) {
    forall k, l :: k in promocoes && l in promocoes && promocoes[k].produtoId == promocoes[l].produtoId ==> k == l
  }

  /** `criar_promocao`: a discount that is not positive, an unknown product or a product already
      on promotion raise, in that order; otherwise one promotion is added under `novoId`. */
  method CriarPromocao(db: Db, pid: Id, desconto: real, novoId: Id) returns (r: Result<Promocao, ProdutoErro>)
    requires novoId !in db.promocoes
    modifies db`promocoes
    ensures r.Err? <==> desconto <= 0.0 || pid !in old(db.produtos) || EmPromocao(old(db.promocoes), pid)
    ensures r.Err? ==> db.promocoes == old(db.promocoes)
                       && r.error == (if desconto <= 0.0 then DescontoInvalido
                                      else if pid !in old(db.produtos) then ProdutoNaoEncontrado else JaEmPromocao)
    ensures r.Ok? ==> r.value == Promocao(pid, desconto) && db.promocoes == old(db.promocoes)[novoId := r.value]
    ensures UmaPorProduto(old(db.promocoes)) ==> UmaPorProduto(db.promocoes)
  {
    if desconto <= 0.0 {
      return Err(DescontoInvalido);
    }
    if pid !in db.produtos {
      return Err(ProdutoNaoEncontrado);
    }
    if exists k :: k in db.promocoes && db.promocoes[k].produtoId == pid {
      return Err(JaEmPromocao);
    }
    var p := Promocao(pid, desconto);
    db.promocoes := db.promocoes[novoId := p];
    r := Ok(p);
  }

  /** `remover_promocao`: the product's promotion (`.first()` of those naming it) is deleted; a
      product with none raises. */
  method RemoverPromocao(db: Db, pid: Id) returns (r: Result<Promocao, ProdutoErro>)
    modifies db`promocoes
    ensures r.Err? <==> !EmPromocao(old(db.promocoes), pid)
    ensures r.Err? ==> r.error == PromocaoNaoEncontrada && db.promocoes == old(db.promocoes)
    ensures r.Ok? ==> r.value.produtoId == pid
                      && exists k :: k in old(db.promocoes) && old(db.promocoes)[k] == r.value
                                     && db.promocoes == old(db.promocoes) - {k}
    ensures UmaPorProduto(old(db.promocoes)) ==> UmaPorProduto(db.promocoes) && !EmPromocao(db.promocoes, pid)
  {
    if !exists k :: k in db.promocoes && db.promocoes[k].produtoId == pid {
      return Err(PromocaoNaoEncontrada);
    }
    var k :| k in db.promocoes && db.promocoes[k].produtoId == pid;
    r := Ok(db.promocoes[k]);
    db.promocoes := db.promocoes - {k};
  }
}
