/** The Melhor Envio carrier integration (`services/public/melhor_envio_service.py`): cleaning postal
    codes, validating a quote request, aggregating several items into one package, finding a
    carrier service by name in a quote, and building the cart request for an order. The HTTP calls
    are left out: a quote's response is an input, and the functions return the request bodies. */
module MelhorEnvio {
  import opened Common
  import opened Text
  import opened Models

  /** `_only_digits(s)`: None for a falsy input, otherwise its digits. */
  function OnlyDigits(s: Option<string>): (r: Option<string>)
    ensures r.None? <==> !Truthy(s)
    ensures r.Some? ==> r.value == Digits(s.value)
  {
    if !Truthy(s) then None else Some(Digits(s.value))
  }

  /** `str(x)` of an optional string: None prints as "None". */
  function PyStr(s: Option<string>): string {
    if s.Some? then s.value else "None"
  }

  /** `int(x)` of a float. */
  function Trunc(x: real): int {
    if x >= 0.0 then x.Floor else -((-x).Floor)
  }

  /** `int(x)` truncates toward zero: it is the integer next to `x` on the side of 0. */
  lemma TruncParaZero(x: real)
    ensures x >= 0.0 ==> Trunc(x) as real <= x < Trunc(x) as real + 1.0
    ensures x < 0.0 ==> Trunc(x) as real - 1.0 < x <= Trunc(x) as real
  {
  }

  /** Truncation toward zero keeps order. */
  lemma TruncMonotone(x: real, y: real)
    requires x <= y
    ensures Trunc(x) <= Trunc(y)
  {
  }

  /** The weight in kilograms: values above 50 are taken as grams. */
  function Kg(weight: real): real {
    if weight > 50.0 then weight / 1000.0 else weight
  }

  /** The package of a quote request (`payload["package"]` with the two postal codes). */
  datatype Pacote = Pacote(fromCep: string, toCep: string, weight: real, height: int, width: int, length: int)

  datatype FreteErro =
    | CepsInvalidos
    | PesoMuitoBaixo
    | PesoExcedeLimite
    | DimensoesInvalidas
    | SomaDimensoesExcede

  /** A postal code is accepted when its text has exactly eight digits. */
  predicate CepValido(c: Option<string>) {
    var d := OnlyDigits(Some(PyStr(c)));
    d.Some? && d.value != "" && |d.value| == 8
  }

  /** `calcular_frete` up to the HTTP call: the validated request, or the first error. */
  function CalcularFrete(from: Option<string>, to: Option<string>, weight: real, height: real, width: real,
                         length: real): (r: Result<Pacote, FreteErro>)
    ensures r.Ok? <==>
      && CepValido(from) && CepValido(to)
      && 0.001 <= Kg(weight) <= 30.0
      && Trunc(height) >= 1 && Trunc(width) >= 1 && Trunc(length) >= 1
      && Trunc(height) + Trunc(width) + Trunc(length) <= 200
    ensures !(CepValido(from) && CepValido(to)) ==> r == Err(CepsInvalidos)
    ensures r.Ok? ==> r.value == Pacote(Digits(PyStr(from)), Digits(PyStr(to)), Kg(weight),
                                        Trunc(height), Trunc(width), Trunc(length))
    ensures r.Ok? ==> |r.value.fromCep| == 8 && |r.value.toCep| == 8
  {
    var fromCep := OnlyDigits(Some(PyStr(from)));
    var toCep := OnlyDigits(Some(PyStr(to)));
    if fromCep.None? || fromCep.value == "" || |fromCep.value| != 8
       || toCep.None? || toCep.value == "" || |toCep.value| != 8 then Err(CepsInvalidos)
    else
      var kg := Kg(weight);
      var h, w, l := Trunc(height), Trunc(width), Trunc(length);
      if kg < 0.001 then Err(PesoMuitoBaixo)
      else if kg > 30.0 then Err(PesoExcedeLimite)
      else if h < 1 || w < 1 || l < 1 then Err(DimensoesInvalidas)
      else if h + w + l > 200 then Err(SomaDimensoesExcede)
      else Ok(Pacote(fromCep.value, toCep.value, kg, h, w, l))
  }

  /** The weights a quote accepts: 0.001 to 30 read as kilograms, or above 50 up to 30000 read as
      grams; a weight above 30 and up to 50 is refused. */
  lemma PesoAceito(weight: real)
    ensures 0.001 <= Kg(weight) <= 30.0 <==> (0.001 <= weight <= 30.0 || 50.0 < weight <= 30000.0)
  {
  }

  /** One item of a multi-item quote: `{peso, altura, largura, comprimento, quantidade}`. */
  datatype ItemFrete = ItemFrete(peso: real, altura: real, largura: real, comprimento: real, quantidade: int)

  /** `item["peso"] * item["quantidade"]` */
  function PesoItem(it: ItemFrete): real {
    it.peso * it.quantidade as real
  }

  /** `sum(item["peso"] * item["quantidade"] for item in itens)` */
  function PesoTotal(itens: seq<ItemFrete>): real
    decreases |itens|
  {
    if itens == [] then 0.0 else PesoTotal(itens[..|itens| - 1]) + PesoItem(itens[|itens| - 1])
  }

  /** The total weight of a concatenation is the sum of the totals. */
  lemma {:induction false} PesoTotalConcat(a: seq<ItemFrete>, b: seq<ItemFrete>)
    ensures PesoTotal(a + b) == PesoTotal(a) + PesoTotal(b)
    decreases |b|
  {
    if b != [] {
      var n := |b|;
      assert (a + b)[..|a + b| - 1] == a + b[..n - 1];
      PesoTotalConcat(a, b[..n - 1]);
    } else {
      assert a + b == a;
    }
  }

  /** Taking item `k` out of a list takes its weight out of the total. */
  lemma {:induction false} RemoverItem(b: seq<ItemFrete>, k: int)
    requires 0 <= k < |b|
    ensures PesoTotal(b) == PesoTotal(b[..k] + b[k + 1..]) + PesoItem(b[k])
    decreases |b|
  {
    var n := |b|;
    if k == n - 1 {
      assert b[..k] + b[k + 1..] == b[..n - 1];
    } else {
      var b' := b[..n - 1];
      RemoverItem(b', k);
      var c, c' := b[..k] + b[k + 1..], b'[..k] + b'[k + 1..];
      assert c[..|c| - 1] == c';
      assert c[|c| - 1] == b[n - 1];
    }
  }

  /** Taking element `k` out of a list takes one copy of it out of its multiset. */
  lemma RemoverItemMultiset<T>(b: seq<T>, k: int)
    requires 0 <= k < |b|
    ensures multiset(b[..k] + b[k + 1..]) == multiset(b) - multiset{b[k]}
  {
    assert b == b[..k] + [b[k]] + b[k + 1..];
  }

  /** The total weight does not depend on the order of the items. */
  lemma {:induction false} PesoTotalPermutacao(a: seq<ItemFrete>, b: seq<ItemFrete>)
    requires multiset(a) == multiset(b)
    ensures PesoTotal(a) == PesoTotal(b)
    decreases |a|
  {
    if a != [] {
      var n := |a|;
      var x := a[n - 1];
      assert a == a[..n - 1] + [x];
      assert multiset(a[..n - 1]) == multiset(a) - multiset{x};
      assert x in multiset(b);
      var k :| 0 <= k < |b| && b[k] == x;
      RemoverItem(b, k);
      RemoverItemMultiset(b, k);
      PesoTotalPermutacao(a[..n - 1], b[..k] + b[k + 1..]);
    } else {
      assert |b| == |multiset(b)|;
    }
  }

  /** `max(xs)` of a non-empty sequence. */
  function Max(xs: seq<real>): real
    requires xs != []
    decreases |xs|
  {
    if |xs| == 1 then xs[0]
    else
      var m := Max(xs[..|xs| - 1]);
      if xs[|xs| - 1] > m then xs[|xs| - 1] else m
  }

  /** `max(xs)` is one of the elements, and no element exceeds it. */
  lemma {:induction false} MaxMaximo(xs: seq<real>)
    requires xs != []
    ensures exists k :: 0 <= k < |xs| && Max(xs) == xs[k]
    ensures forall i :: 0 <= i < |xs| ==> xs[i] <= Max(xs)
    decreases |xs|
  {
    if |xs| > 1 {
      var n := |xs|;
      var xs' := xs[..n - 1];
      MaxMaximo(xs');
      var k :| 0 <= k < |xs'| && Max(xs') == xs'[k];
      assert forall i :: 0 <= i < n - 1 ==> xs'[i] == xs[i];
      if xs[n - 1] > Max(xs') {
        assert Max(xs) == xs[n - 1];
      } else {
        assert Max(xs) == xs[k];
      }
    } else {
      assert Max(xs) == xs[0];
    }
  }

  function Alturas(itens: seq<ItemFrete>): (r: seq<real>)
    ensures |r| == |itens| && forall i :: 0 <= i < |itens| ==> r[i] == itens[i].altura
  {
    seq(|itens|, i requires 0 <= i < |itens| => itens[i].altura)
  }

  function Larguras(itens: seq<ItemFrete>): (r: seq<real>)
    ensures |r| == |itens| && forall i :: 0 <= i < |itens| ==> r[i] == itens[i].largura
  {
    seq(|itens|, i requires 0 <= i < |itens| => itens[i].largura)
  }

  function Comprimentos(itens: seq<ItemFrete>): (r: seq<real>)
    ensures |r| == |itens| && forall i :: 0 <= i < |itens| ==> r[i] == itens[i].comprimento
  {
    seq(|itens|, i requires 0 <= i < |itens| => itens[i].comprimento)
  }

  datatype FretePedidoErro = SemItens | Frete(e: FreteErro)

  /** `max(int(x) for x in xs)` is `int(max(xs))`: truncation of the largest is the largest
      truncation. */
  lemma MaxTrunc(xs: seq<real>) returns (k: int)
    requires xs != []
    ensures 0 <= k < |xs| && Max(xs) == xs[k]
    ensures forall i :: 0 <= i < |xs| ==> Trunc(xs[i]) <= Trunc(Max(xs))
  {
    MaxMaximo(xs);
    k :| 0 <= k < |xs| && Max(xs) == xs[k];
    forall i | 0 <= i < |xs|
      ensures Trunc(xs[i]) <= Trunc(Max(xs))
    {
      TruncMonotone(xs[i], Max(xs));
    }
  }

  /** `calcular_frete_pedido`: one package with the summed weight and, per dimension, the largest
      item's; an empty list fails in `max`. */
  function CalcularFretePedido(origem: Option<string>, destino: Option<string>, itens: seq<ItemFrete>)
    : (r: Result<Pacote, FretePedidoErro>)
    ensures itens == [] <==> r == Err(SemItens)
    ensures itens != [] ==>
      var q := CalcularFrete(origem, destino, PesoTotal(itens), Max(Alturas(itens)), Max(Larguras(itens)),
                             Max(Comprimentos(itens)));
      && (r.Ok? <==> q.Ok?)
      && (q.Ok? ==> r.value == q.value)
      && (q.Err? ==> r == Err(Frete(q.error)))
  {
    if itens == [] then Err(SemItens)
    else match CalcularFrete(origem, destino, PesoTotal(itens), Max(Alturas(itens)), Max(Larguras(itens)),
                             Max(Comprimentos(itens)))
      case Err(e) => Err(Frete(e))
      case Ok(p) => Ok(p)
  }

  /** Per dimension, the largest measure truncated is some item's truncated measure, and no item's
      truncated measure exceeds it. */
  lemma DimensoesMaximas(itens: seq<ItemFrete>)
    requires itens != []
    ensures exists i :: 0 <= i < |itens| && Trunc(Max(Alturas(itens))) == Trunc(itens[i].altura)
    ensures exists i :: 0 <= i < |itens| && Trunc(Max(Larguras(itens))) == Trunc(itens[i].largura)
    ensures exists i :: 0 <= i < |itens| && Trunc(Max(Comprimentos(itens))) == Trunc(itens[i].comprimento)
    ensures forall i :: 0 <= i < |itens| ==>
      && Trunc(itens[i].altura) <= Trunc(Max(Alturas(itens)))
      && Trunc(itens[i].largura) <= Trunc(Max(Larguras(itens)))
      && Trunc(itens[i].comprimento) <= Trunc(Max(Comprimentos(itens)))
  {
    var ka := MaxTrunc(Alturas(itens));
    var kl := MaxTrunc(Larguras(itens));
    var kc := MaxTrunc(Comprimentos(itens));
    forall i | 0 <= i < |itens|
      ensures && Trunc(itens[i].altura) <= Trunc(Max(Alturas(itens)))
              && Trunc(itens[i].largura) <= Trunc(Max(Larguras(itens)))
              && Trunc(itens[i].comprimento) <= Trunc(Max(Comprimentos(itens)))
    {
      assert Alturas(itens)[i] == itens[i].altura;
      assert Larguras(itens)[i] == itens[i].largura;
      assert Comprimentos(itens)[i] == itens[i].comprimento;
    }
  }

  /** An accepted multi-item quote is one package carrying the total weight and, per dimension,
      the largest item's measure, truncated: some item has it and none exceeds it. */
  lemma PacoteAgrega(origem: Option<string>, destino: Option<string>, itens: seq<ItemFrete>)
    requires CalcularFretePedido(origem, destino, itens).Ok?
    ensures itens != []
    ensures var p := CalcularFretePedido(origem, destino, itens).value;
      && p.weight == Kg(PesoTotal(itens))
      && p.height == Trunc(Max(Alturas(itens))) && p.width == Trunc(Max(Larguras(itens)))
      && p.length == Trunc(Max(Comprimentos(itens)))
    ensures var p := CalcularFretePedido(origem, destino, itens).value;
      && (exists i :: 0 <= i < |itens| && p.height == Trunc(itens[i].altura))
      && (exists i :: 0 <= i < |itens| && p.width == Trunc(itens[i].largura))
      && (exists i :: 0 <= i < |itens| && p.length == Trunc(itens[i].comprimento))
      && forall i :: 0 <= i < |itens| ==>
           Trunc(itens[i].altura) <= p.height && Trunc(itens[i].largura) <= p.width
           && Trunc(itens[i].comprimento) <= p.length
  {
    DimensoesMaximas(itens);
  }

  /** One service of a quote response: `{"id": ..., "name": ..., "price": ..., "delivery_time": ...,
      "company": {"name": ...}, "delivery_range": {"min": ..., "max": ...}}`. */
  datatype OpcaoApi = OpcaoApi(
    id: Option<int>,
    name: Option<string>,
    price: Option<real>,
    deliveryTime: Option<int>,
    companyName: Option<string>,
    prazoMin: Option<int>,
    prazoMax: Option<int>)

  /** The option's upper-cased name contains the (already trimmed, upper-cased) target. */
  predicate Casa(alvo: string, o: OpcaoApi) {
    Contains(Upper(o.name.GetOr("")), alvo)
  }

  /** The position of the first option whose name matches, if any. */
  function PrimeiroServico(alvo: string, opcoes: seq<OpcaoApi>): (r: Option<nat>)
    ensures r.Some? ==> r.value < |opcoes| && Casa(alvo, opcoes[r.value])
                        && forall j :: 0 <= j < r.value ==> !Casa(alvo, opcoes[j])
    ensures r.None? ==> forall j :: 0 <= j < |opcoes| ==> !Casa(alvo, opcoes[j])
  {
    if opcoes == [] then None
    else if Casa(alvo, opcoes[0]) then Some(0)
    else match PrimeiroServico(alvo, opcoes[1..])
      case None => None
      case Some(i) => Some(i + 1)
  }

  datatype ServicoErro =
    /** `nome_servico` is None, which has no `strip`. */
    | NomeAusente
    | ServicoNaoEncontrado(nome: string)
      /** `opcao["id"]` on a matching option without an id. */
    | IdAusente

  /** Option `i` is the first one whose name matches. */
  predicate PrimeiraCasa(alvo: string, opcoes: seq<OpcaoApi>, i: int) {
    0 <= i < |opcoes| && Casa(alvo, opcoes[i]) && forall j :: 0 <= j < i ==> !Casa(alvo, opcoes[j])
  }

  /** `obter_id_servico_por_nome`: the id of the first option whose upper-cased name contains the
      trimmed, upper-cased requested name; `opcao["id"]` fails on a first match without one. */
  function ObterIdServico(nome: Option<string>, opcoes: seq<OpcaoApi>): (r: Result<int, ServicoErro>)
    ensures nome.None? ==> r == Err(NomeAusente)
    ensures nome.Some? ==>
      var alvo := Upper(Strip(nome.value));
      && (r == Err(ServicoNaoEncontrado(alvo)) <==> forall j :: 0 <= j < |opcoes| ==> !Casa(alvo, opcoes[j]))
      && (r == Err(IdAusente) <==> exists i :: PrimeiraCasa(alvo, opcoes, i) && opcoes[i].id.None?)
      && (r.Ok? <==> exists i :: PrimeiraCasa(alvo, opcoes, i) && opcoes[i].id.Some?)
      && (forall i :: PrimeiraCasa(alvo, opcoes, i) && opcoes[i].id.Some? ==> r == Ok(opcoes[i].id.value))
  {
    if nome.None? then Err(NomeAusente)
    else
      var alvo := Upper(Strip(nome.value));
      match PrimeiroServico(alvo, opcoes)
      case None => Err(ServicoNaoEncontrado(alvo))
      case Some(i) =>
        PrimeiraCasaUnica(alvo, opcoes, i);
        if opcoes[i].id.None? then Err(IdAusente) else Ok(opcoes[i].id.value)
  }

  /** There is only one first match. */
  lemma PrimeiraCasaUnica(alvo: string, opcoes: seq<OpcaoApi>, i: int)
    requires PrimeiraCasa(alvo, opcoes, i)
    ensures forall k :: PrimeiraCasa(alvo, opcoes, k) ==> k == i
  {
    forall k | PrimeiraCasa(alvo, opcoes, k)
      ensures k == i
    {
      assert !(k < i) && !(i < k);
    }
  }

  /** A blank requested name matches every option, so it selects the first one. */
  lemma NomeVazioEscolheOPrimeiro(opcoes: seq<OpcaoApi>)
    requires opcoes != [] && opcoes[0].id.Some?
    ensures ObterIdServico(Some(" "), opcoes) == Ok(opcoes[0].id.value)
  {
    assert Strip(" ") == "";
    assert Upper("") == "";
    assert IsPrefix("", Upper(opcoes[0].name.GetOr("")));
  }

  /** The single volume of a cart request. */
  datatype Volume = Volume(weight: real, length: int, height: int, width: int)

  /** The recipient part of a cart request. */
  datatype Destinatario = Destinatario(
    postalCode: Option<string>,
    street: string,
    number: string,
    complement: string,
    neighborhood: string,
    city: string,
    state: string,
    name: string,
    phone: Option<string>,
    document: Option<string>)

  /** The body of the cart request. */
  datatype PedidoCarrinho = PedidoCarrinho(
    fromPostalCode: Option<string>,
    to: Destinatario,
    volumes: seq<Volume>,
    services: seq<int>)

  datatype CarrinhoErro =
    /** An item without weight or a dimension: arithmetic on None raises `TypeError`. */
    | MedidaAusente
    | PedidoSemItens
    | Cotacao(e: FreteErro)
    | Servico(se: ServicoErro)
    | CpfNaoEncontrado

  function ParaReal(v: Fixed2): real {
    v as real / 100.0
  }

  predicate TemMedidas(i: ItemPedido) {
    i.peso.Some? && i.altura.Some? && i.largura.Some? && i.comprimento.Some?
  }

  /** An order row as a quote item, in reals. */
  function ItemDeLinha(i: ItemPedido): ItemFrete
    requires TemMedidas(i)
  {
    ItemFrete(ParaReal(i.peso.value), ParaReal(i.altura.value), ParaReal(i.largura.value),
              ParaReal(i.comprimento.value), i.quantidade)
  }

  function ItensFrete(itens: seq<ItemPedido>): (r: seq<ItemFrete>)
    requires forall i :: 0 <= i < |itens| ==> TemMedidas(itens[i])
    ensures |r| == |itens| && forall i :: 0 <= i < |itens| ==> r[i] == ItemDeLinha(itens[i])
  {
    seq(|itens|, i requires 0 <= i < |itens| => ItemDeLinha(itens[i]))
  }

  /** Every order row carries a weight and the three dimensions. */
  predicate Medidas(itens: seq<ItemPedido>) {
    forall i :: 0 <= i < |itens| ==> TemMedidas(itens[i])
  }

  /** `getattr(pedido.endereco, "cep", None)` */
  function CepDoEndereco(endereco: Option<Endereco>): Option<string> {
    if endereco.Some? then Some(endereco.value.cep) else None
  }

  /** The quote `criar_pedido_melhor_envio` asks for: the total weight and, per dimension, the
      largest truncated measure. */
  function CotacaoDoPedido(empresaCep: Option<string>, toCep: Option<string>, fi: seq<ItemFrete>)
    : Result<Pacote, FreteErro>
    requires fi != []
  {
    CalcularFrete(empresaCep, toCep, PesoTotal(fi), Trunc(Max(Alturas(fi))) as real,
                  Trunc(Max(Larguras(fi))) as real, Trunc(Max(Comprimentos(fi))) as real)
  }

  /** `criar_pedido_melhor_envio` up to the HTTP call. The order's address, item rows, carrier name
      and user are given; `cotacao` is the quote response and `cpfLido` what the user's `cpf`
      property yields; `decifrar` is `descriptografar_cpf`. The steps fail in order: a missing
      measure, no items, the quote's validation, the service lookup, the CPF. The result is the
      cart request: one volume holding every item, and one service. */
  function CriarPedidoCarrinho(empresaCep: Option<string>, endereco: Option<Endereco>, itens: seq<ItemPedido>,
                               freteTipo: Option<string>, usuario: Option<Usuario>, cpfLido: Option<string>,
                               cotacao: seq<OpcaoApi>, decifrar: string -> string)
    : (r: Result<PedidoCarrinho, CarrinhoErro>)
    ensures r == Err(MedidaAusente) <==> !Medidas(itens)
    ensures Medidas(itens) ==> (r == Err(PedidoSemItens) <==> itens == [])
    ensures Medidas(itens) && itens != [] ==>
      var q := CotacaoDoPedido(empresaCep, CepDoEndereco(endereco), ItensFrete(itens));
      var sv := ObterIdServico(freteTipo, cotacao);
      && (q.Err? ==> r == Err(Cotacao(q.error)))
      && (q.Ok? && sv.Err? ==> r == Err(Servico(sv.error)))
      && (q.Ok? && sv.Ok? ==> (r == Err(CpfNaoEncontrado) <==> usuario.None? || !Truthy(cpfLido)))
      && (r.Ok? <==> q.Ok? && sv.Ok? && usuario.Some? && Truthy(cpfLido))
    ensures r.Ok? ==>
      var fi := ItensFrete(itens);
      var c := r.value;
      && Medidas(itens) && itens != [] && usuario.Some? && Truthy(cpfLido)
      && c.volumes == [Volume(PesoTotal(fi) / 1000.0, Trunc(Max(Comprimentos(fi))), Trunc(Max(Alturas(fi))),
                              Trunc(Max(Larguras(fi))))]
      && c.services == [ObterIdServico(freteTipo, cotacao).value]
      && c.fromPostalCode == OnlyDigits(empresaCep)
      && c.to.postalCode == OnlyDigits(CepDoEndereco(endereco))
      && c.to.name == Strip(usuario.value.nome + " " + usuario.value.sobrenome)
      && c.to.document == OnlyDigits(Some(decifrar(cpfLido.value)))
  {
    if !Medidas(itens) then Err(MedidaAusente)
    else if itens == [] then Err(PedidoSemItens)
    else CarrinhoCotado(empresaCep, endereco, ItensFrete(itens), freteTipo, usuario, cpfLido, cotacao, decifrar)
  }

  /** The part of `criar_pedido_melhor_envio` after the items were read as quote items `fi`. */
  function CarrinhoCotado(empresaCep: Option<string>, endereco: Option<Endereco>, fi: seq<ItemFrete>,
                          freteTipo: Option<string>, usuario: Option<Usuario>, cpfLido: Option<string>,
                          cotacao: seq<OpcaoApi>, decifrar: string -> string)
    : (r: Result<PedidoCarrinho, CarrinhoErro>)
    requires fi != []
    ensures
      var q := CotacaoDoPedido(empresaCep, CepDoEndereco(endereco), fi);
      var sv := ObterIdServico(freteTipo, cotacao);
      && (q.Err? ==> r == Err(Cotacao(q.error)))
      && (q.Ok? && sv.Err? ==> r == Err(Servico(sv.error)))
      && (q.Ok? && sv.Ok? ==> (r == Err(CpfNaoEncontrado) <==> usuario.None? || !Truthy(cpfLido)))
      && (r.Ok? <==> q.Ok? && sv.Ok? && usuario.Some? && Truthy(cpfLido))
    ensures r.Ok? ==>
      && usuario.Some? && Truthy(cpfLido)
      && r.value == Carrinho(empresaCep, endereco, fi, ObterIdServico(freteTipo, cotacao).value, usuario.value,
                             decifrar(cpfLido.value))
  {
    match CotacaoDoPedido(empresaCep, CepDoEndereco(endereco), fi)
    case Err(e) => Err(Cotacao(e))
    case Ok(_) =>
      match ObterIdServico(freteTipo, cotacao)
      case Err(e) => Err(Servico(e))
      case Ok(servico) =>
        if usuario.None? || !Truthy(cpfLido) then Err(CpfNaoEncontrado)
        else Ok(Carrinho(empresaCep, endereco, fi, servico, usuario.value, decifrar(cpfLido.value)))
  }

  /** The cart request body: the addresses, the recipient, one volume and one service. */
  function Carrinho(empresaCep: Option<string>, endereco: Option<Endereco>, fi: seq<ItemFrete>, servico: int,
                    u: Usuario, cpf: string): (c: PedidoCarrinho)
    requires fi != []
    ensures c.volumes == [Volume(PesoTotal(fi) / 1000.0, Trunc(Max(Comprimentos(fi))), Trunc(Max(Alturas(fi))),
                                 Trunc(Max(Larguras(fi))))]
    ensures c.services == [servico]
    ensures c.fromPostalCode == OnlyDigits(empresaCep)
    ensures c.to.postalCode == OnlyDigits(CepDoEndereco(endereco))
    ensures c.to.name == Strip(u.nome + " " + u.sobrenome)
    ensures c.to.document == OnlyDigits(Some(cpf))
  {
    var volume := Volume(PesoTotal(fi) / 1000.0, Trunc(Max(Comprimentos(fi))), Trunc(Max(Alturas(fi))),
                         Trunc(Max(Larguras(fi))));
    var dest := Destinatario(
      OnlyDigits(CepDoEndereco(endereco)),
      if endereco.Some? then endereco.value.logradouro else "",
      if endereco.Some? then endereco.value.numero else "",
      if endereco.Some? then OrElse(endereco.value.complemento, "") else "",
      if endereco.Some? then endereco.value.bairro else "",
      if endereco.Some? then endereco.value.cidade else "",
      if endereco.Some? then endereco.value.estado else "",
      Strip(u.nome + " " + u.sobrenome),
      OnlyDigits(Some(OrElse(u.telefone, ""))),
      OnlyDigits(Some(cpf)));
    PedidoCarrinho(OnlyDigits(empresaCep), dest, [volume], [servico])
  }

  /** The single volume of a cart request has the items' total weight divided by 1000 and, per
      dimension, the largest item's measure, truncated: some row has it and none exceeds it. */
  lemma CarrinhoForma(empresaCep: Option<string>, endereco: Option<Endereco>, itens: seq<ItemPedido>,
                      freteTipo: Option<string>, usuario: Option<Usuario>, cpfLido: Option<string>,
                      cotacao: seq<OpcaoApi>, decifrar: string -> string)
    requires CriarPedidoCarrinho(empresaCep, endereco, itens, freteTipo, usuario, cpfLido, cotacao, decifrar).Ok?
    ensures Medidas(itens) && itens != []
    ensures var v := CriarPedidoCarrinho(empresaCep, endereco, itens, freteTipo, usuario, cpfLido, cotacao, decifrar).value.volumes[0];
      && v.weight == PesoTotal(ItensFrete(itens)) / 1000.0
      && (exists i :: 0 <= i < |itens| && v.height == Trunc(ParaReal(itens[i].altura.value)))
      && (exists i :: 0 <= i < |itens| && v.width == Trunc(ParaReal(itens[i].largura.value)))
      && (exists i :: 0 <= i < |itens| && v.length == Trunc(ParaReal(itens[i].comprimento.value)))
      && (forall i :: 0 <= i < |itens| ==>
            Trunc(ParaReal(itens[i].altura.value)) <= v.height
            && Trunc(ParaReal(itens[i].largura.value)) <= v.width
            && Trunc(ParaReal(itens[i].comprimento.value)) <= v.length)
  {
    var fi := ItensFrete(itens);
    var v := CriarPedidoCarrinho(empresaCep, endereco, itens, freteTipo, usuario, cpfLido, cotacao, decifrar).value.volumes[0];
    var ka := MaxTrunc(Alturas(fi));
    var kl := MaxTrunc(Larguras(fi));
    var kc := MaxTrunc(Comprimentos(fi));
    assert v.height == Trunc(ParaReal(itens[ka].altura.value));
    assert v.width == Trunc(ParaReal(itens[kl].largura.value));
    assert v.length == Trunc(ParaReal(itens[kc].comprimento.value));
  }

  /** For a total weight the quote reads as kilograms (at most 50), the cart volume still divides
      it by 1000, so the volume declares a thousandth of the weight that was quoted. */
  lemma PesoDoVolumeDifereDaCotacao(total: real)
    requires 0.001 <= total <= 50.0
    ensures Kg(total) == total && total / 1000.0 < Kg(total)
  {
  }
}
