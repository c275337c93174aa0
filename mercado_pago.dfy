/** The Mercado Pago integration (`services/public/MercadoPagoService.py`): the item list of a
    checkout preference, the webhook dispatch with its id extraction, and the refund request.
    Every SDK call is replaced by its response, given as an input (or, where the request depends on
    a value computed here, as a function from that value to the response). */
module MercadoPago {
  import opened Common
  import opened Text
  import opened Models

  /** One cart entry the caller passes: `{"produto_id", "nome", "descricao"?, "img"?, "categoria"?,
      "quantidade", "preco_unitario"}`; an absent optional key is None. */
  datatype ItemCarrinho = ItemCarrinho(
    produtoId: string,
    nome: string,
    descricao: Option<string>,
    img: Option<string>,
    categoria: Option<string>,
    quantidade: int,
    precoUnitario: Fixed2)

  /** One entry of the preference's `items`; the shipping entry has no id, picture or category. */
  datatype MpItem = MpItem(
    id: Option<string>,
    title: string,
    description: Option<string>,
    pictureUrl: Option<string>,
    categoryId: Option<string>,
    quantity: int,
    unitPrice: Fixed2,
    currencyId: string)

  /** `s[:256]` */
  function Truncar(s: string): (r: string)
    ensures |r| <= 256 && IsPrefix(r, s)
    ensures |s| <= 256 ==> r == s
    ensures |s| > 256 ==> |r| == 256
  {
    if |s| <= 256 then s else s[..256]
  }

  /** The preference entry of a cart item: description cut to 256 characters, category "others"
      when the item has none, priced in BRL. */
  function MpItemDe(it: ItemCarrinho): (r: MpItem)
    ensures r.description.Some? && |r.description.value| <= 256
    ensures r.categoryId == Some(it.categoria.GetOr("others"))
    ensures r.id == Some(it.produtoId) && r.quantity == it.quantidade && r.unitPrice == it.precoUnitario
  {
    MpItem(Some(it.produtoId), it.nome, Some(Truncar(it.descricao.GetOr(""))), it.img,
           Some(it.categoria.GetOr("others")), it.quantidade, it.precoUnitario, "BRL")
  }

  /** `pedido.frete_valor and pedido.frete_valor > 0` */
  predicate CobraFrete(p: Pedido) {
    p.freteValor.Some? && p.freteValor.value > 0
  }

  /** The shipping entry's title: the service name, else the carrier, else just "Frete". */
  function TituloFrete(p: Pedido): (r: string)
    ensures Truthy(p.freteServicoNome) ==> r == "Frete - " + p.freteServicoNome.value
    ensures !Truthy(p.freteServicoNome) && Truthy(p.freteTipo) ==> r == "Frete - " + p.freteTipo.value
    ensures !Truthy(p.freteServicoNome) && !Truthy(p.freteTipo) ==> r == "Frete"
  {
    if Truthy(p.freteServicoNome) then "Frete - " + p.freteServicoNome.value
    else if Truthy(p.freteTipo) then "Frete - " + p.freteTipo.value
    else "Frete"
  }

  /** The shipping entry: one unit at the order's shipping value. */
  function ItemDeFrete(p: Pedido): MpItem
    requires CobraFrete(p)
  {
    MpItem(None, TituloFrete(p), Some("Entrega para o endereço cadastrado"), None, None, 1, p.freteValor.value, "BRL")
  }

  /** The `mp_items` loop of `criar_preferencia_pagamento`: one entry per cart item, in order, then
      the shipping entry exactly when the order charges shipping. */
  method ItensPreferencia(pedido: Pedido, itens: seq<ItemCarrinho>) returns (mp: seq<MpItem>)
    ensures |mp| == |itens| + (if CobraFrete(pedido) then 1 else 0)
    ensures forall j :: 0 <= j < |itens| ==> mp[j] == MpItemDe(itens[j])
    ensures CobraFrete(pedido) ==> mp[|itens|] == ItemDeFrete(pedido)
  {
    mp := [];
    for i := 0 to |itens|
      invariant |mp| == i
      invariant forall j :: 0 <= j < i ==> mp[j] == MpItemDe(itens[j])
    {
      mp := mp + [MpItemDe(itens[i])];
    }
    if CobraFrete(pedido) {
      mp := mp + [ItemDeFrete(pedido)];
    }
  }

  /** The SDK's answer to `preference().create`. */
  datatype RespostaPreferencia = RespostaPreferencia(
    status: Option<int>,
    id: Option<string>,
    initPoint: Option<string>,
    sandboxInitPoint: Option<string>)

  /** What `criar_preferencia_pagamento` returns. */
  datatype Preferencia = Preferencia(preferenceId: string, initPoint: string, sandboxInitPoint: Option<string>)

  datatype MpErro =
    | ErroPreferencia
    | PreferenciaInvalida
    | TipoNaoSuportado(topic: Option<string>)
    | OrdemSemId
    | OrdemNaoEncontrada(ordemId: string)
    | PagamentoSemId
    | PagamentoNaoEncontrado(pagamentoId: string)
    | ErroEstorno

  /** A non-200/201 answer is an error, and so is an answer without `id` or `init_point`. */
  function LerPreferencia(resp: RespostaPreferencia): (r: Result<Preferencia, MpErro>)
    ensures r.Ok? <==> resp.status in {Some(200), Some(201)} && resp.id.Some? && resp.initPoint.Some?
    ensures !(resp.status in {Some(200), Some(201)}) ==> r == Err(ErroPreferencia)
    ensures r.Ok? ==> r.value == Preferencia(resp.id.value, resp.initPoint.value, resp.sandboxInitPoint)
  {
    if resp.status != Some(200) && resp.status != Some(201) then Err(ErroPreferencia)
    else if resp.id.None? || resp.initPoint.None? then Err(PreferenciaInvalida)
    else Ok(Preferencia(resp.id.value, resp.initPoint.value, resp.sandboxInitPoint))
  }

  /** `criar_preferencia_pagamento`: the items sent and the outcome, given the SDK's answer. */
  method CriarPreferencia(pedido: Pedido, itens: seq<ItemCarrinho>, resp: RespostaPreferencia)
    returns (enviados: seq<MpItem>, r: Result<Preferencia, MpErro>)
    ensures |enviados| == |itens| + (if CobraFrete(pedido) then 1 else 0)
    ensures forall j :: 0 <= j < |itens| ==> enviados[j] == MpItemDe(itens[j])
    ensures CobraFrete(pedido) ==> enviados[|itens|] == ItemDeFrete(pedido)
    ensures r == LerPreferencia(resp)
  {
    enviados := ItensPreferencia(pedido, itens);
    r := LerPreferencia(resp);
  }

  /** A webhook notification: the `topic` and `type` keys, `resource`, `data.id` and `id`. */
  datatype Notificacao = Notificacao(
    topic: Option<string>,
    tipo: Option<string>,
    resource: Option<string>,
    dataId: Option<string>,
    id: Option<string>)

  /** `data.get("topic") or data.get("type")` */
  function Topico(n: Notificacao): (r: Option<string>)
    ensures Truthy(n.topic) ==> r == n.topic
    ensures !Truthy(n.topic) ==> r == n.tipo
  {
    if Truthy(n.topic) then n.topic else n.tipo
  }

  /** An id that looks like a URL becomes its last path segment, ignoring trailing slashes; any
      other id is kept. */
  function ExtrairId(s: string): (r: string)
    ensures Contains(s, "http") ==>
      var t := RStripChar(s, '/');
      && '/' !in r && |r| <= |t| && r == t[|t| - |r|..]
      && (|r| == |t| || t[|t| - |r| - 1] == '/')
    ensures !Contains(s, "http") ==> r == s
  {
    if Contains(s, "http") then LastSegment(RStripChar(s, '/'), '/') else s
  }

  /** A payment reported by a merchant order. */
  datatype PagamentoOrdem = PagamentoOrdem(id: Option<int>, status: Option<string>)

  /** The SDK's answer to `merchant_order().get(id)`. */
  datatype RespostaOrdem = RespostaOrdem(status: Option<int>, externalReference: Option<string>,
                                         payments: seq<PagamentoOrdem>)

  /** The SDK's answer to `payment().get(id)`. */
  datatype RespostaPagamento = RespostaPagamento(status: Option<int>, paymentStatus: Option<string>,
                                                 externalReference: Option<string>)

  /** What a processed webhook returns. */
  datatype WebhookResultado = WebhookResultado(
    tipo: string,
    paymentId: Option<string>,
    status: Option<string>,
    pedidoId: Option<string>)

  /** `_processar_merchant_order`: the order id comes from `resource` (default ""); an order
      without payments is still pending; otherwise the first payment decides. */
  function ProcessarMerchantOrder(n: Notificacao, buscarOrdem: string -> RespostaOrdem)
    : (r: Result<WebhookResultado, MpErro>)
    ensures var ordemId := ExtrairId(n.resource.GetOr(""));
      && (r == Err(OrdemSemId) <==> ordemId == "")
      && (r == Err(OrdemNaoEncontrada(ordemId)) <==> ordemId != "" && buscarOrdem(ordemId).status != Some(200))
      && (r.Ok? <==> ordemId != "" && buscarOrdem(ordemId).status == Some(200))
    ensures r.Ok? ==>
      var ordem := buscarOrdem(ExtrairId(n.resource.GetOr("")));
      && r.value.tipo == "merchant_order"
      && r.value.pedidoId == ordem.externalReference
      && (ordem.payments == [] ==> r.value.paymentId.None? && r.value.status == Some("pending"))
      && (ordem.payments != [] ==>
            && r.value.status == ordem.payments[0].status
            && (r.value.paymentId.Some? <==> TruthyNum(ordem.payments[0].id))
            && (r.value.paymentId.Some? ==> r.value.paymentId.value == IntText(ordem.payments[0].id.value)))
  {
    var ordemId := ExtrairId(n.resource.GetOr(""));
    if ordemId == "" then Err(OrdemSemId)
    else
      var ordem := buscarOrdem(ordemId);
      if ordem.status != Some(200) then Err(OrdemNaoEncontrada(ordemId))
      else if ordem.payments == [] then
        Ok(WebhookResultado("merchant_order", None, Some("pending"), ordem.externalReference))
      else
        var primeiro := ordem.payments[0];
        Ok(WebhookResultado("merchant_order",
                            if TruthyNum(primeiro.id) then Some(IntText(primeiro.id.value)) else None,
                            primeiro.status, ordem.externalReference))
  }

  /** `data["data"]["id"] or data["resource"] or data["id"]`: the first truthy one, or the last. */
  function IdDoPagamento(n: Notificacao): (r: Option<string>)
    ensures Truthy(n.dataId) ==> r == n.dataId
    ensures !Truthy(n.dataId) && Truthy(n.resource) ==> r == n.resource
    ensures !Truthy(n.dataId) && !Truthy(n.resource) ==> r == n.id
  {
    if Truthy(n.dataId) then n.dataId else if Truthy(n.resource) then n.resource else n.id
  }

  /** `_processar_payment`: the payment id, URL-stripped, must be non-empty and the payment found. */
  function ProcessarPayment(n: Notificacao, buscarPagamento: string -> RespostaPagamento)
    : (r: Result<WebhookResultado, MpErro>)
    ensures !Truthy(IdDoPagamento(n)) ==> r == Err(PagamentoSemId)
    ensures var bruto := IdDoPagamento(n);
      var pid := if bruto.Some? then Some(ExtrairId(bruto.value)) else None;
      && (r == Err(PagamentoSemId) <==> !Truthy(pid))
      && (Truthy(pid) ==>
            && (r == Err(PagamentoNaoEncontrado(pid.value)) <==> buscarPagamento(pid.value).status != Some(200))
            && (r.Ok? <==> buscarPagamento(pid.value).status == Some(200)))
      && (r.Ok? ==>
            && Truthy(pid) && r.value.tipo == "payment" && r.value.paymentId == pid
            && r.value.status == buscarPagamento(pid.value).paymentStatus
            && r.value.pedidoId == buscarPagamento(pid.value).externalReference)
  {
    var bruto := IdDoPagamento(n);
    var pid := if bruto.Some? then Some(ExtrairId(bruto.value)) else None;
    if !Truthy(pid) then Err(PagamentoSemId)
    else
      var pagamento := buscarPagamento(pid.value);
      if pagamento.status != Some(200) then Err(PagamentoNaoEncontrado(pid.value))
      else Ok(WebhookResultado("payment", pid, pagamento.paymentStatus, pagamento.externalReference))
  }

  /** `processar_webhook`: dispatch on the topic. */
  function ProcessarWebhook(n: Notificacao, buscarOrdem: string -> RespostaOrdem,
                            buscarPagamento: string -> RespostaPagamento): (r: Result<WebhookResultado, MpErro>)
    ensures Topico(n) == Some("merchant_order") ==> r == ProcessarMerchantOrder(n, buscarOrdem)
    ensures Topico(n) == Some("payment") ==> r == ProcessarPayment(n, buscarPagamento)
  {
    var topic := Topico(n);
    if topic == Some("merchant_order") then ProcessarMerchantOrder(n, buscarOrdem)
    else if topic == Some("payment") then ProcessarPayment(n, buscarPagamento)
    else Err(TipoNaoSuportado(topic))
  }

  /** Only the two known topics are processed, and the result says which one it was. */
  lemma WebhookDespacho(n: Notificacao, buscarOrdem: string -> RespostaOrdem,
                        buscarPagamento: string -> RespostaPagamento)
    ensures var r := ProcessarWebhook(n, buscarOrdem, buscarPagamento);
      && (Topico(n) != Some("merchant_order") && Topico(n) != Some("payment") ==> r == Err(TipoNaoSuportado(Topico(n))))
      && (r.Ok? ==> Topico(n) == Some(r.value.tipo) && r.value.tipo in {"merchant_order", "payment"})
  {
  }

  /** A resource URL yields the id at its end, with or without a trailing slash. */
  lemma ExtrairIdDeUrl(base: string, id: string)
    requires Contains(base, "http") && id != [] && '/' !in id
    ensures ExtrairId(base + "/" + id) == id
    ensures ExtrairId(base + "/" + id + "/") == id
  {
    var u := base + "/" + id;
    ContainsConcat(base, "/" + id, "http");
    assert base + "/" + id == base + ("/" + id);
    ContainsConcat(u, "/", "http");
    assert u[|u| - 1] == id[|id| - 1];
    assert RStripChar(u, '/') == u;
    var w := u + "/";
    assert w[..|w| - 1] == u;
    assert RStripChar(w, '/') == u;
    LastSegmentApos(base, '/', id);
  }

  /** The refund request body built by `estornar_pagamento`: `amount` only for a truthy value. */
  method CorpoEstorno(valor: Option<Fixed2>) returns (corpo: map<string, Json>)
    ensures "amount" in corpo <==> TruthyNum(valor)
    ensures corpo.Keys <= {"amount"}
    ensures "amount" in corpo ==> corpo["amount"] == JDec(valor.value)
  {
    corpo := map[];
    if TruthyNum(valor) {
      corpo := corpo["amount" := JDec(valor.value)];
    }
  }

  /** A refund as the SDK reports it. */
  datatype Reembolso = Reembolso(refundId: int, paymentId: int, amount: Fixed2, status: string)

  /** The SDK's answer to `refund().create`. */
  datatype RespostaEstorno = RespostaEstorno(status: Option<int>, reembolso: Reembolso)

  /** `estornar_pagamento`: the body sent and, given the answer, the refund or an error for any
      status other than 200 and 201. */
  method Estornar(valor: Option<Fixed2>, resp: RespostaEstorno)
    returns (corpo: map<string, Json>, r: Result<Reembolso, MpErro>)
    ensures "amount" in corpo <==> TruthyNum(valor)
    ensures corpo.Keys <= {"amount"}
    ensures "amount" in corpo ==> corpo["amount"] == JDec(valor.value)
    ensures r.Ok? <==> resp.status in {Some(200), Some(201)}
    ensures r.Ok? ==> r.value == resp.reembolso
    ensures r.Err? ==> r.error == ErroEstorno
  {
    corpo := CorpoEstorno(valor);
    if resp.status != Some(200) && resp.status != Some(201) {
      return corpo, Err(ErroEstorno);
    }
    r := Ok(resp.reembolso);
  }
}
