/** The older Mercado Pago integration (`services/public/mercadopago_service.py`): the same cart
    items, a differently titled shipping entry plus a `shipments.cost`, no status checks on the SDK's
    answers, the card payment body with its optional issuer, and a webhook that knows only
    payments. */
module MercadoPagoLegado {
  import opened Common
  import opened Models
  import opened MercadoPago

  /** The shipping entry of this service: "Frete - " and the carrier, or "Entrega" when the order
      has none; no id, description, picture or category. */
  function ItemDeFreteLegado(p: Pedido): (r: MpItem)
    requires CobraFrete(p)
    ensures r.title == "Frete - " + (if Truthy(p.freteTipo) then p.freteTipo.value else "Entrega")
    ensures r.quantity == 1 && r.unitPrice == p.freteValor.value
    ensures r.id.None? && r.description.None? && r.categoryId.None?
  {
    MpItem(None, "Frete - " + (if Truthy(p.freteTipo) then p.freteTipo.value else "Entrega"),
           None, None, None, 1, p.freteValor.value, "BRL")
  }

  /** The `mp_items` loop: one entry per cart item, as in the current service, then the shipping
      entry exactly when the order charges shipping. */
  method ItensPreferenciaLegado(pedido: Pedido, itens: seq<ItemCarrinho>) returns (mp: seq<MpItem>)
    ensures |mp| == |itens| + (if CobraFrete(pedido) then 1 else 0)
    ensures forall j :: 0 <= j < |itens| ==> mp[j] == MpItemDe(itens[j])
    ensures CobraFrete(pedido) ==> mp[|itens|] == ItemDeFreteLegado(pedido)
  {
    mp := [];
    for i := 0 to |itens|
      invariant |mp| == i
      invariant forall j :: 0 <= j < i ==> mp[j] == MpItemDe(itens[j])
    {
      mp := mp + [MpItemDe(itens[i])];
    }
    if CobraFrete(pedido) {
      mp := mp + [ItemDeFreteLegado(pedido)];
    }
  }

  /** `shipments.cost`: the shipping value, 0 when it is absent or zero. */
  function CustoEnvio(p: Pedido): (r: Fixed2)
    ensures p.freteValor.Some? ==> r == p.freteValor.value
    ensures p.freteValor.None? ==> r == 0
  {
    if TruthyNum(p.freteValor) then p.freteValor.value else 0
  }

  /** The shipping entry is there exactly when the shipping cost is positive, and then it charges
      that cost; a negative value is sent as a cost without an entry. */
  lemma CustoEnvioConcordaComItem(p: Pedido)
    ensures CobraFrete(p) <==> CustoEnvio(p) > 0
    ensures CobraFrete(p) ==> ItemDeFreteLegado(p).unitPrice == CustoEnvio(p)
  {
  }

  /** This service does not look at the status: only `id` and `init_point` are required. */
  function LerPreferenciaLegado(resp: RespostaPreferencia): (r: Result<Preferencia, MpErro>)
    ensures r.Ok? <==> resp.id.Some? && resp.initPoint.Some?
    ensures r.Ok? ==> r.value == Preferencia(resp.id.value, resp.initPoint.value, resp.sandboxInitPoint)
    ensures r.Err? ==> r.error == PreferenciaInvalida
  {
    if resp.id.None? || resp.initPoint.None? then Err(PreferenciaInvalida)
    else Ok(Preferencia(resp.id.value, resp.initPoint.value, resp.sandboxInitPoint))
  }

  /** Every answer the current service accepts, this one accepts too, with the same result. */
  lemma LerPreferenciaMaisPermissiva(resp: RespostaPreferencia)
    ensures LerPreferencia(resp).Ok? ==> LerPreferenciaLegado(resp) == LerPreferencia(resp)
    ensures resp.status in {Some(200), Some(201)} ==> LerPreferenciaLegado(resp) == LerPreferencia(resp)
  {
  }

  /** `criar_preferencia_pagamento` of this service: the items sent, the shipping cost and the
      outcome, given the SDK's answer. */
  method CriarPreferenciaLegado(pedido: Pedido, itens: seq<ItemCarrinho>, resp: RespostaPreferencia)
    returns (enviados: seq<MpItem>, custo: Fixed2, r: Result<Preferencia, MpErro>)
    ensures |enviados| == |itens| + (if CobraFrete(pedido) then 1 else 0)
    ensures forall j :: 0 <= j < |itens| ==> enviados[j] == MpItemDe(itens[j])
    ensures CobraFrete(pedido) ==> enviados[|itens|] == ItemDeFreteLegado(pedido) && enviados[|itens|].unitPrice == custo
    ensures custo == CustoEnvio(pedido)
    ensures r == LerPreferenciaLegado(resp)
  {
    enviados := ItensPreferenciaLegado(pedido, itens);
    custo := CustoEnvio(pedido);
    r := LerPreferenciaLegado(resp);
  }

  /** The body of `processar_pagamento_cartao`: the order's total, the card token, the number of
      installments, the payer's email, the description, the fixed `visa` method and the webhook
      address, plus `issuer_id` exactly when one is given. */
  method DadosCartao(pedidoId: Id, valorTotal: Fixed2, token: string, email: string, parcelas: int,
                     emissor: Option<int>, apiBaseUrl: string) returns (corpo: map<string, Json>)
    ensures "issuer_id" in corpo <==> TruthyNum(emissor)
    ensures "issuer_id" in corpo ==> corpo["issuer_id"] == JInt(emissor.value)
    ensures corpo.Keys - {"issuer_id"} == {"transaction_amount", "token", "description", "installments",
                                           "payment_method_id", "payer", "external_reference", "notification_url"}
    ensures corpo["transaction_amount"] == JDec(valorTotal) && corpo["token"] == JStr(token)
    ensures corpo["installments"] == JInt(parcelas) && corpo["external_reference"] == JStr(pedidoId)
    ensures corpo["payer"] == JObj(map["email" := JStr(email)])
    ensures corpo["description"] == JStr("Pedido #" + pedidoId) && corpo["payment_method_id"] == JStr("visa")
    ensures corpo["notification_url"] == JStr(apiBaseUrl + "/webhooks/mercadopago")
  {
    corpo := map[
      "transaction_amount" := JDec(valorTotal),
      "token" := JStr(token),
      "description" := JStr("Pedido #" + pedidoId),
      "installments" := JInt(parcelas),
      "payment_method_id" := JStr("visa"),
      "payer" := JObj(map["email" := JStr(email)]),
      "external_reference" := JStr(pedidoId),
      "notification_url" := JStr(apiBaseUrl + "/webhooks/mercadopago")];
    if TruthyNum(emissor) {
      corpo := corpo["issuer_id" := JInt(emissor.value)];
    }
  }

  /** The SDK's answer to `payment().get(id)` as `consultar_pagamento` reads it. */
  datatype PagamentoConsultado = PagamentoConsultado(
    id: string,
    status: string,
    externalReference: Option<string>,
    valor: Fixed2)

  /** What this service's webhook returns for a payment. */
  datatype WebhookLegado = WebhookLegado(
    tipo: string,
    paymentId: string,
    status: string,
    pedidoId: Option<string>,
    valor: Fixed2)

  /** `data.get("id") or data["data"]["id"]`: here the top-level id comes first. */
  function IdDoRecursoLegado(n: Notificacao): (r: Option<string>)
    ensures Truthy(n.id) ==> r == n.id
    ensures !Truthy(n.id) ==> r == n.dataId
  {
    if Truthy(n.id) then n.id else n.dataId
  }

  /** `processar_webhook` of this service: a payment notification yields the consulted payment, any
      other topic yields nothing. */
  function ProcessarWebhookLegado(n: Notificacao, consultar: Option<string> -> PagamentoConsultado)
    : (r: Option<WebhookLegado>)
    ensures r.Some? <==> Topico(n) == Some("payment")
    ensures r.Some? ==>
      var p := consultar(IdDoRecursoLegado(n));
      r.value == WebhookLegado("payment", p.id, p.status, p.externalReference, p.valor)
  {
    if Topico(n) == Some("payment") then
      var p := consultar(IdDoRecursoLegado(n));
      Some(WebhookLegado("payment", p.id, p.status, p.externalReference, p.valor))
    else None
  }

  /** The two services read a payment notification's id in opposite orders: given both `data.id`
      and `id`, the current one consults `data.id` and this one consults `id`, so they consult
      different payments whenever the two ids differ. */
  lemma OrdemDoIdDifere(n: Notificacao)
    requires Truthy(n.dataId) && Truthy(n.id)
    ensures IdDoPagamento(n) == n.dataId && IdDoRecursoLegado(n) == n.id
    ensures n.dataId != n.id ==> IdDoPagamento(n) != IdDoRecursoLegado(n)
  {
  }

  /** `estornar_pagamento` of this service: the same body as the current one, and the SDK's answer
      is taken as the refund whatever its status. */
  method EstornarLegado(valor: Option<Fixed2>, resp: RespostaEstorno)
    returns (corpo: map<string, Json>, r: Reembolso)
    ensures "amount" in corpo <==> TruthyNum(valor)
    ensures corpo.Keys <= {"amount"}
    ensures "amount" in corpo ==> corpo["amount"] == JDec(valor.value)
    ensures r == resp.reembolso
  {
    corpo := CorpoEstorno(valor);
    r := resp.reembolso;
  }
}
