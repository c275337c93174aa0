# nego-maq-api: a verified model of the store backend

nego-maq-api is the Flask backend of an online machinery store. This project models its core in
Dafny and proves properties about it:

- **Checkout** (`PedidosService.criar_pedido`). The request is validated, the delivery address is
  resolved and shipping is checked. Each item's stock is checked and decremented, and its price
  and dimensions are copied onto the order row. An error rolls the whole session back.
- **The older checkout**, which has no stock and no shipping.
- **Payment transactions** and the mapping from payment status to order status.
- **Melhor Envio shipping.** Quotes are validated and aggregated, a carrier service is found by
  name, and the cart request is built.
- **Quote post-processing** in the cart-quote route: options are filtered, sorted by price, and the
  cheapest and fastest are chosen. The order summary and the per-user order listing are modelled too.
- **Mercado Pago payloads**, in both services that build them: preference items, webhook topic
  dispatch and id extraction, card-payment and refund bodies.
- **Admin operations**: listing orders with filters, and updating and deleting orders, items and
  transactions (current and older service). Product create, update and delete, stock and
  promotions are modelled too.
- **Smaller services**: addresses (public and admin), registration, login and profile with unique
  e-mails, the class-level shopping cart, the discount price, event ranking (best sellers and
  recommendations), and the fixed UTC−3 time zone.

How the model is built:

- The database session is a class `Store.Db` with one map per table, from uuid to row datatype.
  Each service method changes only the tables its `modifies` clause names.
- A rollback path leaves every map as it was. The checkout loops run on the session's pending
  tables (plain map values) and the service writes them back once, only when every item passed.
- `Numeric(10,2)` columns are integers counting hundredths (`Common.Fixed2`).
- Shipping-quote arithmetic, which the source does in floats, is done on exact `real`s.
- Python truthiness is spelled out:
  - an absent key or a present value is an `Option`;
  - a nullable column that a request may set is an `Option<Option<T>>`.
- Things the model cannot compute are parameters:
  - fresh uuids and clocks;
  - password hashing, CPF decryption and `strftime`;
  - every SDK or HTTP answer.

Each file is one module, and each module follows one source file.

| file | module | source |
|---|---|---|
| common.dfy, text.dfy | Common, Text | Python values, truthiness, string helpers |
| status.dfy | Status | database/enums/*.py, pagamentos_service.py status mapping |
| models.dfy, store.dfy | Models, Store | database/models/*.py |
| checkout.dfy, pedidos_service.dfy | Checkout, PedidosService | services/public/PedidosService.py |
| pedidos_legado.dfy | PedidosLegado | services/public/pedidos_service.py |
| pagamentos.dfy | Pagamentos | services/public/pagamentos_service.py |
| melhor_envio.dfy | MelhorEnvio | services/public/melhor_envio_service.py |
| pedidos_rotas.dfy | PedidosRotas | routes/public/pedidos_public.py |
| mercado_pago.dfy | MercadoPago | services/public/MercadoPagoService.py |
| mercado_pago_legado.dfy | MercadoPagoLegado | services/public/mercadopago_service.py |
| admin_pedidos.dfy | AdminPedidos | services/admin/AdminPedidosService.py |
| admin_pedidos_legado.dfy | AdminPedidosLegado | services/admin/admin_pedidos_service.py |
| admin_produtos.dfy | AdminProdutos | services/admin/admin_service.py |
| promocoes.dfy | Promocoes | services/public/promocoes_service.py |
| carrinho.dfy | Carrinho | services/public/carrinho_service.py |
| enderecos.dfy | Enderecos | services/public/EnderecoService.py (and the admin update/delete) |
| admin_enderecos.dfy | AdminEnderecos | services/admin/AdminEnderecoService.py |
| auth.dfy | Auth | services/public/auth_service.py |
| eventos.dfy | Eventos | services/public/evento_service.py |
| date_time.dfy | DateTime | utils/date_time.py |

Where the code and its documentation disagree, the model follows the code. Four cases matter:

- The older admin service's `deletar_pedido` deletes only the order row. The database cascades
  then remove its transactions and items, so it reaches the same state as the current service.
- Deleting an address also deletes its orders, which in turn removes their items and transactions.
  This comes from the `cascade="all, delete-orphan"` back-reference on `Pedido.endereco`.
- A new transaction's status is only set by the column default at flush. The status comparisons
  in `criar_transacao` therefore never change the order.
- The cart of `CarrinhoService` is one list shared by the whole class. It is modelled as one
  `Carrinho` object.

## Model

| member | source | states |
|---|---|---|
| Status.PagamentoPorNome | database/enums/status_pagamento_enum.py:4-8 | a payment status is found by its enum name exactly when that name is one of the four members |
| Status.PedidoPorNome | database/enums/status_pedido_enum.py:4-10 | an order status is found by its enum name exactly when that name is one of the six members |
| Status.PedidoAposPagamento | services/public/pagamentos_service.py:37-43 | APROVADO gives PAGO, RECUSADO and ESTORNADO give CANCELADO, any other payment status leaves the order status alone |
| Status.PedidoAposPagamentoIdempotent | services/public/pagamentos_service.py:37-43 | applying the same payment status twice changes the order status no further |
| Checkout.PassoForma | services/public/PedidosService.py:81-118 | one accepted item decrements exactly its product's stock by its quantity and appends exactly one line |
| Checkout.ReservarProdutos | services/public/PedidosService.py:80-119 | after a successful loop only stock changed: every product keeps its other fields and its stock drops by the total quantity ordered of it |
| Common.IndexarEm | services/public/PedidosService.py:104-115 | with distinct fresh ids, the row made for item j is stored under the j-th id |
| Checkout.ReservarTotal | services/public/PedidosService.py:101-102 | after a successful loop the running product total is the sum of price × quantity over the lines |
| Checkout.ReservarLinhasForma | services/public/PedidosService.py:104-115 | one line per item, in order, copying the product's price and dimensions and the quantity |
| Checkout.ReservarLinhas | services/public/PedidosService.py:104-115 | one line per item, in order, copying the product's price and dimensions (absent ones as 0) and the quantity (default 1); the product total is Σ price × quantity |
| Checkout.EstoqueConservado | services/public/PedidosService.py:94-118 | each product's final stock is its initial stock minus the sum of the quantities ordered of it, repeated items included |
| Checkout.ReservarOkSse | services/public/PedidosService.py:81-99 | the loop succeeds exactly when every item names an existing product whose stock, already lowered by earlier items, covers its quantity |
| Checkout.ReservarErroPrimeiro | services/public/PedidosService.py:81-99 | a failing loop has a first item that does not fit, with every earlier item fitting |
| Checkout.ReservarErroPropaga | services/public/PedidosService.py:82-99 | once a prefix of the items fails, the whole loop fails with that error |
| Checkout.ReservarPasso | services/public/PedidosService.py:80-119 | the loop over one more item is one more step on the prefix's result |
| PedidosService.ValidarFrete | services/public/PedidosService.py:47-63 | no shipping means value 0 with no service; a negative value or a missing service id is rejected; otherwise the given fields are kept |
| PedidosService.ErroEnderecoSse | services/public/PedidosService.py:34-44 | the address check fails exactly when a given address is unknown or another user's, or when no address is given and the user has none |
| PedidosService.ResolverEndereco | services/public/PedidosService.py:34-44 | the resolved address is the given one, or else an address of the user, and always belongs to the user |
| PedidosService.Verificar | services/public/PedidosService.py:23-99 | a missing user or an empty item list fails before any lookup; on success the stock reservation is the item loop's result over the products |
| PedidosService.VerificarOkSse | services/public/PedidosService.py:23-99 | the checks pass exactly when the user and items are given, the address resolves, shipping is valid and every item fits |
| PedidosService.VerificarOk | services/public/PedidosService.py:101-121 | on success the order total is the product total plus the shipping value |
| PedidosService.ItensDe | services/public/PedidosService.py:104-115 | one item row per line, in order, each tied to the new order and copying the line's price, quantity and dimensions |
| PedidosService.ItensDeLinha | services/public/PedidosService.py:104-115 | the item row of one line copies its product, quantity, price and dimensions |
| PedidosService.TotalItensDe | services/public/PedidosService.py:101-102 | the stored item rows add up to the product total |
| PedidosService.Resumo | services/public/PedidosService.py:129-136 | the returned product value and shipping value add up to the returned total |
| PedidosService.CriarPedido | services/public/PedidosService.py:17-136 | the tables change as `PedidoCriado` says: on error none changes; on success the reserved stock, the order row and the item rows under the fresh item ids are stored, and nothing else changes |
| PedidosService.GravarNaSessao | services/public/PedidosService.py:65-122 | a failing item leaves the tables as they were; otherwise the products carry the reservation, the order row carries the products' value plus shipping, and one item row is added per line |
| PedidosService.ValidarPedido | services/public/PedidosService.py:23-63 | a failing check returns the error the decision function gives; on success the user is the given one, the address is acceptable, the shipping is the validated one, and the order's outcome is left to the item loop |
| PedidosService.ReservarNaSessao | services/public/PedidosService.py:78-119 | the loop's result is the reservation fold over the initial products; on success the pending item table stores row j under the j-th item id |
| PedidosService.AtualizarStatusPedido | services/public/PedidosService.py:153-160 | an unknown order fails with no change; otherwise only that order's status is set, to exactly the new status |
| PedidosLegado.ItensForma | services/public/pedidos_service.py:23-41 | the older loop succeeds exactly when every item names an existing product, with one row per item copying price and quantity (default 1) |
| PedidosLegado.ItensConcordaComReserva | services/public/pedidos_service.py:23-43 | whenever the current checkout accepts the items, the older one does too, with the same product total Σ price × quantity |
| PedidosLegado.ItensUltimo | services/public/pedidos_service.py:30-32 | the last item adds its price × quantity to the running total |
| PedidosLegado.CriarPedidoLegado | services/public/pedidos_service.py:11-46 | empty items or an unknown product leave every table unchanged; on success the order's total is Σ price × quantity with no shipping; stock is never changed |
| PedidosLegado.PropagaErro | services/public/pedidos_service.py:25-28 | the first missing product stops the loop with its error |
| Pagamentos.ErroTransacao | services/public/pagamentos_service.py:15-27 | no error exactly when the order exists, the value and the method are given and the value is the order's total; an unknown order is reported first |
| Pagamentos.CriarTransacao | services/public/pagamentos_service.py:14-54 | on error nothing is stored; otherwise one PENDENTE transaction for exactly the order's total is added and the order is left unchanged |
| Pagamentos.ListarTransacoes | services/public/pagamentos_service.py:58-62 | an unknown order is an error; otherwise exactly the transactions of that order |
| MelhorEnvio.OnlyDigits | services/public/melhor_envio_service.py:25-28 | None for a falsy input, otherwise the input's digits in order and nothing else |
| MelhorEnvio.TruncParaZero | services/public/melhor_envio_service.py:55-57 | `int()` of a float rounds toward zero: the integer next to the value on the side of 0 |
| MelhorEnvio.TruncMonotone | services/public/melhor_envio_service.py:55-57 | truncation keeps order |
| MelhorEnvio.CalcularFrete | services/public/melhor_envio_service.py:43-79 | a quote is accepted exactly when both postal codes have eight digits, the weight in kg lies in [0.001, 30], and every dimension is ≥ 1 with a sum ≤ 200 |
| MelhorEnvio.PesoAceito | services/public/melhor_envio_service.py:54-63 | the accepted weights are 0.001 to 30 read as kilograms, or above 50 and up to 30000 read as grams |
| MelhorEnvio.PesoTotalConcat | services/public/melhor_envio_service.py:113 | the total weight of two lists joined is the sum of their totals |
| MelhorEnvio.RemoverItem | services/public/melhor_envio_service.py:113 | removing one item removes its weight × quantity from the total |
| MelhorEnvio.PesoTotalPermutacao | services/public/melhor_envio_service.py:113 | the total weight does not depend on the order of the items |
| MelhorEnvio.MaxMaximo | services/public/melhor_envio_service.py:115-117 | the maximum is an element and bounds every element |
| MelhorEnvio.MaxTrunc | services/public/melhor_envio_service.py:162-164 | the truncated maximum is the maximum of the truncated values, attained at the maximum's position |
| MelhorEnvio.DimensoesMaximas | services/public/melhor_envio_service.py:115-117 | per dimension, the truncated largest measure is some item's truncated measure and no item's exceeds it |
| MelhorEnvio.CalcularFretePedido | services/public/melhor_envio_service.py:101-126 | an empty list fails; otherwise the result is accepted exactly when the single quote with weight Σ weight × quantity and each dimension the largest over the items is, with that quote's package or error |
| MelhorEnvio.PacoteAgrega | services/public/melhor_envio_service.py:113-117 | an accepted multi-item package carries the total weight and, per dimension, the largest item's measure truncated: some item has it and none exceeds it |
| MelhorEnvio.PrimeiroServico | services/public/melhor_envio_service.py:139-142 | the first matching option: it matches and no earlier one does; none exactly when no option matches |
| MelhorEnvio.ObterIdServico | services/public/melhor_envio_service.py:136-146 | None fails; the not-found error exactly when no option matches; the missing-id error exactly when the first match has no id; otherwise exactly the first match's id |
| MelhorEnvio.NomeVazioEscolheOPrimeiro | services/public/melhor_envio_service.py:137-142 | a blank name matches every option, so the first option is chosen |
| MelhorEnvio.ItensFrete | services/public/melhor_envio_service.py:157-164 | one quote item per order row, in order |
| MelhorEnvio.CriarPedidoCarrinho | services/public/melhor_envio_service.py:149-202 | the errors in order, each exactly when the earlier steps passed and its own check fails: a missing measure, no items, the quote's validation, the service lookup, no user or CPF; a request has one volume with the summed weight over 1000 and the largest truncated dimensions, the first matching service, the cleaned postal codes, the trimmed name and the decrypted CPF's digits |
| MelhorEnvio.CarrinhoCotado | services/public/melhor_envio_service.py:158-202 | after the items are read: the quote error, then the service error, then the CPF error, each exactly when its step fails; the request as above |
| MelhorEnvio.CarrinhoForma | services/public/melhor_envio_service.py:177-182 | the volume's weight is the total over 1000 and each dimension is some row's truncated measure that no row's exceeds |
| MelhorEnvio.PesoDoVolumeDifereDaCotacao | services/public/melhor_envio_service.py:178 | for a total the quote (line 54) reads as kilograms, the cart volume still divides it by 1000 |
| PedidosRotas.Codigo | routes/public/pedidos_public.py:26-55 | 404 for an unknown address or product, 403 for another user's address, 400 otherwise |
| PedidosRotas.RealOuZero | routes/public/pedidos_public.py:59 | a falsy column reads as 0, otherwise as its value |
| PedidosRotas.ItemPreparado | routes/public/pedidos_public.py:51-66 | quantity defaults to 1 and each missing weight or dimension is 0 |
| PedidosRotas.PrepararForma | routes/public/pedidos_public.py:48-67 | preparation succeeds exactly when every entry names an existing product, with one prepared item per entry; otherwise it fails with an unknown product |
| PedidosRotas.PrepararItens | routes/public/pedidos_public.py:48-67 | the loop computes exactly the preparation fold |
| PedidosRotas.PropagaErro | routes/public/pedidos_public.py:53-55 | the first unknown product returns at once |
| PedidosRotas.Formatada | routes/public/pedidos_public.py:87-97 | a shown option keeps the answer's positive price and its delivery time |
| PedidosRotas.Filtradas | routes/public/pedidos_public.py:82-97 | no more options than answers, all with a positive price |
| PedidosRotas.FiltradasSse | routes/public/pedidos_public.py:82-97 | an option is shown exactly when it is an answer with a price > 0 and a delivery time, formatted |
| PedidosRotas.FiltrarOpcoes | routes/public/pedidos_public.py:82-97 | the filter loop computes exactly the filtered options |
| PedidosRotas.OrdenarPorPreco | routes/public/pedidos_public.py:100 | the options end sorted ascending by price, a permutation of the original ones, and exactly the stable arrangement `Ordenado` of them |
| PedidosRotas.Inserir | routes/public/pedidos_public.py:100 | one insertion step extends the sorted prefix by one, keeps the multiset, and places the option after every option before it that is no dearer |
| PedidosRotas.InsercaoFeita | routes/public/pedidos_public.py:100 | where an insertion stops, the options are its result, sorted in the prefix and with the same options |
| PedidosRotas.PassoOrdenado | routes/public/pedidos_public.py:100 | one insertion turns the arranged prefix of the first i options into that of the first i + 1 |
| PedidosRotas.InserirOrdena | routes/public/pedidos_public.py:100 | inserting into options in price order keeps them in price order |
| PedidosRotas.InserirMultiset | routes/public/pedidos_public.py:100 | inserting adds exactly the one option |
| PedidosRotas.OrdenadoOrdena | routes/public/pedidos_public.py:100 | the arrangement is in ascending price order |
| PedidosRotas.OrdenadoPermuta | routes/public/pedidos_public.py:100 | the arrangement keeps exactly the options it is given |
| PedidosRotas.InserirEstavel | routes/public/pedidos_public.py:100 | an insertion puts the option after every option of its price already there |
| PedidosRotas.OrdenadoEstavel | routes/public/pedidos_public.py:100 | the sort is stable: for every price, the options of that price keep their relative order |
| PedidosRotas.IndiceMaisRapida | routes/public/pedidos_public.py:104-106 | `min` by delivery time: a shortest time, the first of its ties |
| PedidosRotas.ProcessarOpcoes | routes/public/pedidos_public.py:81-106 | the shown options in the stable price order; the cheapest and fastest exist exactly when some option is shown, and they are the first option and the one with the shortest time |
| PedidosRotas.MaisBarataMinima | routes/public/pedidos_public.py:102-103 | the first sorted option is no dearer than any shown option |
| PedidosRotas.CotacaoFreteCarrinho | routes/public/pedidos_public.py:19-111 | a missing user or empty cart fails first; then the address check and the product preparation, each with its error; once they pass the result is a quote or a quote failure: success when the quote of every acceptable address succeeds, failure when every one fails, and for a given address success exactly when its quote succeeds; success carries the sorted, filtered options |
| PedidosRotas.FretesDe | routes/public/pedidos_public.py:137-147 | one summary item per order row, in order |
| PedidosRotas.ResumoDoFrete | routes/public/pedidos_public.py:129-159 | an unknown order or one without its address fails; otherwise one entry per row and the total weight Σ weight × quantity |
| PedidosRotas.ResumoIndependeDaOrdem | routes/public/pedidos_public.py:137-149 | the summary's total weight does not depend on the order in which the rows come |
| PedidosRotas.PesoIndependeDaOrdem | routes/public/pedidos_public.py:149 | two enumerations of an order's rows have the same length and the same total weight |
| PedidosRotas.MultiplicidadeDistinta | routes/public/pedidos_public.py:146 | each row of an order occurs once in its enumeration |
| PedidosRotas.MesmoMultiset | routes/public/pedidos_public.py:146 | two repetition-free enumerations of the same rows are permutations of each other |
| PedidosRotas.FretesConcat | routes/public/pedidos_public.py:137-147 | the items of two joined lists of rows are the items of each, joined |
| PedidosRotas.FretesPermutacao | routes/public/pedidos_public.py:137-147 | permuting the rows permutes their summary items |
| PedidosRotas.FretesRemover | routes/public/pedidos_public.py:137-147 | removing one row removes its item from the multiset |
| PedidosRotas.Listado | routes/public/pedidos_public.py:180-195 | the user's names when the user exists, the shipping value only when truthy, and `tem_rastreio` exactly when a Melhor Envio id is set |
| PedidosRotas.PedidosUsuario | routes/public/pedidos_public.py:176-199 | one entry per order of the user, every such order listed, newest first |
| MercadoPago.Truncar | services/public/MercadoPagoService.py:38 | the first 256 characters, or the whole text when shorter |
| MercadoPago.MpItemDe | services/public/MercadoPagoService.py:33-45 | a cart item's entry copies id, title, picture, quantity and price, truncates the description and defaults the category to "others" |
| MercadoPago.TituloFrete | services/public/MercadoPagoService.py:50-55 | "Frete - " and the service name, else the carrier, else "Frete" |
| MercadoPago.ItensPreferencia | services/public/MercadoPagoService.py:32-65 | one entry per cart item in order, then the shipping entry exactly when the shipping value is positive |
| MercadoPago.LerPreferencia | services/public/MercadoPagoService.py:100-112 | a status other than 200/201, or an answer without `id` or `init_point`, is an error; otherwise those fields |
| MercadoPago.CriarPreferencia | services/public/MercadoPagoService.py:16-112 | the items sent and the outcome read from the SDK's answer |
| MercadoPago.Topico | services/public/MercadoPagoService.py:137 | the topic is `topic`, falling back to `type` |
| MercadoPago.ExtrairId | services/public/MercadoPagoService.py:153-155 | an id containing "http" becomes its last path segment after trailing "/" is stripped; any other id is kept (the same rule serves payment ids at lines 202-203) |
| MercadoPago.ProcessarMerchantOrder | services/public/MercadoPagoService.py:151-194 | the empty-id error exactly for an empty id, the not-found error exactly when a non-empty id's answer is not 200, success otherwise; success carries the order's reference and either "pending" without payment id or the first payment's status and (truthy) id |
| MercadoPago.IdDoPagamento | services/public/MercadoPagoService.py:198-200 | `data.id` first, then `resource`, then `id` |
| MercadoPago.ProcessarPayment | services/public/MercadoPagoService.py:196-223 | the empty-id error exactly when the URL-stripped id is falsy; then the not-found error exactly when the answer is not 200, success otherwise, with that id and the payment's status and reference |
| MercadoPago.ProcessarWebhook | services/public/MercadoPagoService.py:133-149 | the merchant-order and payment topics go to their handlers; any other topic is an error |
| MercadoPago.WebhookDespacho | services/public/MercadoPagoService.py:137-145 | only the two known topics are processed, and the result names which |
| MercadoPago.ExtrairIdDeUrl | services/public/MercadoPagoService.py:153-155 | a resource URL yields the id at its end, with or without a trailing slash |
| MercadoPago.CorpoEstorno | services/public/MercadoPagoService.py:228-230 | `amount` is in the refund body exactly when the value is truthy, and nothing else is |
| MercadoPago.Estornar | services/public/MercadoPagoService.py:225-244 | the body as above: `amount` exactly for a truthy value and then the value itself; the refund for status 200/201 and an error for any other answer status |
| MercadoPagoLegado.ItemDeFreteLegado | services/public/mercadopago_service.py:50-58 | "Frete - " and the carrier or "Entrega", one unit at the shipping value |
| MercadoPagoLegado.ItensPreferenciaLegado | services/public/mercadopago_service.py:34-58 | one entry per cart item in order, then the shipping entry exactly when the shipping value is positive |
| MercadoPagoLegado.CustoEnvio | services/public/mercadopago_service.py:92-95 | `shipments.cost` is the shipping value, or 0 when absent |
| MercadoPagoLegado.CustoEnvioConcordaComItem | services/public/mercadopago_service.py:50-95 | the shipping entry is there exactly when the cost is positive, and it charges that cost |
| MercadoPagoLegado.LerPreferenciaLegado | services/public/mercadopago_service.py:99-109 | only a missing `id` or `init_point` is an error |
| MercadoPagoLegado.LerPreferenciaMaisPermissiva | services/public/mercadopago_service.py:99-109 | every answer the current service accepts, the older one accepts with the same result |
| MercadoPagoLegado.CriarPreferenciaLegado | services/public/mercadopago_service.py:16-109 | the items sent, the shipping cost and the outcome |
| MercadoPagoLegado.DadosCartao | services/public/mercadopago_service.py:151-163 | the card-payment keys and every value: total, token, `Pedido #<id>` description, installments, `visa`, payer email, order id as reference, webhook URL under the API base; plus `issuer_id` exactly when one is given |
| MercadoPagoLegado.IdDoRecursoLegado | services/public/mercadopago_service.py:209 | `id` before `data.id` |
| MercadoPagoLegado.ProcessarWebhookLegado | services/public/mercadopago_service.py:208-221 | a result exactly for the "payment" topic, built from the consulted payment |
| MercadoPagoLegado.OrdemDoIdDifere | services/public/mercadopago_service.py:209 | for any notification with both ids truthy, the current service consults `data.id` and this one `id`, so different payments when they differ |
| MercadoPagoLegado.EstornarLegado | services/public/mercadopago_service.py:223-240 | `amount` exactly for a truthy value; the answer is taken whatever its status |
| AdminPedidos.Categoria | services/admin/AdminPedidosService.py:5-16 | a category exists exactly for the ids 1 to 4 |
| AdminPedidos.Projecao | services/admin/AdminPedidosService.py:43-52 | a listed order carries its id and its status name |
| AdminPedidos.ListagemCorreta | services/admin/AdminPedidosService.py:22-52 | every entry is an order in the enumeration that passes the date and category filters, projected |
| AdminPedidos.ListagemSemFiltro | services/admin/AdminPedidosService.py:22-52 | with no filter the listing has one entry per enumerated order, in order, each its projection |
| AdminPedidos.ListagemCompleta | services/admin/AdminPedidosService.py:22-37 | every enumerated order that passes the filters is listed |
| AdminPedidos.ListagemDistinta | services/admin/AdminPedidosService.py:27-37 | an order with several items in the category is listed once |
| AdminPedidos.ListarPedidos | services/admin/AdminPedidosService.py:9-54 | an invalid category is an error; otherwise exactly the orders passing the inclusive date bounds and the category filter, each once |
| AdminPedidos.StatusPedidoDado | services/admin/AdminPedidosService.py:67-71 | a given status is looked up by its upper-cased enum name |
| AdminPedidos.PedidoAtualizado | services/admin/AdminPedidosService.py:73-76 | only the given status, a non-None shipping value and a truthy shipping type change; the total is not recomputed |
| AdminPedidos.PedidoAtualizadoIdempotente | services/admin/AdminPedidosService.py:73-76 | applying the same update twice changes nothing further |
| AdminPedidos.AtualizarPedido | services/admin/AdminPedidosService.py:58-79 | an unknown order or an unknown status name fails with no change; otherwise only that order is updated as above |
| AdminPedidos.SemItensDoPedido | services/admin/AdminPedidosService.py:88 | the items left are exactly the items of other orders |
| AdminPedidos.SemTransacoesDoPedido | database/models/transacao.py:30-33 | the transactions left are exactly those of other orders |
| AdminPedidos.RemocaoIntegra | services/admin/AdminPedidosService.py:83-93 | deleting an order with its items and transactions leaves no row pointing at a missing order |
| AdminPedidos.DeletarPedido | services/admin/AdminPedidosService.py:83-93 | an unknown order fails with no change; otherwise the order, its items and its transactions are removed and nothing else |
| AdminPedidos.ItemAtualizado | services/admin/AdminPedidosService.py:102-105 | only the given quantity and unit price change |
| AdminPedidos.AtualizarItem | services/admin/AdminPedidosService.py:97-108 | an unknown item fails with no change; otherwise only that item is updated |
| AdminPedidos.DeletarItem | services/admin/AdminPedidosService.py:112-119 | an unknown item fails with no change; otherwise exactly that item is removed |
| AdminPedidos.StatusPagamentoDado | services/admin/AdminPedidosService.py:128-133 | a given status is looked up by its payment-status enum name |
| AdminPedidos.AtualizarTransacao | services/admin/AdminPedidosService.py:123-136 | an unknown transaction or status name fails with no change; otherwise only that transaction's given fields change |
| AdminPedidosLegado.Resumo | services/admin/admin_pedidos_service.py:10-19 | an entry carries the order's id, user, total and status name |
| AdminPedidosLegado.ListarPedidosLegado | services/admin/admin_pedidos_service.py:7-20 | one entry per stored order, every order listed once |
| AdminPedidosLegado.SemFiltroListaTudo | services/admin/admin_pedidos_service.py:7-20 | the current listing with no filter lists the same orders in the same order as the older one |
| AdminProdutos.CategoriasConcordam | services/admin/admin_service.py:8 | the product categories are exactly the four categories of the order filter |
| AdminProdutos.PrimeiroAusente | services/admin/admin_service.py:32-34 | no missing field exactly when every required field is given; otherwise the first one missing |
| AdminProdutos.NovoProduto | services/admin/admin_service.py:44-56 | the new product copies the given fields, with the uploaded image or none |
| AdminProdutos.AdicionarProduto | services/admin/admin_service.py:15-59 | an invalid category or the first missing required field is an error with no change; otherwise one product is added |
| AdminProdutos.DeletarProduto | services/admin/admin_service.py:63-69 | an unknown product fails with no change; otherwise exactly that product is removed |
| AdminProdutos.ProdutoAtualizado | services/admin/admin_service.py:84-97 | each listed field present in the request takes its value and the others are kept |
| AdminProdutos.LoopDescreveAtualizacao | services/admin/admin_service.py:84-97 | the setattr loop over the listed fields gives exactly that update |
| AdminProdutos.AtualizarProduto | services/admin/admin_service.py:73-100 | an unknown product or an invalid category fails with no change; otherwise only that product is updated |
| AdminProdutos.AtualizarEstoque | services/admin/admin_service.py:104-114 | a non-integer stock fails before the lookup; an unknown product fails; otherwise only the stock is set, to exactly that value |
| AdminProdutos.CriarPromocao | services/admin/admin_service.py:121-134 | a discount ≤ 0, an unknown product or a product already on promotion is an error; otherwise one promotion is added, keeping one promotion per product |
| AdminProdutos.RemoverPromocao | services/admin/admin_service.py:138-144 | no promotion for the product is an error; otherwise one is removed, and with one per product none remains |
| Promocoes.PrecoComDesconto | services/public/promocoes_service.py:13-18 | a falsy price or discount gives the price; otherwise price × (100 − d) / 100 |
| Promocoes.DescontoLimitado | services/public/promocoes_service.py:17-18 | for 0 ≤ d ≤ 100 the price lies between 0 and the original price |
| Promocoes.DescontoTotal | services/public/promocoes_service.py:18 | a 100 % discount gives 0 |
| Promocoes.DescontoMonotono | services/public/promocoes_service.py:17-18 | a larger discount never gives a higher price |
| Carrinho.Link | services/public/carrinho_service.py:38 | the link starts with "https://wa.me/" and the phone |
| Carrinho.LinhasConcat | services/public/carrinho_service.py:33-34 | the lines of a joined cart are the lines of each part, joined |
| Carrinho.OcorrenciasConcat | services/public/carrinho_service.py:33-34 | counting line breaks adds over concatenation |
| Carrinho.OcorrenciasAusente | services/public/carrinho_service.py:34 | a text without line breaks counts none |
| Carrinho.LinhaUmaQuebra | services/public/carrinho_service.py:34 | each product line ends in exactly one line break |
| Carrinho.UmaLinhaPorProduto | services/public/carrinho_service.py:32-34 | the message body has exactly one line per cart entry |
| Carrinho.LinkSemEspacos | services/public/carrinho_service.py:38 | with a phone without spaces the link has no spaces |
| Carrinho.MontarMensagem | services/public/carrinho_service.py:31-34 | the message is the header followed by one line per product, in cart order |
| Carrinho.Carrinho.constructor | services/public/carrinho_service.py:5 | the cart starts empty |
| Carrinho.Carrinho.Adicionar | services/public/carrinho_service.py:9-14 | an unknown product fails and leaves the cart as it was; otherwise exactly that product is appended at the end |
| Carrinho.Carrinho.Listar | services/public/carrinho_service.py:18-19 | the cart's entries, unchanged |
| Carrinho.Carrinho.Limpar | services/public/carrinho_service.py:23-24 | the cart is empty |
| Carrinho.Carrinho.Finalizar | services/public/carrinho_service.py:28-38 | an empty cart fails with no change; otherwise the link to the header and one line per entry in order, and the cart is emptied |
| Text.EncodeSpaces | services/public/carrinho_service.py:38 | every space becomes "%20", leaving no space |
| Enderecos.PrimeiroAusente | services/public/EnderecoService.py:8-10 | no missing field exactly when the six required fields are given; otherwise the first one missing |
| Enderecos.NovoEndereco | services/public/EnderecoService.py:12-21 | the new address belongs to the user and copies the fields, with an optional complement |
| Enderecos.CriarEndereco | services/public/EnderecoService.py:6-24 | the first missing required field is an error with no change; otherwise one address is added |
| Enderecos.EnderecoEditado | services/public/EnderecoService.py:33-45 | each editable field present takes its value; the owner never changes |
| Enderecos.LoopDescreveEdicao | services/public/EnderecoService.py:42-45 | the setattr loop over the editable fields gives exactly that edit |
| Enderecos.EditarEndereco | services/public/EnderecoService.py:28-47 | an unknown address fails with no change; otherwise only that address is edited |
| Enderecos.DeletarEndereco | services/public/EnderecoService.py:51-57 | an unknown address fails with no change; otherwise the address, its orders and their items and transactions are removed, keeping the tables consistent |
| Enderecos.EnderecosDoUsuario | services/public/EnderecoService.py:61-63 | exactly the addresses whose user is the given one |
| Enderecos.ListagensParticionam | services/public/EnderecoService.py:61-63 | two users' listings are disjoint and every address is in its owner's |
| Enderecos.ObterEndereco | services/public/EnderecoService.py:67-71 | the address when it exists, and nothing otherwise |
| AdminEnderecos.ListarEnderecos | services/admin/AdminEnderecoService.py:5-21 | one record per stored address, each once |
| Auth.Registrar | services/public/auth_service.py:6-21 | a taken e-mail fails with no change; otherwise one user is added with the hash of the password, and e-mails stay unique |
| Auth.Login | services/public/auth_service.py:25-29 | success exactly when a user has the e-mail and the password check passes; otherwise "invalid credentials" |
| Auth.RecuperarSenha | services/public/auth_service.py:33-41 | an unknown e-mail fails with no change; otherwise only that user's hash is replaced |
| Auth.PerfilEditado | services/public/auth_service.py:58-73 | each truthy argument replaces its field, a new password is stored hashed, and the CPF and admin flag are kept |
| Auth.EditarPerfil | services/public/auth_service.py:45-76 | an unknown e-mail, or a new e-mail already used by anyone, fails with no change; otherwise only that user is edited, and e-mails stay unique |
| Eventos.RegistrarEvento | services/public/evento_service.py:7-14 | exactly one event with the given fields is appended |
| Eventos.Chaves | services/public/evento_service.py:23 | the groups are the distinct keys |
| Eventos.InserirDesc | services/public/evento_service.py:24 | inserting adds exactly one key |
| Eventos.InserirDescOrdena | services/public/evento_service.py:24 | inserting into a list sorted by count keeps it sorted |
| Eventos.InserirDescDistinta | services/public/evento_service.py:24 | inserting a new key into a list without repetitions keeps it without repetitions |
| Eventos.OrdenarDesc | services/public/evento_service.py:24 | the keys sorted by descending count, the same keys, no repetitions |
| Eventos.Ranking | services/public/evento_service.py:21-26 | at most `limit` groups, each with its count |
| Eventos.RankingCorreto | services/public/evento_service.py:21-26 | the ranking is sorted by descending count, without repetitions, and no key left out outsells the last one listed |
| Eventos.Compras | services/public/evento_service.py:22 | exactly the product ids of "compra" events |
| Eventos.TopVendas | services/public/evento_service.py:18-30 | at most `limit` entries, each with at least one sale |
| Eventos.TopVendasOrdenado | services/public/evento_service.py:20-26 | each entry's total is its product's number of purchase events; totals descend, each product once, and a purchased product left out means `limit` entries, none outsold by it |
| Eventos.TopVendasSoCompras | services/public/evento_service.py:22 | an event other than a purchase does not change the best sellers |
| Eventos.ComprasConta | services/public/evento_service.py:21-23 | a product's count is the number of its purchase events |
| Eventos.ComprasSimilares | services/public/evento_service.py:44-49 | only products of the same category (two without a category match, as `== None` becomes `IS NULL`), never the product itself |
| Eventos.Recomendacoes | services/public/evento_service.py:34-56 | an unknown product gives []; otherwise at most `limit` products of its category other than itself, with their names and at least one sale each |
| Eventos.RecomendacoesContam | services/public/evento_service.py:40-50 | each recommendation's `vendas` is its product's number of purchase events |
| Eventos.RecomendacoesOrdenadas | services/public/evento_service.py:40-53 | `vendas` descend, each product once, and a purchased product of the category left out means `limit` entries, none outsold by it |
| Eventos.RecomendacaoOmitida | services/public/evento_service.py:51-52 | a purchased product of the category that is not recommended sells no more than the last recommendation |
| Eventos.RecomendacaoConta | services/public/evento_service.py:44-50 | a recommended product's count is its number of purchase events |
| DateTime.NoFuso | utils/date_time.py:17-27 | conversion changes the offset and keeps the instant |
| DateTime.AgoraBrasil | utils/date_time.py:6-7 | the current instant at offset −3 h |
| DateTime.UtcParaBrasil | utils/date_time.py:10-17 | None gives None; a naive time is read as UTC, so its clock drops 3 h; an aware time keeps its instant |
| DateTime.BrasilParaUtc | utils/date_time.py:20-27 | None gives None; a naive time is read as UTC−3, so its clock gains 3 h; an aware time keeps its instant |
| DateTime.IdaEVolta | utils/date_time.py:10-27 | UTC to Brazil and back gives the same instant |
| DateTime.VoltaEIda | utils/date_time.py:10-27 | Brazil to UTC and back gives the same instant |
| DateTime.FormatarBrasil | utils/date_time.py:30-38 | None gives None; a time not at −3 h is converted before formatting |

## Left out

- Email notifications (`EmailNotificationService`, `utils/email.py`) are left out. The order is
  committed before the e-mail is sent, so a failed e-mail changes no table.
- Every HTTP and SDK call is left out: Melhor Envio requests, Mercado Pago `preference`,
  `payment`, `merchant_order` and `refund`. Their successful answers are inputs.
- `PedidosRotas.CotacaoFreteCarrinho`: a carrier answer that is not 2xx, or a timeout, is not
  modelled. In the source, `raise_for_status()` turns it into a `ValueError` and the route
  answers 400; the model's `resposta` is always a list of options, so its success promise holds
  only for answered quotes.
- The PIX payment (`processar_pagamento_pix`) and `consultar_pagamento` only forward SDK answers,
  so they are not modelled.
- `float(...)` and `_num` are left out: the model computes exactly, in integers or reals, and says
  nothing about float rounding.
- Foreign libraries are parameters: password hashing, CPF encryption, JWT and `strftime`.
- The Cloudinary upload is left out. Its URL is an input to `AdminProdutos.AdicionarProduto`.
- The preference's `payer`, `back_urls` and `payment_methods` fields, and the cart request's
  recipient strings, are not stated. They are fixed or copied from the user and address.
- Route plumbing, token checks and `obter_pedido` / `listar` pass-throughs are left out.
  `produtos_service.py` is not part of this model.
- The code that applies webhook results to orders is not part of this model. It comes from
  `services.public.PagamentosService`, whose source is not shown.
- `MelhorEnvioService` is not part of this model either; the quote route calls it, and
  `melhor_envio_service.py` stands in for it.
- Null values written into `NOT NULL` columns are not modelled: a request that would hit a
  database constraint at commit is assumed not to happen.
- `PedidosLegado.CriarPedidoLegado`: against the schema, its success path is unreachable. The
  legacy checkout never sets the item rows' `peso`, `comprimento`, `altura` and `largura`, which
  the item table declares `NOT NULL`. So every legacy request with a valid item fails with an
  integrity error, at commit or when a later product lookup flushes the session. The model's
  success branch describes the checkout against a schema without those constraints.
- Deleting a product that order rows or promotions still point at is not modelled, because the
  foreign-key behaviour there is database-dependent.
- Concurrency, locking and transaction isolation are left out.
- The carts returned by `Adicionar` and `Listar` are value snapshots. Callers mutating the
  returned list is not modelled.
- `Eventos.TopVendas`: ties between equal counts come in an unspecified order in the source, as
  SQL leaves them. The model fixes one order; `Eventos.TopVendasOrdenado` and
  `Eventos.RecomendacoesOrdenadas` state only what the query fixes: descending counts, each
  product once, and no product left out outselling the last one kept.
- `Auth.Login`: the password check is a parameter, so the contract speaks of the check's verdict
  rather than of a hash comparison.
- `Auth.EditarPerfil`: the fields assigned before a failing e-mail check are discarded. No
  commit happens on failure, so the model leaves the user unchanged.
- `MelhorEnvio.CriarPedidoCarrinho`: the CPF passes through the foreign decryption twice; the
  model has one decryption parameter.
- `PedidosRotas.CotacaoFreteCarrinho`: without an address id the route takes the user's first
  address in database order; the model takes any of the user's addresses, so the quote's outcome
  is stated for every such choice rather than for one.
- Text functions are ASCII only: `Text.Upper` maps only `a`-`z` and `Text.Strip` removes only ASCII
  whitespace, while Python's `str.upper()` and `str.strip()` are Unicode-aware. A status such as
  "envıado" (dotless ı) or a service name ending in a no-break space is therefore treated
  differently (`AdminPedidos.StatusPedidoDado`, `MelhorEnvio.ObterIdServico`). Likewise
  `Text.Digits` and `MelhorEnvio.OnlyDigits` keep only `0`-`9`, while the `\D` pattern of Python's
  `re` module treats every Unicode decimal digit (such as Arabic-Indic `٣`) as a digit, so a postal
  code or CPF written with such digits keeps them in the source and loses them in the model.
- JSON `null` and an absent key are both `None` in the model. Where the source reads a present
  `null` differently from a missing key, the model takes the missing-key path rather than the
  `TypeError` or conversion error that `null` raises: `quantidade` in the checkout
  (`Checkout.ReservarProdutos`), the shipping `valor` (`PedidosService.ValidarFrete`), an option's
  `name` (`MelhorEnvio.ObterIdServico`), an option's `price` (`PedidosRotas.FiltrarOpcoes`) and an
  item's `descricao` (`MercadoPago.MpItemDe`).
