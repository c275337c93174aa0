/** The rows of the store's tables, one datatype per table, with the columns the services read
    or write. Numeric(10,2) columns are `Fixed2` hundredths; Integer columns are `int`. */
module Models {
  import opened Common
  import opened Status

  /** A product. `estoque` is the available stock. Weight is Numeric(10,2); height, width and
      length are whole centimetres. They are optional because the older schema has no such columns
      and the services read them as `produto.peso or 0`. */
  datatype Produto = Produto(
    nome: string,
    descricao: Option<string>,
    categoria: Option<string>,
    preco: Fixed2,
    img: Option<string>,
    estoque: int,
    peso: Option<Fixed2>,
    altura: Option<int>,
    largura: Option<int>,
    comprimento: Option<int>)

  /** A delivery address owned by a user. */
  datatype Endereco = Endereco(
    usuarioId: Id,
    cep: string,
    logradouro: string,
    numero: string,
    complemento: Option<string>,
    bairro: string,
    cidade: string,
    estado: string)

  /** A user. `cpf` is the stored (encrypted) document; `senhaHash` what the password hasher produced. */
  datatype Usuario = Usuario(
    nome: string,
    sobrenome: string,
    email: string,
    telefone: Option<string>,
    cpf: Option<string>,
    senhaHash: string,
    isAdmin: bool)

  /** An order. `criadoEm` is a timestamp; the last four fields are filled in by the carrier flow. */
  datatype Pedido = Pedido(
    usuarioId: Option<Id>,
    enderecoId: Option<Id>,
    valorTotal: Fixed2,
    status: StatusPedido,
    freteTipo: Option<string>,
    freteValor: Option<Fixed2>,
    freteServicoId: Option<int>,
    freteServicoNome: Option<string>,
    criadoEm: int,
    melhorEnvioId: Option<string>,
    melhorEnvioProtocolo: Option<string>,
    melhorEnvioRastreio: Option<string>,
    etiquetaUrl: Option<string>)

  /** A line of an order: a snapshot of the product's price and physical attributes (all
      Numeric(10,2)). The older order service stores no physical attributes. */
  datatype ItemPedido = ItemPedido(
    pedidoId: Id,
    produtoId: Id,
    quantidade: int,
    precoUnitario: Fixed2,
    peso: Option<Fixed2>,
    comprimento: Option<Fixed2>,
    altura: Option<Fixed2>,
    largura: Option<Fixed2>)

  /** A payment transaction of an order. */
  datatype Transacao = Transacao(
    pedidoId: Id,
    valor: Fixed2,
    status: StatusPagamento,
    metodoPagamento: string,
    mpPaymentId: Option<string>,
    mpPreferenceId: Option<string>)

  /** A percentage discount on one product (a Float column). */
  datatype Promocao = Promocao(produtoId: Id, descontoPercentual: real)

  /** A user-interaction event ("compra" for a purchase). */
  datatype Evento = Evento(usuarioId: Option<Id>, produtoId: Option<Id>, tipoEvento: Option<string>)

  /** `Σ preco_unitario × quantidade` over order rows. */
  function TotalItens(I: seq<ItemPedido>): int
    decreases |I|
  {
    if I == [] then 0 else TotalItens(I[..|I| - 1]) + I[|I| - 1].precoUnitario * I[|I| - 1].quantidade
  }

  /** Whole centimetres stored into a Numeric(10,2) column. */
  function CmToFixed2(cm: int): Fixed2 {
    cm * 100
  }
}
