/** The database session: one key-to-row map per table, plus the event log. Services change it
    by reassigning map entries; a rolled-back operation leaves every map as it was. */
module Store {
  import opened Common
  import opened Models

  class Db {
    var usuarios: map<Id, Usuario>
    var enderecos: map<Id, Endereco>
    var produtos: map<Id, Produto>
    var promocoes: map<Id, Promocao>
    var pedidos: map<Id, Pedido>
    var itens: map<Id, ItemPedido>
    var transacoes: map<Id, Transacao>
    var eventos: seq<Evento>

    /** An empty store. */
    constructor ()
      ensures usuarios == map[] && enderecos == map[] && produtos == map[] && promocoes == map[]
      ensures pedidos == map[] && itens == map[] && transacoes == map[] && eventos == []
    {
      usuarios, enderecos, produtos, promocoes := map[], map[], map[], map[];
      pedidos, itens, transacoes, eventos := map[], map[], map[], [];
    }
  }
}
