/** The older admin order service (`services/admin/admin_pedidos_service.py`). Its updates and
    item deletion are the same code as the current service and are the members of `AdminPedidos`;
    its order deletion reaches the same state as the current one (the order's transactions go
    through the `transacoes` relationship's cascade, its items through the `ON DELETE CASCADE` of
    their foreign key), so it is `AdminPedidos.DeletarPedido` too. What differs is the listing:
    no filters and no customer name. */
module AdminPedidosLegado {
  import opened Common
  import opened Status
  import opened Models
  import opened Store
  import opened AdminPedidos

  /** One entry of this service's listing. */
  datatype PedidoResumo = PedidoResumo(id: Id, usuarioId: Option<Id>, valorTotal: Fixed2, status: string, criadoEm: int)

  function Resumo(db: Db, pid: Id): (r: PedidoResumo)
    reads db
    requires pid in db.pedidos
    ensures r.id == pid && r.status == PedidoNome(db.pedidos[pid].status)
    ensures r.valorTotal == db.pedidos[pid].valorTotal && r.usuarioId == db.pedidos[pid].usuarioId
  {
    var p := db.pedidos[pid];
    PedidoResumo(pid, p.usuarioId, p.valorTotal, PedidoNome(p.status), p.criadoEm)
  }

  /** `listar_pedidos`: one entry per order, in the query's order. */
  method ListarPedidosLegado(db: Db, ordem: seq<Id>) returns (r: seq<PedidoResumo>)
    requires Enumera(db.pedidos, ordem)
    ensures |r| == |ordem|
    ensures forall j :: 0 <= j < |r| ==> r[j] == Resumo(db, ordem[j])
    ensures forall k :: k in db.pedidos <==> exists j :: 0 <= j < |r| && r[j].id == k
    ensures forall j, l :: 0 <= j < l < |r| ==> r[j].id != r[l].id
  {
    r := [];
    for i := 0 to |ordem|
      invariant |r| == i
      invariant forall j :: 0 <= j < i ==> r[j] == Resumo(db, ordem[j])
    {
      r := r + [Resumo(db, ordem[i])];
    }
    forall k | k in db.pedidos
      ensures exists j :: 0 <= j < |r| && r[j].id == k
    {
      var j :| 0 <= j < |ordem| && ordem[j] == k;
      assert r[j].id == k;
    }
  }

  /** With no filter the current listing names the same orders in the same order as this one. */
  lemma SemFiltroListaTudo(db: Db, ordem: seq<Id>)
    requires forall j :: 0 <= j < |ordem| ==> ordem[j] in db.pedidos
    ensures var l := Listagem(db, Filtro(None, None, None), ordem);
      |l| == |ordem| && forall j :: 0 <= j < |l| ==> l[j].id == ordem[j] && l[j].status == Resumo(db, ordem[j]).status
  {
    ListagemSemFiltro(db, ordem);
  }
}
