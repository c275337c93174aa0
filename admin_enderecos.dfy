/** The admin address service (`services/admin/AdminEnderecoService.py`). Its update and delete are
    the same code as the public service's edit and delete, `Enderecos.EditarEndereco` and
    `Enderecos.DeletarEndereco`; what it adds is the listing of every address. */
module AdminEnderecos {
  import opened Common
  import opened Models

  /** One entry of the listing: the address and its id. */
  datatype EnderecoListado = EnderecoListado(id: Id, endereco: Endereco)

  /** `listar_enderecos`: one record per address, in the query's order. */
  function ListarEnderecos(enderecos: map<Id, Endereco>, ordem: seq<Id>): (r: seq<EnderecoListado>)
    requires Enumera(enderecos, ordem)
    ensures |r| == |ordem|
    ensures forall j :: 0 <= j < |r| ==> r[j] == EnderecoListado(ordem[j], enderecos[ordem[j]])
    ensures forall k :: k in enderecos <==> exists j :: 0 <= j < |r| && r[j].id == k
    ensures forall j, l :: 0 <= j < l < |r| ==> r[j].id != r[l].id
  {
    var r := seq(|ordem|, j requires 0 <= j < |ordem| => EnderecoListado(ordem[j], enderecos[ordem[j]]));
    assert forall k :: k in enderecos ==> exists j :: 0 <= j < |r| && r[j].id == k by {
      forall k | k in enderecos ensures exists j :: 0 <= j < |r| && r[j].id == k {
        var j :| 0 <= j < |ordem| && ordem[j] == k;
        assert r[j].id == k;
      }
    }
    r
  }
}
