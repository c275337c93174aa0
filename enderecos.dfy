/** The address service (`services/public/EnderecoService.py`): creating, editing, deleting,
    listing and fetching a user's delivery addresses. */
module Enderecos {
  import opened Common
  import opened Models
  import opened Store

  datatype EnderecoErro = CampoObrigatorio(campo: string) | EnderecoNaoEncontrado

  /** A request body: `Some` is a key that is present. `complemento` may be present with a null
      value, hence its inner option. */
  datatype DadosEndereco = DadosEndereco(
    cep: Option<string>,
    logradouro: Option<string>,
    numero: Option<string>,
    complemento: Option<Option<string>>,
    bairro: Option<string>,
    cidade: Option<string>,
    estado: Option<string>)

  /** The required keys of a new address, in the order they are checked. */
  const Obrigatorios: seq<string> := ["cep", "logradouro", "numero", "bairro", "cidade", "estado"]

  /** `campo in data` for a required key. */
  predicate Presente(d: DadosEndereco, campo: string) {
    match campo
    case "cep" => d.cep.Some?
    case "logradouro" => d.logradouro.Some?
    case "numero" => d.numero.Some?
    case "bairro" => d.bairro.Some?
    case "cidade" => d.cidade.Some?
    case "estado" => d.estado.Some?
    case _ => true
  }

  /** The first of `campos` that is absent, if any. */
  function PrimeiroAusente(d: DadosEndereco, campos: seq<string>): (r: Option<string>)
    ensures r.None? <==> forall j :: 0 <= j < |campos| ==> Presente(d, campos[j])
    ensures r.Some? ==> exists j :: 0 <= j < |campos| && campos[j] == r.value && !Presente(d, campos[j])
                          && forall l :: 0 <= l < j ==> Presente(d, campos[l])
    decreases |campos|
  {
    if campos == [] then None
    else if !Presente(d, campos[0]) then Some(campos[0])
    else
      var r := PrimeiroAusente(d, campos[1..]);
      assert forall j :: 0 <= j < |campos| - 1 ==> campos[1..][j] == campos[j + 1];
      if r.Some? then
        var j :| 0 <= j < |campos| - 1 && campos[1..][j] == r.value && !Presente(d, campos[1..][j])
                 && forall l :: 0 <= l < j ==> Presente(d, campos[1..][l]);
        assert campos[j + 1] == r.value;
        r
      else r
  }

  /** The address `criar_endereco` builds for user `uid`; the complement is optional. */
  function NovoEndereco(uid: Id, d: DadosEndereco): (r: Endereco)
    requires PrimeiroAusente(d, Obrigatorios).None?
    ensures r.usuarioId == uid && r.cep == d.cep.value && r.logradouro == d.logradouro.value
    ensures r.numero == d.numero.value && r.bairro == d.bairro.value && r.cidade == d.cidade.value
    ensures r.estado == d.estado.value
    ensures r.complemento == (if d.complemento.Some? then d.complemento.value else None)
  {
    assert Presente(d, Obrigatorios[0]) && Presente(d, Obrigatorios[1]) && Presente(d, Obrigatorios[2]);
    assert Presente(d, Obrigatorios[3]) && Presente(d, Obrigatorios[4]) && Presente(d, Obrigatorios[5]);
    Endereco(uid, d.cep.value, d.logradouro.value, d.numero.value,
             if d.complemento.Some? then d.complemento.value else None,
             d.bairro.value, d.cidade.value, d.estado.value)
  }

  /** `criar_endereco`. `novoId` is the fresh uuid. The first absent required key raises and
      nothing is stored; otherwise exactly one address is added. */
  method CriarEndereco(db: Db, uid: Id, d: DadosEndereco, novoId: Id) returns (r: Result<Endereco, EnderecoErro>)
    requires novoId !in db.enderecos
    modifies db`enderecos
    ensures r.Err? <==> PrimeiroAusente(d, Obrigatorios).Some?
    ensures r.Err? ==> r.error == CampoObrigatorio(PrimeiroAusente(d, Obrigatorios).value)
                       && db.enderecos == old(db.enderecos)
    ensures r.Ok? ==> r.value == NovoEndereco(uid, d) && db.enderecos == old(db.enderecos)[novoId := r.value]
  {
    var ausente := PrimeiroAusente(d, Obrigatorios);
    if ausente.Some? {
      return Err(CampoObrigatorio(ausente.value));
    }
    var e := NovoEndereco(uid, d);
    db.enderecos := db.enderecos[novoId := e];
    r := Ok(e);
  }

  /** The fields the edit loops may set, in their order. */
  datatype Campo = Cep | Logradouro | Numero | Complemento | Bairro | Cidade | Estado

  const Editaveis: seq<Campo> := [Cep, Logradouro, Numero, Complemento, Bairro, Cidade, Estado]

  /** `if campo in data: setattr(endereco, campo, data[campo])` */
  function Aplicar(e: Endereco, c: Campo, d: DadosEndereco): Endereco {
    match c
    case Cep => if d.cep.Some? then e.(cep := d.cep.value) else e
    case Logradouro => if d.logradouro.Some? then e.(logradouro := d.logradouro.value) else e
    case Numero => if d.numero.Some? then e.(numero := d.numero.value) else e
    case Complemento => if d.complemento.Some? then e.(complemento := d.complemento.value) else e
    case Bairro => if d.bairro.Some? then e.(bairro := d.bairro.value) else e
    case Cidade => if d.cidade.Some? then e.(cidade := d.cidade.value) else e
    case Estado => if d.estado.Some? then e.(estado := d.estado.value) else e
  }

  /** The loop over `campos`, one `setattr` after another. */
  function AplicarTodos(e: Endereco, campos: seq<Campo>, d: DadosEndereco): Endereco
    decreases |campos|
  {
    if campos == [] then e else AplicarTodos(Aplicar(e, campos[0], d), campos[1..], d)
  }

  /** The address as the request describes it: each present key replaces its field and the owner
      never changes. */
  function EnderecoEditado(e: Endereco, d: DadosEndereco): (r: Endereco)
    ensures r.usuarioId == e.usuarioId
    ensures r.cep == d.cep.GetOr(e.cep) && r.logradouro == d.logradouro.GetOr(e.logradouro)
    ensures r.numero == d.numero.GetOr(e.numero) && r.complemento == d.complemento.GetOr(e.complemento)
    ensures r.bairro == d.bairro.GetOr(e.bairro) && r.cidade == d.cidade.GetOr(e.cidade)
    ensures r.estado == d.estado.GetOr(e.estado)
  {
    Endereco(e.usuarioId, d.cep.GetOr(e.cep), d.logradouro.GetOr(e.logradouro), d.numero.GetOr(e.numero),
             d.complemento.GetOr(e.complemento), d.bairro.GetOr(e.bairro), d.cidade.GetOr(e.cidade),
             d.estado.GetOr(e.estado))
  }

  /** The `setattr` loop over the editable fields yields exactly the described address. */
  lemma LoopDescreveEdicao(e: Endereco, d: DadosEndereco)
    ensures AplicarTodos(e, Editaveis, d) == EnderecoEditado(e, d)
  {
    var c := Editaveis;
    var e1 := Aplicar(e, Cep, d);
    var e2 := Aplicar(e1, Logradouro, d);
    var e3 := Aplicar(e2, Numero, d);
    var e4 := Aplicar(e3, Complemento, d);
    var e5 := Aplicar(e4, Bairro, d);
    var e6 := Aplicar(e5, Cidade, d);
    var e7 := Aplicar(e6, Estado, d);
    assert AplicarTodos(e, c, d) == AplicarTodos(e1, c[1..], d);
    assert AplicarTodos(e1, c[1..], d) == AplicarTodos(e2, c[2..], d);
    assert AplicarTodos(e2, c[2..], d) == AplicarTodos(e3, c[3..], d);
    assert AplicarTodos(e3, c[3..], d) == AplicarTodos(e4, c[4..], d);
    assert AplicarTodos(e4, c[4..], d) == AplicarTodos(e5, c[5..], d);
    assert AplicarTodos(e5, c[5..], d) == AplicarTodos(e6, c[6..], d);
    assert AplicarTodos(e6, c[6..], d) == AplicarTodos(e7, c[7..], d);
    assert c[7..] == [];
  }

  /** `editar_endereco` (and the admin's `atualizar_endereco`, the same code): an unknown id raises;
      otherwise each editable key present in the request replaces its field. */
  method EditarEndereco(db: Db, eid: Id, d: DadosEndereco) returns (r: Result<Endereco, EnderecoErro>)
    modifies db`enderecos
    ensures r.Err? <==> eid !in old(db.enderecos)
    ensures r.Err? ==> r.error == EnderecoNaoEncontrado && db.enderecos == old(db.enderecos)
    ensures r.Ok? ==> r.value == EnderecoEditado(old(db.enderecos)[eid], d)
                      && db.enderecos == old(db.enderecos)[eid := r.value]
  {
    if eid !in db.enderecos {
      return Err(EnderecoNaoEncontrado);
    }
    var e := db.enderecos[eid];
    ghost var e0 := e;
    for i := 0 to |Editaveis|
      invariant AplicarTodos(e, Editaveis[i..], d) == AplicarTodos(e0, Editaveis, d)
    {
      e := Aplicar(e, Editaveis[i], d);
      assert Editaveis[i..][1..] == Editaveis[i + 1..];
    }
    LoopDescreveEdicao(e0, d);
    db.enderecos := db.enderecos[eid := e];
    r := Ok(e);
  }

  /** The orders delivered to address `eid`. */
  predicate DoEndereco(pedidos: map<Id, Pedido>, eid: Id, pid: Id) {
    pid in pedidos && pedidos[pid].enderecoId == Some(eid)
  }

  /** Every order's address exists, and every item and transaction belongs to an existing order. */
  predicate Integro(enderecos: map<Id, Endereco>, pedidos: map<Id, Pedido>, I: map<Id, ItemPedido>,
                    T: map<Id, Transacao>) {
    && (forall k :: k in pedidos && pedidos[k].enderecoId.Some? ==> pedidos[k].enderecoId.value in enderecos)
    && (forall k :: k in I ==> I[k].pedidoId in pedidos)
    && (forall k :: k in T ==> T[k].pedidoId in pedidos)
  }

  /** `deletar_endereco` (and the admin's, the same code). An unknown id raises. Deleting an
      address deletes its orders (the `pedidos` relationship of an address cascades deletes),
      their transactions (the same cascade from an order) and their items (the `ON DELETE CASCADE`
      of the items' foreign key); nothing else is touched. */
  method DeletarEndereco(db: Db, eid: Id) returns (r: Result<Endereco, EnderecoErro>)
    modifies db`enderecos, db`pedidos, db`itens, db`transacoes
    ensures r.Err? <==> eid !in old(db.enderecos)
    ensures r.Err? ==> r.error == EnderecoNaoEncontrado && db.enderecos == old(db.enderecos)
                       && db.pedidos == old(db.pedidos) && db.itens == old(db.itens)
                       && db.transacoes == old(db.transacoes)
    ensures r.Ok? ==>
      && r.value == old(db.enderecos)[eid] && db.enderecos == old(db.enderecos) - {eid}
      && (forall k :: k in db.pedidos <==> k in old(db.pedidos) && !DoEndereco(old(db.pedidos), eid, k))
      && (forall k :: k in db.pedidos ==> db.pedidos[k] == old(db.pedidos)[k])
      && (forall k :: k in db.itens <==> k in old(db.itens) && !DoEndereco(old(db.pedidos), eid, old(db.itens)[k].pedidoId))
      && (forall k :: k in db.itens ==> db.itens[k] == old(db.itens)[k])
      && (forall k :: k in db.transacoes <==>
            k in old(db.transacoes) && !DoEndereco(old(db.pedidos), eid, old(db.transacoes)[k].pedidoId))
      && (forall k :: k in db.transacoes ==> db.transacoes[k] == old(db.transacoes)[k])
    ensures Integro(old(db.enderecos), old(db.pedidos), old(db.itens), old(db.transacoes)) ==>
              Integro(db.enderecos, db.pedidos, db.itens, db.transacoes)
  {
    if eid !in db.enderecos {
      return Err(EnderecoNaoEncontrado);
    }
    r := Ok(db.enderecos[eid]);
    var P := db.pedidos;
    db.itens := Restrict(db.itens, (i: ItemPedido) => !DoEndereco(P, eid, i.pedidoId));
    db.transacoes := Restrict(db.transacoes, (t: Transacao) => !DoEndereco(P, eid, t.pedidoId));
    db.pedidos := Restrict(P, (p: Pedido) => p.enderecoId != Some(eid));
    db.enderecos := db.enderecos - {eid};
  }

  /** `listar_enderecos_usuario`: exactly the user's addresses. */
  function EnderecosDoUsuario(enderecos: map<Id, Endereco>, uid: Id): (r: map<Id, Endereco>)
    ensures forall k :: k in r <==> k in enderecos && enderecos[k].usuarioId == uid
    ensures forall k :: k in r ==> r[k] == enderecos[k]
  {
    Restrict(enderecos, (e: Endereco) => e.usuarioId == uid)
  }

  /** Every address belongs to exactly one user's listing. */
  lemma ListagensParticionam(enderecos: map<Id, Endereco>, u1: Id, u2: Id)
    ensures u1 != u2 ==> EnderecosDoUsuario(enderecos, u1).Keys !! EnderecosDoUsuario(enderecos, u2).Keys
    ensures forall k :: k in enderecos ==> k in EnderecosDoUsuario(enderecos, enderecos[k].usuarioId)
  {
  }

  /** `obter_endereco`: the address, or None for an unknown id. */
  function ObterEndereco(enderecos: map<Id, Endereco>, eid: Id): (r: Option<Endereco>)
    ensures r.Some? <==> eid in enderecos
    ensures r.Some? ==> r.value == enderecos[eid]
  {
    if eid in enderecos then Some(enderecos[eid]) else None
  }
}
