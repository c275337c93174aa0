/** The discount arithmetic of `PromocaoService.calcular_preco_com_desconto`
    (`services/public/promocoes_service.py`). Prices and percentages are exact reals: the source
    computes on decimals after turning the float percentage into its decimal text. */
module Promocoes {
  import opened Common

  /** `bool(x)` for an optional number. */
  predicate TruthyReal(x: Option<real>) {
    x.Some? && x.value != 0.0
  }

  /** A falsy price or a falsy percentage gives the price back; otherwise the price less that
      percentage of it. */
  function PrecoComDesconto(preco: Option<real>, desconto: Option<real>): (r: Option<real>)
    ensures !TruthyReal(preco) || !TruthyReal(desconto) ==> r == preco
    ensures TruthyReal(preco) && TruthyReal(desconto) ==>
      r.Some? && r.value == preco.value * (100.0 - desconto.value) / 100.0
  {
    if !TruthyReal(preco) || !TruthyReal(desconto) then preco
    else Some(preco.value - preco.value * desconto.value / 100.0)
  }

  /** Multiplying by a non-negative factor keeps the order. */
  lemma MulMonotona(a: real, x: real, y: real)
    requires a >= 0.0 && x <= y
    ensures a * x <= a * y
  {
    var d := y - x;
    assert a * y == a * x + a * d;
    assert a * d >= 0.0;
  }

  /** A percentage between 0 and 100 keeps a non-negative price between 0 and the price. */
  lemma DescontoLimitado(preco: real, desconto: real)
    requires preco >= 0.0 && 0.0 <= desconto <= 100.0
    ensures var r := PrecoComDesconto(Some(preco), Some(desconto));
      r.Some? && 0.0 <= r.value <= preco
  {
    MulMonotona(preco, 0.0, desconto);
    MulMonotona(preco, desconto, 100.0);
    var p := preco * desconto;
    assert 0.0 <= p <= preco * 100.0;
    assert 0.0 <= p / 100.0 <= preco;
  }

  /** A full discount makes the product free. */
  lemma DescontoTotal(preco: real)
    ensures PrecoComDesconto(Some(preco), Some(100.0)) == Some(0.0)
  {
  }

  /** A larger percentage never gives a higher price. */
  lemma DescontoMonotono(preco: real, d1: real, d2: real)
    requires preco > 0.0 && 0.0 < d1 <= d2
    ensures PrecoComDesconto(Some(preco), Some(d2)).value <= PrecoComDesconto(Some(preco), Some(d1)).value
  {
    MulMonotona(preco, d1, d2);
    assert preco * d1 / 100.0 <= preco * d2 / 100.0;
  }
}
