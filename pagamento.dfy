/**
 * The payment record of an order (model/Pagamento.java): a method, a status,
 * a `pago` flag and a snapshot of the order's totals.
 */
module PagamentoModel {
  import opened Wrappers
  import opened Money
  import opened VendasModel

  datatype StatusPagamento = PENDENTE | APROVADO | RECUSADO | CANCELADO

  /** A payment method, by the name of its enum constant. */
  datatype FormaPagamento = FormaPagamento(nome: string)

  /** The four amounts a payment copies from its order. */
  datatype Snapshot = Snapshot(totalProdutos: real, desconto: real, frete: real, valorFinal: real)

  /** All four amounts are at scale 2. */
  predicate NaEscala(s: Snapshot)
  {
    IsCents(s.totalProdutos) && IsCents(s.desconto) && IsCents(s.frete) && IsCents(s.valorFinal)
  }

  /** normalizeScale(), on values: every amount to scale 2 HALF_UP. */
  function Normalizado(s: Snapshot): (r: Snapshot)
    ensures NaEscala(r)
  {
    Snapshot(Round2(s.totalProdutos), Round2(s.desconto), Round2(s.frete), Round2(s.valorFinal))
  }

  /** Normalising a normalised snapshot changes nothing, and neither does normalising one at scale 2. */
  lemma NormalizadoIdempotente(s: Snapshot)
    ensures Normalizado(Normalizado(s)) == Normalizado(s)
    ensures NaEscala(s) ==> Normalizado(s) == s
  {
    Round2Idempotent(s.totalProdutos);
    Round2Idempotent(s.desconto);
    Round2Idempotent(s.frete);
    Round2Idempotent(s.valorFinal);
    if NaEscala(s) {
      Round2OfCents(s.totalProdutos);
      Round2OfCents(s.desconto);
      Round2OfCents(s.frete);
      Round2OfCents(s.valorFinal);
    }
  }

  /** What snapshotFrom reads from the order: its totals, null read as zero (`safe`). */
  function Copiado(p: Pedido): Snapshot
    reads p, p.itens
  {
    Snapshot(p.TotalProdutos(), GetOr(p.desconto, 0.0), GetOr(p.frete, 0.0), GetOr(p.valorTotal, 0.0))
  }

  /**
   * A snapshot of an order whose totals were just recalculated is that order's
   * totals, unchanged by the normalisation, and it keeps the order's rule
   * valorFinal = max(0, totalProdutos - desconto + frete).
   */
  lemma SnapshotDePedidoRecalculado(p: Pedido)
    requires p.TotaisConsistentes()
    ensures Normalizado(Copiado(p)) == Copiado(p)
    ensures var s := Copiado(p);
      s.totalProdutos == p.TotalProdutos() && Some(s.desconto) == p.desconto
      && Some(s.frete) == p.frete && Some(s.valorFinal) == p.valorTotal
    ensures var s := Copiado(p);
      s.valorFinal == ClampZero(s.totalProdutos - s.desconto + s.frete)
  {
    var s := Copiado(p);
    CentsAdd(s.totalProdutos, s.desconto);
    CentsAdd(s.totalProdutos - s.desconto, s.frete);
    CentsClampZero(s.totalProdutos - s.desconto + s.frete);
    NormalizadoIdempotente(s);
  }

  class Pagamento {
    var id: Option<int>
    var pedido: Pedido?
    var forma: Option<FormaPagamento>
    var status: Option<StatusPagamento>
    var totalProdutos: Option<real>
    var desconto: Option<real>
    var frete: Option<real>
    var valorFinal: Option<real>
    var referenciaExterna: Option<string>
    var criadoEm: Option<Instante>
    var detalhes: Option<string>
    var pago: Option<bool>

    /**
     * Pagamento.builder() with pedido, forma, status and pago set; criadoEm
     * takes its builder default (the clock), the rest is null.
     */
    constructor Builder(pedido: Pedido?, forma: Option<FormaPagamento>, status: Option<StatusPagamento>,
                        pago: Option<bool>, agora: Instante)
      ensures this.pedido == pedido && this.forma == forma && this.status == status && this.pago == pago
      ensures id.None? && criadoEm == Some(agora)
      ensures totalProdutos.None? && desconto.None? && frete.None? && valorFinal.None?
      ensures referenciaExterna.None? && detalhes.None?
    {
      id := None;
      this.pedido := pedido;
      this.forma := forma;
      this.status := status;
      totalProdutos, desconto, frete, valorFinal := None, None, None, None;
      referenciaExterna := None;
      criadoEm := Some(agora);
      detalhes := None;
      this.pago := pago;
    }

    /** The four snapshot amounts, when none of them is null. */
    function Valores(): Option<Snapshot>
      reads this`totalProdutos, this`desconto, this`frete, this`valorFinal
    {
      if totalProdutos.Some? && desconto.Some? && frete.Some? && valorFinal.Some?
      then Some(Snapshot(totalProdutos.value, desconto.value, frete.value, valorFinal.value))
      else None
    }

    /** `pago` agrees with the status: true exactly when the payment was approved. */
    predicate PagoCoerente()
      reads this`status, this`pago
    {
      status.Some? && pago == Some(status.value == APROVADO)
    }

    /** The payment holds the current totals of order p. */
    predicate SnapshotDe(p: Pedido)
      reads this`pedido, this`totalProdutos, this`desconto, this`frete, this`valorFinal, p, p.itens
    {
      pedido == p && Valores() == Some(Copiado(p))
    }

    /**
     * snapshotFrom(p): points at p and copies p's totals, null as zero, each
     * at scale 2.
     */
    method SnapshotFrom(p: Pedido)
      modifies this`pedido, this`totalProdutos, this`desconto, this`frete, this`valorFinal
      ensures pedido == p
      ensures Valores() == Some(Normalizado(Copiado(p)))
      ensures p.TotaisConsistentes() ==> SnapshotDe(p)
    {
      var s := Copiado(p);
      pedido := p;
      totalProdutos, desconto, frete, valorFinal := Some(s.totalProdutos), Some(s.desconto), Some(s.frete), Some(s.valorFinal);
      NormalizeScale();
      if p.TotaisConsistentes() {
        SnapshotDePedidoRecalculado(p);
      }
    }

    /** normalizeScale(): every snapshot amount to scale 2 HALF_UP. */
    method NormalizeScale()
      requires Valores().Some?
      modifies this`totalProdutos, this`desconto, this`frete, this`valorFinal
      ensures Valores() == Some(Normalizado(old(Valores()).value))
    {
      totalProdutos := Some(Round2(totalProdutos.value));
      desconto := Some(Round2(desconto.value));
      frete := Some(Round2(frete.value));
      valorFinal := Some(Round2(valorFinal.value));
    }

    /**
     * prePersist(): default creation time and status PENDENTE; a null method
     * fails (after those two defaults); null amounts become zero, a null
     * `pago` becomes false, and the amounts go to scale 2.
     */
    method PrePersist(agora: Instante) returns (r: Outcome)
      modifies this
      ensures criadoEm == Some(GetOr(old(criadoEm), agora))
      ensures status == Some(GetOr(old(status), PENDENTE))
      ensures r.Pass? <==> forma.Some?
      ensures r.Fail? ==> r.erro == InvalidState
      ensures forma == old(forma) && pedido == old(pedido) && id == old(id)
      ensures referenciaExterna == old(referenciaExterna) && detalhes == old(detalhes)
      ensures r.Fail? ==> Valores() == old(Valores()) && pago == old(pago)
      ensures r.Pass? ==> pago == Some(GetOr(old(pago), false))
      ensures r.Pass? ==> Valores() == Some(Normalizado(Snapshot(
                GetOr(old(totalProdutos), 0.0), GetOr(old(desconto), 0.0),
                GetOr(old(frete), 0.0), GetOr(old(valorFinal), 0.0))))
    {
      if criadoEm.None? { criadoEm := Some(agora); }
      if status.None? { status := Some(PENDENTE); }
      if forma.None? {
        return Fail(InvalidState);
      }
      totalProdutos := Some(GetOr(totalProdutos, 0.0));
      desconto := Some(GetOr(desconto, 0.0));
      frete := Some(GetOr(frete, 0.0));
      valorFinal := Some(GetOr(valorFinal, 0.0));
      pago := Some(GetOr(pago, false));
      NormalizeScale();
      return Pass;
    }
  }
}
