/**
 * PagamentoService: starts, confirms, refreshes and cancels the payment of
 * an order. Its invariant is the one the payment table promises across all
 * transitions: at most one payment per order, `pago` true exactly when the
 * status is APROVADO, and a PENDENTE payment holding its order's current
 * totals.
 */
module PagamentoServico {
  import opened Wrappers
  import opened Money
  import opened VendasModel
  import opened PagamentoModel
  import opened Repositorios

  class PagamentoService {
    const pedidoRepository: PedidoRepository
    const pagamentoRepository: PagamentoRepository

    constructor (pedidoRepository: PedidoRepository, pagamentoRepository: PagamentoRepository)
      ensures this.pedidoRepository == pedidoRepository && this.pagamentoRepository == pagamentoRepository
      ensures pagamentoRepository.porPedido == map[] ==> Valid()
    {
      this.pedidoRepository := pedidoRepository;
      this.pagamentoRepository := pagamentoRepository;
    }

    /** The stored order with id pedidoId, as a frame. */
    function PedidoEm(pedidoId: int): set<Pedido>
      reads pedidoRepository
    {
      if pedidoId in pedidoRepository.pedidos then {pedidoRepository.pedidos[pedidoId]} else {}
    }

    /** The stored order with id pedidoId, or null. */
    function PedidoOuNulo(pedidoId: int): Pedido?
      reads pedidoRepository
    {
      if pedidoId in pedidoRepository.pedidos then pedidoRepository.pedidos[pedidoId] else null
    }

    /** The payment rows, as a frame. */
    ghost function Pagamentos(): set<Pagamento>
      reads pagamentoRepository
    {
      pagamentoRepository.porPedido.Values
    }

    /** The payment of order p, if it has one, as a frame. */
    function PagamentoDoPedido(p: Pedido): set<Pagamento>
      reads pagamentoRepository
    {
      if p in pagamentoRepository.porPedido then {pagamentoRepository.porPedido[p]} else {}
    }

    /** The payment of the stored order with id pedidoId, if any, as a frame. */
    function PagamentoEm(pedidoId: int): set<Pagamento>
      reads pedidoRepository, pagamentoRepository
    {
      if pedidoId in pedidoRepository.pedidos then PagamentoDoPedido(pedidoRepository.pedidos[pedidoId]) else {}
    }

    /**
     * The invariant, except that the payment of order x (if any) may hold
     * stale totals: the table's constraints, every payment belongs to a
     * stored order, `pago` agrees with the status, and a PENDENTE payment
     * of any other order holds that order's totals.
     */
    ghost predicate ValidSalvo(x: Pedido?)
      reads pedidoRepository, pedidoRepository.pedidos.Values, pedidoRepository.Itens()
      reads pagamentoRepository, pagamentoRepository.porPedido.Values
    {
      var m := pagamentoRepository.porPedido;
      && pagamentoRepository.Valid()
      && (forall p :: p in m ==> m[p].PagoCoerente() && p in pedidoRepository.pedidos.Values)
      && (forall p :: p in m && p in pedidoRepository.pedidos.Values && p != x && m[p].status == Some(PENDENTE) ==>
            m[p].SnapshotDe(p))
    }

    ghost predicate Valid()
      reads pedidoRepository, pedidoRepository.pedidos.Values, pedidoRepository.Itens()
      reads pagamentoRepository, pagamentoRepository.porPedido.Values
    {
      ValidSalvo(null)
    }

    /** Once x has no payment, or its payment is not PENDENTE, or holds x's totals, nothing is excused. */
    lemma SemPendencia(x: Pedido)
      requires ValidSalvo(x)
      requires x in pagamentoRepository.porPedido ==>
                 var pag := pagamentoRepository.porPedido[x];
                 pag.status != Some(PENDENTE) || pag.SnapshotDe(x)
      ensures Valid()
    {
    }

    /**
     * Changing the payment pag (of order x), and nothing else, keeps the
     * invariant for every other order; if pag is not PENDENTE or holds x's
     * totals, the whole invariant holds.
     */
    twostate lemma PagamentoAlterado(pag: Pagamento)
      requires pag in old(Pagamentos()) && old(pag.pedido) != null
      requires old(ValidSalvo(pag.pedido))
      requires pedidoRepository.pedidos == old(pedidoRepository.pedidos)
      requires pagamentoRepository.porPedido == old(pagamentoRepository.porPedido)
      requires pagamentoRepository.proximoId == old(pagamentoRepository.proximoId)
      requires forall q :: q in old(pedidoRepository.pedidos.Values) && q != old(pag.pedido) ==> unchanged(q) && unchanged(q.itens)
      requires forall q :: q in old(Pagamentos()) && q != pag ==> unchanged(q)
      requires pag.pedido == old(pag.pedido) && pag.forma.Some? && pag.status.Some? && pag.id == old(pag.id) && pag.PagoCoerente()
      ensures ValidSalvo(pag.pedido)
      ensures pag.status != Some(PENDENTE) || pag.SnapshotDe(pag.pedido) ==> Valid()
    {
      var x := pag.pedido;
      var m := pagamentoRepository.porPedido;
      forall p | p in m && m[p] != pag
        ensures unchanged(m[p])
      {
        assert m[p] in old(Pagamentos());
      }
      forall p | p in m && p in pedidoRepository.pedidos.Values && p != x && m[p].status == Some(PENDENTE)
        ensures m[p].SnapshotDe(p)
      {
        assert m[p] in old(Pagamentos());
        assert old(m[p].SnapshotDe(p));
      }
    }

    /**
     * Changing order x (its fields or its lines), possibly adding new
     * orders, and touching no payment keeps the invariant outside x.
     */
    twostate lemma PedidoAlterado(new x: Pedido?)
      requires old(Valid())
      requires old(pedidoRepository.pedidos.Values) <= pedidoRepository.pedidos.Values
      requires unchanged(pagamentoRepository) && unchanged(old(Pagamentos()))
      requires forall q :: q in old(pedidoRepository.pedidos.Values) && q != x ==> unchanged(q) && unchanged(q.itens)
      ensures ValidSalvo(x)
    {
      var m := pagamentoRepository.porPedido;
      forall p | p in m && p in pedidoRepository.pedidos.Values && p != x && m[p].status == Some(PENDENTE)
        ensures m[p].SnapshotDe(p)
      {
        assert m[p] in old(Pagamentos());
        assert old(m[p].SnapshotDe(p));
      }
    }

    /** Storing a new order that has no payment, and changing nothing else, keeps the invariant. */
    twostate lemma PedidoNovo(new x: Pedido)
      requires old(Valid())
      requires pedidoRepository.pedidos.Values == old(pedidoRepository.pedidos.Values) + {x}
      requires x !in pagamentoRepository.porPedido
      requires unchanged(pagamentoRepository) && unchanged(old(Pagamentos()))
      requires forall q :: q in old(pedidoRepository.pedidos.Values) ==> unchanged(q) && unchanged(q.itens)
      ensures Valid()
    {
      PedidoAlterado(x);
      SemPendencia(x);
    }

    /** Inserting a payment that keeps the table's rules and holds its order's totals keeps the invariant. */
    twostate lemma PagamentoInserido(new pag: Pagamento)
      requires old(Valid())
      requires pag.pedido != null && pag.pedido !in old(pagamentoRepository.porPedido)
      requires pagamentoRepository.porPedido == old(pagamentoRepository.porPedido)[pag.pedido := pag]
      requires pagamentoRepository.Valid()
      requires pedidoRepository.pedidos == old(pedidoRepository.pedidos)
      requires forall q :: q in old(pedidoRepository.pedidos.Values) ==> unchanged(q) && unchanged(q.itens)
      requires unchanged(old(Pagamentos()))
      requires pag.PagoCoerente() && pag.pedido in pedidoRepository.pedidos.Values
      requires pag.status == Some(PENDENTE) ==> pag.SnapshotDe(pag.pedido)
      ensures Valid()
    {
      var m := pagamentoRepository.porPedido;
      forall p | p in m && p != pag.pedido
        ensures m[p].PagoCoerente() && p in pedidoRepository.pedidos.Values
      {
        assert m[p] in old(Pagamentos());
      }
      forall p | p in m && p in pedidoRepository.pedidos.Values && m[p].status == Some(PENDENTE)
        ensures m[p].SnapshotDe(p)
      {
        if p != pag.pedido {
          assert m[p] in old(Pagamentos());
          assert old(m[p].SnapshotDe(p));
        }
      }
    }

    /** setForma(forma), snapshotFrom(pedido), setStatus(PENDENTE), setPago(false) on an existing payment. */
    static method Reiniciar(pag: Pagamento, pedido: Pedido, forma: Option<FormaPagamento>)
      modifies pag
      ensures pag.forma == forma && pag.status == Some(PENDENTE) && pag.pago == Some(false)
      ensures pag.pedido == pedido && pag.Valores() == Some(Normalizado(Copiado(pedido)))
      ensures pedido.TotaisConsistentes() ==> pag.SnapshotDe(pedido)
      ensures pag.id == old(pag.id) && pag.criadoEm == old(pag.criadoEm)
      ensures pag.referenciaExterna == old(pag.referenciaExterna) && pag.detalhes == old(pag.detalhes)
    {
      pag.forma, pag.status, pag.pago := forma, Some(PENDENTE), Some(false);
      pag.SnapshotFrom(pedido);
    }

    /** The existing, not approved payment of a recalculated order goes back to PENDENTE with a new snapshot. */
    method Reabrir(pag: Pagamento, pedido: Pedido, forma: Option<FormaPagamento>)
      requires ValidSalvo(pedido) && forma.Some?
      requires pag in Pagamentos() && pag.pedido == pedido && pedido.TotaisConsistentes()
      modifies pag
      ensures Valid()
      ensures pag.status == Some(PENDENTE) && pag.pago == Some(false) && pag.forma == forma
      ensures pag.SnapshotDe(pedido)
      ensures pag.id == old(pag.id) && pag.criadoEm == old(pag.criadoEm)
      ensures pag.referenciaExterna == old(pag.referenciaExterna) && pag.detalhes == old(pag.detalhes)
    {
      Reiniciar(pag, pedido, forma);
      PagamentoAlterado(pag);
    }

    /** Pagamento.builder() of a PENDENTE, unpaid payment of the order, then snapshotFrom(pedido). */
    static method Novo(pedido: Pedido, forma: Option<FormaPagamento>, agora: Instante) returns (pag: Pagamento)
      ensures fresh(pag) && pag.pedido == pedido && pag.forma == forma && pag.id.None?
      ensures pag.status == Some(PENDENTE) && pag.pago == Some(false) && pag.criadoEm == Some(agora)
      ensures pag.referenciaExterna.None? && pag.detalhes.None?
      ensures pag.Valores() == Some(Normalizado(Copiado(pedido)))
      ensures pedido.TotaisConsistentes() ==> pag.SnapshotDe(pedido)
    {
      pag := new Pagamento.Builder(pedido, forma, Some(PENDENTE), Some(false), agora);
      pag.SnapshotFrom(pedido);
    }

    /** A new PENDENTE payment for a recalculated order that has none. */
    method Criar(pedido: Pedido, forma: Option<FormaPagamento>, agora: Instante) returns (pag: Pagamento)
      requires Valid() && forma.Some?
      requires pedido in pedidoRepository.pedidos.Values && pedido.TotaisConsistentes()
      requires pedido !in pagamentoRepository.porPedido
      modifies pagamentoRepository
      ensures Valid()
      ensures fresh(pag) && pagamentoRepository.porPedido == old(pagamentoRepository.porPedido)[pedido := pag]
      ensures pag.status == Some(PENDENTE) && pag.pago == Some(false) && pag.forma == forma
      ensures pag.SnapshotDe(pedido)
      ensures pag.id == Some(old(pagamentoRepository.proximoId)) && pag.criadoEm == Some(agora)
      ensures pag.referenciaExterna.None? && pag.detalhes.None?
    {
      pag := Novo(pedido, forma, agora);
      var ok := pagamentoRepository.Inserir(pag, agora);
      assert ok.Pass?;
      PagamentoInserido(pag);
    }

    /**
     * iniciarPagamento once the order's totals are recalculated: an approved
     * payment is kept, any other existing payment is reset, and without one a
     * new payment is inserted.
     */
    method Atribuir(pedido: Pedido, forma: Option<FormaPagamento>, agora: Instante) returns (pag: Pagamento)
      requires ValidSalvo(pedido) && forma.Some? && pedido in pedidoRepository.pedidos.Values
      requires pedido.TotaisConsistentes()
      modifies pagamentoRepository, PagamentoDoPedido(pedido)
      ensures Valid()
      ensures pagamentoRepository.porPedido == old(pagamentoRepository.porPedido)[pedido := pag]
      ensures pedido !in old(pagamentoRepository.porPedido) ==> fresh(pag)
      ensures pedido in old(pagamentoRepository.porPedido) ==> pag == old(pagamentoRepository.porPedido[pedido])
      ensures pedido in old(pagamentoRepository.porPedido) && old(pag.status) == Some(APROVADO) ==> unchanged(pag)
      ensures !(pedido in old(pagamentoRepository.porPedido) && old(pag.status) == Some(APROVADO)) ==>
                pag.status == Some(PENDENTE) && pag.pago == Some(false) && pag.forma == forma && pag.SnapshotDe(pedido)
      ensures pedido in old(pagamentoRepository.porPedido) ==>
                pag.id == old(pag.id) && pag.criadoEm == old(pag.criadoEm)
                && pag.referenciaExterna == old(pag.referenciaExterna) && pag.detalhes == old(pag.detalhes)
      ensures pedido !in old(pagamentoRepository.porPedido) ==>
                pag.id == Some(old(pagamentoRepository.proximoId)) && pag.criadoEm == Some(agora)
                && pag.referenciaExterna.None? && pag.detalhes.None?
    {
      var existente := pagamentoRepository.FindByPedido(pedido);
      if existente.Some? {
        pag := existente.value;
        if pag.status == Some(APROVADO) {
          SemPendencia(pedido);
          return;
        }
        Reabrir(pag, pedido, forma);
        return;
      }
      SemPendencia(pedido);
      pag := Criar(pedido, forma, agora);
    }

    /**
     * The part of iniciarPagamento after the checks: recalculate the order's
     * totals, then assign the order its payment.
     */
    method IniciarParaPedido(pedido: Pedido, forma: Option<FormaPagamento>, agora: Instante) returns (pag: Pagamento)
      requires Valid() && forma.Some? && pedido in pedidoRepository.pedidos.Values
      modifies pedido`valorTotal, pedido`desconto, pedido`frete, pagamentoRepository, PagamentoDoPedido(pedido)
      ensures Valid() && pedido.TotaisConsistentes()
      ensures pagamentoRepository.porPedido == old(pagamentoRepository.porPedido)[pedido := pag]
      ensures pedido !in old(pagamentoRepository.porPedido) ==> fresh(pag)
      ensures pedido in old(pagamentoRepository.porPedido) ==> pag == old(pagamentoRepository.porPedido[pedido])
      ensures pedido in old(pagamentoRepository.porPedido) && old(pag.status) == Some(APROVADO) ==> unchanged(pag)
      ensures !(pedido in old(pagamentoRepository.porPedido) && old(pag.status) == Some(APROVADO)) ==>
                pag.status == Some(PENDENTE) && pag.pago == Some(false) && pag.forma == forma && pag.SnapshotDe(pedido)
      ensures pedido in old(pagamentoRepository.porPedido) ==>
                pag.id == old(pag.id) && pag.criadoEm == old(pag.criadoEm)
                && pag.referenciaExterna == old(pag.referenciaExterna) && pag.detalhes == old(pag.detalhes)
      ensures pedido !in old(pagamentoRepository.porPedido) ==>
                pag.id == Some(old(pagamentoRepository.proximoId)) && pag.criadoEm == Some(agora)
                && pag.referenciaExterna.None? && pag.detalhes.None?
      ensures pedido.desconto == Some(Round2(GetOr(old(pedido.desconto), 0.0)))
      ensures pedido.frete == Some(Round2(GetOr(old(pedido.frete), 0.0)))
      ensures old(pedido.TotaisConsistentes()) ==>
                pedido.valorTotal == old(pedido.valorTotal) && pedido.desconto == old(pedido.desconto) && pedido.frete == old(pedido.frete)
    {
      pedido.RecalcularTotais();
      PedidoAlterado(pedido);
      pag := Atribuir(pedido, forma, agora);
    }

    /**
     * iniciarPagamento(pedidoId, forma): requires a method, a stored order
     * with lines that is not cancelled; recalculates the order's totals. An
     * approved payment is returned untouched; any other existing payment is
     * reset to PENDENTE with the new method and a fresh snapshot; without
     * one, a new PENDENTE payment is inserted.
     */
    method IniciarPagamento(pedidoId: int, forma: Option<FormaPagamento>, agora: Instante) returns (r: Result<Pagamento>)
      requires Valid()
      modifies PedidoEm(pedidoId)`valorTotal, PedidoEm(pedidoId)`desconto, PedidoEm(pedidoId)`frete
      modifies pagamentoRepository, PagamentoEm(pedidoId)
      ensures Valid()
      ensures r.Err? <==>
                forma.None? || pedidoId !in pedidoRepository.pedidos
                || pedidoRepository.pedidos[pedidoId].itens == []
                || pedidoRepository.pedidos[pedidoId].status == Some(StatusPedido.CANCELADO)
      ensures r.Err? ==> r.erro == (if forma.None? then IllegalArgument
                                     else if pedidoId !in pedidoRepository.pedidos then NotFound
                                     else if pedidoRepository.pedidos[pedidoId].itens == [] then EmptyOrder
                                     else InvalidState)
      ensures r.Err? ==> unchanged(PedidoEm(pedidoId)) && unchanged(pagamentoRepository) && unchanged(PagamentoEm(pedidoId))
      ensures r.Ok? ==>
                var p := pedidoRepository.pedidos[pedidoId];
                && p.TotaisConsistentes()
                && pagamentoRepository.porPedido == old(pagamentoRepository.porPedido)[p := r.value]
                && (p !in old(pagamentoRepository.porPedido) ==> fresh(r.value))
                && (p in old(pagamentoRepository.porPedido) ==> r.value == old(pagamentoRepository.porPedido[p]))
                && p.desconto == Some(Round2(GetOr(old(p.desconto), 0.0)))
                && p.frete == Some(Round2(GetOr(old(p.frete), 0.0)))
                && (old(p.TotaisConsistentes()) ==>
                      p.valorTotal == old(p.valorTotal) && p.desconto == old(p.desconto) && p.frete == old(p.frete))
      ensures r.Ok? ==>
                var p := pedidoRepository.pedidos[pedidoId];
                && (p in old(pagamentoRepository.porPedido) ==>
                      r.value.id == old(r.value.id) && r.value.criadoEm == old(r.value.criadoEm)
                      && r.value.referenciaExterna == old(r.value.referenciaExterna) && r.value.detalhes == old(r.value.detalhes))
                && (p !in old(pagamentoRepository.porPedido) ==>
                      r.value.id == Some(old(pagamentoRepository.proximoId)) && r.value.criadoEm == Some(agora)
                      && r.value.referenciaExterna.None? && r.value.detalhes.None?)
      ensures r.Ok? ==>
                var p := pedidoRepository.pedidos[pedidoId];
                if p in old(pagamentoRepository.porPedido) && old(pagamentoRepository.porPedido[p].status) == Some(APROVADO)
                then unchanged(r.value)
                else r.value.status == Some(PENDENTE) && r.value.pago == Some(false) && r.value.forma == forma
                     && r.value.SnapshotDe(p)
    {
      if forma.None? {
        return Err(IllegalArgument);
      }
      var encontrado := pedidoRepository.FindById(pedidoId);
      if encontrado.None? {
        return Err(NotFound);
      }
      var pedido := encontrado.value;
      if pedido.itens == [] {
        return Err(EmptyOrder);
      }
      if pedido.status == Some(StatusPedido.CANCELADO) {
        return Err(InvalidState);
      }
      var pag := IniciarParaPedido(pedido, forma, agora);
      return Ok(pag);
    }

    /** The decision of confirmarPagamento on a payment that is not approved yet. */
    static method Decidir(pag: Pagamento, autorizado: bool, referenciaExterna: Option<string>, detalhes: Option<string>)
      modifies pag`status, pag`pago, pag`referenciaExterna, pag`detalhes
      ensures pag.status == Some(if autorizado then APROVADO else RECUSADO) && pag.pago == Some(autorizado)
      ensures pag.referenciaExterna == referenciaExterna && pag.detalhes == detalhes
    {
      if autorizado {
        pag.status, pag.pago := Some(APROVADO), Some(true);
      } else {
        pag.status, pag.pago := Some(RECUSADO), Some(false);
      }
      pag.referenciaExterna, pag.detalhes := referenciaExterna, detalhes;
    }

    /**
     * confirmarPagamento(pedidoId, autorizado, referenciaExterna, detalhes):
     * the order must exist and have a payment; an approved payment is
     * returned as it is; otherwise the payment becomes APROVADO (paid) or
     * RECUSADO (not paid) and records the gateway's reference and details.
     */
    method ConfirmarPagamento(pedidoId: int, autorizado: bool, referenciaExterna: Option<string>, detalhes: Option<string>)
      returns (r: Result<Pagamento>)
      requires Valid()
      modifies PagamentoEm(pedidoId)
      ensures Valid()
      ensures r.Err? <==>
                pedidoId !in pedidoRepository.pedidos || pedidoRepository.pedidos[pedidoId] !in pagamentoRepository.porPedido
      ensures r.Err? ==> r.erro == (if pedidoId !in pedidoRepository.pedidos then NotFound else NotInitiated)
      ensures r.Ok? ==> PagamentoEm(pedidoId) == {r.value}
      ensures r.Ok? && old(r.value.status) == Some(APROVADO) ==> unchanged(r.value)
      ensures r.Ok? && old(r.value.status) != Some(APROVADO) ==>
                && r.value.status == Some(if autorizado then APROVADO else RECUSADO)
                && r.value.pago == Some(autorizado)
                && r.value.referenciaExterna == referenciaExterna && r.value.detalhes == detalhes
                && unchanged(r.value`id, r.value`pedido, r.value`forma, r.value`criadoEm)
                && r.value.Valores() == old(r.value.Valores())
    {
      var encontrado := pedidoRepository.FindById(pedidoId);
      if encontrado.None? {
        return Err(NotFound);
      }
      var existente := pagamentoRepository.FindByPedido(encontrado.value);
      if existente.None? {
        return Err(NotInitiated);
      }
      var pag := existente.value;
      if pag.status == Some(APROVADO) {
        return Ok(pag);
      }
      Decidir(pag, autorizado, referenciaExterna, detalhes);
      PagamentoAlterado(pag);
      return Ok(pag);
    }

    /** snapshotFrom(pedido) on a PENDENTE payment, then a null `pago` becomes false. */
    static method Refrescar(pag: Pagamento, pedido: Pedido)
      modifies pag`pedido, pag`totalProdutos, pag`desconto, pag`frete, pag`valorFinal, pag`pago
      ensures pag.pedido == pedido && pag.Valores() == Some(Normalizado(Copiado(pedido)))
      ensures pedido.TotaisConsistentes() ==> pag.SnapshotDe(pedido)
      ensures pag.pago == Some(GetOr(old(pag.pago), false))
    {
      pag.pago := Some(GetOr(pag.pago, false));
      pag.SnapshotFrom(pedido);
    }

    /**
     * The PENDENTE branch of atualizarSnapshotSePendente: recalculate the
     * order, then snapshot it. Only the payment table's own rules are
     * needed; the service invariant, excused for this order, comes back.
     */
    method AtualizarPendente(pedido: Pedido, pag: Pagamento)
      requires pagamentoRepository.Valid() && pedido in pagamentoRepository.porPedido
      requires pag == pagamentoRepository.porPedido[pedido] && pag.status == Some(PENDENTE)
      modifies pedido`valorTotal, pedido`desconto, pedido`frete
      modifies pag`pedido, pag`totalProdutos, pag`desconto, pag`frete, pag`valorFinal, pag`pago
      ensures pagamentoRepository.Valid()
      ensures old(ValidSalvo(pedido)) ==> Valid()
      ensures pedido.TotaisConsistentes()
      ensures pedido.desconto == Some(Round2(GetOr(old(pedido.desconto), 0.0)))
      ensures pedido.frete == Some(Round2(GetOr(old(pedido.frete), 0.0)))
      ensures old(pedido.TotaisConsistentes()) ==>
                pedido.valorTotal == old(pedido.valorTotal) && pedido.desconto == old(pedido.desconto) && pedido.frete == old(pedido.frete)
      ensures pag.SnapshotDe(pedido) && pag.pago == Some(GetOr(old(pag.pago), false))
    {
      pedido.RecalcularTotais();
      Refrescar(pag, pedido);
      if old(ValidSalvo(pedido)) {
        PagamentoAlterado(pag);
      }
    }

    /**
     * atualizarSnapshotSePendente(pedidoId): the order must exist; when its
     * payment is PENDENTE, the order's totals are recalculated and the
     * payment takes a new snapshot of them; the payment (or none) is
     * returned. Callers that have just changed the order may call it with
     * that order's payment out of date, and get the invariant back.
     */
    method AtualizarSnapshotSePendente(pedidoId: int) returns (r: Result<Option<Pagamento>>)
      requires pagamentoRepository.Valid()
      modifies PedidoEm(pedidoId)`valorTotal, PedidoEm(pedidoId)`desconto, PedidoEm(pedidoId)`frete
      modifies PagamentoEm(pedidoId)`pedido, PagamentoEm(pedidoId)`totalProdutos, PagamentoEm(pedidoId)`desconto
      modifies PagamentoEm(pedidoId)`frete, PagamentoEm(pedidoId)`valorFinal, PagamentoEm(pedidoId)`pago
      ensures pagamentoRepository.Valid()
      ensures old(ValidSalvo(PedidoOuNulo(pedidoId))) ==> Valid()
      ensures r.Err? <==> pedidoId !in pedidoRepository.pedidos
      ensures r.Err? ==> r.erro == NotFound
      ensures r.Ok? ==> r.value == pagamentoRepository.FindByPedido(pedidoRepository.pedidos[pedidoId])
      ensures r.Ok? && r.value.Some? && old(r.value.value.status) == Some(PENDENTE) ==>
                var p := pedidoRepository.pedidos[pedidoId];
                && p.TotaisConsistentes()
                && p.desconto == Some(Round2(GetOr(old(p.desconto), 0.0)))
                && p.frete == Some(Round2(GetOr(old(p.frete), 0.0)))
                && (old(p.TotaisConsistentes()) ==>
                      p.valorTotal == old(p.valorTotal) && p.desconto == old(p.desconto) && p.frete == old(p.frete))
                && r.value.value.SnapshotDe(p)
                && r.value.value.status == Some(PENDENTE)
                && r.value.value.pago == Some(GetOr(old(r.value.value.pago), false))
      ensures !(r.Ok? && r.value.Some? && old(r.value.value.status) == Some(PENDENTE)) ==>
                unchanged(PedidoEm(pedidoId)) && unchanged(PagamentoEm(pedidoId))
    {
      var encontrado := pedidoRepository.FindById(pedidoId);
      if encontrado.None? {
        return Err(NotFound);
      }
      var pedido := encontrado.value;
      var existente := pagamentoRepository.FindByPedido(pedido);
      if existente.Some? && existente.value.status == Some(PENDENTE) {
        AtualizarPendente(pedido, existente.value);
        return Ok(existente);
      }
      if ValidSalvo(pedido) {
        SemPendencia(pedido);
      }
      return Ok(existente);
    }

    /**
     * cancelarPagamento(pedidoId): the order and its payment must exist and
     * the payment must not be approved; it becomes CANCELADO and unpaid.
     */
    method CancelarPagamento(pedidoId: int) returns (r: Outcome)
      requires Valid()
      modifies PagamentoEm(pedidoId)
      ensures Valid()
      ensures r.Fail? <==>
                pedidoId !in pedidoRepository.pedidos
                || pedidoRepository.pedidos[pedidoId] !in pagamentoRepository.porPedido
                || old(pagamentoRepository.porPedido[pedidoRepository.pedidos[pedidoId]].status) == Some(APROVADO)
      ensures r.Fail? ==> r.erro == (if pedidoId !in pedidoRepository.pedidos then NotFound
                                     else if pedidoRepository.pedidos[pedidoId] !in pagamentoRepository.porPedido then NotFound
                                     else InvalidState)
      ensures r.Fail? ==> unchanged(PagamentoEm(pedidoId))
      ensures r.Pass? ==>
                var pag: Pagamento := pagamentoRepository.porPedido[pedidoRepository.pedidos[pedidoId]];
                && pag.status == Some(StatusPagamento.CANCELADO) && pag.pago == Some(false)
                && unchanged(pag`id, pag`pedido, pag`forma, pag`criadoEm, pag`referenciaExterna, pag`detalhes)
                && pag.Valores() == old(pag.Valores())
    {
      var encontrado := pedidoRepository.FindById(pedidoId);
      if encontrado.None? {
        return Fail(NotFound);
      }
      var existente := pagamentoRepository.FindByPedido(encontrado.value);
      if existente.None? {
        return Fail(NotFound);
      }
      var pag := existente.value;
      if pag.status == Some(APROVADO) {
        return Fail(InvalidState);
      }
      pag.status, pag.pago := Some(StatusPagamento.CANCELADO), Some(false);
      PagamentoAlterado(pag);
      return Pass;
    }
  }
}
