/**
 * The Spring Data repositories the services use (package `repository`), as
 * in-memory tables. Identity columns are counters; saving an entity that is
 * already managed changes nothing, because the objects are the table's own.
 */
module Repositorios {
  import opened Wrappers
  import opened Money
  import opened VendasModel
  import opened PagamentoModel

  /** ProdutoRepository: products by id. */
  /** Storing a value under a key not yet used adds exactly that value to the table's values. */
  lemma ValoresComNovaChave<K, V>(m: map<K, V>, k: K, v: V)
    requires k !in m
    ensures m[k := v].Values == m.Values + {v}
  {
    forall q | q in m.Values
      ensures q in m[k := v].Values
    {
      var j :| j in m && m[j] == q;
      assert m[k := v][j] == q;
    }
    forall q | q in m[k := v].Values && q != v
      ensures q in m.Values
    {
      var j :| j in m[k := v] && m[k := v][j] == q;
      assert m[j] == q;
    }
    assert m[k := v][k] == v;
  }

  class ProdutoRepository {
    var produtos: map<int, Produto>

    /** A table holding the given products, each under its own id and with a stock >= 0. */
    constructor (produtos: map<int, Produto>)
      requires forall k :: k in produtos ==> produtos[k].id == k && produtos[k].quantidadeEmEstoque >= 0
      ensures this.produtos == produtos && Valid()
    {
      this.produtos := produtos;
    }

    /** Every product sits under its own id and has a stock >= 0 (@PositiveOrZero). */
    ghost predicate Valid()
      reads this, produtos.Values`quantidadeEmEstoque
    {
      forall k :: k in produtos ==> produtos[k].id == k && produtos[k].quantidadeEmEstoque >= 0
    }

    /** findById(id). */
    function FindById(id: int): Option<Produto>
      reads this
    {
      if id in produtos then Some(produtos[id]) else None
    }
  }

  /** PedidoRepository: orders by id, with the identity counters of orders and of their lines. */
  class PedidoRepository {
    var pedidos: map<int, Pedido>
    var proximoId: int
    var proximoItemId: int

    /** An empty table; both identity columns start at 1. */
    constructor ()
      ensures pedidos == map[] && proximoId == 1 && proximoItemId == 1 && Valid()
    {
      pedidos, proximoId, proximoItemId := map[], 1, 1;
    }

    /** Every order sits under its own id, below the next id to hand out. */
    ghost predicate Valid()
      reads this, pedidos.Values`id
    {
      forall k :: k in pedidos ==> pedidos[k].id == Some(k) && k < proximoId
    }

    /** The lines of all stored orders. */
    ghost function Itens(): (r: set<ItemPedido>)
      reads this, pedidos.Values`itens
      ensures forall p, i :: p in pedidos.Values && i in p.itens ==> i in r
    {
      set p, i | p in pedidos.Values && i in p.itens :: i
    }

    /** findById(id). */
    function FindById(id: int): Option<Pedido>
      reads this
    {
      if id in pedidos then Some(pedidos[id]) else None
    }

    /** save(p) of a new order: @PrePersist, then the next identity value. */
    method Inserir(p: Pedido, agora: Instante)
      requires Valid() && p.id.None?
      modifies this`pedidos, this`proximoId, p`id, p`status, p`dataHora, p`valorTotal, p`frete, p`desconto
      ensures Valid()
      ensures p.id == Some(old(proximoId)) && proximoId == old(proximoId) + 1
      ensures pedidos == old(pedidos)[old(proximoId) := p]
      ensures pedidos.Values == old(pedidos.Values) + {p}
      ensures p.status == Some(GetOr(old(p.status), ATIVO))
      ensures p.dataHora == Some(GetOr(old(p.dataHora), agora))
      ensures p.valorTotal == Some(Round2(GetOr(old(p.valorTotal), 0.0)))
      ensures p.frete == Some(Round2(GetOr(old(p.frete), 0.0)))
      ensures p.desconto == Some(Round2(GetOr(old(p.desconto), 0.0)))
    {
      ghost var antes := pedidos;
      p.PrePersist(agora);
      p.id := Some(proximoId);
      pedidos := pedidos[proximoId := p];
      proximoId := proximoId + 1;
      ValoresComNovaChave(antes, old(proximoId), p);
    }

    /**
     * The cascaded insert of a new order line: validate() runs first
     * (@PrePersist), then the line gets the next identity value.
     */
    method InserirItem(item: ItemPedido) returns (r: Outcome)
      modifies this`proximoItemId, item`id
      ensures r.Pass? <==> item.Persistivel()
      ensures r.Pass? ==> item.id == Some(old(proximoItemId)) && proximoItemId == old(proximoItemId) + 1
      ensures r.Fail? ==> r.erro == InvalidState && item.id == old(item.id) && proximoItemId == old(proximoItemId)
    {
      r := item.Validate();
      if r.Pass? {
        item.id := Some(proximoItemId);
        proximoItemId := proximoItemId + 1;
      }
    }
  }

  /**
   * PagamentoRepository: the rows of the pagamentos table. The order column
   * is unique (uk_pagamento_pedido), so the table is a map from each order
   * to its one payment.
   */
  class PagamentoRepository {
    var porPedido: map<Pedido, Pagamento>
    var proximoId: int

    /** An empty table; the identity column starts at 1. */
    constructor ()
      ensures porPedido == map[] && proximoId == 1 && Valid()
    {
      porPedido, proximoId := map[], 1;
    }

    /**
     * The table's constraints: each row sits under its own order (NOT NULL),
     * has a method and a status, and an id below the next id.
     */
    ghost predicate Valid()
      reads this, porPedido.Values
    {
      forall p :: p in porPedido ==>
        porPedido[p].pedido == p && porPedido[p].forma.Some? && porPedido[p].status.Some?
        && porPedido[p].id.Some? && porPedido[p].id.value < proximoId
    }

    /** findByPedido(p). */
    function FindByPedido(p: Pedido): Option<Pagamento>
      reads this
    {
      if p in porPedido then Some(porPedido[p]) else None
    }

    /**
     * save(pag) of a new payment: @PrePersist (which fails without a method),
     * then the INSERT, which the NOT NULL and unique order column reject when
     * there is no order or the order already has a payment.
     */
    method Inserir(pag: Pagamento, agora: Instante) returns (r: Outcome)
      requires Valid() && pag !in porPedido.Values
      modifies this, pag
      ensures Valid()
      ensures r.Pass? <==> old(pag.forma).Some? && old(pag.pedido) != null && old(pag.pedido) !in old(porPedido)
      ensures r.Pass? ==> pag.pedido != null && porPedido == old(porPedido)[pag.pedido := pag] && pag.id == Some(old(proximoId))
      ensures r.Fail? ==> porPedido == old(porPedido)
      ensures r.Fail? ==> r.erro == (if old(pag.forma).None? then InvalidState else ConstraintViolation)
      ensures pag.pedido == old(pag.pedido) && pag.forma == old(pag.forma)
      ensures pag.referenciaExterna == old(pag.referenciaExterna) && pag.detalhes == old(pag.detalhes)
      ensures pag.criadoEm == Some(GetOr(old(pag.criadoEm), agora))
      ensures pag.status == Some(GetOr(old(pag.status), PENDENTE))
      ensures r.Pass? ==> pag.pago == Some(GetOr(old(pag.pago), false))
      ensures r.Pass? ==> pag.Valores() == Some(Normalizado(Snapshot(
                GetOr(old(pag.totalProdutos), 0.0), GetOr(old(pag.desconto), 0.0),
                GetOr(old(pag.frete), 0.0), GetOr(old(pag.valorFinal), 0.0))))
    {
      r := pag.PrePersist(agora);
      if r.Fail? {
        return;
      }
      if pag.pedido == null || pag.pedido in porPedido {
        return Fail(ConstraintViolation);
      }
      pag.id := Some(proximoId);
      proximoId := proximoId + 1;
      porPedido := porPedido[pag.pedido := pag];
    }
  }
}
