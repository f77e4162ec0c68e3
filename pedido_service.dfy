/**
 * PedidoService: creates orders, adds, changes and removes their lines while
 * moving product stock, applies freight and discount, and cancels orders.
 * Every change to an order's lines or amounts ends with the order's totals
 * recalculated and, when its payment is PENDENTE, a new payment snapshot.
 *
 * Each operation is a check function (the exceptions it throws, in the order
 * it throws them) and the changes it makes once the checks pass. A thrown
 * exception rolls the transaction back, so a failing call changes nothing.
 */
module PedidoServico {
  import opened Wrappers
  import opened Money
  import opened VendasModel
  import opened PagamentoModel
  import opened Repositorios
  import opened PagamentoServico

  class PedidoService {
    const pedidoRepository: PedidoRepository
    const produtoRepository: ProdutoRepository
    const pagamentoService: PagamentoService

    constructor (pedidoRepository: PedidoRepository, produtoRepository: ProdutoRepository,
                 pagamentoService: PagamentoService)
      ensures this.pedidoRepository == pedidoRepository && this.produtoRepository == produtoRepository
      ensures this.pagamentoService == pagamentoService
      ensures pagamentoService.pedidoRepository == pedidoRepository && produtoRepository.Valid()
              && pedidoRepository.pedidos == map[] && pagamentoService.pagamentoRepository.porPedido == map[] ==>
                Valid() && pagamentoService.Valid()
    {
      this.pedidoRepository := pedidoRepository;
      this.produtoRepository := produtoRepository;
      this.pagamentoService := pagamentoService;
    }

    /**
     * The stored orders and products: both repositories keep their rules,
     * and the lines of every stored order keep theirs.
     */
    ghost predicate Estrutura()
      reads pedidoRepository, pedidoRepository.pedidos.Values`id, pedidoRepository.pedidos.Values`itens
      reads pedidoRepository.Itens(), produtoRepository, produtoRepository.produtos.Values`quantidadeEmEstoque
    {
      && pedidoRepository.Valid() && produtoRepository.Valid()
      && (forall k :: k in pedidoRepository.pedidos ==> pedidoRepository.pedidos[k].LinhasValidas())
    }

    /** The service invariant: the stored data and the payment table keep their rules. */
    ghost predicate Valid()
      reads this, pedidoRepository, pedidoRepository.pedidos.Values`id, pedidoRepository.pedidos.Values`itens
      reads pedidoRepository.Itens(), produtoRepository, produtoRepository.produtos.Values`quantidadeEmEstoque
      reads pagamentoService, pagamentoService.pagamentoRepository, pagamentoService.pagamentoRepository.porPedido.Values
    {
      pagamentoService.pedidoRepository == pedidoRepository && Estrutura() && pagamentoService.pagamentoRepository.Valid()
    }

    /**
     * What atualizarSnapshotSePendente leaves for order p: a PENDENTE
     * payment of p holds p's current totals.
     */
    ghost predicate SnapshotEmDia(p: Pedido)
      reads pagamentoService, pagamentoService.pagamentoRepository, pagamentoService.pagamentoRepository.porPedido.Values
      reads p, p.itens
    {
      var m := pagamentoService.pagamentoRepository.porPedido;
      p in m && m[p].status == Some(PENDENTE) ==> m[p].SnapshotDe(p)
    }

    /** Changing neither lines, nor stock, nor the tables keeps the stored data's rules. */
    twostate lemma EstruturaMantida()
      requires old(Estrutura())
      requires unchanged(pedidoRepository, produtoRepository)
      requires unchanged(old(pedidoRepository.pedidos.Values)`id, old(pedidoRepository.pedidos.Values)`itens)
      requires unchanged(old(pedidoRepository.Itens()), old(produtoRepository.produtos.Values)`quantidadeEmEstoque)
      ensures Estrutura()
    {
    }

    /** Storing a new order x that has no lines, and changing nothing else, keeps the stored data's rules. */
    twostate lemma PedidoInserido(new x: Pedido)
      requires old(Estrutura()) && pedidoRepository.Valid() && x.itens == []
      requires x.id.Some? && pedidoRepository.pedidos == old(pedidoRepository.pedidos)[x.id.value := x]
      requires x !in old(pedidoRepository.pedidos.Values) && x.id.value !in old(pedidoRepository.pedidos)
      requires unchanged(produtoRepository, old(produtoRepository.produtos.Values)`quantidadeEmEstoque)
      requires unchanged(old(pedidoRepository.pedidos.Values)`id, old(pedidoRepository.pedidos.Values)`itens)
      requires unchanged(old(pedidoRepository.Itens()))
      ensures Estrutura()
    {
      forall k | k in pedidoRepository.pedidos
        ensures pedidoRepository.pedidos[k].LinhasValidas()
      {
        if k != x.id.value {
          var q := pedidoRepository.pedidos[k];
          assert q in old(pedidoRepository.pedidos.Values);
          assert old(q.LinhasValidas());
        }
      }
    }

    /**
     * Changing the lines of order x only (no line of another order is
     * touched, because every line points back at its own order), with
     * every stock still >= 0 and x's lines keeping their rules, keeps the
     * stored data's rules.
     */
    twostate lemma LinhasAlteradas(x: Pedido)
      requires old(Estrutura()) && x in old(pedidoRepository.pedidos.Values) && old(x.LinhasValidas())
      requires unchanged(pedidoRepository`pedidos, pedidoRepository`proximoId, produtoRepository)
      requires unchanged(old(pedidoRepository.pedidos.Values)`id)
      requires forall q :: q in old(pedidoRepository.pedidos.Values) && q != x ==> unchanged(q`itens)
      requires forall i :: i in old(pedidoRepository.Itens()) && i !in old(x.itens) ==> unchanged(i)
      requires forall k :: k in produtoRepository.produtos ==> produtoRepository.produtos[k].quantidadeEmEstoque >= 0
      requires x.LinhasValidas()
      ensures Estrutura()
    {
      forall k | k in pedidoRepository.pedidos && pedidoRepository.pedidos[k] != x
        ensures pedidoRepository.pedidos[k].LinhasValidas()
      {
        var q := pedidoRepository.pedidos[k];
        assert q in old(pedidoRepository.pedidos.Values);
        var s := old(q.itens);
        assert q.itens == s;
        assert old(LinhasDoPedido(s, q));
        forall j | 0 <= j < |s|
          ensures unchanged(s[j])
        {
          var i := s[j];
          assert i in old(pedidoRepository.Itens());
          if i in old(x.itens) {
            assert false;
          }
        }
        assert LinhasDoPedido(s, q);
      }
    }

    /**
     * Changing order x (its amounts or its lines) and touching neither
     * another order, nor a line of another order, nor the payment table
     * keeps the payment service's invariant outside x.
     */
    twostate lemma PagamentosForaDe(x: Pedido)
      requires old(pagamentoService.Valid() && Estrutura()) && pagamentoService.pedidoRepository == pedidoRepository
      requires x in old(pedidoRepository.pedidos.Values) && old(x.LinhasValidas())
      requires unchanged(pedidoRepository`pedidos, pagamentoService.pagamentoRepository)
      requires unchanged(old(pagamentoService.Pagamentos()))
      requires forall q :: q in old(pedidoRepository.pedidos.Values) && q != x ==> unchanged(q)
      requires forall i :: i in old(pedidoRepository.Itens()) && i !in old(x.itens) ==> unchanged(i)
      ensures pagamentoService.ValidSalvo(x)
    {
      forall k | k in pedidoRepository.pedidos && pedidoRepository.pedidos[k] != x
        ensures unchanged(pedidoRepository.pedidos[k]) && unchanged(pedidoRepository.pedidos[k].itens)
      {
        var q := pedidoRepository.pedidos[k];
        assert q in old(pedidoRepository.pedidos.Values);
        var s := old(q.itens);
        assert old(LinhasDoPedido(s, q));
        forall j | 0 <= j < |s|
          ensures unchanged(s[j])
        {
          var i := s[j];
          assert i in old(pedidoRepository.Itens());
          if i in old(x.itens) {
            assert false;
          }
        }
      }
      pagamentoService.PedidoAlterado(x);
    }

    /** The stored product with id produtoId, as a frame. */
    function ProdutoEm(produtoId: int): set<Produto>
      reads produtoRepository
    {
      if produtoId in produtoRepository.produtos then {produtoRepository.produtos[produtoId]} else {}
    }

    /** buscarPorId(id). */
    function BuscarPorId(id: int): (r: Option<Pedido>)
      reads pedidoRepository
      ensures r.Some? <==> id in pedidoRepository.pedidos
      ensures r.Some? ==> r.value == pedidoRepository.pedidos[id]
    {
      pedidoRepository.FindById(id)
    }

    /**
     * criarPedido(cliente): a new active order of the customer, with no
     * lines, zero totals and the current time, saved under the next id.
     */
    method CriarPedido(cliente: ClienteId, agora: Instante) returns (pedido: Pedido)
      requires Valid()
      modifies pedidoRepository`pedidos, pedidoRepository`proximoId
      ensures Valid()
      ensures fresh(pedido) && pedido.id == Some(old(pedidoRepository.proximoId))
      ensures pedidoRepository.pedidos == old(pedidoRepository.pedidos)[old(pedidoRepository.proximoId) := pedido]
      ensures pedido.cliente == cliente && pedido.status == Some(ATIVO) && pedido.dataHora == Some(agora)
      ensures pedido.itens == [] && pedido.valorTotal == Some(0.0) && pedido.frete == Some(0.0) && pedido.desconto == Some(0.0)
      ensures pedido !in pagamentoService.pagamentoRepository.porPedido
      ensures old(pagamentoService.Valid()) ==> pagamentoService.Valid()
    {
      pedido := new Pedido(cliente, agora);
      pedido.dataHora := Some(agora);
      pedido.RecalcularTotais();
      pedidoRepository.Inserir(pedido, agora);
      PedidoInserido(pedido);
      assert pagamentoService.pagamentoRepository.Valid();
      if old(pagamentoService.Valid()) {
        pagamentoService.PedidoNovo(pedido);
      }
    }

    /**
     * The call atualizarSnapshotSePendente(pedidoId) that ends each change
     * to an order: on an order whose totals were just recalculated it
     * changes none of its amounts, and a PENDENTE payment takes a new
     * snapshot.
     */
    method AtualizarSnapshot(pedidoId: int, p: Pedido)
      requires Valid() && pedidoId in pedidoRepository.pedidos && p == pedidoRepository.pedidos[pedidoId]
      requires p.TotaisConsistentes()
      modifies p`frete, p`desconto, p`valorTotal
      modifies pagamentoService.PagamentoDoPedido(p)`pedido, pagamentoService.PagamentoDoPedido(p)`totalProdutos
      modifies pagamentoService.PagamentoDoPedido(p)`desconto, pagamentoService.PagamentoDoPedido(p)`frete
      modifies pagamentoService.PagamentoDoPedido(p)`valorFinal, pagamentoService.PagamentoDoPedido(p)`pago
      ensures Valid() && p.TotaisConsistentes() && SnapshotEmDia(p)
      ensures p.frete == old(p.frete) && p.desconto == old(p.desconto) && p.valorTotal == old(p.valorTotal)
      ensures p.Linhas() == old(p.Linhas())
      ensures old(pagamentoService.ValidSalvo(p)) ==> pagamentoService.Valid()
    {
      RefrescarPagamento(pedidoId, p);
      EstruturaMantida();
    }

    /** The call itself: the payment table keeps its rules, and the order only its amounts, which stay as they were. */
    method RefrescarPagamento(pedidoId: int, p: Pedido)
      requires pagamentoService.pagamentoRepository.Valid()
      requires pedidoId in pedidoRepository.pedidos && p == pedidoRepository.pedidos[pedidoId]
      requires pagamentoService.pedidoRepository == pedidoRepository && p.TotaisConsistentes()
      modifies p`frete, p`desconto, p`valorTotal
      modifies pagamentoService.PagamentoDoPedido(p)`pedido, pagamentoService.PagamentoDoPedido(p)`totalProdutos
      modifies pagamentoService.PagamentoDoPedido(p)`desconto, pagamentoService.PagamentoDoPedido(p)`frete
      modifies pagamentoService.PagamentoDoPedido(p)`valorFinal, pagamentoService.PagamentoDoPedido(p)`pago
      ensures pagamentoService.pagamentoRepository.Valid() && p.TotaisConsistentes() && SnapshotEmDia(p)
      ensures p.frete == old(p.frete) && p.desconto == old(p.desconto) && p.valorTotal == old(p.valorTotal)
      ensures old(pagamentoService.ValidSalvo(p)) ==> pagamentoService.Valid()
    {
      assert pagamentoService.PedidoOuNulo(pedidoId) == p && pagamentoService.PedidoEm(pedidoId) == {p};
      assert pagamentoService.PagamentoEm(pedidoId) == pagamentoService.PagamentoDoPedido(p);
      var r := pagamentoService.AtualizarSnapshotSePendente(pedidoId);
      assert r.Ok? && r.value == pagamentoService.pagamentoRepository.FindByPedido(p);
    }

    // -------------------------------------------------------------------------
    // aplicarFreteEDesconto
    // -------------------------------------------------------------------------

    /**
     * The checks of aplicarFreteEDesconto, in the order it makes them: the
     * order exists, is active, and neither amount (null read as zero) is
     * negative.
     */
    function ErroAplicar(pedidoId: int, frete: Option<real>, desconto: Option<real>): Option<Erro>
      reads pedidoRepository, pedidoRepository.pedidos.Values`status
    {
      if pedidoId !in pedidoRepository.pedidos then Some(NotFound)
      else if pedidoRepository.pedidos[pedidoId].status != Some(ATIVO) then Some(InvalidState)
      else if GetOr(frete, 0.0) < 0.0 || GetOr(desconto, 0.0) < 0.0 then Some(IllegalArgument)
      else None
    }

    /** setFrete(f), setDesconto(d), recalcularTotais(). */
    static method DefinirValores(pedido: Pedido, f: real, d: real)
      modifies pedido`frete, pedido`desconto, pedido`valorTotal
      ensures pedido.frete == Some(Round2(f)) && pedido.desconto == Some(Round2(d)) && pedido.TotaisConsistentes()
    {
      pedido.frete, pedido.desconto := Some(f), Some(d);
      pedido.RecalcularTotais();
    }

    /**
     * aplicarFreteEDesconto(pedidoId, frete, desconto): the order must exist
     * and be active; null amounts count as zero and negative ones are
     * rejected; the amounts are stored at scale 2, the totals recalculated
     * and a PENDENTE payment takes a new snapshot.
     */
    method AplicarFreteEDesconto(pedidoId: int, frete: Option<real>, desconto: Option<real>) returns (r: Result<Pedido>)
      requires Valid()
      modifies pagamentoService.PedidoEm(pedidoId)`frete, pagamentoService.PedidoEm(pedidoId)`desconto
      modifies pagamentoService.PedidoEm(pedidoId)`valorTotal
      modifies pagamentoService.PagamentoEm(pedidoId)`pedido, pagamentoService.PagamentoEm(pedidoId)`totalProdutos
      modifies pagamentoService.PagamentoEm(pedidoId)`desconto, pagamentoService.PagamentoEm(pedidoId)`frete
      modifies pagamentoService.PagamentoEm(pedidoId)`valorFinal, pagamentoService.PagamentoEm(pedidoId)`pago
      ensures Valid()
      ensures r.Err? <==> old(ErroAplicar(pedidoId, frete, desconto)).Some?
      ensures r.Err? ==> r.erro == old(ErroAplicar(pedidoId, frete, desconto)).value
      ensures r.Err? ==> unchanged(pagamentoService.PedidoEm(pedidoId)) && unchanged(pagamentoService.PagamentoEm(pedidoId))
      ensures r.Ok? ==>
                && r.value == pedidoRepository.pedidos[pedidoId]
                && r.value.frete == Some(Round2(GetOr(frete, 0.0)))
                && r.value.desconto == Some(Round2(GetOr(desconto, 0.0)))
                && r.value.TotaisConsistentes() && SnapshotEmDia(r.value)
      ensures old(pagamentoService.Valid()) ==> pagamentoService.Valid()
    {
      var erro := ErroAplicar(pedidoId, frete, desconto);
      if erro.Some? {
        return Err(erro.value);
      }
      var pedido := pedidoRepository.pedidos[pedidoId];
      DefinirValores(pedido, GetOr(frete, 0.0), GetOr(desconto, 0.0));
      EstruturaMantida();
      if old(pagamentoService.Valid()) {
        pagamentoService.PedidoAlterado(pedido);
      }
      AtualizarSnapshot(pedidoId, pedido);
      return Ok(pedido);
    }

    // -------------------------------------------------------------------------
    // adicionarItem
    // -------------------------------------------------------------------------

    /**
     * The checks of adicionarItem, in the order it makes them: a quantity
     * >= 1, a stored active order, a stored product with enough stock, and
     * a price the new line accepts.
     */
    function ErroAdicionar(pedidoId: int, produtoId: int, quantidade: Option<int>): Option<Erro>
      reads pedidoRepository, pedidoRepository.pedidos.Values`status
      reads produtoRepository, produtoRepository.produtos.Values`quantidadeEmEstoque, produtoRepository.produtos.Values`preco
    {
      if quantidade.None? || quantidade.value < 1 then Some(IllegalArgument)
      else if pedidoId !in pedidoRepository.pedidos then Some(NotFound)
      else if pedidoRepository.pedidos[pedidoId].status != Some(ATIVO) then Some(InvalidState)
      else if produtoId !in produtoRepository.produtos then Some(NotFound)
      else if produtoRepository.produtos[produtoId].quantidadeEmEstoque < quantidade.value then Some(InsufficientStock)
      else if produtoRepository.produtos[produtoId].preco < 0.0 then Some(IllegalArgument)
      else None
    }

    /**
     * new ItemPedido(pedido, produto, q) and pedido.adicionarItem(item): a new
     * line priced from the product, appended, with the totals recalculated.
     */
    static method Anexar(pedido: Pedido, produto: Produto, q: int) returns (item: ItemPedido)
      requires q >= 1 && produto.preco >= 0.0
      modifies pedido`itens, pedido`valorTotal, pedido`desconto, pedido`frete
      ensures fresh(item) && pedido.itens == old(pedido.itens) + [item] && item.id.None?
      ensures item.pedido == pedido && item.produto == produto && item.quantidade == Some(q)
      ensures item.precoUnitario == Some(Round2(produto.preco)) && item.Persistivel()
      ensures pedido.Linhas() == old(pedido.Linhas()) + [Linha(produto, Some(q), Some(Round2(produto.preco)))]
      ensures old(pedido.LinhasValidas()) ==> pedido.LinhasValidas()
      ensures pedido.TotaisConsistentes()
      ensures pedido.desconto == Some(Round2(GetOr(old(pedido.desconto), 0.0)))
      ensures pedido.frete == Some(Round2(GetOr(old(pedido.frete), 0.0)))
    {
      ghost var s0 := pedido.itens;
      ghost var validas := pedido.LinhasValidas();
      var r := ItemPedido.Novo(pedido, produto, Some(q));
      item := r.value;
      pedido.AdicionarItem(item);
      assert LinhasDe(s0) == old(LinhasDe(s0));
      assert pedido.Linhas() == LinhasDe(s0) + [item.AsLinha()];
      if validas {
        assert LinhasDoPedido(s0, pedido);
        LinhasDoPedidoComNova(s0, pedido, item);
      }
    }

    /**
     * The changes of adicionarItem once its checks pass: the new line
     * appended, the stock taken, the totals recalculated, the cascaded
     * insert of the line.
     */
    static method Incluir(repo: PedidoRepository, pedido: Pedido, produto: Produto, q: int) returns (item: ItemPedido)
      requires q >= 1 && produto.preco >= 0.0
      modifies pedido`itens, pedido`valorTotal, pedido`desconto, pedido`frete
      modifies produto`quantidadeEmEstoque, repo`proximoItemId
      ensures fresh(item) && pedido.itens == old(pedido.itens) + [item]
      ensures item.pedido == pedido && item.produto == produto && item.quantidade == Some(q)
      ensures item.precoUnitario == Some(Round2(produto.preco))
      ensures item.id == Some(old(repo.proximoItemId)) && repo.proximoItemId == old(repo.proximoItemId) + 1
      ensures produto.quantidadeEmEstoque == old(produto.quantidadeEmEstoque) - q
      ensures pedido.Linhas() == old(pedido.Linhas()) + [Linha(produto, Some(q), Some(Round2(produto.preco)))]
      ensures old(pedido.LinhasValidas()) ==> pedido.LinhasValidas()
      ensures pedido.TotaisConsistentes()
      ensures pedido.desconto == Some(Round2(GetOr(old(pedido.desconto), 0.0)))
      ensures pedido.frete == Some(Round2(GetOr(old(pedido.frete), 0.0)))
    {
      item := Anexar(pedido, produto, q);
      Registrar(repo, pedido, item, produto, q);
    }

    /**
     * The rest of adicionarItem once the line is in the order: the stock of
     * the product drops by q, and recalcularTotais() and save(pedido) on
     * totals that are already consistent keep the amounts, while the
     * cascaded insert hands the line the next id.
     */
    static method Registrar(repo: PedidoRepository, pedido: Pedido, item: ItemPedido, produto: Produto, q: int)
      requires pedido.TotaisConsistentes() && item in pedido.itens && item.Persistivel()
      modifies produto`quantidadeEmEstoque
      modifies pedido`valorTotal, pedido`desconto, pedido`frete, repo`proximoItemId, item`id
      ensures produto.quantidadeEmEstoque == old(produto.quantidadeEmEstoque) - q
      ensures item.id == Some(old(repo.proximoItemId)) && repo.proximoItemId == old(repo.proximoItemId) + 1
      ensures pedido.Linhas() == old(pedido.Linhas()) && pedido.TotaisConsistentes()
      ensures old(pedido.LinhasValidas()) ==> pedido.LinhasValidas()
      ensures pedido.desconto == old(pedido.desconto) && pedido.frete == old(pedido.frete)
    {
      produto.quantidadeEmEstoque := produto.quantidadeEmEstoque - q;
      pedido.RecalcularTotais();
      var ok := repo.InserirItem(item);
      ValoresMantidos(pedido);
    }

    /** Incluir on a stored order and a stored product with enough stock keeps the service invariant. */
    method IncluirArmazenado(pedidoId: int, pedido: Pedido, produtoId: int, produto: Produto, q: int)
      requires Valid() && pedidoId in pedidoRepository.pedidos && pedido == pedidoRepository.pedidos[pedidoId]
      requires produtoId in produtoRepository.produtos && produto == produtoRepository.produtos[produtoId]
      requires q >= 1 && produto.preco >= 0.0 && produto.quantidadeEmEstoque >= q
      modifies pedido`itens, pedido`valorTotal, pedido`desconto, pedido`frete
      modifies produto`quantidadeEmEstoque, pedidoRepository`proximoItemId
      ensures Valid()
      ensures var n := |old(pedido.itens)|;
        && |pedido.itens| == n + 1 && pedido.itens[..n] == old(pedido.itens)
        && fresh(pedido.itens[n]) && pedido.itens[n].id == Some(old(pedidoRepository.proximoItemId))
      ensures pedido.Linhas() == old(pedido.Linhas()) + [Linha(produto, Some(q), Some(Round2(produto.preco)))]
      ensures produto.quantidadeEmEstoque == old(produto.quantidadeEmEstoque) - q
      ensures pedido.TotaisConsistentes()
      ensures pedido.desconto == Some(Round2(GetOr(old(pedido.desconto), 0.0)))
      ensures pedido.frete == Some(Round2(GetOr(old(pedido.frete), 0.0)))
      ensures old(pagamentoService.Valid()) ==> pagamentoService.ValidSalvo(pedido)
    {
      assert pedido.LinhasValidas();
      var item := Incluir(pedidoRepository, pedido, produto, q);
      forall k | k in produtoRepository.produtos
        ensures produtoRepository.produtos[k].quantidadeEmEstoque >= 0
      {
        assert old(produtoRepository.produtos[k].quantidadeEmEstoque >= 0);
      }
      forall i | i in old(pedidoRepository.Itens()) && i !in old(pedido.itens)
        ensures unchanged(i)
      {
        assert i is ItemPedido;
      }
      LinhasAlteradas(pedido);
      if old(pagamentoService.Valid()) {
        PagamentosForaDe(pedido);
      }
    }

    /**
     * adicionarItem once its checks pass: Incluir on the stored order and
     * product, then the payment snapshot.
     */
    method Adicionar(pedidoId: int, produtoId: int, quantidade: Option<int>)
      requires Valid() && ErroAdicionar(pedidoId, produtoId, quantidade).None?
      modifies pagamentoService.PedidoEm(pedidoId)`itens, pagamentoService.PedidoEm(pedidoId)`valorTotal
      modifies pagamentoService.PedidoEm(pedidoId)`desconto, pagamentoService.PedidoEm(pedidoId)`frete
      modifies ProdutoEm(produtoId)`quantidadeEmEstoque, pedidoRepository`proximoItemId
      modifies pagamentoService.PagamentoEm(pedidoId)`pedido, pagamentoService.PagamentoEm(pedidoId)`totalProdutos
      modifies pagamentoService.PagamentoEm(pedidoId)`desconto, pagamentoService.PagamentoEm(pedidoId)`frete
      modifies pagamentoService.PagamentoEm(pedidoId)`valorFinal, pagamentoService.PagamentoEm(pedidoId)`pago
      ensures Valid()
      ensures
                var p := pedidoRepository.pedidos[pedidoId];
                var produto := produtoRepository.produtos[produtoId];
                var n := |old(p.itens)|;
                && |p.itens| == n + 1 && p.itens[..n] == old(p.itens)
                && fresh(p.itens[n]) && p.itens[n].id == Some(old(pedidoRepository.proximoItemId))
                && p.Linhas() == old(p.Linhas()) + [Linha(produto, quantidade, Some(Round2(produto.preco)))]
                && produto.quantidadeEmEstoque == old(produto.quantidadeEmEstoque) - quantidade.value
                && p.TotaisConsistentes() && SnapshotEmDia(p)
                && p.desconto == Some(Round2(GetOr(old(p.desconto), 0.0)))
                && p.frete == Some(Round2(GetOr(old(p.frete), 0.0)))
      ensures old(pagamentoService.Valid()) ==> pagamentoService.Valid()
    {
      var pedido := pedidoRepository.pedidos[pedidoId];
      var produto := produtoRepository.produtos[produtoId];
      IncluirArmazenado(pedidoId, pedido, produtoId, produto, quantidade.value);
      AtualizarSnapshot(pedidoId, pedido);
    }

    /**
     * adicionarItem(pedidoId, produtoId, quantidade): after the checks, the
     * order gains one line with the quantity and the product's price, the
     * product's stock drops by the quantity (what the order holds of it
     * grows by as much), and the totals and a PENDENTE payment are brought
     * up to date.
     */
    method AdicionarItem(pedidoId: int, produtoId: int, quantidade: Option<int>) returns (r: Result<Pedido>)
      requires Valid()
      modifies pagamentoService.PedidoEm(pedidoId)`itens, pagamentoService.PedidoEm(pedidoId)`valorTotal
      modifies pagamentoService.PedidoEm(pedidoId)`desconto, pagamentoService.PedidoEm(pedidoId)`frete
      modifies ProdutoEm(produtoId)`quantidadeEmEstoque, pedidoRepository`proximoItemId
      modifies pagamentoService.PagamentoEm(pedidoId)`pedido, pagamentoService.PagamentoEm(pedidoId)`totalProdutos
      modifies pagamentoService.PagamentoEm(pedidoId)`desconto, pagamentoService.PagamentoEm(pedidoId)`frete
      modifies pagamentoService.PagamentoEm(pedidoId)`valorFinal, pagamentoService.PagamentoEm(pedidoId)`pago
      ensures Valid()
      ensures r.Err? <==> old(ErroAdicionar(pedidoId, produtoId, quantidade)).Some?
      ensures r.Err? ==> r.erro == old(ErroAdicionar(pedidoId, produtoId, quantidade)).value
      ensures r.Err? ==>
                && unchanged(pagamentoService.PedidoEm(pedidoId)) && unchanged(ProdutoEm(produtoId))
                && unchanged(pedidoRepository) && unchanged(pagamentoService.PagamentoEm(pedidoId))
      ensures r.Ok? ==>
                var p := pedidoRepository.pedidos[pedidoId];
                var produto := produtoRepository.produtos[produtoId];
                var n := |old(p.itens)|;
                && r.value == p && |p.itens| == n + 1 && p.itens[..n] == old(p.itens)
                && fresh(p.itens[n]) && p.itens[n].id == Some(old(pedidoRepository.proximoItemId))
                && p.Linhas() == old(p.Linhas()) + [Linha(produto, quantidade, Some(Round2(produto.preco)))]
                && produto.quantidadeEmEstoque == old(produto.quantidadeEmEstoque) - quantidade.value
                && produto.quantidadeEmEstoque + Reservado(p.Linhas(), produto)
                   == old(produto.quantidadeEmEstoque + Reservado(p.Linhas(), produto))
                && p.TotaisConsistentes() && SnapshotEmDia(p)
                && p.desconto == Some(Round2(GetOr(old(p.desconto), 0.0)))
                && p.frete == Some(Round2(GetOr(old(p.frete), 0.0)))
      ensures old(pagamentoService.Valid()) ==> pagamentoService.Valid()
    {
      var erro := ErroAdicionar(pedidoId, produtoId, quantidade);
      if erro.Some? {
        return Err(erro.value);
      }
      var pedido := pedidoRepository.pedidos[pedidoId];
      var produto := produtoRepository.produtos[produtoId];
      Adicionar(pedidoId, produtoId, quantidade);
      ReservadoAppend(old(pedido.Linhas()), Linha(produto, quantidade, Some(Round2(produto.preco))), produto);
      return Ok(pedido);
    }

    // -------------------------------------------------------------------------
    // Finding a line of a stored order
    // -------------------------------------------------------------------------

    /**
     * The lookup atualizarQuantidadeItem and removerItem share: the order
     * exists and is active, and the stream over its lines finds the first
     * line with id itemId.
     */
    function BuscarLinha(pedidoId: int, itemId: int): (r: Result<nat>)
      reads pedidoRepository, pedidoRepository.pedidos.Values`status, pedidoRepository.pedidos.Values`itens
      reads pedidoRepository.Itens()
      ensures r.Ok? ==> && pedidoId in pedidoRepository.pedidos
                        && r.value < |pedidoRepository.pedidos[pedidoId].itens|
                        && pedidoRepository.pedidos[pedidoId].itens[r.value].id == Some(itemId)
    {
      if pedidoId !in pedidoRepository.pedidos then Err(NotFound)
      else
        var p := pedidoRepository.pedidos[pedidoId];
        if p.status != Some(ATIVO) then Err(InvalidState)
        else PrimeiroComId(p.itens, itemId)
    }

    /** The line BuscarLinha finds, as a frame. */
    function LinhaEm(pedidoId: int, itemId: int): set<ItemPedido>
      reads pedidoRepository, pedidoRepository.pedidos.Values`status, pedidoRepository.pedidos.Values`itens
      reads pedidoRepository.Itens()
    {
      var b := BuscarLinha(pedidoId, itemId);
      if b.Ok? then {pedidoRepository.pedidos[pedidoId].itens[b.value]} else {}
    }

    /** The product of the line BuscarLinha finds, as a frame. */
    function ProdutoDaLinha(pedidoId: int, itemId: int): set<Produto>
      reads pedidoRepository, pedidoRepository.pedidos.Values`status, pedidoRepository.pedidos.Values`itens
      reads pedidoRepository.Itens()
    {
      var b := BuscarLinha(pedidoId, itemId);
      if b.Ok? && pedidoRepository.pedidos[pedidoId].itens[b.value].produto != null
      then {pedidoRepository.pedidos[pedidoId].itens[b.value].produto as Produto} else {}
    }

    // -------------------------------------------------------------------------
    // atualizarQuantidadeItem
    // -------------------------------------------------------------------------

    /**
     * The checks of atualizarQuantidadeItem, in the order it makes them: a
     * new quantity >= 1, the lookup of the line, its current quantity
     * (unboxing a null throws), then, by the sign of the difference, enough
     * stock of the line's product (reading the stock of a null product
     * throws; saving a null product when nothing changes is rejected).
     */
    function ErroAtualizar(pedidoId: int, itemId: int, nova: Option<int>): Option<Erro>
      reads pedidoRepository, pedidoRepository.pedidos.Values`status, pedidoRepository.pedidos.Values`itens
      reads pedidoRepository.Itens(), ProdutoDaLinha(pedidoId, itemId)`quantidadeEmEstoque
    {
      if nova.None? || nova.value < 1 then Some(IllegalArgument)
      else
        var b := BuscarLinha(pedidoId, itemId);
        if b.Err? then Some(b.erro)
        else
          var item := pedidoRepository.pedidos[pedidoId].itens[b.value];
          if item.quantidade.None? then Some(NullPointer)
          else
            var delta := nova.value - item.quantidade.value;
            if item.produto == null then Some(if delta == 0 then IllegalArgument else NullPointer)
            else if delta > 0 && item.produto.quantidadeEmEstoque < delta then Some(InsufficientStock)
            else None
    }

    /**
     * The changes of atualizarQuantidadeItem once its checks pass: the
     * product's stock moves by the difference delta between the new and the
     * current quantity (down when delta > 0, up by |delta| when delta < 0),
     * the line takes the new quantity and the totals are recalculated.
     */
    static method Alterar(pedido: Pedido, k: nat, item: ItemPedido, produto: Produto, nova: int)
      requires pedido.LinhasValidas() && k < |pedido.itens| && nova >= 1
      requires item == pedido.itens[k] && item.produto == produto && item.quantidade.Some?
      requires nova - item.quantidade.value > 0 ==> produto.quantidadeEmEstoque >= nova - item.quantidade.value
      modifies produto`quantidadeEmEstoque, item`quantidade
      modifies pedido`valorTotal, pedido`desconto, pedido`frete
      ensures produto.quantidadeEmEstoque == old(produto.quantidadeEmEstoque - (nova - item.quantidade.value))
      ensures item.quantidade == Some(nova)
      ensures pedido.Linhas() == old(pedido.Linhas())[k := old(pedido.Linhas())[k].(quantidade := Some(nova))]
      ensures pedido.LinhasValidas() && pedido.TotaisConsistentes()
      ensures pedido.desconto == Some(Round2(GetOr(old(pedido.desconto), 0.0)))
      ensures pedido.frete == Some(Round2(GetOr(old(pedido.frete), 0.0)))
    {
      var atual := item.quantidade.value;
      MoverEstoque(produto, nova - atual);
      AlterarQuantidade(pedido, k, item, nova);
    }

    /** The stock move of atualizarQuantidadeItem: delta more on the line is delta less in stock, either way. */
    static method MoverEstoque(produto: Produto, delta: int)
      modifies produto`quantidadeEmEstoque
      ensures produto.quantidadeEmEstoque == old(produto.quantidadeEmEstoque) - delta
    {
      if delta > 0 {
        produto.quantidadeEmEstoque := produto.quantidadeEmEstoque - delta;
      } else if delta < 0 {
        produto.quantidadeEmEstoque := produto.quantidadeEmEstoque + -delta;
      }
    }

    /** setQuantidade(nova) on line k, then recalcularTotais(). */
    static method AlterarQuantidade(pedido: Pedido, k: nat, item: ItemPedido, nova: int)
      requires pedido.LinhasValidas() && k < |pedido.itens| && item == pedido.itens[k] && nova >= 1
      modifies item`quantidade, pedido`valorTotal, pedido`desconto, pedido`frete
      ensures item.quantidade == Some(nova)
      ensures pedido.Linhas() == old(pedido.Linhas())[k := old(pedido.Linhas())[k].(quantidade := Some(nova))]
      ensures pedido.LinhasValidas() && pedido.TotaisConsistentes()
      ensures pedido.desconto == Some(Round2(GetOr(old(pedido.desconto), 0.0)))
      ensures pedido.frete == Some(Round2(GetOr(old(pedido.frete), 0.0)))
    {
      var ok := item.SetQuantidade(Some(nova));
      pedido.RecalcularTotais();
      QuantidadeAlterada(item);
    }

    /** Alterar on a line of a stored order keeps the service invariant. */
    method AlterarArmazenado(pedidoId: int, pedido: Pedido, k: nat, item: ItemPedido, produto: Produto, nova: int)
      requires Valid() && pedidoId in pedidoRepository.pedidos && pedido == pedidoRepository.pedidos[pedidoId]
      requires k < |pedido.itens| && item == pedido.itens[k] && item.produto == produto && nova >= 1
      requires item.quantidade.Some? && (nova - item.quantidade.value > 0 ==> produto.quantidadeEmEstoque >= nova - item.quantidade.value)
      modifies produto`quantidadeEmEstoque, item`quantidade
      modifies pedido`valorTotal, pedido`desconto, pedido`frete
      ensures Valid()
      ensures produto.quantidadeEmEstoque == old(produto.quantidadeEmEstoque - (nova - item.quantidade.value))
      ensures pedido.Linhas() == old(pedido.Linhas())[k := old(pedido.Linhas())[k].(quantidade := Some(nova))]
      ensures pedido.TotaisConsistentes()
      ensures pedido.desconto == Some(Round2(GetOr(old(pedido.desconto), 0.0)))
      ensures pedido.frete == Some(Round2(GetOr(old(pedido.frete), 0.0)))
      ensures old(pagamentoService.Valid()) ==> pagamentoService.ValidSalvo(pedido)
    {
      assert pedido.LinhasValidas();
      Alterar(pedido, k, item, produto, nova);
      forall n | n in produtoRepository.produtos
        ensures produtoRepository.produtos[n].quantidadeEmEstoque >= 0
      {
        assert old(produtoRepository.produtos[n].quantidadeEmEstoque >= 0);
      }
      LinhasAlteradas(pedido);
      if old(pagamentoService.Valid()) {
        PagamentosForaDe(pedido);
      }
    }

    /**
     * atualizarQuantidadeItem once its checks pass: Alterar on line k of the
     * stored order, then the payment snapshot.
     */
    method Atualizar(pedidoId: int, pedido: Pedido, k: nat, item: ItemPedido, produto: Produto, nova: int)
      requires Valid() && pedidoId in pedidoRepository.pedidos && pedido == pedidoRepository.pedidos[pedidoId]
      requires k < |pedido.itens| && item == pedido.itens[k] && item.produto == produto && nova >= 1
      requires item.quantidade.Some? && (nova - item.quantidade.value > 0 ==> produto.quantidadeEmEstoque >= nova - item.quantidade.value)
      modifies produto`quantidadeEmEstoque, item`quantidade
      modifies pagamentoService.PedidoEm(pedidoId)`valorTotal, pagamentoService.PedidoEm(pedidoId)`desconto
      modifies pagamentoService.PedidoEm(pedidoId)`frete
      modifies pagamentoService.PagamentoEm(pedidoId)`pedido, pagamentoService.PagamentoEm(pedidoId)`totalProdutos
      modifies pagamentoService.PagamentoEm(pedidoId)`desconto, pagamentoService.PagamentoEm(pedidoId)`frete
      modifies pagamentoService.PagamentoEm(pedidoId)`valorFinal, pagamentoService.PagamentoEm(pedidoId)`pago
      ensures Valid() && pedido.itens == old(pedido.itens)
      ensures produto.quantidadeEmEstoque == old(produto.quantidadeEmEstoque) - (nova - old(item.quantidade).value)
      ensures pedido.Linhas() == old(pedido.Linhas())[k := old(pedido.Linhas())[k].(quantidade := Some(nova))]
      ensures pedido.TotaisConsistentes() && SnapshotEmDia(pedido)
      ensures pedido.desconto == Some(Round2(GetOr(old(pedido.desconto), 0.0)))
      ensures pedido.frete == Some(Round2(GetOr(old(pedido.frete), 0.0)))
      ensures old(pagamentoService.Valid()) ==> pagamentoService.Valid()
    {
      AlterarArmazenado(pedidoId, pedido, k, item, produto, nova);
      AtualizarSnapshot(pedidoId, pedido);
    }

    /**
     * atualizarQuantidadeItem(pedidoId, itemId, novaQuantidade): after the
     * checks, the line takes the new quantity and nothing else about the
     * lines changes; the product's stock moves by the opposite of the
     * change, so stock plus what the order holds of the product is
     * conserved; the totals and a PENDENTE payment are brought up to date.
     */
    method AtualizarQuantidadeItem(pedidoId: int, itemId: int, nova: Option<int>) returns (r: Result<Pedido>)
      requires Valid()
      modifies ProdutoDaLinha(pedidoId, itemId)`quantidadeEmEstoque, LinhaEm(pedidoId, itemId)`quantidade
      modifies pagamentoService.PedidoEm(pedidoId)`valorTotal, pagamentoService.PedidoEm(pedidoId)`desconto
      modifies pagamentoService.PedidoEm(pedidoId)`frete
      modifies pagamentoService.PagamentoEm(pedidoId)`pedido, pagamentoService.PagamentoEm(pedidoId)`totalProdutos
      modifies pagamentoService.PagamentoEm(pedidoId)`desconto, pagamentoService.PagamentoEm(pedidoId)`frete
      modifies pagamentoService.PagamentoEm(pedidoId)`valorFinal, pagamentoService.PagamentoEm(pedidoId)`pago
      ensures Valid()
      ensures r.Err? <==> old(ErroAtualizar(pedidoId, itemId, nova)).Some?
      ensures r.Err? ==> r.erro == old(ErroAtualizar(pedidoId, itemId, nova)).value
      ensures r.Err? ==>
                && unchanged(pagamentoService.PedidoEm(pedidoId)) && unchanged(LinhaEm(pedidoId, itemId))
                && unchanged(ProdutoDaLinha(pedidoId, itemId)) && unchanged(pagamentoService.PagamentoEm(pedidoId))
      ensures r.Ok? ==>
                var p := pedidoRepository.pedidos[pedidoId];
                var k := old(BuscarLinha(pedidoId, itemId)).value;
                var produto := p.itens[k].produto;
                && r.value == p && p.itens == old(p.itens) && produto != null
                && produto.quantidadeEmEstoque == old(produto.quantidadeEmEstoque) - (nova.value - old(p.itens[k].quantidade).value)
                && p.Linhas() == old(p.Linhas())[k := old(p.Linhas())[k].(quantidade := nova)]
                && produto.quantidadeEmEstoque + Reservado(p.Linhas(), produto)
                   == old(produto.quantidadeEmEstoque + Reservado(p.Linhas(), produto))
                && p.TotaisConsistentes() && SnapshotEmDia(p)
                && p.desconto == Some(Round2(GetOr(old(p.desconto), 0.0)))
                && p.frete == Some(Round2(GetOr(old(p.frete), 0.0)))
      ensures old(pagamentoService.Valid()) ==> pagamentoService.Valid()
    {
      var erro := ErroAtualizar(pedidoId, itemId, nova);
      if erro.Some? {
        return Err(erro.value);
      }
      var pedido := pedidoRepository.pedidos[pedidoId];
      var k := BuscarLinha(pedidoId, itemId).value;
      var item := pedido.itens[k];
      Atualizar(pedidoId, pedido, k, item, item.produto, nova.value);
      ReservadoUpdate(old(pedido.Linhas()), k, old(pedido.Linhas())[k].(quantidade := nova), item.produto);
      return Ok(pedido);
    }

    // -------------------------------------------------------------------------
    // removerItem
    // -------------------------------------------------------------------------

    /**
     * The checks of removerItem, in the order it makes them: the lookup of
     * the line, then its product and its quantity, which the stock update
     * dereferences.
     */
    function ErroRemover(pedidoId: int, itemId: int): Option<Erro>
      reads pedidoRepository, pedidoRepository.pedidos.Values`status, pedidoRepository.pedidos.Values`itens
      reads pedidoRepository.Itens()
    {
      var b := BuscarLinha(pedidoId, itemId);
      if b.Err? then Some(b.erro)
      else
        var item := pedidoRepository.pedidos[pedidoId].itens[b.value];
        if item.produto == null || item.quantidade.None? then Some(NullPointer)
        else None
    }

    /**
     * The changes of removerItem once its checks pass: the line's whole
     * quantity goes back to its product, remove(item) drops that line (the
     * first one equal to it, which is the one found), and the totals are
     * recalculated.
     */
    static method Retirar(pedido: Pedido, itemId: int, k: nat, item: ItemPedido, produto: Produto)
      requires pedido.LinhasValidas() && PrimeiroComId(pedido.itens, itemId) == Ok(k)
      requires item == pedido.itens[k] && item.produto == produto && item.quantidade.Some?
      modifies produto`quantidadeEmEstoque, pedido`itens, pedido`valorTotal, pedido`desconto, pedido`frete
      ensures produto.quantidadeEmEstoque == old(produto.quantidadeEmEstoque) + item.quantidade.value
      ensures pedido.itens == old(pedido.itens[..k] + pedido.itens[k + 1..])
      ensures pedido.Linhas() == old(pedido.Linhas()[..k] + pedido.Linhas()[k + 1..])
      ensures pedido.LinhasValidas() && pedido.TotaisConsistentes()
      ensures pedido.desconto == Some(Round2(GetOr(old(pedido.desconto), 0.0)))
      ensures pedido.frete == Some(Round2(GetOr(old(pedido.frete), 0.0)))
    {
      ghost var s := pedido.itens;
      RemoverEncontrado(s, itemId);
      LinhasDeSemPosicao(s, k);
      LinhasDoPedidoSemPosicao(s, pedido, k);
      produto.quantidadeEmEstoque := produto.quantidadeEmEstoque + item.quantidade.value;
      pedido.itens := Removido(pedido.itens, item);
      assert pedido.itens == s[..k] + s[k + 1..];
      assert LinhasDe(s) == old(LinhasDe(s));
      label removido:
      pedido.RecalcularTotais();
      LinhasMantidas@removido(pedido);
    }

    /** Retirar on a line of a stored order keeps the service invariant. */
    method RetirarArmazenado(pedidoId: int, itemId: int)
      requires Valid() && ErroRemover(pedidoId, itemId).None?
      modifies ProdutoDaLinha(pedidoId, itemId)`quantidadeEmEstoque, pagamentoService.PedidoEm(pedidoId)`itens
      modifies pagamentoService.PedidoEm(pedidoId)`valorTotal, pagamentoService.PedidoEm(pedidoId)`desconto
      modifies pagamentoService.PedidoEm(pedidoId)`frete
      ensures Valid()
      ensures var p := pedidoRepository.pedidos[pedidoId];
        var k := old(BuscarLinha(pedidoId, itemId)).value;
        var produto := old(p.itens[k].produto);
        && produto != null && produto.quantidadeEmEstoque == old(produto.quantidadeEmEstoque + p.itens[k].quantidade.value)
        && p.itens == old(p.itens[..k] + p.itens[k + 1..])
        && p.Linhas() == old(p.Linhas()[..k] + p.Linhas()[k + 1..])
        && p.TotaisConsistentes()
        && p.desconto == Some(Round2(GetOr(old(p.desconto), 0.0)))
        && p.frete == Some(Round2(GetOr(old(p.frete), 0.0)))
      ensures old(pagamentoService.Valid()) ==> pagamentoService.ValidSalvo(pedidoRepository.pedidos[pedidoId])
    {
      var pedido := pedidoRepository.pedidos[pedidoId];
      var k := BuscarLinha(pedidoId, itemId).value;
      var item := pedido.itens[k];
      assert pedido.LinhasValidas();
      Retirar(pedido, itemId, k, item, item.produto);
      forall n | n in produtoRepository.produtos
        ensures produtoRepository.produtos[n].quantidadeEmEstoque >= 0
      {
        assert old(produtoRepository.produtos[n].quantidadeEmEstoque >= 0);
      }
      forall i | i in old(pedidoRepository.Itens()) && i !in old(pedido.itens)
        ensures unchanged(i)
      {
        assert i is ItemPedido;
      }
      LinhasAlteradas(pedido);
      if old(pagamentoService.Valid()) {
        PagamentosForaDe(pedido);
      }
    }

    /** removerItem once its checks pass: Retirar on the line the lookup finds, then the payment snapshot. */
    method Remover(pedidoId: int, itemId: int)
      requires Valid() && ErroRemover(pedidoId, itemId).None?
      modifies ProdutoDaLinha(pedidoId, itemId)`quantidadeEmEstoque, pagamentoService.PedidoEm(pedidoId)`itens
      modifies pagamentoService.PedidoEm(pedidoId)`valorTotal, pagamentoService.PedidoEm(pedidoId)`desconto
      modifies pagamentoService.PedidoEm(pedidoId)`frete
      modifies pagamentoService.PagamentoEm(pedidoId)`pedido, pagamentoService.PagamentoEm(pedidoId)`totalProdutos
      modifies pagamentoService.PagamentoEm(pedidoId)`desconto, pagamentoService.PagamentoEm(pedidoId)`frete
      modifies pagamentoService.PagamentoEm(pedidoId)`valorFinal, pagamentoService.PagamentoEm(pedidoId)`pago
      ensures Valid()
      ensures var p := pedidoRepository.pedidos[pedidoId];
        var k := old(BuscarLinha(pedidoId, itemId)).value;
        var produto := old(p.itens[k].produto);
        && produto != null && produto.quantidadeEmEstoque == old(produto.quantidadeEmEstoque + p.itens[k].quantidade.value)
        && p.itens == old(p.itens[..k] + p.itens[k + 1..])
        && p.Linhas() == old(p.Linhas()[..k] + p.Linhas()[k + 1..])
        && p.TotaisConsistentes() && SnapshotEmDia(p)
        && p.desconto == Some(Round2(GetOr(old(p.desconto), 0.0)))
        && p.frete == Some(Round2(GetOr(old(p.frete), 0.0)))
      ensures old(pagamentoService.Valid()) ==> pagamentoService.Valid()
    {
      RetirarArmazenado(pedidoId, itemId);
      AtualizarSnapshot(pedidoId, pedidoRepository.pedidos[pedidoId]);
    }

    /**
     * removerItem(pedidoId, itemId): after the checks, exactly the line found
     * leaves the order (the others keep their order), its whole quantity goes
     * back to its product, so stock plus what the order holds of the product
     * is conserved, and the totals and a PENDENTE payment are brought up to
     * date.
     */
    method RemoverItem(pedidoId: int, itemId: int) returns (r: Result<Pedido>)
      requires Valid()
      modifies ProdutoDaLinha(pedidoId, itemId)`quantidadeEmEstoque, pagamentoService.PedidoEm(pedidoId)`itens
      modifies pagamentoService.PedidoEm(pedidoId)`valorTotal, pagamentoService.PedidoEm(pedidoId)`desconto
      modifies pagamentoService.PedidoEm(pedidoId)`frete
      modifies pagamentoService.PagamentoEm(pedidoId)`pedido, pagamentoService.PagamentoEm(pedidoId)`totalProdutos
      modifies pagamentoService.PagamentoEm(pedidoId)`desconto, pagamentoService.PagamentoEm(pedidoId)`frete
      modifies pagamentoService.PagamentoEm(pedidoId)`valorFinal, pagamentoService.PagamentoEm(pedidoId)`pago
      ensures Valid()
      ensures r.Err? <==> old(ErroRemover(pedidoId, itemId)).Some?
      ensures r.Err? ==> r.erro == old(ErroRemover(pedidoId, itemId)).value
      ensures r.Err? ==>
                && unchanged(pagamentoService.PedidoEm(pedidoId)) && unchanged(ProdutoDaLinha(pedidoId, itemId))
                && unchanged(pagamentoService.PagamentoEm(pedidoId))
      ensures r.Ok? ==>
                var p := pedidoRepository.pedidos[pedidoId];
                var k := old(BuscarLinha(pedidoId, itemId)).value;
                var produto := old(p.itens[k].produto);
                && r.value == p && produto != null
                && produto.quantidadeEmEstoque == old(produto.quantidadeEmEstoque + p.itens[k].quantidade.value)
                && p.itens == old(p.itens[..k] + p.itens[k + 1..])
                && p.Linhas() == old(p.Linhas()[..k] + p.Linhas()[k + 1..])
                && produto.quantidadeEmEstoque + Reservado(p.Linhas(), produto)
                   == old(produto.quantidadeEmEstoque + Reservado(p.Linhas(), produto))
                && p.TotaisConsistentes() && SnapshotEmDia(p)
                && p.desconto == Some(Round2(GetOr(old(p.desconto), 0.0)))
                && p.frete == Some(Round2(GetOr(old(p.frete), 0.0)))
      ensures old(pagamentoService.Valid()) ==> pagamentoService.Valid()
    {
      var erro := ErroRemover(pedidoId, itemId);
      if erro.Some? {
        return Err(erro.value);
      }
      var pedido := pedidoRepository.pedidos[pedidoId];
      var k := BuscarLinha(pedidoId, itemId).value;
      var produto := pedido.itens[k].produto;
      Remover(pedidoId, itemId);
      ReservadoRemove(old(pedido.Linhas()), k, produto);
      return Ok(pedido);
    }

    // -------------------------------------------------------------------------
    // cancelarPedido
    // -------------------------------------------------------------------------

    /**
     * What makes cancelarPedido throw: a missing order, or a line whose
     * product or quantity the stock update dereferences while null (the
     * transaction then rolls back the stock already returned). The status
     * of the order is not checked.
     */
    function ErroCancelar(pedidoId: int): Option<Erro>
      reads pedidoRepository, pedidoRepository.pedidos.Values`itens, pedidoRepository.Itens()
    {
      if pedidoId !in pedidoRepository.pedidos then Some(NotFound)
      else
        var s := pedidoRepository.pedidos[pedidoId].itens;
        if exists j :: 0 <= j < |s| && (s[j].produto == null || s[j].quantidade.None?) then Some(NullPointer)
        else None
    }

    /** The products of the lines of the stored order with id pedidoId, as a frame. */
    ghost function ProdutosDoPedido(pedidoId: int): set<Produto>
      reads pedidoRepository, pedidoRepository.pedidos.Values`itens, pedidoRepository.Itens()
    {
      if pedidoId in pedidoRepository.pedidos then pedidoRepository.pedidos[pedidoId].Produtos() else {}
    }

    /**
     * The loop of cancelarPedido: each line's quantity goes back to its
     * product's stock, so every product ends with what all the lines held
     * of it added.
     */
    static method Devolver(pedido: Pedido)
      requires forall j :: 0 <= j < |pedido.itens| ==> pedido.itens[j].produto != null && pedido.itens[j].quantidade.Some?
      modifies pedido.Produtos()`quantidadeEmEstoque
      ensures forall x :: x in old(pedido.Produtos()) ==>
                x.quantidadeEmEstoque == old(x.quantidadeEmEstoque) + Reservado(pedido.Linhas(), x)
    {
      ghost var ls := pedido.Linhas();
      var i := 0;
      while i < |pedido.itens|
        invariant 0 <= i <= |pedido.itens|
        invariant forall x :: x in old(pedido.Produtos()) ==>
                    x.quantidadeEmEstoque == old(x.quantidadeEmEstoque) + Reservado(ls[..i], x)
      {
        var item := pedido.itens[i];
        var produto := item.produto;
        assert item in pedido.itens;
        produto.quantidadeEmEstoque := produto.quantidadeEmEstoque + item.quantidade.value;
        assert ls[..i + 1][..i] == ls[..i];
        i := i + 1;
      }
      assert ls[..i] == ls;
    }

    /**
     * The changes of cancelarPedido once its checks pass: the stock of every
     * line goes back, the status becomes CANCELADO and the totals are
     * recalculated.
     */
    static method Cancelar(pedido: Pedido)
      requires forall j :: 0 <= j < |pedido.itens| ==> pedido.itens[j].produto != null && pedido.itens[j].quantidade.Some?
      modifies pedido.Produtos()`quantidadeEmEstoque, pedido`status, pedido`valorTotal, pedido`desconto, pedido`frete
      ensures forall x :: x in old(pedido.Produtos()) ==>
                x.quantidadeEmEstoque == old(x.quantidadeEmEstoque) + Reservado(pedido.Linhas(), x)
      ensures pedido.status == Some(StatusPedido.CANCELADO) && pedido.Linhas() == old(pedido.Linhas())
      ensures old(pedido.LinhasValidas()) ==> pedido.LinhasValidas()
      ensures pedido.TotaisConsistentes()
      ensures old(pedido.TotaisConsistentes()) ==>
                pedido.valorTotal == old(pedido.valorTotal) && pedido.desconto == old(pedido.desconto)
                && pedido.frete == old(pedido.frete)
    {
      Devolver(pedido);
      pedido.status := Some(StatusPedido.CANCELADO);
      pedido.RecalcularTotais();
      LinhasMantidas(pedido);
    }

    /** cancelarPedido on a stored order once its checks pass; the stored data keep their rules. */
    method CancelarArmazenado(pedidoId: int)
      requires Valid() && ErroCancelar(pedidoId).None?
      modifies ProdutosDoPedido(pedidoId)`quantidadeEmEstoque, pagamentoService.PedidoEm(pedidoId)`status
      modifies pagamentoService.PedidoEm(pedidoId)`valorTotal, pagamentoService.PedidoEm(pedidoId)`desconto
      modifies pagamentoService.PedidoEm(pedidoId)`frete
      ensures Valid()
      ensures var p := pedidoRepository.pedidos[pedidoId];
        && (forall x :: x in old(p.Produtos()) ==>
              x.quantidadeEmEstoque == old(x.quantidadeEmEstoque) + Reservado(p.Linhas(), x))
        && p.status == Some(StatusPedido.CANCELADO) && p.itens == old(p.itens) && p.Linhas() == old(p.Linhas())
        && p.TotaisConsistentes()
        && (old(p.TotaisConsistentes()) ==>
              p.valorTotal == old(p.valorTotal) && p.desconto == old(p.desconto) && p.frete == old(p.frete))
        && (old(p.TotaisConsistentes() && pagamentoService.Valid()) ==> pagamentoService.Valid())
    {
      var pedido := pedidoRepository.pedidos[pedidoId];
      assert pedido.LinhasValidas();
      ghost var ls := pedido.Linhas();
      Cancelar(pedido);
      forall n | n in produtoRepository.produtos
        ensures produtoRepository.produtos[n].quantidadeEmEstoque >= 0
      {
        var x := produtoRepository.produtos[n];
        assert old(x.quantidadeEmEstoque >= 0);
        if x in old(pedido.Produtos()) {
          ReservadoNaoNegativo(ls, x);
        }
      }
      forall i | i in old(pedidoRepository.Itens()) && i !in old(pedido.itens)
        ensures unchanged(i)
      {
        assert i is ItemPedido;
      }
      LinhasAlteradas(pedido);
      if old(pedido.TotaisConsistentes() && pagamentoService.Valid()) {
        PagamentosForaDe(pedido);
        assert pedido in old(pedidoRepository.pedidos.Values);
        assert old(SnapshotEmDia(pedido));
        assert pedido.TotalProdutos() == old(pedido.TotalProdutos());
        pagamentoService.SemPendencia(pedido);
      }
    }

    /**
     * cancelarPedido(pedidoId): after the checks, every line's quantity goes
     * back to its product, whatever the order's status was (a second cancel
     * returns the stock again), the order becomes CANCELADO and keeps its
     * lines, and its totals are recalculated, which leaves consistent totals
     * as they were. The payment is not touched.
     */
    method CancelarPedido(pedidoId: int) returns (r: Result<Pedido>)
      requires Valid()
      modifies ProdutosDoPedido(pedidoId)`quantidadeEmEstoque, pagamentoService.PedidoEm(pedidoId)`status
      modifies pagamentoService.PedidoEm(pedidoId)`valorTotal, pagamentoService.PedidoEm(pedidoId)`desconto
      modifies pagamentoService.PedidoEm(pedidoId)`frete
      ensures Valid()
      ensures r.Err? <==> old(ErroCancelar(pedidoId)).Some?
      ensures r.Err? ==> r.erro == old(ErroCancelar(pedidoId)).value
      ensures r.Err? ==> unchanged(pagamentoService.PedidoEm(pedidoId)) && unchanged(ProdutosDoPedido(pedidoId))
      ensures r.Ok? ==>
                var p := pedidoRepository.pedidos[pedidoId];
                && r.value == p
                && (forall x :: x in old(p.Produtos()) ==>
                      x.quantidadeEmEstoque == old(x.quantidadeEmEstoque) + Reservado(p.Linhas(), x))
                && p.status == Some(StatusPedido.CANCELADO) && p.itens == old(p.itens) && p.Linhas() == old(p.Linhas())
                && p.TotaisConsistentes()
                && (old(p.TotaisConsistentes()) ==>
                      p.valorTotal == old(p.valorTotal) && p.desconto == old(p.desconto) && p.frete == old(p.frete))
                && (old(p.TotaisConsistentes() && SnapshotEmDia(p)) ==> SnapshotEmDia(p))
                && (old(p.TotaisConsistentes() && pagamentoService.Valid()) ==> pagamentoService.Valid())
    {
      var erro := ErroCancelar(pedidoId);
      if erro.Some? {
        return Err(erro.value);
      }
      var pedido := pedidoRepository.pedidos[pedidoId];
      CancelarArmazenado(pedidoId);
      assert pedido.TotalProdutos() == old(pedido.TotalProdutos());
      return Ok(pedido);
    }
  }
}
