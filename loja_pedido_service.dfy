/**
 * The order service of the second application (`loja_api`): an order is
 * priced from the product table, pays a fixed freight of 20.00 and gets a
 * 10 % discount when its products sum to more than 200.00. Its entities
 * are plain records that the service fills in before saving them, so they
 * are values here; the two repositories are tables.
 */
module LojaApi {
  import opened Wrappers

  /** A moment in time (LocalDateTime); the clock is a parameter. */
  type Instante = int

  /** The order status values the service uses. */
  datatype StatusPedido = PENDENTE

  /** A payment method, by the name of its enum constant. */
  datatype FormaPagamento = FormaPagamento(nome: string)

  /** A product: the service reads its id and price. */
  datatype Produto = Produto(id: int, nome: Option<string>, preco: Option<real>)

  /** An order line: no validation, the total is whatever the service computed. */
  datatype ItemPedido = ItemPedido(id: Option<int>, produto: Produto, quantidade: int,
                                   precoUnitario: real, totalItem: real)

  /** An order. */
  datatype Pedido = Pedido(id: Option<int>, dataCriacao: Instante, status: StatusPedido,
                           valorTotal: real, frete: real, desconto: real,
                           formaPagamento: Option<FormaPagamento>, itens: seq<ItemPedido>)

  /** ItemPedidoDTO: every field may be null. */
  datatype ItemPedidoDTO = ItemPedidoDTO(produtoId: Option<int>, quantidade: Option<int>,
                                         precoUnitario: Option<real>, totalItem: Option<real>)

  /** PedidoDTO, with the fields toDTO fills in. */
  datatype PedidoDTO = PedidoDTO(id: Option<int>, dataCriacao: Option<Instante>, status: Option<StatusPedido>,
                                 valorTotal: Option<real>, frete: Option<real>, desconto: Option<real>,
                                 formaPagamento: Option<FormaPagamento>, itens: Option<seq<ItemPedidoDTO>>)

  /** The fixed freight, new BigDecimal("20.00"). */
  const FRETE: real := 20.0
  /** The product total above which the discount applies. */
  const LIMITE_DESCONTO: real := 200.0
  /** The discount rate, new BigDecimal("0.10"). */
  const TAXA_DESCONTO: real := 0.10

  // ---------------------------------------------------------------------------
  // Pricing
  // ---------------------------------------------------------------------------

  /**
   * The mapping of one requested line: the product must exist (findById
   * rejects a null id, orElseThrow a missing product), and its price and the
   * requested quantity are dereferenced, so neither may be null. The line
   * takes the product's price as it is and totals price times quantity.
   */
  function Converter(produtos: map<int, Produto>, d: ItemPedidoDTO): (r: Result<ItemPedido>)
    ensures r.Ok? <==> d.produtoId.Some? && d.produtoId.value in produtos
                       && produtos[d.produtoId.value].preco.Some? && d.quantidade.Some?
    ensures r.Err? ==> r.erro == (if d.produtoId.None? then IllegalArgument
                                  else if d.produtoId.value !in produtos then NoSuchElement
                                  else NullPointer)
    ensures r.Ok? ==>
              var p := produtos[d.produtoId.value];
              && r.value.produto == p && r.value.quantidade == d.quantidade.value
              && r.value.precoUnitario == p.preco.value
              && r.value.totalItem == r.value.precoUnitario * r.value.quantidade as real
              && r.value.id.None?
  {
    if d.produtoId.None? then Err(IllegalArgument)
    else if d.produtoId.value !in produtos then Err(NoSuchElement)
    else
      var produto := produtos[d.produtoId.value];
      if produto.preco.None? || d.quantidade.None? then Err(NullPointer)
      else
        var q := d.quantidade.value;
        Ok(ItemPedido(None, produto, q, produto.preco.value, produto.preco.value * q as real))
  }

  /**
   * The stream of requested lines mapped in order: every line converted, or
   * the exception of the first line that fails.
   */
  function ConverterItens(produtos: map<int, Produto>, ds: seq<ItemPedidoDTO>): (r: Result<seq<ItemPedido>>)
    ensures r.Ok? <==> forall k :: 0 <= k < |ds| ==> Converter(produtos, ds[k]).Ok?
    ensures r.Ok? ==> |r.value| == |ds| && forall k :: 0 <= k < |ds| ==> Converter(produtos, ds[k]) == Ok(r.value[k])
    ensures r.Err? ==> exists k :: 0 <= k < |ds| && Converter(produtos, ds[k]) == Err(r.erro)
                                   && forall j :: 0 <= j < k ==> Converter(produtos, ds[j]).Ok?
  {
    if ds == [] then Ok([])
    else
      match Converter(produtos, ds[0])
      case Err(e) => Err(e)
      case Ok(item) =>
        match ConverterItens(produtos, ds[1..])
        case Err(e) =>
          assert forall k :: 0 <= k < |ds| - 1 ==> ds[1..][k] == ds[k + 1];
          Err(e)
        case Ok(resto) => Ok([item] + resto)
  }

  /** The total of the products: the line totals added from ZERO, in order. */
  function TotalProdutos(itens: seq<ItemPedido>): real
  {
    if itens == [] then 0.0 else TotalProdutos(itens[..|itens| - 1]) + itens[|itens| - 1].totalItem
  }

  /** The discount on a product total: 10 % strictly above 200.00, else zero; not rounded. */
  function Desconto(totalProdutos: real): real
  {
    if totalProdutos > LIMITE_DESCONTO then totalProdutos * TAXA_DESCONTO else 0.0
  }

  /** The final total: products plus freight minus discount, neither clamped nor rounded. */
  function ValorTotal(totalProdutos: real): real
  {
    totalProdutos + FRETE - Desconto(totalProdutos)
  }

  /** The discount and the final total as the two branches of the threshold. */
  lemma ValorTotalPorFaixa(tp: real)
    ensures tp <= LIMITE_DESCONTO ==> Desconto(tp) == 0.0 && ValorTotal(tp) == tp + 20.0
    ensures tp > LIMITE_DESCONTO ==> Desconto(tp) == tp / 10.0 && ValorTotal(tp) == tp * 9.0 / 10.0 + 20.0
    ensures tp > LIMITE_DESCONTO ==> 20.0 < Desconto(tp) < tp
  {
  }

  /** For a non-negative product total the final total is at least the freight and at most products plus freight. */
  lemma ValorTotalLimites(tp: real)
    requires tp >= 0.0
    ensures FRETE <= ValorTotal(tp) <= tp + FRETE
    ensures 0.0 <= Desconto(tp) <= tp
  {
  }

  /** A product total of 250.00 gets 25.00 off and costs 245.00; one of exactly 200.00 gets nothing off. */
  lemma ExemplosDeDesconto()
    ensures Desconto(250.0) == 25.0 && ValorTotal(250.0) == 245.0
    ensures Desconto(200.0) == 0.0 && ValorTotal(200.0) == 220.0
  {
  }

  /**
   * The threshold makes the final total fall as the products rise past
   * 200.00: 201.00 of products cost less than 200.00 do.
   */
  lemma TotalCaiNoLimite()
    ensures ValorTotal(201.0) < ValorTotal(200.0)
  {
  }

  /** The discount keeps a third decimal: 10 % of 200.05 is 20.005, which is not a whole number of cents. */
  lemma DescontoComTresCasas()
    ensures Desconto(200.05) == 20.005
    ensures (Desconto(200.05) * 100.0).Floor as real != Desconto(200.05) * 100.0
  {
  }

  /** Lines with non-negative totals add up to a non-negative product total. */
  lemma {:induction false} TotalProdutosNaoNegativo(itens: seq<ItemPedido>)
    requires forall k :: 0 <= k < |itens| ==> itens[k].totalItem >= 0.0
    ensures TotalProdutos(itens) >= 0.0
  {
    if itens != [] {
      TotalProdutosNaoNegativo(itens[..|itens| - 1]);
    }
  }

  // ---------------------------------------------------------------------------
  // toDTO
  // ---------------------------------------------------------------------------

  /** The DTO of one line: product id, quantity, unit price and total. */
  function ItemToDTO(item: ItemPedido): ItemPedidoDTO
  {
    ItemPedidoDTO(Some(item.produto.id), Some(item.quantidade), Some(item.precoUnitario), Some(item.totalItem))
  }

  /**
   * The DTO the service reports for a requested line that could be priced:
   * the requested product id and quantity, the product's price and price
   * times quantity.
   */
  function LinhaRespondida(produtos: map<int, Produto>, d: ItemPedidoDTO): ItemPedidoDTO
    requires d.produtoId.Some? && d.produtoId.value in produtos
    requires produtos[d.produtoId.value].preco.Some? && d.quantidade.Some?
  {
    var preco := produtos[d.produtoId.value].preco.value;
    ItemPedidoDTO(d.produtoId, d.quantidade, Some(preco), Some(preco * d.quantidade.value as real))
  }

  /** toDTO(pedido): the order's fields, and its lines mapped one by one in order. */
  function ToDTO(p: Pedido): (r: PedidoDTO)
    ensures r.id == p.id && r.dataCriacao == Some(p.dataCriacao) && r.status == Some(p.status)
    ensures r.valorTotal == Some(p.valorTotal) && r.frete == Some(p.frete) && r.desconto == Some(p.desconto)
    ensures r.formaPagamento == p.formaPagamento
    ensures r.itens.Some? && |r.itens.value| == |p.itens|
    ensures forall k :: 0 <= k < |p.itens| ==> r.itens.value[k] == ItemToDTO(p.itens[k])
  {
    PedidoDTO(p.id, Some(p.dataCriacao), Some(p.status), Some(p.valorTotal), Some(p.frete), Some(p.desconto),
              p.formaPagamento, Some(seq(|p.itens|, k requires 0 <= k < |p.itens| => ItemToDTO(p.itens[k]))))
  }

  /** The sum of the totals a list of line DTOs reports, null counted as zero. */
  function SomaDTO(ds: seq<ItemPedidoDTO>): real
  {
    if ds == [] then 0.0 else SomaDTO(ds[..|ds| - 1]) + GetOr(ds[|ds| - 1].totalItem, 0.0)
  }

  /** The line DTOs of an order add up to the order's product total. */
  lemma {:induction false} SomaDTODeItens(itens: seq<ItemPedido>, ds: seq<ItemPedidoDTO>)
    requires |ds| == |itens| && forall k :: 0 <= k < |itens| ==> ds[k] == ItemToDTO(itens[k])
    ensures SomaDTO(ds) == TotalProdutos(itens)
  {
    if itens != [] {
      var n := |itens| - 1;
      SomaDTODeItens(itens[..n], ds[..n]);
    }
  }

  /**
   * A DTO whose amounts agree with its own lines: the freight is 20.00, the
   * discount follows the rule on the lines' sum and the total is that sum
   * plus freight minus discount.
   */
  ghost predicate ResumoCoerente(dto: PedidoDTO)
  {
    && dto.itens.Some?
    && var tp := SomaDTO(dto.itens.value);
    && dto.frete == Some(FRETE) && dto.desconto == Some(Desconto(tp)) && dto.valorTotal == Some(ValorTotal(tp))
  }

  // ---------------------------------------------------------------------------
  // Repositories and the service
  // ---------------------------------------------------------------------------

  /** ProdutoRepository: products by id. */
  class ProdutoRepository {
    var produtos: map<int, Produto>

    /** Every product sits under its own id. */
    ghost predicate Valid()
      reads this
    {
      forall n :: n in produtos ==> produtos[n].id == n
    }

    constructor (produtos: map<int, Produto>)
      ensures this.produtos == produtos
    {
      this.produtos := produtos;
    }
  }

  /** PedidoRepository: the saved orders in id order, with the identity counters of orders and lines. */
  class PedidoRepository {
    var pedidos: seq<Pedido>
    var proximoId: int
    var proximoItemId: int

    constructor ()
      ensures pedidos == [] && proximoId == 1 && proximoItemId == 1
    {
      pedidos, proximoId, proximoItemId := [], 1, 1;
    }

    /** save(p) of a new order: the order and, by cascade, each of its lines get the next identity value. */
    method Salvar(p: Pedido) returns (salvo: Pedido)
      modifies this
      ensures salvo == p.(id := Some(old(proximoId)), itens := salvo.itens)
      ensures |salvo.itens| == |p.itens|
      ensures forall k :: 0 <= k < |p.itens| ==> salvo.itens[k] == p.itens[k].(id := Some(old(proximoItemId) + k))
      ensures pedidos == old(pedidos) + [salvo]
      ensures proximoId == old(proximoId) + 1 && proximoItemId == old(proximoItemId) + |p.itens|
    {
      var primeiro := proximoItemId;
      var itens := seq(|p.itens|, k requires 0 <= k < |p.itens| => p.itens[k].(id := Some(primeiro + k)));
      salvo := p.(id := Some(proximoId), itens := itens);
      pedidos := pedidos + [salvo];
      proximoId := proximoId + 1;
      proximoItemId := proximoItemId + |p.itens|;
    }
  }

  /** The loja_api PedidoService. */
  class PedidoService {
    const pedidoRepository: PedidoRepository
    const produtoRepository: ProdutoRepository

    constructor (pedidoRepository: PedidoRepository, produtoRepository: ProdutoRepository)
      ensures this.pedidoRepository == pedidoRepository && this.produtoRepository == produtoRepository
    {
      this.pedidoRepository := pedidoRepository;
      this.produtoRepository := produtoRepository;
    }

    /**
     * criarPedido(dto) at time agora: the requested lines are priced from
     * the product table (the first line that cannot be priced aborts the
     * call and nothing is saved), and the saved order is PENDENTE, takes
     * the requested payment method, pays 20.00 freight and the discount of
     * its product total; the DTO returned reports each requested line with
     * its product's price and total, and amounts that agree with its lines.
     */
    method CriarPedido(dto: PedidoDTO, agora: Instante) returns (r: Result<PedidoDTO>)
      requires produtoRepository.Valid()
      modifies pedidoRepository
      ensures r.Err? <==> dto.itens.None? || ConverterItens(produtoRepository.produtos, dto.itens.value).Err?
      ensures r.Err? ==>
                && unchanged(pedidoRepository)
                && r.erro == (if dto.itens.None? then NullPointer
                              else ConverterItens(produtoRepository.produtos, dto.itens.value).erro)
      ensures r.Ok? ==>
                var pedidos := pedidoRepository.pedidos;
                && |pedidos| == |old(pedidoRepository.pedidos)| + 1
                && pedidos[..|pedidos| - 1] == old(pedidoRepository.pedidos)
                && r.value == ToDTO(pedidos[|pedidos| - 1])
      ensures r.Ok? ==>
                && r.value.id == Some(old(pedidoRepository.proximoId))
                && r.value.dataCriacao == Some(agora) && r.value.status == Some(PENDENTE)
                && r.value.formaPagamento == dto.formaPagamento
                && ResumoCoerente(r.value)
      ensures r.Ok? ==>
                var pedidos := dto.itens.value;
                && r.value.itens.Some? && |r.value.itens.value| == |pedidos|
                && forall k :: 0 <= k < |pedidos| ==>
                     r.value.itens.value[k] == LinhaRespondida(produtoRepository.produtos, pedidos[k])
    {
      if dto.itens.None? {
        return Err(NullPointer);
      }
      var convertidos := ConverterItens(produtoRepository.produtos, dto.itens.value);
      if convertidos.Err? {
        return Err(convertidos.erro);
      }
      var itens := convertidos.value;
      var tp := TotalProdutos(itens);
      var pedido := Pedido(None, agora, PENDENTE, ValorTotal(tp), FRETE, Desconto(tp), dto.formaPagamento, itens);
      var salvo := pedidoRepository.Salvar(pedido);
      var resposta := ToDTO(salvo);
      forall k | 0 <= k < |itens|
        ensures resposta.itens.value[k] == ItemToDTO(itens[k])
        ensures ItemToDTO(itens[k]) == LinhaRespondida(produtoRepository.produtos, dto.itens.value[k])
      {
        var d := dto.itens.value[k];
        assert Converter(produtoRepository.produtos, d) == Ok(itens[k]);
        assert produtoRepository.produtos[d.produtoId.value].id == d.produtoId.value;
      }
      SomaDTODeItens(itens, resposta.itens.value);
      return Ok(resposta);
    }

    /** listarTodos(): every saved order, in order, as its DTO. */
    function ListarTodos(): (r: seq<PedidoDTO>)
      reads this.pedidoRepository
      ensures |r| == |pedidoRepository.pedidos|
      ensures forall k :: 0 <= k < |r| ==> r[k] == ToDTO(pedidoRepository.pedidos[k])
    {
      seq(|pedidoRepository.pedidos|, k requires 0 <= k < |pedidoRepository.pedidos| reads this.pedidoRepository
        => ToDTO(pedidoRepository.pedidos[k]))
    }
  }
}
