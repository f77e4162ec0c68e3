/**
 * The entities of the sales back office (package `model` of sistema-vendas):
 * products, order lines and orders. Order lines and orders refer to each other,
 * so they share one module. Amounts are exact reals (see module Money).
 */
module VendasModel {
  import opened Wrappers
  import opened Money

  /** The two order states the code uses. */
  datatype StatusPedido = ATIVO | CANCELADO

  /** LocalDateTime, as a point on a line; the clock is a parameter. */
  type Instante = int

  /** The customer an order belongs to, by id. */
  type ClienteId = int

  // ---------------------------------------------------------------------------
  // Produto
  // ---------------------------------------------------------------------------

  /** A catalog product. The order service changes its stock in place. */
  class Produto {
    const id: int
    var nome: string
    var descricao: string
    var preco: real
    var quantidadeEmEstoque: int

    constructor (id: int, nome: string, descricao: string, preco: real, quantidadeEmEstoque: int)
      ensures this.id == id && this.nome == nome && this.descricao == descricao
      ensures this.preco == preco && this.quantidadeEmEstoque == quantidadeEmEstoque
    {
      this.id := id;
      this.nome := nome;
      this.descricao := descricao;
      this.preco := preco;
      this.quantidadeEmEstoque := quantidadeEmEstoque;
    }
  }

  // ---------------------------------------------------------------------------
  // The value of an order line, and sums over lines
  // ---------------------------------------------------------------------------

  /** What an order line contributes to totals and to stock. */
  datatype Linha = Linha(produto: Produto?, quantidade: Option<int>, precoUnitario: Option<real>)
  {
    /**
     * getSubtotal(): unit price times quantity at scale 2 HALF_UP, zero when
     * either is null.
     */
    function Subtotal(): (r: real)
      ensures IsCents(r)
      ensures precoUnitario.None? || quantidade.None? ==> r == 0.0
      ensures precoUnitario.Some? && quantidade.Some? ==>
                var exact := Times(precoUnitario.value, quantidade.value);
                && (exact >= 0.0 ==> exact - 0.005 < r <= exact + 0.005)
                && (exact < 0.0 ==> exact - 0.005 <= r < exact + 0.005)
    {
      if precoUnitario.None? || quantidade.None? then 0.0
      else Round2(Times(precoUnitario.value, quantidade.value))
    }

    /** The quantity of product p that this line holds. */
    function Reserva(p: Produto): int
    {
      if produto == p && quantidade.Some? then quantidade.value else 0
    }
  }

  /** A line whose price is already at scale 2 has exactly price x quantity as subtotal. */
  lemma SubtotalExato(l: Linha)
    requires l.precoUnitario.Some? && l.quantidade.Some? && IsCents(l.precoUnitario.value)
    ensures l.Subtotal() == Times(l.precoUnitario.value, l.quantidade.value)
  {
    CentsTimes(l.precoUnitario.value, l.quantidade.value);
    Round2OfCents(Times(l.precoUnitario.value, l.quantidade.value));
  }

  /** A line with a non-negative price and quantity has a non-negative subtotal. */
  lemma SubtotalNaoNegativo(l: Linha)
    requires l.precoUnitario.Some? ==> l.precoUnitario.value >= 0.0
    requires l.quantidade.Some? ==> l.quantidade.value >= 0
    ensures l.Subtotal() >= 0.0
  {
    if l.precoUnitario.Some? && l.quantidade.Some? {
      TimesNonNegative(l.precoUnitario.value, l.quantidade.value);
    }
  }

  /** The values of a list of order lines, in list order. */
  function LinhasDe(s: seq<ItemPedido>): (r: seq<Linha>)
    reads s
    ensures |r| == |s|
    ensures forall i :: 0 <= i < |s| ==> r[i] == s[i].AsLinha()
  {
    seq(|s|, i reads s requires 0 <= i < |s| => s[i].AsLinha())
  }

  /** The stream map/reduce of getTotalProdutos, before setScale. */
  function SomaSubtotais(ls: seq<Linha>): real
  {
    if ls == [] then 0.0 else SomaSubtotais(ls[..|ls| - 1]) + ls[|ls| - 1].Subtotal()
  }

  /** A sum of subtotals is an amount in cents, so setScale(2) does not change it. */
  lemma {:induction false} SomaSubtotaisCents(ls: seq<Linha>)
    ensures IsCents(SomaSubtotais(ls))
  {
    if ls == [] {
      CentsZero();
    } else {
      SomaSubtotaisCents(ls[..|ls| - 1]);
      CentsAdd(SomaSubtotais(ls[..|ls| - 1]), ls[|ls| - 1].Subtotal());
    }
  }

  /** Lines with non-negative prices and quantities sum to a non-negative amount. */
  lemma {:induction false} SomaSubtotaisNaoNegativa(ls: seq<Linha>)
    requires forall i :: 0 <= i < |ls| ==> ls[i].precoUnitario.Some? ==> ls[i].precoUnitario.value >= 0.0
    requires forall i :: 0 <= i < |ls| ==> ls[i].quantidade.Some? ==> ls[i].quantidade.value >= 0
    ensures SomaSubtotais(ls) >= 0.0
  {
    if ls != [] {
      SomaSubtotaisNaoNegativa(ls[..|ls| - 1]);
      SubtotalNaoNegativo(ls[|ls| - 1]);
    }
  }

  /** The total quantity of product p held by the lines. */
  function Reservado(ls: seq<Linha>, p: Produto): int
  {
    if ls == [] then 0 else Reservado(ls[..|ls| - 1], p) + ls[|ls| - 1].Reserva(p)
  }

  /** Appending a line adds what it holds. */
  lemma ReservadoAppend(ls: seq<Linha>, l: Linha, p: Produto)
    ensures Reservado(ls + [l], p) == Reservado(ls, p) + l.Reserva(p)
  {
    assert (ls + [l])[..|ls|] == ls;
  }

  /** Replacing line k changes the held quantity by the difference of the two lines. */
  lemma {:induction false} ReservadoUpdate(ls: seq<Linha>, k: nat, l: Linha, p: Produto)
    requires k < |ls|
    ensures Reservado(ls[k := l], p) == Reservado(ls, p) - ls[k].Reserva(p) + l.Reserva(p)
  {
    var n := |ls| - 1;
    if k == n {
      assert ls[k := l][..n] == ls[..n];
    } else {
      assert ls[k := l][..n] == ls[..n][k := l];
      ReservadoUpdate(ls[..n], k, l, p);
    }
  }

  /** Removing line k takes away what it held. */
  lemma {:induction false} ReservadoRemove(ls: seq<Linha>, k: nat, p: Produto)
    requires k < |ls|
    ensures Reservado(ls[..k] + ls[k + 1..], p) == Reservado(ls, p) - ls[k].Reserva(p)
  {
    var n := |ls| - 1;
    var r := ls[..k] + ls[k + 1..];
    if k == n {
      assert r == ls[..n];
    } else {
      var front := ls[..n];
      assert r[..|r| - 1] == front[..k] + front[k + 1..];
      assert r[|r| - 1] == ls[n];
      ReservadoRemove(front, k, p);
    }
  }

  /** Lines with non-negative quantities hold a non-negative quantity of every product. */
  lemma {:induction false} ReservadoNaoNegativo(ls: seq<Linha>, p: Produto)
    requires forall i :: 0 <= i < |ls| ==> ls[i].quantidade.Some? ==> ls[i].quantidade.value >= 0
    ensures Reservado(ls, p) >= 0
  {
    if ls != [] {
      ReservadoNaoNegativo(ls[..|ls| - 1], p);
    }
  }

  // ---------------------------------------------------------------------------
  // ItemPedido
  // ---------------------------------------------------------------------------

  /** An order line: a product, a quantity and a snapshot of the unit price. */
  class ItemPedido {
    var id: Option<int>
    var pedido: Pedido?
    var produto: Produto?
    var quantidade: Option<int>
    var precoUnitario: Option<real>

    /** The no-argument constructor: every field null. */
    constructor ()
      ensures id.None? && pedido == null && produto == null
      ensures quantidade.None? && precoUnitario.None?
    {
      id := None;
      pedido := null;
      produto := null;
      quantidade := None;
      precoUnitario := None;
    }

    function AsLinha(): Linha
      reads this`produto, this`quantidade, this`precoUnitario
    {
      Linha(produto, quantidade, precoUnitario)
    }

    /** getSubtotal(). */
    function Subtotal(): (r: real)
      reads this`produto, this`quantidade, this`precoUnitario
      ensures IsCents(r)
      ensures r == AsLinha().Subtotal()
    {
      AsLinha().Subtotal()
    }

    /** What validate() (@PrePersist, @PreUpdate) accepts. */
    predicate Persistivel()
      reads this`pedido, this`produto, this`quantidade, this`precoUnitario
    {
      && pedido != null && produto != null
      && quantidade.Some? && quantidade.value >= 1
      && precoUnitario.Some? && precoUnitario.value >= 0.0
    }

    /** setQuantidade: rejects null and values below 1, otherwise stores the value. */
    method SetQuantidade(q: Option<int>) returns (r: Outcome)
      modifies this`quantidade
      ensures r.Pass? <==> q.Some? && q.value >= 1
      ensures r.Pass? ==> quantidade == q
      ensures r.Fail? ==> r.erro == IllegalArgument && quantidade == old(quantidade)
    {
      if q.None? || q.value < 1 {
        return Fail(IllegalArgument);
      }
      quantidade := q;
      return Pass;
    }

    /** setPrecoUnitario: rejects null and negative prices, stores the price at scale 2 HALF_UP. */
    method SetPrecoUnitario(p: Option<real>) returns (r: Outcome)
      modifies this`precoUnitario
      ensures r.Pass? <==> p.Some? && p.value >= 0.0
      ensures r.Pass? ==> precoUnitario == Some(Round2(p.value))
      ensures r.Pass? ==> IsCents(precoUnitario.value) && precoUnitario.value >= 0.0
      ensures r.Fail? ==> r.erro == IllegalArgument && precoUnitario == old(precoUnitario)
    {
      if p.None? {
        return Fail(IllegalArgument);
      }
      if p.value < 0.0 {
        return Fail(IllegalArgument);
      }
      precoUnitario := Some(Round2(p.value));
      return Pass;
    }

    /**
     * The practical constructor ItemPedido(pedido, produto, quantidade): both
     * references are required, the quantity goes through setQuantidade and the
     * product's current price through setPrecoUnitario. A failure is the
     * exception the constructor throws.
     */
    static method Novo(pedido: Pedido?, produto: Produto?, quantidade: Option<int>) returns (r: Result<ItemPedido>)
      ensures r.Ok? <==> pedido != null && produto != null && quantidade.Some? && quantidade.value >= 1 && produto.preco >= 0.0
      ensures r.Err? ==> r.erro == (if pedido == null || produto == null then NullPointer else IllegalArgument)
      ensures r.Ok? ==> fresh(r.value) && r.value.id.None?
      ensures r.Ok? ==> r.value.pedido == pedido && r.value.produto == produto && r.value.quantidade == quantidade
      ensures r.Ok? ==> r.value.precoUnitario == Some(Round2(produto.preco))
      ensures r.Ok? ==> r.value.Persistivel() && IsCents(r.value.precoUnitario.value)
    {
      if pedido == null || produto == null {
        return Err(NullPointer);
      }
      var item := new ItemPedido();
      item.pedido := pedido;
      item.produto := produto;
      var ok := item.SetQuantidade(quantidade);
      if ok.Fail? {
        return Err(ok.erro);
      }
      ok := item.SetPrecoUnitario(Some(produto.preco));
      if ok.Fail? {
        return Err(ok.erro);
      }
      return Ok(item);
    }

    /** validate(): the checks run before the line is inserted or updated. */
    method Validate() returns (r: Outcome)
      ensures r.Pass? <==> Persistivel()
      ensures r.Fail? ==> r.erro == InvalidState
    {
      if pedido == null || produto == null {
        return Fail(InvalidState);
      }
      if quantidade.None? || quantidade.value < 1 {
        return Fail(InvalidState);
      }
      if precoUnitario.None? || precoUnitario.value < 0.0 {
        return Fail(InvalidState);
      }
      return Pass;
    }

    /** equals(): the same object, or the same non-null id. */
    function Equals(o: ItemPedido?): (r: bool)
      reads this, o
      ensures r <==> this == o || (o != null && id.Some? && o.id == id)
    {
      this == o || (o != null && id.Some? && id == o.id)
    }
  }

  /** equals() is an equivalence relation on order lines. */
  lemma EqualsEquivalencia(a: ItemPedido, b: ItemPedido, c: ItemPedido)
    ensures a.Equals(a)
    ensures a.Equals(b) ==> b.Equals(a)
    ensures a.Equals(b) && b.Equals(c) ==> a.Equals(c)
  {
  }

  // ---------------------------------------------------------------------------
  // Finding and removing a line in an order's list
  // ---------------------------------------------------------------------------

  /** Every line of s has an id, and none has the id itemId. */
  predicate SemIdNuloNemIgual(s: seq<ItemPedido>, itemId: int)
    reads s
  {
    forall j :: 0 <= j < |s| ==> s[j].id.Some? && s[j].id != Some(itemId)
  }

  /**
   * itens.stream().filter(i -> i.getId().equals(itemId)).findFirst(): the
   * index of the first line with that id. A line with a null id reached
   * before it throws (NullPointer); no match is NotFound.
   */
  function PrimeiroComId(s: seq<ItemPedido>, itemId: int): (r: Result<nat>)
    reads s
    ensures r.Ok? ==> r.value < |s| && s[r.value].id == Some(itemId) && SemIdNuloNemIgual(s[..r.value], itemId)
    ensures r.Err? && r.erro == NotFound ==> SemIdNuloNemIgual(s, itemId)
    ensures r.Err? && r.erro != NotFound ==>
              && r.erro == NullPointer
              && exists k :: 0 <= k < |s| && s[k].id.None? && SemIdNuloNemIgual(s[..k], itemId)
    decreases |s|
  {
    if s == [] then Err(NotFound)
    else if s[0].id.None? then Err(NullPointer)
    else if s[0].id == Some(itemId) then Ok(0)
    else
      var t := PrimeiroComId(s[1..], itemId);
      if t.Ok? then Ok(t.value + 1)
      else if t.erro == NotFound then t
      else NuloAdiante(s, itemId); t
  }

  /** A null id reached in the tail is reached in the whole list, one position later. */
  lemma NuloAdiante(s: seq<ItemPedido>, itemId: int)
    requires |s| > 0 && s[0].id.Some? && s[0].id != Some(itemId)
    requires exists k :: 0 <= k < |s[1..]| && s[1..][k].id.None? && SemIdNuloNemIgual(s[1..][..k], itemId)
    ensures exists k :: 0 <= k < |s| && s[k].id.None? && SemIdNuloNemIgual(s[..k], itemId)
  {
    var k :| 0 <= k < |s[1..]| && s[1..][k].id.None? && SemIdNuloNemIgual(s[1..][..k], itemId);
    assert s[..k + 1] == [s[0]] + s[1..][..k];
    assert SemIdNuloNemIgual(s[..k + 1], itemId);
  }

  /**
   * List.remove(alvo): drops the first line e with alvo.equals(e) and keeps
   * the others in order; without one the list stays as it is.
   */
  function Removido(s: seq<ItemPedido>, alvo: ItemPedido): (r: seq<ItemPedido>)
    reads alvo, s
    ensures |r| == |s| || |r| == |s| - 1
    ensures forall x :: x in r ==> x in s
    decreases |s|
  {
    if s == [] then []
    else if alvo.Equals(s[0]) then s[1..]
    else [s[0]] + Removido(s[1..], alvo)
  }

  /** With a first equal line at k, remove drops exactly that position. */
  lemma {:induction false} RemovidoNaPosicao(s: seq<ItemPedido>, alvo: ItemPedido, k: nat)
    requires k < |s| && alvo.Equals(s[k])
    requires forall j :: 0 <= j < k ==> !alvo.Equals(s[j])
    ensures Removido(s, alvo) == s[..k] + s[k + 1..]
    decreases k
  {
    if k > 0 {
      RemovidoNaPosicao(s[1..], alvo, k - 1);
      assert s[1..][..k - 1] + s[1..][k..] == s[1..k] + s[k + 1..];
      assert [s[0]] + s[1..k] == s[..k];
    }
  }

  /** Without an equal line, remove changes nothing. */
  lemma {:induction false} RemovidoSemIgual(s: seq<ItemPedido>, alvo: ItemPedido)
    requires forall j :: 0 <= j < |s| ==> !alvo.Equals(s[j])
    ensures Removido(s, alvo) == s
    decreases |s|
  {
    if s != [] {
      RemovidoSemIgual(s[1..], alvo);
      assert [s[0]] + s[1..] == s;
    }
  }

  /**
   * The line that the lookup by id finds is the one remove(item) drops:
   * every line before it has another id, so none of them equals it.
   */
  lemma RemoverEncontrado(s: seq<ItemPedido>, itemId: int)
    requires PrimeiroComId(s, itemId).Ok?
    ensures var k := PrimeiroComId(s, itemId).value;
      Removido(s, s[k]) == s[..k] + s[k + 1..]
  {
    var k := PrimeiroComId(s, itemId).value;
    forall j | 0 <= j < k
      ensures !s[k].Equals(s[j])
    {
      assert s[..k][j] == s[j];
    }
    RemovidoNaPosicao(s, s[k], k);
  }

  /**
   * The rules the persisted lines of order p keep: distinct objects, each
   * pointing back at p and passing validate().
   */
  ghost predicate LinhasDoPedido(s: seq<ItemPedido>, p: Pedido)
    reads s
  {
    && (forall i, j :: 0 <= i < j < |s| ==> s[i] != s[j])
    && (forall i :: 0 <= i < |s| ==> s[i].pedido == p && s[i].Persistivel())
  }

  /** Appending a new line of p that passes validate() keeps the rules. */
  lemma LinhasDoPedidoComNova(s: seq<ItemPedido>, p: Pedido, item: ItemPedido)
    requires LinhasDoPedido(s, p) && item !in s && item.pedido == p && item.Persistivel()
    ensures LinhasDoPedido(s + [item], p)
  {
  }

  /** Dropping one position keeps the rules. */
  lemma LinhasDoPedidoSemPosicao(s: seq<ItemPedido>, p: Pedido, k: nat)
    requires LinhasDoPedido(s, p) && k < |s|
    ensures LinhasDoPedido(s[..k] + s[k + 1..], p)
  {
    var r := s[..k] + s[k + 1..];
    forall i | 0 <= i < |r|
      ensures r[i] == s[if i < k then i else i + 1]
    {
    }
  }

  /**
   * The line values of an order and the rules of its lines depend only on
   * its list and on the lines' order, product, quantity and price.
   */
  twostate lemma LinhasMantidas(p: Pedido)
    requires unchanged(p`itens)
    requires forall i :: i in old(p.itens) ==> unchanged(i`pedido, i`produto, i`quantidade, i`precoUnitario)
    ensures p.Linhas() == old(p.Linhas())
    ensures old(p.LinhasValidas()) ==> p.LinhasValidas()
  {
    var s := p.itens;
    forall k | 0 <= k < |s|
      ensures s[k].AsLinha() == old(s[k].AsLinha())
      ensures s[k].pedido == old(s[k].pedido) && (s[k].Persistivel() <==> old(s[k].Persistivel()))
    {
      assert s[k] in old(p.itens);
    }
    assert LinhasDe(s) == old(LinhasDe(s));
  }

  /**
   * An order's lines and totals depend only on the product, quantity and price
   * of its lines, and the rules of its lines on those and their
   * back-references: a change that keeps them all (an id handed out) keeps
   * the lines, the totals and the rules.
   */
  twostate lemma ValoresMantidos(p: Pedido)
    requires unchanged(p`itens, p`desconto, p`frete, p`valorTotal)
    requires forall i :: i in old(p.itens) ==> unchanged(i`pedido, i`produto, i`quantidade, i`precoUnitario)
    ensures p.Linhas() == old(p.Linhas()) && p.TotalProdutos() == old(p.TotalProdutos())
    ensures old(p.TotaisConsistentes()) ==> p.TotaisConsistentes()
    ensures old(p.LinhasValidas()) ==> p.LinhasValidas()
  {
    var s := p.itens;
    forall k | 0 <= k < |s|
      ensures s[k].AsLinha() == old(s[k].AsLinha())
      ensures s[k].pedido == old(s[k].pedido) && (s[k].Persistivel() <==> old(s[k].Persistivel()))
    {
      assert s[k] in old(p.itens);
    }
    assert LinhasDe(s) == old(LinhasDe(s));
  }

  /** The values of a list without position k are the values without position k. */
  lemma LinhasDeSemPosicao(s: seq<ItemPedido>, k: nat)
    requires k < |s|
    ensures LinhasDe(s[..k] + s[k + 1..]) == LinhasDe(s)[..k] + LinhasDe(s)[k + 1..]
  {
    var r := s[..k] + s[k + 1..];
    forall i | 0 <= i < |r|
      ensures r[i] == s[if i < k then i else i + 1]
    {
    }
  }

  /**
   * Changing the quantity of one line of an order whose lines keep their
   * rules, to a value >= 1 and touching nothing else the lines depend on,
   * changes the quantity at that line's position and keeps the rules.
   */
  twostate lemma QuantidadeAlterada(item: ItemPedido)
    requires item.pedido != null && unchanged(item`pedido, item`produto, item`precoUnitario)
    requires unchanged(item.pedido`itens) && old(item.pedido.LinhasValidas())
    requires forall i :: i in old(item.pedido.itens) && i != item ==> unchanged(i`pedido, i`produto, i`quantidade, i`precoUnitario)
    requires item.quantidade.Some? && item.quantidade.value >= 1
    ensures item.pedido.LinhasValidas()
    ensures forall k :: 0 <= k < |item.pedido.itens| && item.pedido.itens[k] == item ==>
              item.pedido.Linhas() == old(item.pedido.Linhas())[k := old(item.pedido.Linhas())[k].(quantidade := item.quantidade)]
  {
    var p := item.pedido;
    var s := p.itens;
    forall j | 0 <= j < |s| && s[j] != item
      ensures s[j].AsLinha() == old(s[j].AsLinha()) && s[j].pedido == p && s[j].Persistivel()
    {
      assert s[j] in old(p.itens);
    }
  }

  // ---------------------------------------------------------------------------
  // Pedido
  // ---------------------------------------------------------------------------

  /** An order: its lines in insertion order and the totals computed from them. */
  class Pedido {
    var id: Option<int>
    var cliente: ClienteId
    var status: Option<StatusPedido>
    var dataHora: Option<Instante>
    var valorTotal: Option<real>
    var frete: Option<real>
    var desconto: Option<real>
    var itens: seq<ItemPedido>

    /** Pedido(cliente): an active order with no lines and zero amounts. */
    constructor (cliente: ClienteId, agora: Instante)
      ensures this.cliente == cliente && id.None?
      ensures status == Some(ATIVO) && dataHora == Some(agora)
      ensures valorTotal == Some(0.0) && frete == Some(0.0) && desconto == Some(0.0)
      ensures itens == []
    {
      id := None;
      this.cliente := cliente;
      status := Some(ATIVO);
      dataHora := Some(agora);
      valorTotal := Some(0.0);
      frete := Some(0.0);
      desconto := Some(0.0);
      itens := [];
    }

    function Linhas(): seq<Linha>
      reads this`itens, itens
    {
      LinhasDe(itens)
    }

    /** The products the lines refer to. */
    ghost function Produtos(): set<Produto>
      reads this`itens, itens
    {
      set i | i in itens && i.produto != null :: i.produto as Produto
    }

    /**
     * getTotalProdutos(): the sum of the line subtotals at scale 2; the
     * rounding leaves the exact sum as it is.
     */
    function TotalProdutos(): (r: real)
      reads this`itens, itens
      ensures IsCents(r)
      ensures r == SomaSubtotais(Linhas())
    {
      SomaSubtotaisCents(Linhas());
      Round2OfCents(SomaSubtotais(Linhas()));
      Round2(SomaSubtotais(Linhas()))
    }

    /**
     * What the persisted lines of an order always satisfy: they are distinct
     * objects, each points back at this order and passes validate().
     */
    ghost predicate LinhasValidas()
      reads this`itens, itens
    {
      LinhasDoPedido(itens, this)
    }

    /**
     * The state recalcularTotais leaves: discount and freight present and at
     * scale 2, and valorTotal = max(0, totalProdutos - desconto + frete).
     */
    predicate TotaisConsistentes()
      reads this, itens
    {
      && desconto.Some? && frete.Some? && valorTotal.Some?
      && IsCents(desconto.value) && IsCents(frete.value)
      && valorTotal.value == ClampZero(TotalProdutos() - desconto.value + frete.value)
    }

    /**
     * recalcularTotais(): null discount or freight count as zero, both are
     * stored at scale 2, and the total is clamped at zero. On consistent
     * totals it changes nothing.
     */
    method RecalcularTotais()
      modifies this`valorTotal, this`desconto, this`frete
      ensures desconto == Some(Round2(GetOr(old(desconto), 0.0)))
      ensures frete == Some(Round2(GetOr(old(frete), 0.0)))
      ensures TotaisConsistentes()
      ensures IsCents(valorTotal.value) && valorTotal.value >= 0.0
      ensures old(TotaisConsistentes()) ==>
                valorTotal == old(valorTotal) && desconto == old(desconto) && frete == old(frete)
    {
      var totalProdutos := TotalProdutos();
      var d := Round2(GetOr(desconto, 0.0));
      var f := Round2(GetOr(frete, 0.0));
      var total := totalProdutos - d + f;
      CentsAdd(totalProdutos, d);
      CentsAdd(totalProdutos - d, f);
      if total < 0.0 {
        total := 0.0;
      }
      Round2OfCents(total);
      if old(TotaisConsistentes()) {
        Round2OfCents(desconto.value);
        Round2OfCents(frete.value);
      }
      valorTotal := Some(Round2(total));
      desconto := Some(d);
      frete := Some(f);
    }

    /** adicionarItem(item): sets the back-reference, appends the line and recalculates. */
    method AdicionarItem(item: ItemPedido)
      modifies this`itens, this`valorTotal, this`desconto, this`frete, item`pedido
      ensures item.pedido == this
      ensures itens == old(itens) + [item]
      ensures desconto == Some(Round2(GetOr(old(desconto), 0.0)))
      ensures frete == Some(Round2(GetOr(old(frete), 0.0)))
      ensures TotaisConsistentes()
    {
      item.pedido := this;
      itens := itens + [item];
      RecalcularTotais();
    }

    /** prePersist(): null status and amounts get their defaults; every amount goes to scale 2. */
    method PrePersist(agora: Instante)
      modifies this`status, this`dataHora, this`valorTotal, this`frete, this`desconto
      ensures status == Some(GetOr(old(status), ATIVO))
      ensures dataHora == Some(GetOr(old(dataHora), agora))
      ensures valorTotal == Some(Round2(GetOr(old(valorTotal), 0.0)))
      ensures frete == Some(Round2(GetOr(old(frete), 0.0)))
      ensures desconto == Some(Round2(GetOr(old(desconto), 0.0)))
    {
      if status.None? { status := Some(ATIVO); }
      if dataHora.None? { dataHora := Some(agora); }
      if valorTotal.None? { valorTotal := Some(0.0); }
      if frete.None? { frete := Some(0.0); }
      if desconto.None? { desconto := Some(0.0); }
      valorTotal := Some(Round2(valorTotal.value));
      frete := Some(Round2(frete.value));
      desconto := Some(Round2(desconto.value));
    }
  }
}
