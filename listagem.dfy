/**
 * The paged listings of the REST API: GET /api/pedidos filters the stored
 * orders by status, date and total and slices one page out of the result;
 * GET /api/produtos lists all products or a name search and slices one
 * page. The listings of the database (already ordered) are inputs.
 */
module Listagem {
  import opened Wrappers
  import opened VendasModel

  /** A Java int. */
  newtype int32 = x: int | -0x8000_0000 <= x < 0x8000_0000

  function Min(a: int, b: int): int
  {
    if a <= b then a else b
  }

  /** A narrowing to int: keeps the low 32 bits, in two's complement. */
  function Int32(x: int): (r: int)
    ensures -0x8000_0000 <= r < 0x8000_0000
    ensures -0x8000_0000 <= x < 0x8000_0000 ==> r == x
    ensures 0x8000_0000 <= x < 0x1_0000_0000 ==> r == x - 0x1_0000_0000
  {
    (x + 0x8000_0000) % 0x1_0000_0000 - 0x8000_0000
  }

  // ---------------------------------------------------------------------------
  // The sort parameter
  // ---------------------------------------------------------------------------

  datatype Direcao = ASC | DESC

  /** Sort.by(property) with a direction. */
  datatype Ordenacao = Ordenacao(propriedade: string, direcao: Direcao)

  /** The text before the first comma: what split(",")[0] yields when it yields anything. */
  function AntesDaVirgula(s: string): (r: string)
    ensures r <= s && ',' !in r
    ensures |r| < |s| ==> s[|r|] == ','
  {
    if s == [] || s[0] == ',' then [] else [s[0]] + AntesDaVirgula(s[1..])
  }

  predicate TerminaCom(s: string, sufixo: string)
  {
    |sufixo| <= |s| && s[|s| - |sufixo|..] == sufixo
  }

  /** The whitespace of Character.isWhitespace, in the ASCII range. */
  predicate Espaco(c: char)
  {
    c == ' ' || c == '\t' || c == '\n' || c == '\r' || c == '\U{B}' || c == '\U{C}' || ('\U{1C}' <= c <= '\U{1F}')
  }

  /** String.isBlank, and the opposite of StringUtils.hasText. */
  predicate EmBranco(s: string)
  {
    forall k :: 0 <= k < |s| ==> Espaco(s[k])
  }

  /**
   * What the sort line throws: split drops trailing empty strings, so a
   * sort made only of commas splits into nothing and [0] is out of bounds;
   * Sort.by refuses a property without text.
   */
  function ErroOrdenacao(sort: string): (r: Option<Erro>)
    ensures r.None? <==> (exists k :: 0 <= k < |sort| && sort[k] != ',') && !EmBranco(AntesDaVirgula(sort))
  {
    if |sort| > 0 && forall k :: 0 <= k < |sort| ==> sort[k] == ',' then Some(IndexOutOfBounds)
    else if EmBranco(AntesDaVirgula(sort)) then Some(IllegalArgument)
    else None
  }

  /** The Sort of lines 40-41: the first property, descending unless the parameter ends with ",asc". */
  function OrdenacaoDe(sort: string): (r: Ordenacao)
    ensures r.propriedade == AntesDaVirgula(sort)
    ensures r.direcao == ASC <==> TerminaCom(sort, ",asc")
  {
    Ordenacao(AntesDaVirgula(sort), if TerminaCom(sort, ",asc") then ASC else DESC)
  }

  /** The text before the first comma of "p,resto" is p, when p has no comma. */
  lemma {:induction false} AntesDaVirgulaDe(p: string, resto: string)
    requires ',' !in p
    ensures AntesDaVirgula(p + "," + resto) == p
  {
    if p != [] {
      assert (p + "," + resto)[1..] == p[1..] + "," + resto;
      AntesDaVirgulaDe(p[1..], resto);
    }
  }

  /**
   * A sort "p,asc" or "p,desc" with a property p that has text and no
   * comma (such as the defaults "dataHora,desc" and "id,desc") is accepted,
   * sorts by p, and only ",asc" makes it ascending.
   */
  lemma OrdenacaoDeParametro(p: string)
    requires ',' !in p && !EmBranco(p)
    ensures ErroOrdenacao(p + ",asc").None? && OrdenacaoDe(p + ",asc") == Ordenacao(p, ASC)
    ensures ErroOrdenacao(p + ",desc").None? && OrdenacaoDe(p + ",desc") == Ordenacao(p, DESC)
  {
    AntesDaVirgulaDe(p, "asc");
    AntesDaVirgulaDe(p, "desc");
    var a, d := p + ",asc", p + ",desc";
    assert a[|a| - 4..] == ",asc";
    assert d[|d| - 4..] == "desc";
    assert p + "," + "asc" == a && p + "," + "desc" == d;
    assert p[0] != ',';
    assert a[0] == p[0] && d[0] == p[0];
    assert d[|d| - 4..][0] != ",asc"[0];
  }

  // ---------------------------------------------------------------------------
  // Page slicing
  // ---------------------------------------------------------------------------

  /**
   * The page that starts at offset inicio: subList(min(start, end), end)
   * with end = min(start + size, n), in unbounded arithmetic.
   */
  function Fatia<T>(s: seq<T>, inicio: nat, tamanho: nat): (r: seq<T>)
    ensures |r| <= tamanho
    ensures inicio >= |s| ==> r == []
    ensures inicio < |s| ==> |r| == Min(tamanho, |s| - inicio)
    ensures forall k :: 0 <= k < |r| ==> inicio + k < |s| && r[k] == s[inicio + k]
  {
    var fim := Min(inicio + tamanho, |s|);
    s[Min(inicio, fim)..fim]
  }

  /** Two consecutive pages make the page of twice the size. */
  lemma PaginasConsecutivas<T>(s: seq<T>, inicio: nat, tamanho: nat)
    ensures Fatia(s, inicio, tamanho) + Fatia(s, inicio + tamanho, tamanho) == Fatia(s, inicio, 2 * tamanho)
  {
    var a, b, c := Fatia(s, inicio, tamanho), Fatia(s, inicio + tamanho, tamanho), Fatia(s, inicio, 2 * tamanho);
    assert |a + b| == |c|;
    forall k | 0 <= k < |c|
      ensures (a + b)[k] == c[k]
    {
      if k >= |a| {
        assert inicio + tamanho + (k - |a|) == inicio + k;
      }
    }
  }

  /** The first m pages of a given size, one after the other. */
  function Paginas<T>(s: seq<T>, tamanho: nat, m: nat): seq<T>
  {
    if m == 0 then [] else Paginas(s, tamanho, m - 1) + Fatia(s, (m - 1) * tamanho, tamanho)
  }

  lemma ProximoOffset(m: nat, tamanho: nat)
    requires m > 0
    ensures m * tamanho == (m - 1) * tamanho + tamanho
  {
  }

  /** The first m pages are the list's first m * size elements: each element is on one page, in order. */
  lemma {:induction false} PaginasSaoPrefixo<T>(s: seq<T>, tamanho: nat, m: nat)
    ensures Paginas(s, tamanho, m) == s[..Min(m * tamanho, |s|)]
  {
    if m > 0 {
      PaginasSaoPrefixo(s, tamanho, m - 1);
      var inicio := (m - 1) * tamanho;
      ProximoOffset(m, tamanho);
      var f := Fatia(s, inicio, tamanho);
      if inicio >= |s| {
        assert f == [];
      } else {
        var fim := Min(inicio + tamanho, |s|);
        assert f == s[inicio..fim];
        assert s[..inicio] + s[inicio..fim] == s[..fim];
      }
    }
  }

  /** Enough pages of size >= 1 give back the whole list. */
  lemma TodasAsPaginas<T>(s: seq<T>, tamanho: nat, m: nat)
    requires m * tamanho >= |s|
    ensures Paginas(s, tamanho, m) == s
  {
    PaginasSaoPrefixo(s, tamanho, m);
  }

  /** pageable.getOffset(): page * size, computed in long, so exact for int operands. */
  function Offset(page: int32, size: int32): (r: nat)
    requires page >= 0 && size >= 0
    ensures r == page as int * size as int
    ensures size >= 1 ==> r >= page as int
  {
    var p: nat, t: nat := page as int, size as int;
    p * t
  }

  /**
   * Lines 55-57 as written: the offset page * size is narrowed to int and
   * start + size is added in int, so both can wrap; subList then throws on
   * a negative start index.
   */
  function FatiaComoEscrita<T>(s: seq<T>, page: int32, size: int32): (r: Result<seq<T>>)
    requires page >= 0 && size >= 1 && |s| < 0x8000_0000
    ensures r.Err? ==> r.erro == IndexOutOfBounds
  {
    var inicio := Int32(Offset(page, size));
    var fim := Min(Int32(inicio + size as int), |s|);
    var de := Min(inicio, fim);
    if de < 0 then Err(IndexOutOfBounds) else Ok(s[de..fim])
  }

  /** Without wrap-around the code as written yields the intended page. */
  lemma FatiaComoEscritaSemEstouro<T>(s: seq<T>, page: int32, size: int32)
    requires page >= 0 && size >= 1 && |s| < 0x8000_0000
    requires Offset(page, size) + size as int < 0x8000_0000
    ensures FatiaComoEscrita(s, page, size) == Ok(Fatia(s, Offset(page, size), size as int))
  {
    var o := Offset(page, size);
    assert Int32(o) == o;
    assert Int32(o + size as int) == o + size as int;
  }

  /**
   * With an offset of 2^31 or more, or one whose page end passes 2^31 - 1,
   * the code as written throws where the page is simply past the end.
   */
  lemma EstouroNaPaginacao()
    ensures FatiaComoEscrita([7], 0x4000_0000, 2) == Err(IndexOutOfBounds)
    ensures Fatia([7], 0x8000_0000, 2) == []
    ensures FatiaComoEscrita([7], 0x7FFF_FFFF, 1) == Err(IndexOutOfBounds)
    ensures Fatia([7], 0x7FFF_FFFF, 1) == []
  {
  }

  /** PageRequest.of(page, size, sort): a negative page or a size below one is refused. */
  function ErroPaginacao(page: int32, size: int32): (r: Option<Erro>)
    ensures r.None? <==> page >= 0 && size >= 1
    ensures r.Some? ==> r.value == IllegalArgument
  {
    if page < 0 || size < 1 then Some(IllegalArgument) else None
  }

  /** A Page: the content, the request it answers and the total of elements. */
  datatype Pagina<T> = Pagina(conteudo: seq<T>, numero: nat, tamanho: nat, ordenacao: Ordenacao, total: nat)

  // ---------------------------------------------------------------------------
  // GET /api/pedidos
  // ---------------------------------------------------------------------------

  /** The optional request parameters of the order listing. */
  datatype FiltroPedidos = FiltroPedidos(status: Option<StatusPedido>, dataIni: Option<Instante>, dataFim: Option<Instante>,
                                         valorMin: Option<real>, valorMax: Option<real>)

  /**
   * Whether the listing keeps order p: it has the requested status, when
   * one is given (the status query), and passes the four inclusive
   * filters; a bound that is given drops an order whose date or total is
   * null.
   */
  predicate Aceito(p: Pedido, f: FiltroPedidos)
    reads p
  {
    && (f.status.None? || p.status == f.status)
    && (f.dataIni.None? || (p.dataHora.Some? && p.dataHora.value >= f.dataIni.value))
    && (f.dataFim.None? || (p.dataHora.Some? && p.dataHora.value <= f.dataFim.value))
    && (f.valorMin.None? || (p.valorTotal.Some? && p.valorTotal.value >= f.valorMin.value))
    && (f.valorMax.None? || (p.valorTotal.Some? && p.valorTotal.value <= f.valorMax.value))
  }

  /** The orders the listing keeps, in the order of the database listing. */
  function Selecionar(s: seq<Pedido>, f: FiltroPedidos): (r: seq<Pedido>)
    reads s
    ensures |r| <= |s|
    ensures forall p :: p in r ==> p in s && Aceito(p, f)
    ensures forall p :: p in s && Aceito(p, f) ==> p in r
  {
    if s == [] then []
    else
      var resto := Selecionar(s[..|s| - 1], f);
      assert forall p :: p in s ==> p in s[..|s| - 1] || p == s[|s| - 1];
      assert forall p :: p in s[..|s| - 1] ==> p in s;
      if Aceito(s[|s| - 1], f) then resto + [s[|s| - 1]] else resto
  }

  /** Filtering a concatenation filters each part: the relative order of the kept orders is the source's. */
  lemma {:induction false} SelecionarConcat(a: seq<Pedido>, b: seq<Pedido>, f: FiltroPedidos)
    ensures Selecionar(a + b, f) == Selecionar(a, f) + Selecionar(b, f)
  {
    if b != [] {
      var n := |b| - 1;
      assert (a + b)[..|a + b| - 1] == a + b[..n];
      SelecionarConcat(a, b[..n], f);
    } else {
      assert a + b == a;
    }
  }

  /** Filtering twice keeps what filtering once keeps. */
  lemma {:induction false} SelecionarIdempotente(s: seq<Pedido>, f: FiltroPedidos)
    ensures Selecionar(Selecionar(s, f), f) == Selecionar(s, f)
  {
    if s != [] {
      var init := s[..|s| - 1];
      SelecionarIdempotente(init, f);
      if Aceito(s[|s| - 1], f) {
        SelecionarConcat(Selecionar(init, f), [s[|s| - 1]], f);
        assert Selecionar([s[|s| - 1]], f) == [s[|s| - 1]] by {
          assert [s[|s| - 1]][..0] == [];
        }
      }
    }
  }

  /** With no parameter given, the listing keeps every order. */
  lemma {:induction false} SelecionarSemFiltro(s: seq<Pedido>)
    ensures Selecionar(s, FiltroPedidos(None, None, None, None, None)) == s
  {
    if s != [] {
      SelecionarSemFiltro(s[..|s| - 1]);
    }
  }

  /**
   * PedidoRestController.listar: after the sort and the page request are
   * checked, the page of the kept orders at offset page * size, the sort
   * as requested and the number of kept orders as the total. The content
   * is not re-sorted: the sort only labels the page.
   */
  function ListarPedidos(todos: seq<Pedido>, f: FiltroPedidos, page: int32, size: int32, sort: string)
    : (r: Result<Pagina<Pedido>>)
    reads todos
    ensures r.Err? <==> ErroOrdenacao(sort).Some? || ErroPaginacao(page, size).Some?
    ensures r.Err? ==> r.erro == if ErroOrdenacao(sort).Some? then ErroOrdenacao(sort).value else IllegalArgument
    ensures r.Ok? ==>
              var filtrado := Selecionar(todos, f);
              && r.value.total == |filtrado| && |r.value.conteudo| <= size as int
              && r.value.conteudo == Fatia(filtrado, Offset(page, size), size as int)
              && (forall p :: p in r.value.conteudo ==> p in todos && Aceito(p, f))
              && r.value.ordenacao == OrdenacaoDe(sort)
              && r.value.numero == page as int && r.value.tamanho == size as int
  {
    if ErroOrdenacao(sort).Some? then Err(ErroOrdenacao(sort).value)
    else if ErroPaginacao(page, size).Some? then Err(ErroPaginacao(page, size).value)
    else
      var filtrado := Selecionar(todos, f);
      var conteudo := Fatia(filtrado, Offset(page, size), size as int);
      assert forall p :: p in conteudo ==> p in filtrado;
      Ok(Pagina(conteudo, page as int, size as int, OrdenacaoDe(sort), |filtrado|))
  }

  // ---------------------------------------------------------------------------
  // GET /api/produtos
  // ---------------------------------------------------------------------------

  /** The source list: all products when the name is null or blank, otherwise the name search. */
  function Origem(todos: seq<Produto>, nome: Option<string>, encontrados: seq<Produto>): (r: seq<Produto>)
    ensures (nome.None? || EmBranco(nome.value)) ==> r == todos
    ensures (nome.Some? && !EmBranco(nome.value)) ==> r == encontrados
  {
    if nome.None? || EmBranco(nome.value) then todos else encontrados
  }

  /**
   * ProdutoRestController.listar, with encontrados the result of the name
   * search: the page of the source list at offset page * size, with the
   * size of the source list as the total.
   */
  function ListarProdutos(todos: seq<Produto>, nome: Option<string>, encontrados: seq<Produto>,
                          page: int32, size: int32, sort: string): (r: Result<Pagina<Produto>>)
    ensures r.Err? <==> ErroOrdenacao(sort).Some? || ErroPaginacao(page, size).Some?
    ensures r.Err? ==> r.erro == if ErroOrdenacao(sort).Some? then ErroOrdenacao(sort).value else IllegalArgument
    ensures r.Ok? ==>
              var origem := Origem(todos, nome, encontrados);
              && r.value.total == |origem| && |r.value.conteudo| <= size as int
              && r.value.conteudo == Fatia(origem, Offset(page, size), size as int)
              && r.value.ordenacao == OrdenacaoDe(sort)
              && r.value.numero == page as int && r.value.tamanho == size as int
  {
    if ErroOrdenacao(sort).Some? then Err(ErroOrdenacao(sort).value)
    else if ErroPaginacao(page, size).Some? then Err(ErroPaginacao(page, size).value)
    else
      var origem := Origem(todos, nome, encontrados);
      Ok(Pagina(Fatia(origem, Offset(page, size), size as int), page as int, size as int, OrdenacaoDe(sort), |origem|))
  }
}
