# sistema-vendas order and payment core, in Dafny

This project models the part of the sales system that computes and changes state. It covers five areas:

- **Order lines and orders** (`ItemPedido`, `Pedido`):
  - line validation and subtotals;
  - the order total `valorTotal = max(0, totalProdutos - desconto + frete)`, with every amount rounded to 2 decimals HALF_UP.
- **The order service** (`PedidoService`): create an order, add, update and remove a line, apply freight and discount, and cancel. Each operation moves stock between products and order lines.
- **The payment record and its workflow** (`Pagamento`, `PagamentoService`):
  - one payment per order;
  - states PENDENTE, APROVADO, RECUSADO and CANCELADO, plus a `pago` flag;
  - an order-totals snapshot that is refreshed while the payment is PENDENTE.
- **Order creation in `loja_api`:**
  - freight is a fixed 20.00;
  - the discount is 10 % strictly above 200.00;
  - the total is neither clamped nor rounded.
- **The paged listings** of orders and products in the REST controllers: filters, the sort parameter and page slicing.

## How the model is built

- **Money.** `BigDecimal` amounts are `real` values, so they are exact. `Money.Round2` is `setScale(2, HALF_UP)`, and `Money.IsCents` means "has at most two decimals". The representation scale (1.0 versus 1.00) is not modelled.
- **Null.** A Java `null` is the `None` of `Option`.
- **Exceptions.** A thrown exception is an `Err`/`Fail` carrying an `Erro` that names its kind:
  - `IllegalArgumentException` is `IllegalArgument`;
  - `IllegalStateException` is `InvalidState`;
  - each `RuntimeException` message is its own kind (`NotFound`, `EmptyOrder`, `InsufficientStock`, `NotInitiated`, …);
  - an unboxing or dereference of `null` is `NullPointer`;
  - a database uniqueness failure is `ConstraintViolation`.
- **Entities changed in place** are classes whose methods name the fields they modify:
  - `VendasModel.Produto`, `VendasModel.ItemPedido` and `VendasModel.Pedido`;
  - `PagamentoModel.Pagamento`.
- **Repositories** are small classes over maps:
  - the order table maps IDENTITY ids to orders;
  - the payment table maps each order to its single payment, which is the unique `pedido_id` column;
  - ids come from counters.
- **The services** are classes over those repositories:
  - `PedidoServico.PedidoService`;
  - `PagamentoServico.PagamentoService`.
- **Invariants:**
  - The order service keeps `Valid()`:
    - stock is never negative;
    - the lines of every stored order are distinct, point back at their order and pass `validate()`;
    - the payment table's rules hold.
  - The payment service also keeps:
    - `pago` is true exactly when the status is APROVADO;
    - every payment belongs to a stored order;
    - a PENDENTE payment holds its order's current totals (`SnapshotEmDia`).
  - The order service's operations keep the payment service's invariant as well (cancelling only on consistent totals). They touch a payment only through the snapshot refresh, which may change its order, amounts and `pago` and nothing else.
- **Stock conservation.** It is stated per order and product: `stock + Reservado(lines, product)` is the same before and after adding, updating or removing a line.
- **Transactions.** Every service method is one atomic step (`@Transactional`). A thrown exception rolls the transaction back, so each failure is modelled as a call that changes nothing. The model relies on that rollback, and not on the order of the checks. In `cancelarPedido`, for instance, the loop may already have credited the stock of earlier lines when a later line with a null product or quantity throws. The model decides that failure from the whole line list before crediting anything.
- **`loja_api`** entities and DTOs are values (datatypes). Its `PedidoService` is a class over a product map and an order list.
- **The listings** are functions:
  - the database listing in its database order is an input;
  - so is the result of the name search.

The model follows the code as written:

- the order status has only ATIVO and CANCELADO (no CONCLUIDO);
- `cancelarPedido` has no status guard, so a second cancel returns the stock again;
- a payment may be re-initiated from RECUSADO or CANCELADO and go back to PENDENTE;
- a CANCELADO payment may be cancelled again.

## Model

| member | source | states |
|---|---|---|
| Money.Round2 | sistema-vendas/src/main/java/br/com/aweb/sistema_vendas/model/ItemPedido.java:80 | The result has two decimals and is within half a cent of the input. Ties go away from zero, for both signs (HALF_UP). |
| Money.Round2Unique | sistema-vendas/src/main/java/br/com/aweb/sistema_vendas/model/ItemPedido.java:55 | The HALF_UP result is the only two-decimal value inside the rounding window. |
| Money.Round2Idempotent | sistema-vendas/src/main/java/br/com/aweb/sistema_vendas/model/Pedido.java:93-94 | Rounding an already rounded amount changes nothing. |
| Money.Round2OfCents | sistema-vendas/src/main/java/br/com/aweb/sistema_vendas/model/Pagamento.java:88-93 | An amount that already has two decimals is left as it is by setScale(2). |
| Money.ClampZero | sistema-vendas/src/main/java/br/com/aweb/sistema_vendas/model/Pedido.java:96-97 | The clamped total is never negative and never below the input, and a non-negative total is kept as it is. |
| Money.CentsAdd | sistema-vendas/src/main/java/br/com/aweb/sistema_vendas/model/Pedido.java:96 | Sums and differences of two-decimal amounts have two decimals. |
| Money.CentsTimes | sistema-vendas/src/main/java/br/com/aweb/sistema_vendas/model/ItemPedido.java:53-54 | A two-decimal price times an integer quantity has two decimals. |
| Money.TimesNonNegative | sistema-vendas/src/main/java/br/com/aweb/sistema_vendas/model/ItemPedido.java:53-54 | A non-negative price times a non-negative quantity is non-negative. |
| VendasModel.Linha.Subtotal | sistema-vendas/src/main/java/br/com/aweb/sistema_vendas/model/ItemPedido.java:51-56 | 0.00 when the price or the quantity is null. Otherwise it has two decimals and lies within half a cent of price × quantity, in the half-open HALF_UP window for its sign. |
| VendasModel.SubtotalExato | sistema-vendas/src/main/java/br/com/aweb/sistema_vendas/model/ItemPedido.java:53-55 | With a two-decimal price, the subtotal is exactly price × quantity. |
| VendasModel.SubtotalNaoNegativo | sistema-vendas/src/main/java/br/com/aweb/sistema_vendas/model/ItemPedido.java:51-56 | A line with a non-negative price and quantity has a non-negative subtotal. |
| VendasModel.SomaSubtotaisCents | sistema-vendas/src/main/java/br/com/aweb/sistema_vendas/model/Pedido.java:76-81 | The sum of the subtotals has two decimals, so the final setScale keeps it. |
| VendasModel.SomaSubtotaisNaoNegativa | sistema-vendas/src/main/java/br/com/aweb/sistema_vendas/model/Pedido.java:76-81 | Lines with non-negative prices and quantities give a non-negative product total. |
| VendasModel.ReservadoAppend | sistema-vendas/src/main/java/br/com/aweb/sistema_vendas/service/PedidoService.java:69-72 | Appending a line adds its quantity to what the order holds of its product, and nothing for other products. |
| VendasModel.ReservadoUpdate | sistema-vendas/src/main/java/br/com/aweb/sistema_vendas/service/PedidoService.java:100-114 | Replacing line k changes what the order holds of a product by the new line's share minus the old one's. |
| VendasModel.ReservadoRemove | sistema-vendas/src/main/java/br/com/aweb/sistema_vendas/service/PedidoService.java:136-140 | Dropping line k removes exactly its share from what the order holds of a product. |
| VendasModel.ReservadoNaoNegativo | sistema-vendas/src/main/java/br/com/aweb/sistema_vendas/service/PedidoService.java:180-184 | Lines with non-negative quantities hold a non-negative amount, so returning them cannot make stock negative. |
| VendasModel.ItemPedido.constructor | sistema-vendas/src/main/java/br/com/aweb/sistema_vendas/model/ItemPedido.java:15 | The no-argument constructor leaves every field null. |
| VendasModel.ItemPedido.Subtotal | sistema-vendas/src/main/java/br/com/aweb/sistema_vendas/model/ItemPedido.java:51-56 | The line's subtotal from its current price and quantity, at two decimals. |
| VendasModel.ItemPedido.SetQuantidade | sistema-vendas/src/main/java/br/com/aweb/sistema_vendas/model/ItemPedido.java:67-72 | Succeeds exactly when the quantity is non-null and ≥ 1, and then stores it unchanged. Otherwise it raises IllegalArgument and the field keeps its value. |
| VendasModel.ItemPedido.SetPrecoUnitario | sistema-vendas/src/main/java/br/com/aweb/sistema_vendas/model/ItemPedido.java:75-81 | Succeeds exactly when the price is non-null and ≥ 0, and then stores it rounded HALF_UP to two decimals. Otherwise it raises IllegalArgument and the field keeps its value. |
| VendasModel.ItemPedido.Novo | sistema-vendas/src/main/java/br/com/aweb/sistema_vendas/model/ItemPedido.java:59-64 | A null order or product gives NullPointer, and a bad quantity or negative product price gives IllegalArgument. Otherwise it returns a fresh line of that order and product, with the quantity and the product's current price rounded to two decimals, which passes validate(). |
| VendasModel.ItemPedido.Validate | sistema-vendas/src/main/java/br/com/aweb/sistema_vendas/model/ItemPedido.java:83-91 | Passes exactly when the line has an order, a product, a quantity ≥ 1 and a price ≥ 0. Otherwise it raises InvalidState. |
| VendasModel.ItemPedido.Equals | sistema-vendas/src/main/java/br/com/aweb/sistema_vendas/model/ItemPedido.java:94-98 | True exactly when the other line is the same object, or shares this line's non-null id. |
| VendasModel.EqualsEquivalencia | sistema-vendas/src/main/java/br/com/aweb/sistema_vendas/model/ItemPedido.java:94-98 | Line equality is reflexive, symmetric and transitive. |
| VendasModel.PrimeiroComId | sistema-vendas/src/main/java/br/com/aweb/sistema_vendas/service/PedidoService.java:95-98 | Finds the first line with id itemId and lets no earlier line through. NotFound means no line matches and none has a null id. NullPointer means a line with a null id comes first, since `i.getId().equals` dereferences it. |
| VendasModel.Removido | sistema-vendas/src/main/java/br/com/aweb/sistema_vendas/service/PedidoService.java:140 | `List.remove(item)` drops at most one element and keeps only elements of the list. |
| VendasModel.RemovidoNaPosicao | sistema-vendas/src/main/java/br/com/aweb/sistema_vendas/service/PedidoService.java:140 | When k is the first position equal to the item, remove drops exactly position k. |
| VendasModel.RemovidoSemIgual | sistema-vendas/src/main/java/br/com/aweb/sistema_vendas/service/PedidoService.java:140 | When no element equals the item, remove leaves the list as it is. |
| VendasModel.RemoverEncontrado | sistema-vendas/src/main/java/br/com/aweb/sistema_vendas/service/PedidoService.java:131-140 | The line the id lookup finds is the one remove(item) drops, at its own position. |
| VendasModel.QuantidadeAlterada | sistema-vendas/src/main/java/br/com/aweb/sistema_vendas/service/PedidoService.java:114 | Setting one line's quantity to ≥ 1 changes only that line, and the order's lines stay valid. |
| VendasModel.Pedido.constructor | sistema-vendas/src/main/java/br/com/aweb/sistema_vendas/model/Pedido.java:64-72 | A new order has the given customer and is ATIVO, dated now, with zero total, freight and discount and no lines. |
| VendasModel.Pedido.TotalProdutos | sistema-vendas/src/main/java/br/com/aweb/sistema_vendas/model/Pedido.java:76-81 | The sum of the line subtotals, at two decimals. |
| VendasModel.Pedido.RecalcularTotais | sistema-vendas/src/main/java/br/com/aweb/sistema_vendas/model/Pedido.java:91-102 | A null discount or freight counts as zero, and both are stored rounded. `valorTotal = max(0, totalProdutos - desconto + frete)` at two decimals, never negative. On consistent totals it changes nothing, so it is idempotent. |
| VendasModel.Pedido.AdicionarItem | sistema-vendas/src/main/java/br/com/aweb/sistema_vendas/model/Pedido.java:84-88 | The line points back at the order and is appended at the end, with earlier lines unchanged, and the totals are recalculated. |
| VendasModel.Pedido.PrePersist | sistema-vendas/src/main/java/br/com/aweb/sistema_vendas/model/Pedido.java:111-123 | A null status becomes ATIVO, a null date becomes now, and null amounts become zero. Total, freight and discount are rounded to two decimals. |
| PagamentoModel.Normalizado | sistema-vendas/src/main/java/br/com/aweb/sistema_vendas/model/Pagamento.java:88-93 | All four snapshot amounts are at two decimals. |
| PagamentoModel.NormalizadoIdempotente | sistema-vendas/src/main/java/br/com/aweb/sistema_vendas/model/Pagamento.java:88-93 | normalizeScale is idempotent and leaves an already normalised snapshot alone. |
| PagamentoModel.SnapshotDePedidoRecalculado | sistema-vendas/src/main/java/br/com/aweb/sistema_vendas/model/Pagamento.java:75-82 | With freshly recalculated totals, the copy needs no rounding and agrees with the order field by field. It satisfies `valorFinal = max(0, totalProdutos - desconto + frete)`. |
| PagamentoModel.Pagamento.Builder | sistema-vendas/src/main/java/br/com/aweb/sistema_vendas/model/Pagamento.java:17 | A built payment has the given order, method, status and `pago`, is dated now and has no snapshot yet. |
| PagamentoModel.Pagamento.SnapshotFrom | sistema-vendas/src/main/java/br/com/aweb/sistema_vendas/model/Pagamento.java:75-82 | The four amounts are the order's product total, discount, freight and total, with null read as zero, normalised to two decimals. For a recalculated order they are its totals exactly. |
| PagamentoModel.Pagamento.NormalizeScale | sistema-vendas/src/main/java/br/com/aweb/sistema_vendas/model/Pagamento.java:88-93 | Each amount is rounded to two decimals. |
| PagamentoModel.Pagamento.PrePersist | sistema-vendas/src/main/java/br/com/aweb/sistema_vendas/model/Pagamento.java:96-110 | A null method fails with InvalidState, after the date and status defaults. Otherwise null → PENDENTE, null amounts → 0, null `pago` → false, all normalised. |
| Repositorios.ProdutoRepository.constructor | sistema-vendas/src/main/java/br/com/aweb/sistema_vendas/repository/ProdutoRepository.java:9-11 | A product table holding products under their own ids with stock ≥ 0 satisfies the table's rules. |
| Repositorios.PedidoRepository.constructor | sistema-vendas/src/main/java/br/com/aweb/sistema_vendas/repository/PedidoRepository.java:9-19 | An empty order table with both identity counters at 1 satisfies the table's rules. |
| Repositorios.PagamentoRepository.constructor | sistema-vendas/src/main/java/br/com/aweb/sistema_vendas/repository/PagamentoRepository.java:9-11 | An empty payment table with its identity counter at 1 satisfies the table's rules. |
| Repositorios.PedidoRepository.Inserir | sistema-vendas/src/main/java/br/com/aweb/sistema_vendas/model/Pedido.java:111-123 | Saving a new order applies prePersist, gives it the next IDENTITY id and stores it under that id. The stored orders are then the old ones plus the new order. |
| Repositorios.PedidoRepository.InserirItem | sistema-vendas/src/main/java/br/com/aweb/sistema_vendas/model/ItemPedido.java:83-91 | The cascaded insert of a line succeeds exactly when validate() passes, and then gives it the next id. Otherwise it fails with InvalidState and changes nothing. |
| Repositorios.PagamentoRepository.Inserir | sistema-vendas/src/main/java/br/com/aweb/sistema_vendas/model/Pagamento.java:12-13 | Saving a new payment applies prePersist. It is stored exactly when it has a method, an order, and the order has no payment yet. Otherwise it fails with InvalidState or ConstraintViolation and the table is unchanged. |
| PagamentoServico.PagamentoService.constructor | sistema-vendas/src/main/java/br/com/aweb/sistema_vendas/service/PagamentoService.java:10-15 | The service over the injected repositories. Over an empty payment table its invariant holds. |
| PagamentoServico.PagamentoService.Reiniciar | sistema-vendas/src/main/java/br/com/aweb/sistema_vendas/service/PagamentoService.java:40-43 | The payment takes the method and a new snapshot of the order, and becomes PENDENTE with `pago` false. Its id, date, reference and details are kept. |
| PagamentoServico.PagamentoService.Reabrir | sistema-vendas/src/main/java/br/com/aweb/sistema_vendas/service/PagamentoService.java:40-44 | Reopening an existing payment keeps the service invariant and leaves it PENDENTE, unpaid, holding the order's totals. Its id, date, reference and details are kept. |
| PagamentoServico.PagamentoService.Novo | sistema-vendas/src/main/java/br/com/aweb/sistema_vendas/service/PagamentoService.java:48-54 | A fresh payment of the order, PENDENTE, unpaid, with the method and a snapshot of the order. Its reference and details are null. |
| PagamentoServico.PagamentoService.Criar | sistema-vendas/src/main/java/br/com/aweb/sistema_vendas/service/PagamentoService.java:47-56 | For an order without a payment, exactly one new payment is added under it, PENDENTE and unpaid with the order's totals. The invariant is kept. The new payment has the next id, is dated now, and has null reference and details. |
| PagamentoServico.PagamentoService.Atribuir | sistema-vendas/src/main/java/br/com/aweb/sistema_vendas/service/PagamentoService.java:35-56 | The order ends with exactly one payment. An existing one is reused, never a second. An APROVADO one is returned untouched, and any other is PENDENTE, unpaid, with the method and the order's totals. A reused payment keeps its id, date, reference and details. A new one has the next id, is dated now, and has null reference and details. |
| PagamentoServico.PagamentoService.IniciarParaPedido | sistema-vendas/src/main/java/br/com/aweb/sistema_vendas/service/PagamentoService.java:31-56 | The order's totals are recalculated first: the discount and freight end at two decimals, and consistent totals are kept as they were. Then the payment is assigned as in Atribuir, with the same kept or new id, date, reference and details. |
| PagamentoServico.PagamentoService.IniciarPagamento | sistema-vendas/src/main/java/br/com/aweb/sistema_vendas/service/PagamentoService.java:18-57 | Fails, in the source's order, exactly on a null method (IllegalArgument), an unknown order (NotFound), an order without lines (EmptyOrder) or a CANCELADO order (InvalidState), and then changes nothing. Otherwise it is as in IniciarParaPedido: rounded discount and freight, consistent totals kept, and the payment reused or new with the same id, date, reference and details promises. The invariant holds. |
| PagamentoServico.PagamentoService.Decidir | sistema-vendas/src/main/java/br/com/aweb/sistema_vendas/service/PagamentoService.java:71-80 | Authorised → APROVADO with `pago` true, and refused → RECUSADO with `pago` false. The reference and details are recorded. |
| PagamentoServico.PagamentoService.ConfirmarPagamento | sistema-vendas/src/main/java/br/com/aweb/sistema_vendas/service/PagamentoService.java:59-83 | An unknown order gives NotFound, and an order without a payment gives NotInitiated. An APROVADO payment is returned unchanged. Otherwise it is decided as in Decidir, the snapshot is kept, and the invariant (`pago` ⇔ APROVADO) holds. |
| PagamentoServico.PagamentoService.Refrescar | sistema-vendas/src/main/java/br/com/aweb/sistema_vendas/service/PagamentoService.java:93-95 | The payment takes a new snapshot of the order, and a null `pago` becomes false. |
| PagamentoServico.PagamentoService.AtualizarPendente | sistema-vendas/src/main/java/br/com/aweb/sistema_vendas/service/PagamentoService.java:91-96 | The order's totals are recalculated, and are unchanged if they were consistent. The PENDENTE payment then holds them, and the invariant is restored. |
| PagamentoServico.PagamentoService.AtualizarSnapshotSePendente | sistema-vendas/src/main/java/br/com/aweb/sistema_vendas/service/PagamentoService.java:85-99 | An unknown order gives NotFound. Otherwise it returns the order's payment or null. Only a PENDENTE payment is re-snapshotted, after a recalculation. A missing or non-PENDENTE payment and its order are left unchanged. It may change only the payment's order, amounts and `pago`, so method, status, id, date, reference and details stay. If the invariant held beforehand for every order but this one, it holds afterwards. |
| PagamentoServico.PagamentoService.CancelarPagamento | sistema-vendas/src/main/java/br/com/aweb/sistema_vendas/service/PagamentoService.java:101-116 | An unknown order or a missing payment gives NotFound, and an APROVADO payment gives InvalidState, all unchanged. Otherwise the payment becomes CANCELADO with `pago` false and keeps everything else. |
| PedidoServico.PedidoService.constructor | sistema-vendas/src/main/java/br/com/aweb/sistema_vendas/service/PedidoService.java:15-23 | The service over the injected repositories and payment service. With both services sharing the order table, a valid product table, and no orders and no payments yet, both invariants hold. |
| PedidoServico.PedidoService.PagamentosForaDe | sistema-vendas/src/main/java/br/com/aweb/sistema_vendas/service/PedidoService.java:69-76 | Changing one order's amounts or lines, and no other order, line or payment, keeps the payment invariant for every other order. |
| PedidoServico.PedidoService.BuscarPorId | sistema-vendas/src/main/java/br/com/aweb/sistema_vendas/service/PedidoService.java:191-194 | Finds the stored order exactly when the id is stored. |
| PedidoServico.PedidoService.CriarPedido | sistema-vendas/src/main/java/br/com/aweb/sistema_vendas/service/PedidoService.java:42-48 | A fresh ATIVO order for the customer, dated now, with zero totals and no lines, stored under the next id without a payment. The service invariant is kept, and so is the payment service's invariant. |
| PedidoServico.PedidoService.RefrescarPagamento | sistema-vendas/src/main/java/br/com/aweb/sistema_vendas/service/PedidoService.java:170 | On an order with consistent totals, the snapshot call leaves the amounts as they were and a PENDENTE payment of the order holding them. The payment can change only in its order, amounts and `pago`. If the payment invariant held beforehand for every order but this one, it holds afterwards. |
| PedidoServico.PedidoService.AtualizarSnapshot | sistema-vendas/src/main/java/br/com/aweb/sistema_vendas/service/PedidoService.java:78 | The same refresh, keeping the service invariant and the order's lines. It also restores the payment invariant when only this order's payment was stale. |
| PedidoServico.PedidoService.DefinirValores | sistema-vendas/src/main/java/br/com/aweb/sistema_vendas/service/PedidoService.java:164-166 | Freight and discount stored rounded, and the totals consistent. |
| PedidoServico.PedidoService.AplicarFreteEDesconto | sistema-vendas/src/main/java/br/com/aweb/sistema_vendas/service/PedidoService.java:149-173 | Fails exactly on an unknown order (NotFound), a non-ATIVO one (InvalidState) or a negative amount after null → 0 (IllegalArgument), and changes nothing. Otherwise it stores both amounts rounded, recalculates, and a PENDENTE payment holds the new totals. The payment service's invariant is kept. The payment's method, status, id, date, reference and details are not touched. |
| PedidoServico.PedidoService.Anexar | sistema-vendas/src/main/java/br/com/aweb/sistema_vendas/service/PedidoService.java:69-70 | A fresh line for the product with the quantity and the product's rounded price is appended, and the totals are recalculated. |
| PedidoServico.PedidoService.Incluir | sistema-vendas/src/main/java/br/com/aweb/sistema_vendas/service/PedidoService.java:69-76 | As Anexar, and the stock drops by exactly the quantity and the line gets the next id. |
| PedidoServico.PedidoService.Registrar | sistema-vendas/src/main/java/br/com/aweb/sistema_vendas/service/PedidoService.java:72-76 | The stock drops by the quantity. Recalculating already consistent totals keeps them. |
| PedidoServico.PedidoService.IncluirArmazenado | sistema-vendas/src/main/java/br/com/aweb/sistema_vendas/service/PedidoService.java:69-76 | Incluir on a stored order and product with enough stock keeps the invariant, including stock ≥ 0. The payment invariant still holds for every other order. |
| PedidoServico.PedidoService.Adicionar | sistema-vendas/src/main/java/br/com/aweb/sistema_vendas/service/PedidoService.java:69-78 | After the checks, the line is included and a PENDENTE payment holds the new totals. The payment service's invariant is kept. The payment's method, status, id, date, reference and details are not touched. |
| PedidoServico.PedidoService.AdicionarItem | sistema-vendas/src/main/java/br/com/aweb/sistema_vendas/service/PedidoService.java:50-81 | Fails, in the source's order, exactly on a quantity < 1, an unknown or non-ATIVO order, an unknown product, too little stock or a negative product price (IllegalArgument), and changes nothing. Otherwise it appends one line at the product's price, decreases the stock by exactly the quantity, and conserves stock plus the order's holding. Totals and a PENDENTE snapshot are brought up to date. The payment service's invariant is kept. The payment's method, status, id, date, reference and details are not touched. |
| PedidoServico.PedidoService.BuscarLinha | sistema-vendas/src/main/java/br/com/aweb/sistema_vendas/service/PedidoService.java:89-98 | A found position holds the line with that id, in a stored order. |
| PedidoServico.PedidoService.Alterar | sistema-vendas/src/main/java/br/com/aweb/sistema_vendas/service/PedidoService.java:100-115 | Stock moves by minus delta, where delta = new − old (down when delta > 0, up by abs(delta) when delta < 0). Line k takes the new quantity and the totals are recalculated. |
| PedidoServico.PedidoService.MoverEstoque | sistema-vendas/src/main/java/br/com/aweb/sistema_vendas/service/PedidoService.java:104-111 | Both branches leave the stock at old − delta. |
| PedidoServico.PedidoService.AlterarQuantidade | sistema-vendas/src/main/java/br/com/aweb/sistema_vendas/service/PedidoService.java:114-115 | Only line k changes, to the new quantity, and the totals are recalculated. |
| PedidoServico.PedidoService.AlterarArmazenado | sistema-vendas/src/main/java/br/com/aweb/sistema_vendas/service/PedidoService.java:100-116 | Alterar on a stored order keeps the invariant. A guarded decrement cannot make stock negative. The payment invariant still holds for every other order. |
| PedidoServico.PedidoService.Atualizar | sistema-vendas/src/main/java/br/com/aweb/sistema_vendas/service/PedidoService.java:100-118 | Alterar on the stored order, followed by the payment snapshot. The payment service's invariant is kept. The payment's method, status, id, date, reference and details are not touched. |
| PedidoServico.PedidoService.AtualizarQuantidadeItem | sistema-vendas/src/main/java/br/com/aweb/sistema_vendas/service/PedidoService.java:83-121 | Fails in the source's order, and changes nothing, on any of these: a quantity < 1, an unknown or non-ATIVO order, a missing line or null id, a null current quantity, a null product, or too little stock for a positive delta. Otherwise only line k takes the new quantity, and stock plus the order's holding is conserved. Totals and a PENDENTE snapshot are brought up to date. The payment service's invariant is kept. The payment's method, status, id, date, reference and details are not touched. |
| PedidoServico.PedidoService.Retirar | sistema-vendas/src/main/java/br/com/aweb/sistema_vendas/service/PedidoService.java:136-141 | The line's whole quantity goes back to its product and exactly that line leaves. The others keep their order, and the totals are recalculated. |
| PedidoServico.PedidoService.RetirarArmazenado | sistema-vendas/src/main/java/br/com/aweb/sistema_vendas/service/PedidoService.java:136-142 | Retirar on a stored order keeps the invariant. The payment invariant still holds for every other order. |
| PedidoServico.PedidoService.Remover | sistema-vendas/src/main/java/br/com/aweb/sistema_vendas/service/PedidoService.java:136-144 | Retirar on the stored order, followed by the payment snapshot. The payment service's invariant is kept. The payment's method, status, id, date, reference and details are not touched. |
| PedidoServico.PedidoService.RemoverItem | sistema-vendas/src/main/java/br/com/aweb/sistema_vendas/service/PedidoService.java:123-147 | Fails, with nothing changed, on an unknown or non-ATIVO order, a missing line or null id, or a null product or quantity. Otherwise exactly the line found leaves, its quantity returns to its product, and stock plus the order's holding is conserved. Totals and a PENDENTE snapshot are brought up to date. The payment service's invariant is kept. The payment's method, status, id, date, reference and details are not touched. |
| PedidoServico.PedidoService.Devolver | sistema-vendas/src/main/java/br/com/aweb/sistema_vendas/service/PedidoService.java:180-184 | After the loop, every product has gained exactly what all the order's lines held of it. |
| PedidoServico.PedidoService.Cancelar | sistema-vendas/src/main/java/br/com/aweb/sistema_vendas/service/PedidoService.java:180-187 | The stock is returned, the order becomes CANCELADO and keeps its lines, and the totals are recalculated. Consistent totals stay as they were. |
| PedidoServico.PedidoService.CancelarArmazenado | sistema-vendas/src/main/java/br/com/aweb/sistema_vendas/service/PedidoService.java:180-188 | Cancelar on a stored order keeps the invariant, including stock ≥ 0. The payment invariant still holds for every other order. |
| PedidoServico.PedidoService.CancelarPedido | sistema-vendas/src/main/java/br/com/aweb/sistema_vendas/service/PedidoService.java:175-189 | An unknown order gives NotFound, and a line with a null product or quantity gives NullPointer, with nothing changed. Otherwise every line's quantity is credited back, whatever the status, so repeating it credits again. The order becomes CANCELADO with its lines and consistent totals, and the payment is untouched. If the order's totals were consistent, the payment service's invariant is kept. |
| LojaApi.Converter | loja_api/src/main/java/br/com/sistema/loja_api/service/PedidoService.java:38-47 | Fails on a null product id (IllegalArgument), a missing product (NoSuchElement), or a null price or quantity (NullPointer). Otherwise the line has the product, the quantity, the product's price and `totalItem = preco × quantidade`. |
| LojaApi.ConverterItens | loja_api/src/main/java/br/com/sistema/loja_api/service/PedidoService.java:38-47 | Succeeds exactly when every requested line converts, keeping count and order. Otherwise it fails with the first line's error. |
| LojaApi.TotalProdutosNaoNegativo | loja_api/src/main/java/br/com/sistema/loja_api/service/PedidoService.java:52-54 | Non-negative line totals add up to a non-negative product total. |
| LojaApi.ValorTotalPorFaixa | loja_api/src/main/java/br/com/sistema/loja_api/service/PedidoService.java:57-68 | Up to 200.00 there is no discount and the total is products + 20.00. Strictly above it, the discount is a tenth of the products and the total is 0.9 × products + 20.00. |
| LojaApi.ValorTotalLimites | loja_api/src/main/java/br/com/sistema/loja_api/service/PedidoService.java:57-68 | For a non-negative product total, the discount is between 0 and the total, and the final total is between 20.00 and products + 20.00. |
| LojaApi.ExemplosDeDesconto | loja_api/src/main/java/br/com/sistema/loja_api/service/PedidoService.java:61-68 | 250.00 gives a discount of 25.00 and a total of 245.00, and 200.00 gives no discount and a total of 220.00. |
| LojaApi.TotalCaiNoLimite | loja_api/src/main/java/br/com/sistema/loja_api/service/PedidoService.java:61-68 | Because the discount starts strictly above 200.00, a 201.00 order costs less than a 200.00 one. |
| LojaApi.DescontoComTresCasas | loja_api/src/main/java/br/com/sistema/loja_api/service/PedidoService.java:63 | The unrounded discount on 200.05 is 20.005, which has three decimals. |
| LojaApi.ToDTO | loja_api/src/main/java/br/com/sistema/loja_api/service/PedidoService.java:80-98 | Copies id, date, status, amounts and method. Keeps the line count and order and copies each line's product id, quantity, price and total. |
| LojaApi.SomaDTODeItens | loja_api/src/main/java/br/com/sistema/loja_api/service/PedidoService.java:89-96 | The returned line totals add up to the order's product total. |
| LojaApi.PedidoRepository.Salvar | loja_api/src/main/java/br/com/sistema/loja_api/service/PedidoService.java:70 | The order is appended with the next id, and its lines receive consecutive ids, with nothing else changed. |
| LojaApi.PedidoService.CriarPedido | loja_api/src/main/java/br/com/sistema/loja_api/service/PedidoService.java:29-72 | A null line list (NullPointer) or the first line that fails to convert fails, and nothing is stored. Otherwise one order is appended and returned as its DTO: next id, dated now, PENDENTE, with the requested method. Its amounts agree with its lines (freight 20.00, the discount rule, and products + freight − discount), and each line is the requested product and quantity at the product's price. |
| LojaApi.PedidoService.ListarTodos | loja_api/src/main/java/br/com/sistema/loja_api/service/PedidoService.java:74-78 | One DTO per stored order, in the order they were saved. |
| Listagem.Int32 | sistema-vendas/src/main/java/br/com/aweb/sistema_vendas/api/PedidoRestController.java:55-56 | Java `int` arithmetic: values in range are kept, and values from 2^31 to 2^32 wrap to negative. |
| Listagem.AntesDaVirgula | sistema-vendas/src/main/java/br/com/aweb/sistema_vendas/api/PedidoRestController.java:40 | The prefix of the sort parameter before its first comma. |
| Listagem.ErroOrdenacao | sistema-vendas/src/main/java/br/com/aweb/sistema_vendas/api/PedidoRestController.java:40-41 | The sort parameter is accepted exactly when it is not all commas (`split(",")[0]` needs an element) and the property before the comma is not blank (`Sort.by`). |
| Listagem.OrdenacaoDe | sistema-vendas/src/main/java/br/com/aweb/sistema_vendas/api/PedidoRestController.java:40-41 | Sorts by the property before the comma. Ascending exactly when the parameter ends with ",asc", otherwise descending. |
| Listagem.AntesDaVirgulaDe | sistema-vendas/src/main/java/br/com/aweb/sistema_vendas/api/PedidoRestController.java:40 | For `p + "," + rest` with p comma-free, the property is p. |
| Listagem.OrdenacaoDeParametro | sistema-vendas/src/main/java/br/com/aweb/sistema_vendas/api/PedidoRestController.java:40-41 | "p,asc" sorts ascending by p and "p,desc" descending by p, both accepted. |
| Listagem.ErroPaginacao | sistema-vendas/src/main/java/br/com/aweb/sistema_vendas/api/PedidoRestController.java:42 | PageRequest.of accepts exactly page ≥ 0 and size ≥ 1, and otherwise raises IllegalArgument. |
| Listagem.Offset | sistema-vendas/src/main/java/br/com/aweb/sistema_vendas/api/PedidoRestController.java:42 | The page offset is the exact (long) product page × size, at least the page number. |
| Listagem.Fatia | sistema-vendas/src/main/java/br/com/aweb/sistema_vendas/api/PedidoRestController.java:55-57 | The slice `[min(start,end), end)` with `end = min(start+size, n)`. It is empty from n on, never longer than size, otherwise has min(size, n − start) elements, and is contiguous from start in the source's order. |
| Listagem.PaginasConsecutivas | sistema-vendas/src/main/java/br/com/aweb/sistema_vendas/api/PedidoRestController.java:55-57 | Two consecutive pages together are the page of twice the size. |
| Listagem.PaginasSaoPrefixo | sistema-vendas/src/main/java/br/com/aweb/sistema_vendas/api/PedidoRestController.java:55-57 | Pages 0 to m−1 concatenated are the first min(m × size, n) elements, so pages neither overlap nor skip. |
| Listagem.TodasAsPaginas | sistema-vendas/src/main/java/br/com/aweb/sistema_vendas/api/PedidoRestController.java:55-57 | Enough pages together give back the whole list. |
| Listagem.FatiaComoEscrita | sistema-vendas/src/main/java/br/com/aweb/sistema_vendas/api/PedidoRestController.java:55-57 | The slicing with Java's 32-bit `(int)` cast and `start + size`, which can only fail with IndexOutOfBounds. |
| Listagem.FatiaComoEscritaSemEstouro | sistema-vendas/src/main/java/br/com/aweb/sistema_vendas/api/PedidoRestController.java:55-57 | While offset + size fits in an int, the slicing as written equals Fatia. |
| Listagem.EstouroNaPaginacao | sistema-vendas/src/main/java/br/com/aweb/sistema_vendas/api/PedidoRestController.java:55-57 | Two concrete requests where the slicing as written throws but the intended page is empty. |
| Listagem.Selecionar | sistema-vendas/src/main/java/br/com/aweb/sistema_vendas/api/PedidoRestController.java:44-53 | An order is kept exactly when it has the requested status and passes the inclusive date and value bounds. A null bound filters nothing, and a given bound drops a null date or total. |
| Listagem.SelecionarConcat | sistema-vendas/src/main/java/br/com/aweb/sistema_vendas/api/PedidoRestController.java:48-53 | Filtering keeps the relative order of the source list. |
| Listagem.SelecionarIdempotente | sistema-vendas/src/main/java/br/com/aweb/sistema_vendas/api/PedidoRestController.java:48-53 | Filtering twice is filtering once. |
| Listagem.SelecionarSemFiltro | sistema-vendas/src/main/java/br/com/aweb/sistema_vendas/api/PedidoRestController.java:44-53 | With no parameter given, every order in the database listing is kept. |
| Listagem.ListarPedidos | sistema-vendas/src/main/java/br/com/aweb/sistema_vendas/api/PedidoRestController.java:29-61 | Fails on a bad sort parameter first, then on bad page arguments. Otherwise the page is the slice of the filtered orders at page × size, at most size long, all accepted source orders. It reports the filtered count as total, the sort and the page request. |
| Listagem.Origem | sistema-vendas/src/main/java/br/com/aweb/sistema_vendas/api/ProdutoRestController.java:35-37 | A null or blank name lists all products, and otherwise the name-search result is used. |
| Listagem.ListarProdutos | sistema-vendas/src/main/java/br/com/aweb/sistema_vendas/api/ProdutoRestController.java:24-45 | The same errors as the order listing. Otherwise the page is the slice of the origin list at page × size, at most size long, in the origin's order, with total = the origin's size, the sort and the page request. |

## Left out

- **I/O, time and the database.** `LocalDateTime.now()` is the parameter `agora`. The repository queries are inputs:
  - `listarTodosOrdenado` and `listarPorStatusOrdenado`, with their `ORDER BY` (the order listing's status query is the status filter in `Listagem.Aceito` applied to the ordered listing);
  - `buscarPorNome`, which is the parameter `encontrados`.
- **Concurrency.** `@Transactional` rollback, `@Version` optimistic locking and concurrent requests are out of scope. Each service method is one atomic step, and every failure leaves the state unchanged.
- **Java integer width.** Stock, quantities and the `int delta` of the update are unbounded integers. Only the listing's page arithmetic models 32-bit ints, because that is where the width changes behaviour.
- **BigDecimal scale.** Amounts are exact values, so 1.0 and 1.00 are equal, and `equals`-versus-`compareTo` differences are not modelled.
- **Strings.** `String.isBlank` counts only the ASCII whitespace characters as blank, not the other Unicode whitespace Java accepts.
- **Mappers and responses.** `PedidoMapper`, `ProdutoMapper`, the response records and JSON are not modelled. A listed page carries the entities themselves, and `PageImpl`'s own total adjustment is not modelled (the total is the count passed to it).
- **Other code.** These are not part of this model:
  - the controllers' other endpoints, views, flash attributes and redirects;
  - security, `UsuarioService`, `ClienteService` and `ProdutoService`;
  - the seed data and the OpenAPI configuration.
- **Missing service methods.** `adicionarOuSomarItem`, which the REST controller calls, and `atualizarDetalhes` do not exist in the services, so they are not part of this model.
- **No status promotion.** Approving a payment does not change the order's status, because the code does not do it.
- **`loja_api` detail:**
  - its entities are values, and the `ItemPedido.pedido` back-reference is omitted;
  - its enums carry only the values the code uses;
  - `pedidoRepository.save` assigns ids to the order and its lines, and nothing else of JPA is modelled;
  - `LojaApi.PedidoService.ListarTodos` lists the stored orders by position in the saved list. `findAll()` promises no order, so this order is a choice of the model;
  - the requested lines are values, so a null element of the item list is not representable. `itemDTO.getProdutoId()` at loja_api/src/main/java/br/com/sistema/loja_api/service/PedidoService.java:39 would throw NullPointerException on one.
- **Enum values.** `StatusPedido`, `StatusPagamento` and `FormaPagamento` carry the values the code names. `FormaPagamento` is an opaque name.
- **Payment invariant.** `PedidoServico.PedidoService.Valid` asks of the payment table only its own constraints. The stronger payment invariant (`pago` ⇔ APROVADO, and every PENDENTE payment holding its order's totals) is `PagamentoServico.PagamentoService.Valid`. Every order-service operation that creates or changes an order ensures that it keeps that invariant. It is not part of the order service's own `Valid`.
- PedidoServico.PedidoService.CancelarPedido: keeps the payment invariant only when the order's totals were consistent. `cancelarPedido` recalculates the totals and does not refresh the payment, so a PENDENTE payment of an order with inconsistent stored totals is left stale.

## Findings

| source | as written | input that shows it | evidently intended | confidence | as-written member | corrected member |
|---|---|---|---|---|---|---|
| sistema-vendas/src/main/java/br/com/aweb/sistema_vendas/api/PedidoRestController.java:55-57 | `int start = (int) pageable.getOffset()` and `start + pageable.getPageSize()` use 32-bit ints, so a large page wraps to a negative index and `subList` throws IndexOutOfBoundsException; ProdutoRestController.listar slices the same way | a one-element list with page 0x4000_0000 and size 2 (offset 2^31 wraps negative), or page 0x7FFF_FFFF and size 1 (`start + size` wraps) | a page past the end is empty | not executed | Listagem.FatiaComoEscrita, with Listagem.EstouroNaPaginacao | Listagem.Fatia, with Listagem.PaginasSaoPrefixo and Listagem.ListarPedidos |
