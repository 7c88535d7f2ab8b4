/**
  The sales route: POST creates a sale at the point of sale, GET lists sales a
  page at a time.

  POST runs its statements one after another with no transaction around them:
  the sale header is inserted, then for each item, in input order, the item row
  is inserted and the product's stock is lowered by the item's quantity, with
  no stock check. When a statement throws, the handler answers 500 and the
  statements already run stay applied.
*/
module Vendas {
  import opened Wrappers
  import opened Schema
  import opened Validations
  import opened Db

  const NaoAutenticado := "Não autenticado"
  const ErroCriarVenda := "Erro ao criar venda"

  // ------------------------------------------------------------ totals

  /** quantidade × precoUnitario − desconto of one item. */
  function ItemSubtotal(it: ItemVendaInput): real {
    it.quantidade * it.precoUnitario - it.desconto
  }

  /** Σ item subtotals, folded left to right as the handler's loop does. */
  function Subtotal(itens: seq<ItemVendaInput>): real {
    if itens == [] then 0.0 else Subtotal(itens[..|itens| - 1]) + ItemSubtotal(itens[|itens| - 1])
  }

  /**
    The `subtotal +=` loop and `total = subtotal - desconto`: neither figure is
    clamped, so a discount above the subtotal gives a negative total.
  */
  method ComputeTotals(itens: seq<ItemVendaInput>, desconto: real) returns (subtotal: real, total: real)
    ensures subtotal == Subtotal(itens)
    ensures total == Subtotal(itens) - desconto
  {
    subtotal := 0.0;
    for i := 0 to |itens|
      invariant subtotal == Subtotal(itens[..i])
    {
      assert itens[..i + 1][..i] == itens[..i];
      subtotal := subtotal + (itens[i].quantidade * itens[i].precoUnitario - itens[i].desconto);
    }
    assert itens[..|itens|] == itens;
    total := subtotal - desconto;
  }

  // ----------------------------------------------------- header values

  /** `clienteId || null`: an absent id and the id 0 both store NULL. */
  function ClienteRef(clienteId: Option<int>): (r: Option<int>)
    ensures r.None? <==> clienteId.None? || clienteId.value == 0
    ensures r.Some? ==> r == clienteId
  {
    if clienteId.Some? && clienteId.value != 0 then clienteId else None
  }

  /** `observacoes || null`: absent and empty notes both store NULL. */
  function NotesRef(observacoes: Option<string>): (r: Option<string>)
    ensures r.None? <==> observacoes.None? || observacoes.value == ""
    ensures r.Some? ==> r == observacoes
  {
    if observacoes.Some? && observacoes.value != "" then observacoes else None
  }

  /** The header row the handler inserts for a parsed body. */
  function NovaVendaFor(userId: int, input: VendaInput): NovaVenda {
    NovaVenda(ClienteRef(input.clienteId), userId, None, Some(Finalizada),
              Subtotal(input.itens), input.desconto, Subtotal(input.itens) - input.desconto,
              Some(input.formaPagamento), NotesRef(input.observacoes))
  }

  // ------------------------------------------------------- item rows

  /** The row the handler inserts for one item. */
  function NovoItemFor(vendaId: int, it: ItemVendaInput): NovoItemVenda {
    NovoItemVenda(vendaId, it.produtoId, it.quantidade, it.precoUnitario, it.desconto, ItemSubtotal(it))
  }

  /** The row stored for one item under the serial id `id`: the quantity column keeps the whole part. */
  function RowFor(id: int, vendaId: int, it: ItemVendaInput): ItemVenda {
    ItemVenda(id, vendaId, it.produtoId, it.quantidade.Floor, it.precoUnitario, it.desconto, ItemSubtotal(it))
  }

  /** The stored rows of `itens`, ids allocated from `firstId` on, one per item in input order. */
  function ItemRows(firstId: int, vendaId: int, itens: seq<ItemVendaInput>): seq<ItemVenda> {
    if itens == [] then []
    else ItemRows(firstId, vendaId, itens[..|itens| - 1]) + [RowFor(firstId + |itens| - 1, vendaId, itens[|itens| - 1])]
  }

  /**
    One row per item, in input order, with consecutive ids: each row names the
    sale, copies the item's product, price and discount, keeps the whole part
    of the quantity and stores quantidade × precoUnitario − desconto.
  */
  lemma {:induction false} ItemRowsSpec(firstId: int, vendaId: int, itens: seq<ItemVendaInput>)
    ensures |ItemRows(firstId, vendaId, itens)| == |itens|
    ensures forall i | 0 <= i < |itens| ::
              var r := ItemRows(firstId, vendaId, itens)[i];
              && r.id == firstId + i && r.vendaId == vendaId
              && r.produtoId == itens[i].produtoId && r.quantidade as real == itens[i].quantidade.Floor as real
              && r.precoUnitario == itens[i].precoUnitario && r.desconto == itens[i].desconto
              && r.subtotal == itens[i].quantidade * itens[i].precoUnitario - itens[i].desconto
  {
    if itens != [] {
      ItemRowsSpec(firstId, vendaId, itens[..|itens| - 1]);
    }
  }

  lemma ItemRowsStep(firstId: int, vendaId: int, itens: seq<ItemVendaInput>, i: nat)
    requires i < |itens|
    ensures ItemRows(firstId, vendaId, itens[..i + 1]) == ItemRows(firstId, vendaId, itens[..i]) + [RowFor(firstId + i, vendaId, itens[i])]
  {
    assert itens[..i + 1][..i] == itens[..i];
  }

  lemma StockAfterStep(produtos: map<int, Produto>, itens: seq<ItemVendaInput>, i: nat)
    requires i < |itens|
    ensures StockAfter(produtos, itens[..i + 1]) == Decrement(StockAfter(produtos, itens[..i]), itens[i])
  {
    assert itens[..i + 1][..i] == itens[..i];
  }

  /** The stored item subtotals add up to the sale subtotal. */
  lemma {:induction false} ItemRowsSumToSubtotal(firstId: int, vendaId: int, itens: seq<ItemVendaInput>)
    ensures SumItemSubtotals(ItemRows(firstId, vendaId, itens)) == Subtotal(itens)
  {
    if itens != [] {
      var front := itens[..|itens| - 1];
      ItemRowsSumToSubtotal(firstId, vendaId, front);
      var rows := ItemRows(firstId, vendaId, itens);
      assert rows[..|rows| - 1] == ItemRows(firstId, vendaId, front);
    }
  }

  /** An item whose row the database accepts: the product exists and the quantity is whole. */
  predicate Storable(produtos: map<int, Produto>, it: ItemVendaInput) {
    it.produtoId in produtos && IsInteger(it.quantidade)
  }

  /** How many leading items are stored before the first insert that throws. */
  function StorablePrefix(produtos: map<int, Produto>, itens: seq<ItemVendaInput>): (k: nat)
    ensures k <= |itens|
    ensures forall j | 0 <= j < k :: Storable(produtos, itens[j])
    ensures k < |itens| ==> !Storable(produtos, itens[k])
  {
    if itens == [] || !Storable(produtos, itens[0]) then 0
    else 1 + StorablePrefix(produtos, itens[1..])
  }

  // ----------------------------------------------------------- stock

  /** The stock after one item's decrement statement; an unknown product matches no row. */
  function Decrement(m: map<int, Produto>, it: ItemVendaInput): map<int, Produto> {
    if it.produtoId in m then m[it.produtoId := m[it.produtoId].(estoqueAtual := m[it.produtoId].estoqueAtual - it.quantidade.Floor)]
    else m
  }

  /** The stock after the decrement statements of `itens`, run one after another. */
  function StockAfter(produtos: map<int, Produto>, itens: seq<ItemVendaInput>): map<int, Produto> {
    if itens == [] then produtos
    else Decrement(StockAfter(produtos, itens[..|itens| - 1]), itens[|itens| - 1])
  }

  /** Σ quantidade over the items naming product `p` (each item counts, however often `p` repeats). */
  function QtyFor(itens: seq<ItemVendaInput>, p: int): int {
    if itens == [] then 0
    else QtyFor(itens[..|itens| - 1], p) + (if itens[|itens| - 1].produtoId == p then itens[|itens| - 1].quantidade.Floor else 0)
  }

  /**
    Each product's stock drops by exactly the total quantity the items request
    for it; no product appears or disappears and no other column changes.
  */
  lemma {:induction false} StockAfterSpec(produtos: map<int, Produto>, itens: seq<ItemVendaInput>, p: int)
    ensures StockAfter(produtos, itens).Keys == produtos.Keys
    ensures p in produtos ==>
              StockAfter(produtos, itens)[p] == produtos[p].(estoqueAtual := produtos[p].estoqueAtual - QtyFor(itens, p))
  {
    if itens != [] {
      var front := itens[..|itens| - 1];
      StockAfterSpec(produtos, front, p);
      var it := itens[|itens| - 1];
      if it.produtoId != p && it.produtoId in produtos {
        StockAfterSpec(produtos, front, it.produtoId);
      }
    }
  }

  /** A product that no item names keeps its stock. */
  lemma {:induction false} QtyForUnnamed(itens: seq<ItemVendaInput>, p: int)
    requires forall i | 0 <= i < |itens| :: itens[i].produtoId != p
    ensures QtyFor(itens, p) == 0
  {
    if itens != [] {
      QtyForUnnamed(itens[..|itens| - 1], p);
    }
  }

  /** Stock stays non-negative exactly when the requested total fits the prior stock. */
  lemma StockNonNegativeIff(produtos: map<int, Produto>, itens: seq<ItemVendaInput>, p: int)
    requires p in produtos
    ensures p in StockAfter(produtos, itens)
    ensures StockAfter(produtos, itens)[p].estoqueAtual >= 0 <==> QtyFor(itens, p) <= produtos[p].estoqueAtual
  {
    StockAfterSpec(produtos, itens, p);
  }

  /** A product listed twice loses both quantities. */
  lemma ListedTwiceDecrementedTwice(produtos: map<int, Produto>, a: ItemVendaInput, b: ItemVendaInput)
    requires a.produtoId == b.produtoId && a.produtoId in produtos
    ensures a.produtoId in StockAfter(produtos, [a, b])
    ensures StockAfter(produtos, [a, b])[a.produtoId].estoqueAtual
            == produtos[a.produtoId].estoqueAtual - a.quantidade.Floor - b.quantidade.Floor
  {
    StockAfterSpec(produtos, [a, b], a.produtoId);
    assert [a, b][..1] == [a];
    assert [a][..0] == [];
    assert QtyFor([a], a.produtoId) == a.quantidade.Floor;
    assert QtyFor([a, b], a.produtoId) == a.quantidade.Floor + b.quantidade.Floor;
  }

  // ------------------------------------------------------------ POST

  /** The header row stored under the serial id `id`, dated by the database clock `now`. */
  function HeaderFor(id: int, userId: int, input: VendaInput, now: int): (v: Venda)
    ensures v.id == id && v.usuarioId == userId && v.dataVenda == now
    ensures v.status == Finalizada && v.total == v.subtotal - v.desconto
    ensures v.subtotal == Subtotal(input.itens) && v.desconto == input.desconto
    ensures v.clienteId == ClienteRef(input.clienteId) && v.observacoes == NotesRef(input.observacoes)
    ensures v.formaPagamento == Some(input.formaPagamento)
  {
    var nv := NovaVendaFor(userId, input);
    Venda(id, nv.clienteId, nv.usuarioId, now, Finalizada, nv.subtotal, nv.desconto, nv.total, nv.formaPagamento, nv.observacoes)
  }

  /**
    POST /api/vendas. `session` is what `getSession` yields (no token or an
    invalid one gives `None`); `body` is what `request.json()` yields (`None`
    when it throws, which the handler's catch answers with 500); `now` is the
    database clock for `dataVenda`.
  */
  method Post(db: Database, session: Option<UserPayload>, body: Option<VendaBody>, now: int) returns (resp: Response<Venda>)
    requires db.Valid()
    modifies db`vendas, db`nextVendaId, db`itensVenda, db`nextItemId, db`produtos
    ensures db.Valid()
    ensures session.None? ==> resp == Fail(401, NaoAutenticado) && unchanged(db)
    ensures session.Some? && body.None? ==> resp == Fail(500, ErroCriarVenda) && unchanged(db)
    ensures session.Some? && body.Some? && ParseVenda(body.value).None? ==> resp == Fail(400, DadosInvalidos) && unchanged(db)
    ensures session.Some? && body.Some? && ParseVenda(body.value).Some? ==>
              CreatedAsSpecified(db, old(db.vendas), old(db.itensVenda), old(db.produtos), old(db.nextVendaId), old(db.nextItemId),
                                 old(db.VendaRefsOk(ClienteRef(ParseVenda(body.value).value.clienteId), session.value.userId)),
                                 session.value.userId, ParseVenda(body.value).value, now, resp)
  {
    if session.None? {
      return Fail(401, NaoAutenticado);
    }
    if body.None? {
      return Fail(500, ErroCriarVenda);
    }
    var parsed := ParseVenda(body.value);
    if parsed.None? {
      return Fail(400, DadosInvalidos);
    }
    var input, userId := parsed.value, session.value.userId;
    resp := CreateSale(db, userId, input, now);
  }

  /**
    What the sale-creating statements leave behind, given the tables before
    them: a refused header changes nothing; otherwise the header is stored,
    then the rows and stock decrements of the items up to the first refused
    row, and the answer is 201 only when every item was stored.
  */
  ghost predicate CreatedAsSpecified(db: Database, vendas0: seq<Venda>, itens0: seq<ItemVenda>, produtos0: map<int, Produto>,
                                     nextVenda0: int, nextItem0: int, refsOk: bool,
                                     userId: int, input: VendaInput, now: int, resp: Response<Venda>)
    reads db
  {
    if !refsOk then
      && resp == Fail(500, ErroCriarVenda)
      && db.vendas == vendas0 && db.nextVendaId == nextVenda0
      && db.itensVenda == itens0 && db.nextItemId == nextItem0 && db.produtos == produtos0
    else
      var v := HeaderFor(nextVenda0, userId, input, now);
      var k := StorablePrefix(produtos0, input.itens);
      && db.vendas == vendas0 + [v] && db.nextVendaId == nextVenda0 + 1
      && db.itensVenda == itens0 + ItemRows(nextItem0, v.id, input.itens[..k]) && db.nextItemId == nextItem0 + k
      && db.produtos == StockAfter(produtos0, input.itens[..k])
      && resp == (if k == |input.itens| then Respond(201, v) else Fail(500, ErroCriarVenda))
  }

  /** The statements POST runs for an authenticated, valid body: the header insert, then the item loop. */
  method CreateSale(db: Database, userId: int, input: VendaInput, now: int) returns (resp: Response<Venda>)
    requires db.Valid()
    modifies db`vendas, db`nextVendaId, db`itensVenda, db`nextItemId, db`produtos
    ensures db.Valid()
    ensures CreatedAsSpecified(db, old(db.vendas), old(db.itensVenda), old(db.produtos), old(db.nextVendaId), old(db.nextItemId),
                               old(db.VendaRefsOk(ClienteRef(input.clienteId), userId)), userId, input, now, resp)
  {
    var subtotal, total := ComputeTotals(input.itens, input.desconto);
    var created := db.InsertVenda(
      NovaVenda(ClienteRef(input.clienteId), userId, None, Some(Finalizada),
                subtotal, input.desconto, total, Some(input.formaPagamento), NotesRef(input.observacoes)),
      now);
    if created.None? {
      return Fail(500, ErroCriarVenda);
    }
    var v := created.value;
    assert v == HeaderFor(v.id, userId, input, now);
    var complete := InsertItems(db, v.id, input.itens);
    resp := if complete then Respond(201, v) else Fail(500, ErroCriarVenda);
  }

  /**
    One pass of POST's item loop: insert the item's row, then lower the
    product's stock by its quantity. A row the database refuses throws before
    the stock statement runs.
  */
  method StoreItem(db: Database, vendaId: int, item: ItemVendaInput) returns (stored: bool)
    requires db.Valid() && vendaId in db.VendaIds()
    modifies db`itensVenda, db`nextItemId, db`produtos
    ensures db.Valid()
    ensures stored == Storable(old(db.produtos), item)
    ensures stored ==> && db.itensVenda == old(db.itensVenda) + [RowFor(old(db.nextItemId), vendaId, item)]
                       && db.nextItemId == old(db.nextItemId) + 1
                       && db.produtos == Decrement(old(db.produtos), item)
    ensures !stored ==> db.itensVenda == old(db.itensVenda) && db.nextItemId == old(db.nextItemId) && db.produtos == old(db.produtos)
  {
    ghost var produtos0, itens0, next0 := db.produtos, db.itensVenda, db.nextItemId;
    var itemSubtotal := item.quantidade * item.precoUnitario - item.desconto;
    var row := db.InsertItem(NovoItemVenda(vendaId, item.produtoId, item.quantidade, item.precoUnitario, item.desconto, itemSubtotal));
    if row.None? {
      return false;
    }
    assert row.value == RowFor(next0, vendaId, item);
    assert db.produtos == produtos0;
    db.DecrementStock(item.produtoId, item.quantidade.Floor);
    assert db.produtos == Decrement(produtos0, item);
    assert db.itensVenda == itens0 + [RowFor(next0, vendaId, item)];
    return true;
  }

  /**
    The item loop of POST, in input order. The first item whose insert throws
    ends it, leaving the earlier rows and decrements in place.
  */
  method InsertItems(db: Database, vendaId: int, itens: seq<ItemVendaInput>) returns (complete: bool)
    requires db.Valid() && vendaId in db.VendaIds()
    modifies db`itensVenda, db`nextItemId, db`produtos
    ensures db.Valid()
    ensures var k := StorablePrefix(old(db.produtos), itens);
            && complete == (k == |itens|)
            && db.itensVenda == old(db.itensVenda) + ItemRows(old(db.nextItemId), vendaId, itens[..k])
            && db.nextItemId == old(db.nextItemId) + k
            && db.produtos == StockAfter(old(db.produtos), itens[..k])
  {
    ghost var produtos0, rows0, next0 := db.produtos, db.itensVenda, db.nextItemId;
    for i := 0 to |itens|
      invariant db.Valid() && vendaId in db.VendaIds()
      invariant i <= StorablePrefix(produtos0, itens)
      invariant db.itensVenda == rows0 + ItemRows(next0, vendaId, itens[..i])
      invariant db.nextItemId == next0 + i
      invariant db.produtos == StockAfter(produtos0, itens[..i])
    {
      StockAfterSpec(produtos0, itens[..i], itens[i].produtoId);
      var stored := StoreItem(db, vendaId, itens[i]);
      if !stored {
        assert !Storable(produtos0, itens[i]);
        assert StorablePrefix(produtos0, itens) == i;
        return false;
      }
      assert Storable(produtos0, itens[i]);
      assert db.itensVenda == (rows0 + ItemRows(next0, vendaId, itens[..i])) + [RowFor(next0 + i, vendaId, itens[i])];
      ItemRowsStep(next0, vendaId, itens, i);
      AppendAssoc(rows0, ItemRows(next0, vendaId, itens[..i]), [RowFor(next0 + i, vendaId, itens[i])]);
      StockAfterStep(produtos0, itens, i);
    }
    assert itens[..|itens|] == itens;
    return true;
  }

  // ------------------------------------------------------------- GET

  const ErroBuscarVendas := "Erro ao buscar vendas"

  datatype Pagination = Pagination(page: int, limit: int, total: nat, totalPages: Option<int>)

  /** `offset = (page - 1) * limit`: the rows of the pages before `page`. */
  function Offset(page: int, limit: int): int {
    (page - 1) * limit
  }

  /** `Math.ceil(x)` on a rational. */
  function Ceil(x: real): (r: int)
    ensures r as real >= x && (r - 1) as real < x
  {
    if x.Floor as real == x then x.Floor else x.Floor + 1
  }

  /**
    `Math.ceil(total / limit)`. A zero limit divides by zero, and the Infinity
    or NaN it gives is serialised as `null` (`None`); a negative limit gives a
    page count of zero or below.
  */
  function TotalPages(total: nat, limit: int): (r: Option<int>)
    ensures r.None? <==> limit == 0
    ensures limit > 0 ==> r.value * limit >= total && (r.value - 1) * limit < total
    ensures limit < 0 ==> r.value * limit <= total < (r.value - 1) * limit
  {
    if limit == 0 then None
    else
      var pages := Ceil(total as real / limit as real);
      if limit > 0 then
        CeilDivBounds(total, limit, pages);
        Some(pages)
      else
        CeilDivBoundsNegative(total, limit, pages);
        Some(pages)
  }

  lemma CeilDivBounds(total: nat, limit: nat, pages: int)
    requires limit > 0 && pages == Ceil(total as real / limit as real)
    ensures pages * limit >= total && (pages - 1) * limit < total
  {
    var q := total as real / limit as real;
    DivMulCancel(total as real, limit as real);
    CeilUpper(total, limit, q, pages);
    CeilLower(total, limit, q, pages - 1);
  }

  lemma CeilDivBoundsNegative(total: nat, limit: int, pages: int)
    requires limit < 0 && pages == Ceil(total as real / limit as real)
    ensures pages * limit <= total < (pages - 1) * limit
  {
    var m := -limit;
    var y := total as real / m as real;
    NegDiv(total as real, limit as real);
    DivMulCancel(total as real, m as real);
    FloorLower(total, m, y, -pages);
    FloorUpper(total, m, y, 1 - pages);
    NegMul(pages, limit);
    NegMul(pages - 1, limit);
  }

  lemma NegDiv(t: real, l: real)
    requires l < 0.0
    ensures t / l == -(t / -l)
  {
  }

  lemma NegMul(a: int, b: int)
    ensures (-a) * (-b) == a * b && (1 - a) * (-b) == (a - 1) * b
  {
  }

  lemma FloorLower(total: nat, m: int, y: real, k: int)
    requires m > 0 && y * m as real == total as real && k as real <= y
    ensures k * m <= total
  {
    MulRealMono(k as real, y, m as real);
    CastMul(k, m);
  }

  lemma FloorUpper(total: nat, m: int, y: real, k: int)
    requires m > 0 && y * m as real == total as real && y < k as real
    ensures total < k * m
  {
    MulRealStrict(y, k as real, m as real);
    CastMul(k, m);
  }

  lemma CeilUpper(total: nat, limit: nat, q: real, pages: int)
    requires limit > 0 && q * limit as real == total as real && pages as real >= q
    ensures pages * limit >= total
  {
    MulRealMono(q, pages as real, limit as real);
    CastMul(pages, limit);
  }

  lemma CeilLower(total: nat, limit: nat, q: real, below: int)
    requires limit > 0 && q * limit as real == total as real && below as real < q
    ensures below * limit < total
  {
    MulRealStrict(below as real, q, limit as real);
    CastMul(below, limit);
  }

  lemma {:induction false} CastMul(a: int, b: nat)
    ensures (a * b) as real == a as real * b as real
  {
    if b > 0 {
      CastMul(a, b - 1);
      assert a * b == a * (b - 1) + a;
    }
  }

  lemma DivMulCancel(t: real, l: real)
    requires l > 0.0
    ensures (t / l) * l == t
  {
  }

  lemma MulRealMono(a: real, b: real, c: real)
    requires a <= b && c > 0.0
    ensures a * c <= b * c
  {
  }

  lemma MulRealStrict(a: real, b: real, c: real)
    requires a < b && c > 0.0
    ensures a * c < b * c
  {
  }

  lemma MulIntMono(a: int, b: int, c: nat)
    requires a <= b
    ensures a * c <= b * c
  {
  }

  /**
    GET /api/vendas: the page of `rows` (the sales, newest first) that starts
    at the offset and holds at most `limit` rows, with the pagination block.
    The query builder writes `LIMIT` only for a limit of zero or more and
    `OFFSET` only for a non-zero offset, so a negative limit lists every row
    from the offset on; PostgreSQL refuses a negative OFFSET, which the
    handler's catch turns into a 500.
  */
  function List(rows: seq<Venda>, page: int, limit: int): (r: Response<(seq<Venda>, Pagination)>)
    ensures r.Fail? <==> Offset(page, limit) < 0
    ensures r.Fail? ==> r == Fail(500, ErroBuscarVendas)
    ensures r.Respond? ==>
              var (data, pg) := r.body;
              && r.status == 200
              && pg == Pagination(page, limit, |rows|, TotalPages(|rows|, limit))
              && (forall i | 0 <= i < |data| :: Offset(page, limit) + i < |rows| && data[i] == rows[Offset(page, limit) + i])
              && (limit >= 0 ==> |data| <= limit && (Offset(page, limit) + limit <= |rows| ==> |data| == limit))
              && (limit < 0 ==> |data| == if Offset(page, limit) < |rows| then |rows| - Offset(page, limit) else 0)
  {
    var off := Offset(page, limit);
    if off < 0 then Fail(500, ErroBuscarVendas)
    else
      var lo := if off < |rows| then off else |rows|;
      var hi := if limit >= 0 && off + limit < |rows| then off + limit else |rows|;
      Respond(200, (rows[lo..hi], Pagination(page, limit, |rows|, TotalPages(|rows|, limit))))
  }

  /**
    A negative limit puts no bound on the page: the first page lists every
    sale, and any later page has a negative offset and fails.
  */
  lemma NegativeLimit(rows: seq<Venda>, page: int, limit: int)
    requires limit < 0
    ensures page == 1 ==> List(rows, page, limit) == Respond(200, (rows, Pagination(1, limit, |rows|, TotalPages(|rows|, limit))))
    ensures page >= 2 ==> List(rows, page, limit) == Fail(500, ErroBuscarVendas)
  {
    if page == 1 {
      assert Offset(page, limit) == 0;
      assert rows[0..|rows|] == rows;
    } else if page >= 2 {
      MulIntMono(1, page - 1, -limit);
    }
  }

  /**
    With a positive limit every sale is listed on exactly one page, page
    `j / limit + 1`, at position `j % limit`, and that page is within `totalPages`.
  */
  lemma RowOnPage(rows: seq<Venda>, limit: int, j: nat)
    requires limit > 0 && j < |rows|
    ensures var p := j / limit + 1;
            && List(rows, p, limit).Respond?
            && 1 <= p <= List(rows, p, limit).body.1.totalPages.value
            && j % limit < |List(rows, p, limit).body.0|
            && List(rows, p, limit).body.0[j % limit] == rows[j]
    ensures forall q :: Offset(q, limit) <= j < Offset(q, limit) + limit ==> q == j / limit + 1
  {
    var d := j / limit;
    var p := d + 1;
    var n := TotalPages(|rows|, limit).value;
    assert Offset(p, limit) == d * limit;
    assert j == d * limit + j % limit;
    MulIntMono(0, d, limit);
    if p > n {
      MulIntMono(n, d, limit);
    }
    forall q | Offset(q, limit) <= j < Offset(q, limit) + limit
      ensures q == p
    {
      assert Offset(q, limit) + limit == q * limit;
      if q < p {
        MulIntMono(q, d, limit);
      } else if q > p {
        MulIntMono(d + 1, q - 1, limit);
      }
    }
  }
}
