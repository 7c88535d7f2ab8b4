/**
  The seed script: the fake CPF, CNPJ and phone generators, and the loop that
  builds the demo sales. Every `Math.random()` draw is a parameter, already
  reduced to the range the script's expression gives it (a digit 0..9, an
  index into the list it picks from, a quantity 1..5).
*/
module Seed {
  import opened Wrappers
  import opened Schema
  import opened Db
  import Js

  // ====================================================== document generators

  predicate IsDigitSeq(d: seq<int>) {
    forall i | 0 <= i < |d| :: 0 <= d[i] <= 9
  }

  /** The digits found at the given positions of `s`, read back as numbers. */
  function ReadDigits(s: string, positions: seq<nat>): seq<int>
    requires forall i | 0 <= i < |positions| :: positions[i] < |s|
  {
    seq(|positions|, i requires 0 <= i < |positions| => s[positions[i]] as int - '0' as int)
  }

  /** Where `ddd.ddd.ddd-dd` holds its eleven digits. */
  const CpfDigitPositions: seq<nat> := [0, 1, 2, 4, 5, 6, 8, 9, 10, 12, 13]

  /** Where `dd.ddd.ddd/0001-dd` holds its ten drawn digits. */
  const CnpjDigitPositions: seq<nat> := [0, 1, 3, 4, 5, 7, 8, 9, 16, 17]

  /** Where `(AA) 9dddd-dddd` holds its eight drawn digits. */
  const TelefoneDigitPositions: seq<nat> := [6, 7, 8, 9, 11, 12, 13, 14]

  /**
    `gerarCPF`: eleven digits as `ddd.ddd.ddd-dd`, fourteen characters, which
    fits the `cpf_cnpj` column; the digits read back in order.
  */
  function GerarCPF(d: seq<int>): (r: string)
    requires |d| == 11 && IsDigitSeq(d)
    ensures |r| == 14 && FitsVarchar(r, CpfCnpjWidth)
    ensures r[3] == '.' && r[7] == '.' && r[11] == '-'
    ensures ReadDigits(r, CpfDigitPositions) == d
  {
    var c := i requires 0 <= i < 11 => Js.DigitChar(d[i]);
    [c(0), c(1), c(2), '.', c(3), c(4), c(5), '.', c(6), c(7), c(8), '-', c(9), c(10)]
  }

  /**
    `gerarCNPJ`: ten digits as `dd.ddd.ddd/0001-dd`, eighteen characters, which
    exactly fills the `cpf_cnpj` column; the branch number is always 0001.
  */
  function GerarCNPJ(d: seq<int>): (r: string)
    requires |d| == 10 && IsDigitSeq(d)
    ensures |r| == 18 && FitsVarchar(r, CpfCnpjWidth)
    ensures r[2] == '.' && r[6] == '.' && r[10..16] == "/0001-"
    ensures ReadDigits(r, CnpjDigitPositions) == d
  {
    var c := i requires 0 <= i < 10 => Js.DigitChar(d[i]);
    var head := [c(0), c(1), '.', c(2), c(3), c(4), '.', c(5), c(6), c(7)];
    var r := head + "/0001-" + [c(8), c(9)];
    assert r[10..16] == "/0001-";
    r
  }

  /**
    `gerarTelefone`: `(AA) 9dddd-dddd` where the area code AA is
    `floor(random * 90) + 10`, given here as `a` in 0..89; fifteen characters,
    which fits the `telefone` column.
  */
  function GerarTelefone(a: int, d: seq<int>): (r: string)
    requires 0 <= a < 90 && |d| == 8 && IsDigitSeq(d)
    ensures |r| == 15 && FitsVarchar(r, TelefoneWidth)
    ensures r[0] == '(' && r[3..6] == ") 9" && r[10] == '-'
    ensures var area := (r[1] as int - '0' as int) * 10 + (r[2] as int - '0' as int);
            area == a + 10 && 10 <= area <= 99
    ensures ReadDigits(r, TelefoneDigitPositions) == d
  {
    var area := a + 10;
    var c := i requires 0 <= i < 8 => Js.DigitChar(d[i]);
    ['(', Js.DigitChar(area / 10), Js.DigitChar(area % 10), ')', ' ', '9',
     c(0), c(1), c(2), c(3), '-', c(4), c(5), c(6), c(7)]
  }

  // ====================================================== product selection

  /** `produtosSelecionados.find(p => p.id === id)` finds something. */
  predicate HasId(ps: seq<Produto>, id: int) {
    exists k | 0 <= k < |ps| :: ps[k].id == id
  }

  predicate DistinctIds(ps: seq<Produto>) {
    forall i, j | 0 <= i < j < |ps| :: ps[i].id != ps[j].id
  }

  /** The products the drawn indices name, in draw order, repeats included. */
  function Picked(produtos: seq<Produto>, picks: seq<nat>): (r: seq<Produto>)
    requires forall j | 0 <= j < |picks| :: picks[j] < |produtos|
    ensures |r| == |picks| && forall j | 0 <= j < |picks| :: r[j] == produtos[picks[j]]
  {
    seq(|picks|, j requires 0 <= j < |picks| => produtos[picks[j]])
  }

  /** The picked products in order, each id kept at its first occurrence only. */
  function DedupById(ps: seq<Produto>): (r: seq<Produto>)
    ensures |r| <= |ps|
  {
    if ps == [] then []
    else
      var front := DedupById(ps[..|ps| - 1]);
      if HasId(front, ps[|ps| - 1].id) then front else front + [ps[|ps| - 1]]
  }

  lemma HasIdSnoc(ps: seq<Produto>, p: Produto, id: int)
    ensures HasId(ps + [p], id) <==> HasId(ps, id) || p.id == id
  {
    if HasId(ps, id) {
      var k :| 0 <= k < |ps| && ps[k].id == id;
      assert (ps + [p])[k].id == id;
    }
    if p.id == id {
      assert (ps + [p])[|ps|].id == id;
    }
  }

  /**
    The selection holds pairwise distinct ids, every one of them picked, and
    every picked id appears in it; it is non-empty when something was drawn.
  */
  lemma {:induction false} DedupByIdSpec(ps: seq<Produto>)
    ensures DistinctIds(DedupById(ps))
    ensures |ps| > 0 ==> |DedupById(ps)| > 0
    ensures forall id :: HasId(DedupById(ps), id) <==> HasId(ps, id)
    ensures forall k | 0 <= k < |DedupById(ps)| :: DedupById(ps)[k] in ps
  {
    if ps != [] {
      var front := ps[..|ps| - 1];
      var last := ps[|ps| - 1];
      assert ps == front + [last];
      DedupByIdSpec(front);
      var df := DedupById(front);
      forall id ensures HasId(DedupById(ps), id) <==> HasId(ps, id) {
        HasIdSnoc(front, last, id);
        HasIdSnoc(df, last, id);
      }
      var r := DedupById(ps);
      forall k | 0 <= k < |r| ensures r[k] in ps {
        if k < |df| {
          assert df[k] in front;
        }
      }
    }
  }

  /**
    The `for j < qtdProdutos` loop: draw a product, push it unless one with
    the same id is already selected. `picks` holds the drawn indices; there
    are `floor(random * 4) + 1` of them.
  */
  method SelectProducts(produtos: seq<Produto>, picks: seq<nat>) returns (sel: seq<Produto>)
    requires 1 <= |picks| <= 4
    requires forall j | 0 <= j < |picks| :: picks[j] < |produtos|
    ensures sel == DedupById(Picked(produtos, picks))
    ensures DistinctIds(sel) && 1 <= |sel| <= 4
    ensures forall id :: HasId(sel, id) <==> exists j | 0 <= j < |picks| :: produtos[picks[j]].id == id
  {
    ghost var all := Picked(produtos, picks);
    sel := [];
    for j := 0 to |picks|
      invariant sel == DedupById(all[..j])
    {
      assert all[..j + 1][..j] == all[..j];
      var prod := produtos[picks[j]];
      if !HasId(sel, prod.id) {
        sel := sel + [prod];
      }
    }
    assert all[..|picks|] == all;
    DedupByIdSpec(all);
    forall id ensures HasId(all, id) <==> exists j | 0 <= j < |picks| :: produtos[picks[j]].id == id {
      if HasId(all, id) {
        var k :| 0 <= k < |all| && all[k].id == id;
        assert produtos[picks[k]].id == id;
      }
      if exists j | 0 <= j < |picks| :: produtos[picks[j]].id == id {
        var j :| 0 <= j < |picks| && produtos[picks[j]].id == id;
        assert all[j].id == id;
      }
    }
  }

  // ================================================================ items

  /** An element of `itensParaInserir`, before the sale id is spread in. */
  datatype SeedItem = SeedItem(produtoId: int, quantidade: int, precoUnitario: real, desconto: real, subtotal: real)

  /** Σ item subtotals, folded left to right. */
  function SeedSubtotal(items: seq<SeedItem>): real {
    if items == [] then 0.0 else SeedSubtotal(items[..|items| - 1]) + items[|items| - 1].subtotal
  }

  /** The item of one selected product: the drawn quantity, the sale price, no discount. */
  function SeedItemFor(p: Produto, q: int): (it: SeedItem)
    ensures it.produtoId == p.id && it.quantidade == q && it.desconto == 0.0
    ensures it.subtotal == q as real * it.precoUnitario && it.precoUnitario == p.precoVenda
  {
    SeedItem(p.id, q, p.precoVenda, 0.0, q as real * p.precoVenda)
  }

  /**
    The `map` over the selected products with its `subtotal +=` side effect:
    one item per product, in order, quantities drawn as `floor(random * 5) + 1`.
  */
  method BuildItems(sel: seq<Produto>, qtys: seq<int>) returns (items: seq<SeedItem>, subtotal: real)
    requires |qtys| >= |sel|
    requires forall i | 0 <= i < |qtys| :: 1 <= qtys[i] <= 5
    ensures |items| == |sel|
    ensures forall i | 0 <= i < |sel| :: items[i] == SeedItemFor(sel[i], qtys[i]) && 1 <= items[i].quantidade <= 5
    ensures subtotal == SeedSubtotal(items)
  {
    items, subtotal := [], 0.0;
    for i := 0 to |sel|
      invariant |items| == i
      invariant forall k | 0 <= k < i :: items[k] == SeedItemFor(sel[k], qtys[k])
      invariant subtotal == SeedSubtotal(items)
    {
      var quantidade := qtys[i];
      var itemSubtotal := quantidade as real * sel[i].precoVenda;
      subtotal := subtotal + itemSubtotal;
      ghost var before := items;
      items := items + [SeedItem(sel[i].id, quantidade, sel[i].precoVenda, 0.0, itemSubtotal)];
      assert items[..|items| - 1] == before;
    }
  }

  /** With non-negative prices the seeded subtotal is non-negative. */
  lemma {:induction false} SeedSubtotalNonNegative(items: seq<SeedItem>)
    requires forall i | 0 <= i < |items| :: items[i].subtotal >= 0.0
    ensures SeedSubtotal(items) >= 0.0
  {
    if items != [] {
      SeedSubtotalNonNegative(items[..|items| - 1]);
    }
  }

  /**
    `Math.random() > 0.7 ? subtotal * 0.1 : 0`, the drawn number given as `r`:
    a tenth of the subtotal or nothing, so the total is 90% or 100% of it.
  */
  function SeedDiscount(subtotal: real, r: real): (d: real)
    ensures d == 0.0 || d * 10.0 == subtotal
    ensures d != 0.0 ==> r > 0.7
    ensures subtotal >= 0.0 ==> 0.0 <= d <= subtotal && 0.9 * subtotal <= subtotal - d <= subtotal
  {
    if r > 0.7 then subtotal * 0.1 else 0.0
  }

  /** The rows the multi-row item insert receives: each item with the sale id spread in. */
  function WithVendaId(vendaId: int, items: seq<SeedItem>): (r: seq<NovoItemVenda>)
    ensures |r| == |items|
    ensures forall i | 0 <= i < |items| ::
              r[i] == NovoItemVenda(vendaId, items[i].produtoId, items[i].quantidade as real, items[i].precoUnitario, items[i].desconto, items[i].subtotal)
  {
    seq(|items|, i requires 0 <= i < |items| =>
      NovoItemVenda(vendaId, items[i].produtoId, items[i].quantidade as real, items[i].precoUnitario, items[i].desconto, items[i].subtotal))
  }

  // ================================================================ sales

  /** `formasPagamento`, in the order the script indexes it. */
  const FormasPagamento: seq<FormaPagamento> := [Dinheiro, Pix, CartaoCredito, CartaoDebito, Boleto]

  /** Every random value one pass of the sales loop draws, reduced to the value the script uses. */
  datatype SaleDraw = SaleDraw(
    cliente: nat,          // index into the created customers
    usuario: nat,          // index into the created users
    forma: nat,            // index into `formasPagamento`
    picks: seq<nat>,       // product indices, one per pass of the selection loop
    qtys: seq<int>,        // item quantities, one per selected product
    descontoDraw: real,    // the `Math.random()` compared with 0.7
    dataVenda: int,        // `dataAleatoria(90)`
    dataVencimento: int)   // `dataFutura(30)`

  predicate DrawFits(d: SaleDraw, nClientes: nat, nUsuarios: nat, nProdutos: nat) {
    && d.cliente < nClientes && d.usuario < nUsuarios && d.forma < |FormasPagamento|
    && 1 <= |d.picks| <= 4 && (forall j | 0 <= j < |d.picks| :: d.picks[j] < nProdutos)
    && |d.qtys| >= |d.picks| && (forall i | 0 <= i < |d.qtys| :: 1 <= d.qtys[i] <= 5)
  }

  /** The header the script inserts for a sale of the given subtotal. */
  function SeedVenda(id: int, clienteId: int, usuarioId: int, forma: FormaPagamento, subtotal: real, r: real, dataVenda: int): (v: Venda)
    ensures v.status == Finalizada && v.total == v.subtotal - v.desconto && v.subtotal == subtotal
    ensures v.desconto == SeedDiscount(subtotal, r) && v.clienteId == Some(clienteId) && v.formaPagamento == Some(forma)
  {
    var desconto := SeedDiscount(subtotal, r);
    Venda(id, Some(clienteId), usuarioId, dataVenda, Finalizada, subtotal, desconto, subtotal - desconto, Some(forma), None)
  }

  /** The receivable a boleto sale gets: pending, for the sale's total, linked to the sale and its customer. */
  function BoletoReceivable(id: int, v: Venda, dataVencimento: int): (c: ContaReceber)
    ensures c.status == Pendente && c.valor == v.total && c.vendaId == Some(v.id) && c.clienteId == v.clienteId
  {
    ContaReceber(id, v.clienteId, Some(v.id), v.total, dataVencimento, Pendente)
  }

  /** The items a draw yields: one per selected product, with the drawn quantity. */
  function SeedItems(produtos: seq<Produto>, d: SaleDraw): (items: seq<SeedItem>)
    requires DrawFits(d, d.cliente + 1, d.usuario + 1, |produtos|)
  {
    var sel := DedupById(Picked(produtos, d.picks));
    seq(|sel|, i requires 0 <= i < |sel| => SeedItemFor(sel[i], d.qtys[i]))
  }

  /** Product selection and item building for one draw; the database is not involved. */
  method PlanSale(produtos: seq<Produto>, d: SaleDraw) returns (items: seq<SeedItem>, subtotal: real)
    requires DrawFits(d, d.cliente + 1, d.usuario + 1, |produtos|)
    ensures items == SeedItems(produtos, d) && subtotal == SeedSubtotal(items)
    ensures 1 <= |items| <= 4
    ensures forall i | 0 <= i < |items| :: items[i].produtoId in ProdutoIds(produtos)
  {
    var sel := SelectProducts(produtos, d.picks);
    items, subtotal := BuildItems(sel, d.qtys);
    DedupByIdSpec(Picked(produtos, d.picks));
    forall i | 0 <= i < |items| ensures items[i].produtoId in ProdutoIds(produtos) {
      var k :| 0 <= k < |d.picks| && Picked(produtos, d.picks)[k] == sel[i];
      assert produtos[d.picks[k]].id == items[i].produtoId;
    }
  }

  function ProdutoIds(produtos: seq<Produto>): set<int> {
    set k | 0 <= k < |produtos| :: produtos[k].id
  }

  /**
    The writes of one pass: the header, the items in one statement and, for a
    boleto sale only, its receivable. Product stock is never touched.
  */
  method WriteSale(db: Database, clienteId: int, usuarioId: int, forma: FormaPagamento, items: seq<SeedItem>,
                   subtotal: real, descontoDraw: real, dataVenda: int, dataVencimento: int) returns (v: Venda)
    requires db.Valid()
    requires clienteId in db.clientes && usuarioId in db.UsuarioIds()
    requires forall i | 0 <= i < |items| :: items[i].produtoId in db.produtos
    requires subtotal == SeedSubtotal(items)
    modifies db`vendas, db`nextVendaId, db`itensVenda, db`nextItemId, db`contasReceber, db`nextContaReceberId
    ensures db.Valid()
    ensures v == SeedVenda(old(db.nextVendaId), clienteId, usuarioId, forma, subtotal, descontoDraw, dataVenda)
    ensures db.vendas == old(db.vendas) + [v]
    ensures db.itensVenda == old(db.itensVenda) + StoredItems(old(db.nextItemId), WithVendaId(v.id, items))
    ensures db.contasReceber == old(db.contasReceber)
              + (if forma == Boleto then [BoletoReceivable(old(db.nextContaReceberId), v, dataVencimento)] else [])
    ensures db.nextVendaId == old(db.nextVendaId) + 1 && db.nextItemId == old(db.nextItemId) + |items|
    ensures db.nextContaReceberId == old(db.nextContaReceberId) + (if forma == Boleto then 1 else 0)
  {
    var desconto := SeedDiscount(subtotal, descontoDraw);
    var total := subtotal - desconto;
    var created := db.InsertVenda(
      NovaVenda(Some(clienteId), usuarioId, Some(dataVenda), Some(Finalizada), subtotal, desconto, total, Some(forma), None),
      dataVenda);
    v := created.value;
    InsertSeedItems(db, v.id, items);
    if forma == Boleto {
      var conta := db.InsertContaReceber(NovaContaReceber(Some(clienteId), Some(v.id), total, dataVencimento, Some(Pendente)));
    }
  }

  /** `insert(itensVenda).values(itensParaInserir.map(...))`: every row is storable, so all are stored. */
  method InsertSeedItems(db: Database, vendaId: int, items: seq<SeedItem>)
    requires db.Valid() && vendaId in db.VendaIds()
    requires forall i | 0 <= i < |items| :: items[i].produtoId in db.produtos
    modifies db`itensVenda, db`nextItemId
    ensures db.Valid()
    ensures db.itensVenda == old(db.itensVenda) + StoredItems(old(db.nextItemId), WithVendaId(vendaId, items))
    ensures db.nextItemId == old(db.nextItemId) + |items|
  {
    var rows := WithVendaId(vendaId, items);
    var stored := db.InsertItemBatch(rows);
  }

  /** A sale as one pass of the loop decides it from its draw, before anything is written. */
  datatype PlannedSale = PlannedSale(
    clienteId: int, usuarioId: int, forma: FormaPagamento, items: seq<SeedItem>,
    descontoDraw: real, dataVenda: int, dataVencimento: int)

  /** The sale draw `d` decides: its customer's and seller's ids, the payment method and the items. */
  function Plan(clientes: seq<Cliente>, usuarios: seq<Usuario>, produtos: seq<Produto>, d: SaleDraw): (s: PlannedSale)
    requires DrawFits(d, |clientes|, |usuarios|, |produtos|)
    ensures s.clienteId == clientes[d.cliente].id && s.usuarioId == usuarios[d.usuario].id
    ensures s.forma == FormasPagamento[d.forma] && (s.forma == Boleto <==> d.forma == 4)
    ensures s.items == SeedItems(produtos, d)
  {
    PlannedSale(clientes[d.cliente].id, usuarios[d.usuario].id, FormasPagamento[d.forma], SeedItems(produtos, d),
                d.descontoDraw, d.dataVenda, d.dataVencimento)
  }

  predicate AllFit(clientes: seq<Cliente>, usuarios: seq<Usuario>, produtos: seq<Produto>, draws: seq<SaleDraw>) {
    forall i | 0 <= i < |draws| :: DrawFits(draws[i], |clientes|, |usuarios|, |produtos|)
  }

  /** The plans of all the draws, in loop order. */
  function Plans(clientes: seq<Cliente>, usuarios: seq<Usuario>, produtos: seq<Produto>, draws: seq<SaleDraw>): (ps: seq<PlannedSale>)
    requires AllFit(clientes, usuarios, produtos, draws)
    ensures |ps| == |draws| && forall i | 0 <= i < |draws| :: ps[i] == Plan(clientes, usuarios, produtos, draws[i])
  {
    seq(|draws|, i requires 0 <= i < |draws| => Plan(clientes, usuarios, produtos, draws[i]))
  }

  /** Every row the sales loop writes, table by table, in insertion order. */
  datatype SeedWrites = SeedWrites(vendas: seq<Venda>, itens: seq<ItemVenda>, contas: seq<ContaReceber>)

  /**
    What one pass writes for sale `s` when the serial counters of sales,
    items and receivables stand at `vId`, `iId` and `cId`: the header, the
    item rows and, for a boleto sale only, its receivable.
  */
  function Pass(s: PlannedSale, vId: int, iId: int, cId: int): SeedWrites {
    var v := SeedVenda(vId, s.clienteId, s.usuarioId, s.forma, SeedSubtotal(s.items), s.descontoDraw, s.dataVenda);
    SeedWrites([v], StoredItems(iId, WithVendaId(v.id, s.items)),
               if s.forma == Boleto then [BoletoReceivable(cId, v, s.dataVencimento)] else [])
  }

  /**
    One pass writes the sale for `s` under `vId`, one item row per item, each
    carrying `vId`, and a pending receivable for that sale exactly when it is
    paid by boleto.
  */
  lemma PassSpec(s: PlannedSale, vId: int, iId: int, cId: int)
    ensures Pass(s, vId, iId, cId).vendas
              == [SeedVenda(vId, s.clienteId, s.usuarioId, s.forma, SeedSubtotal(s.items), s.descontoDraw, s.dataVenda)]
    ensures |Pass(s, vId, iId, cId).itens| == |s.items|
    ensures forall k | 0 <= k < |Pass(s, vId, iId, cId).itens| :: Pass(s, vId, iId, cId).itens[k].vendaId == vId
    ensures |Pass(s, vId, iId, cId).contas| == (if s.forma == Boleto then 1 else 0)
    ensures forall k | 0 <= k < |Pass(s, vId, iId, cId).contas| ::
              Pass(s, vId, iId, cId).contas[k].status == Pendente && Pass(s, vId, iId, cId).contas[k].vendaId == Some(vId)
  {
    StoredItemsAt(iId, WithVendaId(vId, s.items));
  }

  /** The writes of `a` followed by those of `b`. */
  function Then(a: SeedWrites, b: SeedWrites): SeedWrites {
    SeedWrites(a.vendas + b.vendas, a.itens + b.itens, a.contas + b.contas)
  }

  /**
    What the passes over `ps` write when the serial counters start at `v0`,
    `i0` and `c0`: each pass takes the next id of each table.
  */
  function Written(ps: seq<PlannedSale>, v0: int, i0: int, c0: int): SeedWrites
    decreases |ps|
  {
    if ps == [] then SeedWrites([], [], [])
    else Next(Written(ps[..|ps| - 1], v0, i0, c0), ps[|ps| - 1], v0, i0, c0)
  }

  /** `w` followed by the pass for `s`, which takes the ids after those `w` used. */
  function Next(w: SeedWrites, s: PlannedSale, v0: int, i0: int, c0: int): SeedWrites {
    Then(w, Pass(s, v0 + |w.vendas|, i0 + |w.itens|, c0 + |w.contas|))
  }

  /** The passes over `done + [s]` are those over `done`, then the pass for `s`. */
  lemma WrittenSnoc(done: seq<PlannedSale>, s: PlannedSale, v0: int, i0: int, c0: int)
    ensures Written(done + [s], v0, i0, c0) == Next(Written(done, v0, i0, c0), s, v0, i0, c0)
  {
    assert (done + [s])[..|done|] == done;
  }

  /**
    One pass of the loop in terms of `Written`: appending what the pass for
    plan `s` writes, at the ids the counters reached, to the tables after the
    passes over `done` gives the tables after the passes over `done + [s]`.
  */
  lemma WrittenStep(done: seq<PlannedSale>, s: PlannedSale, v0: int, i0: int, c0: int, t0: SeedWrites, w: SeedWrites, p: SeedWrites)
    requires w == Written(done, v0, i0, c0)
    requires p == Pass(s, v0 + |w.vendas|, i0 + |w.itens|, c0 + |w.contas|)
    ensures Then(w, p) == Written(done + [s], v0, i0, c0)
    ensures Then(Then(t0, w), p) == Then(t0, Then(w, p))
  {
    assert Next(w, s, v0, i0, c0) == Then(w, p);
    WrittenSnoc(done, s, v0, i0, c0);
    Db.AppendAssoc(t0.vendas, w.vendas, p.vendas);
    Db.AppendAssoc(t0.itens, w.itens, p.itens);
    Db.AppendAssoc(t0.contas, w.contas, p.contas);
  }

  /** Growing a prefix by one element. */
  lemma PrefixStep<T>(xs: seq<T>, i: nat)
    requires i < |xs|
    ensures xs[..i + 1] == xs[..i] + [xs[i]]
  {
  }

  /** How many of the planned sales are paid by boleto. */
  function BoletoCount(ps: seq<PlannedSale>): nat {
    if ps == [] then 0
    else BoletoCount(ps[..|ps| - 1]) + (if ps[|ps| - 1].forma == Boleto then 1 else 0)
  }

  lemma NextSales(w: SeedWrites, ps: seq<PlannedSale>, s: PlannedSale, v0: int, i0: int, c0: int)
    requires |w.vendas| == |ps|
    requires forall i | 0 <= i < |ps| ::
               w.vendas[i] == SeedVenda(v0 + i, ps[i].clienteId, ps[i].usuarioId, ps[i].forma,
                                        SeedSubtotal(ps[i].items), ps[i].descontoDraw, ps[i].dataVenda)
    ensures var ps' := ps + [s];
            forall i | 0 <= i < |ps'| ::
              Next(w, s, v0, i0, c0).vendas[i]
                == SeedVenda(v0 + i, ps'[i].clienteId, ps'[i].usuarioId, ps'[i].forma,
                             SeedSubtotal(ps'[i].items), ps'[i].descontoDraw, ps'[i].dataVenda)
  {
    PassSpec(s, v0 + |w.vendas|, i0 + |w.itens|, c0 + |w.contas|);
  }

  /** Pass `i` creates the finalized sale with id `v0 + i` for plan `i`'s customer, seller, payment method and items. */
  lemma {:induction false} WrittenSales(ps: seq<PlannedSale>, v0: int, i0: int, c0: int)
    ensures |Written(ps, v0, i0, c0).vendas| == |ps|
    ensures forall i | 0 <= i < |ps| ::
              Written(ps, v0, i0, c0).vendas[i]
                == SeedVenda(v0 + i, ps[i].clienteId, ps[i].usuarioId, ps[i].forma,
                             SeedSubtotal(ps[i].items), ps[i].descontoDraw, ps[i].dataVenda)
    decreases |ps|
  {
    if ps != [] {
      var n := |ps| - 1;
      WrittenSales(ps[..n], v0, i0, c0);
      PrefixStep(ps, n);
      WrittenSnoc(ps[..n], ps[n], v0, i0, c0);
      NextSales(Written(ps[..n], v0, i0, c0), ps[..n], ps[n], v0, i0, c0);
    }
  }

  lemma NextItems(w: SeedWrites, m: nat, s: PlannedSale, v0: int, i0: int, c0: int)
    requires |w.vendas| == m
    requires forall k | 0 <= k < |w.itens| :: v0 <= w.itens[k].vendaId < v0 + m
    ensures forall k | 0 <= k < |Next(w, s, v0, i0, c0).itens| :: v0 <= Next(w, s, v0, i0, c0).itens[k].vendaId < v0 + m + 1
  {
    PassSpec(s, v0 + |w.vendas|, i0 + |w.itens|, c0 + |w.contas|);
  }

  /** Every item row the passes write belongs to one of the sales they create. */
  lemma {:induction false} WrittenItems(ps: seq<PlannedSale>, v0: int, i0: int, c0: int)
    ensures forall k | 0 <= k < |Written(ps, v0, i0, c0).itens| :: v0 <= Written(ps, v0, i0, c0).itens[k].vendaId < v0 + |ps|
    decreases |ps|
  {
    if ps != [] {
      var n := |ps| - 1;
      WrittenItems(ps[..n], v0, i0, c0);
      WrittenSales(ps[..n], v0, i0, c0);
      PrefixStep(ps, n);
      WrittenSnoc(ps[..n], ps[n], v0, i0, c0);
      NextItems(Written(ps[..n], v0, i0, c0), n, ps[n], v0, i0, c0);
    }
  }

  lemma NextContas(w: SeedWrites, m: nat, s: PlannedSale, v0: int, i0: int, c0: int)
    requires |w.vendas| == m
    requires forall k | 0 <= k < |w.contas| ::
               w.contas[k].status == Pendente && w.contas[k].vendaId.Some? && v0 <= w.contas[k].vendaId.value < v0 + m
    ensures |Next(w, s, v0, i0, c0).contas| == |w.contas| + (if s.forma == Boleto then 1 else 0)
    ensures forall k | 0 <= k < |Next(w, s, v0, i0, c0).contas| ::
              && Next(w, s, v0, i0, c0).contas[k].status == Pendente
              && Next(w, s, v0, i0, c0).contas[k].vendaId.Some?
              && v0 <= Next(w, s, v0, i0, c0).contas[k].vendaId.value < v0 + m + 1
  {
    PassSpec(s, v0 + |w.vendas|, i0 + |w.itens|, c0 + |w.contas|);
  }

  /** There is one receivable per boleto sale, pending and linked to one of the sales the passes create. */
  lemma {:induction false} WrittenContas(ps: seq<PlannedSale>, v0: int, i0: int, c0: int)
    ensures |Written(ps, v0, i0, c0).contas| == BoletoCount(ps)
    ensures forall k | 0 <= k < |Written(ps, v0, i0, c0).contas| ::
              && Written(ps, v0, i0, c0).contas[k].status == Pendente
              && Written(ps, v0, i0, c0).contas[k].vendaId.Some?
              && v0 <= Written(ps, v0, i0, c0).contas[k].vendaId.value < v0 + |ps|
    decreases |ps|
  {
    if ps != [] {
      var n := |ps| - 1;
      WrittenContas(ps[..n], v0, i0, c0);
      WrittenSales(ps[..n], v0, i0, c0);
      PrefixStep(ps, n);
      WrittenSnoc(ps[..n], ps[n], v0, i0, c0);
      NextContas(Written(ps[..n], v0, i0, c0), n, ps[n], v0, i0, c0);
    }
  }

  /** The three tables the sales loop writes to. */
  function Tables(db: Database): SeedWrites
    reads db
  {
    SeedWrites(db.vendas, db.itensVenda, db.contasReceber)
  }

  /** One pass of the sales loop: plan the sale from the draw, then write it. */
  method SeedSale(db: Database, clientes: seq<Cliente>, usuarios: seq<Usuario>, produtos: seq<Produto>, d: SaleDraw,
                  ghost s: PlannedSale, ghost vId: int, ghost iId: int, ghost cId: int)
    returns (v: Venda)
    requires db.Valid()
    requires DrawFits(d, |clientes|, |usuarios|, |produtos|) && s == Plan(clientes, usuarios, produtos, d)
    requires vId == db.nextVendaId && iId == db.nextItemId && cId == db.nextContaReceberId
    requires clientes[d.cliente].id in db.clientes && usuarios[d.usuario].id in db.UsuarioIds()
    requires forall k | 0 <= k < |produtos| :: produtos[k].id in db.produtos
    modifies db`vendas, db`nextVendaId, db`itensVenda, db`nextItemId, db`contasReceber, db`nextContaReceberId
    ensures db.Valid()
    ensures [v] == Pass(s, vId, iId, cId).vendas
    ensures Tables(db) == Then(old(Tables(db)), Pass(s, vId, iId, cId))
    ensures db.nextVendaId == vId + 1
    ensures db.nextItemId == iId + |Pass(s, vId, iId, cId).itens|
    ensures db.nextContaReceberId == cId + |Pass(s, vId, iId, cId).contas|
  {
    var items, subtotal := PlanSale(produtos, d);
    forall i | 0 <= i < |items| ensures items[i].produtoId in db.produtos {
      var k :| 0 <= k < |produtos| && produtos[k].id == items[i].produtoId;
    }
    v := WriteSale(db, clientes[d.cliente].id, usuarios[d.usuario].id, FormasPagamento[d.forma], items,
                   subtotal, d.descontoDraw, d.dataVenda, d.dataVencimento);
  }

  /**
    One turn of the sales loop: one more sale at the next ids, after which
    the tables hold `t0` followed by the writes of `done + [s]`.
  */
  method SeedStep(db: Database, clientes: seq<Cliente>, usuarios: seq<Usuario>, produtos: seq<Produto>, draws: seq<SaleDraw>, i: nat,
                  ghost ps: seq<PlannedSale>, ghost v0: int, ghost i0: int, ghost c0: int, ghost t0: SeedWrites, ghost w: SeedWrites)
    returns (v: Venda, ghost w1: SeedWrites)
    requires db.Valid() && i < |draws|
    requires forall k | 0 <= k < |clientes| :: clientes[k].id in db.clientes
    requires forall k | 0 <= k < |usuarios| :: usuarios[k].id in db.UsuarioIds()
    requires forall k | 0 <= k < |produtos| :: produtos[k].id in db.produtos
    requires AllFit(clientes, usuarios, produtos, draws) && ps == Plans(clientes, usuarios, produtos, draws)
    requires w == Written(ps[..i], v0, i0, c0) && Tables(db) == Then(t0, w)
    requires db.nextVendaId == v0 + |w.vendas| && db.nextItemId == i0 + |w.itens| && db.nextContaReceberId == c0 + |w.contas|
    modifies db`vendas, db`nextVendaId, db`itensVenda, db`nextItemId, db`contasReceber, db`nextContaReceberId
    ensures db.Valid()
    ensures w1 == Written(ps[..i + 1], v0, i0, c0) && w1.vendas == w.vendas + [v] && Tables(db) == Then(t0, w1)
    ensures db.nextVendaId == v0 + |w1.vendas| && db.nextItemId == i0 + |w1.itens| && db.nextContaReceberId == c0 + |w1.contas|
  {
    ghost var before := Tables(db);
    ghost var p := Pass(ps[i], db.nextVendaId, db.nextItemId, db.nextContaReceberId);
    v := SeedSale(db, clientes, usuarios, produtos, draws[i], ps[i], db.nextVendaId, db.nextItemId, db.nextContaReceberId);
    WrittenStep(ps[..i], ps[i], v0, i0, c0, t0, w, p);
    PrefixStep(ps, i);
    w1 := Then(w, p);
  }

  /**
    The `for i < 20` sales loop: it writes exactly `Written` of the draws'
    plans (sales, items and receivables, with the ids the serial counters
    hand out) and leaves the product stock as it was.
  */
  method SeedSales(db: Database, clientes: seq<Cliente>, usuarios: seq<Usuario>, produtos: seq<Produto>, draws: seq<SaleDraw>)
    returns (vendasCriadas: seq<Venda>)
    requires db.Valid() && |draws| == 20
    requires forall k | 0 <= k < |clientes| :: clientes[k].id in db.clientes
    requires forall k | 0 <= k < |usuarios| :: usuarios[k].id in db.UsuarioIds()
    requires forall k | 0 <= k < |produtos| :: produtos[k].id in db.produtos
    requires AllFit(clientes, usuarios, produtos, draws)
    modifies db`vendas, db`nextVendaId, db`itensVenda, db`nextItemId, db`contasReceber, db`nextContaReceberId
    ensures db.Valid()
    ensures vendasCriadas == Written(Plans(clientes, usuarios, produtos, draws), old(db.nextVendaId), old(db.nextItemId), old(db.nextContaReceberId)).vendas
    ensures db.vendas == old(db.vendas) + vendasCriadas
    ensures db.itensVenda == old(db.itensVenda) + Written(Plans(clientes, usuarios, produtos, draws), old(db.nextVendaId), old(db.nextItemId), old(db.nextContaReceberId)).itens
    ensures db.contasReceber == old(db.contasReceber) + Written(Plans(clientes, usuarios, produtos, draws), old(db.nextVendaId), old(db.nextItemId), old(db.nextContaReceberId)).contas
  {
    ghost var v0, i0, c0 := db.nextVendaId, db.nextItemId, db.nextContaReceberId;
    ghost var t0 := Tables(db);
    ghost var ps := Plans(clientes, usuarios, produtos, draws);
    ghost var w := SeedWrites([], [], []);
    vendasCriadas := [];
    for i := 0 to |draws|
      invariant w == Written(ps[..i], v0, i0, c0)
      invariant db.Valid()
      invariant vendasCriadas == w.vendas && Tables(db) == Then(t0, w)
      invariant db.nextVendaId == v0 + |w.vendas| && db.nextItemId == i0 + |w.itens| && db.nextContaReceberId == c0 + |w.contas|
    {
      var v;
      v, w := SeedStep(db, clientes, usuarios, produtos, draws, i, ps, v0, i0, c0, t0, w);
      vendasCriadas := vendasCriadas + [v];
    }
    assert ps[..|draws|] == ps;
  }

  /**
    The seeded sales in figures: 20 finalized sales, and one receivable per
    boleto draw, each pending and linked to one of the new sales.
  */
  lemma SeedSalesFigures(clientes: seq<Cliente>, usuarios: seq<Usuario>, produtos: seq<Produto>, draws: seq<SaleDraw>,
                         v0: int, i0: int, c0: int)
    requires AllFit(clientes, usuarios, produtos, draws) && |draws| == 20
    ensures var w := Written(Plans(clientes, usuarios, produtos, draws), v0, i0, c0);
            && |w.vendas| == 20
            && (forall i | 0 <= i < 20 :: w.vendas[i].status == Finalizada && w.vendas[i].id == v0 + i
                                         && w.vendas[i].clienteId == Some(clientes[draws[i].cliente].id))
            && |w.contas| == BoletoCount(Plans(clientes, usuarios, produtos, draws))
  {
    WrittenSales(Plans(clientes, usuarios, produtos, draws), v0, i0, c0);
    WrittenContas(Plans(clientes, usuarios, produtos, draws), v0, i0, c0);
  }

}
