/**
  GET /api/dashboard: every figure of the dashboard as a query over the
  tables. The calendar instants the handler computes with `Date` setters
  (start of this month, start and last day of the previous month, today's
  date) are given by the caller.
*/
module Dashboard {
  import opened Wrappers
  import opened Schema
  import opened Aggregates
  import Vendas
  import Validations

  /** The tables the queries read: keyed tables as maps by id, the others as row sequences. */
  datatype Tables = Tables(
    clientes: map<int, Cliente>,
    produtos: map<int, Produto>,
    fornecedores: map<int, Fornecedor>,
    vendas: seq<Venda>,
    itensVenda: seq<ItemVenda>,
    contasPagar: seq<ContaPagar>,
    contasReceber: seq<ContaReceber>)

  /**
    The instants of the handler's clock: `inicioMes` is the first instant of
    this month, `inicioMesAnterior` that of the previous month,
    `fimMesAnterior` midnight starting the previous month's last day
    (`setDate(0)` on the start of this month), and `hoje` today's date.
  */
  datatype Calendar = Calendar(inicioMes: int, inicioMesAnterior: int, fimMesAnterior: int, hoje: int)

  predicate CalendarOk(c: Calendar) {
    c.inicioMesAnterior <= c.fimMesAnterior < c.inicioMes
  }

  // ============================================================ active rows

  function ClienteAtivo(c: Cliente): bool {
    c.ativo
  }

  function ProdutoAtivo(p: Produto): bool {
    p.ativo
  }

  function FornecedorAtivo(f: Fornecedor): bool {
    f.ativo
  }

  // ============================================================== low stock

  /** An active product at or below its minimum stock. */
  predicate LowStock(p: Produto) {
    p.ativo && p.estoqueAtual <= p.estoqueMinimo
  }

  /** The number of active products whose stock is at or below their minimum. */
  function EstoqueBaixo(ps: map<int, Produto>): nat {
    CountKeyed(ps, LowStock)
  }

  /**
    A sale only lowers stock, so every product that was low on stock before
    it still is afterwards: the low-stock count never falls after a sale.
  */
  lemma SaleKeepsLowStock(ps: map<int, Produto>, itens: seq<Validations.ItemVendaInput>)
    requires forall i | 0 <= i < |itens| :: itens[i].quantidade >= 1.0
    ensures IdsWhere(ps, LowStock) <= IdsWhere(Vendas.StockAfter(ps, itens), LowStock)
    ensures EstoqueBaixo(ps) <= EstoqueBaixo(Vendas.StockAfter(ps, itens))
  {
    forall id | id in IdsWhere(ps, LowStock) ensures id in IdsWhere(Vendas.StockAfter(ps, itens), LowStock) {
      Vendas.StockAfterSpec(ps, itens, id);
      QtyForNonNegative(itens, id);
    }
    SubsetCard(IdsWhere(ps, LowStock), IdsWhere(Vendas.StockAfter(ps, itens), LowStock));
  }

  lemma {:induction false} QtyForNonNegative(itens: seq<Validations.ItemVendaInput>, p: int)
    requires forall i | 0 <= i < |itens| :: itens[i].quantidade >= 1.0
    ensures Vendas.QtyFor(itens, p) >= 0
  {
    if itens != [] {
      QtyForNonNegative(itens[..|itens| - 1], p);
    }
  }

  // ================================================================ revenue

  datatype Totais = Totais(total: real, quantidade: nat)

  function VendaTotal(v: Venda): real {
    v.total
  }

  /** COALESCE(SUM(total), 0) and COUNT(*) over the sales that pass `keep`. */
  function TotaisWhere(vs: seq<Venda>, keep: Venda -> bool): Totais {
    Totais(SumWhere(vs, keep, VendaTotal), Count(vs, keep))
  }

  predicate IsFinalizada(v: Venda) {
    v.status == Finalizada
  }

  /** Finalized and dated at or after `t`. */
  function Desde(t: int): Venda -> bool {
    (v: Venda) => v.status == Finalizada && v.dataVenda >= t
  }

  /** Finalized and dated in the closed interval [a, b]. */
  function Entre(a: int, b: int): Venda -> bool {
    (v: Venda) => v.status == Finalizada && a <= v.dataVenda <= b
  }

  /** Finalized and dated in the half-open interval [a, b). */
  function Janela(a: int, b: int): Venda -> bool {
    (v: Venda) => v.status == Finalizada && a <= v.dataVenda < b
  }

  /** This month's finalized sales. */
  function VendasMes(vs: seq<Venda>, c: Calendar): Totais {
    TotaisWhere(vs, Desde(c.inicioMes))
  }

  /**
    The previous month's figure as the handler writes it: the window closes at
    midnight starting that month's last day.
  */
  function VendasMesAnteriorAsWritten(vs: seq<Venda>, c: Calendar): Totais {
    TotaisWhere(vs, Entre(c.inicioMesAnterior, c.fimMesAnterior))
  }

  /** The previous month's finalized sales: every instant from its start up to this month's start. */
  function VendasMesAnterior(vs: seq<Venda>, c: Calendar): Totais {
    TotaisWhere(vs, Janela(c.inicioMesAnterior, c.inicioMes))
  }

  /**
    A finalized sale made during the previous month's last day, after
    midnight, is counted in neither month by the handler's windows, although
    it lies after the previous month's start.
  */
  lemma LastDayLost(c: Calendar, v: Venda)
    requires CalendarOk(c)
    requires v.status == Finalizada && c.fimMesAnterior < v.dataVenda < c.inicioMes
    ensures VendasMes([v], c).quantidade == 0 && VendasMesAnteriorAsWritten([v], c).quantidade == 0
    ensures TotaisWhere([v], Desde(c.inicioMesAnterior)) == Totais(v.total, 1)
  {
    assert [v][..0] == [];
    assert Filter([v], Desde(c.inicioMes)) == [];
    assert Filter([v], Entre(c.inicioMesAnterior, c.fimMesAnterior)) == [];
    assert Filter([v], Desde(c.inicioMesAnterior)) == [v];
  }

  /**
    With the corrected window the two months partition the finalized sales
    since the previous month's start: revenue and count both add up.
  */
  lemma MonthsPartition(vs: seq<Venda>, c: Calendar)
    requires CalendarOk(c)
    ensures TotaisWhere(vs, Desde(c.inicioMesAnterior)).total == VendasMes(vs, c).total + VendasMesAnterior(vs, c).total
    ensures TotaisWhere(vs, Desde(c.inicioMesAnterior)).quantidade == VendasMes(vs, c).quantidade + VendasMesAnterior(vs, c).quantidade
  {
    SumWhereSplit(vs, Desde(c.inicioMesAnterior), Desde(c.inicioMes), Janela(c.inicioMesAnterior, c.inicioMes), VendaTotal);
  }

  /** All finalized sales, whatever their date. */
  function VendasGeral(vs: seq<Venda>): Totais {
    TotaisWhere(vs, IsFinalizada)
  }

  /** A sale of any other status leaves the finalized totals as they were. */
  lemma OnlyFinalizedCount(vs: seq<Venda>, v: Venda)
    requires v.status != Finalizada
    ensures VendasGeral(vs + [v]) == VendasGeral(vs)
  {
    FilterAppend(vs, [v], IsFinalizada);
    assert [v][..0] == [];
    assert Filter(vs + [v], IsFinalizada) == Filter(vs, IsFinalizada);
  }

  /**
    `variacaoVendas`: 0 unless last month's revenue is positive; otherwise the
    percentage change, which is positive exactly when this month sold more.
  */
  function Variacao(atual: real, anterior: real): (r: real)
    ensures anterior <= 0.0 ==> r == 0.0
    ensures anterior > 0.0 ==> r * anterior == (atual - anterior) * 100.0
    ensures anterior > 0.0 ==> (r > 0.0 <==> atual > anterior) && (r == 0.0 <==> atual == anterior)
  {
    if anterior > 0.0 then ((atual - anterior) / anterior) * 100.0 else 0.0
  }

  /** `ticketMedio`: 0 with no finalized sale, otherwise revenue per sale. */
  function TicketMedio(t: Totais): (r: real)
    ensures t.quantidade == 0 ==> r == 0.0
    ensures t.quantidade > 0 ==> r * t.quantidade as real == t.total
  {
    if t.quantidade > 0 then t.total / t.quantidade as real else 0.0
  }

  /** The average ticket lies between the smallest and the largest finalized sale. */
  lemma TicketMedioBetween(vs: seq<Venda>, lo: real, hi: real)
    requires VendasGeral(vs).quantidade > 0
    requires forall v | v in vs && v.status == Finalizada :: lo <= v.total <= hi
    ensures lo <= TicketMedio(VendasGeral(vs)) <= hi
  {
    var rows := Filter(vs, IsFinalizada);
    assert Times(|rows|, lo) <= Sum(rows, VendaTotal) <= Times(|rows|, hi) by {
      FinalizadasBounded(vs, lo, hi);
      SumBounds(rows, VendaTotal, lo, hi);
    }
    MeanBetween(Sum(rows, VendaTotal), |rows|, lo, hi);
  }

  lemma FinalizadasBounded(vs: seq<Venda>, lo: real, hi: real)
    requires forall v | v in vs && v.status == Finalizada :: lo <= v.total <= hi
    ensures forall x | x in Filter(vs, IsFinalizada) :: lo <= VendaTotal(x) <= hi
  {
    forall x | x in Filter(vs, IsFinalizada) ensures lo <= VendaTotal(x) <= hi {
      assert x in vs && IsFinalizada(x);
    }
  }

  /** A total between `lo` and `hi` taken `n` times, divided by `n`, lies between `lo` and `hi`. */
  lemma MeanBetween(total: real, n: nat, lo: real, hi: real)
    requires n > 0 && Times(n, lo) <= total <= Times(n, hi)
    ensures lo <= total / n as real <= hi
  {
    var m := n as real;
    assert m * lo <= total <= m * hi by {
      TimesIsProduct(n, lo);
      TimesIsProduct(n, hi);
    }
    var t := total / m;
    assert t * m == total;
    if t < lo {
      Vendas.MulRealStrict(t, lo, m);
    }
    if t > hi {
      Vendas.MulRealStrict(hi, t, m);
    }
  }

  // ============================================================== accounts

  function PagarPendente(c: ContaPagar): bool {
    c.status == Pendente
  }

  function ReceberPendente(c: ContaReceber): bool {
    c.status == Pendente
  }

  function ValorPagar(c: ContaPagar): real {
    c.valor
  }

  function ValorReceber(c: ContaReceber): real {
    c.valor
  }

  function TotalPagar(cs: seq<ContaPagar>): real {
    SumWhere(cs, PagarPendente, ValorPagar)
  }

  function TotalReceber(cs: seq<ContaReceber>): real {
    SumWhere(cs, ReceberPendente, ValorReceber)
  }

  /** `saldo`: pending receivables minus pending payables. */
  function Saldo(pagar: seq<ContaPagar>, receber: seq<ContaReceber>): real {
    TotalReceber(receber) - TotalPagar(pagar)
  }

  /**
    Only pending accounts move the balance: a payable adds nothing unless
    pending, when it lowers the balance by its value; a receivable likewise
    raises it.
  */
  lemma SaldoOnlyPending(pagar: seq<ContaPagar>, receber: seq<ContaReceber>, p: ContaPagar, r: ContaReceber)
    ensures Saldo(pagar + [p], receber) == Saldo(pagar, receber) - (if p.status == Pendente then p.valor else 0.0)
    ensures Saldo(pagar, receber + [r]) == Saldo(pagar, receber) + (if r.status == Pendente then r.valor else 0.0)
  {
    TotalPagarAppend(pagar, p);
    TotalReceberAppend(receber, r);
  }

  lemma TotalPagarAppend(pagar: seq<ContaPagar>, p: ContaPagar)
    ensures TotalPagar(pagar + [p]) == TotalPagar(pagar) + (if p.status == Pendente then p.valor else 0.0)
  {
    FilterAppend(pagar, [p], PagarPendente);
    SumAppend(Filter(pagar, PagarPendente), Filter([p], PagarPendente), ValorPagar);
    assert [p][..0] == [];
  }

  lemma TotalReceberAppend(receber: seq<ContaReceber>, r: ContaReceber)
    ensures TotalReceber(receber + [r]) == TotalReceber(receber) + (if r.status == Pendente then r.valor else 0.0)
  {
    FilterAppend(receber, [r], ReceberPendente);
    SumAppend(Filter(receber, ReceberPendente), Filter([r], ReceberPendente), ValorReceber);
    assert [r][..0] == [];
  }

  /** Pending and due between today and seven days later, both ends included. */
  function PagarVence(hoje: int): ContaPagar -> bool {
    (c: ContaPagar) => c.status == Pendente && hoje <= c.dataVencimento <= hoje + 7
  }

  function ReceberVence(hoje: int): ContaReceber -> bool {
    (c: ContaReceber) => c.status == Pendente && hoje <= c.dataVencimento <= hoje + 7
  }

  function PagarPendenteFora(hoje: int): ContaPagar -> bool {
    (c: ContaPagar) => c.status == Pendente && !(hoje <= c.dataVencimento <= hoje + 7)
  }

  function ReceberPendenteFora(hoje: int): ContaReceber -> bool {
    (c: ContaReceber) => c.status == Pendente && !(hoje <= c.dataVencimento <= hoje + 7)
  }

  datatype AVencer = AVencer(quantidade: nat, valor: real)

  function PagarAVencer(cs: seq<ContaPagar>, hoje: int): AVencer {
    AVencer(Count(cs, PagarVence(hoje)), SumWhere(cs, PagarVence(hoje), ValorPagar))
  }

  function ReceberAVencer(cs: seq<ContaReceber>, hoje: int): AVencer {
    AVencer(Count(cs, ReceberVence(hoje)), SumWhere(cs, ReceberVence(hoje), ValorReceber))
  }

  /**
    The payables due within the week are part of the pending payables: their
    value plus that of the other pending ones is the pending total.
  */
  lemma AVencerWithinPending(cs: seq<ContaPagar>, hoje: int)
    ensures PagarAVencer(cs, hoje).valor + SumWhere(cs, PagarPendenteFora(hoje), ValorPagar) == TotalPagar(cs)
    ensures PagarAVencer(cs, hoje).quantidade <= Count(cs, PagarPendente)
  {
    SumWhereSplit(cs, PagarPendente, PagarVence(hoje), PagarPendenteFora(hoje), ValorPagar);
  }

  /**
    The receivables due within the week are part of the pending receivables:
    their value plus that of the other pending ones is the pending total.
  */
  lemma ReceberAVencerWithinPending(cs: seq<ContaReceber>, hoje: int)
    ensures ReceberAVencer(cs, hoje).valor + SumWhere(cs, ReceberPendenteFora(hoje), ValorReceber) == TotalReceber(cs)
    ensures ReceberAVencer(cs, hoje).quantidade <= Count(cs, ReceberPendente)
  {
    SumWhereSplit(cs, ReceberPendente, ReceberVence(hoje), ReceberPendenteFora(hoje), ValorReceber);
  }

  // ========================================================== top products

  datatype ProdutoVendido = ProdutoVendido(produtoId: int, nome: string, totalVendido: int, valorTotal: real)

  function ProdutoDe(it: ItemVenda): int {
    it.produtoId
  }

  function Quantidade(it: ItemVenda): int {
    it.quantidade
  }

  function ItemSubtotal(it: ItemVenda): real {
    it.subtotal
  }

  function Vendido(p: ProdutoVendido): int {
    p.totalVendido
  }

  /** The inner join with `produtos`: an item whose product row exists. */
  function ComProduto(produtos: map<int, Produto>): ItemVenda -> bool {
    (it: ItemVenda) => it.produtoId in produtos
  }

  /** One grouped row per listed product: its name, Σ quantidade and Σ subtotal over `rows`. */
  function Grouped(rows: seq<ItemVenda>, ks: seq<int>, produtos: map<int, Produto>): (r: seq<ProdutoVendido>)
    requires forall i | 0 <= i < |ks| :: ks[i] in produtos
    ensures |r| == |ks|
    ensures forall i | 0 <= i < |ks| ::
              r[i] == ProdutoVendido(ks[i], produtos[ks[i]].nome, GroupSumInt(rows, ProdutoDe, ks[i], Quantidade),
                                     GroupSum(rows, ProdutoDe, ks[i], ItemSubtotal))
  {
    if ks == [] then []
    else
      var k := ks[|ks| - 1];
      Grouped(rows, ks[..|ks| - 1], produtos)
        + [ProdutoVendido(k, produtos[k].nome, GroupSumInt(rows, ProdutoDe, k, Quantidade), GroupSum(rows, ProdutoDe, k, ItemSubtotal))]
  }

  /**
    GROUP BY produtoId, produtos.nome over item rows already joined with
    `produtos`, in order of first sale.
  */
  function Ranking(rows: seq<ItemVenda>, produtos: map<int, Produto>): seq<ProdutoVendido>
    requires forall it | it in rows :: it.produtoId in produtos
  {
    var ks := Keys(rows, ProdutoDe);
    forall i | 0 <= i < |ks| ensures ks[i] in produtos {
      KeysSpec(rows, ProdutoDe, ks[i]);
    }
    Grouped(rows, ks, produtos)
  }

  /** Every grouped row is a product that exists, with its name and the quantity summed over its rows. */
  lemma RankingEntry(rows: seq<ItemVenda>, produtos: map<int, Produto>, e: ProdutoVendido)
    requires forall it | it in rows :: it.produtoId in produtos
    requires e in Ranking(rows, produtos)
    ensures e.produtoId in produtos && e.nome == produtos[e.produtoId].nome
    ensures e.totalVendido == GroupSumInt(rows, ProdutoDe, e.produtoId, Quantidade)
  {
    var ks := Keys(rows, ProdutoDe);
    var all := Ranking(rows, produtos);
    var i :| 0 <= i < |all| && all[i] == e;
    KeysSpec(rows, ProdutoDe, ks[i]);
  }

  /** The dashboard groups every item whose product exists, whatever its sale's status. */
  function VendidosPorProduto(itens: seq<ItemVenda>, produtos: map<int, Produto>): seq<ProdutoVendido> {
    Ranking(Filter(itens, ComProduto(produtos)), produtos)
  }

  /** `produtosMaisVendidos`: the five products with the largest quantity sold, over every sale. */
  function MaisVendidos(itens: seq<ItemVenda>, produtos: map<int, Produto>): seq<ProdutoVendido> {
    Top(VendidosPorProduto(itens, produtos), Vendido, 5)
  }

  /** Joining with `produtos` drops no item of an existing product from its group. */
  lemma {:induction false} JoinKeepsGroup(itens: seq<ItemVenda>, produtos: map<int, Produto>, k: int)
    requires k in produtos
    ensures GroupSumInt(Filter(itens, ComProduto(produtos)), ProdutoDe, k, Quantidade) == GroupSumInt(itens, ProdutoDe, k, Quantidade)
  {
    if itens != [] {
      var front, last := itens[..|itens| - 1], itens[|itens| - 1];
      JoinKeepsGroup(front, produtos, k);
      var rows := Filter(itens, ComProduto(produtos));
      if last.produtoId in produtos {
        assert rows == Filter(front, ComProduto(produtos)) + [last];
        assert rows[..|rows| - 1] == Filter(front, ComProduto(produtos));
      } else {
        assert rows == Filter(front, ComProduto(produtos));
      }
    }
  }

  /**
    At most five rows, largest quantity first, each a product that exists with
    its name and the quantity sold over all sales whatever their status; a
    product left out sold no more than any product listed.
  */
  lemma MaisVendidosSpec(itens: seq<ItemVenda>, produtos: map<int, Produto>)
    ensures |MaisVendidos(itens, produtos)| <= 5
    ensures |MaisVendidos(itens, produtos)| == Min(5, |VendidosPorProduto(itens, produtos)|)
    ensures SortedDesc(MaisVendidos(itens, produtos), Vendido)
    ensures forall e | e in MaisVendidos(itens, produtos) ::
              && e.produtoId in produtos && e.nome == produtos[e.produtoId].nome
              && e.totalVendido == GroupSumInt(itens, ProdutoDe, e.produtoId, Quantidade)
    ensures forall x, y | x in VendidosPorProduto(itens, produtos) && x !in MaisVendidos(itens, produtos)
                          && y in MaisVendidos(itens, produtos) :: y.totalVendido >= x.totalVendido
  {
    var all := VendidosPorProduto(itens, produtos);
    var top := MaisVendidos(itens, produtos);
    TopSpec(all, Vendido, 5);
    forall e | e in top
      ensures && e.produtoId in produtos && e.nome == produtos[e.produtoId].nome
              && e.totalVendido == GroupSumInt(itens, ProdutoDe, e.produtoId, Quantidade)
    {
      RankingEntry(Filter(itens, ComProduto(produtos)), produtos, e);
      JoinKeepsGroup(itens, produtos, e.produtoId);
    }
    forall x, y | x in all && x !in top && y in top ensures y.totalVendido >= x.totalVendido {
      assert Vendido(y) >= Vendido(x);
    }
  }

  // ========================================================== recent sales

  datatype VendaRecente = VendaRecente(
    id: int, clienteId: Option<int>, total: real, dataVenda: int,
    formaPagamento: Option<FormaPagamento>, clienteNome: string)

  const VendaSemCliente := "Venda sem cliente"
  const ClienteNaoEncontrado := "Cliente não encontrado"

  /**
    `clienteNome`: a missing or zero customer id gives 'Venda sem cliente'; an
    id that finds no customer, or one with an empty name, gives 'Cliente não
    encontrado'.
  */
  function ClienteNome(clientes: map<int, Cliente>, clienteId: Option<int>): (r: string)
    ensures clienteId.None? || clienteId == Some(0) ==> r == VendaSemCliente
    ensures clienteId.Some? && clienteId.value != 0 ==>
              if clienteId.value in clientes && clientes[clienteId.value].nome != ""
              then r == clientes[clienteId.value].nome
              else r == ClienteNaoEncontrado
  {
    match clienteId
    case None => VendaSemCliente
    case Some(id) =>
      if id == 0 then VendaSemCliente
      else if id in clientes && clientes[id].nome != "" then clientes[id].nome
      else ClienteNaoEncontrado
  }

  function DataVenda(v: Venda): int {
    v.dataVenda
  }

  function Recente(clientes: map<int, Cliente>, v: Venda): VendaRecente {
    VendaRecente(v.id, v.clienteId, v.total, v.dataVenda, v.formaPagamento, ClienteNome(clientes, v.clienteId))
  }

  /** The three newest finalized sales, newest first. */
  function UltimasFinalizadas(vs: seq<Venda>): seq<Venda> {
    Top(Filter(vs, IsFinalizada), DataVenda, 3)
  }

  /** `vendasRecentes`: the three newest finalized sales with their customer's name. */
  function Recentes(vs: seq<Venda>, clientes: map<int, Cliente>): (r: seq<VendaRecente>)
    ensures |r| == |UltimasFinalizadas(vs)| <= 3
    ensures forall i | 0 <= i < |r| ::
              var v := UltimasFinalizadas(vs)[i];
              && r[i].id == v.id && r[i].clienteId == v.clienteId && r[i].total == v.total
              && r[i].dataVenda == v.dataVenda && r[i].formaPagamento == v.formaPagamento
              && r[i].clienteNome == ClienteNome(clientes, v.clienteId)
  {
    var top := UltimasFinalizadas(vs);
    seq(|top|, i requires 0 <= i < |top| => Recente(clientes, top[i]))
  }

  /**
    Each recent sale is a finalized sale, newest first, and no finalized sale
    left out is newer than one shown.
  */
  lemma RecentesSpec(vs: seq<Venda>)
    ensures forall v | v in UltimasFinalizadas(vs) :: v in vs && v.status == Finalizada
    ensures SortedDesc(UltimasFinalizadas(vs), DataVenda)
    ensures forall v, w | v in vs && v.status == Finalizada && v !in UltimasFinalizadas(vs) && w in UltimasFinalizadas(vs) ::
              w.dataVenda >= v.dataVenda
  {
    var rows := Filter(vs, IsFinalizada);
    var top := UltimasFinalizadas(vs);
    TopSpec(rows, DataVenda, 3);
    forall v, w | v in vs && v.status == Finalizada && v !in top && w in top ensures w.dataVenda >= v.dataVenda {
      FilterComplete(vs, IsFinalizada);
      assert IsFinalizada(v);
      assert v in rows;
      assert DataVenda(w) >= DataVenda(v);
    }
  }

  // ====================================================== payment breakdown

  datatype PorPagamento = PorPagamento(formaPagamento: Option<FormaPagamento>, count: nat, total: real)

  function Forma(v: Venda): Option<FormaPagamento> {
    v.formaPagamento
  }

  function PagamentoTotal(p: PorPagamento): real {
    p.total
  }

  function PagamentoGroups(rows: seq<Venda>, ks: seq<Option<FormaPagamento>>): (r: seq<PorPagamento>)
    ensures |r| == |ks|
  {
    if ks == [] then []
    else
      var k := ks[|ks| - 1];
      PagamentoGroups(rows, ks[..|ks| - 1]) + [PorPagamento(k, GroupCount(rows, Forma, k), GroupSum(rows, Forma, k, VendaTotal))]
  }

  /** GROUP BY formaPagamento over the given sale rows (null is a group of its own). */
  function Pagamentos(rows: seq<Venda>): seq<PorPagamento> {
    PagamentoGroups(rows, Keys(rows, Forma))
  }

  /** `vendasPorPagamento`: the finalized sales grouped by payment method. */
  function PorFormaPagamento(vs: seq<Venda>): seq<PorPagamento> {
    Pagamentos(Filter(vs, IsFinalizada))
  }

  lemma {:induction false} PagamentoGroupsSum(rows: seq<Venda>, ks: seq<Option<FormaPagamento>>)
    ensures Sum(PagamentoGroups(rows, ks), PagamentoTotal) == SumOfGroups(rows, Forma, ks, VendaTotal)
  {
    if ks != [] {
      var front := ks[..|ks| - 1];
      PagamentoGroupsSum(rows, front);
      var g := PagamentoGroups(rows, ks);
      assert g[..|g| - 1] == PagamentoGroups(rows, front);
    }
  }

  /** The per-method totals add up to the total of the rows grouped. */
  lemma PagamentosAddUp(rows: seq<Venda>)
    ensures Sum(Pagamentos(rows), PagamentoTotal) == Sum(rows, VendaTotal)
  {
    PagamentoGroupsSum(rows, Keys(rows, Forma));
    GroupsPartition(rows, Forma, VendaTotal);
  }

  /** On the dashboard they add up to the overall finalized revenue. */
  lemma PorFormaPagamentoAddsUp(vs: seq<Venda>)
    ensures Sum(PorFormaPagamento(vs), PagamentoTotal) == VendasGeral(vs).total
  {
    PagamentosAddUp(Filter(vs, IsFinalizada));
  }

  // ================================================================== GET

  datatype Stats = Stats(
    totalClientes: nat, totalProdutos: nat, estoqueBaixo: nat, totalFornecedores: nat,
    vendasMes: Totais, variacao: real, mesAnterior: real,
    vendasGeral: Totais, ticketMedio: real,
    saldo: real, contasPagar: real, contasReceber: real,
    pagarAVencer: AVencer, receberAVencer: AVencer)

  datatype DashboardData = DashboardData(
    stats: Stats, vendasRecentes: seq<VendaRecente>,
    produtosMaisVendidos: seq<ProdutoVendido>, vendasPorPagamento: seq<PorPagamento>)

  /** The whole response, with the previous month taken over the corrected window. */
  function Get(t: Tables, c: Calendar): DashboardData {
    var mes := VendasMes(t.vendas, c);
    var anterior := VendasMesAnterior(t.vendas, c);
    var geral := VendasGeral(t.vendas);
    DashboardData(
      Stats(CountKeyed(t.clientes, ClienteAtivo), CountKeyed(t.produtos, ProdutoAtivo), EstoqueBaixo(t.produtos),
            CountKeyed(t.fornecedores, FornecedorAtivo),
            mes, Variacao(mes.total, anterior.total), anterior.total,
            geral, TicketMedio(geral),
            Saldo(t.contasPagar, t.contasReceber), TotalPagar(t.contasPagar), TotalReceber(t.contasReceber),
            PagarAVencer(t.contasPagar, c.hoje), ReceberAVencer(t.contasReceber, c.hoje)),
      Recentes(t.vendas, t.clientes),
      MaisVendidos(t.itensVenda, t.produtos),
      PorFormaPagamento(t.vendas))
  }
}
