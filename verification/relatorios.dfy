/**
  GET /api/relatorios: the reports page. The `periodo` query parameter picks
  how many months back the window opens; monthly revenue, the top products,
  the payment-method chart and the summary counts are queries over the tables
  restricted to finalized sales.
*/
module Relatorios {
  import opened Wrappers
  import opened Schema
  import opened Aggregates
  import Dashboard

  // ================================================================ period

  /** `periodo` falls back to '6m' when missing or empty; '3m' and '12m' pick 3 and 12 months, anything else 6. */
  function MesesAtras(periodo: Option<string>): (n: nat)
    ensures n in {3, 6, 12}
    ensures n == 3 <==> periodo == Some("3m")
    ensures n == 12 <==> periodo == Some("12m")
  {
    var p := if periodo.None? || periodo.value == "" then "6m" else periodo.value;
    var meses := 6;
    var meses := if p == "3m" then 3 else meses;
    if p == "12m" then 12 else meses
  }

  // ============================================================== calendar

  /** A calendar date; `mes` counts from 1. */
  datatype Data = Data(ano: int, mes: int, dia: int)

  predicate Bissexto(ano: int) {
    ano % 4 == 0 && (ano % 100 != 0 || ano % 400 == 0)
  }

  function DiasNoMes(ano: int, mes: int): (n: int)
    requires 1 <= mes <= 12
    ensures 28 <= n <= 31
  {
    if mes == 2 then (if Bissexto(ano) then 29 else 28)
    else if mes in {4, 6, 9, 11} then 30
    else 31
  }

  predicate DataValida(d: Data) {
    1 <= d.mes <= 12 && 1 <= d.dia <= DiasNoMes(d.ano, d.mes)
  }

  /** Months since year 0: consecutive months have consecutive indexes. */
  function MesIndex(ano: int, mes: int): int {
    ano * 12 + (mes - 1)
  }

  /** The month with the given index, and the inverse of `MesIndex`. */
  function DoIndex(i: int): (r: (int, int))
    ensures 1 <= r.1 <= 12 && MesIndex(r.0, r.1) == i
  {
    (i / 12, i % 12 + 1)
  }

  /**
    `Date.setMonth(m)` with `m` counted from 0 and possibly outside 0..11: the
    year absorbs the overflow and the day is kept; a day past the end of the
    target month rolls over into the following month.
  */
  function SetMonth(d: Data, m: int): (r: Data)
    requires DataValida(d)
    ensures DataValida(r)
  {
    var (ano, mes) := DoIndex(d.ano * 12 + m);
    var dias := DiasNoMes(ano, mes);
    if d.dia <= dias then Data(ano, mes, d.dia)
    else
      var (ano', mes') := DoIndex(d.ano * 12 + m + 1);
      Data(ano', mes', d.dia - dias)
  }

  /** The window's first day as the handler computes it: `setMonth(getMonth() - k)`, then `setDate(1)`. */
  function DataInicialAsWritten(hoje: Data, k: nat): Data
    requires DataValida(hoje)
  {
    SetMonth(hoje, hoje.mes - 1 - k).(dia := 1)
  }

  /** The first day of the month `k` months before today's. */
  function DataInicial(hoje: Data, k: nat): (r: Data)
    ensures DataValida(r) && r.dia == 1
    ensures MesIndex(r.ano, r.mes) == MesIndex(hoje.ano, hoje.mes) - k
  {
    var (ano, mes) := DoIndex(MesIndex(hoje.ano, hoje.mes) - k);
    Data(ano, mes, 1)
  }

  /** Up to the 28th of the month the handler's window starts where it should. */
  lemma AsWrittenAgreesEarlyInMonth(hoje: Data, k: nat)
    requires DataValida(hoje) && hoje.dia <= 28
    ensures DataInicialAsWritten(hoje, k) == DataInicial(hoje, k)
  {
  }

  /**
    On 31 August 2024 the six-month window should open on 1 February, but
    `setMonth` first lands on 31 February, which rolls over to 2 March, so
    the handler opens it on 1 March and drops February from the report.
  */
  lemma LastDaysSkipAMonth()
    ensures DataInicial(Data(2024, 8, 31), 6) == Data(2024, 2, 1)
    ensures DataInicialAsWritten(Data(2024, 8, 31), 6) == Data(2024, 3, 1)
  {
  }

  // ========================================================= monthly sales

  /** EXTRACT(YEAR ...), EXTRACT(MONTH ...) of a timestamp, in the database's time zone. */
  datatype AnoMes = AnoMes(ano: int, mes: int)

  datatype VendaMensal = VendaMensal(mes: Option<string>, vendas: nat, receita: real)

  const NomesMeses: seq<string> := ["Jan", "Fev", "Mar", "Abr", "Mai", "Jun", "Jul", "Ago", "Set", "Out", "Nov", "Dez"]

  /** `nomesMeses[m - 1]`: a name for months 1 to 12, undefined otherwise. */
  function MonthName(m: int): (r: Option<string>)
    ensures r.Some? <==> 1 <= m <= 12
    ensures r.Some? ==> r.value == NomesMeses[m - 1] && |r.value| == 3
  {
    if 1 <= m <= 12 then Some(NomesMeses[m - 1]) else None
  }

  /** The month a sale falls in. */
  function MesDaVenda(anoMes: int -> AnoMes): Venda -> AnoMes {
    (v: Venda) => anoMes(v.dataVenda)
  }

  /** ORDER BY ano, mes: ascending month index, written as a descending sort on its negation. */
  function Cronologico(k: AnoMes): int {
    -MesIndex(k.ano, k.mes)
  }

  function Receita(v: VendaMensal): real {
    v.receita
  }

  function MonthlyRows(rows: seq<Venda>, key: Venda -> AnoMes, ks: seq<AnoMes>): (r: seq<VendaMensal>)
    ensures |r| == |ks|
    ensures forall i | 0 <= i < |ks| ::
              r[i] == VendaMensal(MonthName(ks[i].mes), GroupCount(rows, key, ks[i]), GroupSum(rows, key, ks[i], Dashboard.VendaTotal))
  {
    if ks == [] then []
    else
      var k := ks[|ks| - 1];
      MonthlyRows(rows, key, ks[..|ks| - 1])
        + [VendaMensal(MonthName(k.mes), GroupCount(rows, key, k), GroupSum(rows, key, k, Dashboard.VendaTotal))]
  }

  /** The months present among the finalized sales of the window, oldest first. */
  function Meses(vs: seq<Venda>, dataInicial: int, anoMes: int -> AnoMes): seq<AnoMes> {
    SortDesc(Keys(Filter(vs, Dashboard.Desde(dataInicial)), MesDaVenda(anoMes)), Cronologico)
  }

  /** `vendasMensais`: per month of the window, the number of finalized sales and their revenue. */
  function VendasMensais(vs: seq<Venda>, dataInicial: int, anoMes: int -> AnoMes): seq<VendaMensal> {
    MonthlyRows(Filter(vs, Dashboard.Desde(dataInicial)), MesDaVenda(anoMes), Meses(vs, dataInicial, anoMes))
  }

  lemma {:induction false} MonthlyRowsSum(rows: seq<Venda>, key: Venda -> AnoMes, ks: seq<AnoMes>)
    ensures Sum(MonthlyRows(rows, key, ks), Receita) == Sum(ks, GroupTotal(rows, key, Dashboard.VendaTotal))
  {
    if ks != [] {
      MonthlyRowsSum(rows, key, ks[..|ks| - 1]);
      var r := MonthlyRows(rows, key, ks);
      assert r[..|r| - 1] == MonthlyRows(rows, key, ks[..|ks| - 1]);
    }
  }

  /**
    The months come oldest first, each month some sale of the window falls in
    is listed exactly once and no other is, and their revenues add up to the
    revenue of the window.
  */
  lemma VendasMensaisSpec(vs: seq<Venda>, dataInicial: int, anoMes: int -> AnoMes)
    ensures var ms := Meses(vs, dataInicial, anoMes);
            forall i, j | 0 <= i < j < |ms| :: MesIndex(ms[i].ano, ms[i].mes) <= MesIndex(ms[j].ano, ms[j].mes)
    ensures forall k | k in Meses(vs, dataInicial, anoMes) ::
              exists v | v in vs :: Dashboard.Desde(dataInicial)(v) && anoMes(v.dataVenda) == k
    ensures forall v | v in vs && Dashboard.Desde(dataInicial)(v) :: anoMes(v.dataVenda) in Meses(vs, dataInicial, anoMes)
    ensures var ms := Meses(vs, dataInicial, anoMes);
            forall i, j | 0 <= i < j < |ms| :: ms[i] != ms[j]
    ensures Sum(VendasMensais(vs, dataInicial, anoMes), Receita) == Dashboard.TotaisWhere(vs, Dashboard.Desde(dataInicial)).total
  {
    var rows := Filter(vs, Dashboard.Desde(dataInicial));
    var key := MesDaVenda(anoMes);
    var ks := Keys(rows, key);
    var ms := Meses(vs, dataInicial, anoMes);
    SortDescSorted(ks, Cronologico);
    assert forall i, j | 0 <= i < j < |ms| :: Cronologico(ms[i]) >= Cronologico(ms[j]);
    forall k | k in ms ensures exists v | v in vs :: Dashboard.Desde(dataInicial)(v) && anoMes(v.dataVenda) == k {
      assert k in multiset(ms);
      KeysSpec(rows, key, k);
      var v :| v in rows && key(v) == k;
    }
    FilterComplete(vs, Dashboard.Desde(dataInicial));
    forall v | v in vs && Dashboard.Desde(dataInicial)(v) ensures anoMes(v.dataVenda) in ms {
      KeysSpec(rows, key, key(v));
      assert key(v) in multiset(ks);
    }
    SortDescDistinct(ks, Cronologico);
    MonthlyRowsSum(rows, key, ms);
    SumSortDesc(ks, Cronologico, GroupTotal(rows, key, Dashboard.VendaTotal));
    SumOfGroupsAsSum(rows, key, ks, Dashboard.VendaTotal);
    GroupsPartition(rows, key, Dashboard.VendaTotal);
  }

  // ========================================================= top products

  /** The inner joins with `produtos` and `vendas`, restricted to finalized sales of the window. */
  function NoPeriodo(produtos: map<int, Produto>, vendas: seq<Venda>, dataInicial: int): ItemVenda -> bool {
    (it: ItemVenda) =>
      it.produtoId in produtos && exists v | v in vendas :: v.id == it.vendaId && Dashboard.Desde(dataInicial)(v)
  }

  function ItensDoPeriodo(itens: seq<ItemVenda>, produtos: map<int, Produto>, vendas: seq<Venda>, dataInicial: int): (rows: seq<ItemVenda>)
    ensures forall it | it in rows :: it.produtoId in produtos
  {
    Filter(itens, NoPeriodo(produtos, vendas, dataInicial))
  }

  /** `produtosMaisVendidos`: the five products with the largest quantity sold in the window. */
  function MaisVendidos(itens: seq<ItemVenda>, produtos: map<int, Produto>, vendas: seq<Venda>, dataInicial: int): seq<Dashboard.ProdutoVendido> {
    Top(Dashboard.Ranking(ItensDoPeriodo(itens, produtos, vendas, dataInicial), produtos), Dashboard.Vendido, 5)
  }

  /**
    At most five rows, largest quantity first, each an existing product with
    the quantity summed over the items of finalized sales of the window only;
    a product left out sold no more than any product listed.
  */
  lemma MaisVendidosSpec(itens: seq<ItemVenda>, produtos: map<int, Produto>, vendas: seq<Venda>, dataInicial: int)
    ensures |MaisVendidos(itens, produtos, vendas, dataInicial)| <= 5
    ensures |MaisVendidos(itens, produtos, vendas, dataInicial)|
              == Min(5, |Dashboard.Ranking(ItensDoPeriodo(itens, produtos, vendas, dataInicial), produtos)|)
    ensures SortedDesc(MaisVendidos(itens, produtos, vendas, dataInicial), Dashboard.Vendido)
    ensures forall e | e in MaisVendidos(itens, produtos, vendas, dataInicial) ::
              && e.produtoId in produtos && e.nome == produtos[e.produtoId].nome
              && e.totalVendido == GroupSumInt(ItensDoPeriodo(itens, produtos, vendas, dataInicial), Dashboard.ProdutoDe, e.produtoId, Dashboard.Quantidade)
    ensures forall x, y | x in Dashboard.Ranking(ItensDoPeriodo(itens, produtos, vendas, dataInicial), produtos)
                          && x !in MaisVendidos(itens, produtos, vendas, dataInicial)
                          && y in MaisVendidos(itens, produtos, vendas, dataInicial) :: y.totalVendido >= x.totalVendido
  {
    var rows := ItensDoPeriodo(itens, produtos, vendas, dataInicial);
    var all := Dashboard.Ranking(rows, produtos);
    var top := MaisVendidos(itens, produtos, vendas, dataInicial);
    TopSpec(all, Dashboard.Vendido, 5);
    forall e | e in top
      ensures && e.produtoId in produtos && e.nome == produtos[e.produtoId].nome
              && e.totalVendido == GroupSumInt(rows, Dashboard.ProdutoDe, e.produtoId, Dashboard.Quantidade)
    {
      Dashboard.RankingEntry(rows, produtos, e);
    }
    forall x, y | x in all && x !in top && y in top ensures y.totalVendido >= x.totalVendido {
      assert Dashboard.Vendido(y) >= Dashboard.Vendido(x);
    }
  }

  /** A row of the report's ranking as it is sent: the product's name and the quantity sold. */
  datatype ProdutoQuantidade = ProdutoQuantidade(nome: string, quantidade: int)

  /** `produtosMaisVendidos.map(p => ({ nome, quantidade }))`: the ranking without the product id. */
  function ProdutosMaisVendidos(itens: seq<ItemVenda>, produtos: map<int, Produto>, vendas: seq<Venda>, dataInicial: int): (r: seq<ProdutoQuantidade>)
    ensures |r| == |MaisVendidos(itens, produtos, vendas, dataInicial)|
  {
    var top := MaisVendidos(itens, produtos, vendas, dataInicial);
    seq(|top|, i requires 0 <= i < |top| => ProdutoQuantidade(top[i].nome, top[i].totalVendido))
  }

  /**
    The rows sent: the five best-selling products of the window, or every one
    sold if fewer, largest quantity first, each the name of an existing
    product with its quantity over finalized sales of the window; no product
    left out sold more in the window than one sent.
  */
  lemma ProdutosMaisVendidosSpec(itens: seq<ItemVenda>, produtos: map<int, Produto>, vendas: seq<Venda>, dataInicial: int)
    ensures |ProdutosMaisVendidos(itens, produtos, vendas, dataInicial)|
              == Min(5, |Dashboard.Ranking(ItensDoPeriodo(itens, produtos, vendas, dataInicial), produtos)|)
    ensures forall i, j | 0 <= i < j < |ProdutosMaisVendidos(itens, produtos, vendas, dataInicial)| ::
              ProdutosMaisVendidos(itens, produtos, vendas, dataInicial)[i].quantidade
                >= ProdutosMaisVendidos(itens, produtos, vendas, dataInicial)[j].quantidade
    ensures forall i | 0 <= i < |ProdutosMaisVendidos(itens, produtos, vendas, dataInicial)| ::
              exists id | id in produtos ::
                && ProdutosMaisVendidos(itens, produtos, vendas, dataInicial)[i].nome == produtos[id].nome
                && ProdutosMaisVendidos(itens, produtos, vendas, dataInicial)[i].quantidade
                     == GroupSumInt(ItensDoPeriodo(itens, produtos, vendas, dataInicial), Dashboard.ProdutoDe, id, Dashboard.Quantidade)
    ensures forall x, i | x in Dashboard.Ranking(ItensDoPeriodo(itens, produtos, vendas, dataInicial), produtos)
                          && x !in MaisVendidos(itens, produtos, vendas, dataInicial)
                          && 0 <= i < |ProdutosMaisVendidos(itens, produtos, vendas, dataInicial)| ::
              ProdutosMaisVendidos(itens, produtos, vendas, dataInicial)[i].quantidade >= x.totalVendido
  {
    var top := MaisVendidos(itens, produtos, vendas, dataInicial);
    var r := ProdutosMaisVendidos(itens, produtos, vendas, dataInicial);
    MaisVendidosSpec(itens, produtos, vendas, dataInicial);
    forall i | 0 <= i < |r|
      ensures exists id | id in produtos ::
                && r[i].nome == produtos[id].nome
                && r[i].quantidade == GroupSumInt(ItensDoPeriodo(itens, produtos, vendas, dataInicial), Dashboard.ProdutoDe, id, Dashboard.Quantidade)
    {
      assert top[i] in top;
    }
    forall i, j | 0 <= i < j < |r| ensures r[i].quantidade >= r[j].quantidade {
      assert Dashboard.Vendido(top[i]) >= Dashboard.Vendido(top[j]);
    }
    forall x, i | x in Dashboard.Ranking(ItensDoPeriodo(itens, produtos, vendas, dataInicial), produtos) && x !in top && 0 <= i < |r|
      ensures r[i].quantidade >= x.totalVendido
    {
      assert top[i] in top;
    }
  }

  /** An item whose sale is not a finalized sale of the window leaves the ranking as it was. */
  lemma ItemOutsideWindowIgnored(itens: seq<ItemVenda>, produtos: map<int, Produto>, vendas: seq<Venda>, dataInicial: int, it: ItemVenda)
    requires forall v | v in vendas && v.id == it.vendaId :: v.status != Finalizada || v.dataVenda < dataInicial
    ensures MaisVendidos(itens + [it], produtos, vendas, dataInicial) == MaisVendidos(itens, produtos, vendas, dataInicial)
  {
    var keep := NoPeriodo(produtos, vendas, dataInicial);
    FilterAppend(itens, [it], keep);
    assert [it][..0] == [];
    assert !keep(it);
    assert Filter([it], keep) == [];
    assert ItensDoPeriodo(itens + [it], produtos, vendas, dataInicial) == ItensDoPeriodo(itens, produtos, vendas, dataInicial);
  }

  // ====================================================== payment methods

  /** The chart label of a known payment method. */
  function NomePagamento(f: FormaPagamento): string {
    match f
    case Pix => "PIX"
    case CartaoCredito => "Cartão Crédito"
    case CartaoDebito => "Cartão Débito"
    case Dinheiro => "Dinheiro"
    case Boleto => "Boleto"
  }

  /** The chart colour of a known payment method. */
  function CorPagamento(f: FormaPagamento): string {
    match f
    case Pix => "#22c55e"
    case CartaoCredito => "#3b82f6"
    case CartaoDebito => "#8b5cf6"
    case Dinheiro => "#f59e0b"
    case Boleto => "#ef4444"
  }

  const Outros := "Outros"
  const CorPadrao := "#6b7280"

  /**
    `nomesPagamento[fp || ''] || fp || 'Outros'`: a known code gives its
    label, any other non-empty code itself, and null or '' gives 'Outros'.
  */
  function PaymentLabel(fp: Option<string>): (r: string)
    ensures fp.Some? && ParseFormaPagamento(fp.value).Some? ==> r == NomePagamento(ParseFormaPagamento(fp.value).value)
    ensures fp.Some? && fp.value != "" && ParseFormaPagamento(fp.value).None? ==> r == fp.value
    ensures fp.None? || fp.value == "" ==> r == Outros
  {
    var code := if fp.None? then "" else fp.value;
    match ParseFormaPagamento(code)
    case Some(f) => NomePagamento(f)
    case None => if code != "" then code else Outros
  }

  /** `coresPagamento[fp || ''] || '#6b7280'`: a known code gives its colour, anything else grey. */
  function PaymentColor(fp: Option<string>): (r: string)
    ensures fp.Some? && ParseFormaPagamento(fp.value).Some? ==> r == CorPagamento(ParseFormaPagamento(fp.value).value)
    ensures fp.None? || ParseFormaPagamento(fp.value).None? ==> r == CorPadrao
  {
    var code := if fp.None? then "" else fp.value;
    match ParseFormaPagamento(code)
    case Some(f) => CorPagamento(f)
    case None => CorPadrao
  }

  /** The five methods get five different labels and five different colours, none of them the fallbacks. */
  lemma PaymentLegendDistinct(f: FormaPagamento, g: FormaPagamento)
    ensures PaymentLabel(Some(FormaPagamentoCode(f))) == PaymentLabel(Some(FormaPagamentoCode(g))) <==> f == g
    ensures PaymentColor(Some(FormaPagamentoCode(f))) == PaymentColor(Some(FormaPagamentoCode(g))) <==> f == g
    ensures PaymentLabel(Some(FormaPagamentoCode(f))) != Outros && PaymentColor(Some(FormaPagamentoCode(f))) != CorPadrao
  {
  }

  datatype Fatia = Fatia(name: string, value: nat, total: real, color: string)

  function CodeOf(f: Option<FormaPagamento>): Option<string> {
    match f
    case None => None
    case Some(x) => Some(FormaPagamentoCode(x))
  }

  /** `formasPagamentoData`: one slice per payment-method group of the window's finalized sales. */
  function FormasPagamento(vs: seq<Venda>, dataInicial: int): (r: seq<Fatia>)
    ensures var groups := Dashboard.Pagamentos(Filter(vs, Dashboard.Desde(dataInicial)));
            |r| == |groups| &&
            forall i | 0 <= i < |r| ::
              r[i].value == groups[i].count && r[i].total == groups[i].total &&
              r[i].name == PaymentLabel(CodeOf(groups[i].formaPagamento)) &&
              r[i].color == PaymentColor(CodeOf(groups[i].formaPagamento))
  {
    var groups := Dashboard.Pagamentos(Filter(vs, Dashboard.Desde(dataInicial)));
    seq(|groups|, i requires 0 <= i < |groups| =>
      Fatia(PaymentLabel(CodeOf(groups[i].formaPagamento)), groups[i].count, groups[i].total,
            PaymentColor(CodeOf(groups[i].formaPagamento))))
  }

  /** A sale without a payment method shows as 'Outros' in grey. */
  lemma NullMethodIsOutros()
    ensures PaymentLabel(CodeOf(None)) == Outros && PaymentColor(CodeOf(None)) == CorPadrao
  {
  }

  // ================================================================ summary

  /** Finalized and dated before `t`. */
  function AntesDe(t: int): Venda -> bool {
    (v: Venda) => v.status == Finalizada && v.dataVenda < t
  }

  /**
    The window's figures are part of the overall ones: the finalized sales
    split into those of the window and those before it, in count and revenue.
  */
  lemma PeriodoWithinTotal(vs: seq<Venda>, dataInicial: int)
    ensures Dashboard.VendasGeral(vs).quantidade
              == Dashboard.TotaisWhere(vs, Dashboard.Desde(dataInicial)).quantidade + Count(vs, AntesDe(dataInicial))
    ensures Dashboard.VendasGeral(vs).total
              == Dashboard.TotaisWhere(vs, Dashboard.Desde(dataInicial)).total + SumWhere(vs, AntesDe(dataInicial), Dashboard.VendaTotal)
    ensures Dashboard.TotaisWhere(vs, Dashboard.Desde(dataInicial)).quantidade <= Dashboard.VendasGeral(vs).quantidade
  {
    SumWhereSplit(vs, Dashboard.IsFinalizada, Dashboard.Desde(dataInicial), AntesDe(dataInicial), Dashboard.VendaTotal);
  }

  datatype Resumo = Resumo(
    totalClientes: nat, totalProdutos: nat, totalFornecedores: nat,
    totalVendas: nat, receitaTotal: real, vendasPeriodo: nat, receitaPeriodo: real)

  datatype RelatorioData = RelatorioData(
    vendasMensais: seq<VendaMensal>, produtosMaisVendidos: seq<ProdutoQuantidade>,
    formasPagamento: seq<Fatia>, resumo: Resumo)

  /**
    The whole response. `instante` gives the first instant of a date in the
    server's time zone and `anoMes` the month of an instant in the database's.
  */
  function Get(t: Dashboard.Tables, hoje: Data, periodo: Option<string>, instante: Data -> int, anoMes: int -> AnoMes): RelatorioData {
    var dataInicial := instante(DataInicial(hoje, MesesAtras(periodo)));
    var geral := Dashboard.VendasGeral(t.vendas);
    var periodoTotais := Dashboard.TotaisWhere(t.vendas, Dashboard.Desde(dataInicial));
    RelatorioData(
      VendasMensais(t.vendas, dataInicial, anoMes),
      ProdutosMaisVendidos(t.itensVenda, t.produtos, t.vendas, dataInicial),
      FormasPagamento(t.vendas, dataInicial),
      Resumo(CountKeyed(t.clientes, Dashboard.ClienteAtivo), CountKeyed(t.produtos, Dashboard.ProdutoAtivo),
             CountKeyed(t.fornecedores, Dashboard.FornecedorAtivo),
             geral.quantidade, geral.total, periodoTotais.quantidade, periodoTotais.total))
  }
}
