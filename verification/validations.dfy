/**
  The request-body schemas. A body is given with each field already of the
  JSON type the schema asks for; a schema either accepts it, producing the
  parsed value with its defaults filled in, or rejects it. For the two
  authentication schemas the rejection carries zod's issue list (field path
  and message), because the source relies on where a mismatch is reported.
  The email format check is zod's regular expression, taken as a parameter.
*/
module Validations {
  import opened Wrappers
  import opened Schema
  import Js

  datatype Issue = Issue(path: string, message: string)

  const EmailInvalido := "Email inválido"
  const SenhaCurta := "Senha deve ter no mínimo 6 caracteres"
  const NomeCurto := "Nome deve ter no mínimo 2 caracteres"
  const SenhasNaoConferem := "Senhas não conferem"

  /** The error every route answers, with status 400, when a body fails its schema. */
  const DadosInvalidos := "Dados inválidos"

  // ================================================================ AUTH

  datatype LoginBody = LoginBody(email: string, password: string)

  datatype RegisterBody = RegisterBody(nome: string, email: string, password: string, confirmPassword: string)

  /** `loginSchema`: a well-formed email and a password of at least 6 characters. */
  function LoginIssues(b: LoginBody, isEmail: string -> bool): (r: seq<Issue>)
    ensures r == [] <==> isEmail(b.email) && |b.password| >= 6
    ensures Issue("email", EmailInvalido) in r <==> !isEmail(b.email)
    ensures Issue("password", SenhaCurta) in r <==> |b.password| < 6
    ensures forall i | 0 <= i < |r| :: r[i].path in {"email", "password"}
  {
    (if isEmail(b.email) then [] else [Issue("email", EmailInvalido)])
    + (if |b.password| >= 6 then [] else [Issue("password", SenhaCurta)])
  }

  /**
    `registerSchema` with its refine: the field checks, then the password
    confirmation, whose failure is reported on the `confirmPassword` path.
  */
  function RegisterIssues(b: RegisterBody, isEmail: string -> bool): (r: seq<Issue>)
    ensures r == [] <==> |b.nome| >= 2 && isEmail(b.email) && |b.password| >= 6 && b.password == b.confirmPassword
    ensures Issue("confirmPassword", SenhasNaoConferem) in r <==> b.password != b.confirmPassword
    ensures Issue("password", SenhaCurta) in r <==> |b.password| < 6
    ensures forall i | 0 <= i < |r| :: r[i].path in {"nome", "email", "password", "confirmPassword"}
  {
    (if |b.nome| >= 2 then [] else [Issue("nome", NomeCurto)])
    + (if isEmail(b.email) then [] else [Issue("email", EmailInvalido)])
    + (if |b.password| >= 6 then [] else [Issue("password", SenhaCurta)])
    + (if b.password == b.confirmPassword then [] else [Issue("confirmPassword", SenhasNaoConferem)])
  }

  // ============================================================= CLIENTE

  datatype ClienteBody = ClienteBody(nome: string, email: Option<string>, estado: Option<string>)

  /** `clienteSchema`: the email may be absent or empty; the state code has at most two characters. */
  function ParseCliente(b: ClienteBody, isEmail: string -> bool): (r: Option<ClienteBody>)
    ensures r.Some? <==> |b.nome| >= 2 && (b.email.Some? && b.email.value != "" ==> isEmail(b.email.value))
                         && (b.estado.Some? ==> |b.estado.value| <= 2)
    ensures r.Some? ==> r.value == b && (b.estado.Some? ==> FitsVarchar(b.estado.value, EstadoWidth))
  {
    if |b.nome| < 2 then None
    else if b.email.Some? && b.email.value != "" && !isEmail(b.email.value) then None
    else if b.estado.Some? && |b.estado.value| > 2 then None
    else Some(b)
  }

  // ============================================================= PRODUTO

  datatype ProdutoBody = ProdutoBody(nome: string, estoqueAtual: Option<real>, estoqueMinimo: Option<real>)

  datatype ProdutoInput = ProdutoInput(nome: string, estoqueAtual: int, estoqueMinimo: int)

  /** `produtoSchema`: stock figures must be integers and default to 0 and 5. */
  function ParseProduto(b: ProdutoBody): (r: Option<ProdutoInput>)
    ensures r.Some? <==> |b.nome| >= 2 && (b.estoqueAtual.Some? ==> IsWhole(b.estoqueAtual.value))
                         && (b.estoqueMinimo.Some? ==> IsWhole(b.estoqueMinimo.value))
    ensures r.Some? ==> r.value.estoqueAtual as real == b.estoqueAtual.GetOr(DefaultEstoqueAtual as real)
    ensures r.Some? ==> r.value.estoqueMinimo as real == b.estoqueMinimo.GetOr(DefaultEstoqueMinimo as real)
  {
    if |b.nome| < 2 then None
    else if b.estoqueAtual.Some? && !IsWhole(b.estoqueAtual.value) then None
    else if b.estoqueMinimo.Some? && !IsWhole(b.estoqueMinimo.value) then None
    else
      Some(ProdutoInput(b.nome,
                        if b.estoqueAtual.Some? then b.estoqueAtual.value.Floor else DefaultEstoqueAtual,
                        if b.estoqueMinimo.Some? then b.estoqueMinimo.value.Floor else DefaultEstoqueMinimo))
  }

  /** zod's `.int()`: the number has no fractional part. */
  predicate IsWhole(x: real) {
    x == x.Floor as real
  }

  // =============================================================== VENDA

  datatype ItemBody = ItemBody(produtoId: int, quantidade: real, precoUnitario: real, desconto: Option<real>)

  datatype VendaBody = VendaBody(
    clienteId: Option<int>,
    itens: seq<ItemBody>,
    formaPagamento: string,
    desconto: Option<real>,
    observacoes: Option<string>)

  datatype ItemVendaInput = ItemVendaInput(produtoId: int, quantidade: real, precoUnitario: real, desconto: real)

  datatype VendaInput = VendaInput(
    clienteId: Option<int>,
    itens: seq<ItemVendaInput>,
    formaPagamento: FormaPagamento,
    desconto: real,
    observacoes: Option<string>)

  /**
    `itemVendaSchema`: the only constraint is quantidade >= 1 (fractions pass);
    the price is unconstrained and the discount defaults to 0.
  */
  function ParseItem(b: ItemBody): (r: Option<ItemVendaInput>)
    ensures r.Some? <==> b.quantidade >= 1.0
    ensures r.Some? ==> r.value.produtoId == b.produtoId && r.value.quantidade == b.quantidade
                        && r.value.precoUnitario == b.precoUnitario && r.value.desconto == b.desconto.GetOr(0.0)
  {
    if b.quantidade >= 1.0 then Some(ItemVendaInput(b.produtoId, b.quantidade, b.precoUnitario, b.desconto.GetOr(0.0)))
    else None
  }

  /** `z.array(itemVendaSchema)`: accepted iff every element is, keeping order and length. */
  function ParseItens(bs: seq<ItemBody>): (r: Option<seq<ItemVendaInput>>)
    ensures r.Some? <==> forall i | 0 <= i < |bs| :: bs[i].quantidade >= 1.0
    ensures r.Some? ==> |r.value| == |bs| && forall i | 0 <= i < |bs| :: ParseItem(bs[i]) == Some(r.value[i])
  {
    if bs == [] then Some([])
    else
      match (ParseItens(bs[..|bs| - 1]), ParseItem(bs[|bs| - 1]))
      case (Some(front), Some(last)) => Some(front + [last])
      case _ => None
  }

  /**
    `vendaSchema`: at least one valid item and a known payment method; the sale
    discount defaults to 0 and is otherwise unconstrained.
  */
  function ParseVenda(b: VendaBody): (r: Option<VendaInput>)
    ensures r.Some? <==> |b.itens| >= 1 && (forall i | 0 <= i < |b.itens| :: b.itens[i].quantidade >= 1.0)
                         && b.formaPagamento in FormaPagamentoCodes
    ensures r.Some? ==> && r.value.clienteId == b.clienteId
                        && FormaPagamentoCode(r.value.formaPagamento) == b.formaPagamento
                        && r.value.desconto == b.desconto.GetOr(0.0)
                        && r.value.observacoes == b.observacoes
                        && |r.value.itens| == |b.itens|
                        && forall i | 0 <= i < |b.itens| :: ParseItem(b.itens[i]) == Some(r.value.itens[i])
  {
    if |b.itens| < 1 then None
    else
      match (ParseItens(b.itens), ParseFormaPagamento(b.formaPagamento))
      case (Some(itens), Some(fp)) =>
        ParseFormaPagamentoInverse(b.formaPagamento);
        Some(VendaInput(b.clienteId, itens, fp, b.desconto.GetOr(0.0), b.observacoes))
      case _ => None
  }

  /** Any sale discount, negative or larger than the subtotal, leaves an accepted body accepted. */
  lemma VendaDescontoUnbounded(b: VendaBody, d: real)
    requires ParseVenda(b).Some?
    ensures ParseVenda(b.(desconto := Some(d))) == Some(ParseVenda(b).value.(desconto := d))
  {
  }

  // ============================================================== CONTAS

  datatype ContaBody = ContaBody(descricao: string, valor: string, dataVencimento: string)

  datatype ContaInput = ContaInput(descricao: string, valor: real, dataVencimento: string)

  /**
    The `valor` transform of `contaPagarSchema` and `contaReceberSchema`,
    `parseFloat(v) || 0`: an unparsable string gives 0. `parseFloat` is a
    parameter (`None` is NaN).
  */
  function ParseValor(v: string, parseFloat: string -> Option<real>): (r: real)
    ensures parseFloat(v).None? ==> r == 0.0
    ensures parseFloat(v).Some? ==> r == parseFloat(v).value
  {
    Js.OrZero(parseFloat(v))
  }

  /** `contaPagarSchema`: a description of at least two characters and the `valor` transform. */
  function ParseContaPagar(b: ContaBody, parseFloat: string -> Option<real>): (r: Option<ContaInput>)
    ensures r.Some? <==> |b.descricao| >= 2
    ensures r.Some? ==> r.value.valor == ParseValor(b.valor, parseFloat) && r.value.descricao == b.descricao
  {
    if |b.descricao| >= 2 then Some(ContaInput(b.descricao, ParseValor(b.valor, parseFloat), b.dataVencimento))
    else None
  }
}
