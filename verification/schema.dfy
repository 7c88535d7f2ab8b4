/**
  The relational schema of the ERP: its four enums, the records of the tables the
  rest of the model reads or writes, their column defaults and varchar widths.
  Money columns (decimal(10,2)) are `real`; integer columns are `int`.
  Timestamps and dates are `int` instants (milliseconds for timestamps, day
  numbers for `date` columns).
*/
module Schema {
  import opened Wrappers

  // ---------------------------------------------------------------- enums

  datatype UserRole = Admin | Gerente | Vendedor
  datatype VendaStatus = Aberta | Finalizada | Cancelada
  datatype FormaPagamento = Dinheiro | Pix | CartaoCredito | CartaoDebito | Boleto
  datatype ContaStatus = Pendente | Pago | Atrasado | Cancelado

  const FormaPagamentoCodes: seq<string> := ["dinheiro", "pix", "cartao_credito", "cartao_debito", "boleto"]

  /** The database code of a payment method; every code is one of the enum's five labels. */
  function FormaPagamentoCode(f: FormaPagamento): (s: string)
    ensures s in FormaPagamentoCodes
    ensures ParseFormaPagamento(s) == Some(f)
  {
    match f
    case Dinheiro => "dinheiro"
    case Pix => "pix"
    case CartaoCredito => "cartao_credito"
    case CartaoDebito => "cartao_debito"
    case Boleto => "boleto"
  }

  /** Reads a payment-method code: exactly the five enum labels are accepted. */
  function ParseFormaPagamento(s: string): (r: Option<FormaPagamento>)
    ensures r.Some? <==> s in FormaPagamentoCodes
  {
    if s == "dinheiro" then Some(Dinheiro)
    else if s == "pix" then Some(Pix)
    else if s == "cartao_credito" then Some(CartaoCredito)
    else if s == "cartao_debito" then Some(CartaoDebito)
    else if s == "boleto" then Some(Boleto)
    else None
  }

  lemma ParseFormaPagamentoInverse(s: string)
    requires ParseFormaPagamento(s).Some?
    ensures FormaPagamentoCode(ParseFormaPagamento(s).value) == s
  {
  }

  function RoleCode(r: UserRole): string {
    match r
    case Admin => "admin"
    case Gerente => "gerente"
    case Vendedor => "vendedor"
  }

  function VendaStatusCode(s: VendaStatus): string {
    match s
    case Aberta => "aberta"
    case Finalizada => "finalizada"
    case Cancelada => "cancelada"
  }

  function ContaStatusCode(s: ContaStatus): string {
    match s
    case Pendente => "pendente"
    case Pago => "pago"
    case Atrasado => "atrasado"
    case Cancelado => "cancelado"
  }

  // ------------------------------------------------------- column defaults

  const DefaultRole: UserRole := Vendedor
  const DefaultVendaStatus: VendaStatus := Aberta
  const DefaultContaStatus: ContaStatus := Pendente
  const DefaultEstoqueAtual: int := 0
  const DefaultEstoqueMinimo: int := 5

  // --------------------------------------------------------- varchar widths

  const TelefoneWidth: nat := 20
  const CpfCnpjWidth: nat := 18
  const EstadoWidth: nat := 2
  const UsuarioNomeWidth: nat := 255
  const UsuarioEmailWidth: nat := 255

  predicate FitsVarchar(s: string, width: nat) {
    |s| <= width
  }

  /** The user's `nome` and `email` fit their varchar(255) columns. */
  predicate UsuarioFits(nome: string, email: string) {
    FitsVarchar(nome, UsuarioNomeWidth) && FitsVarchar(email, UsuarioEmailWidth)
  }

  // ---------------------------------------------------------------- tables

  datatype Usuario = Usuario(id: int, nome: string, email: string, senhaHash: string, role: UserRole, ativo: bool)

  datatype Cliente = Cliente(id: int, nome: string, ativo: bool)

  datatype Fornecedor = Fornecedor(id: int, nome: string, ativo: bool)

  datatype Produto = Produto(id: int, nome: string, precoVenda: real, estoqueAtual: int, estoqueMinimo: int, ativo: bool)

  /** A `vendas` row: the user is required, the customer and payment method are nullable. */
  datatype Venda = Venda(
    id: int,
    clienteId: Option<int>,
    usuarioId: int,
    dataVenda: int,
    status: VendaStatus,
    subtotal: real,
    desconto: real,
    total: real,
    formaPagamento: Option<FormaPagamento>,
    observacoes: Option<string>)

  /** An `itens_venda` row: sale and product are required, the quantity is an integer column. */
  datatype ItemVenda = ItemVenda(
    id: int,
    vendaId: int,
    produtoId: int,
    quantidade: int,
    precoUnitario: real,
    desconto: real,
    subtotal: real)

  datatype ContaPagar = ContaPagar(id: int, descricao: string, valor: real, dataVencimento: int, status: ContaStatus, fornecedorId: Option<int>)

  /** A `contas_receber` row: both the customer and the originating sale are optional. */
  datatype ContaReceber = ContaReceber(id: int, clienteId: Option<int>, vendaId: Option<int>, valor: real, dataVencimento: int, status: ContaStatus)

  /** The claims a session token carries (`UserPayload`): the user's id, email and role. */
  datatype UserPayload = UserPayload(userId: int, email: string, role: UserRole)

  /** Σ subtotal over item rows, folded left to right. */
  function SumItemSubtotals(rows: seq<ItemVenda>): real {
    if rows == [] then 0.0 else SumItemSubtotals(rows[..|rows| - 1]) + rows[|rows| - 1].subtotal
  }
}
