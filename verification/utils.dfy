/**
  The display formatters of `lib/utils.ts`: code-to-label lookups with their
  fallbacks, and the guards in front of the date and currency formatters. The
  locale formatting itself (Intl, date-fns) and the string parsers are
  parameters.
*/
module Utils {
  import opened Wrappers
  import opened Schema

  const Dash := "-"

  /**
    `value ? table[value] || value : '-'`: null or the empty string give '-',
    a code with a non-empty label gives the label, any other code itself.
  */
  function FormatCode(table: map<string, string>, value: Option<string>): (r: string)
    ensures value.None? || value.value == "" ==> r == Dash
    ensures value.Some? && value.value != "" ==>
              if value.value in table && table[value.value] != "" then r == table[value.value] else r == value.value
  {
    match value
    case None => Dash
    case Some(code) =>
      if code == "" then Dash
      else
        var shown := if code in table then table[code] else "";
        if shown != "" then shown else code
  }

  // ======================================================= payment method

  const PaymentMethods: map<string, string> := map[
    "dinheiro" := "Dinheiro",
    "pix" := "PIX",
    "cartao_credito" := "Cartão de Crédito",
    "cartao_debito" := "Cartão de Débito",
    "boleto" := "Boleto"]

  function FormatPaymentMethod(code: Option<string>): string {
    FormatCode(PaymentMethods, code)
  }

  /** The label shown for each payment method of the schema. */
  function PaymentMethodLabel(f: FormaPagamento): string {
    match f
    case Dinheiro => "Dinheiro"
    case Pix => "PIX"
    case CartaoCredito => "Cartão de Crédito"
    case CartaoDebito => "Cartão de Débito"
    case Boleto => "Boleto"
  }

  /**
    Every schema payment method is shown with its label, distinct methods
    with distinct labels; a code outside the schema is shown unchanged, and
    a missing one as '-'.
  */
  lemma FormatPaymentMethodSpec(f: FormaPagamento, g: FormaPagamento, other: string)
    requires other != "" && other !in FormaPagamentoCodes
    ensures FormatPaymentMethod(Some(FormaPagamentoCode(f))) == PaymentMethodLabel(f)
    ensures PaymentMethodLabel(f) == PaymentMethodLabel(g) ==> f == g
    ensures FormatPaymentMethod(Some(other)) == other
    ensures FormatPaymentMethod(None) == Dash && FormatPaymentMethod(Some("")) == Dash
  {
    assert PaymentMethods.Keys == set c | c in FormaPagamentoCodes;
  }

  // ======================================================= account status

  const ContaStatuses: map<string, string> := map[
    "pendente" := "Pendente",
    "pago" := "Pago",
    "vencido" := "Vencido",
    "cancelado" := "Cancelado"]

  function FormatContaStatus(status: Option<string>): string {
    FormatCode(ContaStatuses, status)
  }

  /**
    The schema's statuses: pendente, pago and cancelado get their labels, but
    'atrasado' is not in the table and is shown as the raw code.
  */
  lemma FormatContaStatusSpec(s: ContaStatus)
    ensures FormatContaStatus(Some(ContaStatusCode(s))) ==
              match s
              case Pendente => "Pendente"
              case Pago => "Pago"
              case Atrasado => "atrasado"
              case Cancelado => "Cancelado"
  {
  }

  // ========================================================== sale status

  const VendaStatuses: map<string, string> := map[
    "pendente" := "Pendente",
    "finalizada" := "Finalizada",
    "cancelada" := "Cancelada"]

  function FormatVendaStatus(status: Option<string>): string {
    FormatCode(VendaStatuses, status)
  }

  /**
    The schema's statuses: finalizada and cancelada get their labels, but
    'aberta', the column default, is not in the table and is shown raw.
  */
  lemma FormatVendaStatusSpec(s: VendaStatus)
    ensures FormatVendaStatus(Some(VendaStatusCode(s))) ==
              match s
              case Aberta => "aberta"
              case Finalizada => "Finalizada"
              case Cancelada => "Cancelada"
  {
  }

  // ====================================================== date, currency

  /** What `formatDate` receives: a string, or a `Date` (its instant, `None` for an Invalid Date). */
  datatype DateInput = DateString(s: string) | DateValue(instant: Option<int>)

  /**
    `formatDate`: a missing date or the empty string gives '-'; otherwise a
    string is parsed (`parse` stands for `new Date(...)`, `None` for an
    Invalid Date) and the instant formatted by `format`, which stands for
    date-fns' `format` with the pattern and locale the caller chose (the
    `formatStr` argument is part of it). An Invalid Date makes date-fns throw
    a RangeError, which is `None` here.
  */
  function FormatDate(date: Option<DateInput>, parse: string -> Option<int>, format: int -> string): (r: Option<string>)
    ensures date.None? || date == Some(DateString("")) ==> r == Some(Dash)
    ensures date.Some? && date.value.DateValue? ==>
              (r.None? <==> date.value.instant.None?) && (r.Some? ==> r.value == format(date.value.instant.value))
    ensures date.Some? && date.value.DateString? && date.value.s != "" ==>
              (r.None? <==> parse(date.value.s).None?) && (r.Some? ==> r.value == format(parse(date.value.s).value))
  {
    match date
    case None => Some(Dash)
    case Some(DateString(s)) =>
      if s == "" then Some(Dash)
      else if parse(s).None? then None
      else Some(format(parse(s).value))
    case Some(DateValue(t)) => if t.None? then None else Some(format(t.value))
  }

  /** A non-empty string is shown exactly as the `Date` it parses to, and one that parses to an Invalid Date throws the same way. */
  lemma FormatDateAgrees(s: string, parse: string -> Option<int>, format: int -> string)
    requires s != ""
    ensures FormatDate(Some(DateString(s)), parse, format) == FormatDate(Some(DateValue(parse(s))), parse, format)
  {
  }

  /** What `formatCurrency` receives: a number or a numeric string. */
  datatype Amount = Number(x: real) | Text(s: string)

  /**
    `formatCurrency`: a string is read with `parseFloat` (None standing for
    NaN) and a value that is not a number is shown as 0.
  */
  function FormatCurrency(value: Amount, parseFloat: string -> Option<real>, brl: real -> string): (r: string)
    ensures value.Number? ==> r == brl(value.x)
    ensures value.Text? && parseFloat(value.s).None? ==> r == brl(0.0)
    ensures value.Text? && parseFloat(value.s).Some? ==> r == brl(parseFloat(value.s).value)
  {
    var numValue: Option<real> := match value
      case Number(x) => Some(x)
      case Text(s) => parseFloat(s);
    brl(if numValue.Some? then numValue.value else 0.0)
  }

  /** A numeric string is shown exactly as the number it reads as, and an unreadable one as zero. */
  lemma FormatCurrencyAgrees(s: string, parseFloat: string -> Option<real>, brl: real -> string)
    ensures parseFloat(s).Some? ==> FormatCurrency(Text(s), parseFloat, brl) == FormatCurrency(Number(parseFloat(s).value), parseFloat, brl)
    ensures parseFloat(s).None? ==> FormatCurrency(Text(s), parseFloat, brl) == FormatCurrency(Number(0.0), parseFloat, brl)
  {
  }
}
