# ERP system core in Dafny

A model of the core of a small ERP for a shop (Next.js route handlers over a
PostgreSQL database through Drizzle ORM), with proofs about it:

- **Schema** (`schema.dfy`, `db.dfy`): the enums, records and column
  defaults of the tables, and a `Database` class whose tables are fields the
  insert and update statements reassign, keeping unique emails, foreign keys
  and serial ids consistent (`Database.Valid`).
- **Validations** (`validations.dfy`): the zod schemas of the request bodies,
  as functions from a typed body to the issues found or the parsed input with
  its defaults.
- **Sales** (`vendas.dfy`): POST /api/vendas (session, validation, totals, the
  header insert, then per item an item row and a stock decrement, with no
  transaction) and GET /api/vendas (offset pagination).
- **Dashboard and reports** (`dashboard.dfy`, `relatorios.dfy`, over the SQL
  building blocks of `aggregates.dfy`: WHERE, COUNT, SUM, GROUP BY, ORDER BY …
  DESC LIMIT n): the statistics of GET /api/dashboard and GET /api/relatorios.
- **Authentication** (`proxy.ts` → `proxy.dfy`, `auth.dfy`): the request gate
  in front of every route, and the login and register handlers.
- **Seed** (`seed.dfy`): the generators of fake documents and phones, and the
  loop that writes the 20 demo sales.
- **UI logic** (`form_modal.dfy`, `confirm_dialog.dfy`, `sidebar.dfy`,
  `utils.dfy`): the form-modal and confirm-dialog hooks (classes whose methods
  apply pure transition functions), the sidebar's active item and initials,
  and the display formatters.

Money is `real` (exact), counts and stock `int`, instants `int`, and strings
`seq<char>`. Everything the code gets from outside is a parameter: the
session, the database clock, password hashing and checking, token signing
and verification, zod's email test, `parseFloat`, the date and currency
formatters, the random draws of the seed and the calendar instants of "today".

## Model

| member | source | states |
|---|---|---|
| Schema.FormaPagamentoCode | db/schema.ts:7 | every payment method has one of the five enum labels, and that label parses back to the method |
| Schema.ParseFormaPagamento | db/schema.ts:7 | a string is accepted exactly when it is one of the five enum labels |
| Schema.ParseFormaPagamentoInverse | db/schema.ts:7 | parsing a label and printing the method gives the label back |
| Js.OrZero | lib/validations.ts:77 | a parsed number or else 0: NaN (no number) gives 0, any other number is kept |
| Js.AsciiUpperString | components/layout/app-sidebar.tsx:88 | `toUpperCase` keeps the length and uppercases each letter a-z, leaving other characters alone |
| Js.DigitChar | db/seed.ts:23 | a digit 0-9 is written as the character that reads back as that digit |
| Validations.LoginIssues | lib/validations.ts:4-7 | the body is accepted iff the email passes the email test and the password has at least 6 characters; each failure is reported on its own field |
| Validations.RegisterIssues | lib/validations.ts:9-17 | accepted iff name ≥ 2, valid email, password ≥ 6 and the two passwords equal; a mismatch is reported on confirmPassword |
| Validations.ParseCliente | lib/validations.ts:20-29 | accepted iff name ≥ 2, email absent, empty or valid, and estado at most 2 characters (so it fits its varchar(2) column); the body is kept as given |
| Validations.ParseProduto | lib/validations.ts:38-47 | accepted iff name ≥ 2 and both stock fields are whole numbers; absent stock fields become 0 and 5 |
| Validations.ParseItem | lib/validations.ts:59-64 | an item is accepted iff its quantity is at least 1 (fractions allowed); its discount defaults to 0 and the other fields are kept |
| Validations.ParseItens | lib/validations.ts:68 | a list is accepted iff every item is, and is parsed item by item in order |
| Validations.ParseVenda | lib/validations.ts:66-72 | accepted iff there is at least one item, every item is valid and the payment method is one of the enum labels; discount defaults to 0 |
| Validations.VendaDescontoUnbounded | lib/validations.ts:70 | the sale's discount has no bound: any number, negative or above the subtotal, passes unchanged |
| Validations.ParseValor | lib/validations.ts:77 | parseFloat or else 0: an unparsable amount becomes 0, any other is kept |
| Validations.ParseContaPagar | lib/validations.ts:75-81 | accepted iff the description has at least 2 characters; the amount is read with parseFloat-or-0 |
| Db.Database.constructor | db/schema.ts:11-179 | the tables start empty except the given customers, suppliers and products, and the invariant holds |
| Db.Database.InsertUsuario | db/schema.ts:11-20 | refused exactly when the name or the email is longer than its varchar(255) column or the email is already taken (unique column); otherwise appends the row with the next id, role defaulting to vendedor and ativo true |
| Db.Database.InsertVenda | db/schema.ts:100-112 | refused exactly when the customer or user foreign key dangles; otherwise appends the header with the next id, status defaulting to aberta and dataVenda to now |
| Db.Database.InsertItem | db/schema.ts:128-136 | refused exactly when the sale or product does not exist or the quantity is not an integer (int column); otherwise appends the row with the next id |
| Db.Database.AllStorable | db/schema.ts:128-136 | answers whether every row of a batch can be stored |
| Db.Database.InsertItemBatch | db/schema.ts:128-136 | one multi-row INSERT: all rows with consecutive ids, or none when any row is refused |
| Db.Database.DecrementStock | app/api/vendas/route.ts:105-110 | `estoqueAtual - q` on the product with that id, with no lower bound; an unknown id updates no row; no product is added or removed |
| Db.Database.InsertContaReceber | db/schema.ts:170-179 | refused exactly when the customer or sale reference dangles; otherwise appends with the next id and status defaulting to pendente |
| Vendas.ComputeTotals | app/api/vendas/route.ts:70-74 | the loop's subtotal is the sum of quantidade × preço − desconto over the items, and total is subtotal − discount with no clamp at zero |
| Vendas.ClienteRef | app/api/vendas/route.ts:80 | a falsy customer id is stored as null: an absent id and the id 0 both store no customer; any other id is kept |
| Vendas.NotesRef | app/api/vendas/route.ts:87 | absent and empty notes are both stored as null; any other notes are kept |
| Vendas.ItemRowsSpec | app/api/vendas/route.ts:92-102 | one row per item, in input order, with consecutive ids, the new sale's id, the item's product, price and discount, and subtotal quantidade × preço − desconto |
| Vendas.ItemRowsSumToSubtotal | app/api/vendas/route.ts:70-102 | the stored item subtotals add up to the sale header's subtotal |
| Vendas.StorablePrefix | app/api/vendas/route.ts:92-111 | the items before the first one the database refuses; the loop stops there |
| Vendas.StockAfterSpec | app/api/vendas/route.ts:104-110 | after the item loop each product's stock has dropped by the total quantity of its items, and every other product column and the set of products are unchanged |
| Vendas.QtyForUnnamed | app/api/vendas/route.ts:104-110 | a product no item names loses no stock |
| Vendas.StockNonNegativeIff | app/api/vendas/route.ts:104-110 | a product's stock stays non-negative exactly when its items ask for no more than it had: nothing checks stock, so overselling goes negative |
| Vendas.ListedTwiceDecrementedTwice | app/api/vendas/route.ts:104-110 | a product listed in two items is decremented by both quantities |
| Vendas.HeaderFor | app/api/vendas/route.ts:77-89 | the stored header takes the serial id, belongs to the session user, is dated by the database clock, is finalizada, with the computed subtotal, the given discount, total = subtotal − discount, the customer and notes with falsy values stored as null, and the payment method |
| Vendas.Post | app/api/vendas/route.ts:50-121 | no session gives 401, an unreadable body 500 'Erro ao criar venda' and an invalid body 400, all writing nothing; otherwise the sale is created as specified below |
| Vendas.CreateSale | app/api/vendas/route.ts:70-120 | a refused header gives 500 and writes nothing; otherwise the header, then the item rows and stock decrements up to the first refused item stay written, and the answer is 201 with the header only when every item was stored, else 500 |
| Vendas.StoreItem | app/api/vendas/route.ts:92-111 | one loop pass: the item row and the stock decrement both happen, or, when the row is refused, neither |
| Vendas.InsertItems | app/api/vendas/route.ts:92-111 | the item loop leaves exactly the rows and decrements of the items before the first refused one, and reports whether it got through them all |
| Vendas.Ceil | app/api/vendas/route.ts:37 | `Math.ceil`: the least integer not below x |
| Vendas.TotalPages | app/api/vendas/route.ts:37 | `ceil(total / limit)`: for a positive limit the fewest pages of `limit` rows that hold all rows; null for a zero limit; for a negative limit the ceiling of the negative quotient, pinned by the same two bounds with the inequalities turned |
| Vendas.List | app/api/vendas/route.ts:9-47 | a negative offset (page−1)×limit is a 500; otherwise 200 with the rows from the offset on, in order; with a limit of zero or more at most limit of them and exactly limit when that many remain, with a negative limit all of them (no LIMIT is sent); and the pagination block |
| Vendas.NegativeLimit | app/api/vendas/route.ts:12-37 | with a negative limit the first page lists every sale with status 200 and every later page is a 500 |
| Vendas.RowOnPage | app/api/vendas/route.ts:12-37 | with a positive limit every sale appears on exactly one page, page j/limit+1, which is within totalPages |
| Aggregates.Filter | app/api/dashboard/route.ts:51-56 | WHERE keeps only rows of the table that satisfy the condition |
| Aggregates.FilterComplete | app/api/dashboard/route.ts:51-56 | WHERE drops no row that satisfies the condition |
| Aggregates.CountKeyed | app/api/dashboard/route.ts:9-13 | COUNT(*) over a keyed table: at most its size, and zero exactly when no row matches |
| Aggregates.CountExtremes | app/api/dashboard/route.ts:9-13 | a count is 0 exactly when no row matches and the table size exactly when all rows match |
| Aggregates.SumWhereSplit | app/api/dashboard/route.ts:87-93 | SUM and COUNT over a condition split into two disjoint ones are the sums of the parts |
| Aggregates.KeysSpec | app/api/dashboard/route.ts:164 | the GROUP BY keys are exactly the keys that occur, each once |
| Aggregates.GroupsPartition | app/api/dashboard/route.ts:198-206 | the per-group sums of a GROUP BY add up to the sum over the whole table |
| Aggregates.SortDescSorted | app/api/dashboard/route.ts:165 | ORDER BY … DESC yields a sorted sequence |
| Aggregates.SortDesc | app/api/dashboard/route.ts:165 | ORDER BY is a permutation of the rows |
| Aggregates.SortDescDistinct | app/api/relatorios/route.ts:43 | ORDER BY keeps distinct keys distinct |
| Aggregates.SumSortDesc | app/api/dashboard/route.ts:165 | ordering does not change a sum |
| Aggregates.Top | app/api/dashboard/route.ts:165-166 | LIMIT n returns min(n, rows) rows |
| Aggregates.TopSpec | app/api/dashboard/route.ts:165-166 | ORDER BY key DESC LIMIT n: sorted, drawn from the table, and no row left out ranks above a row kept |
| Dashboard.SaleKeepsLowStock | app/api/dashboard/route.ts:22-31 | a sale of positive quantities never takes a product off the low-stock list, so the low-stock count cannot drop |
| Dashboard.MonthsPartition | app/api/dashboard/route.ts:45-78 | with the corrected previous-month window, the finalized sales since the previous month's start split exactly into this month's and the previous month's, in total and count |
| Dashboard.LastDayLost | app/api/dashboard/route.ts:61-78 | as written, a finalized sale after 00:00 on the previous month's last day is counted in neither month |
| Dashboard.OnlyFinalizedCount | app/api/dashboard/route.ts:87-95 | a sale that is not finalizada changes neither the overall total nor the count |
| Dashboard.Variacao | app/api/dashboard/route.ts:82-84 | 0 when the previous month is not positive; otherwise the percentage change, positive exactly when sales grew and 0 exactly when equal |
| Dashboard.TicketMedio | app/api/dashboard/route.ts:209 | the average ticket: total / count, and 0 with no sales |
| Dashboard.TicketMedioBetween | app/api/dashboard/route.ts:209 | the average ticket lies between the smallest and largest finalized sale totals |
| Dashboard.SaldoOnlyPending | app/api/dashboard/route.ts:98-112 | the balance is receivables minus payables over pending accounts only: a new account moves it by its value when pending and not at all otherwise |
| Dashboard.TotalPagarAppend | app/api/dashboard/route.ts:98-102 | the payables total counts an account exactly when it is pendente |
| Dashboard.TotalReceberAppend | app/api/dashboard/route.ts:105-109 | the receivables total counts an account exactly when it is pendente |
| Dashboard.AVencerWithinPending | app/api/dashboard/route.ts:121-135 | the payables due in the next 7 days plus the pending ones outside that window make up the pending total, so the due figures never exceed it |
| Dashboard.ReceberAVencerWithinPending | app/api/dashboard/route.ts:137-152 | the receivables due in the next 7 days plus the pending ones outside that window make up the pending receivables total, so the due figures never exceed it |
| Dashboard.Grouped | app/api/dashboard/route.ts:155-166 | one row per product key with its name and its quantity and subtotal summed over the item rows |
| Dashboard.RankingEntry | app/api/dashboard/route.ts:155-164 | every grouped row is an existing product with its name and the quantity summed over its items |
| Dashboard.JoinKeepsGroup | app/api/dashboard/route.ts:163 | the inner join with produtos loses no item of an existing product |
| Dashboard.MaisVendidosSpec | app/api/dashboard/route.ts:155-166 | the five best-selling products, or every product sold if fewer, largest quantity first, each with its name and the quantity sold over all sales whatever their status; no product left out sold more than one listed |
| Dashboard.ClienteNome | app/api/dashboard/route.ts:183-195 | no customer id (or 0) gives 'Venda sem cliente'; an id with no customer or an empty name gives 'Cliente não encontrado'; otherwise the customer's name |
| Dashboard.Recentes | app/api/dashboard/route.ts:169-195 | at most three rows, row i carrying recent sale i's id, customer, total, date and payment method together with its customer name |
| Dashboard.RecentesSpec | app/api/dashboard/route.ts:169-180 | the recent sales are finalized sales, newest first, and no finalized sale left out is newer than one shown |
| Dashboard.PagamentosAddUp | app/api/dashboard/route.ts:198-206 | the per-payment-method totals add up to the total of the rows grouped |
| Dashboard.PorFormaPagamentoAddsUp | app/api/dashboard/route.ts:198-206 | the per-payment-method totals add up to the overall finalized total shown in the statistics |
| Relatorios.MesesAtras | app/api/relatorios/route.ts:9-15 | the window is 3, 6 or 12 months: 3 exactly for '3m', 12 exactly for '12m', 6 for anything else or nothing |
| Relatorios.DoIndex | app/api/relatorios/route.ts:18 | month arithmetic: the year and month with a given month index, the inverse of counting months |
| Relatorios.SetMonth | app/api/relatorios/route.ts:18 | `Date.setMonth` with JavaScript's rollover of an overflowing day always yields a valid calendar date |
| Relatorios.DataInicial | app/api/relatorios/route.ts:17-20 | corrected window start: the first day of the month k months before today's |
| Relatorios.AsWrittenAgreesEarlyInMonth | app/api/relatorios/route.ts:17-20 | on days 1-28 the code as written gives that same date |
| Relatorios.LastDaysSkipAMonth | app/api/relatorios/route.ts:17-20 | on 31 Aug 2024 with '6m' the code as written starts the window on 1 March, not 1 February |
| Relatorios.MonthName | app/api/relatorios/route.ts:47-49 | months 1-12 get their three-letter name; any other number gets undefined |
| Relatorios.MonthlyRows | app/api/relatorios/route.ts:48-52 | one row per month, with its name, its count of finalized sales and their revenue |
| Relatorios.VendasMensaisSpec | app/api/relatorios/route.ts:23-52 | the monthly rows are in chronological order; a month is listed exactly when a finalized sale of the window falls in it, and only once; the monthly revenues add up to the window's revenue |
| Relatorios.ItensDoPeriodo | app/api/relatorios/route.ts:61-69 | the joined item rows all belong to existing products |
| Relatorios.MaisVendidosSpec | app/api/relatorios/route.ts:55-72 | the five best-selling products of the window, or every one sold if fewer, largest quantity first, each with its name and the quantity summed over items of finalized sales in the window; no product left out sold more in the window than one listed |
| Relatorios.ProdutosMaisVendidos | app/api/relatorios/route.ts:161-164 | one sent row per ranked product, in ranking order; the row type holds only the name and the quantity |
| Relatorios.ProdutosMaisVendidosSpec | app/api/relatorios/route.ts:55-72 | the rows sent are the five best-selling products of the window, or every one sold if fewer, largest quantity first, each an existing product's name with its window quantity; no product left out sold more in the window than one sent |
| Relatorios.ItemOutsideWindowIgnored | app/api/relatorios/route.ts:63-69 | an item of a sale that is not finalized, or is older than the window, does not change the ranking |
| Relatorios.PaymentLabel | app/api/relatorios/route.ts:108 | a known method gets its label, any other non-empty code itself, and null or '' gets 'Outros' |
| Relatorios.PaymentColor | app/api/relatorios/route.ts:111 | a known method gets its colour, anything else the grey default |
| Relatorios.PaymentLegendDistinct | app/api/relatorios/route.ts:91-105 | distinct payment methods get distinct labels and distinct colours, none of them the fallback |
| Relatorios.FormasPagamento | app/api/relatorios/route.ts:75-112 | one chart slice per payment-method group of the window's finalized sales, with its count, total, label and colour |
| Relatorios.NullMethodIsOutros | app/api/relatorios/route.ts:108-111 | sales with no payment method are shown as 'Outros' in grey |
| Relatorios.PeriodoWithinTotal | app/api/relatorios/route.ts:133-157 | the finalized sales split into those in the window and those before it, in count and revenue, so the window's figures never exceed the overall ones |
| Utils.FormatCode | lib/utils.ts:50 | null or '' gives '-', a code with a label its label, any other code itself |
| Utils.FormatPaymentMethodSpec | lib/utils.ts:42-51 | every payment method of the schema gets its own distinct label; an unknown code is shown unchanged and a missing one as '-' |
| Utils.FormatContaStatusSpec | lib/utils.ts:56-64 | pendente, pago and cancelado get their labels, but the schema's 'atrasado' is not in the table and is shown raw |
| Utils.FormatVendaStatusSpec | lib/utils.ts:69-76 | finalizada and cancelada get their labels, but the schema's default 'aberta' is not in the table and is shown raw |
| Utils.FormatDate | lib/utils.ts:26-30 | no date or '' gives '-'; a date is formatted, a string is parsed first; an Invalid Date, given or parsed, throws (date-fns' RangeError) |
| Utils.FormatDateAgrees | lib/utils.ts:26-30 | a non-empty string formats exactly as the Date it parses to, invalid ones included |
| Utils.FormatCurrency | lib/utils.ts:15-21 | a number is formatted as is; a string is parsed, and an unparsable one is shown as 0 |
| Utils.FormatCurrencyAgrees | lib/utils.ts:15-21 | a numeric string is shown the same as the number it parses to |
| Proxy.Gate | proxy.ts:15-61 | a request passes iff its path is open or its token is present and verifies; otherwise an API path gets a 401 ('Não autenticado' with no token, 'Token inválido' with a bad one) and any other path a redirect to /login, and the cookie is deleted exactly when a token was sent |
| Proxy.OpenIgnoresToken | proxy.ts:19-35 | public pages, public API prefixes and static paths pass whatever the cookie |
| Proxy.ApiNeverRedirected | proxy.ts:40-60 | a gated API path is never redirected and a gated page never gets a JSON 401 |
| Proxy.PrefixMatchAdmitsMore | proxy.ts:24-26 | the public API check is a prefix test, so '/api/healthcheck' and paths below '/api/dashboard' pass without a token |
| Proxy.ExactMatchForPages | proxy.ts:19-21 | the public page check is exact, so '/login/x' without a token is redirected |
| Auth.PublicOf | app/api/auth/login/route.ts:63-68 | the user shown in a response: id, name, email and role, never the password hash |
| Auth.PayloadOf | app/api/auth/login/route.ts:52-56 | the token claims are the user's id, email and role |
| Auth.Session.Set | app/api/auth/login/route.ts:59 | setting the session stores the token as the cookie |
| Auth.FindByEmail | app/api/auth/login/route.ts:24-26 | finds nothing exactly when no user has the email; otherwise a user of the table with that email |
| Auth.LoginDecision | app/api/auth/login/route.ts:8-77 | unreadable body 500; invalid body 400; unknown email 401; inactive user 401 'Usuário inativo'; wrong password 401; otherwise 200 with the public user |
| Auth.InactiveIgnoresPassword | app/api/auth/login/route.ts:35-40 | an inactive user is refused before the password is checked, so every password gets the same answer |
| Auth.NoEmailEnumeration | app/api/auth/login/route.ts:28-49 | an unknown email and a wrong password give the same 401 and message |
| Auth.Login | app/api/auth/login/route.ts:8-77 | answers the login decision, and sets the session cookie to the user's signed claims exactly on success |
| Auth.NewUser | app/api/auth/register/route.ts:39-44 | the inserted user: the given name and email, the password's hash, role vendedor, active |
| Auth.RegisterOutcome | app/api/auth/register/route.ts:8-72 | unreadable body 500; invalid body 400; taken email 400 'Email já cadastrado'; a name or email too long for its varchar(255) column 500 (the insert is refused); all leave the table unchanged; otherwise 200 and the new user appended |
| Auth.SecondRegisterFails | app/api/auth/register/route.ts:24-33 | once an email is registered, registering it again is refused and adds nothing |
| Auth.RegisteredUserCanLogIn | app/api/auth/register/route.ts:39-44 | a freshly registered user can log in with the chosen password, as an active vendedor |
| Auth.Register | app/api/auth/register/route.ts:8-72 | the handler's answer and user table are the register outcome; on success the cookie carries the new user's claims and the id counter advances by one, on failure nothing changes |
| Seed.GerarCPF | db/seed.ts:22-25 | a CPF of 14 characters in the ddd.ddd.ddd-dd layout that fits the cpf_cnpj column and whose digits read back as drawn |
| Seed.GerarCNPJ | db/seed.ts:28-31 | a CNPJ of 18 characters in the dd.ddd.ddd/0001-dd layout that fits the column and whose digits read back as drawn |
| Seed.GerarTelefone | db/seed.ts:34-37 | a phone of 15 characters, '(aa) 9dddd-dddd' with area code 10-99, that fits the telefone column and whose digits read back as drawn |
| Seed.Picked | db/seed.ts:162 | the drawn products in draw order |
| Seed.DedupByIdSpec | db/seed.ts:160-166 | keeping the first of each id yields distinct ids, covers exactly the ids drawn, draws only from the input, and is non-empty for a non-empty draw |
| Seed.SelectProducts | db/seed.ts:158-166 | the selection loop keeps 1 to 4 products with distinct ids, exactly the ids drawn |
| Seed.SeedItemFor | db/seed.ts:170-181 | an item of the product with the drawn quantity, its sale price, no discount and subtotal quantity × price |
| Seed.BuildItems | db/seed.ts:168-182 | one item per selected product in order, with quantities 1-5, and the loop's subtotal is the sum of the item subtotals |
| Seed.SeedSubtotalNonNegative | db/seed.ts:169-174 | non-negative item subtotals give a non-negative sale subtotal |
| Seed.SeedDiscount | db/seed.ts:184-185 | the discount is 0 or 10 % of the subtotal, the latter only when the draw exceeds 0.7, so the total stays between 90 % and 100 % of the subtotal |
| Seed.WithVendaId | db/seed.ts:201-203 | each item row gets the new sale's id and keeps its own fields |
| Seed.SeedVenda | db/seed.ts:187-196 | the seeded header is finalizada with the drawn customer and method, the subtotal, the drawn discount and total = subtotal − discount |
| Seed.BoletoReceivable | db/seed.ts:205-214 | a boleto sale's receivable is pending, for the sale's total, linked to the sale and its customer |
| Seed.PlanSale | db/seed.ts:158-182 | the products and items of one sale: 1 to 4 items of seeded products, with their subtotal |
| Seed.WriteSale | db/seed.ts:187-214 | one sale's writes: its header, all its items in one statement, and a receivable exactly for boleto; stock untouched |
| Seed.InsertSeedItems | db/seed.ts:201-203 | the sale's items are appended in one statement |
| Seed.Plan | db/seed.ts:154-182 | a draw decides the sale's customer, seller, payment method (boleto exactly for the fifth) and items |
| Seed.Plans | db/seed.ts:153-182 | one plan per draw, in loop order |
| Seed.PassSpec | db/seed.ts:184-214 | one pass writes its sale header at the next sale id, one item row per item carrying that id, and one pending receivable for that sale exactly when it is paid by boleto |
| Seed.WrittenStep | db/seed.ts:153-215 | appending one pass's writes, at the ids the counters reached, to those of the earlier passes gives the writes of one more pass |
| Seed.WrittenSales | db/seed.ts:153-197 | pass i creates the finalized sale with id first+i for plan i's customer, seller, payment method, subtotal and discount |
| Seed.WrittenItems | db/seed.ts:199-203 | every item row the loop writes belongs to one of the sales it creates |
| Seed.WrittenContas | db/seed.ts:205-214 | the loop writes one receivable per boleto sale, each pending and linked to one of the sales it creates |
| Seed.SeedSalesFigures | db/seed.ts:153-215 | twenty finalized sales with consecutive ids and the drawn customers, and as many receivables as boleto sales |
| Seed.SeedSale | db/seed.ts:153-215 | one pass of the loop writes exactly what Pass says for its draw's plan, and each serial counter advances by the rows it wrote |
| Seed.SeedStep | db/seed.ts:153-215 | after one more turn of the loop the tables hold the writes of the passes over one more plan, and the counters stand just past the rows written |
| Seed.SeedSales | db/seed.ts:153-215 | the loop appends to sales, items and receivables exactly what the passes over the draws' plans write, and returns the created sales |
| FormModal.Initial | hooks/use-form-modal.ts:42-44 | on mount the modal is closed, edits nothing and holds the initial form data |
| FormModal.Reset | hooks/use-form-modal.ts:46-49 | resetForm restores the initial data and clears the item, leaving the open flag |
| FormModal.Edit | hooks/use-form-modal.ts:51-55 | handleEdit opens the modal on the item with the form filled from it |
| FormModal.OpenChange | hooks/use-form-modal.ts:57-62 | handleOpenChange sets the open flag; closing resets the form to its state on mount, opening keeps it |
| FormModal.ResetIdempotent | hooks/use-form-modal.ts:46-49 | resetting twice is resetting once |
| FormModal.EditThenCloseForgets | hooks/use-form-modal.ts:51-62 | closing after any edit returns the form to its state on mount |
| FormModal.ReopenKeepsEdit | hooks/use-form-modal.ts:51-62 | re-opening after an edit keeps the item and its data |
| FormModal.FormModalHook.constructor | hooks/use-form-modal.ts:42-44 | the hook starts in the initial state |
| FormModal.FormModalHook.SetIsOpen | hooks/use-form-modal.ts:42 | setIsOpen changes only the open flag |
| FormModal.FormModalHook.SetFormData | hooks/use-form-modal.ts:44 | setFormData changes only the form data |
| FormModal.FormModalHook.ResetForm | hooks/use-form-modal.ts:46-49 | the hook's state becomes the reset state |
| FormModal.FormModalHook.HandleEdit | hooks/use-form-modal.ts:51-55 | the hook's state becomes the edit state |
| FormModal.FormModalHook.HandleOpenChange | hooks/use-form-modal.ts:57-62 | the hook's state becomes the open-change state |
| ConfirmDialog.Initial | components/confirm-dialog.tsx:86-88 | on mount the dialog is closed, idle and has nothing pending |
| ConfirmDialog.Confirmed | components/confirm-dialog.tsx:90-93 | confirm keeps the action pending and opens, without running it |
| ConfirmDialog.Running | components/confirm-dialog.tsx:97 | while the action runs the dialog is loading |
| ConfirmDialog.Settled | components/confirm-dialog.tsx:100-104 | the finally block returns the dialog to its state on mount |
| ConfirmDialog.AfterConfirm | components/confirm-dialog.tsx:95-106 | handleConfirm with nothing pending changes nothing; with an action, whether it throws or not, ends in the state on mount |
| ConfirmDialog.ConfirmRoundTrip | components/confirm-dialog.tsx:90-106 | confirm then handleConfirm returns the hook to its state on mount |
| ConfirmDialog.WithDefaults | components/confirm-dialog.tsx:41-47 | each prop left out takes its default ('Confirmar ação', …, destructive, not loading) and each given prop is kept |
| ConfirmDialog.Footer | components/confirm-dialog.tsx:61-76 | the footer has the outline cancel button, which closes the dialog, and the confirm button in the dialog's variant, which runs the confirm handler; both are disabled exactly while loading |
| ConfirmDialog.FooterFollowsHook | components/confirm-dialog.tsx:61-76 | fed the hook's loading flag, the buttons are disabled while the pending action runs and enabled once it settles |
| ConfirmDialog.ComponentConfirm | components/confirm-dialog.tsx:49-52 | the dialog closes itself once exactly when onConfirm completes, and not when it throws |
| ConfirmDialog.ConfirmDialogHook.constructor | components/confirm-dialog.tsx:86-88 | the hook starts in the state on mount, having run nothing |
| ConfirmDialog.ConfirmDialogHook.SetIsOpen | components/confirm-dialog.tsx:86 | setIsOpen changes only the open flag |
| ConfirmDialog.ConfirmDialogHook.Confirm | components/confirm-dialog.tsx:90-93 | the hook's state becomes the confirmed state and nothing runs |
| ConfirmDialog.ConfirmDialogHook.HandleConfirm | components/confirm-dialog.tsx:95-106 | runs the pending action exactly once, while loading, passes on its exception, and settles the state either way; with nothing pending does nothing |
| Sidebar.DashboardExact | components/layout/app-sidebar.tsx:115-116 | the Dashboard item is highlighted only on '/dashboard' itself |
| Sidebar.OtherItemsCoverSubpaths | components/layout/app-sidebar.tsx:117 | any other item is highlighted on its own page and the pages below it, and nowhere else |
| Sidebar.ActiveAgree | components/layout/app-sidebar.tsx:117 | two highlighted non-dashboard items agree on every position both urls have |
| Sidebar.AtMostOneActive | components/layout/app-sidebar.tsx:43-118 | on any page at most one menu item is highlighted |
| Sidebar.Split | components/layout/app-sidebar.tsx:85 | `split(' ')` gives at least one piece and no piece contains a space |
| Sidebar.SplitJoin | components/layout/app-sidebar.tsx:85 | joining the pieces with spaces gives back the name |
| Sidebar.WordStarts | components/layout/app-sidebar.tsx:84-88 | reference reading: the characters that start a word, taken from the name, with no space |
| Sidebar.FirstCharsAreWordStarts | components/layout/app-sidebar.tsx:84-88 | the first characters of the split pieces are exactly the word starts |
| Sidebar.GetInitials | components/layout/app-sidebar.tsx:83-90 | at most two characters: the first two word starts, uppercased |
| Sidebar.DoubledSpace | components/layout/app-sidebar.tsx:84-88 | a doubled space anywhere does not change the word starts |
| Sidebar.ExtraSpacesIgnored | components/layout/app-sidebar.tsx:84-88 | a doubled or leading space does not change the initials |
| Sidebar.Badge | components/layout/app-sidebar.tsx:142-148 | with no user 'U', 'Usuário', 'vendedor'; with one, the initials, the name or 'Usuário' when empty, and the role |

## Left out

- Sale cancellation (`app/api/vendas/[id]/route.ts`), the other CRUD routes (clientes, produtos, fornecedores, categorias, financeiro, auth/me, health) and the page components are not part of this model.
- `categoriaSchema`, `fornecedorSchema` and `contaReceberSchema` are not modelled, apart from the amount transform they share (`Validations.ParseValor`).
- The seed's inserts of users, customers, categories, suppliers, products, payables and the extra receivables, the date helpers and the console summary are not modelled; the seeded tables are given to `Seed.SeedSales`.
- Concurrency: each handler runs alone, so no interleaving of two requests (for example two registrations of one email) is modelled.
- decimal(10,2) columns and `toFixed(2)` are exact reals: rounding to cents is not modelled, nor floating-point error in the JavaScript arithmetic.
- drizzle-orm is not part of this model: `Vendas.List` takes from its PostgreSQL dialect that `LIMIT` is written only for a limit of zero or more and `OFFSET` only for a non-zero offset.
- Integers are unbounded: the int4 range of the id and stock columns and `parseInt` on the GET parameters are not modelled (page and limit arrive as integers; NaN is not modelled).
- Request bodies arrive already typed: a field of the wrong JSON type and the `details` of zod's `flatten()` in 400 answers are not modelled; an unreadable body is `None` in every handler that reads one (`Vendas.Post`, `Auth.LoginDecision`, `Auth.RegisterOutcome`).
- bcrypt hashing and checking, JWT signing and verification, cookies, zod's email test, `parseFloat`, Intl and date-fns formatting are parameters.
- Time zones and the clock: the calendar instants of "today" (start of month, previous month, the 7-day window, the report's start) are given, with the order between them stated in `Dashboard.CalendarOk`.
- Js.AsciiUpperString: `toUpperCase` is modelled on ASCII letters only, not the full Unicode mapping (for example 'ß' → 'SS').
- Equal sort keys: SQL leaves their order unspecified; the model keeps table order, and the proved properties hold for any order.
- The GET list receives the sales already ordered by `criadoEm` descending; the related customer, user and item rows it embeds are not modelled.
- FormModal.FormModalHook.SetFormData: only the plain-value form of `setFormData`, not the updater-function form.
- React batching, effects and rendering (JSX) are not modelled: each hook setter applies at once.
- Serial ids consumed by refused inserts are not modelled: a refused insert leaves the next id unchanged.
- Relatorios.MaisVendidos: the join with `vendas` relies on sale ids being unique, as the serial key guarantees.
- Dashboard.Get and Relatorios.Get assemble the figures with the corrected windows (see Findings) and carry no contract of their own; their parts are proved above.
- Relatorios.FormasPagamento: the database column only holds enum codes, so the path where an unknown non-empty code is shown by itself appears only in `Relatorios.PaymentLabel`.
- Seed.SeedSales: that product stock is untouched is stated by its modifies frame (the produtos field is not in it) rather than by an ensures.
- Validations.LoginIssues: string lengths count characters (code points); JavaScript counts UTF-16 code units, so the two differ only for text outside the Basic Multilingual Plane.
- Validations.RegisterIssues: string lengths count code points rather than UTF-16 code units, as for LoginIssues.
- Validations.ParseCliente: string lengths count code points rather than UTF-16 code units, as for LoginIssues.
- Validations.ParseContaPagar: string lengths count code points rather than UTF-16 code units, as for LoginIssues.
- Sidebar.GetInitials: `n[0]` is the first code point of a name part; JavaScript takes the first UTF-16 code unit, which is half a character outside the Basic Multilingual Plane.
- Validations.ParseItem: `z.number()` also accepts a fractional `produtoId`; the model types ids as integers, so such an item is not modelled. In the program the int4 column refuses it and the route answers 500, with the sale header and the earlier items already written.
- Validations.ParseVenda: `z.number()` also accepts a fractional `clienteId`; the model types ids as integers, so such a sale is not modelled. In the program the int4 column refuses it and the route answers 500 with nothing written.
- Vendas.Post: a fractional `clienteId` or `produtoId` is not modelled (ids are integers here); the program answers 500, after writing the header and earlier items when it is an item's `produtoId`.
- Utils.FormatCode: a JavaScript object literal also finds the names inherited from `Object.prototype` (`constructor`, `toString`, `__proto__`, ...); the "any other code" clause holds only for codes that are not such names. The program passes only enum codes here.
- Utils.FormatPaymentMethodSpec: the "any other code is shown unchanged" clause holds only for codes that are not `Object.prototype` names, as for FormatCode.
- Relatorios.PaymentLabel: the fallback to the code itself holds only for codes that are not `Object.prototype` names, as for Utils.FormatCode; the column holds only enum codes.
- Relatorios.PaymentColor: the fallback colour holds only for codes that are not `Object.prototype` names, as for Utils.FormatCode; the column holds only enum codes.
- Db.Database.InsertVenda: the decimal(10,2) columns are not bounded; a value of 10^8 or more makes PostgreSQL refuse the insert (numeric field overflow), which the routes answer with 500; here such a value is stored.

## Findings

| source | as written | input that shows it | evidently intended | confidence | as-written member | corrected member |
|---|---|---|---|---|---|---|
| app/api/dashboard/route.ts:61-78 | the previous month is `dataVenda <= fimMesAnterior`, where `fimMesAnterior` is the previous month's last day at 00:00 | a finalized sale at 15:00 on the previous month's last day is counted neither in this month nor in the previous one | the previous month is every instant before the start of this month | high, not executed | Dashboard.LastDayLost | Dashboard.MonthsPartition |
| app/api/relatorios/route.ts:17-20 | `setMonth(getMonth() - mesesAtras)` runs before `setDate(1)`, so on days 29-31 the day overflows into the next month first | today 31 Aug 2024 with '6m': 31 Feb rolls to 2 Mar, and the window opens on 1 Mar instead of 1 Feb | the first day of the month `mesesAtras` months back | high, not executed | Relatorios.LastDaysSkipAMonth | Relatorios.DataInicial |
