# Monthly expense tracker — Dafny model

`analise_gastos.py` is a small Tk application with three parts:

- A user (`Usuario`) confirms a name, a role and a monthly salary. They get a table of what is still available in each month, 1 to 12, and every month starts at the salary.
- Each expense (`Gasto`: year, month, description, amount) is recorded by the manager (`GerenciadorGastos`) and debited from its month.
- On request, the manager groups the recorded expenses of a year by month: the total per month, and the list of expenses per month in recording order.

The button handlers of `AplicacaoGastos` check the typed text before anything changes:

- the salary and amount texts pass `replace('.', '', 1).isdigit()`;
- name and role are non-empty;
- the salary is above zero;
- the year is all digits;
- the month is one of the twelve Portuguese names of `MESES`;
- the amount does not exceed the month's balance.

The model has five modules:

- `Numeric`: the text tests and the values `int`/`float` give for accepted text.
- `Months`: the `MESES` table, the membership test on a typed name, and the reverse lookup by comprehension.
- `Accounts`: `Usuario` as a class whose balance table is a `map<int, real>` updated in place.
- `Ledger`: the `Gasto` record, and `GerenciadorGastos` as a class holding `seq<Gasto>`. The grouping is a loop that builds two maps with `setdefault`, `+=` and `append`, exactly as the source does. It is proved against `Details` (the per-month filter) and `Sum`.
- `App`: the handlers' decisions, as pure validators returning `Result`. `AplicacaoGastos` is a class over a nullable user and manager whose methods take the entry texts and return the error its dialog would show or what it did.

The central invariant is that each month's balance equals the starting balance minus the sum of that month's recorded expenses (`GerenciadorGastos.Valid`, `BalanceInvariant`). Through the application, where the starting balance is the salary and every accepted amount is at most the month's balance, every balance stays between 0 and the salary (`AplicacaoGastos.Valid`, `SaldoDoMes`).

Amounts are exact `real` numbers. The code does not trim name and role, does not check that an amount is positive, and accepts the year 0; the model does the same:

- name and role are not trimmed, so a name of spaces is accepted;
- an amount of 0 is accepted, since nothing checks that an amount is positive;
- the year 0 is accepted.

## Model

| member | source | states |
|---|---|---|
| Numeric.IsDigitString | analise_gastos.py:130 | `isdigit()`: non-empty and only the digits '0'..'9'; such a text has no '.', so `replace('.', '', 1)` leaves it unchanged |
| Numeric.RemoveFirstDot | analise_gastos.py:101 | `replace('.', '', 1)`: the text before the first '.' followed by the text after it, or the whole text when it has no '.' |
| Numeric.IsNumeric | analise_gastos.py:101 | the format test `replace('.', '', 1).isdigit()` accepts a string iff it has a digit, only digits and '.', and at most one '.' |
| Numeric.NumericRejects | analise_gastos.py:142 | "", ".", "1.2.3" and "-5" fail the format test |
| Numeric.NumericAccepts | analise_gastos.py:142 | "5.", ".5", "3000.00" and "0" pass the format test |
| Numeric.RemoveDotAfterDigits | analise_gastos.py:101 | `replace('.', '', 1)` removes the '.' following a run of digits and nothing else |
| Numeric.PointNotation | analise_gastos.py:101-105 | digits, '.', digits is accepted, and `float` gives integer part + fraction / 10^(fraction length) |
| Numeric.IntegerNotation | analise_gastos.py:142-146 | a non-empty digit string is accepted and `float` gives its integer value |
| Numeric.ParseDotAtEndsExample | analise_gastos.py:105 | `float(".5") == 0.5` and `float("5.") == 5.0` |
| Numeric.DigitsValue | analise_gastos.py:134 | `int(ano)`: the number a digit string denotes, always below 10^(length of the string) |
| Numeric.ParseDecimal | analise_gastos.py:146 | `float(valor)`: lies between the integer the digits before the first '.' denote and the next integer, so it is never negative |
| Numeric.DigitsValuePositive | analise_gastos.py:105 | a digit string denotes a positive number iff one of its digits is not '0' |
| Numeric.ParseDecimalPositive | analise_gastos.py:105-107 | the parsed salary is > 0 iff the text has a non-zero digit, which decides the `salario > 0` test |
| Numeric.DotIndex | analise_gastos.py:105 | the split point `float` uses: the first '.', or the end when there is none |
| Numeric.YearExample | analise_gastos.py:130-134 | "2024" passes `isdigit` and `int` gives 2024 |
| Months.TableIsBijection | analise_gastos.py:55-58 | `MESES` has exactly the keys 1..12, distinct keys have distinct names, and a string is a value iff some month 1..12 has that name |
| Months.DistinctNames | analise_gastos.py:55-58 | no two months of `MESES` share a name |
| Months.IsMonthName | analise_gastos.py:136 | `mes in MESES.values()` holds iff some month 1..12 has exactly that name |
| Months.KeysNamed | analise_gastos.py:140 | the comprehension `[key for key, value in MESES.items() if value == mes]` holds exactly the keys named `mes` |
| Months.KeysNamedOfName | analise_gastos.py:140 | for a month's own name that comprehension is the one-element list of that month |
| Months.OrdinalOf | analise_gastos.py:136-140 | for an accepted name, element 0 of the comprehension is a month 1..12 whose name is the typed text |
| Months.OrdinalRoundTrip | analise_gastos.py:136-140 | month → name → month and name → month → name are both the identity |
| Months.MarchIsThird | analise_gastos.py:55-58 | "Março" is accepted and resolves to 3 |
| Months.NotMonthNames | analise_gastos.py:136 | "Marco", "13", "março" and "" are refused: the test is exact |
| Accounts.InitialBalances | analise_gastos.py:11 | the initial table has exactly the keys 1..12, each bound to the salary |
| Accounts.Usuario.constructor | analise_gastos.py:6-11 | name, role and salary are stored unchanged and every month 1..12 starts at the salary |
| Accounts.Usuario.AtualizarSaldo | analise_gastos.py:14-15 | month `mes` drops by exactly `gasto`; every other month and the key set are unchanged |
| Ledger.DetailsSnoc | analise_gastos.py:42-48 | recording one more expense extends its own month's filtered list by that expense and leaves every other month's list alone |
| Ledger.DetailsByMonthSkip | analise_gastos.py:43 | an expense of another year leaves the per-month grouping unchanged |
| Ledger.DetailsByMonthAdd | analise_gastos.py:43-48 | a selected expense joins the end of its month's list in the grouping |
| Ledger.Matches | analise_gastos.py:43 | the year filter `ano is None or gasto.ano == ano` |
| Ledger.AddToTotal | analise_gastos.py:44-45 | `setdefault(mes, 0)` then `+=`: the month's total, 0 when it had none, grows by the amount and no other month changes |
| Ledger.AppendToList | analise_gastos.py:47-48 | `setdefault(mes, [])` then `append`: the month's list, empty when it had none, gains the expense at its end and no other month changes |
| Ledger.SetDefault | analise_gastos.py:44-47 | `setdefault` binds the key to the old value or to the default and changes no other key |
| Ledger.TotalsOfAppend | analise_gastos.py:44-48 | appending an expense to a month's list adds its amount to that month's total |
| Ledger.DetailsStep | analise_gastos.py:47-48 | `setdefault` then `append` on a selected expense turns the grouping of the earlier expenses into the grouping of all of them |
| Ledger.TotalsStep | analise_gastos.py:44-48 | `setdefault` then `+=` keeps every total equal to the sum of its month's list |
| Ledger.LoopDetailsGroup | analise_gastos.py:39-50 | the lists the loop builds are, per month with a selected expense, the selected expenses of that month in list order |
| Ledger.LoopTotalsSum | analise_gastos.py:39-50 | the totals the loop builds are the sums of its lists |
| Ledger.GroupingComplete | analise_gastos.py:50 | both returned maps have as keys exactly the months of the selected expenses, with lists and sums as above |
| Ledger.DetailsAppend | analise_gastos.py:42-48 | grouping distributes over concatenation, so earlier records keep their order within a month |
| Ledger.DetailsMembers | analise_gastos.py:43-48 | a month's list holds exactly the recorded expenses of that month that pass the year filter |
| Ledger.SumAppend | analise_gastos.py:45 | the total of two lists is the sum of their totals |
| Ledger.SumNonNegative | analise_gastos.py:45 | a list of non-negative amounts has a non-negative total |
| Ledger.MonthsWithDetails | analise_gastos.py:44-48 | a month is a key iff its filtered list is non-empty |
| Ledger.MonthsWithEmpty | analise_gastos.py:39-50 | the result maps are empty iff no recorded expense passes the year filter |
| Ledger.MonthsWithOrdinals | analise_gastos.py:43-48 | when every record names a month 1..12, so does every key of the result |
| Ledger.Replay | analise_gastos.py:32-35 | the balance table after each recorded expense called `atualizar_saldo` once, in order; it never adds or removes a month |
| Ledger.ReplayBalance | analise_gastos.py:32-35 | after any sequence of debits, a month's balance is its start minus the sum of that month's expenses |
| Ledger.GerenciadorGastos.constructor | analise_gastos.py:27-29 | the manager keeps the given user, starts with an empty list, and the invariant holds |
| Ledger.GerenciadorGastos.BalanceInvariant | analise_gastos.py:27-35 | in every reachable state, `saldo_por_mes[m]` is the starting balance minus the sum of the recorded expenses of month m |
| Ledger.GerenciadorGastos.AdicionarGasto | analise_gastos.py:32-35 | the list grows by exactly `Gasto(ano, mes, descricao, valor)` at the end, only month `mes` drops by `valor`, and the invariant is kept |
| Ledger.GerenciadorGastos.CalcularTotalGastos | analise_gastos.py:38-50 | read-only; both maps have the months of the matching expenses as keys, each list holds that month's matching expenses in order, and each total is the sum of its list |
| App.ValidarUsuario | analise_gastos.py:101-116 | format error iff the salary text fails the test; incomplete-form error iff the format passes but name or role is empty or the salary is 0; accepted iff the format passes, name and role are non-empty and the salary has a non-zero digit; then the salary is `float(salario)` > 0 |
| App.ValidarGasto | analise_gastos.py:130-150 | each error iff every earlier check passed and its own fails, in the source's order; accepted iff the year is all digits, the month is a name, the amount passes the format test and does not exceed the month's balance (equal is accepted); then the year is `int(ano)`, the month is the named one, the amount is `float(valor)` and 0 ≤ amount ≤ that month's balance |
| App.NomeComEspacos | analise_gastos.py:107 | a name and role of one space each are accepted (no trimming) |
| App.SalarioZero | analise_gastos.py:101-116 | "0.00" passes the format test but is refused as an incomplete form |
| App.AnoZeroValorZero | analise_gastos.py:130-148 | the year "0" and the amount "0" are accepted |
| App.Valor1000 | analise_gastos.py:142-146 | "1000" is accepted and parses to 1000 |
| App.Valor1500 | analise_gastos.py:142-146 | "1500" is accepted and parses to 1500 |
| App.Valor600 | analise_gastos.py:142-146 | "600" is accepted and parses to 600 |
| App.Valor500 | analise_gastos.py:142-146 | "500" is accepted and parses to 500 |
| App.Valor3000 | analise_gastos.py:101-105 | "3000" is accepted and parses to 3000 |
| App.QuatroDigitos | analise_gastos.py:134 | `int` gives 1000, 1500 and 3000 for those texts |
| App.CenarioMarcoPrimeiro | analise_gastos.py:130-152 | with the full salary 3000 left in March, 1000 in "Março" 2024 is accepted as month 3 |
| App.CenarioMarcoSegundo | analise_gastos.py:130-152 | with 2000 left in March, 1500 is accepted |
| App.CenarioMarcoTerceiro | analise_gastos.py:148-150 | with 500 left in March, 600 is refused for insufficient balance |
| App.CenarioMarcoLimite | analise_gastos.py:148-152 | with 500 left in March, 500 is accepted: the test is `valor > saldo`, so an amount equal to the balance passes |
| App.MesmoMes | analise_gastos.py:42-50 | two expenses of the same year and month form one group, in order, whose total is the sum of their amounts |
| App.BalancesStayInRange | analise_gastos.py:148-152 | debiting at most the month's balance keeps every balance within [0, salary] |
| App.AplicacaoGastos.constructor | analise_gastos.py:60-63 | the application starts with no user and no manager |
| App.AplicacaoGastos.SaldoDoMes | analise_gastos.py:148-152 | once a user is confirmed, each month's balance is the salary minus that month's expenses and lies in [0, salary] |
| App.AplicacaoGastos.IniciarAplicacao | analise_gastos.py:95-116 | the result is the validator's; on error nothing changes; on success a new user with every month at the salary and an empty manager replace the old ones |
| App.AplicacaoGastos.AdicionarGasto | analise_gastos.py:119-152 | with no user, `SemUsuario`; otherwise the validator's result on the current balances; a rejection changes neither list nor balances; an acceptance appends the expense and debits only its month |
| App.AplicacaoGastos.Registrar | analise_gastos.py:152 | the accepted path: the expense is appended and debited, name, role and salary are unchanged, and every balance stays in [0, salary] |
| App.AplicacaoGastos.Calcular | analise_gastos.py:161-178 | with no user, `SemUsuario`; a year that is not all digits, `AnoInvalido`; otherwise the "no expenses" note iff no expense has that year, else the per-month totals and lists of that year |
| App.UsuarioMarco | analise_gastos.py:95-116 | confirming "Ana", "Dev", "3000" gives a user with 3000 in March and an empty list |
| App.PrimeiroGastoMarco | analise_gastos.py:119-152 | adding 1000 in "Março" 2024 against 3000 appends it and leaves 2000 |
| App.SegundoGastoMarco | analise_gastos.py:119-152 | adding 1500 against 2000 appends it and leaves 500 |
| App.TerceiroGastoMarco | analise_gastos.py:148-150 | adding 600 against 500 is refused and changes neither the list nor the balance |
| App.ResumoMarco | analise_gastos.py:161-178 | with the two March expenses recorded, "Calcular" for 2024 gives March alone, with both expenses in order and 2500 in all |
| App.CenarioMarco | analise_gastos.py:95-178 | the whole walk-through through the application: March ends at 500 and the 2024 summary holds only the two accepted expenses, totalling 2500 |

## Left out

- Tk widgets, layout, the `messagebox` dialogs, clearing the entries, enabling and disabling the buttons, and `main`/`mainloop` (analise_gastos.py:60-92, 110-113, 153-158). The handlers take the entry texts as parameters and return the error their dialog would show.
- `exibir_resultados` and its `:.2f` rendering (analise_gastos.py:181-201): presentation only. `Calcular` returns the two maps it would be given.
- Floating-point semantics of `float(...)` and of the running sums: amounts are exact reals.
- Unicode digits accepted by `str.isdigit`: only ASCII '0'..'9' count as digits.
- Dictionary insertion order of the two result maps: Dafny maps are unordered. The order of expenses *within* a month's list is modelled.
- Accounts.Usuario.AtualizarSaldo: requires the month to be in the balance table. The source raises `KeyError` for any other month; the table always holds 1..12, and every caller passes a month from `MESES`.
- Ledger.GerenciadorGastos.AdicionarGasto: requires the month to be in the balance table. The source appends the record and then raises `KeyError` for a month outside 1..12. The application only ever passes a month resolved from `MESES`.
- Ledger.GerenciadorGastos.constructor: requires the user's table to hold the months 1..12, which every `Usuario` does from its constructor.
- App.AplicacaoGastos.IniciarAplicacao: after a success the source disables the confirm button. The model has no buttons, so a second confirmation replaces the user and the manager.
- App.AplicacaoGastos.AdicionarGasto: the description is stored as typed and never checked, as in the source. The dialog texts themselves are not modelled.
