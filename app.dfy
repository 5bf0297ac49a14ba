/**
 * The decisions `AplicacaoGastos` takes in its three button handlers, with
 * the widgets left out: each handler receives the texts of the entries and
 * returns either the error its dialog would show or what it did.
 */
module App {
  import opened Numeric
  import opened Months
  import opened Accounts
  import opened Ledger

  /** The error dialogs of the handlers. */
  datatype Erro =
    | SalarioInvalido    // the salary text fails the numeric format test
    | CamposIncompletos  // empty name or role, or a salary that is not above 0
    | SemUsuario         // no user was confirmed yet
    | AnoInvalido        // the year text is not all digits
    | MesInvalido        // the month text is not one of the twelve names
    | ValorInvalido      // the amount text fails the numeric format test
    | SaldoInsuficiente  // the amount exceeds the month's balance

  datatype Result<T> = Ok(value: T) | Err(erro: Erro)

  /** A confirmed user, as `iniciar_aplicacao` builds it. */
  datatype Cadastro = Cadastro(nome: string, cargo: string, salario: real)

  /** An accepted expense: the parsed year, the month's number and the parsed amount. */
  datatype Lancamento = Lancamento(ano: int, mes: int, valor: real)

  /** What `calcular` shows: a note that the year has no expenses, or the per-month summary. */
  datatype Relatorio =
    | SemGastos
    | Resumo(totalPorMes: map<int, real>, detalhesPorMes: map<int, seq<Gasto>>)

  /**
   * The checks of `iniciar_aplicacao`: the salary's format first, then name,
   * role and a salary above zero. Name and role are only checked for being
   * non-empty, so a name of spaces is accepted.
   */
  function ValidarUsuario(nome: string, cargo: string, salario: string): (r: Result<Cadastro>)
    ensures r == Err(SalarioInvalido) <==> !WellFormedDecimal(salario)
    ensures r == Err(CamposIncompletos) <==> (WellFormedDecimal(salario) &&
      !(nome != [] && cargo != [] && exists i :: 0 <= i < |salario| && NonZeroDigit(salario[i])))
    ensures r.Ok? <==> (WellFormedDecimal(salario) && nome != [] && cargo != [] &&
      exists i :: 0 <= i < |salario| && NonZeroDigit(salario[i]))
    ensures r.Ok? ==> r.value == Cadastro(nome, cargo, ParseDecimal(salario)) && r.value.salario > 0.0
  {
    ParseDecimalPositive(salario);
    if !IsNumeric(salario) then Err(SalarioInvalido)
    else
      var s := ParseDecimal(salario);
      if nome != [] && cargo != [] && s > 0.0 then Ok(Cadastro(nome, cargo, s))
      else Err(CamposIncompletos)
  }

  /**
   * The checks of `adicionar_gasto`, in its order: the year is all digits,
   * the month is one of the twelve names, the amount passes the format test,
   * and the amount does not exceed the month's balance. An amount of zero
   * and the year 0 are accepted.
   */
  function ValidarGasto(ano: string, mes: string, valor: string, saldo: map<int, real>): (r: Result<Lancamento>)
    requires ORDINALS <= saldo.Keys
    ensures r == Err(AnoInvalido) <==> !IsDigitString(ano)
    ensures r == Err(MesInvalido) <==> IsDigitString(ano) && forall m :: IsOrdinal(m) ==> MESES[m] != mes
    ensures r == Err(ValorInvalido) <==> IsDigitString(ano) && IsMonthName(mes) && !WellFormedDecimal(valor)
    ensures r == Err(SaldoInsuficiente) <==> (IsDigitString(ano) && IsMonthName(mes) && WellFormedDecimal(valor) &&
      ParseDecimal(valor) > saldo[OrdinalOf(mes)])
    ensures r.Ok? <==> (IsDigitString(ano) && IsMonthName(mes) && WellFormedDecimal(valor) &&
      ParseDecimal(valor) <= saldo[OrdinalOf(mes)])
    ensures r.Ok? ==> IsOrdinal(r.value.mes) && MESES[r.value.mes] == mes
    ensures r.Ok? ==> r.value.ano == DigitsValue(ano) && r.value.valor == ParseDecimal(valor)
    ensures r.Ok? ==> 0.0 <= r.value.valor <= saldo[r.value.mes]
  {
    TableIsBijection();
    if !IsDigitString(ano) then Err(AnoInvalido)
    else if !IsMonthName(mes) then Err(MesInvalido)
    else if !IsNumeric(valor) then Err(ValorInvalido)
    else
      var m := OrdinalOf(mes);
      var v := ParseDecimal(valor);
      if v > saldo[m] then Err(SaldoInsuficiente)
      else Ok(Lancamento(DigitsValue(ano), m, v))
  }

  /** Name and role are not trimmed: spaces pass. */
  lemma NomeComEspacos()
    ensures ValidarUsuario(" ", " ", "1") == Ok(Cadastro(" ", " ", 1.0))
  {
    assert DotIndex("1") == 1;
    assert NonZeroDigit("1"[0]);
    assert "1"[..0] == "";
    assert CountDots("1"[1..]) == 0;
  }

  /** A salary that parses to zero is refused as an incomplete form, not as a bad number. */
  lemma SalarioZero()
    ensures ValidarUsuario("Ana", "Dev", "0.00") == Err(CamposIncompletos)
  {
    assert IsDigit("0.00"[0]);
    assert RemoveFirstDot("0.00") == "000";
    assert forall i :: 0 <= i < |"0.00"| ==> !NonZeroDigit("0.00"[i]);
  }

  /** The year 0 and an amount of 0 are accepted. */
  lemma AnoZeroValorZero(saldo: map<int, real>)
    requires ORDINALS <= saldo.Keys && saldo[1] >= 0.0
    ensures ValidarGasto("0", "Janeiro", "0", saldo) == Ok(Lancamento(0, 1, 0.0))
  {
    assert IsDigit("0"[0]);
    assert "0"[..0] == "";
    assert DotIndex("0") == 1;
    OrdinalRoundTrip(1, "");
  }

  /** The values `int` gives the four-digit texts of the March walk-through. */
  lemma QuatroDigitos()
    ensures DigitsValue("1000") == 1000 && DigitsValue("1500") == 1500 && DigitsValue("3000") == 3000
  {
    assert "1000"[..3] == "100" && "100"[..2] == "10" && "10"[..1] == "1";
    assert "1500"[..3] == "150" && "150"[..2] == "15" && "15"[..1] == "1";
    assert "3000"[..3] == "300" && "300"[..2] == "30" && "30"[..1] == "3";
  }

  lemma Valor1000()
    ensures WellFormedDecimal("1000") && ParseDecimal("1000") == 1000.0
  {
    IntegerNotation("1000");
    QuatroDigitos();
  }

  lemma Valor1500()
    ensures WellFormedDecimal("1500") && ParseDecimal("1500") == 1500.0
  {
    IntegerNotation("1500");
    QuatroDigitos();
  }

  lemma Valor600()
    ensures WellFormedDecimal("600") && ParseDecimal("600") == 600.0
  {
    IntegerNotation("600");
    assert "600"[..2] == "60" && "60"[..1] == "6";
  }

  lemma Valor500()
    ensures WellFormedDecimal("500") && ParseDecimal("500") == 500.0
  {
    IntegerNotation("500");
    assert "500"[..2] == "50" && "50"[..1] == "5";
  }

  lemma Valor3000()
    ensures WellFormedDecimal("3000") && ParseDecimal("3000") == 3000.0
  {
    IntegerNotation("3000");
    QuatroDigitos();
  }

  /** Salary 3000; in March, 1000 is accepted against the full salary. */
  lemma CenarioMarcoPrimeiro(saldo: map<int, real>)
    requires ORDINALS <= saldo.Keys && saldo[3] == 3000.0
    ensures ValidarGasto("2024", "Março", "1000", saldo) == Ok(Lancamento(2024, 3, 1000.0))
  {
    YearExample();
    MarchIsThird();
    Valor1000();
  }

  /** Then 1500 is accepted against the remaining 2000, leaving 500. */
  lemma CenarioMarcoSegundo(saldo: map<int, real>)
    requires ORDINALS <= saldo.Keys && saldo[3] == 2000.0
    ensures ValidarGasto("2024", "Março", "1500", saldo) == Ok(Lancamento(2024, 3, 1500.0))
  {
    YearExample();
    MarchIsThird();
    Valor1500();
  }

  /** And 600 is then refused: it exceeds the 500 left in March. */
  lemma CenarioMarcoTerceiro(saldo: map<int, real>)
    requires ORDINALS <= saldo.Keys && saldo[3] == 500.0
    ensures ValidarGasto("2024", "Março", "600", saldo) == Err(SaldoInsuficiente)
  {
    YearExample();
    MarchIsThird();
    Valor600();
  }

  /** An amount equal to the whole balance left is accepted: the test is `valor > saldo`. */
  lemma CenarioMarcoLimite(saldo: map<int, real>)
    requires ORDINALS <= saldo.Keys && saldo[3] == 500.0
    ensures ValidarGasto("2024", "Março", "500", saldo) == Ok(Lancamento(2024, 3, 500.0))
  {
    YearExample();
    MarchIsThird();
    Valor500();
  }

  /** Every balance lies between 0 and the salary. */
  ghost predicate InRange(saldo: map<int, real>, salario: real)
  {
    forall m :: m in saldo ==> 0.0 <= saldo[m] <= salario
  }

  /** Debiting an amount no larger than the month's balance keeps every balance in range. */
  lemma BalancesStayInRange(saldo: map<int, real>, mes: int, valor: real, salario: real)
    requires InRange(saldo, salario) && mes in saldo && 0.0 <= valor <= saldo[mes]
    ensures InRange(saldo[mes := saldo[mes] - valor], salario)
  {
  }

  class AplicacaoGastos {
    var usuario: Usuario?
    var gerenciador: GerenciadorGastos?

    /**
     * Either nobody is confirmed yet, or the confirmed user is the one the
     * ledger debits, started from the salary in every month, and every
     * balance lies between 0 and the salary.
     */
    ghost predicate Valid()
      reads this, usuario, gerenciador
    {
      (usuario == null <==> gerenciador == null) &&
      (usuario != null ==>
        gerenciador.usuario == usuario &&
        usuario.Valid() && gerenciador.Valid() &&
        gerenciador.inicial == InitialBalances(usuario.salario) &&
        usuario.nome != [] && usuario.cargo != [] && usuario.salario > 0.0 &&
        (forall i :: 0 <= i < |gerenciador.gastos| ==> gerenciador.gastos[i].valor >= 0.0) &&
        InRange(usuario.saldoPorMes, usuario.salario))
    }

    constructor ()
      ensures Valid() && usuario == null && gerenciador == null
    {
      usuario := null;
      gerenciador := null;
    }

    /** Each month's balance is the salary minus that month's recorded expenses. */
    lemma SaldoDoMes(m: int)
      requires Valid() && usuario != null && IsOrdinal(m)
      ensures usuario.saldoPorMes[m] == usuario.salario - Sum(Details(gerenciador.gastos, None, m))
      ensures 0.0 <= usuario.saldoPorMes[m] <= usuario.salario
    {
      gerenciador.BalanceInvariant(m);
    }

    /**
     * "Confirmar Usuário": on valid input, a new user with every month at the
     * salary and an empty ledger replace whatever was there; otherwise
     * nothing changes.
     */
    method IniciarAplicacao(nome: string, cargo: string, salario: string) returns (r: Result<Cadastro>)
      requires Valid()
      modifies this
      ensures Valid()
      ensures r == ValidarUsuario(nome, cargo, salario)
      ensures r.Err? ==> usuario == old(usuario) && gerenciador == old(gerenciador)
      ensures r.Ok? ==> fresh(usuario) && fresh(gerenciador)
      ensures r.Ok? ==> usuario.nome == nome && usuario.cargo == cargo && usuario.salario == r.value.salario
      ensures r.Ok? ==> usuario.saldoPorMes == InitialBalances(r.value.salario) && gerenciador.gastos == []
    {
      r := ValidarUsuario(nome, cargo, salario);
      if r.Ok? {
        var u := new Usuario(nome, cargo, r.value.salario);
        var g := new GerenciadorGastos(u);
        usuario, gerenciador := u, g;
      }
    }

    /**
     * "Adicionar Gasto": every rejection returns before the ledger is
     * called, so the list and the balances are untouched; an accepted
     * expense is appended and debited from its month only.
     */
    method AdicionarGasto(ano: string, mes: string, descricao: string, valor: string) returns (r: Result<Lancamento>)
      requires Valid()
      modifies usuario, gerenciador
      ensures Valid()
      ensures usuario == null ==> r == Err(SemUsuario)
      ensures usuario != null ==> r == ValidarGasto(ano, mes, valor, old(usuario.saldoPorMes))
      ensures usuario != null ==>
        usuario.nome == old(usuario.nome) && usuario.cargo == old(usuario.cargo) && usuario.salario == old(usuario.salario)
      ensures usuario != null && r.Err? ==>
        gerenciador.gastos == old(gerenciador.gastos) && usuario.saldoPorMes == old(usuario.saldoPorMes)
      ensures r.Ok? ==>
        gerenciador.gastos == old(gerenciador.gastos) + [Gasto(r.value.ano, r.value.mes, descricao, r.value.valor)] &&
        usuario.saldoPorMes == old(usuario.saldoPorMes)[r.value.mes := old(usuario.saldoPorMes[r.value.mes]) - r.value.valor]
    {
      if usuario == null {
        return Err(SemUsuario);
      }
      r := ValidarGasto(ano, mes, valor, usuario.saldoPorMes);
      if r.Ok? {
        var l := r.value;
        Registrar(l, descricao);
      }
    }

    /** The accepted path of "Adicionar Gasto": the ledger records and debits the expense. */
    method Registrar(l: Lancamento, descricao: string)
      requires Valid() && usuario != null
      requires IsOrdinal(l.mes) && 0.0 <= l.valor <= usuario.saldoPorMes[l.mes]
      modifies usuario, gerenciador
      ensures Valid() && usuario != null
      ensures usuario.nome == old(usuario.nome) && usuario.cargo == old(usuario.cargo) && usuario.salario == old(usuario.salario)
      ensures gerenciador.gastos == old(gerenciador.gastos) + [Gasto(l.ano, l.mes, descricao, l.valor)]
      ensures usuario.saldoPorMes == old(usuario.saldoPorMes)[l.mes := old(usuario.saldoPorMes[l.mes]) - l.valor]
    {
      ghost var saldo := usuario.saldoPorMes;
      gerenciador.AdicionarGasto(l.ano, l.mes, descricao, l.valor);
      BalancesStayInRange(saldo, l.mes, l.valor, usuario.salario);
    }

    /**
     * "Calcular": the expenses of the typed year grouped by month, or the
     * note that the year has none.
     */
    method Calcular(ano: string) returns (r: Result<Relatorio>)
      requires Valid()
      ensures usuario == null ==> r == Err(SemUsuario)
      ensures usuario != null && !IsDigitString(ano) ==> r == Err(AnoInvalido)
      ensures usuario != null && IsDigitString(ano) ==> r.Ok?
      ensures r == Ok(SemGastos) <==> (usuario != null && IsDigitString(ano) &&
        forall i :: 0 <= i < |gerenciador.gastos| ==> gerenciador.gastos[i].ano != DigitsValue(ano))
      ensures r.Ok? && r.value.Resumo? ==>
        var filtro, resumo := Some(DigitsValue(ano) as int), r.value;
        resumo.totalPorMes.Keys == resumo.detalhesPorMes.Keys == MonthsWith(gerenciador.gastos, filtro) &&
        MonthsWith(gerenciador.gastos, filtro) <= ORDINALS &&
        (forall m :: m in resumo.detalhesPorMes ==> resumo.detalhesPorMes[m] == Details(gerenciador.gastos, filtro, m)) &&
        (forall m :: m in resumo.totalPorMes ==> resumo.totalPorMes[m] == Sum(resumo.detalhesPorMes[m]))
    {
      if usuario == null {
        return Err(SemUsuario);
      }
      if !IsDigitString(ano) {
        return Err(AnoInvalido);
      }
      var filtro := Some(DigitsValue(ano) as int);
      var totalPorMes, resumoDetalhado := gerenciador.CalcularTotalGastos(filtro);
      MonthsWithEmpty(gerenciador.gastos, filtro);
      MonthsWithOrdinals(gerenciador.gastos, filtro);
      if totalPorMes != map[] {
        r := Ok(Resumo(totalPorMes, resumoDetalhado));
      } else {
        r := Ok(SemGastos);
      }
    }
  }

  /** Two expenses of the same year and month make one group, in order, with their sum. */
  lemma MesmoMes(g1: Gasto, g2: Gasto)
    requires g1.ano == g2.ano && g1.mes == g2.mes
    ensures MonthsWith([g1, g2], Some(g1.ano)) == {g1.mes}
    ensures Details([g1, g2], Some(g1.ano), g1.mes) == [g1, g2]
    ensures Sum([g1, g2]) == g1.valor + g2.valor
  {
    assert [g1, g2][..1] == [g1] && [g1][..0] == [];
    assert Details([g1], Some(g1.ano), g1.mes) == [g1];
    assert MonthsWith([g1], Some(g1.ano)) == {g1.mes};
    assert Sum([g1]) == g1.valor;
  }

  lemma SingleKey<V>(t: map<int, V>, m: int)
    requires t.Keys == {m}
    ensures t == map[m := t[m]]
  {
  }

  /** The March walk-through starts with a user whose salary is 3000. */
  method UsuarioMarco() returns (app: AplicacaoGastos)
    ensures fresh(app) && fresh(app.usuario) && fresh(app.gerenciador)
    ensures app.Valid() && app.usuario != null
    ensures app.usuario.saldoPorMes[3] == 3000.0 && app.gerenciador.gastos == []
  {
    Valor3000();
    app := new AplicacaoGastos();
    var c := app.IniciarAplicacao("Ana", "Dev", "3000");
    assert NonZeroDigit("3000"[0]);
    assert c == Ok(Cadastro("Ana", "Dev", 3000.0));
  }

  /** Its first expense, 1000 in March 2024, is accepted against the full salary. */
  method PrimeiroGastoMarco(app: AplicacaoGastos)
    requires app.Valid() && app.usuario != null
    requires app.usuario.saldoPorMes[3] == 3000.0
    modifies app.usuario, app.gerenciador
    ensures app.Valid() && app.usuario != null
    ensures app.usuario.saldoPorMes[3] == 2000.0
    ensures app.gerenciador.gastos == old(app.gerenciador.gastos) + [Gasto(2024, 3, "Aluguel", 1000.0)]
  {
    CenarioMarcoPrimeiro(app.usuario.saldoPorMes);
    var a := app.AdicionarGasto("2024", "Março", "Aluguel", "1000");
    assert a == Ok(Lancamento(2024, 3, 1000.0));
  }

  /** Its second, 1500, is accepted against the 2000 left and leaves 500. */
  method SegundoGastoMarco(app: AplicacaoGastos)
    requires app.Valid() && app.usuario != null
    requires app.usuario.saldoPorMes[3] == 2000.0
    modifies app.usuario, app.gerenciador
    ensures app.Valid() && app.usuario != null
    ensures app.usuario.saldoPorMes[3] == 500.0
    ensures app.gerenciador.gastos == old(app.gerenciador.gastos) + [Gasto(2024, 3, "Viagem", 1500.0)]
  {
    CenarioMarcoSegundo(app.usuario.saldoPorMes);
    var b := app.AdicionarGasto("2024", "Março", "Viagem", "1500");
    assert b == Ok(Lancamento(2024, 3, 1500.0));
  }

  /** Its third, 600, is refused with 500 left, and nothing changes. */
  method TerceiroGastoMarco(app: AplicacaoGastos)
    requires app.Valid() && app.usuario != null
    requires app.usuario.saldoPorMes[3] == 500.0
    modifies app.usuario, app.gerenciador
    ensures app.Valid() && app.usuario != null
    ensures app.usuario.saldoPorMes[3] == 500.0
    ensures app.gerenciador.gastos == old(app.gerenciador.gastos)
  {
    CenarioMarcoTerceiro(app.usuario.saldoPorMes);
    var d := app.AdicionarGasto("2024", "Março", "Jantar", "600");
    assert d == Err(SaldoInsuficiente);
  }

  /** The summary for 2024 after the two accepted March expenses: March alone, both expenses in order, 2500 in all. */
  method ResumoMarco(app: AplicacaoGastos) returns (resumo: Result<Relatorio>)
    requires app.Valid() && app.usuario != null
    requires app.gerenciador.gastos == [Gasto(2024, 3, "Aluguel", 1000.0), Gasto(2024, 3, "Viagem", 1500.0)]
    ensures resumo == Ok(Resumo(map[3 := 2500.0], map[3 := app.gerenciador.gastos]))
  {
    YearExample();
    MesmoMes(app.gerenciador.gastos[0], app.gerenciador.gastos[1]);
    resumo := app.Calcular("2024");
    SingleKey(resumo.value.totalPorMes, 3);
    SingleKey(resumo.value.detalhesPorMes, 3);
  }

  /**
   * The March walk-through from start to end: a user with salary 3000 adds
   * 1000 and then 1500 in March 2024, both accepted; 600 is refused with
   * 500 left and changes nothing; the summary for 2024 shows March alone,
   * with both expenses in order and their total.
   */
  method CenarioMarco() returns (saldoMarco: real, resumo: Result<Relatorio>)
    ensures saldoMarco == 500.0
    ensures resumo == Ok(Resumo(map[3 := 2500.0], map[3 := [Gasto(2024, 3, "Aluguel", 1000.0), Gasto(2024, 3, "Viagem", 1500.0)]]))
  {
    var g1, g2 := Gasto(2024, 3, "Aluguel", 1000.0), Gasto(2024, 3, "Viagem", 1500.0);
    var app := UsuarioMarco();
    PrimeiroGastoMarco(app);
    SegundoGastoMarco(app);
    TerceiroGastoMarco(app);
    assert app.gerenciador.gastos == [] + [g1] + [g2];
    saldoMarco := app.usuario.saldoPorMes[3];
    resumo := ResumoMarco(app);
  }
}
