/**
 * `Gasto` records and `GerenciadorGastos`, the append-only list of expenses
 * that debits each one from its owner's monthly balance and groups the list
 * by month on request.
 */
module Ledger {
  import opened Months
  import opened Accounts

  /** The optional year filter of `calcular_total_gastos` (`ano=None`). */
  datatype Option<T> = None | Some(value: T)

  /** One expense, immutable once recorded. */
  datatype Gasto = Gasto(ano: int, mes: int, descricao: string, valor: real)

  /** `ano is None or gasto.ano == ano`. */
  predicate Matches(g: Gasto, ano: Option<int>)
  {
    ano.None? || g.ano == ano.value
  }

  /** The expenses of `gs` that pass the filter and fall in month m, in list order. */
  function Details(gs: seq<Gasto>, ano: Option<int>, m: int): seq<Gasto>
  {
    if gs == [] then []
    else
      var g := gs[|gs| - 1];
      Details(gs[..|gs| - 1], ano, m) + (if Matches(g, ano) && g.mes == m then [g] else [])
  }

  /** The sum of the amounts of a list of expenses. */
  function Sum(gs: seq<Gasto>): real
  {
    if gs == [] then 0.0 else Sum(gs[..|gs| - 1]) + gs[|gs| - 1].valor
  }

  /** The months of the expenses of `gs` that pass the filter. */
  function MonthsWith(gs: seq<Gasto>, ano: Option<int>): set<int>
  {
    if gs == [] then {}
    else
      var g := gs[|gs| - 1];
      MonthsWith(gs[..|gs| - 1], ano) + (if Matches(g, ano) then {g.mes} else {})
  }

  /**
   * A balance table after each expense of `gs`, in order, has been debited
   * from its month once (`atualizar_saldo`).
   */
  function Replay(saldo: map<int, real>, gs: seq<Gasto>): (r: map<int, real>)
    ensures r.Keys == saldo.Keys
  {
    if gs == [] then saldo
    else
      var b := Replay(saldo, gs[..|gs| - 1]);
      var g := gs[|gs| - 1];
      if g.mes in b then b[g.mes := b[g.mes] - g.valor] else b
  }

  lemma Prefix<T>(a: seq<T>, x: T)
    ensures (a + [x])[..|a|] == a && (a + [x])[|a|] == x
  {
  }

  /** Recording one more expense extends its month's group and no other. */
  lemma DetailsSnoc(gs: seq<Gasto>, g: Gasto, ano: Option<int>, m: int)
    ensures Matches(g, ano) && g.mes == m ==> Details(gs + [g], ano, m) == Details(gs, ano, m) + [g]
    ensures !(Matches(g, ano) && g.mes == m) ==> Details(gs + [g], ano, m) == Details(gs, ano, m)
  {
    Prefix(gs, g);
    assert Details(gs, ano, m) + [] == Details(gs, ano, m);
  }

  lemma SumSnoc(gs: seq<Gasto>, g: Gasto)
    ensures Sum(gs + [g]) == Sum(gs) + g.valor
  {
    Prefix(gs, g);
  }

  /** Per month with a matching expense, the matching expenses of that month in list order. */
  function DetailsByMonth(gs: seq<Gasto>, ano: Option<int>): map<int, seq<Gasto>>
  {
    map m | m in MonthsWith(gs, ano) :: Details(gs, ano, m)
  }

  /** A step of the grouping loop on an expense the filter skips. */
  lemma DetailsByMonthSkip(gs: seq<Gasto>, ano: Option<int>)
    requires gs != [] && !Matches(gs[|gs| - 1], ano)
    ensures DetailsByMonth(gs, ano) == DetailsByMonth(gs[..|gs| - 1], ano)
  {
    var init := gs[..|gs| - 1];
    var after, before := DetailsByMonth(gs, ano), DetailsByMonth(init, ano);
    assert after.Keys == before.Keys;
    forall k | k in after ensures after[k] == before[k] {
      assert Details(gs, ano, k) == Details(init, ano, k) + [];
    }
  }

  /** A step of the grouping loop on a matching expense: it joins the end of its month's list. */
  lemma DetailsByMonthAdd(gs: seq<Gasto>, ano: Option<int>)
    requires gs != [] && Matches(gs[|gs| - 1], ano)
    ensures var init, g := gs[..|gs| - 1], gs[|gs| - 1];
      DetailsByMonth(gs, ano) == DetailsByMonth(init, ano)[g.mes := Details(init, ano, g.mes) + [g]]
  {
    var init, g := gs[..|gs| - 1], gs[|gs| - 1];
    var after, expected := DetailsByMonth(gs, ano), DetailsByMonth(init, ano)[g.mes := Details(init, ano, g.mes) + [g]];
    assert after.Keys == expected.Keys;
    forall k | k in after ensures after[k] == expected[k] {
      if k != g.mes {
        assert Details(gs, ano, k) == Details(init, ano, k) + [];
      }
    }
  }

  /** The total of each month's list. */
  function TotalsOf(detalhes: map<int, seq<Gasto>>): map<int, real>
  {
    map m | m in detalhes :: Sum(detalhes[m])
  }

  /** Appending an expense to a month's list adds its amount to that month's total. */
  lemma {:induction false} TotalsOfAppend(detalhes: map<int, seq<Gasto>>, m: int, d: seq<Gasto>, g: Gasto)
    ensures TotalsOf(detalhes[m := d + [g]]) == TotalsOf(detalhes)[m := Sum(d) + g.valor]
  {
    var after, expected := TotalsOf(detalhes[m := d + [g]]), TotalsOf(detalhes)[m := Sum(d) + g.valor];
    assert after.Keys == expected.Keys;
    SumSnoc(d, g);
    forall k | k in after ensures after[k] == expected[k] {
    }
  }

  /** `d.setdefault(k, v)`: the map with k bound to v unless it is bound already. */
  function SetDefault<V>(d: map<int, V>, k: int, v: V): (r: map<int, V>)
    ensures k in r && r[k] == (if k in d then d[k] else v)
    ensures r == d[k := r[k]]
  {
    if k in d then d else d[k := v]
  }

  /** Overwriting a key just set by `setdefault` is the same as overwriting it in the original map. */
  lemma SetDefaultOverwrite<V>(d: map<int, V>, k: int, v: V, x: V)
    ensures SetDefault(d, k, v)[k := x] == d[k := x]
  {
  }

  /**
   * `total.setdefault(g.mes, 0)` followed by `total[g.mes] += g.valor`: the
   * month's total, 0 when it had none, grows by the amount.
   */
  function AddToTotal(total: map<int, real>, g: Gasto): (r: map<int, real>)
    ensures r == total[g.mes := (if g.mes in total then total[g.mes] else 0.0) + g.valor]
  {
    var t := SetDefault(total, g.mes, 0.0);
    t[g.mes := t[g.mes] + g.valor]
  }

  /**
   * `detalhes.setdefault(g.mes, [])` followed by `detalhes[g.mes].append(g)`:
   * the month's list, empty when it had none, gains the expense at its end.
   */
  function AppendToList(detalhes: map<int, seq<Gasto>>, g: Gasto): (r: map<int, seq<Gasto>>)
    ensures r == detalhes[g.mes := (if g.mes in detalhes then detalhes[g.mes] else []) + [g]]
  {
    var d := SetDefault(detalhes, g.mes, []);
    d[g.mes := d[g.mes] + [g]]
  }

  /** The per-month lists the grouping loop of `calcular_total_gastos` holds after reading `gs`. */
  ghost function LoopDetails(gs: seq<Gasto>, ano: Option<int>): map<int, seq<Gasto>>
  {
    if gs == [] then map[]
    else
      var g := gs[|gs| - 1];
      var detalhes := LoopDetails(gs[..|gs| - 1], ano);
      if Matches(g, ano) then AppendToList(detalhes, g) else detalhes
  }

  /** The per-month totals the same loop holds after reading `gs`. */
  ghost function LoopTotals(gs: seq<Gasto>, ano: Option<int>): map<int, real>
  {
    if gs == [] then map[]
    else
      var g := gs[|gs| - 1];
      var total := LoopTotals(gs[..|gs| - 1], ano);
      if Matches(g, ano) then AddToTotal(total, g) else total
  }

  /** Reading `gs[i]` after `gs[..i]`: the loop state grows by one step. */
  lemma LoopUnfold(gs: seq<Gasto>, i: int, ano: Option<int>)
    requires 0 <= i < |gs|
    ensures Matches(gs[i], ano) ==> LoopTotals(gs[..i + 1], ano) == AddToTotal(LoopTotals(gs[..i], ano), gs[i])
    ensures Matches(gs[i], ano) ==> LoopDetails(gs[..i + 1], ano) == AppendToList(LoopDetails(gs[..i], ano), gs[i])
    ensures !Matches(gs[i], ano) ==> LoopTotals(gs[..i + 1], ano) == LoopTotals(gs[..i], ano)
    ensures !Matches(gs[i], ano) ==> LoopDetails(gs[..i + 1], ano) == LoopDetails(gs[..i], ano)
  {
    assert gs[..i + 1][..i] == gs[..i];
  }

  /**
   * A step of the grouping loop on a matching expense, the last of `gs`:
   * `setdefault` and `append` on its month's list turn the grouping of the
   * earlier expenses into the grouping of `gs`.
   */
  lemma DetailsStep(gs: seq<Gasto>, ano: Option<int>, detalhes: map<int, seq<Gasto>>)
    requires gs != [] && Matches(gs[|gs| - 1], ano)
    requires detalhes == DetailsByMonth(gs[..|gs| - 1], ano)
    ensures AppendToList(detalhes, gs[|gs| - 1]) == DetailsByMonth(gs, ano)
  {
    var init, g := gs[..|gs| - 1], gs[|gs| - 1];
    DetailsByMonthAdd(gs, ano);
    MonthsWithDetails(init, ano, g.mes);
  }

  /** The same step on the totals keeps each month's total the sum of its list. */
  lemma TotalsStep(total: map<int, real>, detalhes: map<int, seq<Gasto>>, g: Gasto)
    requires total == TotalsOf(detalhes)
    ensures AddToTotal(total, g) == TotalsOf(AppendToList(detalhes, g))
  {
    var t, d := SetDefault(total, g.mes, 0.0), SetDefault(detalhes, g.mes, []);
    assert t[g.mes] == Sum(d[g.mes]);
    TotalsOfAppend(detalhes, g.mes, d[g.mes], g);
    SetDefaultOverwrite(total, g.mes, 0.0, t[g.mes] + g.valor);
    SetDefaultOverwrite(detalhes, g.mes, [], d[g.mes] + [g]);
  }

  /** The loop's lists are the per-month filter of the expenses, in list order. */
  lemma {:induction false} LoopDetailsGroup(gs: seq<Gasto>, ano: Option<int>)
    ensures LoopDetails(gs, ano) == DetailsByMonth(gs, ano)
  {
    if gs == [] {
      assert DetailsByMonth(gs, ano) == map[];
    } else {
      LoopDetailsGroup(gs[..|gs| - 1], ano);
      if Matches(gs[|gs| - 1], ano) {
        DetailsStep(gs, ano, LoopDetails(gs[..|gs| - 1], ano));
      } else {
        DetailsByMonthSkip(gs, ano);
      }
    }
  }

  /** The loop's totals are the sums of its lists. */
  lemma {:induction false} LoopTotalsSum(gs: seq<Gasto>, ano: Option<int>)
    ensures LoopTotals(gs, ano) == TotalsOf(LoopDetails(gs, ano))
  {
    if gs == [] {
      assert TotalsOf(map[]) == map[];
    } else {
      LoopTotalsSum(gs[..|gs| - 1], ano);
      if Matches(gs[|gs| - 1], ano) {
        TotalsStep(LoopTotals(gs[..|gs| - 1], ano), LoopDetails(gs[..|gs| - 1], ano), gs[|gs| - 1]);
      }
    }
  }

  /** What the loop's invariant says once the whole list has been read. */
  lemma GroupingComplete(gs: seq<Gasto>, ano: Option<int>, total: map<int, real>, detalhes: map<int, seq<Gasto>>)
    requires total == LoopTotals(gs, ano) && detalhes == LoopDetails(gs, ano)
    ensures total.Keys == detalhes.Keys == MonthsWith(gs, ano)
    ensures forall m :: m in detalhes ==> detalhes[m] == Details(gs, ano, m)
    ensures forall m :: m in total ==> total[m] == Sum(detalhes[m])
  {
    LoopDetailsGroup(gs, ano);
    LoopTotalsSum(gs, ano);
  }

  /** Grouping distributes over concatenation: each month keeps the list order. */
  lemma {:induction false} DetailsAppend(a: seq<Gasto>, b: seq<Gasto>, ano: Option<int>, m: int)
    ensures Details(a + b, ano, m) == Details(a, ano, m) + Details(b, ano, m)
    decreases |b|
  {
    if b == [] {
      assert a + b == a;
    } else {
      var init := b[..|b| - 1];
      DetailsAppend(a, init, ano, m);
      assert (a + b)[..|a + b| - 1] == a + init;
      assert (a + b)[|a + b| - 1] == b[|b| - 1];
    }
  }

  /** The grouped list holds exactly the matching expenses of that month. */
  lemma {:induction false} DetailsMembers(gs: seq<Gasto>, ano: Option<int>, m: int)
    ensures forall g :: g in Details(gs, ano, m) <==> g in gs && Matches(g, ano) && g.mes == m
  {
    if gs != [] {
      var init := gs[..|gs| - 1];
      DetailsMembers(init, ano, m);
      assert gs == init + [gs[|gs| - 1]];
    }
  }

  lemma {:induction false} SumAppend(a: seq<Gasto>, b: seq<Gasto>)
    ensures Sum(a + b) == Sum(a) + Sum(b)
    decreases |b|
  {
    if b == [] {
      assert a + b == a;
    } else {
      var init := b[..|b| - 1];
      SumAppend(a, init);
      assert (a + b)[..|a + b| - 1] == a + init;
    }
  }

  lemma {:induction false} SumNonNegative(gs: seq<Gasto>)
    requires forall i :: 0 <= i < |gs| ==> gs[i].valor >= 0.0
    ensures Sum(gs) >= 0.0
  {
    if gs != [] {
      SumNonNegative(gs[..|gs| - 1]);
    }
  }

  /** A month is grouped exactly when it has at least one matching expense. */
  lemma {:induction false} MonthsWithDetails(gs: seq<Gasto>, ano: Option<int>, m: int)
    ensures m in MonthsWith(gs, ano) <==> Details(gs, ano, m) != []
  {
    if gs != [] {
      MonthsWithDetails(gs[..|gs| - 1], ano, m);
    }
  }

  /** Nothing is grouped exactly when no expense passes the filter. */
  lemma {:induction false} MonthsWithEmpty(gs: seq<Gasto>, ano: Option<int>)
    ensures MonthsWith(gs, ano) == {} <==> forall i :: 0 <= i < |gs| ==> !Matches(gs[i], ano)
  {
    if gs != [] {
      var init := gs[..|gs| - 1];
      MonthsWithEmpty(init, ano);
      assert forall i :: 0 <= i < |init| ==> init[i] == gs[i];
      if Matches(gs[|gs| - 1], ano) {
        assert gs[|gs| - 1].mes in MonthsWith(gs, ano);
      }
    }
  }

  /** Every grouped month is a month some expense carries. */
  lemma {:induction false} MonthsWithOrdinals(gs: seq<Gasto>, ano: Option<int>)
    requires forall i :: 0 <= i < |gs| ==> IsOrdinal(gs[i].mes)
    ensures MonthsWith(gs, ano) <= ORDINALS
  {
    if gs != [] {
      MonthsWithOrdinals(gs[..|gs| - 1], ano);
    }
  }

  /**
   * After the replay, each month's balance is its starting balance minus the
   * sum of the expenses recorded for that month.
   */
  lemma {:induction false} ReplayBalance(saldo: map<int, real>, gs: seq<Gasto>, m: int)
    requires m in saldo
    ensures m in Replay(saldo, gs)
    ensures Replay(saldo, gs)[m] == saldo[m] - Sum(Details(gs, None, m))
  {
    if gs != [] {
      var init, g := gs[..|gs| - 1], gs[|gs| - 1];
      ReplayBalance(saldo, init, m);
      assert gs == init + [g];
      DetailsSnoc(init, g, None, m);
      if g.mes == m {
        assert Details(gs, None, m) == Details(init, None, m) + [g];
        SumSnoc(Details(init, None, m), g);
      } else {
        assert Details(gs, None, m) == Details(init, None, m);
      }
    }
  }

  class GerenciadorGastos {
    const usuario: Usuario
    var gastos: seq<Gasto>
    /** The owner's balance table when this ledger took it over. */
    ghost var inicial: map<int, real>

    /**
     * The owner's balances are the starting table with every recorded
     * expense applied exactly once, and every record names a month 1..12.
     */
    ghost predicate Valid()
      reads this, usuario
    {
      inicial.Keys == ORDINALS &&
      usuario.saldoPorMes == Replay(inicial, gastos) &&
      forall i :: 0 <= i < |gastos| ==> IsOrdinal(gastos[i].mes)
    }

    constructor (usuario: Usuario)
      requires usuario.Valid()
      ensures this.usuario == usuario && gastos == [] && inicial == usuario.saldoPorMes
      ensures Valid()
    {
      this.usuario := usuario;
      gastos := [];
      inicial := usuario.saldoPorMes;
    }

    /** Each month's balance is its starting balance minus that month's expenses. */
    lemma BalanceInvariant(m: int)
      requires Valid() && IsOrdinal(m)
      ensures m in usuario.saldoPorMes
      ensures usuario.saldoPorMes[m] == inicial[m] - Sum(Details(gastos, None, m))
    {
      ReplayBalance(inicial, gastos, m);
    }

    /**
     * Records the expense at the end of the list and debits it from the
     * owner's balance for `mes`. A month missing from the table is a
     * KeyError in the original, after the record was appended.
     */
    method AdicionarGasto(ano: int, mes: int, descricao: string, valor: real)
      requires Valid() && mes in usuario.saldoPorMes
      modifies this`gastos, usuario`saldoPorMes
      ensures Valid()
      ensures gastos == old(gastos) + [Gasto(ano, mes, descricao, valor)]
      ensures usuario.saldoPorMes.Keys == old(usuario.saldoPorMes.Keys)
      ensures usuario.saldoPorMes[mes] == old(usuario.saldoPorMes[mes]) - valor
      ensures forall m :: m in usuario.saldoPorMes && m != mes ==>
        usuario.saldoPorMes[m] == old(usuario.saldoPorMes[m])
      ensures usuario.saldoPorMes == old(usuario.saldoPorMes)[mes := old(usuario.saldoPorMes[mes]) - valor]
    {
      var g := Gasto(ano, mes, descricao, valor);
      Prefix(gastos, g);
      gastos := gastos + [g];
      usuario.AtualizarSaldo(mes, valor);
    }

    /**
     * Groups the expenses that pass the year filter by month: the total
     * amount per month and the expenses per month in recording order.
     */
    method CalcularTotalGastos(ano: Option<int>) returns (totalPorMes: map<int, real>, detalhesPorMes: map<int, seq<Gasto>>)
      ensures totalPorMes.Keys == detalhesPorMes.Keys == MonthsWith(gastos, ano)
      ensures forall m :: m in detalhesPorMes ==> detalhesPorMes[m] == Details(gastos, ano, m)
      ensures forall m :: m in totalPorMes ==> totalPorMes[m] == Sum(detalhesPorMes[m])
    {
      var gs := gastos;
      totalPorMes, detalhesPorMes := map[], map[];
      var i := 0;
      while i < |gs|
        invariant 0 <= i <= |gs|
        invariant totalPorMes == LoopTotals(gs[..i], ano)
        invariant detalhesPorMes == LoopDetails(gs[..i], ano)
      {
        var gasto := gs[i];
        LoopUnfold(gs, i, ano);
        if ano.None? || gasto.ano == ano.value {
          totalPorMes := AddToTotal(totalPorMes, gasto);
          detalhesPorMes := AppendToList(detalhesPorMes, gasto);
        }
        i := i + 1;
      }
      assert gs[..i] == gs;
      GroupingComplete(gs, ano, totalPorMes, detalhesPorMes);
    }
  }
}
