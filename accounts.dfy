/**
 * `Usuario`: the account holder's name, role and salary, and the table of
 * what is still available in each month of the year.
 */
module Accounts {
  import opened Months

  /** `{mes: salario for mes in range(1, 13)}`. */
  function InitialBalances(salario: real): (t: map<int, real>)
    ensures t.Keys == ORDINALS
    ensures forall m :: m in t ==> t[m] == salario
  {
    map m | m in ORDINALS :: salario
  }

  class Usuario {
    var nome: string
    var cargo: string
    var salario: real
    /** Available balance per month number. */
    var saldoPorMes: map<int, real>

    /** The table always holds exactly the months 1..12. */
    ghost predicate Valid()
      reads this
    {
      saldoPorMes.Keys == ORDINALS
    }

    constructor (nome: string, cargo: string, salario: real)
      ensures Valid()
      ensures this.nome == nome && this.cargo == cargo && this.salario == salario
      ensures saldoPorMes == InitialBalances(salario)
      ensures forall m :: IsOrdinal(m) ==> saldoPorMes[m] == salario
    {
      this.nome := nome;
      this.cargo := cargo;
      this.salario := salario;
      saldoPorMes := InitialBalances(salario);
    }

    /**
     * Lowers the balance of month `mes` by `gasto`. No lower bound is
     * enforced here: the application checks sufficiency before calling.
     * A month outside the table is a KeyError in the original.
     */
    method AtualizarSaldo(mes: int, gasto: real)
      requires mes in saldoPorMes
      modifies this`saldoPorMes
      ensures saldoPorMes.Keys == old(saldoPorMes.Keys)
      ensures saldoPorMes[mes] == old(saldoPorMes[mes]) - gasto
      ensures forall m :: m in saldoPorMes && m != mes ==> saldoPorMes[m] == old(saldoPorMes[m])
      ensures saldoPorMes == old(saldoPorMes)[mes := old(saldoPorMes[mes]) - gasto]
      ensures old(Valid()) ==> Valid()
    {
      saldoPorMes := saldoPorMes[mes := saldoPorMes[mes] - gasto];
    }
  }
}
