/**
 * The fixed month table `AplicacaoGastos.MESES` (ordinal to Portuguese name),
 * the membership test on a typed month name, and the reverse lookup that
 * turns an accepted name back into its ordinal.
 */
module Months {

  /** The names in ordinal order: NAMES[m - 1] is the name of month m. */
  const NAMES: seq<string> := [
    "Janeiro", "Fevereiro", "Março", "Abril", "Maio", "Junho",
    "Julho", "Agosto", "Setembro", "Outubro", "Novembro", "Dezembro"
  ]

  const MESES: map<int, string> := map m | 1 <= m <= 12 :: NAMES[m - 1]

  predicate IsOrdinal(m: int) { 1 <= m <= 12 }

  /** The twelve month numbers, the keys of every balance table. */
  const ORDINALS: set<int> := set m | 1 <= m <= 12

  /** `mes in MESES.values()`: some month 1..12 has exactly that name. */
  predicate IsMonthName(s: string)
    ensures IsMonthName(s) <==> exists m :: IsOrdinal(m) && MESES[m] == s
  {
    MonthKeys();
    s in MESES.Values
  }

  lemma MonthKeys()
    ensures MESES.Keys == ORDINALS
  {
    forall m | m in ORDINALS ensures m in MESES { }
  }

  /**
   * The keys k, k+1, ..., 12 of table t whose name is s, in ascending order:
   * the comprehension `[key for key, value in MESES.items() if value == mes]`
   * when t is MESES and k is 1.
   */
  function KeysNamed(t: map<int, string>, s: string, k: nat): (r: seq<int>)
    requires k >= 1 && ORDINALS <= t.Keys
    ensures forall j {:trigger j in r} :: j in r <==> k <= j <= 12 && t[j] == s
    decreases 13 - k
  {
    if k > 12 then []
    else
      assert k in ORDINALS;
      (if t[k] == s then [k] else []) + KeysNamed(t, s, k + 1)
  }

  /** The month table is a bijection between 1..12 and the twelve names. */
  lemma TableIsBijection()
    ensures MESES.Keys == ORDINALS
    ensures forall a, b :: a in MESES && b in MESES && MESES[a] == MESES[b] ==> a == b
    ensures forall s :: IsMonthName(s) <==> exists m :: IsOrdinal(m) && MESES[m] == s
  {
    MonthKeys();
    forall a, b | a in MESES && b in MESES && a != b ensures MESES[a] != MESES[b] {
      DistinctNames(a, b);
    }
  }

  lemma DistinctNames(a: int, b: int)
    requires a in MESES && b in MESES && a != b
    ensures MESES[a] != MESES[b]
  {
    var x, y := NAMES[a - 1], NAMES[b - 1];
    // Names of equal length differ in their first or their third letter.
    if |x| == |y| {
      assert x[0] != y[0] || x[2] != y[2];
    }
  }

  /** The list the comprehension builds for a name: exactly one key. */
  lemma KeysNamedOfName(m: int)
    requires IsOrdinal(m)
    ensures KeysNamed(MESES, MESES[m], 1) == [m]
  {
    TableIsBijection();
    KeysNamedUnique(MESES, MESES[m], m, 1);
  }

  lemma {:induction false} KeysNamedUnique(t: map<int, string>, s: string, m: int, k: nat)
    requires ORDINALS <= t.Keys
    requires 1 <= k <= m <= 12 && t[m] == s
    requires forall j :: j in ORDINALS && t[j] == s ==> j == m
    ensures KeysNamed(t, s, k) == [m]
    decreases m - k
  {
    assert k in ORDINALS;
    if k < m {
      KeysNamedUnique(t, s, m, k + 1);
    } else {
      KeysNamedAfter(t, s, m, k + 1);
    }
  }

  lemma {:induction false} KeysNamedAfter(t: map<int, string>, s: string, m: int, k: nat)
    requires ORDINALS <= t.Keys
    requires 1 <= m < k && m <= 12
    requires forall j :: j in ORDINALS && t[j] == s ==> j == m
    ensures KeysNamed(t, s, k) == []
    decreases 13 - k
  {
    if k <= 12 {
      assert k in ORDINALS;
      KeysNamedAfter(t, s, m, k + 1);
    }
  }

  /** `[key for key, value in MESES.items() if value == mes][0]`. */
  function OrdinalOf(s: string): (m: int)
    requires IsMonthName(s)
    ensures IsOrdinal(m) && MESES[m] == s
  {
    TableIsBijection();
    NameHasOneKey(s);
    KeysNamed(MESES, s, 1)[0]
  }

  lemma NameHasOneKey(s: string)
    requires IsMonthName(s)
    ensures ORDINALS <= MESES.Keys
    ensures exists m :: IsOrdinal(m) && MESES[m] == s && KeysNamed(MESES, s, 1) == [m]
  {
    TableIsBijection();
    var m :| IsOrdinal(m) && MESES[m] == s;
    KeysNamedOfName(m);
  }

  /** Lookup round-trips in both directions. */
  lemma OrdinalRoundTrip(m: int, s: string)
    ensures IsOrdinal(m) ==> IsMonthName(MESES[m]) && OrdinalOf(MESES[m]) == m
    ensures IsMonthName(s) ==> MESES[OrdinalOf(s)] == s
  {
    if IsOrdinal(m) {
      KeysNamedOfName(m);
    }
  }

  lemma MarchIsThird()
    ensures IsMonthName("Março") && OrdinalOf("Março") == 3
  {
    OrdinalRoundTrip(3, "");
  }

  /** The test is exact: no accent-free spelling, number or lower-case form passes. */
  lemma NotMonthNames()
    ensures !IsMonthName("Marco") && !IsMonthName("13") && !IsMonthName("março") && !IsMonthName("")
  {
    NotAName("Marco");
    NotAName("13");
    NotAName("março");
    NotAName("");
  }

  lemma NotAName(s: string)
    requires forall m :: IsOrdinal(m) ==> MESES[m] != s
    ensures !IsMonthName(s)
  {
    TableIsBijection();
  }
}
