/**
 * The catalog of output variables of the induction-machine user model: the
 * enumeration the host indexes, the names it reports and which entries it
 * may write.
 */
module OutputCatalog {

  /**
   * The output variables in enumeration order. `End` is the enumerator one
   * past the last variable; an index equal to the number of variables is
   * converted to it.
   */
  datatype Var =
    | Slip | PuRs | PuXs | PuRr | PuXr | PuXm | MaxSlip
    | Is1 | Is2 | Ir1 | Ir2
    | E1Pu | StatorLosses | RotorLosses | ShaftPowerHp | PowerFactor | EfficiencyPct
    | End

  /** The number of output variables. */
  const NumVars: int := 17

  /** The position of a variable in the enumeration. */
  function Ordinal(v: Var): (n: nat)
    ensures n <= NumVars
    ensures n == NumVars <==> v == End
  {
    match v
    case Slip => 0
    case PuRs => 1
    case PuXs => 2
    case PuRr => 3
    case PuXr => 4
    case PuXm => 5
    case MaxSlip => 6
    case Is1 => 7
    case Is2 => 8
    case Ir1 => 9
    case Ir2 => 10
    case E1Pu => 11
    case StatorLosses => 12
    case RotorLosses => 13
    case ShaftPowerHp => 14
    case PowerFactor => 15
    case EfficiencyPct => 16
    case End => 17
  }

  /** The conversion of an integer index to the enumeration. */
  function VarOf(n: int): (v: Var)
    requires 0 <= n <= NumVars
    ensures Ordinal(v) == n
  {
    if n == 0 then Slip
    else if n == 1 then PuRs
    else if n == 2 then PuXs
    else if n == 3 then PuRr
    else if n == 4 then PuXr
    else if n == 5 then PuXm
    else if n == 6 then MaxSlip
    else if n == 7 then Is1
    else if n == 8 then Is2
    else if n == 9 then Ir1
    else if n == 10 then Ir2
    else if n == 11 then E1Pu
    else if n == 12 then StatorLosses
    else if n == 13 then RotorLosses
    else if n == 14 then ShaftPowerHp
    else if n == 15 then PowerFactor
    else if n == 16 then EfficiencyPct
    else End
  }

  /** Converting a variable's position back gives the variable: the enumeration has no gaps. */
  lemma VarOfOrdinal(v: Var)
    ensures VarOf(Ordinal(v)) == v
  {
  }

  /** Distinct positions are distinct variables. */
  lemma VarOfInjective(m: int, n: int)
    requires 0 <= m <= NumVars && 0 <= n <= NumVars
    ensures VarOf(m) == VarOf(n) <==> m == n
  {
    assert Ordinal(VarOf(m)) == m && Ordinal(VarOf(n)) == n;
  }

  /** The names the host is given, in enumeration order. */
  const VarNames: seq<string> := [
    "Slip",
    "puRs", "puXs", "puRr", "puXr", "puXm", "MaxSlip",
    "Is1", "Is2", "Ir1", "Ir2",
    "E1_pu", "StatorLosses", "RotorLosses", "ShaftPower_hp", "PowerFactor", "Efficiency_pct"
  ]

  /** The name of a variable. */
  function NameOf(v: Var): (name: string)
    requires v != End
    ensures |VarNames| == NumVars && name == VarNames[Ordinal(v)]
    ensures name != []
  {
    VarNames[Ordinal(v)]
  }

  /** The first seven variables are the writable ones: the current slip and the six machine constants. */
  predicate IsWritable(v: Var)
  {
    Ordinal(v) < 7
  }

  /**
   * The efficiency in percent, clamped to [0, 100]: a negative efficiency is
   * reported as 0 and one above 100 as 100.
   */
  function ClampPercent(eff: real): (r: real)
    ensures 0.0 <= r <= 100.0
    ensures 0.0 <= eff <= 100.0 ==> r == eff
    ensures eff < 0.0 ==> r == 0.0
    ensures eff > 100.0 ==> r == 100.0
  {
    if eff < 0.0 then 0.0 else if eff > 100.0 then 100.0 else eff
  }
}
