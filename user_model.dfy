/**
 * The exported interface of the user model: the registry of instances, the
 * active instance the host works on, and the wrapper operations that forward
 * to it.
 *
 * The registry and the active instance are static data shared by all calls;
 * here they are the fields of one `Plugin` object.
 */
module UserModel {
  import opened Common
  import opened EditLanguage
  import opened OutputCatalog
  import opened Machine

  /** 2^32: unsigned 32-bit arithmetic wraps modulo this. */
  const Uint32Modulus: int := 0x1_0000_0000

  /**
   * How many characters of a name of length `len` are copied into a buffer
   * the caller says holds `maxLen` characters: one place is kept for the
   * terminating NUL, computed in unsigned 32-bit arithmetic.
   */
  function CopiedLength(len: nat, maxLen: int): (r: nat)
    requires len < Uint32Modulus && 0 <= maxLen < Uint32Modulus
    ensures r <= len
  {
    var room := (maxLen - 1) % Uint32Modulus;
    if room < len then room else len
  }

  /**
   * With room for at least one character the copy and its NUL fit in the
   * buffer and the copy is as long as the room allows; with a zero size the
   * room wraps around and the whole name is copied.
   */
  lemma CopiedLengthFits(len: nat, maxLen: int)
    requires len < Uint32Modulus && 0 <= maxLen < Uint32Modulus
    ensures 1 <= maxLen ==> CopiedLength(len, maxLen) + 1 <= maxLen
    ensures 1 <= maxLen ==> CopiedLength(len, maxLen) == (if len < maxLen then len else maxLen - 1)
    ensures maxLen == 0 ==> CopiedLength(len, maxLen) == len
  {
  }

  /**
   * The host's 1-based variable index is converted to the enumeration
   * without subtracting 1, while the name is looked up at index - 1. So the
   * index never reaches the slip, the last index reaches the end marker, and
   * below it each index reports the value of the variable after the one it
   * names.
   */
  lemma IndexSkew(i: int)
    requires 1 <= i <= NumVars
    ensures VarOf(i) != Var.Slip
    ensures i == NumVars ==> VarOf(i) == End
    ensures i < NumVars ==> NameOf(VarOf(i - 1)) == VarNames[i - 1] && NameOf(VarOf(i)) != VarNames[i - 1]
  {
    assert Ordinal(VarOf(i)) == i;
    if i < NumVars {
      assert Ordinal(VarOf(i - 1)) == i - 1;
      NamesDiffer(i);
    }
  }

  /** Neighbouring names in the catalog differ. */
  lemma NamesDiffer(i: int)
    requires 1 <= i < NumVars
    ensures VarNames[i] != VarNames[i - 1]
  {
  }

  class Plugin {
    /** Every instance created so far, at its handle minus one; a deleted one leaves a null slot. */
    var instances: seq<IndMach012?>
    /** The instance the host's calls act on. */
    var active: IndMach012?

    constructor ()
      ensures instances == [] && active == null
    {
      instances := [];
      active := null;
    }

    /**
     * Creates an instance on the host's records, appends it and makes it
     * active. The handle is the new number of instances, so handles are
     * 1, 2, 3, ... and never reused.
     */
    method New(gen: GeneratorVars, dyn: DynamicsRec) returns (id: int)
      modifies this
      ensures id == |instances| == |old(instances)| + 1
      ensures instances[..|old(instances)|] == old(instances)
      ensures active != null && fresh(active) && instances[id - 1] == active
      ensures active.gen == gen && active.dyn == dyn && active.Inputs() == DefaultParams
      ensures active.State() == Initialized(Zero, Zero)
      ensures active.V1 == Zero && active.V2 == Zero && active.Is1 == Zero && active.Is2 == Zero
    {
      var m := new IndMach012(gen, dyn);
      active := m;
      instances := instances + [m];
      id := |instances|;
    }

    /**
     * Empties the slot of handle `id`. The bounds check rejects the newest handle
     * as well as those out of range, and the active instance is left as it
     * is, even when it is the one deleted.
     */
    method Delete(id: int)
      modifies this`instances
      ensures 1 <= id < |old(instances)| ==> instances == old(instances)[id - 1 := null]
      ensures !(1 <= id < |old(instances)|) ==> instances == old(instances)
      ensures |instances| == |old(instances)| && active == old(active)
    {
      if id <= 0 || id >= |instances| {
        return;
      }
      instances := instances[id - 1 := null];
    }

    /**
     * Makes the instance of handle `id` active and returns `id`, or returns
     * -1 and changes nothing when `id` is out of range. A deleted handle
     * makes the active instance null.
     */
    method Select(id: int) returns (r: int)
      modifies this`active
      ensures 1 <= id <= |instances| ==> r == id && active == instances[id - 1]
      ensures !(1 <= id <= |instances|) ==> r == -1 && active == old(active)
    {
      if id <= 0 || id > |instances| {
        return -1;
      }
      active := instances[id - 1];
      return id;
    }

    /**
     * Sets up the dynamic state of a three-phase active instance; its input
     * data, slip, voltages, currents and flags stay as they were.
     */
    method Init(e1: Complex, e2: Complex, theta: real)
      modifies active, if active != null then {active.gen} else {}
      ensures active != null && active.gen.NumPhases == 3 ==>
        active.State() == Initialized(e1, e2) && active.gen.Speed == SpeedOfSlip(active.S1, active.gen.w0) &&
        active.gen.dSpeed == 0.0 && active.gen.Theta == theta && active.gen.dTheta == 0.0
      ensures active != null ==> active.Inputs() == old(active.Inputs()) && active.Solution() == old(active.Solution())
      ensures active != null ==>
        active.gen.w0 == old(active.gen.w0) &&
        active.gen.PNominalPerPhase == old(active.gen.PNominalPerPhase) && active.gen.NumPhases == old(active.gen.NumPhases)
      ensures active != null && active.gen.NumPhases != 3 ==> unchanged(active, active.gen)
    {
      if active == null || active.gen.NumPhases != 3 {
        return;
      }
      ghost var inputs, solution := active.Inputs(), active.Solution();
      active.InitStateVars(e1, e2, theta);
      assert active.Inputs() == inputs && active.Solution() == solution;
    }

    /**
     * One solution step of a three-phase active instance. Only the slip pair,
     * the voltages and the currents change; the sensitivity, the flags, the
     * input data and the dynamic state stay as they were.
     */
    method Calc(v1: Complex, v2: Complex, power: real, is1: Complex, is2: Complex)
      requires active != null && active.gen.NumPhases == 3 && active.IsDynamic() ==> active.gen.w0 != 0.0
      modifies active
      ensures active != null && active.gen.NumPhases == 3 ==>
        active.V1 == v1 && active.V2 == v2 && active.Is1 == is1 && active.Is2 == is2
      ensures active != null && active.gen.NumPhases == 3 && active.IsDynamic() ==>
        active.S1 == -active.gen.Speed / active.gen.w0 && active.SlipsConsistent()
      ensures active != null && active.gen.NumPhases == 3 && !active.IsDynamic() && old(active.fixedSlip) ==>
        active.S1 == old(active.S1) && active.S2 == old(active.S2)
      ensures active != null && active.gen.NumPhases == 3 && !active.IsDynamic() && !old(active.fixedSlip) ==>
        active.SlipsConsistent() &&
        active.S1 == LocalSlip(SlipGuess(old(active.S1), old(active.dS_dP), active.gen.PNominalPerPhase - power), old(active.MaxSlip), false)
      ensures active != null ==>
        active.dS_dP == old(active.dS_dP) && active.fixedSlip == old(active.fixedSlip) &&
        active.firstIteration == old(active.firstIteration) &&
        active.Inputs() == old(active.Inputs()) && active.State() == old(active.State())
      ensures active != null && active.gen.NumPhases != 3 ==> unchanged(active)
    {
      if active == null || active.gen.NumPhases != 3 {
        return;
      }
      ghost var inputs, state := active.Inputs(), active.State();
      active.Calc(v1, v2, power, is1, is2);
      assert active.Inputs() == inputs && active.State() == state;
    }

    /** One integration step of a three-phase active instance; nothing but its dynamic state changes. */
    method Integrate(dE1: Complex, dE2: Complex)
      modifies active
      ensures active != null && active.gen.NumPhases == 3 ==>
        active.State() == Integrated(old(active.State()), active.dyn.IterationFlag == 0, active.dyn.h, dE1, dE2)
      ensures active != null ==> active.Inputs() == old(active.Inputs()) && active.Solution() == old(active.Solution())
      ensures active != null && active.gen.NumPhases != 3 ==> unchanged(active)
    {
      if active == null || active.gen.NumPhases != 3 {
        return;
      }
      ghost var inputs, solution := active.Inputs(), active.Solution();
      active.Integrate(dE1, dE2);
      assert active.Inputs() == inputs && active.Solution() == solution;
    }

    /** Applies an edit string to the active instance; nothing but its input data changes. */
    method Edit(s: string, parse: string -> Option<real>)
      modifies active
      ensures active != null ==> active.Inputs() == Edited(old(active.Inputs()), s, parse)
      ensures active != null ==>
        unchanged(active`E1, active`dE1_dt, active`E1n, active`dE1n_dt, active`E2, active`dE2_dt, active`E2n, active`dE2n_dt)
      ensures active != null ==>
        unchanged(active`S1, active`S2, active`dS_dP, active`V1, active`V2, active`Is1, active`Is2, active`fixedSlip, active`firstIteration)
    {
      if active == null {
        return;
      }
      active.Edit(s, parse);
    }

    /**
     * Propagates the active instance's input data to its model; the input
     * data and the dynamic state stay as they were.
     */
    method UpdateModel(sensitivity: real)
      modifies active, if active != null then {active.gen} else {}
      ensures active != null ==>
        active.S1 == LocalSlip(active.slip, active.MaxSlip, active.IsDynamic()) && active.SlipsConsistent() &&
        active.gen.Speed == SpeedOfSlip(active.S1, active.gen.w0) && active.gen.dSpeed == 0.0
      ensures active != null ==> (active.fixedSlip <==> IsFixedSlipOption(active.slipOption)) && active.firstIteration
      ensures active != null ==>
        active.dS_dP == sensitivity && active.V1 == Zero && active.V2 == Zero && active.Is1 == Zero && active.Is2 == Zero
      ensures active != null ==>
        unchanged(active`H, active`D, active`puRs, active`puXs, active`puRr, active`puXr, active`puXm, active`slip, active`MaxSlip, active`slipOption)
      ensures active != null ==>
        unchanged(active`E1, active`dE1_dt, active`E1n, active`dE1n_dt, active`E2, active`dE2_dt, active`E2n, active`dE2n_dt)
      ensures active != null ==>
        unchanged(active.gen`w0, active.gen`Theta, active.gen`dTheta, active.gen`PNominalPerPhase, active.gen`NumPhases)
    {
      if active == null {
        return;
      }
      active.Update(sensitivity);
    }

    /** The number of output variables. */
    static method NumVarsOf() returns (n: int)
      ensures n == NumVars
    {
      n := NumVars;
    }

    /** Fills the first NumVars places of `vars` with the active instance's variables, in enumeration order. */
    method GetAllVars(vars: array<real>, derived: Var -> real)
      requires vars.Length >= NumVars
      modifies vars
      ensures active == null ==> vars[..] == old(vars[..])
      ensures active != null ==> forall n :: 0 <= n < NumVars ==> vars[n] == active.GetVariable(VarOf(n), derived)
      ensures vars[NumVars..] == old(vars[NumVars..])
    {
      if active == null {
        return;
      }
      var n := 0;
      while n < NumVars
        invariant 0 <= n <= NumVars
        invariant forall k :: 0 <= k < n ==> vars[k] == active.GetVariable(VarOf(k), derived)
        invariant vars[NumVars..] == old(vars[NumVars..])
      {
        vars[n] := active.GetVariable(VarOf(n), derived);
        n := n + 1;
      }
    }

    /**
     * The variable at the host's index `i`, or -1 with no active instance or
     * an index outside 1..NumVars.
     */
    function GetVariable(i: int, derived: Var -> real): (r: real)
      reads this, active
      ensures active == null || i <= 0 || i > NumVars ==> r == -1.0
      ensures active != null && 1 <= i <= NumVars ==> r == active.GetVariable(VarOf(i), derived)
    {
      if active == null || i <= 0 || i > NumVars then -1.0
      else active.GetVariable(VarOf(i), derived)
    }

    /**
     * Writes the variable at the host's index `i`. With the index passed as
     * is, indices 1 to 6 reach puRs to MaxSlip and the slip is never written.
     */
    method SetVariable(i: int, value: real)
      modifies active
      ensures active != null && 1 <= i < 7 ==> active.Stored(VarOf(i)) == value
      ensures active != null ==> forall w :: IsWritable(w) && !(1 <= i <= NumVars && w == VarOf(i)) ==>
        active.Stored(w) == old(active.Stored(w))
      ensures active != null ==>
        active.H == old(active.H) && active.D == old(active.D) && active.slip == old(active.slip) &&
        active.slipOption == old(active.slipOption)
      ensures active != null ==> active.State() == old(active.State()) && active.Solution() == old(active.Solution())
    {
      if active == null || i <= 0 || i > NumVars {
        return;
      }
      assert Ordinal(VarOf(i)) == i;
      ghost var state, solution := active.State(), active.Solution();
      active.SetVariable(VarOf(i), value);
      assert active.State() == state;
      assert IsWritable(Var.Slip) && active.Stored(Var.Slip) == old(active.Stored(Var.Slip));
    }

    /**
     * Copies the name of the variable at index `i` - 1 into `varName`, cut
     * to the room the buffer size leaves, followed by a NUL; with no active
     * instance or an index outside 1..NumVars it writes an empty name.
     */
    method GetVarName(i: int, varName: array<char>, maxLen: int)
      requires 0 <= maxLen < Uint32Modulus
      requires varName.Length >= 1
      requires active != null && 1 <= i <= NumVars ==> CopiedLength(|VarNames[i - 1]|, maxLen) < varName.Length
      modifies varName
      ensures active == null || i <= 0 || i > NumVars ==> varName[0] == '\0' && varName[1..] == old(varName[1..])
      ensures active != null && 1 <= i <= NumVars ==>
        var n := CopiedLength(|VarNames[i - 1]|, maxLen);
        varName[..n] == VarNames[i - 1][..n] && varName[n] == '\0' && varName[n + 1..] == old(varName[n + 1..])
    {
      if active == null || i <= 0 || i > NumVars {
        varName[0] := '\0';
        return;
      }
      var name := VarNames[i - 1];
      var room := (maxLen - 1) % Uint32Modulus;
      var count := if room < |name| then room else |name|;
      var n := 0;
      while n < count
        invariant 0 <= n <= count
        invariant varName[..n] == name[..n]
        invariant varName[count..] == old(varName[count..])
      {
        varName[n] := name[n];
        n := n + 1;
      }
      varName[n] := '\0';
    }
  }
}
