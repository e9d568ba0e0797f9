/**
 * One instance of the induction-machine user model: its input data, slip,
 * dynamic state variables and the operations the host calls on it.
 *
 * The complex machine equations (impedances, the power-flow and dynamic
 * current models, the derivative of the voltage behind the transient
 * reactance, the output quantities computed from currents) are not part of
 * this model: where an operation stores one of their results, the result is a
 * parameter of the operation.
 */
module Machine {
  import opened Common
  import opened EditLanguage
  import opened OutputCatalog

  /** The host's solution-mode code for dynamics. */
  const DynamicMode: int := 14

  /** The part of the host's generator record that the machine reads and writes. */
  class GeneratorVars {
    var w0: real
    var Speed: real
    var dSpeed: real
    var Theta: real
    var dTheta: real
    var PNominalPerPhase: real
    var NumPhases: int
  }

  /** The part of the host's dynamics record that the machine reads. */
  class DynamicsRec {
    /** Time step size. */
    var h: real
    /** 0 on the first iteration of a new time step. */
    var IterationFlag: int
    var SolutionMode: int
  }

  // ---------------------------------------------------------------------------
  // Slip.
  // ---------------------------------------------------------------------------

  /** Magnitude of `magnitude` with the sign of `sign` (zero counts as positive). */
  function CopySign(magnitude: real, sign: real): (r: real)
    ensures r == magnitude || r == -magnitude
    ensures sign >= 0.0 ==> r >= 0.0
    ensures sign < 0.0 ==> r <= 0.0
  {
    var m := if magnitude < 0.0 then -magnitude else magnitude;
    if sign < 0.0 then -m else m
  }

  function Abs(x: real): real
  {
    if x < 0.0 then -x else x
  }

  /**
   * The slip that results from asking for `value`: in dynamics it is taken
   * as is; otherwise a slip larger in magnitude than `maxSlip` is cut to that
   * magnitude, keeping its sign.
   */
  function LocalSlip(value: real, maxSlip: real, dynamic: bool): (r: real)
    ensures dynamic ==> r == value
    ensures r == value || r == maxSlip || r == -maxSlip
  {
    if !dynamic && Abs(value) > maxSlip then CopySign(maxSlip, value) else value
  }

  /**
   * In dynamics the slip asked for is kept. Otherwise, with a non-negative
   * limit, the slip stays within the limit, is kept when within it and cut to
   * exactly the limit when beyond it; its sign is kept either way.
   */
  lemma LocalSlipBounds(value: real, maxSlip: real, dynamic: bool)
    ensures var s1 := LocalSlip(value, maxSlip, dynamic);
      && (dynamic ==> s1 == value)
      && (!dynamic && Abs(value) <= maxSlip ==> s1 == value)
      && (!dynamic && 0.0 <= maxSlip < Abs(value) ==> Abs(s1) == maxSlip)
      && (!dynamic && 0.0 <= maxSlip ==> Abs(s1) <= maxSlip)
      && (value >= 0.0 ==> s1 >= 0.0)
      && (value < 0.0 ==> s1 <= 0.0)
  {
  }

  /** The shaft speed that agrees with a slip: slip s turns at -s times the base angular frequency. */
  function SpeedOfSlip(s1: real, w0: real): real
  {
    -s1 * w0
  }

  /** The next power-flow estimate of the slip: the slip corrected by the sensitivity times the power error. */
  function SlipGuess(s1: real, sensitivity: real, pError: real): real
  {
    s1 + sensitivity * pError
  }

  /** Asking again for the slip one already has changes nothing. */
  lemma LocalSlipIdempotent(value: real, maxSlip: real, dynamic: bool)
    ensures LocalSlip(LocalSlip(value, maxSlip, dynamic), maxSlip, dynamic) == LocalSlip(value, maxSlip, dynamic)
  {
  }

  /** The slip option selects a fixed slip when it starts with 'F' or 'f'. */
  predicate IsFixedSlipOption(option: string)
  {
    option != [] && (option[0] == 'F' || option[0] == 'f')
  }

  /**
   * The general state of a machine that is neither input data nor dynamic
   * state: the slip pair, the slip-power sensitivity, the sequence voltages
   * and stator currents, and the fixed-slip and first-iteration flags.
   */
  datatype SolutionVars = SolutionVars(
    S1: real, S2: real, dS_dP: real, V1: Complex, V2: Complex, Is1: Complex, Is2: Complex,
    fixedSlip: bool, firstIteration: bool)

  // ---------------------------------------------------------------------------
  // Dynamic state variables.
  // ---------------------------------------------------------------------------

  /**
   * The voltages behind the transient reactance (positive and negative
   * sequence), their derivatives, and the snapshot of both taken at the start
   * of the current time step.
   */
  datatype StateVars = StateVars(
    E1: Complex, dE1: Complex, E1n: Complex, dE1n: Complex,
    E2: Complex, dE2: Complex, E2n: Complex, dE2n: Complex)

  /** The snapshot of the previous step replaced by the current state. */
  function CopiedState(st: StateVars): StateVars
  {
    st.(E1n := st.E1, dE1n := st.dE1, E2n := st.E2, dE2n := st.dE2)
  }

  /** Trapezoidal rule: `xn` advanced by half a step of each of the two derivatives. */
  function Trapezoid(xn: Complex, dxn: Complex, dx: Complex, h: real): Complex
  {
    Add(xn, Scale(h * 0.5, Add(dx, dxn)))
  }

  /**
   * One integration: on the first iteration of a new time step the snapshot
   * is refreshed first; the new derivatives are stored and the state is
   * integrated from the snapshot.
   */
  function Integrated(st: StateVars, newStep: bool, h: real, d1: Complex, d2: Complex): (r: StateVars)
    ensures r.dE1 == d1 && r.dE2 == d2
  {
    var base := if newStep then CopiedState(st) else st;
    base.(dE1 := d1, dE2 := d2,
          E1 := Trapezoid(base.E1n, base.dE1n, d1, h),
          E2 := Trapezoid(base.E2n, base.dE2n, d2, h))
  }

  /** The state after initialisation: derivatives zero and the snapshot equal to the state. */
  function Initialized(e1: Complex, e2: Complex): StateVars
  {
    StateVars(e1, Zero, e1, Zero, e2, Zero, e2, Zero)
  }

  /**
   * Within a time step the iterations do not accumulate: integrating again
   * with the flag set gives what a single integration from the start of the
   * step with the latest derivatives would give.
   */
  lemma IterationsRestartFromSnapshot(st: StateVars, h: real, a1: Complex, a2: Complex, b1: Complex, b2: Complex)
    ensures Integrated(Integrated(st, true, h, a1, a2), false, h, b1, b2) == Integrated(st, true, h, b1, b2)
  {
  }

  /** The snapshot only moves on the first iteration of a step. */
  lemma SnapshotOnlyOnNewStep(st: StateVars, newStep: bool, h: real, d1: Complex, d2: Complex)
    ensures var r := Integrated(st, newStep, h, d1, d2);
      newStep ==> r.E1n == st.E1 && r.dE1n == st.dE1 && r.E2n == st.E2 && r.dE2n == st.dE2
    ensures var r := Integrated(st, newStep, h, d1, d2);
      !newStep ==> r.E1n == st.E1n && r.dE1n == st.dE1n && r.E2n == st.E2n && r.dE2n == st.dE2n
  {
  }

  /** A freshly initialised machine whose derivatives stay zero does not move. */
  lemma InitializedIsSteady(e1: Complex, e2: Complex, h: real, newStep: bool)
    ensures Integrated(Initialized(e1, e2), newStep, h, Zero, Zero) == Initialized(e1, e2)
  {
  }

  // ---------------------------------------------------------------------------
  // The machine.
  // ---------------------------------------------------------------------------

  class IndMach012 {
    const gen: GeneratorVars
    const dyn: DynamicsRec

    // State variables and their derivatives; the `n` fields are the snapshot.
    var E1: Complex
    var dE1_dt: Complex
    var E1n: Complex
    var dE1n_dt: Complex
    var E2: Complex
    var dE2_dt: Complex
    var E2n: Complex
    var dE2n_dt: Complex

    // Input data.
    var H: real
    var D: real
    var puRs: real
    var puXs: real
    var puRr: real
    var puXr: real
    var puXm: real
    var slip: real
    var MaxSlip: real
    var slipOption: string

    var fixedSlip: bool

    // General state.
    var S1: real
    var S2: real
    var dS_dP: real
    var V1: Complex
    var V2: Complex
    var Is1: Complex
    var Is2: Complex
    var firstIteration: bool

    /** A new instance on the host's records, with the default input data and a zero state. */
    constructor (gen: GeneratorVars, dyn: DynamicsRec)
      ensures this.gen == gen && this.dyn == dyn
      ensures Inputs() == DefaultParams
      ensures State() == Initialized(Zero, Zero)
      ensures V1 == Zero && V2 == Zero && Is1 == Zero && Is2 == Zero
    {
      this.gen := gen;
      this.dyn := dyn;
      E1, dE1_dt, E1n, dE1n_dt := Zero, Zero, Zero, Zero;
      E2, dE2_dt, E2n, dE2n_dt := Zero, Zero, Zero, Zero;
      H, D := 0.02, 0.02;
      puRs, puXs, puRr, puXr, puXm := 0.0053, 0.106, 0.007, 0.12, 4.0;
      slip, MaxSlip := 0.007, 0.1;
      slipOption := "variable";
      V1, V2, Is1, Is2 := Zero, Zero, Zero, Zero;
    }

    /** The user-editable input data. */
    function Inputs(): Params
      reads this`H, this`D, this`puRs, this`puXs, this`puRr, this`puXr, this`puXm, this`slip, this`MaxSlip, this`slipOption
    {
      Params(H, D, puRs, puXs, puRr, puXr, puXm, slip, MaxSlip, slipOption)
    }

    /** The dynamic state variables. */
    function State(): StateVars
      reads this`E1, this`dE1_dt, this`E1n, this`dE1n_dt, this`E2, this`dE2_dt, this`E2n, this`dE2n_dt
    {
      StateVars(E1, dE1_dt, E1n, dE1n_dt, E2, dE2_dt, E2n, dE2n_dt)
    }

    /** The slip pair, the sensitivity, the sequence voltages and currents, and the flags. */
    function Solution(): SolutionVars
      reads this`S1, this`S2, this`dS_dP, this`V1, this`V2, this`Is1, this`Is2, this`fixedSlip, this`firstIteration
    {
      SolutionVars(S1, S2, dS_dP, V1, V2, Is1, Is2, fixedSlip, firstIteration)
    }

    /** The negative-sequence slip follows the positive-sequence one. */
    predicate SlipsConsistent()
      reads this`S1, this`S2
    {
      S2 == 2.0 - S1
    }

    predicate IsDynamic()
      reads dyn
    {
      dyn.SolutionMode == DynamicMode
    }

    // -------------------------------------------------------------------------
    // Editing.
    // -------------------------------------------------------------------------

    /** Writes one parameter slot, as the pure EditParam describes. */
    method EditParam(param: Param, value: string, parse: string -> Option<real>)
      modifies this`H, this`D, this`puRs, this`puXs, this`puRr, this`puXr, this`puXm, this`slip, this`MaxSlip, this`slipOption
      ensures Inputs() == EditLanguage.EditParam(old(Inputs()), param, value, parse)
    {
      if value == [] {
        return;
      }
      match param {
        case H => if parse(value).Some? { H := parse(value).value; }
        case D => if parse(value).Some? { D := parse(value).value; }
        case PuRs => if parse(value).Some? { puRs := parse(value).value; }
        case PuXs => if parse(value).Some? { puXs := parse(value).value; }
        case PuRr => if parse(value).Some? { puRr := parse(value).value; }
        case PuXr => if parse(value).Some? { puXr := parse(value).value; }
        case PuXm => if parse(value).Some? { puXm := parse(value).value; }
        case Slip => if parse(value).Some? { slip := parse(value).value; }
        case MaxSlip => if parse(value).Some? { MaxSlip := parse(value).value; }
        case SlipOption => slipOption := value;
        case Invalid =>
      }
    }

    /**
     * Reads an edit string character by character, in the Name or the Value
     * state, and writes each pair it completes.
     */
    method Edit(s: string, parse: string -> Option<real>)
      modifies this`H, this`D, this`puRs, this`puXs, this`puRr, this`puXr, this`puXm, this`slip, this`MaxSlip, this`slipOption
      ensures Inputs() == Edited(old(Inputs()), s, parse)
    {
      ghost var target := Edited(Inputs(), s, parse);
      var inValue := false;
      var it: nat := SkipSepsFrom(s, 0);
      var partBegin: nat := it;
      var param := Invalid;
      var name: string := [];
      while it < |s|
        invariant partBegin <= it <= |s|
        invariant !inValue ==> FindEq(s, partBegin) == FindEq(s, it)
        invariant !inValue ==> Apply(Inputs(), AssignmentsFromName(s, partBegin), parse) == target
        invariant inValue ==> param == KeyFor(name)
        invariant inValue && partBegin < it ==> it < |s| && ValueDelim(s, partBegin) == ValueDelim(s, it)
        invariant inValue ==> Apply(Inputs(), AssignmentsFromValue(s, name, partBegin), parse) == target
        decreases |s| - it
      {
        var partEnd := it;
        it := it + 1;
        if !inValue {
          if s[partEnd] == '=' {
            it, name, param := ReadName(s, partBegin, partEnd);
            partBegin := it;
            inValue := true;
          } else {
            FindEqStep(s, partEnd);
          }
        } else if IsSep(s[partEnd]) || it == |s| {
          it := CompleteValue(s, name, param, partBegin, partEnd, parse);
          partBegin := it;
          inValue := false;
        } else {
          ValueDelimStep(s, partEnd);
        }
      }
    }

    /**
     * The Name-state step on reaching '=' at `partEnd`: the name is the text
     * since `partBegin`, the value starts after the separators that follow,
     * and the name is looked up case-insensitively.
     */
    static method ReadName(s: string, partBegin: nat, partEnd: nat) returns (it: nat, name: string, param: Param)
      requires partBegin <= partEnd < |s| && FindEq(s, partBegin) == partEnd
      ensures it == SkipSeps(s, partEnd + 1) && name == s[partBegin..partEnd] && param == KeyFor(name)
      ensures AssignmentsFromName(s, partBegin) == AssignmentsFromValue(s, name, it)
    {
      name := s[partBegin..partEnd];
      it := SkipSepsFrom(s, partEnd + 1);
      NameStep(s, partBegin, partEnd, it);
      var folded := FoldCase(name);
      param := Lookup(folded);
    }

    /**
     * The Value-state step on reaching the delimiter `d` of the value that
     * starts at `partBegin`: the value (up to the end of the string when `d`
     * is the last character) is written unless it is empty, and scanning
     * resumes after the separators that follow.
     */
    method CompleteValue(s: string, name: string, param: Param, partBegin: nat, d: nat, parse: string -> Option<real>)
      returns (next: nat)
      requires partBegin <= d < |s| && d == ValueDelim(s, partBegin) && param == KeyFor(name)
      modifies this`H, this`D, this`puRs, this`puXs, this`puRr, this`puXr, this`puXm, this`slip, this`MaxSlip, this`slipOption
      ensures next == SkipSeps(s, d + 1)
      ensures Apply(Inputs(), AssignmentsFromName(s, next), parse) ==
        Apply(old(Inputs()), AssignmentsFromValue(s, name, partBegin), parse)
    {
      next := SkipSepsFrom(s, d + 1);
      var partEnd := if d + 1 == |s| then |s| else d;
      ApplyFromValue(Inputs(), s, name, partBegin, d, parse);
      if partBegin != partEnd {
        EditParam(param, s[partBegin..partEnd], parse);
      }
    }

    /** Folds the name to lower case in place, one character at a time. */
    static method FoldCase(name: string) returns (folded: string)
      ensures folded == Lower(name)
    {
      folded := name;
      var i := 0;
      while i < |folded|
        invariant i <= |folded| == |name|
        invariant forall k :: 0 <= k < i ==> folded[k] == LowerChar(name[k])
        invariant forall k :: i <= k < |name| ==> folded[k] == name[k]
      {
        folded := folded[i := LowerChar(folded[i])];
        i := i + 1;
      }
    }

    /** Moves past the separators that start at `i`. */
    static method SkipSepsFrom(s: string, i: nat) returns (j: nat)
      requires i <= |s|
      ensures j == SkipSeps(s, i)
    {
      j := i;
      while j < |s| && IsSep(s[j])
        invariant i <= j <= |s|
        invariant SkipSeps(s, j) == SkipSeps(s, i)
        decreases |s| - j
      {
        j := j + 1;
      }
    }

    // -------------------------------------------------------------------------
    // Slip and the step from input data to model.
    // -------------------------------------------------------------------------

    /** Sets the slip pair: S1 as LocalSlip gives it, S2 = 2 - S1. */
    method SetLocalSlip(value: real)
      modifies this`S1, this`S2
      ensures S1 == LocalSlip(value, MaxSlip, IsDynamic())
      ensures SlipsConsistent()
    {
      S1 := value;
      if dyn.SolutionMode != DynamicMode {
        if Abs(S1) > MaxSlip {
          S1 := CopySign(MaxSlip, S1);
        }
      }
      S2 := 2.0 - S1;
    }

    /**
     * Propagates the input data to the model: slip from the input slip, the
     * generator speed to agree with it, the fixed-slip flag from the slip
     * option, and a zero voltage and current. `sensitivity` is the slip-power
     * sensitivity the machine equations give for the new slip.
     */
    method Update(sensitivity: real)
      modifies this`S1, this`S2, this`fixedSlip, this`firstIteration, this`dS_dP
      modifies this`V1, this`V2, this`Is1, this`Is2, gen`Speed, gen`dSpeed
      ensures S1 == LocalSlip(slip, MaxSlip, IsDynamic()) && SlipsConsistent()
      ensures gen.Speed == SpeedOfSlip(S1, gen.w0) && gen.dSpeed == 0.0
      ensures fixedSlip <==> IsFixedSlipOption(slipOption)
      ensures firstIteration
      ensures dS_dP == sensitivity
      ensures V1 == Zero && V2 == Zero && Is1 == Zero && Is2 == Zero
    {
      SetLocalSlip(slip);
      SetSpeedFromSlip();
      ResetSolution(sensitivity);
    }

    /** Sets the generator speed to the one the positive-sequence slip gives, at rest. */
    method SetSpeedFromSlip()
      modifies gen`Speed, gen`dSpeed
      ensures gen.Speed == SpeedOfSlip(S1, gen.w0) && gen.dSpeed == 0.0
    {
      gen.Speed := SpeedOfSlip(S1, gen.w0);
      gen.dSpeed := 0.0;
    }

    /** Sets the fixed-slip flag from the slip option and starts a new solution with zero voltage and current. */
    method ResetSolution(sensitivity: real)
      modifies this`fixedSlip, this`firstIteration, this`dS_dP, this`V1, this`V2, this`Is1, this`Is2
      ensures fixedSlip <==> IsFixedSlipOption(slipOption)
      ensures firstIteration && dS_dP == sensitivity
      ensures V1 == Zero && V2 == Zero && Is1 == Zero && Is2 == Zero
    {
      fixedSlip := slipOption != [] && (slipOption[0] == 'F' || slipOption[0] == 'f');
      firstIteration := true;
      dS_dP := sensitivity;
      Is1 := Zero;
      V1 := Zero;
      Is2 := Zero;
      V2 := Zero;
    }

    // -------------------------------------------------------------------------
    // Solution.
    // -------------------------------------------------------------------------

    /**
     * A power-flow iteration: unless the slip is fixed, the slip is corrected
     * by the sensitivity times the power error. `power` is the active power
     * of the positive-sequence stator current before the correction; `is1`
     * and `is2` are the currents the machine equations give afterwards.
     */
    method CalcPowerFlow(v1: Complex, v2: Complex, power: real, is1: Complex, is2: Complex)
      modifies this`V1, this`V2, this`S1, this`S2, this`Is1, this`Is2
      ensures fixedSlip ==> S1 == old(S1) && S2 == old(S2)
      ensures !fixedSlip ==>
        S1 == LocalSlip(SlipGuess(old(S1), dS_dP, gen.PNominalPerPhase - power), MaxSlip, IsDynamic()) && SlipsConsistent()
      ensures V1 == v1 && V2 == v2 && Is1 == is1 && Is2 == is2
    {
      V1 := v1;
      V2 := v2;
      if !fixedSlip {
        var pError := gen.PNominalPerPhase - power;
        SetLocalSlip(SlipGuess(S1, dS_dP, pError));
      }
      Is1 := is1;
      Is2 := is2;
    }

    /**
     * A dynamics iteration: the slip follows the shaft speed, unclamped in
     * dynamics; `is1` and `is2` are the stator currents the machine equations
     * give.
     */
    method CalcDynamic(v1: Complex, v2: Complex, is1: Complex, is2: Complex)
      requires gen.w0 != 0.0
      modifies this`V1, this`V2, this`S1, this`S2, this`Is1, this`Is2
      ensures S1 == LocalSlip(-gen.Speed / gen.w0, MaxSlip, IsDynamic()) && SlipsConsistent()
      ensures V1 == v1 && V2 == v2 && Is1 == is1 && Is2 == is2
    {
      V1 := v1;
      V2 := v2;
      SetLocalSlip(-gen.Speed / gen.w0);
      Is1 := is1;
      Is2 := is2;
    }

    /** Dispatches on the host's solution mode. */
    method Calc(v1: Complex, v2: Complex, power: real, is1: Complex, is2: Complex)
      requires IsDynamic() ==> gen.w0 != 0.0
      modifies this`V1, this`V2, this`S1, this`S2, this`Is1, this`Is2
      ensures IsDynamic() ==> S1 == -gen.Speed / gen.w0 && SlipsConsistent()
      ensures !IsDynamic() && fixedSlip ==> S1 == old(S1) && S2 == old(S2)
      ensures !IsDynamic() && !fixedSlip ==>
        S1 == LocalSlip(SlipGuess(old(S1), dS_dP, gen.PNominalPerPhase - power), MaxSlip, false) && SlipsConsistent()
      ensures V1 == v1 && V2 == v2 && Is1 == is1 && Is2 == is2
    {
      if dyn.SolutionMode == DynamicMode {
        CalcDynamic(v1, v2, is1, is2);
      } else {
        CalcPowerFlow(v1, v2, power, is1, is2);
      }
    }

    // -------------------------------------------------------------------------
    // Dynamic state.
    // -------------------------------------------------------------------------

    /** Takes the snapshot of the current state. */
    method CopyState()
      modifies this`E1n, this`dE1n_dt, this`E2n, this`dE2n_dt
      ensures State() == CopiedState(old(State()))
    {
      E1n := E1;
      dE1n_dt := dE1_dt;
      E2n := E2;
      dE2n_dt := dE2_dt;
    }

    /**
     * Initialises the state from `e1` and `e2`, the voltages behind the
     * transient reactance the machine equations give for the terminal
     * voltages and currents, and sets the generator to rest at the speed of
     * the slip; `theta` is the angle of `e1`.
     */
    method InitStateVars(e1: Complex, e2: Complex, theta: real)
      modifies this`E1, this`dE1_dt, this`E1n, this`dE1n_dt, this`E2, this`dE2_dt, this`E2n, this`dE2n_dt
      modifies gen`Speed, gen`dSpeed, gen`Theta, gen`dTheta
      ensures State() == Initialized(e1, e2)
      ensures gen.Speed == SpeedOfSlip(S1, gen.w0) && gen.dSpeed == 0.0
      ensures gen.Theta == theta && gen.dTheta == 0.0
    {
      E1 := e1;
      dE1_dt := Zero;
      E2 := e2;
      dE2_dt := Zero;
      CopyState();
      gen.Speed := SpeedOfSlip(S1, gen.w0);
      gen.dSpeed := 0.0;
      gen.Theta := theta;
      gen.dTheta := 0.0;
    }

    /**
     * One integration step; `dE1` and `dE2` are the derivatives the machine
     * equations give for the current state.
     */
    method Integrate(dE1: Complex, dE2: Complex)
      modifies this`E1, this`dE1_dt, this`E1n, this`dE1n_dt, this`E2, this`dE2_dt, this`E2n, this`dE2n_dt
      ensures State() == Integrated(old(State()), dyn.IterationFlag == 0, dyn.h, dE1, dE2)
    {
      if dyn.IterationFlag == 0 {
        CopyState();
      }
      dE1_dt := dE1;
      dE2_dt := dE2;
      var h_2 := dyn.h * 0.5;
      E1 := Add(E1n, Scale(h_2, Add(dE1_dt, dE1n_dt)));
      E2 := Add(E2n, Scale(h_2, Add(dE2_dt, dE2n_dt)));
    }

    // -------------------------------------------------------------------------
    // Output variables.
    // -------------------------------------------------------------------------

    /** The stored value of a writable variable. */
    function Stored(v: Var): real
      requires IsWritable(v)
      reads this`S1, this`puRs, this`puXs, this`puRr, this`puXr, this`puXm, this`MaxSlip
    {
      if v == Var.Slip then S1
      else if v == Var.PuRs then puRs
      else if v == Var.PuXs then puXs
      else if v == Var.PuRr then puRr
      else if v == Var.PuXr then puXr
      else if v == Var.PuXm then puXm
      else MaxSlip
    }

    /**
     * The value reported for a variable: the stored value of a writable one,
     * `derived(v)` for the quantities the machine equations compute from the
     * currents and the state, and -1 for the end marker. For the efficiency,
     * `derived` gives the unclamped percentage and the clamped one is reported.
     */
    function GetVariable(v: Var, derived: Var -> real): (r: real)
      reads this
      ensures IsWritable(v) ==> r == Stored(v)
      ensures !IsWritable(v) && v != End && v != EfficiencyPct ==> r == derived(v)
      ensures v == EfficiencyPct ==> r == ClampPercent(derived(v)) && 0.0 <= r <= 100.0
      ensures v == End ==> r == -1.0
    {
      match v
      case Slip => S1
      case PuRs => puRs
      case PuXs => puXs
      case PuRr => puRr
      case PuXr => puXr
      case PuXm => puXm
      case MaxSlip => MaxSlip
      case End => -1.0
      case EfficiencyPct => ClampPercent(derived(v))
      case _ => derived(v)
    }

    /**
     * Writes a writable variable; the other variables are read-only and a
     * write to them does nothing. Writing Slip sets S1 alone, so S2 no
     * longer follows it.
     */
    method SetVariable(v: Var, value: real)
      modifies this`S1, this`puRs, this`puXs, this`puRr, this`puXr, this`puXm, this`MaxSlip
      ensures IsWritable(v) ==> Stored(v) == value
      ensures forall w :: IsWritable(w) && w != v ==> Stored(w) == old(Stored(w))
      ensures !IsWritable(v) ==> S1 == old(S1) && Inputs() == old(Inputs())
      ensures v == Var.Slip && old(SlipsConsistent()) && value != old(S1) ==> !SlipsConsistent()
    {
      match v {
        case Slip => S1 := value;
        case PuRs => puRs := value;
        case PuXs => puXs := value;
        case PuRr => puRr := value;
        case PuXr => puXr := value;
        case PuXm => puXm := value;
        case MaxSlip => MaxSlip := value;
        case _ =>
      }
    }
  }

  /** A writable variable reads back the value just written to it. */
  method SetThenGet(m: IndMach012, v: Var, x: real, derived: Var -> real) returns (r: real)
    requires IsWritable(v)
    modifies m`S1, m`puRs, m`puXs, m`puRr, m`puXr, m`puXm, m`MaxSlip
    ensures r == x
  {
    m.SetVariable(v, x);
    r := m.GetVariable(v, derived);
  }
}
