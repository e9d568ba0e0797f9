# Induction-machine user model (IndMach012), discrete control logic

This project models the C++ user model `TIndMach012` of the DSS C-API examples.
It covers the part of the model that is control logic rather than electrical
physics. A host power-flow program loads the model as a plug-in: it creates
instances, selects one as active, edits its parameters with a small
`name=value` language, asks it to compute a step, integrates its dynamic state
and reads or writes its output variables through 1-based indices.

The model is split into five modules:

- `Common` (common.dfy): `Option`, and a `Complex` value with addition and
  real scaling.
- `EditLanguage` (edit_language.dfy): the edit language as pure functions.
  These are the separators, the scanner's positions, the `name=value` pairs a
  string yields, the case-folded key table, the parameter writer, and the
  left-to-right fold `Edited` of a whole string over the input parameters.
- `EditExamples` (edit_examples.dfy): concrete edit strings and what they do,
  including the quirks of the key table and the scanner.
- `OutputCatalog` (output_catalog.dfy): the output-variable enumeration, its
  integer conversion, the reported names, the writable entries and the
  efficiency clamp.
- `Machine` (machine.dfy): one instance as a class.
  - Its fields are the input data, the slip pair, the voltages and currents,
    and the dynamic state with its snapshot.
  - Its methods are the character-by-character `Edit` scanner (proved against
    `Edited`), `EditParam`, the slip setter, `Update`, the power-flow and
    dynamics steps, the snapshot operations and the variable accessors.
  - The state machine of the snapshot is also stated on values (`StateVars`,
    `Integrated`), with lemmas about it.
- `UserModel` (user_model.dfy): the exported interface as a class `Plugin`.
  Its fields are the static registry of instances and the active instance.
  Its methods are the wrappers `New`, `Delete`, `Select`, `Init`, `Calc`,
  `Integrate`, `Edit`, `UpdateModel`, `NumVarsOf`, `GetAllVars`, `GetVariable`,
  `SetVariable` and `GetVarName`.

The model follows the code as written, including its quirks. Each quirk is
stated as a property:

- the key `d` writes H, and the key `maxslip` writes the slip;
- a name runs from the start of a segment to `=`, so `junk purs=1` is an
  unknown key;
- an empty value swallows the next token;
- `Delete` rejects the newest handle;
- the variable wrappers pass the 1-based index unchanged into the 0-based
  enumeration, while `GetVarName` subtracts one.

`Select` accepts any handle in 1..size, including a deleted one, and then
makes the active instance null (`UserModel.Plugin.Select`).

Number parsing (`std::from_chars`) is the parameter `parse: string -> Option<real>`.
`None` stands for a failed conversion, which leaves the field unchanged.
Results of the machine equations are also parameters of the operations that
store them. These are the power-flow and dynamic currents, the power error,
the slip sensitivity, the derivatives of the voltages behind the transient
reactance, the initial voltages and their angle, and the derived output
quantities.

The host's dynamics solution mode is taken as the code 14
(`SOLUTION_DYNAMICMODE`, include/dss_UserModels.h:78). The header that defines
the `SolveModes_Dynamic` constant the code compares with is not part of this
model.

## Model

| member | source | states |
|---|---|---|
| EditLanguage.EditParam | examples/UserModels/CppIndMach012.cpp:386-426 | An empty value or an unknown parameter changes nothing. Only the named slot can change. A numeric slot takes the parsed number, or is left unchanged when parsing fails. The slip option takes the raw text. |
| EditLanguage.WithNumber | examples/UserModels/CppIndMach012.cpp:394-420 | Writing a number into a numeric slot sets that slot and leaves every other slot as it was. |
| EditLanguage.Lookup | examples/UserModels/CppIndMach012.cpp:486-542 | The folded key table. `h` and `d` both give H, `slip` and `maxslip` both give Slip, and the `pu…` names and `slipoption` give their own slots (`purs`, `puxs`, `purr`, `puxr` and `puxm` each to its own). Every other name is invalid. D and MaxSlip are never the result. Each of these holds in both directions. |
| EditLanguage.KeyFor | examples/UserModels/CppIndMach012.cpp:482-542 | A name is folded to lower case and looked up in the key table. It never gives D or MaxSlip. |
| EditLanguage.SeparatorMakesUnknown | examples/UserModels/CppIndMach012.cpp:462-542 | A name that holds a separator is an unknown key, so text before a name in the same segment makes the pair a no-op. |
| EditLanguage.KeyForIgnoresCase | examples/UserModels/CppIndMach012.cpp:482-485 | The key of a name does not depend on its letter case. |
| EditLanguage.LowerIdempotent | examples/UserModels/CppIndMach012.cpp:482-485 | Folding to lower case twice is the same as folding once. |
| EditLanguage.SkipSeps | examples/UserModels/CppIndMach012.cpp:455-459 | Skipping separators stops within the string, at a non-separator or at the end. |
| EditLanguage.FindEq | examples/UserModels/CppIndMach012.cpp:462-471 | The name scan stops at an `=` or at the end of the string. |
| EditLanguage.ValueDelim | examples/UserModels/CppIndMach012.cpp:546-556 | The value scan stops at a separator or at the last character. |
| EditLanguage.FindEqPassesNoEquals | examples/UserModels/CppIndMach012.cpp:462-471 | Everything the name scan passes over is not `=`. |
| EditLanguage.SkipSepsIs | examples/UserModels/CppIndMach012.cpp:476-480 | A run of separators followed by a non-separator or the end is skipped exactly. |
| EditLanguage.FindEqIs | examples/UserModels/CppIndMach012.cpp:462-471 | The name scan finds the first `=`. |
| EditLanguage.ValueDelimIs | examples/UserModels/CppIndMach012.cpp:546-556 | The value scan finds the first separator, or the last character. |
| EditLanguage.AssignmentsFromName | examples/UserModels/CppIndMach012.cpp:462-480 | The Name state as a definition: the name runs from the scan position to the next `=`, and with no `=` left the rest of the string yields nothing. Its properties are stated by `NameStep`, `NoPairWithoutEquals` and `ValuesNonEmpty`. |
| EditLanguage.AssignmentsFromValue | examples/UserModels/CppIndMach012.cpp:546-570 | The Value state as a definition: the value runs to the next separator, keeps a separator that is the last character, and an empty value yields no pair. Its properties are stated by `PairAt`, `LastPair` and `DanglingName`. |
| EditLanguage.Apply | examples/UserModels/CppIndMach012.cpp:558-561 | The pairs are handed to the parameter writer left to right. Its properties are stated by `ApplyAppend` and `ApplyKeepsUnnamed`. |
| EditLanguage.Edited | examples/UserModels/CppIndMach012.cpp:443-573 | The effect of a whole edit string: its pairs applied to the input data. `Machine.IndMach012.Edit` is proved equal to it, and `EditNeverWritesDOrMaxSlip` and `NoEqualsNoEdit` state its properties. |
| EditLanguage.ApplyAppend | examples/UserModels/CppIndMach012.cpp:462-572 | Applying the pairs of two consecutive parts of an edit is applying the first part and then the second. |
| EditLanguage.ApplyKeepsUnnamed | examples/UserModels/CppIndMach012.cpp:443-573 | A slot that no pair's key maps to keeps its value. |
| EditLanguage.EditNeverWritesDOrMaxSlip | examples/UserModels/CppIndMach012.cpp:490-542 | No edit string changes D or MaxSlip. |
| EditLanguage.NoEqualsNoEdit | examples/UserModels/CppIndMach012.cpp:462-545 | A string without `=` yields no pairs and changes nothing. |
| EditLanguage.NoPairWithoutEquals | examples/UserModels/CppIndMach012.cpp:462-545 | A trailing name without `=` yields no pair. |
| EditLanguage.DanglingName | examples/UserModels/CppIndMach012.cpp:474-480 | A name whose `=` is followed only by separators yields no pair. |
| EditLanguage.ValuesNonEmpty | examples/UserModels/CppIndMach012.cpp:558-561 | Every pair handed to the parameter writer has a non-empty value. |
| EditLanguage.PairAt | examples/UserModels/CppIndMach012.cpp:546-569 | A name, `=`, separators and a value ended by a separator that is not the last character yield that one pair, and scanning resumes after the following separators. |
| EditLanguage.LastPair | examples/UserModels/CppIndMach012.cpp:550-556 | A value that reaches the last character takes everything up to the end, including a final separator. |
| EditLanguage.NameStep | examples/UserModels/CppIndMach012.cpp:466-480 | On finding `=`, the scanner switches to reading the value after the separators, with the text before `=` as the name. |
| EditLanguage.ApplyFromValue | examples/UserModels/CppIndMach012.cpp:546-569 | Completing a value applies the parameter writer to it, unless it is empty, and continues with the next name. |
| EditExamples.ExampleKeys | examples/UserModels/CppIndMach012.cpp:490-542 | `purs`, `puxs` and `purr` give their own slots. `d` and `h` give H, `maxslip` gives Slip, and `junk purs` is invalid. |
| EditExamples.EditThreePairs | examples/UserModels/CppIndMach012.cpp:443-573 | `purs=0.01 puxs=0.1,purr=0.02` sets puRs, puXs and puRr to the parsed numbers and nothing else. Space and comma both separate pairs. |
| EditExamples.JunkBeforeName | examples/UserModels/CppIndMach012.cpp:460-471 | `junk purs=1` yields the single pair named `junk purs` and changes nothing. |
| EditExamples.EmptyValueSwallowsNext | examples/UserModels/CppIndMach012.cpp:474-480 | In `purs= puxs=0.1`, puRs receives the text `puxs=0.1` and puXs is unchanged. |
| EditExamples.KeyTableQuirks | examples/UserModels/CppIndMach012.cpp:495-536 | `d=2<tab>maxslip=0.2 slip` writes H and the slip and nothing else. The tab separates pairs, and the trailing name is ignored. |
| EditExamples.DanglingEquals | examples/UserModels/CppIndMach012.cpp:546-572 | `h=1 purs=` yields only the pair for `h`. |
| EditExamples.TrailingSeparatorKept | examples/UserModels/CppIndMach012.cpp:550-556 | `h=1 ` hands over the value `1 `, with the final separator kept. |
| Machine.IndMach012.EditParam | examples/UserModels/CppIndMach012.cpp:386-426 | The new input data is `EditLanguage.EditParam` of the old. |
| Machine.IndMach012.Edit | examples/UserModels/CppIndMach012.cpp:443-573 | The Name/Value scanner loop leaves the input data equal to `Edited` of the old data and the string. |
| Machine.IndMach012.ReadName | examples/UserModels/CppIndMach012.cpp:466-543 | The Name-state step on `=`: the name is the text before `=`, its key is `KeyFor` of it, scanning resumes after the separators, and the pairs still to come are those of the Value state there. |
| Machine.IndMach012.CompleteValue | examples/UserModels/CppIndMach012.cpp:546-570 | The Value-state step on a delimiter: the value is written through `EditParam`, scanning resumes after the separators, and the remaining edit from the Name state there gives the same result as the whole Value state from before. |
| Machine.IndMach012.FoldCase | examples/UserModels/CppIndMach012.cpp:482-485 | The in-place folding loop gives the lower-case name. |
| Machine.IndMach012.SkipSepsFrom | examples/UserModels/CppIndMach012.cpp:455-459 | The skipping loop stops where `SkipSeps` says. |
| Machine.CopySign | examples/UserModels/CppIndMach012.cpp:380 | The result has the given magnitude and the sign of the second argument. |
| Machine.LocalSlip | examples/UserModels/CppIndMach012.cpp:372-384 | In dynamics the slip asked for is kept. In every case the result is the slip asked for or the limit with one sign or the other. |
| Machine.LocalSlipBounds | examples/UserModels/CppIndMach012.cpp:372-384 | In dynamics the slip asked for is kept. Otherwise, for a non-negative limit: a slip within the limit is kept, a slip beyond it is cut to exactly the limit, and the result never exceeds the limit in magnitude. The sign is kept in every case. |
| Machine.LocalSlipIdempotent | examples/UserModels/CppIndMach012.cpp:372-384 | Setting the slip to the result of setting it changes nothing, for any limit. |
| Machine.IndMach012.SetLocalSlip | examples/UserModels/CppIndMach012.cpp:372-384 | S1 becomes the limited slip, and S2 == 2 - S1 afterwards. |
| Machine.IndMach012.Update | examples/UserModels/CppIndMach012.cpp:232-273 | The slip comes from the input slip, and the generator speed agrees with it at zero acceleration. The fixed-slip flag holds exactly when the slip option is non-empty and starts with F or f. The first-iteration flag is set, the sensitivity is the one given, and voltages and currents are zero. Only these fields can change. |
| Machine.IndMach012.SetSpeedFromSlip | examples/UserModels/CppIndMach012.cpp:236-238 | The generator speed is minus the slip times w0, at zero acceleration. |
| Machine.IndMach012.ResetSolution | examples/UserModels/CppIndMach012.cpp:240-272 | The fixed-slip flag holds exactly when the slip option starts with F or f, the first-iteration flag is set, the sensitivity is stored, and voltages and currents are zero. |
| Machine.IndMach012.CalcPowerFlow | examples/UserModels/CppIndMach012.cpp:325-351 | With a fixed slip the slip pair is unchanged. Otherwise the slip is re-estimated from the power error and limited, and S2 follows. |
| Machine.IndMach012.CalcDynamic | examples/UserModels/CppIndMach012.cpp:298-322 | The slip follows the shaft speed, unlimited in dynamics, and S2 follows. |
| Machine.IndMach012.Calc | examples/UserModels/CppIndMach012.cpp:277-295 | Dispatches on the solution mode. In dynamics, S1 is minus the speed over w0. In power flow it behaves as `CalcPowerFlow`. |
| Machine.IndMach012.CopyState | examples/UserModels/CppIndMach012.cpp:178-184 | The snapshot becomes the current state. Nothing else changes. |
| Machine.IndMach012.InitStateVars | examples/UserModels/CppIndMach012.cpp:188-208 | Derivatives are zero and the snapshot equals the state. The generator is at rest at the speed of the slip, with the given angle. |
| Machine.IndMach012.Integrate | examples/UserModels/CppIndMach012.cpp:211-228 | The new state is `Integrated` of the old one. The snapshot is refreshed only when the iteration flag is 0. |
| Machine.Integrated | examples/UserModels/CppIndMach012.cpp:211-228 | One integration on values: the derivatives just computed are the ones stored. Its snapshot behaviour is stated by `SnapshotOnlyOnNewStep` and `IterationsRestartFromSnapshot`. |
| Machine.Initialized | examples/UserModels/CppIndMach012.cpp:195-201 | The state after initialisation as a definition: the given voltages, zero derivatives and a snapshot equal to the state. Its property is stated by `InitializedIsSteady`. |
| Machine.SnapshotOnlyOnNewStep | examples/UserModels/CppIndMach012.cpp:211-218 | On a new time step the snapshot becomes the previous state. Otherwise it is untouched. |
| Machine.IterationsRestartFromSnapshot | examples/UserModels/CppIndMach012.cpp:211-228 | Further iterations within a step integrate from the step's snapshot, so only the latest derivatives count. |
| Machine.InitializedIsSteady | examples/UserModels/CppIndMach012.cpp:195-201 | An initialised state with zero derivatives is a fixed point of integration. |
| Machine.IndMach012.constructor | examples/UserModels/CppIndMach012.cpp:127-145 | A new instance has the default input data and a zero state, voltage and current. |
| Machine.IndMach012.GetVariable | examples/UserModels/CppIndMach012.cpp:629-652 | A writable variable reads its stored value, and a computed one reads its derived quantity (for the current magnitudes too, see Left out). The efficiency reads its derived quantity clamped to [0, 100], so it lies within that range (NaN aside, see Left out). The end marker reads -1. |
| Machine.IndMach012.SetVariable | examples/UserModels/CppIndMach012.cpp:613-627 | A writable variable is stored, so a following `GetVariable` returns the value. Other writable variables are unchanged, and a read-only index changes nothing. Writing the slip breaks S2 == 2 - S1 whenever the value differs. |
| Machine.SetThenGet | examples/UserModels/CppIndMach012.cpp:613-652 | Writing a writable variable and reading it back gives the value written. |
| OutputCatalog.Ordinal | examples/UserModels/CppIndMach012.cpp:103-123 | Positions run from 0 to 17, and 17 is exactly the end marker. |
| OutputCatalog.VarOf | examples/UserModels/CppIndMach012.cpp:743-746 | Converting an integer 0..17 gives the variable at that position. |
| OutputCatalog.VarOfOrdinal | examples/UserModels/CppIndMach012.cpp:103-122 | Converting a position back gives the variable. |
| OutputCatalog.VarOfInjective | examples/UserModels/CppIndMach012.cpp:103-122 | Distinct integers convert to distinct variables, and the same integer to the same one. |
| OutputCatalog.NameOf | examples/UserModels/CppIndMach012.cpp:799-824 | There are 17 names, the name of a variable is the one at its position, and it is never empty. |
| OutputCatalog.ClampPercent | examples/UserModels/CppIndMach012.cpp:598-606 | The efficiency clamp: the result lies within [0, 100]. A value inside is kept, a negative value gives 0, and a value above 100 gives 100. `Machine.IndMach012.GetVariable` applies it to the efficiency. |
| UserModel.CopiedLength | examples/UserModels/CppIndMach012.cpp:774 | The number of characters copied, with one place kept for the NUL in unsigned 32-bit arithmetic. It never exceeds the name's length. |
| UserModel.CopiedLengthFits | examples/UserModels/CppIndMach012.cpp:774 | With room for at least one character, the copied name and its NUL fit in the buffer, and the copy is the name cut to the room. With a zero size, the unsigned room wraps and the whole name is copied. |
| UserModel.IndexSkew | examples/UserModels/CppIndMach012.cpp:749-773 | A host index 1..17 never reaches the slip, and 17 reaches the end marker. Below 17, the value read is not the one of the name reported for the same index. |
| UserModel.Plugin.constructor | examples/UserModels/CppIndMach012.cpp:795-796 | No instances, and no active instance. |
| UserModel.Plugin.New | examples/UserModels/CppIndMach012.cpp:152-176 | Appends a fresh instance with default data, a zero state and zero voltages and currents, makes it active and returns the new count. Handles are therefore 1, 2, 3 and so on, and earlier slots are kept. |
| UserModel.Plugin.Delete | examples/UserModels/CppIndMach012.cpp:670-677 | Nulls slot id-1 only for 1 <= id < size, so the newest handle is never deleted. All other slots and the active instance are unchanged. |
| UserModel.Plugin.Select | examples/UserModels/CppIndMach012.cpp:679-686 | For 1 <= id <= size, the slot becomes active, possibly null, and id is returned. Otherwise -1 is returned and nothing changes. |
| UserModel.Plugin.Init | examples/UserModels/CppIndMach012.cpp:688-696 | A three-phase active instance is initialised as `InitStateVars` says: its state is `Initialized`, and the generator is at rest at the speed of the slip with the given angle. Its input data, slip, sensitivity, voltages, currents, flags, w0, rating and phase count are unchanged. Any other instance is untouched. |
| UserModel.Plugin.Calc | examples/UserModels/CppIndMach012.cpp:698-706 | A three-phase active instance stores the voltages and currents. In dynamics S1 is minus the speed over w0. In power flow a fixed slip is kept, and otherwise the slip is re-estimated from the old slip, sensitivity and power error and then limited. S2 follows S1. The sensitivity, flags, input data and state are unchanged. Any other instance is untouched. |
| UserModel.Plugin.Integrate | examples/UserModels/CppIndMach012.cpp:708-714 | A three-phase active instance's state becomes `Integrated` of the old one, with a new step exactly when the iteration flag is 0. Its input data and solution variables are unchanged. Any other instance is untouched. |
| UserModel.Plugin.Edit | examples/UserModels/CppIndMach012.cpp:716-723 | The active instance's input data becomes `Edited` of its old data and the string. Its state, slip pair, sensitivity, voltages, currents and flags are unchanged. |
| UserModel.Plugin.UpdateModel | examples/UserModels/CppIndMach012.cpp:725-731 | The active instance is updated as `Update` says: slip, speed, flags, sensitivity and zero voltages and currents. Its input data, state, w0, angle, angular velocity, rating and phase count are unchanged. |
| UserModel.Plugin.NumVarsOf | examples/UserModels/CppIndMach012.cpp:733-736 | Returns 17. |
| UserModel.Plugin.GetAllVars | examples/UserModels/CppIndMach012.cpp:738-747 | Fills positions 0..16 with the active instance's variables in enumeration order and leaves the rest of the array alone. With no active instance nothing is written. |
| UserModel.Plugin.GetVariable | examples/UserModels/CppIndMach012.cpp:749-755 | Returns -1 with no active instance or an index outside 1..17. Otherwise it returns the variable at the unshifted index, so 17 gives -1. |
| UserModel.Plugin.SetVariable | examples/UserModels/CppIndMach012.cpp:757-763 | Indices 1..6 write puRs..MaxSlip. No index writes the slip. Every writable variable other than the one at the index is unchanged, and so are H, D, the input slip, the slip option, the state and the solution variables. |
| UserModel.Plugin.GetVarName | examples/UserModels/CppIndMach012.cpp:765-781 | With no active instance or a bad index, an empty name is written. Otherwise the copy loop writes the name at index-1, cut to min(MaxLen-1, length) in unsigned arithmetic, followed by a NUL, and leaves the rest of the buffer alone. |

## Left out

- Complex electrical physics is not modelled. This covers the impedances and base quantities of `Update` (lines 243-267), `pfModelCurrent` (354-370), the dynamic currents of `CalcDynamic` (312-321), the derivative formula of `Integrate` (221-222), and `E1_pu`, the losses, `PowerFactor` and `ShaftPower_hp` (578-611). Their results enter as parameters: currents, power, slip sensitivity, derivatives, initial voltages and angle, and derived outputs.
- The Eigen sequence-transform matrices and their setup in `New` (157-170) are not modelled, and neither is the 012/abc transform in `Init` and `Calc` (190-191, 279-294). These are complex linear algebra; voltages and currents are given already in sequence components.
- The `Power` field kept by `Calc` (294) is not modelled. It only feeds the left-out output quantities.
- The rotor currents Ir1 and Ir2 are not modelled. They are outputs of the machine equations, which are left out.
- `std::from_chars` is the opaque parameter `parse`. It is not modelled beyond "a number or no change".
- Floating point is modelled as `real`. Signed zero, NaN and infinities are not modelled. `copysign` with a zero sign is taken as positive, and division by a zero `w0` in `CalcDynamic` is excluded by its precondition (for `UserModel.Plugin.Calc`, only on a three-phase instance in dynamics). The efficiency of a machine with zero power and zero losses is 0/0, a NaN that passes the clamp (line 600-605); the model's efficiency is always a number within [0, 100].
- `std::tolower` is modelled on ASCII letters only (`LowerChar`). Locale-dependent folding of other characters is not modelled.
- The `char*`/`MaxLen` boundary of the `Edit` wrapper (721) is not modelled. The wrapper is given the string view's contents as a `string`.
- The `reinterpret_cast` mapping of the host's terminal arrays in `Init` and `Calc` (693-705) is not modelled. Only the three-phase guard is kept.
- The pointer parameters of the wrappers are taken by value, and 32-bit overflow of handles and indices is not modelled.
- Deallocation in `Delete` (675) is not modelled. In particular, the active instance may still refer to a deleted instance (the C++ then holds a dangling pointer); the model keeps the object alive.
- `Save` and `Restore` (783-791) are not modelled because they do nothing.
- The callback table given to `New` is not modelled because the model never calls it.
- S1, S2, dS_dP, fixedSlip and firstIteration have no initial value in the C++, so `Machine.IndMach012.constructor` promises nothing about them.
- `firstIteration` is set by `Update` and is never cleared by the code. The model keeps this and does not use the flag, because the power it gates is a parameter of `CalcPowerFlow`.
- Machine.IndMach012.GetVariable: the magnitudes `abs(Is1)` and `abs(Is2)` reported at lines 640-641 come from the parameter `derived`. They are not tied to the stored `Is1` and `Is2`, because the modulus of a complex number needs a square root, which cannot be computed over `real`.
- UserModel.CopiedLength: a name of 2^32 characters or more is not modelled. The catalog's names are at most 14 characters long.
