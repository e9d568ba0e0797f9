/**
 * The parameter-edit mini-language of the induction-machine user model.
 *
 * An edit string is a list of `name=value` pairs separated by spaces, tabs or
 * commas. The scanner that reads it (the method IndMach012.Edit in module
 * Machine) is specified here as a pure function: `Assignments` lists the
 * (name, value) pairs in the order the scanner hands them to the parameter
 * writer, and `Edited` folds the parameter writer over them.
 */
module EditLanguage {
  import opened Common

  /** Space, tab and comma separate the pairs. */
  predicate IsSep(c: char)
  {
    c == ' ' || c == '\t' || c == ','
  }

  // ---------------------------------------------------------------------------
  // The input parameters an edit can write, and the slots of the key table.
  // ---------------------------------------------------------------------------

  /** The user-editable input data of one machine instance. */
  datatype Params = Params(
    H: real, D: real,
    puRs: real, puXs: real, puRr: real, puXr: real, puXm: real,
    slip: real, MaxSlip: real,
    slipOption: string)

  /** The input values a freshly created instance holds. */
  const DefaultParams: Params :=
    Params(0.02, 0.02, 0.0053, 0.106, 0.007, 0.12, 4.0, 0.007, 0.1, "variable")

  /** The parameter slots a key can be mapped to. */
  datatype Param = Invalid | H | D | PuRs | PuXs | PuRr | PuXr | PuXm | Slip | MaxSlip | SlipOption

  /** Slots that receive a parsed number (all but Invalid and SlipOption). */
  predicate IsNumeric(param: Param)
  {
    !param.Invalid? && !param.SlipOption?
  }

  /** The numeric field that a slot names. */
  function NumberOf(p: Params, param: Param): real
    requires IsNumeric(param)
  {
    match param
    case H => p.H
    case D => p.D
    case PuRs => p.puRs
    case PuXs => p.puXs
    case PuRr => p.puRr
    case PuXr => p.puXr
    case PuXm => p.puXm
    case Slip => p.slip
    case MaxSlip => p.MaxSlip
  }

  /** `p` with the numeric field that `param` names set to `x`. */
  function WithNumber(p: Params, param: Param, x: real): (r: Params)
    requires IsNumeric(param)
    ensures NumberOf(r, param) == x
    ensures AgreeExcept(p, r, param)
  {
    match param
    case H => p.(H := x)
    case D => p.(D := x)
    case PuRs => p.(puRs := x)
    case PuXs => p.(puXs := x)
    case PuRr => p.(puRr := x)
    case PuXr => p.(puXr := x)
    case PuXm => p.(puXm := x)
    case Slip => p.(slip := x)
    case MaxSlip => p.(MaxSlip := x)
  }

  /** `p` and `q` hold the same value in every field except the one `param` names. */
  predicate AgreeExcept(p: Params, q: Params, param: Param)
  {
    && (param == H || p.H == q.H)
    && (param == D || p.D == q.D)
    && (param == PuRs || p.puRs == q.puRs)
    && (param == PuXs || p.puXs == q.puXs)
    && (param == PuRr || p.puRr == q.puRr)
    && (param == PuXr || p.puXr == q.puXr)
    && (param == PuXm || p.puXm == q.puXm)
    && (param == Slip || p.slip == q.slip)
    && (param == MaxSlip || p.MaxSlip == q.MaxSlip)
    && (param == SlipOption || p.slipOption == q.slipOption)
  }

  /**
   * The parameter writer: an empty value changes nothing; a numeric slot takes
   * the parsed number and is left alone when parsing fails; the slip-option
   * slot stores the raw text; the Invalid slot ignores the value.
   * `parse` stands for the library number conversion, which writes its target
   * only on success.
   */
  function EditParam(p: Params, param: Param, value: string, parse: string -> Option<real>): (r: Params)
    ensures value == [] || param == Invalid ==> r == p
    ensures AgreeExcept(p, r, param)
    ensures IsNumeric(param) && parse(value).None? ==> r == p
    ensures IsNumeric(param) && value != [] && parse(value).Some? ==> NumberOf(r, param) == parse(value).value
    ensures param == SlipOption && value != [] ==> r.slipOption == value
  {
    if value == [] then p
    else match param
      case Invalid => p
      case SlipOption => p.(slipOption := value)
      case _ =>
        match parse(value)
        case None => p
        case Some(x) => WithNumber(p, param, x)
  }

  // ---------------------------------------------------------------------------
  // Case folding and the key table.
  // ---------------------------------------------------------------------------

  /** Folds one ASCII upper-case letter to lower case; every other character is kept. */
  function LowerChar(c: char): char
  {
    if 'A' <= c <= 'Z' then (c as int - 'A' as int + 'a' as int) as char else c
  }

  function Lower(s: string): string
  {
    seq(|s|, i requires 0 <= i < |s| => LowerChar(s[i]))
  }

  lemma LowerIdempotent(s: string)
    ensures Lower(Lower(s)) == Lower(s)
  {
    assert forall i :: 0 <= i < |s| ==> LowerChar(LowerChar(s[i])) == LowerChar(s[i]);
  }

  /**
   * The key table, applied to an already folded name. As written it sends
   * "d" to the H slot and "maxslip" to the Slip slot, so no key reaches the
   * D or MaxSlip slots.
   */
  function Lookup(folded: string): (r: Param)
    ensures r != D && r != MaxSlip
    ensures r == H <==> folded == "h" || folded == "d"
    ensures r == Slip <==> folded == "slip" || folded == "maxslip"
    ensures r == PuRs <==> folded == "purs"
    ensures r == PuXs <==> folded == "puxs"
    ensures r == PuRr <==> folded == "purr"
    ensures r == PuXr <==> folded == "puxr"
    ensures r == PuXm <==> folded == "puxm"
    ensures r == SlipOption <==> folded == "slipoption"
    ensures r == Invalid <==>
      folded !in {"h", "d", "purs", "puxs", "purr", "puxr", "puxm", "slip", "maxslip", "slipoption"}
  {
    if folded == "h" then H
    else if folded == "d" then H
    else if |folded| > 0 && folded[0] == 'p' && folded == "purs" then PuRs
    else if |folded| > 0 && folded[0] == 'p' && folded == "puxs" then PuXs
    else if |folded| > 0 && folded[0] == 'p' && folded == "purr" then PuRr
    else if |folded| > 0 && folded[0] == 'p' && folded == "puxr" then PuXr
    else if |folded| > 0 && folded[0] == 'p' && folded == "puxm" then PuXm
    else if folded == "slip" then Slip
    else if folded == "maxslip" then Slip
    else if folded == "slipoption" then SlipOption
    else Invalid
  }

  /**
   * The slot a raw name selects: the name is folded to lower case first. No
   * name reaches D or MaxSlip.
   */
  function KeyFor(name: string): (r: Param)
    ensures r != D && r != MaxSlip
  {
    Lookup(Lower(name))
  }

  /** A name holding a separator is no key: text before a name in the same segment makes it unknown. */
  lemma SeparatorMakesUnknown(name: string, k: nat)
    requires k < |name| && IsSep(name[k])
    ensures KeyFor(name) == Invalid
  {
    var folded := Lower(name);
    assert IsSep(folded[k]);
    assert forall key :: key in {"h", "d", "purs", "puxs", "purr", "puxr", "puxm", "slip", "maxslip", "slipoption"} ==>
      forall j :: 0 <= j < |key| ==> !IsSep(key[j]);
  }

  lemma KeyForIgnoresCase(name: string)
    ensures KeyFor(Lower(name)) == KeyFor(name)
  {
    LowerIdempotent(name);
  }

  // ---------------------------------------------------------------------------
  // The scanner, as a function from the edit string to its pairs.
  // ---------------------------------------------------------------------------

  /** The first position at or after `i` that is not a separator (or the end). */
  function SkipSeps(s: string, i: nat): (j: nat)
    requires i <= |s|
    ensures i <= j <= |s|
    ensures j < |s| ==> !IsSep(s[j])
    decreases |s| - i
  {
    if i < |s| && IsSep(s[i]) then SkipSeps(s, i + 1) else i
  }

  /** The first '=' at or after `i` (or the end). Separators do not stop the search. */
  function FindEq(s: string, i: nat): (j: nat)
    requires i <= |s|
    ensures i <= j <= |s|
    ensures j < |s| ==> s[j] == '='
    decreases |s| - i
  {
    if i < |s| && s[i] != '=' then FindEq(s, i + 1) else i
  }

  /** The position that ends a value started at `i`: the first separator, or the last character. */
  function ValueDelim(s: string, i: nat): (j: nat)
    requires i < |s|
    ensures i <= j < |s|
    ensures j == |s| - 1 || IsSep(s[j])
    decreases |s| - i
  {
    if i == |s| - 1 || IsSep(s[i]) then i else ValueDelim(s, i + 1)
  }

  /** One `name=value` pair as the scanner hands it over, before case folding. */
  datatype Assignment = Assignment(name: string, value: string)

  /**
   * The pairs found when the scanner is looking for a name that starts at `i`.
   * The name runs up to the next '='; with no '=' left, the rest is ignored.
   */
  function AssignmentsFromName(s: string, i: nat): (r: seq<Assignment>)
    requires i <= |s|
    decreases |s| - i, 1
  {
    var e := FindEq(s, i);
    if e == |s| then []
    else AssignmentsFromValue(s, s[i..e], SkipSeps(s, e + 1))
  }

  /**
   * The pairs found when the scanner reads the value of `name`, starting at `i`.
   * The value ends before the next separator; when the separator is the last
   * character of the input it is kept in the value. An empty value is dropped.
   */
  function AssignmentsFromValue(s: string, name: string, i: nat): (r: seq<Assignment>)
    requires i <= |s|
    decreases |s| - i, 0
  {
    if i == |s| then []
    else
      var d := ValueDelim(s, i);
      var vEnd := if d == |s| - 1 then |s| else d;
      (if i < vEnd then [Assignment(name, s[i..vEnd])] else []) + AssignmentsFromName(s, SkipSeps(s, d + 1))
  }

  /** All pairs of an edit string; leading separators are skipped. */
  function Assignments(s: string): seq<Assignment>
  {
    AssignmentsFromName(s, SkipSeps(s, 0))
  }

  /** Applies the pairs, left to right, through the key table and the parameter writer. */
  function Apply(p: Params, assigns: seq<Assignment>, parse: string -> Option<real>): Params
    decreases |assigns|
  {
    if assigns == [] then p
    else Apply(EditParam(p, KeyFor(assigns[0].name), assigns[0].value, parse), assigns[1..], parse)
  }

  /** The effect of one edit string on the input parameters. */
  function Edited(p: Params, s: string, parse: string -> Option<real>): Params
  {
    Apply(p, Assignments(s), parse)
  }

  // ---------------------------------------------------------------------------
  // Properties of the language.
  // ---------------------------------------------------------------------------

  /** Apply takes the first pair first. */
  lemma ApplyCons(p: Params, a: Assignment, rest: seq<Assignment>, parse: string -> Option<real>)
    ensures Apply(p, [a] + rest, parse) == Apply(EditParam(p, KeyFor(a.name), a.value, parse), rest, parse)
  {
    assert ([a] + rest)[1..] == rest;
  }

  /** Apply over a concatenation is Apply over the parts. */
  lemma {:induction false} ApplyAppend(p: Params, a: seq<Assignment>, b: seq<Assignment>, parse: string -> Option<real>)
    ensures Apply(p, a + b, parse) == Apply(Apply(p, a, parse), b, parse)
    decreases |a|
  {
    if a != [] {
      assert (a + b)[0] == a[0] && (a + b)[1..] == a[1..] + b;
      ApplyAppend(EditParam(p, KeyFor(a[0].name), a[0].value, parse), a[1..], b, parse);
    } else {
      assert a + b == b;
    }
  }

  /** A field that no pair's key selects keeps its value. */
  lemma {:induction false} ApplyKeepsUnnamed(p: Params, assigns: seq<Assignment>, param: Param, parse: string -> Option<real>)
    requires forall a :: a in assigns ==> KeyFor(a.name) != param
    ensures IsNumeric(param) ==> NumberOf(Apply(p, assigns, parse), param) == NumberOf(p, param)
    ensures param == SlipOption ==> Apply(p, assigns, parse).slipOption == p.slipOption
    decreases |assigns|
  {
    if assigns != [] {
      assert assigns[0] in assigns;
      var q := EditParam(p, KeyFor(assigns[0].name), assigns[0].value, parse);
      assert forall a :: a in assigns[1..] ==> a in assigns;
      ApplyKeepsUnnamed(q, assigns[1..], param, parse);
    }
  }

  /** Because of the key table, no edit string can change D or MaxSlip. */
  lemma EditNeverWritesDOrMaxSlip(p: Params, s: string, parse: string -> Option<real>)
    ensures Edited(p, s, parse).D == p.D
    ensures Edited(p, s, parse).MaxSlip == p.MaxSlip
  {
    ApplyKeepsUnnamed(p, Assignments(s), D, parse);
    ApplyKeepsUnnamed(p, Assignments(s), MaxSlip, parse);
  }

  // ---------------------------------------------------------------------------
  // The scanner's positions, characterised.
  // ---------------------------------------------------------------------------

  /** SkipSeps stops at the first non-separator: everything it passes over is a separator. */
  lemma {:induction false} SkipSepsIs(s: string, i: nat, j: nat)
    requires i <= j <= |s|
    requires forall k :: i <= k < j ==> IsSep(s[k])
    requires j < |s| ==> !IsSep(s[j])
    ensures SkipSeps(s, i) == j
    decreases |s| - i
  {
    if i < j { SkipSepsIs(s, i + 1, j); }
  }

  /** FindEq stops at the first '=' and passes over separators. */
  lemma {:induction false} FindEqIs(s: string, i: nat, j: nat)
    requires i <= j <= |s|
    requires forall k :: i <= k < j ==> s[k] != '='
    requires j < |s| ==> s[j] == '='
    ensures FindEq(s, i) == j
    decreases |s| - i
  {
    if i < j { FindEqIs(s, i + 1, j); }
  }

  /** ValueDelim stops at the first separator, or at the last character. */
  lemma {:induction false} ValueDelimIs(s: string, i: nat, j: nat)
    requires i <= j < |s|
    requires forall k :: i <= k < j ==> !IsSep(s[k])
    requires j == |s| - 1 || IsSep(s[j])
    ensures ValueDelim(s, i) == j
    decreases |s| - i
  {
    if i < j { ValueDelimIs(s, i + 1, j); }
  }

  /** FindEq passes over no '=': a name never contains one. */
  lemma {:induction false} FindEqPassesNoEquals(s: string, i: nat)
    requires i <= |s|
    ensures forall k :: i <= k < FindEq(s, i) ==> s[k] != '='
    decreases |s| - i
  {
    if i < |s| && s[i] != '=' { FindEqPassesNoEquals(s, i + 1); }
  }

  /** A string without '=' holds no pair and changes nothing (a trailing bare name is skipped). */
  lemma NoEqualsNoEdit(p: Params, s: string, parse: string -> Option<real>)
    requires '=' !in s
    ensures Assignments(s) == []
    ensures Edited(p, s, parse) == p
  {
  }

  /** Every pair the scanner emits has a non-empty value. */
  lemma {:induction false} ValuesNonEmpty(s: string, i: nat, name: string, inValue: bool)
    requires i <= |s|
    ensures inValue ==> forall a :: a in AssignmentsFromValue(s, name, i) ==> a.value != []
    ensures !inValue ==> forall a :: a in AssignmentsFromName(s, i) ==> a.value != []
    decreases |s| - i, if inValue then 0 else 1
  {
    if inValue {
      if i < |s| {
        var d := ValueDelim(s, i);
        ValuesNonEmpty(s, SkipSeps(s, d + 1), name, false);
      }
    } else {
      var e := FindEq(s, i);
      if e < |s| {
        ValuesNonEmpty(s, SkipSeps(s, e + 1), s[i..e], true);
      }
    }
  }

  // ---------------------------------------------------------------------------
  // Pairs and separators.
  // ---------------------------------------------------------------------------

  /** One step of the scanner in a value: the pair it emits, then the scan of the next name. */
  lemma UnfoldFromValue(s: string, name: string, i: nat, d: nat, n: nat, value: string)
    requires i < |s|
    requires d == ValueDelim(s, i) && n == SkipSeps(s, d + 1)
    requires value == s[i..if d == |s| - 1 then |s| else d]
    ensures AssignmentsFromValue(s, name, i) ==
      (if value != [] then [Assignment(name, value)] else []) + AssignmentsFromName(s, n)
  {
  }

  /**
   * The effect of the pairs from a value on: the value that ends at `d` is
   * written first (unless it is empty), then the pairs after it.
   */
  lemma ApplyFromValue(p: Params, s: string, name: string, i: nat, d: nat, parse: string -> Option<real>)
    requires i < |s| && d == ValueDelim(s, i)
    ensures var vEnd := if d == |s| - 1 then |s| else d;
      Apply(p, AssignmentsFromValue(s, name, i), parse) ==
      Apply(if i < vEnd then EditParam(p, KeyFor(name), s[i..vEnd], parse) else p, AssignmentsFromName(s, SkipSeps(s, d + 1)), parse)
  {
    var vEnd := if d == |s| - 1 then |s| else d;
    var rest := AssignmentsFromName(s, SkipSeps(s, d + 1));
    UnfoldFromValue(s, name, i, d, SkipSeps(s, d + 1), s[i..vEnd]);
    if i < vEnd {
      ApplyCons(p, Assignment(name, s[i..vEnd]), rest, parse);
    } else {
      assert [] + rest == rest;
    }
  }

  /**
   * A pair that starts at `i`: its name runs up to the first '=' at `e`, the
   * separators after it are skipped, and its value runs from `v` up to the
   * separator at `d`. The scanner emits exactly that pair and goes on after
   * the separators that follow it, whichever of space, tab or comma they are.
   */
  lemma PairAt(s: string, i: nat, e: nat, v: nat, d: nat)
    requires i <= e < v < d < |s| - 1
    requires forall k :: i <= k < e ==> s[k] != '='
    requires s[e] == '='
    requires forall k :: e < k < v ==> IsSep(s[k])
    requires forall k :: v <= k < d ==> !IsSep(s[k])
    requires IsSep(s[d])
    ensures AssignmentsFromName(s, i) == [Assignment(s[i..e], s[v..d])] + AssignmentsFromName(s, SkipSeps(s, d + 1))
  {
    NamePositions(s, i, e, v);
    NameStep(s, i, e, v);
    ValueDelimIs(s, v, d);
    UnfoldFromValue(s, s[i..e], v, d, SkipSeps(s, d + 1), s[v..d]);
  }

  /**
   * The last pair of the string: its value runs from `v` to the end, and
   * nothing follows it. A separator in last position is not a delimiter: it
   * stays in the value.
   */
  lemma LastPair(s: string, i: nat, e: nat, v: nat)
    requires i <= e < v < |s|
    requires forall k :: i <= k < e ==> s[k] != '='
    requires s[e] == '='
    requires forall k :: e < k < v ==> IsSep(s[k])
    requires !IsSep(s[v])
    requires forall k :: v < k < |s| - 1 ==> !IsSep(s[k])
    ensures AssignmentsFromName(s, i) == [Assignment(s[i..e], s[v..])]
  {
    NamePositions(s, i, e, v);
    NameStep(s, i, e, v);
    ValueDelimIs(s, v, |s| - 1);
    SkipSepsIs(s, |s|, |s|);
    assert s[v..|s|] == s[v..];
    UnfoldFromValue(s, s[i..e], v, |s| - 1, |s|, s[v..]);
  }

  /** The name scan moves past a character that is not '='. */
  lemma FindEqStep(s: string, i: nat)
    requires i < |s| && s[i] != '='
    ensures FindEq(s, i) == FindEq(s, i + 1)
  {
  }

  /** The value scan moves past a character that is neither a separator nor the last one. */
  lemma ValueDelimStep(s: string, i: nat)
    requires i + 1 < |s| && !IsSep(s[i])
    ensures ValueDelim(s, i) == ValueDelim(s, i + 1)
  {
  }

  /** A name followed by '=' and nothing but separators: no pair. */
  lemma DanglingName(s: string, i: nat, e: nat)
    requires i <= e < |s|
    requires forall k :: i <= k < e ==> s[k] != '='
    requires s[e] == '='
    requires forall k :: e < k < |s| ==> IsSep(s[k])
    ensures AssignmentsFromName(s, i) == []
  {
    NamePositions(s, i, e, |s|);
    NameStep(s, i, e, |s|);
  }

  lemma NamePositions(s: string, i: nat, e: nat, v: nat)
    requires i <= e < v <= |s|
    requires forall k :: i <= k < e ==> s[k] != '='
    requires s[e] == '='
    requires forall k :: e < k < v ==> IsSep(s[k])
    requires v < |s| ==> !IsSep(s[v])
    ensures FindEq(s, i) == e && SkipSeps(s, e + 1) == v
  {
    FindEqIs(s, i, e);
    SkipSepsIs(s, e + 1, v);
  }

  /** With no '=' from `i` on, the scanner finds no pair: a trailing bare name is dropped. */
  lemma NoPairWithoutEquals(s: string, i: nat)
    requires i <= |s|
    requires forall k :: i <= k < |s| ==> s[k] != '='
    ensures AssignmentsFromName(s, i) == []
  {
    FindEqIs(s, i, |s|);
  }

  /** One step of the scanner in a name: on '=' it goes on with the value. */
  lemma NameStep(s: string, i: nat, e: nat, v: nat)
    requires i <= e < |s| && FindEq(s, i) == e && SkipSeps(s, e + 1) == v
    ensures AssignmentsFromName(s, i) == AssignmentsFromValue(s, s[i..e], v)
  {
  }
}
