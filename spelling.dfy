/**
 * The spelling renderers of the type system: the C++ declaration of a type
 * (cpp_type, with cpp_literal, cpp_funcname and the GCC-XML form), the numpy
 * type code (cython_nptype) and the three Cython spellings (cython_ctype,
 * cython_cytype, cython_pytype). Each renderer canonicalises its argument
 * and then follows one recursive shape: a base type reads the backend's
 * table, a pair (type, predicate) spells the type and places the predicate,
 * a refinement may have its own entry, and a template fills its slots.
 */
module Spelling {
  import opened Values
  import opened Registry
  import opened Canonical
  import opened Names

  /** A table entry used as a string; a callable or NotImplemented is not one. */
  function EntryText(e: Spelling): (r: Result<string>)
    ensures r.Ok? <==> e.Text?
    ensures e.Text? ==> r.value == e.text
    ensures r.Err? ==> r.error == NonString
  {
    if e.Text? then Ok(e.text) else Err(NonString)
  }

  /** The entry registered for a refinement's head; a callable is applied to the refinement. */
  function RefinementText(e: Spelling, detail: Ty): (r: Result<string>)
    ensures r.Err? <==> e.NotImpl?
    ensures e.Text? ==> r == Ok(e.text)
    ensures e.Computed? ==> r == Ok(e.f(detail))
  {
    match e
    case Text(s) => Ok(s)
    case Computed(f) => Ok(f(detail))
    case NotImpl => Err(NonString)
  }

  /**
   * A spelling used as a value to be joined: a renderer that gave back no
   * string stands as None, which the join then refuses.
   */
  function AsValue(r: Result<string>): (v: Result<Ty>)
    ensures r.Ok? ==> v == Ok(S(r.value))
    ensures r == Err(NonString) ==> v == Ok(Nil)
    ensures r.Err? && r.error != NonString ==> v == Err(r.error)
  {
    match r
    case Ok(s) => Ok(S(s))
    case Err(e) => if e == NonString then Ok(Nil) else Err(e)
  }

  /** The text of a predicate: an integer n reads "[n]", anything else stands for itself. */
  function PredicateText(last: Ty): Ty {
    if last.N? then S("[" + IntStr(last.n) + "]") else last
  }

  /** _cpp_type_add_predicate and _cython_ctype_add_predicate: 'const' goes before the type, any other predicate after it. */
  function AddPredicate(t: string, last: Ty): string {
    if last == S("const") then "const " + t else t + " " + PyStr(last)
  }

  // ---------------------------------------------------------------------
  // C++

  /** _cpp_var_name: a variable with a non-empty registered namespace is qualified by it. */
  function CppVarName(tb: Registry, x: Ty): (r: Result<Ty>)
    ensures x !in tb.variableNamespace || tb.variableNamespace[x] == "" ==> r == Ok(x)
    ensures x.S? && x in tb.variableNamespace && tb.variableNamespace[x] != "" ==>
      r == Ok(S(tb.variableNamespace[x] + "::" + x.s))
    ensures !x.S? && x in tb.variableNamespace && tb.variableNamespace[x] != "" ==> r == Err(TypeError)
  {
    var ns := if x in tb.variableNamespace then tb.variableNamespace[x] else "";
    if |ns| > 0 then (if x.S? then Ok(S(ns + "::" + x.s)) else Err(TypeError)) else Ok(x)
  }

  /** cpp_literal: numbers as str(), strings as repr(); any other value leaves the result unassigned. */
  function CppLiteral(x: Ty): (r: Result<string>)
    ensures x.N? ==> r == Ok(IntStr(x.n))
    ensures x.S? ==> r == Ok("'" + x.s + "'")
    ensures !x.N? && !x.S? ==> r == Err(UnboundLocalError)
  {
    match x
    case N(n) => Ok(IntStr(n))
    case S(_) => Ok(PyRepr(x))
    case _ => Err(UnboundLocalError)
  }

  /** cpp_type: the C++ declaration of a type. */
  function CppType(tb: Registry, t: Ty, fuel: nat): (r: Result<string>)
    ensures Canon(tb, t, fuel).Err? ==> r.Err?
    ensures fuel > 0 && Canon(tb, t, fuel).Err? ==> r == Err(Canon(tb, t, fuel).error)
    ensures fuel > 0 && t.S? && t in tb.baseTypes ==>
      r == (if t in tb.cppTypes then EntryText(tb.cppTypes[t]) else Err(KeyError))
    decreases fuel, 2
  {
    if fuel == 0 then Err(RecursionLimit)
    else
      var c :- Canon(tb, t, fuel);
      if c.S? && c in tb.baseTypes then
        (if c in tb.cppTypes then EntryText(tb.cppTypes[c]) else Err(KeyError))
      else
        var items := PyItems(c);
        if |items| == 2 then
          if items[1] == N(0) then CppType(tb, items[0], fuel - 1)
          else
            var isRef :- IsRefinement(tb, items[1]);
            if isRef then
              var h :- At(items[1], 0);
              if h in tb.cppTypes then RefinementText(tb.cppTypes[h], items[1])
              else CppType(tb, items[0], fuel - 1)
            else
              var b :- CppType(tb, items[0], fuel - 1);
              Ok(AddPredicate(b, PredicateText(items[1])))
        else if |items| >= 3 then CppTemplate(tb, c, fuel)
        else Err(NonString)
  }

  /** The template branch of cpp_type, for a canonical form of three or more items. */
  function CppTemplate(tb: Registry, c: Ty, fuel: nat): (r: Result<string>)
    requires fuel > 0
    decreases fuel, 1
  {
    var items := PyItems(c);
    if |items| < 3 || items[0] !in tb.templateTypes || |items| != |tb.templateTypes[items[0]]| + 2 then Err(AssertionError)
    else if items[0] !in tb.cppTypes then Err(KeyError)
    else if tb.cppTypes[items[0]].NotImpl? then Err(AssertionError)
    else
      var kinds := if c in tb.argumentKinds then tb.argumentKinds[c] else NoneKinds(|items| - 2);
      var filling :- CppFilling(tb, Mid(items), kinds, fuel - 1);
      var joined :- JoinValues(", ", filling);
      var name :- EntryText(tb.cppTypes[items[0]]);
      var last := items[|items| - 1];
      var cppt := name + "< " + joined + " >";
      Ok(if last != N(0) then AddPredicate(cppt, PredicateText(last)) else cppt)
  }

  /**
   * The spellings of a template's slots, one per (slot, kind) pair: a literal
   * by cpp_literal, a type by cpp_type, a variable by _cpp_var_name; with no
   * kind a number is str()'d and anything else is tried as a type and taken
   * as a variable when that is a TypeError.
   */
  function CppFilling(tb: Registry, xs: seq<Ty>, kinds: seq<ArgKind>, fuel: nat): (r: Result<seq<Ty>>)
    ensures r.Ok? ==> |r.value| == if |xs| < |kinds| then |xs| else |kinds|
    ensures r.Ok? ==> forall i :: 0 <= i < |r.value| && kinds[i] == TypeArg ==>
      AsValue(CppType(tb, xs[i], fuel)) == Ok(r.value[i])
    ensures r.Ok? ==> forall i :: 0 <= i < |r.value| && kinds[i] == VarArg ==>
      CppVarName(tb, xs[i]) == Ok(r.value[i])
    ensures r.Ok? ==> forall i :: 0 <= i < |r.value| && kinds[i] == LitArg ==>
      CppLiteral(xs[i]).Ok? && r.value[i] == S(CppLiteral(xs[i]).value)
    ensures r.Ok? ==> forall i :: 0 <= i < |r.value| && kinds[i] == NoneArg && xs[i].N? ==>
      r.value[i] == S(IntStr(xs[i].n))
    decreases fuel, 3, |xs|
  {
    if xs == [] || kinds == [] then Ok([])
    else
      var v :- CppSlot(tb, xs[0], kinds[0], fuel);
      var rest :- CppFilling(tb, xs[1..], kinds[1..], fuel);
      var res := [v] + rest;
      assert forall i :: 1 <= i < |res| ==> xs[i] == xs[1..][i - 1] && kinds[i] == kinds[1..][i - 1] && res[i] == rest[i - 1];
      Ok(res)
  }

  /** The spelling of one template slot of the given argument kind. */
  function CppSlot(tb: Registry, x: Ty, kind: ArgKind, fuel: nat): (r: Result<Ty>)
    ensures kind == TypeArg ==> r == AsValue(CppType(tb, x, fuel))
    ensures kind == VarArg ==> r == CppVarName(tb, x)
    ensures kind == LitArg && r.Ok? ==> CppLiteral(x).Ok? && r.value == S(CppLiteral(x).value)
    ensures kind == NoneArg && x.N? ==> r == Ok(S(IntStr(x.n)))
    decreases fuel, 3, 0
  {
    match kind
    case LitArg => (var l :- CppLiteral(x); Ok(S(l)))
    case TypeArg => AsValue(CppType(tb, x, fuel))
    case VarArg => CppVarName(tb, x)
    case NoneArg =>
      if x.N? then Ok(S(IntStr(x.n)))
      else
        var g := CppType(tb, x, fuel);
        if g == Err(TypeError) then CppVarName(tb, x) else AsValue(g)
  }

  /**
   * The slot spellings of a template without registered argument kinds: each
   * slot is a number spelled by str(), or a type with a C++ spelling.
   */
  predicate UntypedSlotsSpell(tb: Registry, xs: seq<Ty>, parts: seq<string>, fuel: nat) {
    |xs| == |parts|
    && forall i :: 0 <= i < |xs| ==>
         if xs[i].N? then parts[i] == IntStr(xs[i].n) else CppType(tb, xs[i], fuel) == Ok(parts[i])
  }

  lemma {:induction false} CppFillingUntyped(tb: Registry, xs: seq<Ty>, parts: seq<string>, fuel: nat)
    requires UntypedSlotsSpell(tb, xs, parts, fuel)
    ensures CppFilling(tb, xs, NoneKinds(|xs|), fuel) == Ok(seq(|parts|, i requires 0 <= i < |parts| => S(parts[i])))
    decreases |xs|
  {
    var want := seq(|parts|, i requires 0 <= i < |parts| => S(parts[i]));
    if xs != [] {
      assert NoneKinds(|xs|)[1..] == NoneKinds(|xs| - 1);
      assert UntypedSlotsSpell(tb, xs[1..], parts[1..], fuel) by {
        forall i | 0 <= i < |xs[1..]|
          ensures if xs[1..][i].N? then parts[1..][i] == IntStr(xs[1..][i].n)
                  else CppType(tb, xs[1..][i], fuel) == Ok(parts[1..][i])
        {
          assert xs[1..][i] == xs[i + 1] && parts[1..][i] == parts[i + 1];
        }
      }
      CppFillingUntyped(tb, xs[1..], parts[1..], fuel);
      assert want == [S(parts[0])] + seq(|parts[1..]|, i requires 0 <= i < |parts[1..]| => S(parts[1..][i]));
    }
  }

  /** Joining the string values made from a list of strings joins the strings. */
  lemma JoinStrings(sep: string, parts: seq<string>)
    ensures JoinValues(sep, seq(|parts|, i requires 0 <= i < |parts| => S(parts[i]))) == Ok(Join(sep, parts))
  {
    var vs := seq(|parts|, i requires 0 <= i < |parts| => S(parts[i]));
    assert seq(|vs|, i requires 0 <= i < |vs| => vs[i].s) == parts;
  }

  /**
   * A registered template without argument kinds spells as its C++ name
   * followed by "< s1, s2, ... >", with a non-zero predicate placed as for
   * any other type.
   */
  lemma CppTypeTemplate(tb: Registry, t: Ty, fuel: nat, items: seq<Ty>, name: string, parts: seq<string>)
    requires fuel > 0 && Canon(tb, t, fuel) == Ok(T(items)) && |items| >= 3
    requires items[0] in tb.templateTypes && |items| == |tb.templateTypes[items[0]]| + 2
    requires items[0] in tb.cppTypes && tb.cppTypes[items[0]] == Text(name)
    requires T(items) !in tb.argumentKinds
    requires UntypedSlotsSpell(tb, items[1..|items| - 1], parts, fuel - 1)
    ensures var cppt := name + "< " + Join(", ", parts) + " >";
      var last := items[|items| - 1];
      CppType(tb, t, fuel) == Ok(if last == N(0) then cppt else AddPredicate(cppt, PredicateText(last)))
  {
    CppTemplateSpells(tb, fuel, items, name, parts);
    assert PyItems(T(items)) == items && |items| != 2;
    assert CppType(tb, t, fuel) == CppTemplate(tb, T(items), fuel);
  }

  /** The template branch of CppType on its own, for the canonical form T(items). */
  lemma CppTemplateSpells(tb: Registry, fuel: nat, items: seq<Ty>, name: string, parts: seq<string>)
    requires fuel > 0 && |items| >= 3
    requires items[0] in tb.templateTypes && |items| == |tb.templateTypes[items[0]]| + 2
    requires items[0] in tb.cppTypes && tb.cppTypes[items[0]] == Text(name)
    requires T(items) !in tb.argumentKinds
    requires UntypedSlotsSpell(tb, items[1..|items| - 1], parts, fuel - 1)
    ensures var cppt := name + "< " + Join(", ", parts) + " >";
      var last := items[|items| - 1];
      CppTemplate(tb, T(items), fuel) == Ok(if last == N(0) then cppt else AddPredicate(cppt, PredicateText(last)))
  {
    var slots := items[1..|items| - 1];
    assert Mid(PyItems(T(items))) == slots;
    assert NoneKinds(|items| - 2) == NoneKinds(|slots|);
    CppFillingUntyped(tb, slots, parts, fuel - 1);
    var vs := seq(|parts|, i requires 0 <= i < |parts| => S(parts[i]));
    assert CppFilling(tb, Mid(PyItems(T(items))), NoneKinds(|items| - 2), fuel - 1) == Ok(vs);
    JoinStrings(", ", parts);
    assert JoinValues(", ", vs) == Ok(Join(", ", parts));
  }

  /** vector of a base type: ('vector', 'int32', 0) spells as "std::vector< int >" when those are the table entries. */
  lemma CppTypeOneSlotTemplate(tb: Registry, t: Ty, fuel: nat, v: string, b: string, vname: string, bname: string)
    requires fuel > 1 && Canon(tb, t, fuel) == Ok(T([S(v), S(b), N(0)]))
    requires S(v) in tb.templateTypes && |tb.templateTypes[S(v)]| == 1
    requires S(v) in tb.cppTypes && tb.cppTypes[S(v)] == Text(vname)
    requires S(b) in tb.baseTypes && S(b) in tb.cppTypes && tb.cppTypes[S(b)] == Text(bname)
    requires T([S(v), S(b), N(0)]) !in tb.argumentKinds
    ensures CppType(tb, t, fuel) == Ok(vname + "< " + bname + " >")
  {
    var items := [S(v), S(b), N(0)];
    assert items[1..|items| - 1] == [S(b)];
    assert CppType(tb, S(b), fuel - 1) == Ok(bname);
    assert UntypedSlotsSpell(tb, items[1..|items| - 1], [bname], fuel - 1);
    CppTypeTemplate(tb, t, fuel, items, vname, [bname]);
  }

  /**
   * A pair (type, predicate) whose predicate is not a refinement: 0 spells
   * as the type alone, 'const' goes in front, an integer n becomes "[n]"
   * after the type and any other string follows the type.
   */
  lemma CppTypePredicate(tb: Registry, t: Ty, fuel: nat, x: Ty, p: Ty)
    requires fuel > 0 && Canon(tb, t, fuel) == Ok(T([x, p])) && IsRefinement(tb, p) == Ok(false)
    ensures p == N(0) ==> CppType(tb, t, fuel) == CppType(tb, x, fuel - 1)
    ensures p != N(0) && CppType(tb, x, fuel - 1).Err? ==> CppType(tb, t, fuel) == CppType(tb, x, fuel - 1)
    ensures CppType(tb, x, fuel - 1).Ok? ==> var s := CppType(tb, x, fuel - 1).value;
      && (p == S("const") ==> CppType(tb, t, fuel) == Ok("const " + s))
      && (p.S? && p != S("const") ==> CppType(tb, t, fuel) == Ok(s + " " + p.s))
      && (p.N? && p.n != 0 ==> CppType(tb, t, fuel) == Ok(s + " [" + IntStr(p.n) + "]"))
  {
    var r := CppType(tb, t, fuel);
    var sub := CppType(tb, x, fuel - 1);
    assert PyItems(T([x, p])) == [x, p];
    if p == N(0) {
      assert r == sub;
    } else if sub.Err? {
      assert r == sub;
    } else {
      assert r == Ok(AddPredicate(sub.value, PredicateText(p)));
      if p.N? {
        var bracket := "[" + IntStr(p.n) + "]";
        assert PredicateText(p) == S(bracket);
        assert S(bracket) != S("const") by { assert bracket[0] == '[' && "const"[0] == 'c'; }
        assert AddPredicate(sub.value, S(bracket)) == sub.value + " " + bracket;
        assert sub.value + " " + bracket == sub.value + " [" + IntStr(p.n) + "]";
      }
    }
  }

  /**
   * A pair whose predicate is a refinement with no entry for its head — for a
   * string refinement the head is its first character — spells as the type it
   * refines.
   */
  lemma CppTypeRefinementFallsBack(tb: Registry, t: Ty, fuel: nat, x: Ty, p: Ty)
    requires fuel > 0 && Canon(tb, t, fuel) == Ok(T([x, p])) && p != N(0) && IsRefinement(tb, p) == Ok(true)
    requires At(p, 0).Ok? && At(p, 0).value !in tb.cppTypes
    ensures CppType(tb, t, fuel) == CppType(tb, x, fuel - 1)
  { }

  /** The spelling of one template argument of a function name. */
  function CppFuncPart(tb: Registry, x: Ty, kind: ArgKind, fuel: nat): (r: Result<Ty>)
    ensures kind == TypeArg ==> r == AsValue(CppType(tb, x, fuel))
    ensures kind != TypeArg && (kind == LitArg || x.N?) ==>
      r == (if CppLiteral(x).Ok? then Ok(S(CppLiteral(x).value)) else Err(UnboundLocalError))
    ensures kind != TypeArg && kind != LitArg && !x.N? && CppType(tb, x, fuel) == Err(TypeError) ==> r == Ok(x)
  {
    if kind == TypeArg then AsValue(CppType(tb, x, fuel))
    else if kind == LitArg || x.N? then (var l :- CppLiteral(x); Ok(S(l)))
    else
      var g := CppType(tb, x, fuel);
      if g == Err(TypeError) then Ok(x) else AsValue(g)
  }

  /** cpp_funcname: the template arguments of a function name, one per (argument, kind) pair. */
  function CppFuncParts(tb: Registry, xs: seq<Ty>, kinds: seq<ArgKind>, fuel: nat): (r: Result<seq<Ty>>)
    ensures r.Ok? ==> |r.value| == if |xs| < |kinds| then |xs| else |kinds|
    ensures r.Ok? ==> forall i :: 0 <= i < |r.value| ==> CppFuncPart(tb, xs[i], kinds[i], fuel) == Ok(r.value[i])
    decreases |xs|
  {
    if xs == [] || kinds == [] then Ok([])
    else
      var ct :- CppFuncPart(tb, xs[0], kinds[0], fuel);
      var rest :- CppFuncParts(tb, xs[1..], kinds[1..], fuel);
      assert forall i :: 1 <= i < |xs| ==> xs[i] == xs[1..][i - 1];
      assert forall i :: 1 <= i < |kinds| ==> kinds[i] == kinds[1..][i - 1];
      Ok([ct] + rest)
  }

  /**
   * cpp_funcname: a string name as is; otherwise the head name, followed by
   * "< a1, a2, ... >" when there are template arguments.
   */
  function CppFuncname(tb: Registry, name: Ty, argkinds: Option<seq<ArgKind>>, fuel: nat): (r: Result<string>)
    ensures name.S? ==> r == Ok(name.s)
    ensures !IsSeq(name) ==> r == Err(TypeError)
    ensures name == T([]) ==> r == Err(IndexError)
    ensures name.T? && |name.items| == 1 ==> r == (if name.items[0].S? then Ok(name.items[0].s) else Err(TypeError))
  {
    if name.S? then Ok(name.s)
    else if !IsSeq(name) then Err(TypeError)
    else
      var items := PyItems(name);
      var kinds := if argkinds.Some? then argkinds.value else NoneKinds(if |items| == 0 then 0 else |items| - 1);
      if |items| == 0 then Err(IndexError)
      else
        var fname := items[0];
        var cts :- CppFuncParts(tb, items[1..], kinds, fuel);
        if |cts| == 0 then (if fname.S? then Ok(fname.s) else Err(TypeError))
        else
          var joined :- JoinValues(", ", cts);
          if fname.S? then Ok(fname.s + "< " + joined + " >") else Err(TypeError)
  }

  /** A function templated on one type argument spells as "f< T >". */
  lemma CppFuncnameOfType(tb: Registry, f: string, x: Ty, s: string, fuel: nat)
    requires CppType(tb, x, fuel) == Ok(s)
    ensures CppFuncname(tb, T([S(f), x]), Some([TypeArg]), fuel) == Ok(f + "< " + s + " >")
  {
    var xs, ks := [x], [TypeArg];
    assert CppFuncParts(tb, xs[1..], ks[1..], fuel) == Ok([]);
    var parts := CppFuncParts(tb, xs, ks, fuel);
    assert parts.Ok? && |parts.value| == 1 && parts.value[0] == S(s);
    assert parts.value == [S(s)];
    assert T([S(f), x]).items[1..] == xs;
    assert seq(1, i requires 0 <= i < 1 => [S(s)][i].s) == [s];
  }

  /** The GCC-XML spelling of a C++ declaration: no spaces inside angle brackets or after commas, but "> >" kept apart. */
  function GccxmlText(cppt: string): string {
    Replace(Replace(Replace(Replace(cppt, "< ", "<"), " >", ">"), ">>", "> >"), ", ", ",")
  }

  /** gccxml_type. */
  function GccxmlType(tb: Registry, t: Ty, fuel: nat): (r: Result<string>)
    ensures r.Ok? <==> CppType(tb, t, fuel).Ok?
    ensures r.Ok? ==> r.value == GccxmlText(CppType(tb, t, fuel).value)
  {
    var cppt :- CppType(tb, t, fuel);
    Ok(GccxmlText(cppt))
  }

  /** Replacing a pattern that cannot occur leaves a string unchanged. */
  lemma {:induction false} ReplaceAbsent(s: string, pat: string, sub: string, c: char)
    requires |pat| > 0 && c in pat && c !in s
    ensures Replace(s, pat, sub) == s
    decreases |s|
  {
    if |s| >= |pat| {
      assert s[..|pat|] != pat by {
        var k :| 0 <= k < |pat| && pat[k] == c;
        assert s[..|pat|][k] == s[k];
      }
      assert c !in s[1..];
      ReplaceAbsent(s[1..], pat, sub, c);
      assert [s[0]] + s[1..] == s;
    }
  }

  /** A spelling without angle brackets or commas, such as a base type's, is its own GCC-XML spelling. */
  lemma GccxmlPlain(cppt: string)
    requires '<' !in cppt && '>' !in cppt && ',' !in cppt
    ensures GccxmlText(cppt) == cppt
  {
    ReplaceAbsent(cppt, "< ", "<", '<');
    ReplaceAbsent(cppt, " >", ">", '>');
    ReplaceAbsent(cppt, ">>", "> >", '>');
    ReplaceAbsent(cppt, ", ", ",", ',');
  }

  // ---------------------------------------------------------------------
  // numpy

  /** A numpy type code, or (at depth > 0) the list of the codes of a template's slots. */
  datatype NpType = One(code: string) | Many(items: seq<NpType>)

  const NpObject := "np.NPY_OBJECT"

  /** A numpy type nested no deeper than d lists. */
  predicate Within(x: NpType, d: int)
    decreases x
  {
    match x
    case One(_) => true
    case Many(xs) => d >= 1 && forall i :: 0 <= i < |xs| ==> Within(xs[i], d - 1)
  }

  /**
   * cython_nptype: numbers and types without a numpy code are objects; a
   * pair is its type's code; at depth > 0 a template gives the list of its
   * slots' codes one level shallower, and at depth 0 a one-slot template
   * gives its slot's code.
   */
  function CythonNptype(tb: Registry, t: Ty, depth: int, fuel: nat): (r: Result<NpType>)
    ensures t.N? ==> r == Ok(One(NpObject))
    ensures r.Ok? ==> Within(r.value, depth)
    ensures r.Ok? && r.value.Many? ==>
      fuel > 0 && Canon(tb, t, fuel).Ok? && |r.value.items| == |Mid(PyItems(Canon(tb, t, fuel).value))|
    decreases fuel, 2
  {
    if t.N? then Ok(One(NpObject))
    else if fuel == 0 then Err(RecursionLimit)
    else
      var c :- Canon(tb, t, fuel);
      if c.S? then Ok(One(if c in tb.numpyTypes then tb.numpyTypes[c] else NpObject))
      else NptypeTuple(tb, c, depth, fuel)
  }

  /** The tuple branch of cython_nptype. */
  function NptypeTuple(tb: Registry, c: Ty, depth: int, fuel: nat): (r: Result<NpType>)
    requires fuel > 0
    ensures r.Ok? ==> Within(r.value, depth)
    ensures r.Ok? && r.value.Many? ==> |r.value.items| == |Mid(PyItems(c))|
    decreases fuel, 1
  {
    var items := PyItems(c);
    if c in tb.numpyTypes && depth < 1 then Ok(One(tb.numpyTypes[c]))
    else if |items| == 2 then
      if items[1] == N(0) then CythonNptype(tb, items[0], 0, fuel - 1)
      else
        var isRef :- IsRefinement(tb, items[1]);
        CythonNptype(tb, items[0], 0, fuel - 1)
    else
      var deep :- if depth > 0 then IsTemplate(tb, c) else Ok(false);
      if deep then
        var us :- NptypeList(tb, Mid(items), depth - 1, fuel - 1);
        Ok(Many(us))
      else if |items| == 3 then
        var tmpl :- IsTemplate(tb, c);
        if tmpl then CythonNptype(tb, items[1], 0, fuel - 1) else Ok(One(NpObject))
      else Ok(One(NpObject))
  }

  /** The codes of a template's slots, in order. */
  function NptypeList(tb: Registry, xs: seq<Ty>, depth: int, fuel: nat): (r: Result<seq<NpType>>)
    ensures r.Ok? ==> |r.value| == |xs|
    ensures r.Ok? ==> forall i :: 0 <= i < |xs| ==> CythonNptype(tb, xs[i], depth, fuel) == Ok(r.value[i])
    decreases fuel, 3, |xs|
  {
    if xs == [] then Ok([])
    else
      var u :- CythonNptype(tb, xs[0], depth, fuel);
      var rest :- NptypeList(tb, xs[1..], depth, fuel);
      assert forall i :: 1 <= i < |xs| ==> xs[i] == xs[1..][i - 1];
      Ok([u] + rest)
  }

  /** At depth 0 the numpy type is a single code. */
  lemma NptypeShallow(tb: Registry, t: Ty, fuel: nat)
    requires CythonNptype(tb, t, 0, fuel).Ok?
    ensures CythonNptype(tb, t, 0, fuel).value.One?
  { }

  /** At depth 1 a registered template without its own code gives one code per slot. */
  lemma NptypeOfTemplate(tb: Registry, t: Ty, fuel: nat, items: seq<Ty>)
    requires fuel > 0 && Canon(tb, t, fuel) == Ok(T(items)) && |items| >= 3 && !t.N?
    requires IsTemplate(tb, T(items)) == Ok(true)
    requires NptypeList(tb, items[1..|items| - 1], 0, fuel - 1).Ok?
    ensures var us := NptypeList(tb, items[1..|items| - 1], 0, fuel - 1).value;
      CythonNptype(tb, t, 1, fuel) == Ok(Many(us))
      && forall i :: 0 <= i < |us| ==> us[i].One? && CythonNptype(tb, items[i + 1], 0, fuel - 1) == Ok(us[i])
  {
    assert Mid(PyItems(T(items))) == items[1..|items| - 1];
    assert CythonNptype(tb, t, 1, fuel) == NptypeTuple(tb, T(items), 1, fuel);
    NptypeSlotsShallow(tb, items, fuel);
  }

  /** Each slot code of NptypeOfTemplate is a single code: the slot's own depth-0 numpy type. */
  lemma NptypeSlotsShallow(tb: Registry, items: seq<Ty>, fuel: nat)
    requires fuel > 0 && |items| >= 3
    requires NptypeList(tb, items[1..|items| - 1], 0, fuel - 1).Ok?
    ensures var us := NptypeList(tb, items[1..|items| - 1], 0, fuel - 1).value;
      forall i :: 0 <= i < |us| ==> us[i].One? && CythonNptype(tb, items[i + 1], 0, fuel - 1) == Ok(us[i])
  {
    var us := NptypeList(tb, items[1..|items| - 1], 0, fuel - 1).value;
    forall i | 0 <= i < |us| ensures us[i].One? && CythonNptype(tb, items[i + 1], 0, fuel - 1) == Ok(us[i]) {
      assert items[1..|items| - 1][i] == items[i + 1];
      NptypeShallow(tb, items[i + 1], fuel - 1);
    }
  }

  /** The codes of a numpy type, depth first. */
  function Leaves(x: NpType): seq<string>
    decreases x, 1
  {
    match x
    case One(c) => [c]
    case Many(xs) => LeavesOf(xs)
  }

  function LeavesOf(xs: seq<NpType>): seq<string>
    decreases xs, 0
  {
    if xs == [] then [] else LeavesOf(xs[..|xs| - 1]) + Leaves(xs[|xs| - 1])
  }

  /** f applied to each element of a sequence. */
  function MapSeq<R>(f: string -> R, s: seq<string>): (r: seq<R>)
    ensures |r| == |s| && forall i :: 0 <= i < |s| ==> r[i] == f(s[i])
  {
    seq(|s|, i requires 0 <= i < |s| => f(s[i]))
  }

  lemma MapSeqAppend<R>(f: string -> R, a: seq<string>, b: seq<string>)
    ensures MapSeq(f, a + b) == MapSeq(f, a) + MapSeq(f, b)
  { }

  /** _maprecurse: f applied to every code of a (possibly nested) numpy type, flattened in order. */
  method MapRecurse<R>(f: string -> R, x: NpType) returns (l: seq<R>)
    ensures l == MapSeq(f, Leaves(x))
    decreases x
  {
    match x {
      case One(c) =>
        l := [f(c)];
      case Many(xs) =>
        l := [];
        var i := 0;
        while i < |xs|
          invariant 0 <= i <= |xs|
          invariant l == MapSeq(f, LeavesOf(xs[..i]))
        {
          var sub := MapRecurse(f, xs[i]);
          assert xs[..i + 1][..i] == xs[..i];
          MapSeqAppend(f, LeavesOf(xs[..i]), Leaves(xs[i]));
          l := l + sub;
          i := i + 1;
        }
        assert xs[..|xs|] == xs;
    }
  }

  // ---------------------------------------------------------------------
  // Cython

  /** cython_ctype: the Cython declaration of the C/C++ type. */
  function CythonCtype(tb: Registry, t: Ty, fuel: nat): (r: Result<string>)
    ensures fuel > 0 && Canon(tb, t, fuel).Err? ==> r == Err(Canon(tb, t, fuel).error)
    ensures fuel > 0 && Canon(tb, t, fuel).Ok? && Canon(tb, t, fuel).value in tb.cythonCtypes ==>
      r == EntryText(tb.cythonCtypes[Canon(tb, t, fuel).value])
    decreases fuel, 0, 1
  {
    if fuel == 0 then Err(RecursionLimit)
    else
      var c :- Canon(tb, t, fuel);
      if c in tb.cythonCtypes then EntryText(tb.cythonCtypes[c])
      else if c.S? && c in tb.baseTypes then Err(KeyError)
      else
        var items := PyItems(c);
        if |items| == 2 then
          if items[1] == N(0) then CythonCtype(tb, items[0], fuel - 1)
          else
            var isRef :- IsRefinement(tb, items[1]);
            if isRef then
              var h :- At(items[1], 0);
              if h in tb.cythonCtypes then RefinementText(tb.cythonCtypes[h], items[1])
              else CythonCtype(tb, items[0], fuel - 1)
            else
              var b :- CythonCtype(tb, items[0], fuel - 1);
              Ok(AddPredicate(b, PredicateText(items[1])))
        else if |items| >= 3 then CtypeTemplate(tb, items, fuel)
        else Err(NonString)
  }

  /** The template branch of cython_ctype: "name[slot, ...]" with any predicate placed after. */
  function CtypeTemplate(tb: Registry, items: seq<Ty>, fuel: nat): (r: Result<string>)
    requires fuel > 0 && |items| >= 3
    decreases fuel, 0, 0
  {
    if items[0] !in tb.templateTypes || |items| != |tb.templateTypes[items[0]]| + 2 then Err(AssertionError)
    else if items[0] !in tb.cythonCtypes || tb.cythonCtypes[items[0]].NotImpl? then Err(NotImplementedError)
    else
      var filling :- CtypeFilling(tb, Mid(items), fuel - 1);
      var joined :- JoinValues(", ", filling);
      var name :- EntryText(tb.cythonCtypes[items[0]]);
      var last := items[|items| - 1];
      var cyct := name + "[" + joined + "]";
      Ok(if last != N(0) then AddPredicate(cyct, PredicateText(last)) else cyct)
  }

  /** The C spellings of a template's slots: numbers by str(), anything else by cython_ctype. */
  function CtypeFilling(tb: Registry, xs: seq<Ty>, fuel: nat): (r: Result<seq<Ty>>)
    ensures r.Ok? ==> |r.value| == |xs|
    ensures r.Ok? ==> forall i :: 0 <= i < |xs| ==>
      if xs[i].N? then r.value[i] == S(IntStr(xs[i].n)) else AsValue(CythonCtype(tb, xs[i], fuel)) == Ok(r.value[i])
    decreases fuel, 1, |xs|
  {
    if xs == [] then Ok([])
    else
      var v :- if xs[0].N? then Ok(S(IntStr(xs[0].n))) else AsValue(CythonCtype(tb, xs[0], fuel));
      var rest :- CtypeFilling(tb, xs[1..], fuel);
      assert forall i :: 1 <= i < |xs| ==> xs[i] == xs[1..][i - 1];
      Ok([v] + rest)
  }

  /** A one-slot template spells as "name[slot]" in Cython's C declarations. */
  lemma CythonCtypeOneSlotTemplate(tb: Registry, t: Ty, fuel: nat, h: Ty, x: Ty, name: string, s: string)
    requires fuel > 1 && Canon(tb, t, fuel) == Ok(T([h, x, N(0)])) && T([h, x, N(0)]) !in tb.cythonCtypes
    requires h in tb.templateTypes && |tb.templateTypes[h]| == 1
    requires h in tb.cythonCtypes && tb.cythonCtypes[h] == Text(name)
    requires !x.N? && CythonCtype(tb, x, fuel - 1) == Ok(s)
    ensures CythonCtype(tb, t, fuel) == Ok(name + "[" + s + "]")
  {
    var items := [h, x, N(0)];
    CtypeOneSlot(tb, fuel, h, x, name, s);
    assert PyItems(T(items)) == items;
    assert CythonCtype(tb, t, fuel) == CtypeTemplate(tb, items, fuel);
  }

  /** The template branch of CythonCtypeOneSlotTemplate on its own. */
  lemma CtypeOneSlot(tb: Registry, fuel: nat, h: Ty, x: Ty, name: string, s: string)
    requires fuel > 1 && h in tb.templateTypes && |tb.templateTypes[h]| == 1
    requires h in tb.cythonCtypes && tb.cythonCtypes[h] == Text(name)
    requires !x.N? && CythonCtype(tb, x, fuel - 1) == Ok(s)
    ensures CtypeTemplate(tb, [h, x, N(0)], fuel) == Ok(name + "[" + s + "]")
  {
    var items := [h, x, N(0)];
    assert Mid(items) == [x];
    var xs := [x];
    assert CtypeFilling(tb, xs[1..], fuel - 1) == Ok([]);
    var f := CtypeFilling(tb, xs, fuel - 1);
    assert f.Ok? && f.value == [S(s)];
    assert seq(1, i requires 0 <= i < 1 => [S(s)][i].s) == [s];
  }

  /** _cython_cytype_add_predicate: a pointer gets " *", a positive integer n " [n]"; any other predicate is dropped. */
  function CytypeAddPredicate(t: string, last: Ty): (r: string)
    ensures last == S("*") ==> r == t + " *"
    ensures last.N? && last.n > 0 ==> r == t + " [" + IntStr(last.n) + "]"
    ensures last != S("*") && !(last.N? && last.n > 0) ==> r == t
  {
    if last == S("*") then t + " *"
    else if last.N? && last.n > 0 then t + " [" + IntStr(last.n) + "]"
    else t
  }

  /**
   * _fill_cycyt and _fill_cypyt: the entry's format string filled with the
   * Cython class names of t's slots; a callable entry has no format method.
   */
  function FillEntry(tb: Registry, e: Spelling, t: Ty, fuel: nat): (r: Result<string>)
    ensures e.Text? ==> r == FillFormat(tb, tb.cythonClassnames, Strict, e.text, t, fuel)
    ensures !e.Text? && r.Err? ==> TemplateFields(tb, tb.cythonClassnames, Strict, t, fuel).Err? || r.error == AttributeError
  {
    var d :- TemplateFields(tb, tb.cythonClassnames, Strict, t, fuel);
    if e.Text? then FormatFields(e.text, d) else Err(AttributeError)
  }

  /** cython_cytype: the Cython-level type of a value. */
  function CythonCytype(tb: Registry, t: Ty, fuel: nat): (r: Result<string>)
    ensures fuel > 0 && Canon(tb, t, fuel).Err? ==> r == Err(Canon(tb, t, fuel).error)
    ensures fuel > 0 && Canon(tb, t, fuel).Ok? && Canon(tb, t, fuel).value.S? && Canon(tb, t, fuel).value in tb.cythonCytypes ==>
      r == EntryText(tb.cythonCytypes[Canon(tb, t, fuel).value])
    decreases fuel, 0
  {
    if fuel == 0 then Err(RecursionLimit)
    else
      var c :- Canon(tb, t, fuel);
      if c.S? && (c in tb.baseTypes || c in tb.cythonCytypes) then
        (if c in tb.cythonCytypes then EntryText(tb.cythonCytypes[c]) else Err(KeyError))
      else
        var items := PyItems(c);
        if |items| == 2 then
          if items[1] == N(0) then CythonCytype(tb, items[0], fuel - 1)
          else
            var isRef :- IsRefinement(tb, items[1]);
            if isRef then
              var h :- At(items[1], 0);
              if h in tb.cythonCytypes then RefinementText(tb.cythonCytypes[h], items[1])
              else CythonCytype(tb, items[0], fuel - 1)
            else
              var b :- CythonCytype(tb, items[0], fuel - 1);
              Ok(CytypeAddPredicate(b, items[1]))
        else if |items| >= 3 then CytypeTemplate(tb, c, fuel)
        else Err(NonString)
  }

  /** The template branch of cython_cytype: the entry filled with the slots' class names, then the predicate. */
  function CytypeTemplate(tb: Registry, c: Ty, fuel: nat): (r: Result<string>)
    requires fuel > 0 && |PyItems(c)| >= 3
  {
    var items := PyItems(c);
    if c in tb.cythonCytypes then EntryText(tb.cythonCytypes[c])
    else if items[0] !in tb.templateTypes || |items| != |tb.templateTypes[items[0]]| + 2 then Err(AssertionError)
    else if items[0] !in tb.cythonCytypes then Err(KeyError)
    else if tb.cythonCytypes[items[0]].NotImpl? then Err(AssertionError)
    else
      var cycyt :- FillEntry(tb, tb.cythonCytypes[items[0]], c, fuel - 1);
      Ok(CytypeAddPredicate(cycyt, items[|items| - 1]))
  }

  /**
   * A one-parameter template whose slot has a Cython class name fills the
   * parameter's field of its Cython type with that name, then places the
   * predicate.
   */
  lemma CythonCytypeOneSlotTemplate(tb: Registry, t: Ty, fuel: nat, h: Ty, p: string, x: string, last: Ty,
                                    pre: string, post: string)
    requires fuel > 0 && Canon(tb, t, fuel) == Ok(T([h, S(x), last])) && T([h, S(x), last]) !in tb.cythonCytypes
    requires h in tb.templateTypes && tb.templateTypes[h] == [S(p)]
    requires h in tb.cythonCytypes && tb.cythonCytypes[h] == Text(pre + "{" + p + "}" + post)
    requires S(x) in tb.cythonClassnames
    requires '{' !in pre && '}' !in pre && '{' !in post && '}' !in post && '{' !in p && '}' !in p
    ensures CythonCytype(tb, t, fuel) == Ok(CytypeAddPredicate(pre + tb.cythonClassnames[S(x)] + post, last))
  {
    CytypeOneParameter(tb, fuel, h, p, x, last, pre, post);
    assert PyItems(T([h, S(x), last])) == [h, S(x), last];
    assert CythonCytype(tb, t, fuel) == CytypeTemplate(tb, T([h, S(x), last]), fuel);
  }

  /** The template branch of CythonCytypeOneSlotTemplate on its own. */
  lemma CytypeOneParameter(tb: Registry, fuel: nat, h: Ty, p: string, x: string, last: Ty, pre: string, post: string)
    requires fuel > 0 && T([h, S(x), last]) !in tb.cythonCytypes
    requires h in tb.templateTypes && tb.templateTypes[h] == [S(p)]
    requires h in tb.cythonCytypes && tb.cythonCytypes[h] == Text(pre + "{" + p + "}" + post)
    requires S(x) in tb.cythonClassnames
    requires '{' !in pre && '}' !in pre && '{' !in post && '}' !in post && '{' !in p && '}' !in p
    ensures CytypeTemplate(tb, T([h, S(x), last]), fuel)
      == Ok(CytypeAddPredicate(pre + tb.cythonClassnames[S(x)] + post, last))
  {
    FillOneParameter(tb, tb.cythonClassnames, Strict, h, p, x, pre, post, last, fuel - 1);
    assert PyItems(T([h, S(x), last])) == [h, S(x), last];
  }

  /** cython_pytype: the Python-level type of a value; predicates do not change it. */
  function CythonPytype(tb: Registry, t: Ty, fuel: nat): (r: Result<string>)
    ensures t.N? ==> r == Ok(IntStr(t.n))
    ensures !t.N? && fuel > 0 && Canon(tb, t, fuel).Err? ==> r == Err(Canon(tb, t, fuel).error)
    decreases fuel, 0
  {
    if t.N? then Ok(IntStr(t.n))
    else if fuel == 0 then Err(RecursionLimit)
    else
      var c :- Canon(tb, t, fuel);
      if c in tb.cythonPytypes then EntryText(tb.cythonPytypes[c])
      else if c.S? && c in tb.baseTypes then Err(KeyError)
      else
        var items := PyItems(c);
        if |items| == 2 then
          if items[1] == N(0) then CythonPytype(tb, items[0], fuel - 1)
          else
            var isRef :- IsRefinement(tb, items[1]);
            CythonPytype(tb, items[0], fuel - 1)
        else if |items| >= 3 then
          if items[0] !in tb.templateTypes || |items| != |tb.templateTypes[items[0]]| + 2 then Err(AssertionError)
          else if items[0] !in tb.cythonPytypes then Err(KeyError)
          else if tb.cythonPytypes[items[0]].NotImpl? then Err(AssertionError)
          else FillEntry(tb, tb.cythonPytypes[items[0]], c, fuel - 1)
        else Err(NonString)
  }

  /** The Python type of a pair without its own entry is the Python type of the pair's type, whatever the predicate. */
  lemma CythonPytypeIgnoresPredicate(tb: Registry, t: Ty, fuel: nat, x: Ty, p: Ty)
    requires fuel > 0 && !t.N? && Canon(tb, t, fuel) == Ok(T([x, p])) && T([x, p]) !in tb.cythonPytypes
    requires IsRefinement(tb, p).Ok?
    ensures CythonPytype(tb, t, fuel) == CythonPytype(tb, x, fuel - 1)
  { }
}
