/**
 * Turning a type into its canonical form (TypeSystem.canon), dependent-type
 * resolution, and the structural queries that canonical forms answer:
 * istemplate, isdependent, isrefinement, isenum, isfunctionpointer,
 * strip_predicates and basename.
 *
 * Every recursive operation takes `fuel`, the depth of Python calls left
 * before the interpreter's recursion limit; running out is RecursionLimit.
 */
module Canonical {
  import opened Values
  import opened Registry

  // ---------------------------------------------------------------------
  // Structural queries that need no canonical form

  /** Follows t, t[0], t[0][0], ... down to the first value that is not a tuple. */
  function InnerHead(t: Ty): (r: Result<Ty>)
    ensures r.Ok? ==> !r.value.T?
    ensures t.S? ==> r == Ok(t)
    ensures r.Err? ==> r.error == IndexError
  {
    match t
    case T(items) => if |items| == 0 then Err(IndexError) else InnerHead(items[0])
    case _ => Ok(t)
  }

  /** istemplate: the innermost head is a registered template name. */
  function IsTemplate(tb: Registry, t: Ty): (r: Result<bool>)
    ensures t.S? ==> r == Ok(t in tb.templateTypes)
    ensures t.T? && |t.items| == 0 ==> r == Err(IndexError)
  {
    var h :- InnerHead(t);
    Ok(h.S? && h in tb.templateTypes)
  }

  /** The heads k[0] of the non-string keys of refinedTypes, scanning keys in order. */
  function DepTypesOf(tb: Registry, keys: seq<Ty>): (r: Result<set<Ty>>)
    ensures r.Ok? <==> forall i :: 0 <= i < |keys| && keys[i] in tb.refinedTypes && !keys[i].S? ==> At(keys[i], 0).Ok?
    ensures r.Ok? ==> forall h :: h in r.value <==>
      exists i :: 0 <= i < |keys| && keys[i] in tb.refinedTypes && !keys[i].S? && At(keys[i], 0) == Ok(h)
  {
    if keys == [] then Ok({})
    else
      var k := keys[0];
      if k !in tb.refinedTypes || k.S? then
        var rest :- DepTypesOf(tb, keys[1..]);
        assert forall h :: h in rest <==>
          exists i :: 0 <= i < |keys| && keys[i] in tb.refinedTypes && !keys[i].S? && At(keys[i], 0) == Ok(h) by {
          forall h ensures h in rest <==>
            exists i :: 0 <= i < |keys| && keys[i] in tb.refinedTypes && !keys[i].S? && At(keys[i], 0) == Ok(h) {
            if h in rest {
              var i :| 0 <= i < |keys[1..]| && keys[1..][i] in tb.refinedTypes && !keys[1..][i].S? && At(keys[1..][i], 0) == Ok(h);
              assert keys[i + 1] == keys[1..][i];
            }
            if exists i :: 0 <= i < |keys| && keys[i] in tb.refinedTypes && !keys[i].S? && At(keys[i], 0) == Ok(h) {
              var i :| 0 <= i < |keys| && keys[i] in tb.refinedTypes && !keys[i].S? && At(keys[i], 0) == Ok(h);
              assert i > 0;
              assert keys[1..][i - 1] == keys[i];
            }
          }
        }
        Ok(rest)
      else
        var h0 :- At(k, 0);
        var rest :- DepTypesOf(tb, keys[1..]);
        assert forall h :: h in {h0} + rest <==>
          exists i :: 0 <= i < |keys| && keys[i] in tb.refinedTypes && !keys[i].S? && At(keys[i], 0) == Ok(h) by {
          forall h ensures h in {h0} + rest <==>
            exists i :: 0 <= i < |keys| && keys[i] in tb.refinedTypes && !keys[i].S? && At(keys[i], 0) == Ok(h) {
            if h in rest {
              var i :| 0 <= i < |keys[1..]| && keys[1..][i] in tb.refinedTypes && !keys[1..][i].S? && At(keys[1..][i], 0) == Ok(h);
              assert keys[i + 1] == keys[1..][i];
            }
            if exists i :: 0 <= i < |keys| && keys[i] in tb.refinedTypes && !keys[i].S? && At(keys[i], 0) == Ok(h) {
              var i :| 0 <= i < |keys| && keys[i] in tb.refinedTypes && !keys[i].S? && At(keys[i], 0) == Ok(h);
              if i > 0 {
                assert keys[1..][i - 1] == keys[i];
              }
            }
          }
        }
        Ok({h0} + rest)
  }

  /** The heads of the dependent-type signatures registered in refinedTypes. */
  function DepTypes(tb: Registry): Result<set<Ty>> {
    DepTypesOf(tb, tb.refinedOrder)
  }

  /** isdependent: the innermost head is the name of a dependent type. */
  function IsDependent(tb: Registry, t: Ty): (r: Result<bool>)
    ensures DepTypes(tb).Err? ==> r == Err(DepTypes(tb).error)
    ensures DepTypes(tb).Ok? && t.S? ==> r == Ok(t in DepTypes(tb).value)
    ensures DepTypes(tb).Ok? && !IsSeq(t) ==> r == Ok(false)
  {
    var dt :- DepTypes(tb);
    var h :- InnerHead(t);
    Ok(h.S? && h in dt)
  }

  /** isrefinement: a string is a registered refinement; anything else is dependent. */
  function IsRefinement(tb: Registry, t: Ty): Result<bool> {
    if t.S? then Ok(t in tb.refinedTypes) else IsDependent(tb, t)
  }

  /**
   * A tuple headed by the name of a registered dependent signature is a
   * refinement, once the scan of refinedTypes succeeds.
   */
  lemma DependentTupleIsRefinement(tb: Registry, i: nat, rest: seq<Ty>)
    requires i < |tb.refinedOrder| && tb.refinedOrder[i] in tb.refinedTypes && tb.refinedOrder[i].T?
    requires |tb.refinedOrder[i].items| > 0 && tb.refinedOrder[i].items[0].S?
    requires DepTypes(tb).Ok?
    ensures IsRefinement(tb, T([tb.refinedOrder[i].items[0]] + rest)) == Ok(true)
  {
    var k := tb.refinedOrder[i];
    assert At(k, 0) == Ok(k.items[0]);
    assert k.items[0] in DepTypes(tb).value;
    assert InnerHead(T([k.items[0]] + rest)) == Ok(k.items[0]);
  }

  /** The keys k of refinedTypes, in order, whose k[0] equals tname; any key without a k[0] fails the scan. */
  function MatchingKeys(tb: Registry, keys: seq<Ty>, tname: Ty): (r: Result<seq<Ty>>)
    ensures r.Ok? <==> forall i :: 0 <= i < |keys| && keys[i] in tb.refinedTypes ==> At(keys[i], 0).Ok?
    ensures r.Ok? ==> forall k :: k in r.value ==> k in keys && k in tb.refinedTypes && At(k, 0) == Ok(tname)
    ensures r.Ok? ==> forall k :: k in keys && k in tb.refinedTypes && At(k, 0) == Ok(tname) ==> k in r.value
    ensures r.Ok? && |r.value| > 0 ==> FirstMatchAt(tb, keys, tname, r.value[0])
  {
    if keys == [] then Ok([])
    else
      var k := keys[0];
      if k !in tb.refinedTypes then
        var rest :- MatchingKeys(tb, keys[1..], tname);
        ShiftedIndices(tb, keys, tname, rest);
        Ok(rest)
      else
        var h :- At(k, 0);
        var rest :- MatchingKeys(tb, keys[1..], tname);
        if h == tname then Ok([k] + rest)
        else
          ShiftedIndices(tb, keys, tname, rest);
          Ok(rest)
  }

  /** The ordering clause of MatchingKeys carries over from keys[1..] to keys when keys[0] does not match. */
  lemma ShiftedIndices(tb: Registry, keys: seq<Ty>, tname: Ty, rest: seq<Ty>)
    requires |keys| > 0
    requires keys[0] !in tb.refinedTypes || At(keys[0], 0) != Ok(tname)
    requires |rest| > 0 ==> FirstMatchAt(tb, keys[1..], tname, rest[0])
    ensures |rest| > 0 ==> FirstMatchAt(tb, keys, tname, rest[0])
  {
    if |rest| > 0 {
      var i :| 0 <= i < |keys[1..]| && keys[1..][i] == rest[0]
        && forall j :: 0 <= j < i && keys[1..][j] in tb.refinedTypes ==> At(keys[1..][j], 0) != Ok(tname);
      assert keys[i + 1] == rest[0];
      forall j | 0 <= j < i + 1 && keys[j] in tb.refinedTypes ensures At(keys[j], 0) != Ok(tname) {
        if j > 0 {
          assert keys[1..][j - 1] == keys[j];
        }
      }
    }
  }

  /** k sits in keys at an index before which no registered key has head tname. */
  predicate FirstMatchAt(tb: Registry, keys: seq<Ty>, tname: Ty, k: Ty) {
    exists i :: 0 <= i < |keys| && keys[i] == k
      && forall j :: 0 <= j < i && keys[j] in tb.refinedTypes ==> At(keys[j], 0) != Ok(tname)
  }

  // ---------------------------------------------------------------------
  // canon and _resolve_dependent_type

  /** canon(t). */
  function Canon(tb: Registry, t: Ty, fuel: nat): (r: Result<Ty>)
    ensures r.Ok? ==> IsSeq(r.value)
    ensures fuel > 0 && !IsSeq(t) ==> r == Err(TypeError)
    ensures fuel > 0 && t == T([]) ==> r == Err(IndexError)
    ensures fuel > 0 && t.S? && t in tb.baseTypes ==> r == Ok(t)
    decreases fuel, 0, 1
  {
    if fuel == 0 then Err(RecursionLimit)
    else match t
      case S(_) => CanonName(tb, t, fuel)
      case T(items) => if |items| == 0 then Err(IndexError) else CanonTuple(tb, items, fuel)
      case _ => Err(TypeError)
  }

  /** canon of a string: a base type, an alias, a refinement or a dependent type name. */
  function CanonName(tb: Registry, t: Ty, fuel: nat): (r: Result<Ty>)
    requires fuel > 0 && t.S?
    ensures r.Ok? ==> IsSeq(r.value)
    ensures t in tb.baseTypes ==> r == Ok(t)
    decreases fuel, 0, 0
  {
    if t in tb.baseTypes then Ok(t)
    else if t in tb.typeAliases then Canon(tb, tb.typeAliases[t], fuel - 1)
    else if t in tb.refinedTypes then
      var parent :- Canon(tb, tb.refinedTypes[t], fuel - 1);
      Ok(T([parent, t]))
    else
      var dep :- IsDependent(tb, t);
      if dep then ResolveDependent(tb, t, None, fuel - 1) else Err(TypeError)
  }

  /** canon of a non-empty tuple: a dependent type, a template or a (type, predicate) pair. */
  function CanonTuple(tb: Registry, items: seq<Ty>, fuel: nat): (r: Result<Ty>)
    requires fuel > 0 && |items| > 0
    ensures r.Ok? ==> IsSeq(r.value)
    decreases fuel, 0, 0
  {
    var t0 := items[0];
    var lastVal := if |items| == 1 then N(0) else items[|items| - 1];
    if !IsSeq(t0) then Err(TypeError)
    else
      var dep :- IsDependent(tb, t0);
      if dep then ResolveDependent(tb, t0, Some(items), fuel - 1)
      else if t0 in tb.templateTypes then
        var n := |tb.templateTypes[t0]|;
        var last := if |items| == 1 + n then N(0) else items[|items| - 1];
        var filled :- FillSlots(tb, items[1..if |items| < 1 + n then |items| else 1 + n], fuel - 1);
        Ok(T([t0] + filled + [last]))
      else
        var c0 :- Canon(tb, t0, fuel - 1);
        Ok(T([c0, lastVal]))
  }

  /**
   * The canonical slots of a template, one per given slot: numbers are kept,
   * a string slot that does not canonicalise (TypeError) is kept as written,
   * an (Arg, x) slot stands for x, and any other value is a TypeError.
   */
  function FillSlots(tb: Registry, slots: seq<Ty>, fuel: nat): (r: Result<seq<Ty>>)
    ensures r.Ok? ==> |r.value| == |slots|
    ensures r.Ok? ==> forall i :: 0 <= i < |slots| && slots[i].N? ==> r.value[i] == slots[i]
    ensures r.Ok? ==> forall i :: 0 <= i < |slots| && slots[i].T? && |slots[i].items| == 2 && slots[i].items[0].K? ==>
      Canon(tb, slots[i].items[1], fuel) == Ok(r.value[i])
    ensures r.Ok? ==> forall i :: 0 <= i < |slots| ==> slots[i].N? || slots[i].S? || slots[i].T?
    decreases fuel, 1, |slots|
  {
    if slots == [] then Ok([])
    else
      var tt := slots[0];
      var c :- match tt
        case N(_) => Ok(tt)
        case S(_) =>
          var ct := Canon(tb, tt, fuel);
          if ct == Err(TypeError) then Ok(tt) else ct
        case T(xs) => if |xs| == 2 && xs[0].K? then Canon(tb, xs[1], fuel) else Canon(tb, tt, fuel)
        case _ => Err(TypeError);
      var rest :- FillSlots(tb, slots[1..], fuel);
      assert forall i :: 1 <= i < |slots| ==> slots[i] == slots[1..][i - 1];
      Ok([c] + rest)
  }

  /** dict((k, inst[i]) for the string keys): later keys override earlier ones. */
  function TypeMap(keys: seq<Ty>, inst: seq<Ty>): (m: map<Ty, Ty>)
    requires |keys| == |inst|
    ensures forall k :: k in m <==> k in keys && k.S?
  {
    if keys == [] then map[]
    else if keys[0].S? then map[keys[0] := inst[0]] + TypeMap(keys[1..], inst[1..])
    else TypeMap(keys[1..], inst[1..])
  }

  /** [canon(k) for k in keys if k in typemap]. */
  function CanonParams(tb: Registry, keys: seq<Ty>, typemap: map<Ty, Ty>, fuel: nat): (r: Result<seq<Ty>>)
    ensures r.Ok? ==> |r.value| == CountIn(keys, typemap)
    decreases fuel, 1, |keys|
  {
    if keys == [] then Ok([])
    else if keys[0] in typemap then
      var c :- Canon(tb, keys[0], fuel);
      var rest :- CanonParams(tb, keys[1..], typemap, fuel);
      Ok([c] + rest)
    else CanonParams(tb, keys[1..], typemap, fuel)
  }

  function CountIn(keys: seq<Ty>, typemap: map<Ty, Ty>): nat {
    if keys == [] then 0 else (if keys[0] in typemap then 1 else 0) + CountIn(keys[1..], typemap)
  }

  /** [(k[0], canon(k[1]), instval) for k, instval in zip(keys, inst) if k not in typemap]. */
  function TemplatedTriples(tb: Registry, keys: seq<Ty>, inst: seq<Ty>, typemap: map<Ty, Ty>, fuel: nat): (r: Result<seq<Ty>>)
    requires |keys| == |inst|
    ensures r.Ok? ==> |r.value| == |keys| - CountIn(keys, typemap)
    decreases fuel, 1, |keys|
  {
    if keys == [] then Ok([])
    else if keys[0] !in typemap then
      var kname :- At(keys[0], 0);
      var ktype :- At(keys[0], 1);
      var c :- Canon(tb, ktype, fuel);
      var rest :- TemplatedTriples(tb, keys[1..], inst[1..], typemap, fuel);
      Ok([T([kname, c, inst[0]])] + rest)
    else TemplatedTriples(tb, keys[1..], inst[1..], typemap, fuel)
  }

  /** [(kname, canon(ktype), instval) for (kname, ktype), instval in zip(keys, inst)]. */
  function Triples(tb: Registry, keys: seq<Ty>, inst: seq<Ty>, fuel: nat): (r: Result<seq<Ty>>)
    requires |keys| == |inst|
    ensures r.Ok? ==> |r.value| == |keys|
    ensures r.Ok? ==> forall i :: 0 <= i < |keys| ==>
      Unpack2(keys[i]).Ok? && r.value[i].T? && |r.value[i].items| == 3
      && r.value[i].items[0] == Unpack2(keys[i]).value.0 && r.value[i].items[2] == inst[i]
      && Canon(tb, Unpack2(keys[i]).value.1, fuel) == Ok(r.value[i].items[1])
    decreases fuel, 1, |keys|
  {
    if keys == [] then Ok([])
    else
      var pair :- Unpack2(keys[0]);
      var c :- Canon(tb, pair.1, fuel);
      var rest :- Triples(tb, keys[1..], inst[1..], fuel);
      var res := [T([pair.0, c, inst[0]])] + rest;
      assert forall i :: 1 <= i < |keys| ==> keys[i] == keys[1..][i - 1] && inst[i] == inst[1..][i - 1] && res[i] == rest[i - 1];
      Ok(res)
  }

  /**
   * _resolve_dependent_type(tname, tinst): the first signature in
   * refinedTypes whose head is tname; without an instantiation that
   * signature itself, with one the pair (canonical refined type,
   * (tname, canonical parameter values...)).
   */
  function ResolveDependent(tb: Registry, tname: Ty, tinst: Option<seq<Ty>>, fuel: nat): (r: Result<Ty>)
    ensures r.Ok? && tinst.None? ==> r.value in tb.refinedTypes && At(r.value, 0) == Ok(tname)
    ensures r.Ok? && tinst.Some? ==>
      (r.value.T? && |r.value.items| == 2 && r.value.items[1].T?
       && |r.value.items[1].items| == |tinst.value| > 0 && r.value.items[1].items[0] == tname)
    ensures MatchingKeys(tb, tb.refinedOrder, tname) == Ok([]) ==> r == Err(IndexError)
    decreases fuel, 3, 0
  {
    var matches :- MatchingKeys(tb, tb.refinedOrder, tname);
    if |matches| == 0 then Err(IndexError)
    else ResolveSignature(tb, tname, matches[0], tinst, fuel)
  }

  /** _resolve_dependent_type once the signature depkey has been chosen. */
  function ResolveSignature(tb: Registry, tname: Ty, depkey: Ty, tinst: Option<seq<Ty>>, fuel: nat): (r: Result<Ty>)
    requires depkey in tb.refinedTypes && At(depkey, 0).Ok?
    ensures r.Ok? && tinst.None? ==> r.value == depkey
    ensures r.Ok? && tinst.Some? ==>
      (r.value.T? && |r.value.items| == 2 && r.value.items[1].T?
       && |r.value.items[1].items| == |tinst.value| > 0 && r.value.items[1].items[0] == tname)
    decreases fuel, 2, 0
  {
    var depval := tb.refinedTypes[depkey];
    var istemplated :- IsTemplate(tb, depkey);
    var dk := PyItems(depkey);
    if tinst.None? then Ok(depkey)
    else ResolveInstance(tb, tname, dk, tinst.value, depval, istemplated, fuel)
  }

  /** _resolve_dependent_type given an instantiation, which must have the signature's arity. */
  function ResolveInstance(tb: Registry, tname: Ty, dk: seq<Ty>, inst: seq<Ty>, depval: Ty, istemplated: bool,
                           fuel: nat): (r: Result<Ty>)
    requires |dk| > 0
    ensures |inst| != |dk| ==> r == Err(AssertionError)
    ensures r.Ok? ==>
      r.value.T? && |r.value.items| == 2 && r.value.items[1].T?
      && |r.value.items[1].items| == |inst| > 0 && r.value.items[1].items[0] == tname
    decreases fuel, 1, |dk| + 3
  {
    if |inst| != |dk| then Err(AssertionError)
    else if istemplated then ResolveWithParams(tb, tname, dk, inst, depval, fuel)
    else ResolvePlain(tb, tname, dk, inst, depval, fuel)
  }

  /**
   * The templated case: the parameter names must not already be aliases;
   * they are then resolved as aliases of the values given for them.
   */
  function ResolveWithParams(tb: Registry, tname: Ty, dk: seq<Ty>, inst: seq<Ty>, depval: Ty, fuel: nat): (r: Result<Ty>)
    requires |dk| == |inst| > 0
    ensures r.Ok? ==>
      r.value.T? && |r.value.items| == 2 && r.value.items[1].T?
      && |r.value.items[1].items| == |inst| && r.value.items[1].items[0] == tname
    decreases fuel, 1, |dk| + 2
  {
    var typemap := TypeMap(dk[1..], inst[1..]);
    if exists k :: k in typemap && k in tb.typeAliases then Err(TypeError)
    else ResolveTemplated(tb.(typeAliases := tb.typeAliases + typemap), tname, dk, inst, depval, typemap, fuel)
  }

  /**
   * The templated case, on tables that already hold the parameter names as
   * aliases: (canon(parent), (tname, canonical parameters..., the other
   * (name, canon(type), value) triples...)).
   */
  function ResolveTemplated(tb2: Registry, tname: Ty, dk: seq<Ty>, inst: seq<Ty>, depval: Ty, typemap: map<Ty, Ty>,
                            fuel: nat): (r: Result<Ty>)
    requires |dk| == |inst| > 0
    ensures r.Ok? ==>
      r.value.T? && |r.value.items| == 2 && r.value.items[1].T?
      && |r.value.items[1].items| == |inst| && r.value.items[1].items[0] == tname
    decreases fuel, 1, |dk| + 1
  {
    var parent :- Canon(tb2, depval, fuel);
    var params :- CanonParams(tb2, dk[1..], typemap, fuel);
    var triples :- TemplatedTriples(tb2, dk[1..], inst[1..], typemap, fuel);
    Ok(T([parent, T([tname] + params + triples)]))
  }

  /** The case without template parameters: (canon(parent), (tname, (name, canon(type), value)...)). */
  function ResolvePlain(tb: Registry, tname: Ty, dk: seq<Ty>, inst: seq<Ty>, depval: Ty, fuel: nat): (r: Result<Ty>)
    requires |dk| == |inst| > 0
    ensures r.Ok? ==>
      r.value.T? && |r.value.items| == 2 && r.value.items[1].T?
      && |r.value.items[1].items| == |inst| && r.value.items[1].items[0] == tname
    decreases fuel, 1, |dk| + 1
  {
    var parent :- Canon(tb, depval, fuel);
    var triples :- Triples(tb, dk[1..], inst[1..], fuel);
    Ok(T([parent, T([tname] + triples)]))
  }

  // ---------------------------------------------------------------------
  // Queries on canonical forms

  /** strip_predicates: the canonical form with every outer predicate replaced by 0. */
  function StripPredicates(tb: Registry, t: Ty, fuel: nat): (r: Result<Ty>)
    ensures r.Ok? ==> Stripped(r.value)
    decreases fuel
  {
    if fuel == 0 then Err(RecursionLimit)
    else
      var c :- Canon(tb, t, fuel);
      match c
      case S(_) => Ok(c)
      case T(items) =>
        if |items| == 2 then
          var sp0 :- StripPredicates(tb, items[0], fuel - 1);
          Ok(if items[1] == N(0) then T([sp0, N(0)]) else sp0)
        else Ok(T((if |items| == 0 then [] else items[..|items| - 1]) + [N(0)]))
      case _ => Err(TypeError)
  }

  /**
   * A type without an outer predicate: a name, or a tuple ending in 0 whose
   * first element, when it is a pair, has none either.
   */
  predicate Stripped(t: Ty)
    decreases t
  {
    t.S? || (t.T? && |t.items| > 0 && t.items[|t.items| - 1] == N(0) && (|t.items| == 2 ==> Stripped(t.items[0])))
  }

  /** The innermost string of t, t[0], t[0][0], ...; a number or None on the way is a TypeError. */
  function InnerName(t: Ty): (r: Result<string>)
    ensures t.S? ==> r == Ok(t.s)
    ensures t.T? && |t.items| > 0 ==> r == InnerName(t.items[0])
  {
    match t
    case S(s) => Ok(s)
    case T(items) => if |items| == 0 then Err(IndexError) else InnerName(items[0])
    case _ => Err(TypeError)
  }

  /** basename: the name at the head of the canonical form. */
  function BaseName(tb: Registry, t: Ty, fuel: nat): (r: Result<string>)
    ensures Canon(tb, t, fuel).Err? ==> r == Err(Canon(tb, t, fuel).error)
    ensures Canon(tb, t, fuel).Ok? ==> r == InnerName(Canon(tb, t, fuel).value)
  {
    var c :- Canon(tb, t, fuel);
    InnerName(c)
  }

  /** isenum: canonicalises to ('int32', ('enum', ...), ...); a TypeError while canonicalising answers false. */
  function IsEnum(tb: Registry, t: Ty, fuel: nat): (r: Result<bool>)
    ensures Canon(tb, t, fuel) == Err(TypeError) ==> r == Ok(false)
    ensures r == Ok(true) <==> Canon(tb, t, fuel).Ok? && EnumShaped(Canon(tb, t, fuel).value)
  {
    IsEnumOf(Canon(tb, t, fuel))
  }

  /** isenum once canon(t) has answered ct (through the memo, in a TypeSystem). */
  function IsEnumOf(ct: Result<Ty>): (r: Result<bool>)
    ensures ct == Err(TypeError) ==> r == Ok(false)
    ensures r == Ok(true) <==> ct.Ok? && EnumShaped(ct.value)
  {
    if ct == Err(TypeError) then Ok(false)
    else
      var c :- ct;
      if !IsSeq(c) then Ok(false)
      else
        var c0 :- At(c, 0);
        if c0 != S("int32") then Ok(false)
        else
          var c1 :- At(c, 1);
          if !IsSeq(c1) then Ok(false)
          else
            var c10 :- At(c1, 0);
            Ok(c10 == S("enum"))
  }

  predicate EnumShaped(c: Ty) {
    IsSeq(c) && 2 <= |PyItems(c)| && PyItems(c)[0] == S("int32")
    && IsSeq(PyItems(c)[1]) && 1 <= |PyItems(PyItems(c)[1])| && PyItems(PyItems(c)[1])[0] == S("enum")
  }

  /** isfunctionpointer: canonicalises to (('void', '*'), ('function_pointer', ...), ...). */
  function IsFunctionPointer(tb: Registry, t: Ty, fuel: nat): (r: Result<bool>)
    ensures Canon(tb, t, fuel).Err? ==> r == Err(Canon(tb, t, fuel).error)
    ensures r == Ok(true) <==> Canon(tb, t, fuel).Ok? && FunctionPointerShaped(Canon(tb, t, fuel).value)
  {
    var c :- Canon(tb, t, fuel);
    if !IsSeq(c) then Ok(false)
    else
      var c0 :- At(c, 0);
      if c0 != T([S("void"), S("*")]) then Ok(false)
      else
        var c1 :- At(c, 1);
        if !IsSeq(c1) then Ok(false)
        else
          var c10 :- At(c1, 0);
          Ok(c10 == S("function_pointer"))
  }

  predicate FunctionPointerShaped(c: Ty) {
    IsSeq(c) && 2 <= |PyItems(c)| && PyItems(c)[0] == T([S("void"), S("*")])
    && IsSeq(PyItems(c)[1]) && 1 <= |PyItems(PyItems(c)[1])| && PyItems(PyItems(c)[1])[0] == S("function_pointer")
  }
}
