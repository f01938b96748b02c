/**
 * The converter tables behind cython_c2py and cython_py2c: the search for
 * the registered key that serves a canonical type, the write-back of a
 * computed entry, and the choice of the conversion template.
 */
module Converters {
  import opened Values
  import opened Registry
  import opened Canonical

  /**
   * A converter table entry: a tuple of templates (or None), a callable
   * computing the entry from the exact type, or NotImplemented. A callable
   * answers with templates or with NotImplemented, written None here.
   */
  datatype Conv = Static(v: Ty) | Lazy(f: Ty -> Option<Ty>) | NotImpl

  /** The entry a callable's answer is stored as. */
  function AnswerEntry(x: Option<Ty>): (e: Conv)
    ensures !e.Lazy?
  {
    if x.Some? then Static(x.value) else Conv.NotImpl
  }

  // ---------------------------------------------------------------------
  // The key search

  /** x is t itself or sits somewhere inside t. */
  predicate Inside(x: Ty, t: Ty)
    decreases t
  {
    x == t || (t.T? && exists i :: 0 <= i < |t.items| && Inside(x, t.items[i]))
  }

  /**
   * One step of the first walk as written: `tkey[1] if (0 < len(tkey) and
   * isrefinement(tkey[1])) else tkey[0]`. The guard admits a one-element
   * tuple, whose tkey[1] does not exist.
   */
  function StepAsWritten(tb: Registry, tkey: Ty): (r: Result<Ty>)
    requires !tkey.S?
  {
    if !tkey.T? then Err(TypeError)
    else if 0 < |tkey.items| then
      var second :- At(tkey, 1);
      var isRef :- IsRefinement(tb, second);
      if isRef then Ok(second) else At(tkey, 0)
    else At(tkey, 0)
  }

  /** A one-element key stops the walk as written with an IndexError. */
  lemma StepAsWrittenOneTuple(tb: Registry, x: Ty)
    ensures StepAsWritten(tb, T([x])) == Err(IndexError)
  { }

  /**
   * One step of the first walk: toward the second element when that is a
   * refinement, otherwise toward the head; a one-element tuple steps to its
   * head.
   */
  function Step(tb: Registry, tkey: Ty): (r: Result<Ty>)
    requires !tkey.S?
    ensures r.Ok? ==> tkey.T? && r.value in tkey.items
    ensures !tkey.T? ==> r == Err(TypeError)
    ensures tkey == T([]) ==> r == Err(IndexError)
    ensures tkey.T? && |tkey.items| == 1 ==> r == Ok(tkey.items[0])
    ensures tkey.T? && |tkey.items| > 1 && IsRefinement(tb, tkey.items[1]) == Ok(false) ==> r == Ok(tkey.items[0])
    ensures tkey.T? && |tkey.items| > 1 && IsRefinement(tb, tkey.items[1]) == Ok(true) ==> r == Ok(tkey.items[1])
  {
    if !tkey.T? then Err(TypeError)
    else if 1 < |tkey.items| then
      var isRef :- IsRefinement(tb, tkey.items[1]);
      Ok(if isRef then tkey.items[1] else tkey.items[0])
    else At(tkey, 0)
  }

  /** Where the two steps differ, only the one-element key does. */
  lemma StepsAgreeOnPairs(tb: Registry, tkey: Ty)
    requires tkey.T? && |tkey.items| != 1
    ensures StepAsWritten(tb, tkey) == Step(tb, tkey)
  { }

  /** The first walk: step until the key is registered or is a name. */
  function RefinementWalk(tb: Registry, keys: set<Ty>, tkey: Ty): (r: Result<Ty>)
    ensures r.Ok? ==> (r.value in keys || r.value.S?) && Inside(r.value, tkey)
    ensures tkey in keys || tkey.S? ==> r == Ok(tkey)
    decreases tkey
  {
    if tkey in keys || tkey.S? then Ok(tkey)
    else
      var next :- Step(tb, tkey);
      var k :- RefinementWalk(tb, keys, next);
      assert next in tkey.items;
      Ok(k)
  }

  /** The retry: follow heads until the key is registered or is a name. */
  function HeadWalk(keys: set<Ty>, tkey: Ty): (r: Result<Ty>)
    ensures r.Ok? ==> (r.value in keys || r.value.S?) && Inside(r.value, tkey)
    ensures tkey in keys || tkey.S? ==> r == Ok(tkey)
    ensures !(tkey in keys || tkey.S?) && !tkey.T? ==> r == Err(TypeError)
    decreases tkey
  {
    if tkey in keys || tkey.S? then Ok(tkey)
    else
      var head :- At(tkey, 0);
      assert head == tkey.items[0];
      HeadWalk(keys, head)
  }

  /**
   * The registered key that serves t: the end of the first walk when that
   * is registered, otherwise the end of the head walk from t, which must be
   * registered.
   */
  function ConverterKey(tb: Registry, keys: set<Ty>, t: Ty): (r: Result<Ty>)
    ensures r.Ok? ==> r.value in keys && Inside(r.value, t)
    ensures t in keys ==> r == Ok(t)
    ensures RefinementWalk(tb, keys, t).Err? ==> r.Err?
    ensures RefinementWalk(tb, keys, t).Ok? && RefinementWalk(tb, keys, t).value in keys ==> r == RefinementWalk(tb, keys, t)
    ensures RefinementWalk(tb, keys, t).Ok? && RefinementWalk(tb, keys, t).value !in keys ==>
      r == (var h := HeadWalk(keys, t); if h.Err? then h else if h.value in keys then h else Err(KeyError))
  {
    var k1 :- RefinementWalk(tb, keys, t);
    if k1 in keys then Ok(k1)
    else
      var k2 :- HeadWalk(keys, t);
      if k2 in keys then Ok(k2) else Err(KeyError)
  }

  /** A key that no walk can leave is served by its own entry or by nothing. */
  lemma UnregisteredName(tb: Registry, keys: set<Ty>, name: string)
    requires S(name) !in keys
    ensures ConverterKey(tb, keys, S(name)) == Err(KeyError)
  { }

  /**
   * A refinement pair (x, r) whose exact form has no entry but whose
   * refinement r does is served by r's entry.
   */
  lemma RefinementServes(tb: Registry, keys: set<Ty>, x: Ty, r: string)
    requires T([x, S(r)]) !in keys && S(r) in keys && S(r) in tb.refinedTypes
    ensures ConverterKey(tb, keys, T([x, S(r)])) == Ok(S(r))
  {
    assert Step(tb, T([x, S(r)])) == Ok(S(r));
  }

  /**
   * A pair (x, p) whose predicate is not a refinement is served by the
   * entry of its head x once the first walk has stopped at x.
   */
  lemma HeadServes(tb: Registry, keys: set<Ty>, x: Ty, p: Ty)
    requires T([x, p]) !in keys && x in keys
    requires IsRefinement(tb, p) == Ok(false)
    ensures ConverterKey(tb, keys, T([x, p])) == Ok(x)
  {
    assert Step(tb, T([x, p])) == Ok(x);
  }

  // ---------------------------------------------------------------------
  // Lookup and write-back

  /**
   * The entry serving t, and the table afterwards: a callable entry is
   * applied to t and its result stored under t itself.
   */
  function ConvLookup(tb: Registry, conv: map<Ty, Conv>, t: Ty): (r: Result<(Conv, map<Ty, Conv>)>)
    ensures r.Ok? ==> !r.value.0.Lazy?
    ensures r.Ok? ==> r.value.1.Keys == conv.Keys + (if r.value.1 == conv then {} else {t})
    ensures r.Ok? ==> forall k :: k in conv && k != t ==> r.value.1[k] == conv[k]
    ensures ConverterKey(tb, conv.Keys, t).Err? ==> r == Err(ConverterKey(tb, conv.Keys, t).error)
    ensures ConverterKey(tb, conv.Keys, t).Ok? ==>
      r.Ok? && (var k := ConverterKey(tb, conv.Keys, t).value;
        if conv[k].Lazy? then r.value == (AnswerEntry(conv[k].f(t)), conv[t := AnswerEntry(conv[k].f(t))])
        else r.value == (conv[k], conv))
  {
    var k :- ConverterKey(tb, conv.Keys, t);
    match conv[k]
    case Lazy(f) => Ok((AnswerEntry(f(t)), conv[t := AnswerEntry(f(t))]))
    case e => Ok((e, conv))
  }

  /** A second lookup of the same type returns what the first one stored and changes nothing. */
  lemma LookupTwice(tb: Registry, conv: map<Ty, Conv>, t: Ty)
    requires ConvLookup(tb, conv, t).Ok?
    ensures var (e, conv2) := ConvLookup(tb, conv, t).value;
      ConvLookup(tb, conv2, t) == Ok((e, conv2))
  {
    var (e, conv2) := ConvLookup(tb, conv, t).value;
    var k := ConverterKey(tb, conv.Keys, t).value;
    if conv[k].Lazy? {
      assert t in conv2.Keys;
      assert ConverterKey(tb, conv2.Keys, t) == Ok(t);
    } else {
      assert conv2 == conv;
    }
  }

  // ---------------------------------------------------------------------
  // cython_c2py: the template variant

  /** The message of the NotImplementedError as written: `str + t` fails for a tuple t. */
  function C2pyNotImplementedAsWritten(t: Ty): (r: Error)
    ensures t.S? ==> r == NotImplementedError
  {
    if t.S? then NotImplementedError else TypeError
  }

  /**
   * As written, a type whose converter is NotImplemented raises TypeError
   * while building the NotImplementedError message when the type is a tuple.
   */
  lemma C2pyTupleMessageFails(x: Ty, p: Ty)
    ensures C2pyNotImplementedAsWritten(T([x, p])) == TypeError
  { }

  /**
   * The template cython_c2py fills and whether the result is cached, for an
   * entry with `ind = view + cached`: variant 0 when the entry has one
   * template or ind is 0, else variant ind (ind 2 is the cached one).
   * Cached without view is a ValueError; NotImplemented a NotImplementedError.
   */
  function C2pyVariant(entry: Conv, view: bool, cached: bool): (r: Result<(Ty, bool)>)
    requires !entry.Lazy?
    ensures cached && !view ==> r == Err(ValueError)
    ensures !(cached && !view) && entry.NotImpl? ==> r == Err(NotImplementedError)
    ensures r.Ok? ==> entry.Static? && IsSeq(entry.v)
    ensures r.Ok? && (|PyItems(entry.v)| == 1 || !view) ==> |PyItems(entry.v)| > 0 && r.value == (PyItems(entry.v)[0], false)
    ensures r.Ok? && |PyItems(entry.v)| != 1 && view && !cached ==> |PyItems(entry.v)| > 1 && r.value == (PyItems(entry.v)[1], false)
    ensures r.Ok? && |PyItems(entry.v)| != 1 && view && cached ==> |PyItems(entry.v)| > 2 && r.value == (PyItems(entry.v)[2], true)
    ensures entry.Static? && IsSeq(entry.v) && !(cached && !view) ==>
      (r.Ok? <==> (var n := |PyItems(entry.v)|; n == 1 || (!view && n > 0) || (view && !cached && n > 1) || (view && cached && n > 2)))
  {
    var ind := (if view then 1 else 0) + (if cached then 1 else 0);
    if cached && !view then Err(ValueError)
    else match entry
      case NotImpl => Err(NotImplementedError)
      case Static(v) =>
        if !IsSeq(v) then Err(TypeError)
        else if |PyItems(v)| == 1 || ind == 0 then
          var tpl :- At(v, 0);
          Ok((tpl, false))
        else if ind == 1 then
          var tpl :- At(v, 1);
          Ok((tpl, false))
        else
          var tpl :- At(v, 2);
          Ok((tpl, true))
  }

  /**
   * A callable converter that answers NotImplemented: the answer is stored
   * under t, and cython_c2py then raises NotImplementedError for t.
   */
  lemma CallableNotImplemented(tb: Registry, conv: map<Ty, Conv>, t: Ty, view: bool, cached: bool)
    requires ConverterKey(tb, conv.Keys, t).Ok?
    requires var k := ConverterKey(tb, conv.Keys, t).value; conv[k].Lazy? && conv[k].f(t).None?
    requires !(cached && !view)
    ensures ConvLookup(tb, conv, t) == Ok((Conv.NotImpl, conv[t := Conv.NotImpl]))
    ensures C2pyVariant(Conv.NotImpl, view, cached) == Err(NotImplementedError)
  { }

  /** A converter with a single template uses it for every allowed view/cached combination, uncached. */
  lemma SingleTemplate(x: Ty, view: bool, cached: bool)
    requires !(cached && !view)
    ensures C2pyVariant(Static(T([x])), view, cached) == Ok((x, false))
  { }

  // ---------------------------------------------------------------------
  // cython_py2c: the predicate suffix and the entry's two templates

  /**
   * The `last` text cython_py2c offers its templates: empty for a name, a 0
   * predicate or a refinement predicate; " [n]" for a number; " p" for
   * another string predicate.
   */
  function Py2cLast(tb: Registry, t: Ty): (r: Result<string>)
    ensures t.S? ==> r == Ok("")
    ensures t.T? && |t.items| > 0 && t.items[|t.items| - 1] == N(0) ==> r == Ok("")
    ensures t.T? && |t.items| > 0 && t.items[|t.items| - 1].N? && t.items[|t.items| - 1].n != 0 && DepTypes(tb).Ok? ==>
      r == Ok(" [" + IntStr(t.items[|t.items| - 1].n) + "]")
    ensures t.T? && |t.items| > 0 && t.items[|t.items| - 1].S? ==>
      r == (var p := t.items[|t.items| - 1]; if p in tb.refinedTypes then Ok("") else Ok(" " + p.s))
    ensures t.T? && |t.items| > 0 && t.items[|t.items| - 1].T? ==>
      r == (var ref := IsRefinement(tb, t.items[|t.items| - 1]);
            if ref.Err? then Err(ref.error) else if ref.value then Ok("") else Err(TypeError))
  {
    if t.S? then Ok("")
    else
      var p :- Last(t);
      if p == N(0) then Ok("")
      else
        var isRef :- IsRefinement(tb, p);
        if isRef then Ok("")
        else match p
          case N(n) => Ok(" [" + IntStr(n) + "]")
          case S(s) => Ok(" " + s)
          case _ => Err(TypeError)
  }

  /**
   * The (body, return) templates of a py2c entry: NotImplemented and None
   * are NotImplementedError, anything else must unpack into two.
   */
  function Py2cTemplates(entry: Conv): (r: Result<(Ty, Ty)>)
    requires !entry.Lazy?
    ensures entry.NotImpl? || entry == Static(Nil) ==> r == Err(NotImplementedError)
    ensures entry.Static? && entry.v != Nil ==> r == Unpack2(entry.v)
  {
    match entry
    case Static(v) => if v == Nil then Err(NotImplementedError) else Unpack2(v)
    case _ => Err(NotImplementedError)
  }
}
