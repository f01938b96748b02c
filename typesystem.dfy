/**
 * The TypeSystem object: one field per table, the memo of canon, and the
 * methods that change them in place — the converter lookups with their
 * write-back, _resolve_dependent_type's temporary aliases, registration
 * and deregistration, update, the memo and the scoped swaps.
 */
module TypeSystems {
  import opened Values
  import opened Registry
  import opened Canonical
  import CanonLaws
  import opened Names
  import opened Imports
  import opened Converters
  import opened ClassNames
  import opened Registrations

  /**
   * The parameter names _resolve_dependent_type binds as temporary aliases
   * for this call: those of a templated signature whose instantiation has
   * the right length and whose names are not aliases already; none in
   * any other case.
   */
  function TempAliases(tb: Registry, tname: Ty, tinst: Option<seq<Ty>>): (m: map<Ty, Ty>)
  {
    var matches := MatchingKeys(tb, tb.refinedOrder, tname);
    if matches.Err? || |matches.value| == 0 then map[]
    else SignatureAliases(tb, matches.value[0], tinst)
  }

  /** The aliases of TempAliases once the signature depkey has been chosen. */
  function SignatureAliases(tb: Registry, depkey: Ty, tinst: Option<seq<Ty>>): (m: map<Ty, Ty>)
  {
    if tinst.None? || IsTemplate(tb, depkey).Err? then map[]
    else InstanceAliases(tb, PyItems(depkey), tinst.value, IsTemplate(tb, depkey).value)
  }

  /** The aliases of SignatureAliases once the instantiation inst is known. */
  function InstanceAliases(tb: Registry, dk: seq<Ty>, inst: seq<Ty>, istemplated: bool): (m: map<Ty, Ty>)
  {
    if !istemplated || |inst| != |dk| || |dk| == 0 then map[] else ParamAliases(tb, dk, inst)
  }

  /** The aliases of a templated signature dk instantiated with inst, unless one clashes. */
  function ParamAliases(tb: Registry, dk: seq<Ty>, inst: seq<Ty>): (m: map<Ty, Ty>)
    requires |dk| == |inst| > 0
  {
    var typemap := TypeMap(dk[1..], inst[1..]);
    if exists k :: k in typemap && k in tb.typeAliases then map[] else typemap
  }

  /**
   * typeAliases and the memo after _resolve_dependent_type pushed the
   * aliases: on success both lose the alias names, on failure the aliases
   * stay and the memo is untouched.
   */
  function AliasEffect(ok: bool, aliases: map<Ty, Ty>, typeAliases: map<Ty, Ty>, cache: map<Ty, Ty>)
    : (e: (map<Ty, Ty>, map<Ty, Ty>))
    ensures aliases == map[] ==> e == (typeAliases, cache)
  {
    assert aliases == map[] ==> cache - aliases.Keys == cache && typeAliases + aliases == typeAliases;
    if ok then (typeAliases, cache - aliases.Keys) else (typeAliases + aliases, cache)
  }

  /** Adding fresh keys to a map and removing them again gives the map back. */
  lemma AddThenRemove(a: map<Ty, Ty>, m: map<Ty, Ty>)
    requires forall k :: k in m ==> k !in a
    ensures (a + m) - m.Keys == a
  {
    assert forall k :: k in a ==> k !in m.Keys;
  }

  /**
   * After a successful templated resolution the aliases are gone again and
   * a memo that was sound is still sound: the clean-up drops nothing that
   * canon would now compute differently.
   */
  lemma AliasEffectKeepsMemoSound(aliases: map<Ty, Ty>, tb: Registry, cache: map<Ty, Ty>)
    requires CacheSound(cache, tb)
    ensures var e := AliasEffect(true, aliases, tb.typeAliases, cache);
      e.0 == tb.typeAliases && CacheSound(e.1, tb)
  { }

  /**
   * The memo a successful templated _resolve_dependent_type leaves as the
   * code is written: canon(depval) is stored while the parameter names are
   * aliases, and the clean-up deletes only the entries of those names, so
   * that entry survives. The other nested entries are not modelled.
   */
  function AliasMemoAsWritten(cache: map<Ty, Ty>, aliased: Registry, depval: Ty, typemap: map<Ty, Ty>): (m: map<Ty, Ty>)
    ensures depval !in typemap && Canon(aliased, depval, MaxDepth).Ok? ==>
      depval in m && m[depval] == CanonMemo(cache, aliased, depval).value
  {
    (if depval !in cache && Canon(aliased, depval, MaxDepth).Ok? then cache[depval := Canon(aliased, depval, MaxDepth).value]
     else cache) - typemap.Keys
  }

  /**
   * The signature ('dep', 'T') refining ('T',), with 'dep' a template on T:
   * resolving ('dep', 'int32') succeeds, and as written it leaves the memo
   * entry ('T',) -> ('int32', 0), which canon no longer computes once the
   * alias T is gone (canon(('T',)) is then a TypeError).
   */
  lemma AliasMemoLeaks()
    ensures var k := T([S("dep"), S("T")]);
      var tb := Registry({S("int32")}, map[S("dep") := [S("T")]], map[k := T([S("T")])], [k],
                         map[], map[], map[], map[], map[], map[], map[], map[], map[], map[], map[], map[], map[], map[]);
      var typemap := map[S("T") := S("int32")];
      ResolveDependent(tb, S("dep"), Some([S("dep"), S("int32")]), MaxDepth).Ok?
      && CacheSound(map[], tb)
      && !CacheSound(AliasMemoAsWritten(map[], tb.(typeAliases := typemap), T([S("T")]), typemap), tb)
  {
    var k := T([S("dep"), S("T")]);
    var tb := Registry({S("int32")}, map[S("dep") := [S("T")]], map[k := T([S("T")])], [k],
                       map[], map[], map[], map[], map[], map[], map[], map[], map[], map[], map[], map[], map[], map[]);
    var typemap := map[S("T") := S("int32")];
    var aliased := tb.(typeAliases := typemap);
    var depval := T([S("T")]);
    LeakExampleTables(tb, aliased, k, typemap);
    LeakExampleCanon(tb, aliased, k, typemap);
    var m := AliasMemoAsWritten(map[], aliased, depval, typemap);
    assert depval in m && m[depval] == T([S("int32"), N(0)]);
    LeakExampleResolves(tb, aliased, k, typemap);
  }

  /** The scans of the example's tables: 'dep' is the only dependent name, and T is no dependent name. */
  lemma LeakExampleTables(tb: Registry, aliased: Registry, k: Ty, typemap: map<Ty, Ty>)
    requires k == T([S("dep"), S("T")]) && typemap == map[S("T") := S("int32")]
    requires tb == Registry({S("int32")}, map[S("dep") := [S("T")]], map[k := T([S("T")])], [k],
                            map[], map[], map[], map[], map[], map[], map[], map[], map[], map[], map[], map[], map[], map[])
    requires aliased == tb.(typeAliases := typemap)
    ensures DepTypes(tb) == Ok({S("dep")}) && DepTypes(aliased) == Ok({S("dep")})
    ensures IsDependent(tb, S("T")) == Ok(false) && IsDependent(aliased, S("T")) == Ok(false)
    ensures MatchingKeys(tb, tb.refinedOrder, S("dep")) == Ok([k])
  {
    assert At(k, 0) == Ok(S("dep"));
    assert DepTypesOf(tb, [k][1..]) == Ok({});
    assert DepTypesOf(aliased, [k][1..]) == Ok({});
    assert tb.refinedOrder == [k];
    assert MatchingKeys(tb, [k][1..], S("dep")) == Ok([]);
    assert [k] + [] == [k];
    assert {S("dep")} + {} == {S("dep")};
  }

  /** In the example canon(('T',)) is ('int32', 0) while T is an alias and a TypeError once it is gone. */
  lemma LeakExampleCanon(tb: Registry, aliased: Registry, k: Ty, typemap: map<Ty, Ty>)
    requires k == T([S("dep"), S("T")]) && typemap == map[S("T") := S("int32")]
    requires tb == Registry({S("int32")}, map[S("dep") := [S("T")]], map[k := T([S("T")])], [k],
                            map[], map[], map[], map[], map[], map[], map[], map[], map[], map[], map[], map[], map[], map[])
    requires aliased == tb.(typeAliases := typemap)
    requires IsDependent(tb, S("T")) == Ok(false) && IsDependent(aliased, S("T")) == Ok(false)
    ensures Canon(aliased, T([S("T")]), MaxDepth) == Ok(T([S("int32"), N(0)]))
    ensures Canon(tb, T([S("T")]), MaxDepth) == Err(TypeError)
  {
    assert Canon(aliased, S("T"), MaxDepth - 1) == Ok(S("int32"));
    assert Canon(tb, S("T"), MaxDepth - 1) == Err(TypeError);
  }

  /** Resolving ('dep', 'int32') in the example succeeds. */
  lemma LeakExampleResolves(tb: Registry, aliased: Registry, k: Ty, typemap: map<Ty, Ty>)
    requires k == T([S("dep"), S("T")]) && typemap == map[S("T") := S("int32")]
    requires tb == Registry({S("int32")}, map[S("dep") := [S("T")]], map[k := T([S("T")])], [k],
                            map[], map[], map[], map[], map[], map[], map[], map[], map[], map[], map[], map[], map[], map[])
    requires aliased == tb.(typeAliases := typemap)
    requires MatchingKeys(tb, tb.refinedOrder, S("dep")) == Ok([k])
    requires Canon(aliased, T([S("T")]), MaxDepth - 1).Ok?
    ensures ResolveDependent(tb, S("dep"), Some([S("dep"), S("int32")]), MaxDepth).Ok?
  {
    var dk, inst := [S("dep"), S("T")], [S("dep"), S("int32")];
    assert At(k, 0) == Ok(S("dep"));
    assert InnerHead(k) == Ok(S("dep"));
    assert IsTemplate(tb, k) == Ok(true);
    LeakExampleParams(aliased, dk[1..], inst[1..], typemap);
    assert tb.typeAliases + typemap == typemap;
  }

  /** The parameter lists of the example: T maps to int32, canonicalises to int32 and adds no nested triples. */
  lemma LeakExampleParams(aliased: Registry, ps: seq<Ty>, vs: seq<Ty>, typemap: map<Ty, Ty>)
    requires ps == [S("T")] && vs == [S("int32")] && typemap == map[S("T") := S("int32")]
    requires Canon(aliased, S("T"), MaxDepth - 1) == Ok(S("int32"))
    ensures TypeMap(ps, vs) == typemap
    ensures CanonParams(aliased, ps, typemap, MaxDepth - 1) == Ok([S("int32")])
    ensures TemplatedTriples(aliased, ps, vs, typemap, MaxDepth - 1) == Ok([])
  {
    assert TypeMap(ps[1..], vs[1..]) == map[];
    assert map[S("T") := S("int32")] + map[] == typemap;
    assert CanonParams(aliased, ps[1..], typemap, MaxDepth - 1) == Ok([]);
    assert [S("int32")] + [] == [S("int32")];
    assert TemplatedTriples(aliased, ps[1..], vs[1..], typemap, MaxDepth - 1) == Ok([]);
  }

  lemma TempAliasesFresh(tb: Registry, tname: Ty, tinst: Option<seq<Ty>>)
    ensures forall k :: k in TempAliases(tb, tname, tinst) ==> k !in tb.typeAliases && k.S?
  {
    var matches := MatchingKeys(tb, tb.refinedOrder, tname);
    if matches.Ok? && |matches.value| > 0 {
      assert TempAliases(tb, tname, tinst) == SignatureAliases(tb, matches.value[0], tinst);
      SignatureAliasesFresh(tb, matches.value[0], tinst);
    } else {
      assert TempAliases(tb, tname, tinst) == map[];
    }
  }

  lemma SignatureAliasesFresh(tb: Registry, depkey: Ty, tinst: Option<seq<Ty>>)
    ensures forall k :: k in SignatureAliases(tb, depkey, tinst) ==> k !in tb.typeAliases && k.S?
  {
    var istemplated := IsTemplate(tb, depkey);
    if tinst.Some? && istemplated.Ok? {
      assert SignatureAliases(tb, depkey, tinst) == InstanceAliases(tb, PyItems(depkey), tinst.value, istemplated.value);
      InstanceAliasesFresh(tb, PyItems(depkey), tinst.value, istemplated.value);
    } else {
      assert SignatureAliases(tb, depkey, tinst) == map[];
    }
  }

  lemma InstanceAliasesFresh(tb: Registry, dk: seq<Ty>, inst: seq<Ty>, istemplated: bool)
    ensures forall k :: k in InstanceAliases(tb, dk, inst, istemplated) ==> k !in tb.typeAliases && k.S?
  {
    if istemplated && |inst| == |dk| && |dk| > 0 {
      var typemap := TypeMap(dk[1..], inst[1..]);
      assert forall k :: k in typemap ==> k.S?;
      assert InstanceAliases(tb, dk, inst, istemplated) == ParamAliases(tb, dk, inst);
    }
  }

  // ---------------------------------------------------------------------
  // Converter searches

  /** The key search of cython_c2py_getitem and cython_py2c, as two while loops. */
  method FindKey(tb: Registry, keys: set<Ty>, t: Ty) returns (r: Result<Ty>)
    ensures r == ConverterKey(tb, keys, t)
  {
    var tkey := t;
    while tkey !in keys && !tkey.S?
      invariant RefinementWalk(tb, keys, tkey) == RefinementWalk(tb, keys, t)
      decreases tkey
    {
      var next := Step(tb, tkey);
      if next.Err? {
        return Err(next.error);
      }
      tkey := next.value;
    }
    if tkey in keys {
      return Ok(tkey);
    }
    tkey := t;
    while tkey !in keys && !tkey.S?
      invariant HeadWalk(keys, tkey) == HeadWalk(keys, t)
      decreases tkey
    {
      var head := At(tkey, 0);
      if head.Err? {
        return Err(head.error);
      }
      assert head.value == tkey.items[0];
      tkey := head.value;
    }
    if tkey in keys {
      return Ok(tkey);
    }
    return Err(KeyError);
  }

  /**
   * The entry serving t, as cython_c2py_getitem and cython_py2c take it:
   * the key search, then a callable entry applied to t and stored under t.
   */
  method Serve(tb: Registry, conv: map<Ty, Conv>, t: Ty) returns (r: Result<(Conv, map<Ty, Conv>)>)
    ensures r == ConvLookup(tb, conv, t)
  {
    var k := FindKey(tb, conv.Keys, t);
    if k.Err? {
      return Err(k.error);
    }
    match conv[k.value]
    case Lazy(f) =>
      var e := AnswerEntry(f(t));
      r := Ok((e, conv[t := e]));
    case e =>
      r := Ok((e, conv));
  }

  /** What a converter lookup returns, with the converter table and canon's memo it leaves. */
  datatype Served<T> = Served(result: Result<T>, conv: map<Ty, Conv>, memo: map<Ty, Ty>)

  /** cython_c2py_getitem: canon(t) through the memo, then the entry serving it. */
  function C2pyGetitemOf(cache: map<Ty, Ty>, tb: Registry, conv: map<Ty, Conv>, t: Ty): (r: Served<Conv>)
    ensures r.memo == MemoAfter(cache, tb, t)
    ensures CanonMemo(cache, tb, t).Err? ==> r.result == Err(CanonMemo(cache, tb, t).error) && r.conv == conv
    ensures CanonMemo(cache, tb, t).Ok? ==> var g := ConvLookup(tb, conv, CanonMemo(cache, tb, t).value);
      r.result == (if g.Err? then Err(g.error) else Ok(g.value.0)) && r.conv == (if g.Err? then conv else g.value.1)
    ensures r.result.Ok? ==> !r.result.value.Lazy?
  {
    var m := MemoAfter(cache, tb, t);
    match CanonMemo(cache, tb, t)
    case Err(e) => Served(Err(e), conv, m)
    case Ok(c) =>
      match ConvLookup(tb, conv, c)
      case Err(e) => Served(Err(e), conv, m)
      case Ok((entry, conv2)) => Served(Ok(entry), conv2, m)
  }

  /**
   * cython_c2py's choice of template: canon(t), then cython_c2py_getitem
   * (which canonicalises again), then the variant view and cached select.
   * Asking for a cached result without a view is a ValueError once the
   * entry has been found.
   */
  function C2pyOf(cache: map<Ty, Ty>, tb: Registry, conv: map<Ty, Conv>, t: Ty, view: bool, cached: bool)
    : (r: Served<(Ty, bool)>)
    ensures CanonMemo(cache, tb, t).Err? ==> r == Served(Err(CanonMemo(cache, tb, t).error), conv, cache)
    ensures CanonMemo(cache, tb, t).Ok? ==>
      var g := C2pyGetitemOf(MemoAfter(cache, tb, t), tb, conv, CanonMemo(cache, tb, t).value);
      r.conv == g.conv && r.memo == g.memo
      && (g.result.Err? ==> r.result == Err(g.result.error))
      && (g.result.Ok? && cached && !view ==> r.result == Err(ValueError))
      && (g.result.Ok? ==> r.result == C2pyVariant(g.result.value, view, cached))
    ensures r.result.Ok? ==> !(cached && !view)
  {
    match CanonMemo(cache, tb, t)
    case Err(e) => Served(Err(e), conv, cache)
    case Ok(c) =>
      var g := C2pyGetitemOf(MemoAfter(cache, tb, t), tb, conv, c);
      match g.result
      case Err(e) => Served(Err(e), g.conv, g.memo)
      case Ok(entry) => Served(C2pyVariant(entry, view, cached), g.conv, g.memo)
  }

  /**
   * cython_py2c's templates: canon(t) through the memo, the `last` suffix,
   * the entry serving t (written back when callable), then its two
   * templates; the write-back stays even when the entry is NotImplemented.
   */
  function Py2cOf(cache: map<Ty, Ty>, tb: Registry, conv: map<Ty, Conv>, t: Ty): (r: Served<(Ty, Ty, string)>)
    ensures r.memo == MemoAfter(cache, tb, t)
    ensures CanonMemo(cache, tb, t).Err? ==> r.result == Err(CanonMemo(cache, tb, t).error) && r.conv == conv
    ensures CanonMemo(cache, tb, t).Ok? && Py2cLast(tb, CanonMemo(cache, tb, t).value).Err? ==>
      r.result == Err(Py2cLast(tb, CanonMemo(cache, tb, t).value).error) && r.conv == conv
    ensures CanonMemo(cache, tb, t).Ok? && Py2cLast(tb, CanonMemo(cache, tb, t).value).Ok? ==>
      var c := CanonMemo(cache, tb, t).value;
      var g := ConvLookup(tb, conv, c);
      (g.Err? ==> r.result == Err(g.error) && r.conv == conv)
      && (g.Ok? ==>
            r.conv == g.value.1
            && r.result == (var tm := Py2cTemplates(g.value.0);
                            if tm.Err? then Err(tm.error) else Ok((tm.value.0, tm.value.1, Py2cLast(tb, c).value))))
  {
    var m := MemoAfter(cache, tb, t);
    match CanonMemo(cache, tb, t)
    case Err(e) => Served(Err(e), conv, m)
    case Ok(c) =>
      match Py2cLast(tb, c)
      case Err(e) => Served(Err(e), conv, m)
      case Ok(last) =>
        match ConvLookup(tb, conv, c)
        case Err(e) => Served(Err(e), conv, m)
        case Ok((entry, conv2)) =>
          match Py2cTemplates(entry)
          case Err(e) => Served(Err(e), conv2, m)
          case Ok((body, rtn)) => Served(Ok((body, rtn, last)), conv2, m)
  }

  /** Asking canon through the memo it left changes neither the answer nor the memo. */
  lemma MemoSettled(cache: map<Ty, Ty>, tb: Registry, t: Ty)
    ensures CanonMemo(MemoAfter(cache, tb, t), tb, t) == CanonMemo(cache, tb, t)
    ensures MemoAfter(MemoAfter(cache, tb, t), tb, t) == MemoAfter(cache, tb, t)
  { }

  /** cython_c2py_getitem asked again on the state it left returns the same entry and changes nothing. */
  lemma C2pyGetitemTwice(cache: map<Ty, Ty>, tb: Registry, conv: map<Ty, Conv>, t: Ty)
    ensures var g := C2pyGetitemOf(cache, tb, conv, t);
      C2pyGetitemOf(g.memo, tb, g.conv, t) == g
  {
    MemoSettled(cache, tb, t);
    var ct := CanonMemo(cache, tb, t);
    if ct.Ok? && ConvLookup(tb, conv, ct.value).Ok? {
      LookupTwice(tb, conv, ct.value);
    }
  }

  /** cython_c2py asked again on the state it left returns the same template and changes nothing. */
  lemma C2pyTwice(cache: map<Ty, Ty>, tb: Registry, conv: map<Ty, Conv>, t: Ty, view: bool, cached: bool)
    ensures var s := C2pyOf(cache, tb, conv, t, view, cached);
      C2pyOf(s.memo, tb, s.conv, t, view, cached) == s
  {
    var ct := CanonMemo(cache, tb, t);
    if ct.Ok? {
      var m := MemoAfter(cache, tb, t);
      var g := C2pyGetitemOf(m, tb, conv, ct.value);
      C2pyGetitemTwice(m, tb, conv, ct.value);
      assert t in g.memo && g.memo[t] == ct.value;
      assert CanonMemo(g.memo, tb, t) == ct;
      assert MemoAfter(g.memo, tb, t) == g.memo;
    }
  }

  /** cython_py2c asked again on the state it left returns the same templates and changes nothing. */
  lemma Py2cTwice(cache: map<Ty, Ty>, tb: Registry, conv: map<Ty, Conv>, t: Ty)
    ensures var s := Py2cOf(cache, tb, conv, t);
      Py2cOf(s.memo, tb, s.conv, t) == s
  {
    MemoSettled(cache, tb, t);
    var ct := CanonMemo(cache, tb, t);
    if ct.Ok? && ConvLookup(tb, conv, ct.value).Ok? {
      LookupTwice(tb, conv, ct.value);
    }
  }

  /** The tables cython_cimport_tuples reads for inc: cimports for 'c', cyimports for 'cy'. */
  function CimportTables(tb: Registry, inc: set<string>): seq<map<Ty, ImportEntry>> {
    (if "c" in inc then [tb.cythonCimports] else []) + (if "cy" in inc then [tb.cythonCyimports] else [])
  }

  class TypeSystem {
    var baseTypes: set<Ty>
    var templateTypes: map<Ty, seq<Ty>>
    var refinedTypes: map<Ty, Ty>
    var refinedOrder: seq<Ty>
    var typeAliases: map<Ty, Ty>
    var humannames: map<Ty, string>
    var argumentKinds: map<Ty, seq<ArgKind>>
    var variableNamespace: map<Ty, string>
    var cppTypes: map<Ty, Spelling>
    var numpyTypes: map<Ty, string>
    var cythonCtypes: map<Ty, Spelling>
    var cythonCytypes: map<Ty, Spelling>
    var cythonPytypes: map<Ty, Spelling>
    var cythonCimports: map<Ty, ImportEntry>
    var cythonCyimports: map<Ty, ImportEntry>
    var cythonPyimports: map<Ty, ImportEntry>
    var cythonFunctionnames: map<Ty, string>
    var cythonClassnames: map<Ty, string>
    var fromPytypes: map<Ty, Ty>
    var c2pyConv: map<Ty, Conv>
    var py2cConv: map<Ty, Conv>
    var extraTypes: Option<string>
    var dtypes: Option<string>
    var stlcontainers: Option<string>
    /** canon's memo: the canonical form stored for each type asked about */
    var cache: map<Ty, Ty>

    function Tables(): Registry
      reads this
    {
      Registry(baseTypes, templateTypes, refinedTypes, refinedOrder, typeAliases, humannames,
               argumentKinds, variableNamespace, cppTypes, numpyTypes, cythonCtypes, cythonCytypes,
               cythonPytypes, cythonCimports, cythonCyimports, cythonPyimports, cythonFunctionnames,
               cythonClassnames)
    }

    function State(): Snapshot
      reads this
    {
      Snapshot(Tables(), fromPytypes, c2pyConv, py2cConv, extraTypes, dtypes, stlcontainers)
    }

    /**
     * refinedOrder lists the keys of refinedTypes, each once; None is never
     * a key of the memo, since canon(None) raises.
     */
    ghost predicate Valid()
      reads this
    {
      Lists(refinedOrder, refinedTypes) && Nil !in cache
    }

    /**
     * TypeSystem.empty(): every table empty except argument_kinds, which
     * empty() does not pass and so keeps the default table (given here as
     * defaultKinds), and the three module-name attributes deleted.
     */
    constructor Empty(defaultKinds: map<Ty, seq<ArgKind>>)
      ensures Tables() == Registry({}, map[], map[], [], map[], map[], defaultKinds, map[], map[], map[], map[],
                                   map[], map[], map[], map[], map[], map[], map[])
      ensures fromPytypes == map[] && c2pyConv == map[] && py2cConv == map[] && cache == map[]
      ensures extraTypes == None && dtypes == None && stlcontainers == None
      ensures Valid()
    {
      baseTypes, templateTypes, refinedTypes, refinedOrder := {}, map[], map[], [];
      typeAliases, humannames, argumentKinds, variableNamespace := map[], map[], defaultKinds, map[];
      cppTypes, numpyTypes, cythonCtypes, cythonCytypes, cythonPytypes := map[], map[], map[], map[], map[];
      cythonCimports, cythonCyimports, cythonPyimports := map[], map[], map[];
      cythonFunctionnames, cythonClassnames, fromPytypes := map[], map[], map[];
      c2pyConv, py2cConv := map[], map[];
      extraTypes, dtypes, stlcontainers := None, None, None;
      cache := map[];
    }

    // -------------------------------------------------------------------
    // The memo

    /** clearmemo: the memo is emptied and nothing else changes. */
    method ClearMemo()
      modifies this`cache
      ensures cache == map[]
      ensures CacheSound(cache, Tables())
    {
      cache := map[];
    }

    /** delmemo('canon', t): the stored result for t is dropped; a missing one is a KeyError. */
    method DelMemo(t: Ty) returns (r: Result<()>)
      modifies this`cache
      ensures r == (if t in old(cache) then Ok(()) else Err(KeyError))
      ensures cache == old(cache) - {t}
    {
      if t !in cache {
        return Err(KeyError);
      }
      cache := cache - {t};
      return Ok(());
    }

    /** canon(t) through the memo: a stored result is returned, a fresh one stored. */
    method CanonCached(t: Ty) returns (r: Result<Ty>)
      modifies this`cache
      ensures r == CanonMemo(old(cache), old(Tables()), t)
      ensures cache == MemoAfter(old(cache), old(Tables()), t)
      ensures CacheSound(old(cache), Tables()) ==> CacheSound(cache, Tables())
    {
      if t in cache {
        return Ok(cache[t]);
      }
      r := Canon(Tables(), t, MaxDepth);
      if r.Ok? {
        cache := cache[t := r.value];
      }
    }

    // -------------------------------------------------------------------
    // Converter lookups and import collectors

    /** cython_c2py_getitem: the entry serving canon(t); a callable entry's result is stored under canon(t). */
    method C2pyGetitem(t: Ty) returns (r: Result<Conv>)
      modifies this`cache, this`c2pyConv
      ensures var g := C2pyGetitemOf(old(cache), old(Tables()), old(c2pyConv), t);
        r == g.result && c2pyConv == g.conv && cache == g.memo
    {
      var tb := Tables();
      var c := CanonCached(t);
      if c.Err? {
        return Err(c.error);
      }
      var e := Serve(tb, c2pyConv, c.value);
      if e.Err? {
        return Err(e.error);
      }
      c2pyConv := e.value.1;
      r := Ok(e.value.0);
    }

    /**
     * cython_c2py's template and whether it is the cached one: canon(t),
     * cython_c2py_getitem, then the view/cached variant.
     */
    method CythonC2py(t: Ty, view: bool, cached: bool) returns (r: Result<(Ty, bool)>)
      modifies this`cache, this`c2pyConv
      ensures var s := C2pyOf(old(cache), old(Tables()), old(c2pyConv), t, view, cached);
        r == s.result && c2pyConv == s.conv && cache == s.memo
    {
      var c := CanonCached(t);
      if c.Err? {
        return Err(c.error);
      }
      var e := C2pyGetitem(c.value);
      if e.Err? {
        return Err(e.error);
      }
      r := C2pyVariant(e.value, view, cached);
    }

    /** cython_py2c's (body, return, last) templates, the key search written back as the source does. */
    method CythonPy2c(t: Ty) returns (r: Result<(Ty, Ty, string)>)
      modifies this`cache, this`py2cConv
      ensures var s := Py2cOf(old(cache), old(Tables()), old(py2cConv), t);
        r == s.result && py2cConv == s.conv && cache == s.memo
    {
      var tb := Tables();
      var c := CanonCached(t);
      if c.Err? {
        return Err(c.error);
      }
      var last := Py2cLast(tb, c.value);
      if last.Err? {
        return Err(last.error);
      }
      var e := Serve(tb, py2cConv, c.value);
      if e.Err? {
        return Err(e.error);
      }
      py2cConv := e.value.1;
      var tm := Py2cTemplates(e.value.0);
      if tm.Err? {
        return Err(tm.error);
      }
      r := Ok((tm.value.0, tm.value.1, last.value));
    }

    /**
     * cython_cimport_tuples(t, seen, inc): the set seen becomes, and whether
     * the call returns it, read from the cimport and cyimport tables inc names.
     */
    method CythonCimportTuples(t: Ty, seen: set<Ty>, inc: set<string>) returns (r: Result<(set<Ty>, bool)>)
      ensures r == Outcome(seen, Collect(Tables(), CimportTables(Tables(), inc), cythonCimports, t, MaxDepth))
    {
      r := CollectInto(Tables(), CimportTables(Tables(), inc), cythonCimports, t, seen, MaxDepth);
    }

    /** cython_import_tuples(t, seen): as CythonCimportTuples over the pyimports table. */
    method CythonImportTuples(t: Ty, seen: set<Ty>) returns (r: Result<(set<Ty>, bool)>)
      ensures r == Outcome(seen, Collect(Tables(), [cythonPyimports], cythonCimports, t, MaxDepth))
    {
      r := CollectInto(Tables(), [cythonPyimports], cythonCimports, t, seen, MaxDepth);
    }

    // -------------------------------------------------------------------
    // _resolve_dependent_type

    /**
     * _resolve_dependent_type: for a templated signature the parameter
     * names are added to typeAliases while the pieces are canonicalised and
     * removed afterwards together with canon's memo entries for them. On
     * success typeAliases is as before; when canonicalising fails the
     * aliases stay behind.
     */
    method ResolveDependentType(tname: Ty, tinst: Option<seq<Ty>>) returns (r: Result<Ty>)
      modifies this`typeAliases, this`cache
      ensures r == ResolveDependent(old(Tables()), tname, tinst, MaxDepth)
      ensures (typeAliases, cache) == AliasEffect(r.Ok?, TempAliases(old(Tables()), tname, tinst), old(typeAliases), old(cache))
    {
      var matches := MatchingKeys(Tables(), refinedOrder, tname);
      if matches.Ok? && |matches.value| > 0 {
        r := ResolveSignatureType(tname, matches.value[0], tinst);
      } else {
        r := if matches.Err? then Err(matches.error) else Err(IndexError);
      }
    }

    /** _resolve_dependent_type once the signature depkey has been chosen. */
    method ResolveSignatureType(tname: Ty, depkey: Ty, tinst: Option<seq<Ty>>) returns (r: Result<Ty>)
      requires depkey in refinedTypes && At(depkey, 0).Ok?
      modifies this`typeAliases, this`cache
      ensures r == ResolveSignature(old(Tables()), tname, depkey, tinst, MaxDepth)
      ensures (typeAliases, cache) == AliasEffect(r.Ok?, SignatureAliases(old(Tables()), depkey, tinst), old(typeAliases), old(cache))
    {
      var istemplated := IsTemplate(Tables(), depkey);
      if istemplated.Err? {
        r := Err(istemplated.error);
      } else if tinst.None? {
        r := Ok(depkey);
      } else {
        r := ResolveInstanceType(tname, PyItems(depkey), tinst.value, refinedTypes[depkey], istemplated.value);
      }
    }

    /** The instantiated case: the arity must match; only a templated signature pushes aliases. */
    method ResolveInstanceType(tname: Ty, dk: seq<Ty>, inst: seq<Ty>, depval: Ty, istemplated: bool)
      returns (r: Result<Ty>)
      requires |dk| > 0
      modifies this`typeAliases, this`cache
      ensures r == ResolveInstance(old(Tables()), tname, dk, inst, depval, istemplated, MaxDepth)
      ensures (typeAliases, cache) == AliasEffect(r.Ok?, InstanceAliases(old(Tables()), dk, inst, istemplated),
                                                  old(typeAliases), old(cache))
    {
      if |inst| != |dk| {
        r := Err(AssertionError);
      } else if !istemplated {
        r := ResolvePlain(Tables(), tname, dk, inst, depval, MaxDepth);
      } else {
        r := ResolveWithParamsType(tname, dk, inst, depval);
      }
    }

    /** The templated case: a parameter name that is already an alias is a TypeError. */
    method ResolveWithParamsType(tname: Ty, dk: seq<Ty>, inst: seq<Ty>, depval: Ty) returns (r: Result<Ty>)
      requires |dk| == |inst| > 0
      modifies this`typeAliases, this`cache
      ensures r == ResolveWithParams(old(Tables()), tname, dk, inst, depval, MaxDepth)
      ensures (typeAliases, cache) == AliasEffect(r.Ok?, ParamAliases(old(Tables()), dk, inst), old(typeAliases), old(cache))
    {
      var typemap := TypeMap(dk[1..], inst[1..]);
      if exists k :: k in typemap && k in typeAliases {
        r := Err(TypeError);
      } else {
        r := ResolveWithAliases(tname, dk, inst, depval, typemap);
      }
    }

    /**
     * The templated branch: the parameter names become aliases, the pieces
     * are canonicalised, and on success the aliases and their memo entries
     * are dropped again.
     */
    method ResolveWithAliases(tname: Ty, dk: seq<Ty>, inst: seq<Ty>, depval: Ty, typemap: map<Ty, Ty>)
      returns (r: Result<Ty>)
      requires |dk| == |inst| > 0
      requires forall k :: k in typemap ==> k !in typeAliases
      modifies this`typeAliases, this`cache
      ensures r == ResolveTemplated(old(Tables()).(typeAliases := old(typeAliases) + typemap),
                                    tname, dk, inst, depval, typemap, MaxDepth)
      ensures (typeAliases, cache) == AliasEffect(r.Ok?, typemap, old(typeAliases), old(cache))
    {
      AddThenRemove(typeAliases, typemap);
      typeAliases := typeAliases + typemap;
      r := ResolveTemplated(Tables(), tname, dk, inst, depval, typemap, MaxDepth);
      if r.Ok? {
        DropAliases(typemap);
      }
    }

    /**
     * The clean-up after a templated resolution: each parameter name loses
     * its alias and the memo entry canon(k) stored while the alias was in
     * place.
     */
    method DropAliases(typemap: map<Ty, Ty>)
      requires forall k :: k in typemap ==> k in typeAliases
      modifies this`typeAliases, this`cache
      ensures typeAliases == old(typeAliases) - typemap.Keys
      ensures cache == old(cache) - typemap.Keys
    {
      var ks := typemap.Keys;
      while ks != {}
        invariant ks <= typemap.Keys
        invariant typeAliases == old(typeAliases) - (typemap.Keys - ks)
        invariant cache == old(cache) - (typemap.Keys - ks)
        decreases ks
      {
        var k :| k in ks;
        typeAliases := typeAliases - {k};
        cache := cache - {k};
        ks := ks - {k};
      }
    }

    // -------------------------------------------------------------------
    // Registration

    /**
     * register_class: the tables it writes end as ClassRegistered says
     * (ClassRegisteredFields), the other fields and the memo are left as
     * they are.
     */
    method RegisterClass(name: Ty, spec: ClassSpec) returns (r: Result<()>)
      modifies this`baseTypes, this`templateTypes, this`cythonCtypes, this`cythonCytypes, this`cythonPytypes,
               this`fromPytypes, this`cppTypes, this`humannames, this`cythonCimports, this`cythonCyimports,
               this`cythonPyimports, this`c2pyConv, this`py2cConv, this`cythonClassnames, this`cythonFunctionnames
      ensures r == ClassSteps(spec).1
      ensures var n := ClassSteps(spec).0; var ta := spec.templateArgs;
        baseTypes == (if n >= 1 && PlainClass(ta) then old(baseTypes) + {name} else old(baseTypes))
        && templateTypes == (if n >= 1 && !PlainClass(ta) && ta.T? then old(templateTypes)[name := ta.items] else old(templateTypes))
        && cythonCtypes == (if n >= 1 then Put(old(cythonCtypes), name, spec.cythonCType) else old(cythonCtypes))
        && cythonCytypes == (if n >= 1 then Put(old(cythonCytypes), name, spec.cythonCyType) else old(cythonCytypes))
        && cythonPytypes == (if n >= 1 then Put(old(cythonPytypes), name, spec.cythonPyType) else old(cythonPytypes))
        && fromPytypes == (if n >= 1 then Put(old(fromPytypes), name, spec.fromPytype) else old(fromPytypes))
        && cppTypes == (if n >= 1 then Put(old(cppTypes), name, spec.cppType) else old(cppTypes))
        && humannames == (if n >= 1 then Put(old(humannames), name, spec.humanName) else old(humannames))
        && cythonCimports == (if n >= 2 then Put(old(cythonCimports), name, ImportArg(spec.cythonCimport).value) else old(cythonCimports))
        && cythonCyimports == (if n >= 3 then Put(old(cythonCyimports), name, ImportArg(spec.cythonCyimport).value) else old(cythonCyimports))
        && cythonPyimports == (if n >= 4 then Put(old(cythonPyimports), name, ImportArg(spec.cythonPyimport).value) else old(cythonPyimports))
        && c2pyConv == (if n == 5 then Put(old(c2pyConv), name, AsStatic(C2pyTuple(spec.cythonC2py).value)) else old(c2pyConv))
        && py2cConv == (if n == 5 then Put(old(py2cConv), name, AsStatic(Py2cPair(spec.cythonPy2c))) else old(py2cConv))
        && cythonClassnames == (if n == 5 then Put(old(cythonClassnames), name, spec.templateClassName) else old(cythonClassnames))
        && cythonFunctionnames == (if n == 5 then Put(old(cythonFunctionnames), name, spec.templateFunctionName) else old(cythonFunctionnames))
    {
      r := RegisterClassName(name, spec);
      if r.Err? {
        return;
      }
      r := RegisterClassEntries(name, spec);
    }

    /** What register_class stores once the name is registered. */
    method RegisterClassEntries(name: Ty, spec: ClassSpec) returns (r: Result<()>)
      modifies this`cythonCtypes, this`cythonCytypes, this`cythonPytypes,
               this`fromPytypes, this`cppTypes, this`humannames, this`cythonCimports, this`cythonCyimports,
               this`cythonPyimports, this`c2pyConv, this`py2cConv, this`cythonClassnames, this`cythonFunctionnames
      ensures var n := ClassSteps(spec).0;
        n >= 1 ==> (r == ClassSteps(spec).1
        && cythonCtypes == Put(old(cythonCtypes), name, spec.cythonCType)
        && cythonCytypes == Put(old(cythonCytypes), name, spec.cythonCyType)
        && cythonPytypes == Put(old(cythonPytypes), name, spec.cythonPyType)
        && fromPytypes == Put(old(fromPytypes), name, spec.fromPytype)
        && cppTypes == Put(old(cppTypes), name, spec.cppType)
        && humannames == Put(old(humannames), name, spec.humanName)
        && cythonCimports == (if n >= 2 then Put(old(cythonCimports), name, ImportArg(spec.cythonCimport).value) else old(cythonCimports))
        && cythonCyimports == (if n >= 3 then Put(old(cythonCyimports), name, ImportArg(spec.cythonCyimport).value) else old(cythonCyimports))
        && cythonPyimports == (if n >= 4 then Put(old(cythonPyimports), name, ImportArg(spec.cythonPyimport).value) else old(cythonPyimports))
        && c2pyConv == (if n == 5 then Put(old(c2pyConv), name, AsStatic(C2pyTuple(spec.cythonC2py).value)) else old(c2pyConv))
        && py2cConv == (if n == 5 then Put(old(py2cConv), name, AsStatic(Py2cPair(spec.cythonPy2c))) else old(py2cConv))
        && cythonClassnames == (if n == 5 then Put(old(cythonClassnames), name, spec.templateClassName) else old(cythonClassnames))
        && cythonFunctionnames == (if n == 5 then Put(old(cythonFunctionnames), name, spec.templateFunctionName) else old(cythonFunctionnames)))
    {
      RegisterClassSpellings(name, spec);
      r := RegisterClassTail(name, spec);
    }

    /** The import entries, then the converters and template names. */
    method RegisterClassTail(name: Ty, spec: ClassSpec) returns (r: Result<()>)
      modifies this`cythonCimports, this`cythonCyimports, this`cythonPyimports,
               this`c2pyConv, this`py2cConv, this`cythonClassnames, this`cythonFunctionnames
      ensures var n := ClassSteps(spec).0;
        n >= 1 ==> (r == ClassSteps(spec).1
        && cythonCimports == (if n >= 2 then Put(old(cythonCimports), name, ImportArg(spec.cythonCimport).value) else old(cythonCimports))
        && cythonCyimports == (if n >= 3 then Put(old(cythonCyimports), name, ImportArg(spec.cythonCyimport).value) else old(cythonCyimports))
        && cythonPyimports == (if n >= 4 then Put(old(cythonPyimports), name, ImportArg(spec.cythonPyimport).value) else old(cythonPyimports))
        && c2pyConv == (if n == 5 then Put(old(c2pyConv), name, AsStatic(C2pyTuple(spec.cythonC2py).value)) else old(c2pyConv))
        && py2cConv == (if n == 5 then Put(old(py2cConv), name, AsStatic(Py2cPair(spec.cythonPy2c))) else old(py2cConv))
        && cythonClassnames == (if n == 5 then Put(old(cythonClassnames), name, spec.templateClassName) else old(cythonClassnames))
        && cythonFunctionnames == (if n == 5 then Put(old(cythonFunctionnames), name, spec.templateFunctionName) else old(cythonFunctionnames)))
    {
      r := RegisterClassImports(name, spec);
      if r.Err? {
        return;
      }
      r := RegisterClassConverters(name, spec);
    }

    /** The class name: a plain class joins baseTypes, a templated one templateTypes. */
    method RegisterClassName(name: Ty, spec: ClassSpec) returns (r: Result<()>)
      modifies this`baseTypes, this`templateTypes
      ensures var ta := spec.templateArgs;
        (r.Ok? <==> ClassSteps(spec).0 >= 1) && (r.Err? ==> r == ClassSteps(spec).1)
        && baseTypes == (if PlainClass(ta) then old(baseTypes) + {name} else old(baseTypes))
        && templateTypes == (if !PlainClass(ta) && ta.T? then old(templateTypes)[name := ta.items] else old(templateTypes))
    {
      var targs := spec.templateArgs;
      r := Ok(());
      if PlainClass(targs) {
        baseTypes := baseTypes + {name};
      } else if targs.S? {
        r := Err(TypeError);
      } else if targs.T? {
        templateTypes := templateTypes[name := targs.items];
      }
    }

    /** The spellings given to register_class, stored over any previous ones. */
    method RegisterClassSpellings(name: Ty, spec: ClassSpec)
      modifies this`cythonCtypes, this`cythonCytypes, this`cythonPytypes, this`fromPytypes, this`cppTypes, this`humannames
      ensures cythonCtypes == Put(old(cythonCtypes), name, spec.cythonCType)
      ensures cythonCytypes == Put(old(cythonCytypes), name, spec.cythonCyType)
      ensures cythonPytypes == Put(old(cythonPytypes), name, spec.cythonPyType)
      ensures fromPytypes == Put(old(fromPytypes), name, spec.fromPytype)
      ensures cppTypes == Put(old(cppTypes), name, spec.cppType)
      ensures humannames == Put(old(humannames), name, spec.humanName)
    {
      cythonCtypes := Put(cythonCtypes, name, spec.cythonCType);
      cythonCytypes := Put(cythonCytypes, name, spec.cythonCyType);
      cythonPytypes := Put(cythonPytypes, name, spec.cythonPyType);
      fromPytypes := Put(fromPytypes, name, spec.fromPytype);
      cppTypes := Put(cppTypes, name, spec.cppType);
      humannames := Put(humannames, name, spec.humanName);
    }

    /** The three import entries, in order; the first argument () raises and stops the rest. */
    method RegisterClassImports(name: Ty, spec: ClassSpec) returns (r: Result<()>)
      modifies this`cythonCimports, this`cythonCyimports, this`cythonPyimports
      ensures var n := ClassSteps(spec).0;
        n >= 1 ==> ((r.Ok? <==> n >= 4) && (r.Err? ==> r == ClassSteps(spec).1)
        && cythonCimports == (if n >= 2 then Put(old(cythonCimports), name, ImportArg(spec.cythonCimport).value) else old(cythonCimports))
        && cythonCyimports == (if n >= 3 then Put(old(cythonCyimports), name, ImportArg(spec.cythonCyimport).value) else old(cythonCyimports))
        && cythonPyimports == (if n >= 4 then Put(old(cythonPyimports), name, ImportArg(spec.cythonPyimport).value) else old(cythonPyimports)))
    {
      var ci := ImportArg(spec.cythonCimport);
      if ci.Err? {
        return Err(ci.error);
      }
      cythonCimports := Put(cythonCimports, name, ci.value);
      var cyi := ImportArg(spec.cythonCyimport);
      if cyi.Err? {
        return Err(cyi.error);
      }
      cythonCyimports := Put(cythonCyimports, name, cyi.value);
      var pyi := ImportArg(spec.cythonPyimport);
      if pyi.Err? {
        return Err(pyi.error);
      }
      cythonPyimports := Put(cythonPyimports, name, pyi.value);
      r := Ok(());
    }

    /** The converters and the template names; a c2py argument that is a number raises first. */
    method RegisterClassConverters(name: Ty, spec: ClassSpec) returns (r: Result<()>)
      modifies this`c2pyConv, this`py2cConv, this`cythonClassnames, this`cythonFunctionnames
      ensures var n := ClassSteps(spec).0;
        n >= 4 ==> (r == ClassSteps(spec).1
        && c2pyConv == (if n == 5 then Put(old(c2pyConv), name, AsStatic(C2pyTuple(spec.cythonC2py).value)) else old(c2pyConv))
        && py2cConv == (if n == 5 then Put(old(py2cConv), name, AsStatic(Py2cPair(spec.cythonPy2c))) else old(py2cConv))
        && cythonClassnames == (if n == 5 then Put(old(cythonClassnames), name, spec.templateClassName) else old(cythonClassnames))
        && cythonFunctionnames == (if n == 5 then Put(old(cythonFunctionnames), name, spec.templateFunctionName) else old(cythonFunctionnames)))
    {
      var c2 := C2pyTuple(spec.cythonC2py);
      if c2.Ok? {
        c2pyConv, py2cConv := Put(c2pyConv, name, AsStatic(c2.value)), Put(py2cConv, name, AsStatic(Py2cPair(spec.cythonPy2c)));
        cythonClassnames := Put(cythonClassnames, name, spec.templateClassName);
        cythonFunctionnames := Put(cythonFunctionnames, name, spec.templateFunctionName);
        r := Ok(());
      } else {
        r := Err(c2.error);
      }
    }

    /**
     * deregister_class: a name that is neither a base type nor a template
     * is a TypeError and changes nothing; otherwise the name leaves
     * baseTypes (or templateTypes) and every table but cythonFunctionnames,
     * and the memo is cleared.
     */
    method DeregisterClass(name: Ty) returns (r: Result<()>)
      modifies this`baseTypes, this`templateTypes, this`cythonCtypes, this`cythonCytypes, this`cythonPytypes,
               this`fromPytypes, this`cppTypes, this`humannames, this`cythonCimports, this`cythonCyimports,
               this`cythonPyimports, this`c2pyConv, this`py2cConv, this`cythonClassnames, this`cache
      ensures r.Err? <==> name !in old(baseTypes) && name !in old(templateTypes)
      ensures r.Err? ==> r == Err(TypeError) && unchanged(this)
      ensures r.Ok? ==> (baseTypes == old(baseTypes) - {name}
        && templateTypes == (if name in old(baseTypes) then old(templateTypes) else old(templateTypes) - {name})
        && cythonCtypes == Pop(old(cythonCtypes), name) && cythonCytypes == Pop(old(cythonCytypes), name)
        && cythonPytypes == Pop(old(cythonPytypes), name) && fromPytypes == Pop(old(fromPytypes), name)
        && cppTypes == Pop(old(cppTypes), name) && humannames == Pop(old(humannames), name)
        && cythonCimports == Pop(old(cythonCimports), name) && cythonCyimports == Pop(old(cythonCyimports), name)
        && cythonPyimports == Pop(old(cythonPyimports), name) && c2pyConv == Pop(old(c2pyConv), name)
        && py2cConv == Pop(old(py2cConv), name) && cythonClassnames == Pop(old(cythonClassnames), name)
        && cache == map[])
    {
      var isbase := name in baseTypes;
      if !isbase && name !in templateTypes {
        return Err(TypeError);
      }
      DropClassName(name);
      DropClassEntries(name);
      cache := map[];
      r := Ok(());
    }

    /** A base type leaves baseTypes; any other name leaves templateTypes. */
    method DropClassName(name: Ty)
      modifies this`baseTypes, this`templateTypes
      ensures baseTypes == old(baseTypes) - {name}
      ensures templateTypes == if name in old(baseTypes) then old(templateTypes) else old(templateTypes) - {name}
    {
      if name in baseTypes {
        baseTypes := baseTypes - {name};
      } else {
        templateTypes := templateTypes - {name};
      }
    }

    /** The pops of deregister_class after the name itself. */
    method DropClassEntries(name: Ty)
      modifies this`cythonCtypes, this`cythonCytypes, this`cythonPytypes, this`fromPytypes, this`cppTypes,
               this`humannames, this`cythonCimports, this`cythonCyimports, this`cythonPyimports, this`c2pyConv,
               this`py2cConv, this`cythonClassnames
      ensures cythonCtypes == Pop(old(cythonCtypes), name) && cythonCytypes == Pop(old(cythonCytypes), name)
      ensures cythonPytypes == Pop(old(cythonPytypes), name) && fromPytypes == Pop(old(fromPytypes), name)
      ensures cppTypes == Pop(old(cppTypes), name) && humannames == Pop(old(humannames), name)
      ensures cythonCimports == Pop(old(cythonCimports), name) && cythonCyimports == Pop(old(cythonCyimports), name)
      ensures cythonPyimports == Pop(old(cythonPyimports), name) && c2pyConv == Pop(old(c2pyConv), name)
      ensures py2cConv == Pop(old(py2cConv), name) && cythonClassnames == Pop(old(cythonClassnames), name)
    {
      DropClassSpellings(name);
      DropClassConverters(name);
    }

    /** The spellings deregister_class pops. */
    method DropClassSpellings(name: Ty)
      modifies this`cythonCtypes, this`cythonCytypes, this`cythonPytypes, this`fromPytypes, this`cppTypes, this`humannames
      ensures cythonCtypes == Pop(old(cythonCtypes), name) && cythonCytypes == Pop(old(cythonCytypes), name)
      ensures cythonPytypes == Pop(old(cythonPytypes), name) && fromPytypes == Pop(old(fromPytypes), name)
      ensures cppTypes == Pop(old(cppTypes), name) && humannames == Pop(old(humannames), name)
    {
      cythonCtypes := Pop(cythonCtypes, name);
      cythonCytypes := Pop(cythonCytypes, name);
      cythonPytypes := Pop(cythonPytypes, name);
      fromPytypes := Pop(fromPytypes, name);
      cppTypes := Pop(cppTypes, name);
      humannames := Pop(humannames, name);
    }

    /** The imports, converters and template class name deregister_class pops. */
    method DropClassConverters(name: Ty)
      modifies this`cythonCimports, this`cythonCyimports, this`cythonPyimports, this`c2pyConv, this`py2cConv, this`cythonClassnames
      ensures cythonCimports == Pop(old(cythonCimports), name) && cythonCyimports == Pop(old(cythonCyimports), name)
      ensures cythonPyimports == Pop(old(cythonPyimports), name) && c2pyConv == Pop(old(c2pyConv), name)
      ensures py2cConv == Pop(old(py2cConv), name) && cythonClassnames == Pop(old(cythonClassnames), name)
    {
      cythonCimports := Pop(cythonCimports, name);
      cythonCyimports := Pop(cythonCyimports, name);
      cythonPyimports := Pop(cythonPyimports, name);
      c2pyConv := Pop(c2pyConv, name);
      py2cConv := Pop(py2cConv, name);
      cythonClassnames := Pop(cythonClassnames, name);
    }

    /**
     * register_refinement: the tables it writes end as RefinementRegistered
     * says; refinedOrder still lists the keys of refinedTypes once each, and
     * the memo is left as it is.
     */
    method RegisterRefinement(name: Ty, parent: Ty, spec: RefinementSpec) returns (r: Result<()>)
      requires Valid()
      modifies this`refinedTypes, this`refinedOrder, this`cythonCimports, this`cythonCyimports,
               this`cythonPyimports, this`c2pyConv, this`py2cConv
      ensures var n := RefinementSteps(spec).0;
        r == RefinementSteps(spec).1 && refinedTypes == old(refinedTypes)[name := parent]
        && refinedOrder == OrderAfterSet(old(refinedOrder), old(refinedTypes).Keys, name)
        && cythonCimports == (if n >= 1 then old(cythonCimports)[name := Items(EnsureImportable(spec.cythonCimport).value)]
                              else old(cythonCimports))
        && cythonCyimports == (if n >= 2 then old(cythonCyimports)[name := Items(EnsureImportable(spec.cythonCyimport).value)]
                               else old(cythonCyimports))
        && cythonPyimports == (if n >= 3 then old(cythonPyimports)[name := Items(EnsureImportable(spec.cythonPyimport).value)]
                               else old(cythonPyimports))
        && c2pyConv == (if n == 4 then Put(old(c2pyConv), name, AsStatic(C2pyTuple(spec.cythonC2py).value)) else old(c2pyConv))
        && py2cConv == (if n == 4 then Put(old(py2cConv), name, AsStatic(Py2cPair(spec.cythonPy2c))) else old(py2cConv))
      ensures Valid()
    {
      OrderAfterSetLists(refinedOrder, refinedTypes, name, parent);
      refinedOrder := OrderAfterSet(refinedOrder, refinedTypes.Keys, name);
      refinedTypes := refinedTypes[name := parent];
      r := RegisterRefinementEntries(name, spec);
    }

    /** The import entries and converters register_refinement stores, in order. */
    method RegisterRefinementEntries(name: Ty, spec: RefinementSpec) returns (r: Result<()>)
      modifies this`cythonCimports, this`cythonCyimports, this`cythonPyimports, this`c2pyConv, this`py2cConv
      ensures var n := RefinementSteps(spec).0;
        r == RefinementSteps(spec).1
        && cythonCimports == (if n >= 1 then old(cythonCimports)[name := Items(EnsureImportable(spec.cythonCimport).value)]
                              else old(cythonCimports))
        && cythonCyimports == (if n >= 2 then old(cythonCyimports)[name := Items(EnsureImportable(spec.cythonCyimport).value)]
                               else old(cythonCyimports))
        && cythonPyimports == (if n >= 3 then old(cythonPyimports)[name := Items(EnsureImportable(spec.cythonPyimport).value)]
                               else old(cythonPyimports))
        && c2pyConv == (if n == 4 then Put(old(c2pyConv), name, AsStatic(C2pyTuple(spec.cythonC2py).value)) else old(c2pyConv))
        && py2cConv == (if n == 4 then Put(old(py2cConv), name, AsStatic(Py2cPair(spec.cythonPy2c))) else old(py2cConv))
    {
      var ci := EnsureImportable(spec.cythonCimport);
      if ci.Err? {
        return Err(ci.error);
      }
      cythonCimports := cythonCimports[name := Items(ci.value)];
      var cyi := EnsureImportable(spec.cythonCyimport);
      if cyi.Err? {
        return Err(cyi.error);
      }
      cythonCyimports := cythonCyimports[name := Items(cyi.value)];
      var pyi := EnsureImportable(spec.cythonPyimport);
      if pyi.Err? {
        return Err(pyi.error);
      }
      cythonPyimports := cythonPyimports[name := Items(pyi.value)];
      var c2 := C2pyTuple(spec.cythonC2py);
      if c2.Err? {
        return Err(c2.error);
      }
      c2pyConv := Put(c2pyConv, name, AsStatic(c2.value));
      py2cConv := Put(py2cConv, name, AsStatic(Py2cPair(spec.cythonPy2c)));
      r := Ok(());
    }

    /**
     * deregister_refinement: name leaves refinedTypes, refinedOrder, the
     * converters and the import tables, as RefinementDeregistered says; the
     * memo is cleared.
     */
    method DeregisterRefinement(name: Ty)
      requires Valid()
      modifies this`refinedTypes, this`refinedOrder, this`cythonCimports, this`cythonCyimports,
               this`cythonPyimports, this`c2pyConv, this`py2cConv, this`cache
      ensures refinedTypes == old(refinedTypes) - {name} && refinedOrder == OrderWithout(old(refinedOrder), name)
      ensures cythonCimports == Pop(old(cythonCimports), name) && cythonCyimports == Pop(old(cythonCyimports), name)
      ensures cythonPyimports == Pop(old(cythonPyimports), name)
      ensures c2pyConv == Pop(old(c2pyConv), name) && py2cConv == Pop(old(py2cConv), name)
      ensures cache == map[] && Valid()
    {
      OrderWithoutLists(refinedOrder, refinedTypes, name);
      refinedTypes := refinedTypes - {name};
      refinedOrder := OrderWithout(refinedOrder, name);
      c2pyConv, py2cConv := Pop(c2pyConv, name), Pop(py2cConv, name);
      cythonCimports, cythonCyimports, cythonPyimports := Pop(cythonCimports, name), Pop(cythonCyimports, name), Pop(cythonPyimports, name);
      cache := map[];
    }

    /**
     * register_specialization: t is canonicalised through the memo and each
     * spelling and import given is stored under canon(t); a failing canon
     * raises before any table is written.
     */
    method RegisterSpecialization(t: Ty, spec: SpecializationSpec) returns (r: Result<()>)
      modifies this`cache, this`cythonCtypes, this`cythonCytypes, this`cythonPytypes,
               this`cythonCimports, this`cythonCyimports, this`cythonPyimports
      ensures cache == MemoAfter(old(cache), old(Tables()), t)
      ensures var ct := CanonMemo(old(cache), old(Tables()), t);
        r == (if ct.Err? then Err(ct.error) else Ok(()))
        && cythonCtypes == (if ct.Ok? then Put(old(cythonCtypes), ct.value, spec.cythonCType) else old(cythonCtypes))
        && cythonCytypes == (if ct.Ok? then Put(old(cythonCytypes), ct.value, spec.cythonCyType) else old(cythonCytypes))
        && cythonPytypes == (if ct.Ok? then Put(old(cythonPytypes), ct.value, spec.cythonPyType) else old(cythonPytypes))
        && cythonCimports == (if ct.Ok? then Put(old(cythonCimports), ct.value, AsItems(spec.cythonCimport)) else old(cythonCimports))
        && cythonCyimports == (if ct.Ok? then Put(old(cythonCyimports), ct.value, AsItems(spec.cythonCyimport)) else old(cythonCyimports))
        && cythonPyimports == (if ct.Ok? then Put(old(cythonPyimports), ct.value, AsItems(spec.cythonPyimport)) else old(cythonPyimports))
    {
      var ct := CanonCached(t);
      if ct.Err? {
        return Err(ct.error);
      }
      StoreSpecialization(ct.value, spec);
      r := Ok(());
    }

    /** The entries of register_specialization, stored under the canonical type c. */
    method StoreSpecialization(c: Ty, spec: SpecializationSpec)
      modifies this`cythonCtypes, this`cythonCytypes, this`cythonPytypes,
               this`cythonCimports, this`cythonCyimports, this`cythonPyimports
      ensures cythonCtypes == Put(old(cythonCtypes), c, spec.cythonCType)
      ensures cythonCytypes == Put(old(cythonCytypes), c, spec.cythonCyType)
      ensures cythonPytypes == Put(old(cythonPytypes), c, spec.cythonPyType)
      ensures cythonCimports == Put(old(cythonCimports), c, AsItems(spec.cythonCimport))
      ensures cythonCyimports == Put(old(cythonCyimports), c, AsItems(spec.cythonCyimport))
      ensures cythonPyimports == Put(old(cythonPyimports), c, AsItems(spec.cythonPyimport))
    {
      cythonCtypes := Put(cythonCtypes, c, spec.cythonCType);
      cythonCytypes := Put(cythonCytypes, c, spec.cythonCyType);
      cythonPytypes := Put(cythonPytypes, c, spec.cythonPyType);
      cythonCimports := Put(cythonCimports, c, AsItems(spec.cythonCimport));
      cythonCyimports := Put(cythonCyimports, c, AsItems(spec.cythonCyimport));
      cythonPyimports := Put(cythonPyimports, c, AsItems(spec.cythonPyimport));
    }

    /**
     * deregister_specialization: canon(t) leaves the three spelling and the
     * three import tables, absent or not, and the memo is cleared; a failing
     * canon raises first and changes nothing.
     */
    method DeregisterSpecialization(t: Ty) returns (r: Result<()>)
      modifies this`cache, this`cythonCtypes, this`cythonCytypes, this`cythonPytypes,
               this`cythonCimports, this`cythonCyimports, this`cythonPyimports
      ensures var ct := CanonMemo(old(cache), old(Tables()), t);
        r == (if ct.Err? then Err(ct.error) else Ok(()))
        && cache == (if ct.Err? then old(cache) else map[])
        && cythonCtypes == (if ct.Ok? then Pop(old(cythonCtypes), ct.value) else old(cythonCtypes))
        && cythonCytypes == (if ct.Ok? then Pop(old(cythonCytypes), ct.value) else old(cythonCytypes))
        && cythonPytypes == (if ct.Ok? then Pop(old(cythonPytypes), ct.value) else old(cythonPytypes))
        && cythonCimports == (if ct.Ok? then Pop(old(cythonCimports), ct.value) else old(cythonCimports))
        && cythonCyimports == (if ct.Ok? then Pop(old(cythonCyimports), ct.value) else old(cythonCyimports))
        && cythonPyimports == (if ct.Ok? then Pop(old(cythonPyimports), ct.value) else old(cythonPyimports))
    {
      var ct := CanonCached(t);
      if ct.Err? {
        return Err(ct.error);
      }
      DropSpecialization(ct.value);
      cache := map[];
      r := Ok(());
    }

    /** The pops of deregister_specialization. */
    method DropSpecialization(c: Ty)
      modifies this`cythonCtypes, this`cythonCytypes, this`cythonPytypes,
               this`cythonCimports, this`cythonCyimports, this`cythonPyimports
      ensures cythonCtypes == Pop(old(cythonCtypes), c) && cythonCytypes == Pop(old(cythonCytypes), c)
      ensures cythonPytypes == Pop(old(cythonPytypes), c) && cythonCimports == Pop(old(cythonCimports), c)
      ensures cythonCyimports == Pop(old(cythonCyimports), c) && cythonPyimports == Pop(old(cythonPyimports), c)
    {
      cythonCtypes := Pop(cythonCtypes, c);
      cythonCytypes := Pop(cythonCytypes, c);
      cythonPytypes := Pop(cythonPytypes, c);
      cythonCimports := Pop(cythonCimports, c);
      cythonCyimports := Pop(cythonCyimports, c);
      cythonPyimports := Pop(cythonPyimports, c);
    }

    /**
     * register_numpy_dtype: t is canonicalised through the memo (a failing
     * canon raises first and changes no table), then the tables end as
     * RegisterDtypeCanonical says.
     */
    method RegisterNumpyDtype(t: Ty, ci: Ty, cyi: Ty, pyi: Ty) returns (r: Result<()>)
      modifies this`cache, this`numpyTypes, this`typeAliases, this`cythonCimports, this`cythonCyimports,
               this`cythonPyimports
      ensures cache == MemoAfter(old(cache), old(Tables()), t)
      ensures var ct := CanonMemo(old(cache), old(Tables()), t);
        var c := if ct.Ok? then ct.value else Nil;
        var named := ct.Ok? && c !in old(numpyTypes) && CythonFunctionname(old(Tables()), c, MaxDepth).Ok?;
        var v := if named then CythonFunctionname(old(Tables()), c, MaxDepth).value.1 else "";
        var (n, r1) := DtypeImportSteps(old(cythonCimports), old(cythonCyimports), old(cythonPyimports), c, ci, cyi, pyi);
        r == (if ct.Err? then Err(ct.error) else if c in old(numpyTypes) then Ok(()) else if !named
              then Err(CythonFunctionname(old(Tables()), c, MaxDepth).error) else r1)
        && numpyTypes == (if named then old(numpyTypes)[c := NumpyName(v)] else old(numpyTypes))
        && typeAliases == (if named then old(typeAliases) + DtypeAliases(v, c) else old(typeAliases))
        && cythonCimports == (if named && n >= 1 then Put(old(cythonCimports), c, DtypeCimports(old(cythonCimports), c, ci).value)
                              else old(cythonCimports))
        && cythonCyimports == (if named && n >= 2 then old(cythonCyimports)[c := Items(DtypeImports(old(cythonCyimports), c, cyi).value)]
                               else old(cythonCyimports))
        && cythonPyimports == (if named && n == 3 then old(cythonPyimports)[c := Items(DtypeImports(old(cythonPyimports), c, pyi).value)]
                               else old(cythonPyimports))
    {
      var tb := Tables();
      var ct := CanonCached(t);
      if ct.Err? {
        return Err(ct.error);
      }
      r := RegisterDtypeCanonical(ct.value, CythonFunctionname(tb, ct.value, MaxDepth), ci, cyi, pyi);
    }

    /**
     * register_numpy_dtype once t is canonical (c), with vn the answer of
     * cython_variablename(c): nothing when c has a numpy type already.
     */
    method RegisterDtypeCanonical(c: Ty, vn: Result<(Ty, string)>, ci: Ty, cyi: Ty, pyi: Ty) returns (r: Result<()>)
      modifies this`numpyTypes, this`typeAliases, this`cythonCimports, this`cythonCyimports, this`cythonPyimports
      ensures var named := c !in old(numpyTypes) && vn.Ok?;
        var v := if named then vn.value.1 else "";
        var (n, r1) := DtypeImportSteps(old(cythonCimports), old(cythonCyimports), old(cythonPyimports), c, ci, cyi, pyi);
        r == (if c in old(numpyTypes) then Ok(()) else if !named then Err(vn.error) else r1)
        && numpyTypes == (if named then old(numpyTypes)[c := NumpyName(v)] else old(numpyTypes))
        && typeAliases == (if named then old(typeAliases) + DtypeAliases(v, c) else old(typeAliases))
        && cythonCimports == (if named && n >= 1 then Put(old(cythonCimports), c, DtypeCimports(old(cythonCimports), c, ci).value)
                              else old(cythonCimports))
        && cythonCyimports == (if named && n >= 2 then old(cythonCyimports)[c := Items(DtypeImports(old(cythonCyimports), c, cyi).value)]
                               else old(cythonCyimports))
        && cythonPyimports == (if named && n == 3 then old(cythonPyimports)[c := Items(DtypeImports(old(cythonPyimports), c, pyi).value)]
                               else old(cythonPyimports))
    {
      if c in numpyTypes {
        return Ok(());
      }
      if vn.Err? {
        return Err(vn.error);
      }
      NameDtype(c, vn.value.1);
      r := StoreDtypeImports(c, ci, cyi, pyi);
    }

    /** The numpy name of c and its five aliases. */
    method NameDtype(c: Ty, v: string)
      modifies this`numpyTypes, this`typeAliases
      ensures numpyTypes == old(numpyTypes)[c := NumpyName(v)] && typeAliases == old(typeAliases) + DtypeAliases(v, c)
    {
      numpyTypes := numpyTypes[c := NumpyName(v)];
      typeAliases := typeAliases + DtypeAliases(v, c);
    }

    /** The three import entries of register_numpy_dtype, in order; the first that raises stops the rest. */
    method StoreDtypeImports(c: Ty, ci: Ty, cyi: Ty, pyi: Ty) returns (r: Result<()>)
      modifies this`cythonCimports, this`cythonCyimports, this`cythonPyimports
      ensures var (n, r1) := DtypeImportSteps(old(cythonCimports), old(cythonCyimports), old(cythonPyimports),
                                              c, ci, cyi, pyi);
        r == r1
        && cythonCimports == (if n >= 1 then Put(old(cythonCimports), c, DtypeCimports(old(cythonCimports), c, ci).value)
                              else old(cythonCimports))
        && cythonCyimports == (if n >= 2 then old(cythonCyimports)[c := Items(DtypeImports(old(cythonCyimports), c, cyi).value)]
                               else old(cythonCyimports))
        && cythonPyimports == (if n == 3 then old(cythonPyimports)[c := Items(DtypeImports(old(cythonPyimports), c, pyi).value)]
                               else old(cythonPyimports))
    {
      var a := DtypeCimports(cythonCimports, c, ci);
      if a.Err? {
        return Err(a.error);
      }
      cythonCimports := Put(cythonCimports, c, a.value);
      var b := DtypeImports(cythonCyimports, c, cyi);
      if b.Err? {
        return Err(b.error);
      }
      cythonCyimports := cythonCyimports[c := Items(b.value)];
      var p := DtypeImports(cythonPyimports, c, pyi);
      if p.Err? {
        return Err(p.error);
      }
      cythonPyimports := cythonPyimports[c := Items(p.value)];
      r := Ok(());
    }

    /**
     * register_argument_kinds: the kinds are stored under canon(t), over any
     * previous ones (the overwrite warning is not modelled).
     */
    method RegisterArgumentKinds(t: Ty, kinds: seq<ArgKind>) returns (r: Result<()>)
      modifies this`cache, this`argumentKinds
      ensures cache == MemoAfter(old(cache), old(Tables()), t)
      ensures var ct := CanonMemo(old(cache), old(Tables()), t);
        r == (if ct.Err? then Err(ct.error) else Ok(()))
        && argumentKinds == (if ct.Ok? then old(argumentKinds)[ct.value := kinds] else old(argumentKinds))
    {
      var c := CanonCached(t);
      if c.Err? {
        return Err(c.error);
      }
      argumentKinds := argumentKinds[c.value := kinds];
      r := Ok(());
    }

    /** deregister_argument_kinds: canon(t) leaves argumentKinds if it is there; the memo is kept. */
    method DeregisterArgumentKinds(t: Ty) returns (r: Result<()>)
      modifies this`cache, this`argumentKinds
      ensures cache == MemoAfter(old(cache), old(Tables()), t)
      ensures var ct := CanonMemo(old(cache), old(Tables()), t);
        r == (if ct.Err? then Err(ct.error) else Ok(()))
        && argumentKinds == (if ct.Ok? then old(argumentKinds) - {ct.value} else old(argumentKinds))
    {
      var c := CanonCached(t);
      if c.Err? {
        return Err(c.error);
      }
      if c.value in argumentKinds {
        argumentKinds := argumentKinds - {c.value};
      }
      r := Ok(());
    }

    /**
     * register_variable_namespace(name, ns, t): name gets the namespace and,
     * when t is an enum, every enumerator of canon(t) does too, in order, as
     * NamespaceRegistered says; t is canonicalised after name is stored.
     */
    method RegisterVariableNamespace(name: Ty, ns: string, t: Ty) returns (r: Result<()>)
      modifies this`cache, this`variableNamespace
      ensures var tb := old(Tables()).(variableNamespace := old(variableNamespace)[name := ns]);
        cache == MemoAfter(old(cache), tb, t)
        && (variableNamespace, r) == NamespaceRegistered(old(variableNamespace), name, ns, CanonMemo(old(cache), tb, t))
    {
      variableNamespace := variableNamespace[name := ns];
      var ct := CanonCached(t);
      var e := IsEnumOf(ct);
      if e.Err? {
        return Err(e.error);
      }
      if !e.value {
        return Ok(());
      }
      var vals := EnumeratorList(ct.value);
      if vals.Err? {
        return Err(vals.error);
      }
      r := SetEnumerators(vals.value, ns);
    }

    /** The loop over an enum's (name, value) pairs: each name is given the namespace in turn. */
    method SetEnumerators(vals: seq<Ty>, ns: string) returns (r: Result<()>)
      modifies this`variableNamespace
      ensures (variableNamespace, r) == EnumNamespaces(old(variableNamespace), vals, ns)
    {
      var i := 0;
      while i < |vals|
        invariant i <= |vals|
        invariant EnumNamespaces(old(variableNamespace), vals[..i], ns) == (variableNamespace, Ok(()))
      {
        assert vals[..i + 1][..i] == vals[..i];
        var p := Unpack2(vals[i]);
        if p.Err? {
          EnumNamespacesPrefixErr(old(variableNamespace), vals, i + 1, ns);
          return Err(p.error);
        }
        variableNamespace := variableNamespace[p.value.0 := ns];
        i := i + 1;
      }
      assert vals[..i] == vals;
      r := Ok(());
    }

    // -------------------------------------------------------------------
    // The scoped swaps and local_classes

    // Each context manager is modelled as its two halves: the code before
    // its `yield`, run on entering the with-block, and the code after it,
    // run when the block finishes. The block itself is whatever the caller
    // does in between. The generators have no try/finally, so a block that
    // raises never reaches the second half: the state is then what the
    // block left.

    /**
     * Entering swap_dtypes(s): reading the old value is an AttributeError
     * once empty() deleted the attribute; otherwise dtypes becomes s and the
     * memo is cleared, and the old value is handed to SwapDtypesExit.
     */
    method SwapDtypesEnter(s: string) returns (r: Result<string>)
      modifies this`dtypes, this`cache
      ensures old(dtypes).None? ==> r == Err(AttributeError) && dtypes == old(dtypes) && cache == old(cache)
      ensures old(dtypes).Some? ==> r == Ok(old(dtypes).value) && dtypes == Some(s) && cache == map[]
    {
      if dtypes.None? {
        return Err(AttributeError);
      }
      r := Ok(dtypes.value);
      dtypes := Some(s);
      ClearMemo();
    }

    /**
     * Leaving swap_dtypes when the block finishes without raising: whatever
     * the block did, the memo is cleared and the saved value put back.
     */
    method SwapDtypesExit(saved: string)
      modifies this`dtypes, this`cache
      ensures dtypes == Some(saved) && cache == map[]
    {
      ClearMemo();
      dtypes := Some(saved);
    }

    /** Entering swap_stlcontainers(s), as SwapDtypesEnter for the stlcontainers attribute. */
    method SwapStlcontainersEnter(s: string) returns (r: Result<string>)
      modifies this`stlcontainers, this`cache
      ensures old(stlcontainers).None? ==> r == Err(AttributeError) && stlcontainers == old(stlcontainers) && cache == old(cache)
      ensures old(stlcontainers).Some? ==> r == Ok(old(stlcontainers).value) && stlcontainers == Some(s) && cache == map[]
    {
      if stlcontainers.None? {
        return Err(AttributeError);
      }
      r := Ok(stlcontainers.value);
      stlcontainers := Some(s);
      ClearMemo();
    }

    /** Leaving swap_stlcontainers without an exception, as SwapDtypesExit. */
    method SwapStlcontainersExit(saved: string)
      modifies this`stlcontainers, this`cache
      ensures stlcontainers == Some(saved) && cache == map[]
    {
      ClearMemo();
      stlcontainers := Some(saved);
    }

    /**
     * Entering local_classes(classnames, typesets): the listed classes'
     * spellings are undotted as EnterLocal says, and the prefixes saved
     * travel in the result to LocalClassesExit; the memo is cleared only
     * when every name was undotted.
     */
    method LocalClassesEnter(classnames: seq<Ty>, typesets: set<string>) returns (r: Result<Local>)
      modifies this`cythonCtypes, this`cythonCytypes, this`cythonPytypes, this`cache
      ensures r == EnterLocal(Local(old(cythonCtypes), old(cythonCytypes), old(cythonPytypes), map[], map[], map[]),
                              classnames, typesets)
      ensures var y := EnterLocalState(Local(old(cythonCtypes), old(cythonCytypes), old(cythonPytypes),
                                             map[], map[], map[]), classnames, typesets);
        cythonCtypes == y.c && cythonCytypes == y.cy && cythonPytypes == y.py
      ensures cache == (if r.Ok? then map[] else old(cache))
    {
      r := EnterLocalClasses(classnames, typesets);
      if r.Ok? {
        ClearMemo();
      }
    }

    /**
     * Leaving local_classes without an exception: the spellings as the block
     * left them are redotted with the prefixes saved on entry, as LeaveLocal
     * says, so a listed name the block added to a table has no saved prefix
     * and is a KeyError; the memo is cleared only when leaving succeeds.
     * LocalClassesRoundTrip says when leaving restores the tables.
     */
    method LocalClassesExit(classnames: seq<Ty>, typesets: set<string>, saved: Local) returns (r: Result<()>)
      modifies this`cythonCtypes, this`cythonCytypes, this`cythonPytypes, this`cache
      ensures var st := saved.(c := old(cythonCtypes), cy := old(cythonCytypes), py := old(cythonPytypes));
        var x := LeaveLocal(st, classnames, typesets);
        var y := LeaveLocalState(st, classnames, typesets);
        r == (if x.Err? then Err(x.error) else Ok(()))
        && cythonCtypes == y.c && cythonCytypes == y.cy && cythonPytypes == y.py
        && cache == (if r.Ok? then map[] else old(cache))
    {
      r := LeaveLocalClasses(classnames, typesets, saved);
      if r.Ok? {
        ClearMemo();
      }
    }

    /** The entering loop of local_classes: the 'c', 'cy' and 'py' spellings of each name in turn. */
    method EnterLocalClasses(names: seq<Ty>, ts: set<string>) returns (r: Result<Local>)
      modifies this`cythonCtypes, this`cythonCytypes, this`cythonPytypes
      ensures r == EnterLocal(Local(old(cythonCtypes), old(cythonCytypes), old(cythonPytypes), map[], map[], map[]), names, ts)
      ensures r.Ok? ==> cythonCtypes == r.value.c && cythonCytypes == r.value.cy && cythonPytypes == r.value.py
      ensures var y := EnterLocalState(Local(old(cythonCtypes), old(cythonCytypes), old(cythonPytypes), map[], map[], map[]),
                                       names, ts);
        cythonCtypes == y.c && cythonCytypes == y.cy && cythonPytypes == y.py
    {
      ghost var st0 := Local(cythonCtypes, cythonCytypes, cythonPytypes, map[], map[], map[]);
      var sc, scy, spy := map[], map[], map[];
      var i := 0;
      while i < |names|
        invariant i <= |names|
        invariant EnterLocal(st0, names[..i], ts) == Ok(Local(cythonCtypes, cythonCytypes, cythonPytypes, sc, scy, spy))
      {
        assert names[..i + 1][..i] == names[..i];
        ghost var before := Local(cythonCtypes, cythonCytypes, cythonPytypes, sc, scy, spy);
        var u := UndotClass(names[i], ts, sc, scy, spy);
        if u.Err? {
          EnterLocalPrefixErr(st0, names, i + 1, ts);
          assert EnterLocalState(st0, names[..i + 1], ts) == UndotNameState(before, names[i], ts);
          EnterLocalStatePrefixErr(st0, names, i + 1, ts);
          return Err(u.error);
        }
        sc, scy, spy := u.value.sc, u.value.scy, u.value.spy;
        i := i + 1;
      }
      assert names[..i] == names;
      r := Ok(Local(cythonCtypes, cythonCytypes, cythonPytypes, sc, scy, spy));
    }

    /** One name on the way in: each listed table that spells it loses the prefix, which is saved. */
    method UndotClass(name: Ty, ts: set<string>, sc: map<Ty, string>, scy: map<Ty, string>, spy: map<Ty, string>)
      returns (r: Result<Local>)
      modifies this`cythonCtypes, this`cythonCytypes, this`cythonPytypes
      ensures r == UndotName(Local(old(cythonCtypes), old(cythonCytypes), old(cythonPytypes), sc, scy, spy), name, ts)
      ensures var y := UndotNameState(Local(old(cythonCtypes), old(cythonCytypes), old(cythonPytypes), sc, scy, spy), name, ts);
        cythonCtypes == y.c && cythonCytypes == y.cy && cythonPytypes == y.py
    {
      var c := UndotIn("c" in ts, cythonCtypes, sc, name);
      if c.Err? {
        return Err(c.error);
      }
      cythonCtypes := c.value.0;
      r := UndotRest(name, ts, Local(c.value.0, cythonCytypes, cythonPytypes, c.value.1, scy, spy));
    }

    /** The 'cy' and 'py' steps of one name on the way in, from the tables pre holds. */
    method UndotRest(name: Ty, ts: set<string>, pre: Local) returns (r: Result<Local>)
      requires pre.cy == cythonCytypes && pre.py == cythonPytypes
      modifies this`cythonCytypes, this`cythonPytypes
      ensures var cy := UndotIn("cy" in ts, pre.cy, pre.scy, name);
        var py := UndotIn("py" in ts, pre.py, pre.spy, name);
        r == (if cy.Err? then Err(cy.error) else if py.Err? then Err(py.error) else Ok(UndotRestState(pre, name, ts)))
      ensures var y := UndotRestState(pre, name, ts); cythonCytypes == y.cy && cythonPytypes == y.py
    {
      var cy := UndotIn("cy" in ts, cythonCytypes, pre.scy, name);
      if cy.Err? {
        return Err(cy.error);
      }
      cythonCytypes := cy.value.0;
      var py := UndotIn("py" in ts, cythonPytypes, pre.spy, name);
      if py.Err? {
        return Err(py.error);
      }
      cythonPytypes := py.value.0;
      r := Ok(Local(pre.c, cy.value.0, py.value.0, pre.sc, cy.value.1, py.value.1));
    }

    /** The leaving loop of local_classes: each listed spelling gets its saved prefix back. */
    method LeaveLocalClasses(names: seq<Ty>, ts: set<string>, saved: Local) returns (r: Result<()>)
      modifies this`cythonCtypes, this`cythonCytypes, this`cythonPytypes
      ensures var x := LeaveLocal(saved.(c := old(cythonCtypes), cy := old(cythonCytypes), py := old(cythonPytypes)), names, ts);
        r == (if x.Err? then Err(x.error) else Ok(()))
        && (x.Ok? ==> cythonCtypes == x.value.c && cythonCytypes == x.value.cy && cythonPytypes == x.value.py)
      ensures var y := LeaveLocalState(saved.(c := old(cythonCtypes), cy := old(cythonCytypes), py := old(cythonPytypes)),
                                       names, ts);
        cythonCtypes == y.c && cythonCytypes == y.cy && cythonPytypes == y.py
    {
      ghost var st0 := saved.(c := cythonCtypes, cy := cythonCytypes, py := cythonPytypes);
      var i := 0;
      while i < |names|
        invariant i <= |names|
        invariant LeaveLocal(st0, names[..i], ts) == Ok(saved.(c := cythonCtypes, cy := cythonCytypes, py := cythonPytypes))
      {
        ghost var before := saved.(c := cythonCtypes, cy := cythonCytypes, py := cythonPytypes);
        assert names[..i + 1][..i] == names[..i];
        assert LeaveLocal(st0, names[..i + 1], ts) == RedotName(before, names[i], ts);
        var u := RedotClass(names[i], ts, saved);
        if u.Err? {
          LeaveLocalPrefixErr(st0, names, i + 1, ts);
          assert LeaveLocalState(st0, names[..i + 1], ts) == RedotNameState(before, names[i], ts);
          LeaveLocalStatePrefixErr(st0, names, i + 1, ts);
          return Err(u.error);
        }
        i := i + 1;
      }
      assert names[..i] == names;
      r := Ok(());
    }

    /** One name on the way out: each listed table that spells it gets its saved prefix back. */
    method RedotClass(name: Ty, ts: set<string>, saved: Local) returns (r: Result<()>)
      modifies this`cythonCtypes, this`cythonCytypes, this`cythonPytypes
      ensures var x := RedotName(saved.(c := old(cythonCtypes), cy := old(cythonCytypes), py := old(cythonPytypes)), name, ts);
        r == (if x.Err? then Err(x.error) else Ok(()))
      ensures var y := RedotNameState(saved.(c := old(cythonCtypes), cy := old(cythonCytypes), py := old(cythonPytypes)),
                                      name, ts);
        cythonCtypes == y.c && cythonCytypes == y.cy && cythonPytypes == y.py
    {
      var c := RedotIn("c" in ts, cythonCtypes, saved.sc, name);
      if c.Err? {
        return Err(c.error);
      }
      cythonCtypes := c.value;
      r := RedotRest(name, ts, saved);
    }

    /** The 'cy' and 'py' steps of one name on the way out. */
    method RedotRest(name: Ty, ts: set<string>, saved: Local) returns (r: Result<()>)
      modifies this`cythonCytypes, this`cythonPytypes
      ensures var st := saved.(c := cythonCtypes, cy := old(cythonCytypes), py := old(cythonPytypes));
        var cy := RedotIn("cy" in ts, st.cy, st.scy, name);
        var py := RedotIn("py" in ts, st.py, st.spy, name);
        r == (if cy.Err? then Err(cy.error) else if py.Err? then Err(py.error) else Ok(()))
      ensures var y := RedotRestState(saved.(c := cythonCtypes, cy := old(cythonCytypes), py := old(cythonPytypes)), name, ts);
        cythonCytypes == y.cy && cythonPytypes == y.py
    {
      var cy := RedotIn("cy" in ts, cythonCytypes, saved.scy, name);
      if cy.Err? {
        return Err(cy.error);
      }
      cythonCytypes := cy.value;
      var py := RedotIn("py" in ts, cythonPytypes, saved.spy, name);
      if py.Err? {
        return Err(py.error);
      }
      cythonPytypes := py.value;
      r := Ok(());
    }
  }
}
