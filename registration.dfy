/**
 * What the registration methods of a TypeSystem do, as functions of the
 * state before the call: register_class and deregister_class, the
 * refinement, specialization, numpy dtype, argument kind and variable
 * namespace registrations, and update. Each function returns the state
 * the call leaves behind, including the part already done when a step
 * raises, next to the call's outcome.
 */
module Registrations {
  import opened Values
  import opened Registry
  import opened Canonical
  import opened Names
  import opened Imports
  import opened Converters
  import opened ClassNames

  /** The interpreter's recursion limit, as the fuel every method starts with. */
  const MaxDepth: nat := 1000

  /** Everything a TypeSystem holds besides the memo. */
  datatype Snapshot = Snapshot(
    tables: Registry,
    fromPytypes: map<Ty, Ty>,
    c2pyConv: map<Ty, Conv>,
    py2cConv: map<Ty, Conv>,
    /** None when the attribute has been deleted, as TypeSystem.empty() does */
    extraTypes: Option<string>,
    dtypes: Option<string>,
    stlcontainers: Option<string>)

  // ---------------------------------------------------------------------
  // The memo of canon

  /** canon(t) answered through the memo: a stored result wins over the tables. */
  function CanonMemo(cache: map<Ty, Ty>, tb: Registry, t: Ty): (r: Result<Ty>)
    ensures t in cache ==> r == Ok(cache[t])
    ensures t !in cache ==> r == Canon(tb, t, MaxDepth)
  {
    if t in cache then Ok(cache[t]) else Canon(tb, t, MaxDepth)
  }

  /** Every stored result is what canon computes from the current tables. */
  predicate CacheSound(cache: map<Ty, Ty>, tb: Registry) {
    forall t :: t in cache ==> Canon(tb, t, MaxDepth) == Ok(cache[t])
  }

  /** While the memo is sound, answering through it is answering from the tables. */
  lemma SoundMemo(cache: map<Ty, Ty>, tb: Registry, t: Ty)
    requires CacheSound(cache, tb)
    ensures CanonMemo(cache, tb, t) == Canon(tb, t, MaxDepth)
  { }

  /** The canonical memo after canon(t) is asked through it. */
  function MemoAfter(cache: map<Ty, Ty>, tb: Registry, t: Ty): (m: map<Ty, Ty>)
    ensures CanonMemo(cache, tb, t).Ok? ==> t in m && m[t] == CanonMemo(cache, tb, t).value
    ensures forall k :: k in cache ==> k in m && m[k] == cache[k]
    ensures CanonMemo(cache, tb, t).Err? ==> m == cache
  {
    if t !in cache && Canon(tb, t, MaxDepth).Ok? then cache[t := Canon(tb, t, MaxDepth).value] else cache
  }

  // ---------------------------------------------------------------------
  // Helpers of the registration methods

  /** m[k] = v when a value is given. */
  function Put<V>(m: map<Ty, V>, k: Ty, v: Option<V>): (r: map<Ty, V>)
    ensures v.Some? ==> r == m[k := v.value]
    ensures v.None? ==> r == m
  {
    if v.Some? then m[k := v.value] else m
  }

  /** A c2py argument as stored: a string s becomes (s,), None stores nothing, tuple() of a number fails. */
  function C2pyTuple(x: Ty): (r: Result<Option<Ty>>)
    ensures x == Nil ==> r == Ok(None)
    ensures x.S? ==> r == Ok(Some(T([x])))
    ensures x.T? ==> r == Ok(Some(x))
    ensures x.N? || x.K? ==> r == Err(TypeError)
  {
    match x
    case Nil => Ok(None)
    case S(_) => Ok(Some(T([x])))
    case T(_) => Ok(Some(x))
    case _ => Err(TypeError)
  }

  /** A py2c argument as stored: a string s becomes (s, False), None stores nothing. */
  function Py2cPair(x: Ty): (r: Option<Ty>)
    ensures x == Nil ==> r == None
    ensures x.S? ==> r == Some(T([x, N(0)]))
    ensures x != Nil && !x.S? ==> r == Some(x)
  {
    if x == Nil then None else if x.S? then Some(T([x, N(0)])) else Some(x)
  }

  /** A type given with template_args None, '' or (): registered as a plain class. */
  predicate PlainClass(templateArgs: Ty) {
    templateArgs == Nil || templateArgs == S("") || templateArgs == T([])
  }

  /** The import entry register_class stores for an argument: None stores nothing. */
  function ImportArg(x: Ty): (r: Result<Option<ImportEntry>>)
    ensures x == Nil ==> r == Ok(None)
    ensures x != Nil ==> (r.Ok? <==> EnsureImportable(x).Ok?)
    ensures x != Nil && r.Ok? ==> r.value == Some(Items(EnsureImportable(x).value))
  {
    if x == Nil then Ok(None)
    else
      var v :- EnsureImportable(x);
      Ok(Some(Items(v)))
  }

  /** The arguments of register_class after the name. */
  datatype ClassSpec = ClassSpec(
    templateArgs: Ty,
    cythonCType: Option<Spelling>,
    cythonCimport: Ty,
    cythonCyType: Option<Spelling>,
    cythonPyType: Option<Spelling>,
    templateClassName: Option<string>,
    templateFunctionName: Option<string>,
    cythonCyimport: Ty,
    cythonPyimport: Ty,
    cythonC2py: Ty,
    cythonPy2c: Ty,
    cppType: Option<Spelling>,
    humanName: Option<string>,
    fromPytype: Option<Ty>)

  /** The order of a dict's keys after d[k] = v: a new key goes last, an old one keeps its place. */
  function OrderAfterSet(order: seq<Ty>, keys: set<Ty>, k: Ty): (r: seq<Ty>)
    ensures k in keys ==> r == order
    ensures k !in keys ==> r == order + [k]
  {
    if k in keys then order else order + [k]
  }

  /** The order of a dict's keys after d.pop(k). */
  function OrderWithout(order: seq<Ty>, k: Ty): (r: seq<Ty>)
    ensures forall x :: x in r <==> x in order && x != k
    decreases |order|
  {
    if order == [] then []
    else if order[0] == k then OrderWithout(order[1..], k)
    else [order[0]] + OrderWithout(order[1..], k)
  }

  /** Putting a key not yet listed in front keeps every key listed once. */
  lemma ConsDistinct(x: Ty, s: seq<Ty>)
    requires Distinct(s) && x !in s
    ensures Distinct([x] + s)
  {
    forall i, j | 0 <= i < j < |[x] + s| ensures ([x] + s)[i] != ([x] + s)[j] {
      if i > 0 {
        assert ([x] + s)[i] == s[i - 1];
      }
      assert ([x] + s)[j] == s[j - 1];
    }
  }

  /** Removing a key keeps the keys listed once each. */
  lemma {:induction false} OrderWithoutDistinct(order: seq<Ty>, k: Ty)
    requires Distinct(order)
    ensures Distinct(OrderWithout(order, k))
    decreases |order|
  {
    if order != [] {
      var rest := order[1..];
      assert Distinct(rest) by {
        forall i, j | 0 <= i < j < |rest| ensures rest[i] != rest[j] { assert rest[i] == order[i + 1] && rest[j] == order[j + 1]; }
      }
      OrderWithoutDistinct(rest, k);
      assert order[0] !in rest by {
        forall i | 0 <= i < |rest| ensures rest[i] != order[0] { assert rest[i] == order[i + 1]; }
      }
      if order[0] != k {
        ConsDistinct(order[0], OrderWithout(rest, k));
      }
    }
  }

  /** The order of a dict's keys after d.update(other): keys new to d are appended in other's order. */
  function OrderAfterUpdate(order: seq<Ty>, more: seq<Ty>): (r: seq<Ty>)
    ensures forall x :: x in r <==> x in order || x in more
    ensures |order| <= |r| && r[..|order|] == order
    decreases |more|
  {
    if more == [] then order
    else
      var o := OrderAfterUpdate(order, more[..|more| - 1]);
      var k := more[|more| - 1];
      assert forall x :: x in more <==> x in more[..|more| - 1] || x == k by {
        assert more == more[..|more| - 1] + [k];
      }
      if k in o then o else o + [k]
  }

  /** Appending keys new to the dict keeps every key listed once. */
  lemma {:induction false} OrderAfterUpdateDistinct(order: seq<Ty>, more: seq<Ty>)
    requires Distinct(order)
    ensures Distinct(OrderAfterUpdate(order, more))
    decreases |more|
  {
    if more != [] {
      var o := OrderAfterUpdate(order, more[..|more| - 1]);
      OrderAfterUpdateDistinct(order, more[..|more| - 1]);
      var k := more[|more| - 1];
      if k !in o {
        forall i, j | 0 <= i < j < |o + [k]| ensures (o + [k])[i] != (o + [k])[j] {
          assert (o + [k])[i] == o[i];
          if j < |o| {
            assert (o + [k])[j] == o[j];
          }
        }
      }
    }
  }

  /** The numpy name register_numpy_dtype records for a variable name v. */
  function NumpyName(v: string): string {
    "{dtypes}xd_" + v + ".num"
  }

  /** The aliases register_numpy_dtype adds, all naming the canonical type c. */
  function DtypeAliases(v: string, c: Ty): (m: map<Ty, Ty>)
    ensures forall k :: k in m ==> m[k] == c
    ensures S(NumpyName(v)) in m && S("xd_" + v) in m && S("xd_" + v + ".num") in m && S("{dtypes}xd_" + v) in m
  {
    map[S(NumpyName(v)) := c, S("xd_" + v) := c, S("xd_" + v + ".num") := c,
        S("{dtypes}xd_" + v) := c, S("{dtypes}xd_" + v + ".num") := c]
  }

  /** Tuple concatenation `a + b`. */
  function Concat(a: Ty, b: Ty): (r: Result<Ty>)
    ensures r.Ok? <==> a.T? && b.T?
    ensures r.Ok? ==> r.value == T(a.items + b.items)
  {
    if a.T? && b.T? then Ok(T(a.items + b.items)) else Err(TypeError)
  }

  /**
   * _ensure_importable of the raw entry a table holds for c (None when it
   * has none); a callable entry is returned as is and fails the following
   * concatenation.
   */
  function ExistingImports(table: map<Ty, ImportEntry>, c: Ty): (r: Result<Ty>)
    ensures c !in table ==> r == Ok(T([T([Nil])]))
    ensures c in table && table[c].Items? ==> r == EnsureImportable(table[c].v)
    ensures c in table && table[c].Collector? ==> r == Err(TypeError)
  {
    if c !in table then EnsureImportable(Nil)
    else match table[c]
      case Items(v) => EnsureImportable(v)
      case Collector(_) => Err(TypeError)
  }

  /** The import tuple that brings in the dtypes module: (('{dtypes}',),). */
  function DtypesImport(): Ty {
    T([T([S("{dtypes}")])])
  }

  /**
   * The cyimport or pyimport entry register_numpy_dtype stores: the dtypes
   * module, then the existing entry, then the argument.
   */
  function DtypeImports(table: map<Ty, ImportEntry>, c: Ty, arg: Ty): (r: Result<Ty>)
    ensures r.Ok? ==> r.value.T? && |r.value.items| >= 1 && r.value.items[0] == T([S("{dtypes}")])
  {
    var x :- ExistingImports(table, c);
    var xy :- Concat(DtypesImport(), x);
    var y :- EnsureImportable(arg);
    Concat(xy, y)
  }

  /**
   * The stored entry holds the dtypes module, the existing entry's tuples and
   * the argument's, in that order; the existing entry is concatenated before
   * the argument is normalised, so one that is not a tuple is a TypeError
   * whatever the argument.
   */
  lemma DtypeImportsOrder(table: map<Ty, ImportEntry>, c: Ty, arg: Ty)
    ensures var r := DtypeImports(table, c, arg);
      r.Ok? ==>
        ExistingImports(table, c).Ok? && ExistingImports(table, c).value.T? &&
        EnsureImportable(arg).Ok? && EnsureImportable(arg).value.T? &&
        r.value == T([T([S("{dtypes}")])] + ExistingImports(table, c).value.items + EnsureImportable(arg).value.items)
    ensures ExistingImports(table, c).Ok? && !ExistingImports(table, c).value.T? ==> DtypeImports(table, c, arg) == Err(TypeError)
  { }

  /** The first element of each pair, unpacking each item into two. */
  function PairHeads(xs: seq<Ty>): (r: Result<seq<Ty>>)
    ensures r.Ok? <==> forall i :: 0 <= i < |xs| ==> Unpack2(xs[i]).Ok?
    ensures r.Ok? ==> |r.value| == |xs| && forall i :: 0 <= i < |xs| ==> r.value[i] == Unpack2(xs[i]).value.0
    decreases |xs|
  {
    if xs == [] then Ok([])
    else
      var init :- PairHeads(xs[..|xs| - 1]);
      var p :- Unpack2(xs[|xs| - 1]);
      Ok(init + [p.0])
  }

  /** dict.pop(k, None): the table without k. */
  function Pop<V>(m: map<Ty, V>, k: Ty): map<Ty, V> {
    m - {k}
  }

  /** A stored converter entry: a tuple of templates. */
  function AsStatic(x: Option<Ty>): (r: Option<Conv>)
    ensures x.None? <==> r.None?
    ensures x.Some? ==> r == Some(Static(x.value))
  {
    if x.Some? then Some(Static(x.value)) else None
  }

  /** A stored import entry: the import tuples as given. */
  function AsItems(x: Ty): (r: Option<ImportEntry>)
    ensures x == Nil ==> r == None
    ensures x != Nil ==> r == Some(Items(x))
  {
    if x == Nil then None else Some(Items(x))
  }

  /** Storing under a fresh key and then popping it again gives the table back. */
  lemma PutPop<V>(m: map<Ty, V>, k: Ty, v: Option<V>)
    requires k !in m
    ensures Put(m, k, v) - {k} == m
  {
    if v.Some? {
      assert m[k := v.value] - {k} == m;
    }
  }

  /** The same for an entry stored unconditionally. */
  lemma SetPop<V>(m: map<Ty, V>, k: Ty, v: V)
    requires k !in m
    ensures m[k := v] - {k} == m
  { }

  // ---------------------------------------------------------------------
  // register_class and deregister_class

  /**
   * How far register_class gets and what it returns: 0 when the template
   * arguments are a non-empty string (TypeError before anything is
   * stored), 1, 2 or 3 when the cimport, cyimport or pyimport argument is
   * () (IndexError), 4 when the c2py argument is a number (TypeError), and
   * 5 when every step completes.
   */
  function ClassSteps(spec: ClassSpec): (r: (nat, Result<()>))
    ensures r.0 <= 5 && (r.1.Ok? <==> r.0 == 5)
    ensures r.0 == 0 <==> !PlainClass(spec.templateArgs) && spec.templateArgs.S?
    ensures r.0 >= 2 <==> r.0 >= 1 && ImportArg(spec.cythonCimport).Ok?
    ensures r.0 >= 3 <==> r.0 >= 2 && ImportArg(spec.cythonCyimport).Ok?
    ensures r.0 >= 4 <==> r.0 >= 3 && ImportArg(spec.cythonPyimport).Ok?
    ensures r.0 == 5 <==> r.0 >= 4 && C2pyTuple(spec.cythonC2py).Ok?
    ensures r.0 == 0 ==> r.1 == Err(TypeError)
    ensures r.0 == 1 ==> r.1 == Err(ImportArg(spec.cythonCimport).error)
    ensures r.0 == 2 ==> r.1 == Err(ImportArg(spec.cythonCyimport).error)
    ensures r.0 == 3 ==> r.1 == Err(ImportArg(spec.cythonPyimport).error)
    ensures r.0 == 4 ==> r.1 == Err(C2pyTuple(spec.cythonC2py).error)
    ensures r.0 == 5 ==> r.1 == Ok(())
  {
    if !PlainClass(spec.templateArgs) && spec.templateArgs.S? then (0, Err(TypeError))
    else if ImportArg(spec.cythonCimport).Err? then (1, Err(ImportArg(spec.cythonCimport).error))
    else if ImportArg(spec.cythonCyimport).Err? then (2, Err(ImportArg(spec.cythonCyimport).error))
    else if ImportArg(spec.cythonPyimport).Err? then (3, Err(ImportArg(spec.cythonPyimport).error))
    else if C2pyTuple(spec.cythonC2py).Err? then (4, Err(C2pyTuple(spec.cythonC2py).error))
    else (5, Ok(()))
  }

  /**
   * register_class: the state it leaves and its outcome. Once past the
   * template arguments, a plain class joins baseTypes and a templated one
   * templateTypes (any other value registers no name), and the spellings
   * given are stored; each later step stores its entry only when every
   * earlier one succeeded, so a step that raises leaves what was done
   * before it.
   */
  function ClassRegistered(s: Snapshot, name: Ty, spec: ClassSpec): (Snapshot, Result<()>) {
    var (n, r) := ClassSteps(spec);
    var tb := s.tables;
    var ta := spec.templateArgs;
    if n == 0 then (s, r)
    else
      (Snapshot(
        Registry(if PlainClass(ta) then tb.baseTypes + {name} else tb.baseTypes,
                 if !PlainClass(ta) && ta.T? then tb.templateTypes[name := ta.items] else tb.templateTypes,
                 tb.refinedTypes, tb.refinedOrder, tb.typeAliases,
                 Put(tb.humannames, name, spec.humanName),
                 tb.argumentKinds, tb.variableNamespace,
                 Put(tb.cppTypes, name, spec.cppType),
                 tb.numpyTypes,
                 Put(tb.cythonCtypes, name, spec.cythonCType),
                 Put(tb.cythonCytypes, name, spec.cythonCyType),
                 Put(tb.cythonPytypes, name, spec.cythonPyType),
                 if n >= 2 then Put(tb.cythonCimports, name, ImportArg(spec.cythonCimport).value) else tb.cythonCimports,
                 if n >= 3 then Put(tb.cythonCyimports, name, ImportArg(spec.cythonCyimport).value) else tb.cythonCyimports,
                 if n >= 4 then Put(tb.cythonPyimports, name, ImportArg(spec.cythonPyimport).value) else tb.cythonPyimports,
                 if n == 5 then Put(tb.cythonFunctionnames, name, spec.templateFunctionName) else tb.cythonFunctionnames,
                 if n == 5 then Put(tb.cythonClassnames, name, spec.templateClassName) else tb.cythonClassnames),
        Put(s.fromPytypes, name, spec.fromPytype),
        if n == 5 then Put(s.c2pyConv, name, AsStatic(C2pyTuple(spec.cythonC2py).value)) else s.c2pyConv,
        if n == 5 then Put(s.py2cConv, name, AsStatic(Py2cPair(spec.cythonPy2c))) else s.py2cConv,
        s.extraTypes, s.dtypes, s.stlcontainers),
       r)
  }

  /** The tables ClassRegistered leaves, one by one. */
  lemma ClassRegisteredFields(s: Snapshot, name: Ty, spec: ClassSpec)
    ensures var (s1, r1) := ClassRegistered(s, name, spec); var n := ClassSteps(spec).0;
      var ta := spec.templateArgs; var tb := s.tables; var tb1 := s1.tables;
      r1 == ClassSteps(spec).1
      && tb1.baseTypes == (if n >= 1 && PlainClass(ta) then tb.baseTypes + {name} else tb.baseTypes)
      && tb1.templateTypes == (if n >= 1 && !PlainClass(ta) && ta.T? then tb.templateTypes[name := ta.items] else tb.templateTypes)
      && tb1.cythonCtypes == (if n >= 1 then Put(tb.cythonCtypes, name, spec.cythonCType) else tb.cythonCtypes)
      && tb1.cythonCytypes == (if n >= 1 then Put(tb.cythonCytypes, name, spec.cythonCyType) else tb.cythonCytypes)
      && tb1.cythonPytypes == (if n >= 1 then Put(tb.cythonPytypes, name, spec.cythonPyType) else tb.cythonPytypes)
      && s1.fromPytypes == (if n >= 1 then Put(s.fromPytypes, name, spec.fromPytype) else s.fromPytypes)
      && tb1.cppTypes == (if n >= 1 then Put(tb.cppTypes, name, spec.cppType) else tb.cppTypes)
      && tb1.humannames == (if n >= 1 then Put(tb.humannames, name, spec.humanName) else tb.humannames)
      && tb1.cythonCimports == (if n >= 2 then Put(tb.cythonCimports, name, ImportArg(spec.cythonCimport).value) else tb.cythonCimports)
      && tb1.cythonCyimports == (if n >= 3 then Put(tb.cythonCyimports, name, ImportArg(spec.cythonCyimport).value) else tb.cythonCyimports)
      && tb1.cythonPyimports == (if n >= 4 then Put(tb.cythonPyimports, name, ImportArg(spec.cythonPyimport).value) else tb.cythonPyimports)
      && s1.c2pyConv == (if n == 5 then Put(s.c2pyConv, name, AsStatic(C2pyTuple(spec.cythonC2py).value)) else s.c2pyConv)
      && s1.py2cConv == (if n == 5 then Put(s.py2cConv, name, AsStatic(Py2cPair(spec.cythonPy2c))) else s.py2cConv)
      && tb1.cythonClassnames == (if n == 5 then Put(tb.cythonClassnames, name, spec.templateClassName) else tb.cythonClassnames)
      && tb1.cythonFunctionnames == (if n == 5 then Put(tb.cythonFunctionnames, name, spec.templateFunctionName) else tb.cythonFunctionnames)
  { }

  /**
   * deregister_class: a name that is neither a base type nor a template is
   * a TypeError; otherwise it leaves baseTypes (or, if not a base type,
   * templateTypes) and every table register_class writes but
   * cythonFunctionnames.
   */
  function ClassDeregistered(s: Snapshot, name: Ty): (r: Result<Snapshot>)
    ensures r.Err? <==> name !in s.tables.baseTypes && name !in s.tables.templateTypes
  {
    var tb := s.tables;
    var isbase := name in tb.baseTypes;
    if !isbase && name !in tb.templateTypes then Err(TypeError)
    else
      Ok(s.(tables := tb.(baseTypes := if isbase then tb.baseTypes - {name} else tb.baseTypes,
                          templateTypes := if isbase then tb.templateTypes else tb.templateTypes - {name},
                          cythonCtypes := Pop(tb.cythonCtypes, name),
                          cythonCytypes := Pop(tb.cythonCytypes, name),
                          cythonPytypes := Pop(tb.cythonPytypes, name),
                          cppTypes := Pop(tb.cppTypes, name),
                          humannames := Pop(tb.humannames, name),
                          cythonCimports := Pop(tb.cythonCimports, name),
                          cythonCyimports := Pop(tb.cythonCyimports, name),
                          cythonPyimports := Pop(tb.cythonPyimports, name),
                          cythonClassnames := Pop(tb.cythonClassnames, name)),
            fromPytypes := Pop(s.fromPytypes, name),
            c2pyConv := Pop(s.c2pyConv, name),
            py2cConv := Pop(s.py2cConv, name)))
  }

  /** The tables ClassDeregistered leaves, one by one. */
  lemma ClassDeregisteredFields(s: Snapshot, name: Ty)
    requires ClassDeregistered(s, name).Ok?
    ensures var s1 := ClassDeregistered(s, name).value; var tb := s.tables; var tb1 := s1.tables;
      tb1.baseTypes == tb.baseTypes - {name}
      && tb1.templateTypes == (if name in tb.baseTypes then tb.templateTypes else tb.templateTypes - {name})
      && tb1.cythonCtypes == Pop(tb.cythonCtypes, name) && tb1.cythonCytypes == Pop(tb.cythonCytypes, name)
      && tb1.cythonPytypes == Pop(tb.cythonPytypes, name) && s1.fromPytypes == Pop(s.fromPytypes, name)
      && tb1.cppTypes == Pop(tb.cppTypes, name) && tb1.humannames == Pop(tb.humannames, name)
      && tb1.cythonCimports == Pop(tb.cythonCimports, name) && tb1.cythonCyimports == Pop(tb.cythonCyimports, name)
      && tb1.cythonPyimports == Pop(tb.cythonPyimports, name) && s1.c2pyConv == Pop(s.c2pyConv, name)
      && s1.py2cConv == Pop(s.py2cConv, name) && tb1.cythonClassnames == Pop(tb.cythonClassnames, name)
      && tb1.cythonFunctionnames == tb.cythonFunctionnames
  { }

  /** name appears in none of the tables register_class writes. */
  predicate ClassFresh(s: Snapshot, name: Ty) {
    var tb := s.tables;
    name !in tb.baseTypes && name !in tb.templateTypes && name !in tb.cythonCtypes && name !in tb.cythonCytypes
    && name !in tb.cythonPytypes && name !in tb.cppTypes && name !in tb.humannames && name !in tb.cythonCimports
    && name !in tb.cythonCyimports && name !in tb.cythonPyimports && name !in tb.cythonClassnames
    && name !in s.fromPytypes && name !in s.c2pyConv && name !in s.py2cConv
  }

  /** The template arguments make register_class record the name as a base type or a template. */
  predicate NamesClass(templateArgs: Ty) {
    PlainClass(templateArgs) || (templateArgs.T? && templateArgs.items != [])
  }

  /**
   * Deregistering a class just registered under a fresh name gives back
   * every table but one: deregister_class does not pop the
   * cythonFunctionnames entry register_class made.
   */
  lemma ClassRoundTrip(s: Snapshot, name: Ty, spec: ClassSpec)
    requires ClassFresh(s, name) && NamesClass(spec.templateArgs)
    requires ClassRegistered(s, name, spec).1.Ok?
    ensures ClassDeregistered(ClassRegistered(s, name, spec).0, name)
      == Ok(s.(tables := s.tables.(cythonFunctionnames := Put(s.tables.cythonFunctionnames, name, spec.templateFunctionName))))
  {
    var tb := s.tables;
    var s1 := ClassRegistered(s, name, spec).0;
    var tb1 := s1.tables;
    PutPop(tb.cythonCtypes, name, spec.cythonCType);
    PutPop(tb.cythonCytypes, name, spec.cythonCyType);
    PutPop(tb.cythonPytypes, name, spec.cythonPyType);
    PutPop(tb.cppTypes, name, spec.cppType);
    PutPop(tb.humannames, name, spec.humanName);
    PutPop(s.fromPytypes, name, spec.fromPytype);
    PutPop(tb.cythonCimports, name, ImportArg(spec.cythonCimport).value);
    PutPop(tb.cythonCyimports, name, ImportArg(spec.cythonCyimport).value);
    PutPop(tb.cythonPyimports, name, ImportArg(spec.cythonPyimport).value);
    PutPop(s.c2pyConv, name, AsStatic(C2pyTuple(spec.cythonC2py).value));
    PutPop(s.py2cConv, name, AsStatic(Py2cPair(spec.cythonPy2c)));
    PutPop(tb.cythonClassnames, name, spec.templateClassName);
    if PlainClass(spec.templateArgs) {
      assert tb1.baseTypes == tb.baseTypes + {name} && tb1.templateTypes == tb.templateTypes;
      assert tb.baseTypes + {name} - {name} == tb.baseTypes;
    } else {
      assert tb1.baseTypes == tb.baseTypes;
      assert tb1.templateTypes == tb.templateTypes[name := spec.templateArgs.items];
      assert tb.templateTypes[name := spec.templateArgs.items] - {name} == tb.templateTypes;
    }
  }

  // ---------------------------------------------------------------------
  // register_refinement and deregister_refinement

  /** The arguments of register_refinement after the name and the refined type. */
  datatype RefinementSpec = RefinementSpec(cythonCimport: Ty, cythonCyimport: Ty, cythonPyimport: Ty,
                                           cythonC2py: Ty, cythonPy2c: Ty)

  /**
   * How far register_refinement gets after recording the refinement: 0, 1
   * or 2 when the cimport, cyimport or pyimport argument is () (IndexError),
   * 3 when the c2py argument is a number (TypeError), 4 when it completes.
   */
  function RefinementSteps(spec: RefinementSpec): (r: (nat, Result<()>))
    ensures r.0 <= 4 && (r.1.Ok? <==> r.0 == 4)
    ensures r.0 >= 1 <==> EnsureImportable(spec.cythonCimport).Ok?
    ensures r.0 >= 2 <==> r.0 >= 1 && EnsureImportable(spec.cythonCyimport).Ok?
    ensures r.0 >= 3 <==> r.0 >= 2 && EnsureImportable(spec.cythonPyimport).Ok?
    ensures r.0 == 4 <==> r.0 >= 3 && C2pyTuple(spec.cythonC2py).Ok?
    ensures r.0 <= 2 ==> r.1 == Err(IndexError)
    ensures r.0 == 3 ==> r.1 == Err(TypeError)
    ensures r.0 == 4 ==> r.1 == Ok(())
  {
    if EnsureImportable(spec.cythonCimport).Err? then (0, Err(IndexError))
    else if EnsureImportable(spec.cythonCyimport).Err? then (1, Err(IndexError))
    else if EnsureImportable(spec.cythonPyimport).Err? then (2, Err(IndexError))
    else if C2pyTuple(spec.cythonC2py).Err? then (3, Err(TypeError))
    else (4, Ok(()))
  }

  /**
   * register_refinement: name refines parent (a new name goes last in
   * refinedOrder); then each import entry, even None, is stored
   * normalised, and the converters when given, each step only when every
   * earlier one succeeded.
   */
  function RefinementRegistered(s: Snapshot, name: Ty, parent: Ty, spec: RefinementSpec): (Snapshot, Result<()>) {
    var (n, r) := RefinementSteps(spec);
    var tb := s.tables;
    (s.(tables := tb.(refinedTypes := tb.refinedTypes[name := parent],
                      refinedOrder := OrderAfterSet(tb.refinedOrder, tb.refinedTypes.Keys, name),
                      cythonCimports := if n >= 1 then tb.cythonCimports[name := Items(EnsureImportable(spec.cythonCimport).value)]
                                        else tb.cythonCimports,
                      cythonCyimports := if n >= 2 then tb.cythonCyimports[name := Items(EnsureImportable(spec.cythonCyimport).value)]
                                         else tb.cythonCyimports,
                      cythonPyimports := if n >= 3 then tb.cythonPyimports[name := Items(EnsureImportable(spec.cythonPyimport).value)]
                                         else tb.cythonPyimports),
        c2pyConv := if n == 4 then Put(s.c2pyConv, name, AsStatic(C2pyTuple(spec.cythonC2py).value)) else s.c2pyConv,
        py2cConv := if n == 4 then Put(s.py2cConv, name, AsStatic(Py2cPair(spec.cythonPy2c))) else s.py2cConv),
     r)
  }

  /** deregister_refinement: name leaves refinedTypes, the converters and the import tables; it never raises. */
  function RefinementDeregistered(s: Snapshot, name: Ty): Snapshot {
    var tb := s.tables;
    s.(tables := tb.(refinedTypes := tb.refinedTypes - {name},
                     refinedOrder := OrderWithout(tb.refinedOrder, name),
                     cythonCimports := Pop(tb.cythonCimports, name),
                     cythonCyimports := Pop(tb.cythonCyimports, name),
                     cythonPyimports := Pop(tb.cythonPyimports, name)),
       c2pyConv := Pop(s.c2pyConv, name),
       py2cConv := Pop(s.py2cConv, name))
  }

  /** Popping a key that was never listed leaves the order alone. */
  lemma {:induction false} OrderWithoutAbsent(order: seq<Ty>, k: Ty)
    requires k !in order
    ensures OrderWithout(order, k) == order
    decreases |order|
  {
    if order != [] {
      assert order[0] != k;
      OrderWithoutAbsent(order[1..], k);
      assert [order[0]] + order[1..] == order;
    }
  }

  /** Popping the key that was appended last gives the order before the append. */
  lemma {:induction false} OrderWithoutAppended(order: seq<Ty>, k: Ty)
    requires k !in order
    ensures OrderWithout(order + [k], k) == order
    decreases |order|
  {
    if order == [] {
      assert [k][1..] == [];
    } else {
      assert (order + [k])[0] == order[0] && (order + [k])[1..] == order[1..] + [k];
      OrderWithoutAppended(order[1..], k);
      assert [order[0]] + order[1..] == order;
    }
  }

  /** name appears in none of the tables register_refinement writes. */
  predicate RefinementFresh(s: Snapshot, name: Ty) {
    var tb := s.tables;
    name !in tb.refinedTypes && name !in tb.cythonCimports && name !in tb.cythonCyimports
    && name !in tb.cythonPyimports && name !in s.c2pyConv && name !in s.py2cConv
  }

  /**
   * Deregistering a refinement just registered under a fresh name gives
   * back the state before, refinedOrder included.
   */
  lemma RefinementRoundTrip(s: Snapshot, name: Ty, parent: Ty, spec: RefinementSpec)
    requires OrderValid(s.tables) && RefinementFresh(s, name)
    requires RefinementRegistered(s, name, parent, spec).1.Ok?
    ensures RefinementDeregistered(RefinementRegistered(s, name, parent, spec).0, name) == s
  {
    var tb := s.tables;
    assert name !in tb.refinedOrder;
    OrderWithoutAppended(tb.refinedOrder, name);
    SetPop(tb.refinedTypes, name, parent);
    SetPop(tb.cythonCimports, name, Items(EnsureImportable(spec.cythonCimport).value));
    SetPop(tb.cythonCyimports, name, Items(EnsureImportable(spec.cythonCyimport).value));
    SetPop(tb.cythonPyimports, name, Items(EnsureImportable(spec.cythonPyimport).value));
    PutPop(s.c2pyConv, name, AsStatic(C2pyTuple(spec.cythonC2py).value));
    PutPop(s.py2cConv, name, AsStatic(Py2cPair(spec.cythonPy2c)));
  }

  /** Appending a key not yet listed keeps every key listed once. */
  lemma AppendDistinct(order: seq<Ty>, k: Ty)
    requires Distinct(order) && k !in order
    ensures Distinct(order + [k])
  {
    forall i, j | 0 <= i < j < |order + [k]| ensures (order + [k])[i] != (order + [k])[j] {
      assert (order + [k])[i] == order[i];
      if j < |order| {
        assert (order + [k])[j] == order[j];
      }
    }
  }

  /** Setting a key keeps the order listing the keys once each: a new key goes last. */
  lemma OrderAfterSetLists(order: seq<Ty>, refined: map<Ty, Ty>, k: Ty, v: Ty)
    requires Lists(order, refined)
    ensures Lists(OrderAfterSet(order, refined.Keys, k), refined[k := v])
  {
    if k !in refined {
      AppendDistinct(order, k);
    }
  }

  /** Popping a key keeps the order listing the keys once each. */
  lemma OrderWithoutLists(order: seq<Ty>, refined: map<Ty, Ty>, k: Ty)
    requires Lists(order, refined)
    ensures Lists(OrderWithout(order, k), refined - {k})
  {
    OrderWithoutDistinct(order, k);
  }

  /** Registering keeps refinedOrder listing the keys of refinedTypes once each, even when it stops part way. */
  lemma RefinementRegisteredKeepsOrder(s: Snapshot, name: Ty, parent: Ty, spec: RefinementSpec)
    requires OrderValid(s.tables)
    ensures OrderValid(RefinementRegistered(s, name, parent, spec).0.tables)
  {
    OrderAfterSetLists(s.tables.refinedOrder, s.tables.refinedTypes, name, parent);
  }

  /** So does deregistering. */
  lemma RefinementDeregisteredKeepsOrder(s: Snapshot, name: Ty)
    requires OrderValid(s.tables)
    ensures OrderValid(RefinementDeregistered(s, name).tables)
  {
    OrderWithoutLists(s.tables.refinedOrder, s.tables.refinedTypes, name);
  }

  // ---------------------------------------------------------------------
  // register_specialization and deregister_specialization

  /** The arguments of register_specialization after the type. */
  datatype SpecializationSpec = SpecializationSpec(cythonCType: Option<Spelling>, cythonCyType: Option<Spelling>,
                                                   cythonPyType: Option<Spelling>, cythonCimport: Ty,
                                                   cythonCyimport: Ty, cythonPyimport: Ty)

  /** register_specialization once t is canonical (c): the entries given, imports stored as they are. */
  function SpecializationRegistered(tb: Registry, c: Ty, spec: SpecializationSpec): Registry {
    tb.(cythonCtypes := Put(tb.cythonCtypes, c, spec.cythonCType),
        cythonCytypes := Put(tb.cythonCytypes, c, spec.cythonCyType),
        cythonPytypes := Put(tb.cythonPytypes, c, spec.cythonPyType),
        cythonCimports := Put(tb.cythonCimports, c, AsItems(spec.cythonCimport)),
        cythonCyimports := Put(tb.cythonCyimports, c, AsItems(spec.cythonCyimport)),
        cythonPyimports := Put(tb.cythonPyimports, c, AsItems(spec.cythonPyimport)))
  }

  /** deregister_specialization once t is canonical (c). */
  function SpecializationDeregistered(tb: Registry, c: Ty): Registry {
    tb.(cythonCtypes := tb.cythonCtypes - {c}, cythonCytypes := tb.cythonCytypes - {c},
        cythonPytypes := tb.cythonPytypes - {c}, cythonCimports := tb.cythonCimports - {c},
        cythonCyimports := tb.cythonCyimports - {c}, cythonPyimports := tb.cythonPyimports - {c})
  }

  /** Deregistering a specialization just registered for a fresh canonical type gives back the tables. */
  lemma SpecializationRoundTrip(tb: Registry, c: Ty, spec: SpecializationSpec)
    requires c !in tb.cythonCtypes && c !in tb.cythonCytypes && c !in tb.cythonPytypes
    requires c !in tb.cythonCimports && c !in tb.cythonCyimports && c !in tb.cythonPyimports
    ensures SpecializationDeregistered(SpecializationRegistered(tb, c, spec), c) == tb
  {
    PutPop(tb.cythonCtypes, c, spec.cythonCType);
    PutPop(tb.cythonCytypes, c, spec.cythonCyType);
    PutPop(tb.cythonPytypes, c, spec.cythonPyType);
    PutPop(tb.cythonCimports, c, AsItems(spec.cythonCimport));
    PutPop(tb.cythonCyimports, c, AsItems(spec.cythonCyimport));
    PutPop(tb.cythonPyimports, c, AsItems(spec.cythonPyimport));
  }

  // ---------------------------------------------------------------------
  // register_numpy_dtype

  /**
   * The new cimport entry: only when an argument is given, the existing
   * tuples followed by the argument's. Both sides are normalised before the
   * concatenation, so a callable existing entry, which _ensure_importable
   * hands back as it is, fails only once the argument has been normalised.
   */
  function DtypeCimports(table: map<Ty, ImportEntry>, c: Ty, ci: Ty): (r: Result<Option<ImportEntry>>)
    ensures ci == Nil ==> r == Ok(None)
  {
    if ci == Nil then Ok(None)
    else if c in table && table[c].Collector? then
      var _ :- EnsureImportable(ci);
      Err(TypeError)
    else
      var x :- ExistingImports(table, c);
      var y :- EnsureImportable(ci);
      var z :- Concat(x, y);
      Ok(Some(Items(z)))
  }

  /**
   * The stored cimport entry holds the existing entry's tuples followed by
   * the argument's; the existing entry is normalised first, then the
   * argument, and only then are the two concatenated, so a callable
   * existing entry raises the argument's IndexError for () and a TypeError
   * otherwise.
   */
  lemma DtypeCimportsOrder(table: map<Ty, ImportEntry>, c: Ty, ci: Ty)
    requires ci != Nil
    ensures var r := DtypeCimports(table, c, ci);
      r.Ok? ==>
        (c !in table || table[c].Items?) &&
        ExistingImports(table, c).Ok? && ExistingImports(table, c).value.T? &&
        EnsureImportable(ci).Ok? && EnsureImportable(ci).value.T? &&
        r.value == Some(Items(T(ExistingImports(table, c).value.items + EnsureImportable(ci).value.items)))
    ensures c in table && table[c].Collector? ==>
      DtypeCimports(table, c, ci) == Err(if ci == T([]) then IndexError else TypeError)
    ensures (c !in table || table[c].Items?) && ExistingImports(table, c).Err? ==>
      DtypeCimports(table, c, ci) == Err(ExistingImports(table, c).error)
    ensures ExistingImports(table, c).Ok? && ci == T([]) ==> DtypeCimports(table, c, ci) == Err(IndexError)
  { }

  /**
   * How far the three import entries of register_numpy_dtype get: n of
   * them are stored, and the first that raises is the outcome.
   */
  function DtypeImportSteps(cimports: map<Ty, ImportEntry>, cyimports: map<Ty, ImportEntry>,
                            pyimports: map<Ty, ImportEntry>, c: Ty, ci: Ty, cyi: Ty, pyi: Ty)
    : (r: (nat, Result<()>))
    ensures r.0 <= 3 && (r.1.Ok? <==> r.0 == 3)
    ensures r.0 >= 1 <==> DtypeCimports(cimports, c, ci).Ok?
    ensures r.0 >= 2 <==> r.0 >= 1 && DtypeImports(cyimports, c, cyi).Ok?
    ensures r.0 == 3 <==> r.0 >= 2 && DtypeImports(pyimports, c, pyi).Ok?
    ensures r.0 == 0 ==> r.1 == Err(DtypeCimports(cimports, c, ci).error)
    ensures r.0 == 1 ==> r.1 == Err(DtypeImports(cyimports, c, cyi).error)
    ensures r.0 == 2 ==> r.1 == Err(DtypeImports(pyimports, c, pyi).error)
  {
    var a := DtypeCimports(cimports, c, ci);
    if a.Err? then (0, Err(a.error))
    else
      var b := DtypeImports(cyimports, c, cyi);
      if b.Err? then (1, Err(b.error))
      else
        var p := DtypeImports(pyimports, c, pyi);
        if p.Err? then (2, Err(p.error)) else (3, Ok(()))
  }

  /**
   * register_numpy_dtype once t is canonical (c): nothing when c already
   * has a numpy type; otherwise, with v the variable name of c, the numpy
   * name '{dtypes}xd_<v>.num' and five aliases of c, then the import
   * entries, any of which may raise and leave the later ones unwritten.
   */
  function DtypeRegistered(tb: Registry, c: Ty, ci: Ty, cyi: Ty, pyi: Ty): (Registry, Result<()>) {
    if c in tb.numpyTypes then (tb, Ok(()))
    else
      var vn := CythonFunctionname(tb, c, MaxDepth);
      if vn.Err? then (tb, Err(vn.error))
      else
        var v := vn.value.1;
        var (n, r) := DtypeImportSteps(tb.cythonCimports, tb.cythonCyimports, tb.cythonPyimports, c, ci, cyi, pyi);
        (tb.(numpyTypes := tb.numpyTypes[c := NumpyName(v)],
             typeAliases := tb.typeAliases + DtypeAliases(v, c),
             cythonCimports := if n >= 1 then Put(tb.cythonCimports, c, DtypeCimports(tb.cythonCimports, c, ci).value)
                               else tb.cythonCimports,
             cythonCyimports := if n >= 2 then tb.cythonCyimports[c := Items(DtypeImports(tb.cythonCyimports, c, cyi).value)]
                                else tb.cythonCyimports,
             cythonPyimports := if n == 3 then tb.cythonPyimports[c := Items(DtypeImports(tb.cythonPyimports, c, pyi).value)]
                                else tb.cythonPyimports), r)
  }

  /** An import entry whose first tuple brings in the dtypes module. */
  predicate DtypeImported(v: Ty) {
    v.T? && |v.items| >= 1 && v.items[0] == T([S("{dtypes}")])
  }

  /**
   * A registration that completes leaves c with cyimport and pyimport
   * entries whose first tuple imports the dtypes module, and nothing but
   * the numpy name, the aliases and the three import tables changed.
   */
  lemma DtypeImportsLead(tb: Registry, c: Ty, ci: Ty, cyi: Ty, pyi: Ty)
    requires c !in tb.numpyTypes && DtypeRegistered(tb, c, ci, cyi, pyi).1.Ok?
    ensures var tb1 := DtypeRegistered(tb, c, ci, cyi, pyi).0;
      c in tb1.cythonCyimports && c in tb1.cythonPyimports
      && tb1.cythonCyimports[c].Items? && tb1.cythonPyimports[c].Items?
      && DtypeImported(tb1.cythonCyimports[c].v) && DtypeImported(tb1.cythonPyimports[c].v)
      && tb1.(numpyTypes := tb.numpyTypes, typeAliases := tb.typeAliases, cythonCimports := tb.cythonCimports,
              cythonCyimports := tb.cythonCyimports, cythonPyimports := tb.cythonPyimports) == tb
  {
    var n := DtypeImportSteps(tb.cythonCimports, tb.cythonCyimports, tb.cythonPyimports, c, ci, cyi, pyi).0;
    assert n == 3;
  }

  /**
   * Once c is registered, even when an import step then raises, c has its
   * numpy name and that name is an alias canonicalising as c does.
   */
  lemma DtypeNamed(tb: Registry, c: Ty, ci: Ty, cyi: Ty, pyi: Ty, fuel: nat)
    requires c !in tb.numpyTypes && CythonFunctionname(tb, c, MaxDepth).Ok?
    ensures var v := CythonFunctionname(tb, c, MaxDepth).value.1;
      var tb1 := DtypeRegistered(tb, c, ci, cyi, pyi).0;
      c in tb1.numpyTypes && tb1.numpyTypes[c] == NumpyName(v)
      && (forall k :: k in DtypeAliases(v, c) ==> k in tb1.typeAliases && tb1.typeAliases[k] == c)
      && (S(NumpyName(v)) !in tb1.baseTypes ==> Canon(tb1, S(NumpyName(v)), fuel + 1) == Canon(tb1, c, fuel))
  {
    var v := CythonFunctionname(tb, c, MaxDepth).value.1;
    var tb1 := DtypeRegistered(tb, c, ci, cyi, pyi).0;
    assert tb1.typeAliases == tb.typeAliases + DtypeAliases(v, c);
    assert S(NumpyName(v)) in tb1.typeAliases && tb1.typeAliases[S(NumpyName(v))] == c;
    if S(NumpyName(v)) !in tb1.baseTypes {
      assert Canon(tb1, S(NumpyName(v)), fuel + 1) == CanonName(tb1, S(NumpyName(v)), fuel + 1);
    }
  }

  /** A second registration of the same canonical type changes nothing, whatever its import arguments. */
  lemma DtypeOnce(tb: Registry, c: Ty, ci: Ty, cyi: Ty, pyi: Ty, ci2: Ty, cyi2: Ty, pyi2: Ty)
    requires c in tb.numpyTypes || CythonFunctionname(tb, c, MaxDepth).Ok?
    ensures var tb1 := DtypeRegistered(tb, c, ci, cyi, pyi).0;
      DtypeRegistered(tb1, c, ci2, cyi2, pyi2) == (tb1, Ok(()))
  {
  }

  // ---------------------------------------------------------------------
  // register_argument_kinds and deregister_argument_kinds

  /**
   * Deregistering the argument kinds just registered for t finds the same
   * canonical type through the memo the registration filled, and removes
   * the entry again.
   */
  lemma ArgumentKindsRoundTrip(cache: map<Ty, Ty>, tb: Registry, t: Ty, kinds: seq<ArgKind>)
    requires CanonMemo(cache, tb, t).Ok? && CanonMemo(cache, tb, t).value !in tb.argumentKinds
    ensures var c := CanonMemo(cache, tb, t).value;
      var tb1 := tb.(argumentKinds := tb.argumentKinds[c := kinds]);
      CanonMemo(MemoAfter(cache, tb, t), tb1, t) == Ok(c) && tb1.argumentKinds - {c} == tb.argumentKinds
  {
    var c := CanonMemo(cache, tb, t).value;
    SetPop(tb.argumentKinds, c, kinds);
  }

  // ---------------------------------------------------------------------
  // register_variable_namespace

  /**
   * The loop over an enum's (name, value) pairs, each name registered in
   * the namespace in turn; an item that does not unpack into two stops it.
   */
  function EnumNamespaces(vns: map<Ty, string>, vals: seq<Ty>, ns: string): (r: (map<Ty, string>, Result<()>))
    decreases |vals|
  {
    if vals == [] then (vns, Ok(()))
    else
      var (m, r) := EnumNamespaces(vns, vals[..|vals| - 1], ns);
      if r.Err? then (m, r)
      else match Unpack2(vals[|vals| - 1])
        case Err(e) => (m, Err(e))
        case Ok(p) => (m[p.0 := ns], Ok(()))
  }

  /** A completed loop gives every enumerator name the namespace and leaves the other names alone. */
  lemma {:induction false} EnumNamespacesSet(vns: map<Ty, string>, vals: seq<Ty>, ns: string)
    requires EnumNamespaces(vns, vals, ns).1.Ok?
    ensures PairHeads(vals).Ok?
    ensures var m := EnumNamespaces(vns, vals, ns).0;
      (forall n :: n in PairHeads(vals).value ==> n in m && m[n] == ns)
      && (forall k :: k in m <==> k in vns || k in PairHeads(vals).value)
      && (forall k :: k in vns && k !in PairHeads(vals).value ==> m[k] == vns[k])
    decreases |vals|
  {
    if vals != [] {
      var init := vals[..|vals| - 1];
      EnumNamespacesSet(vns, init, ns);
      var p := Unpack2(vals[|vals| - 1]).value;
      assert PairHeads(vals).value == PairHeads(init).value + [p.0];
    }
  }

  /** A loop stopped at an item stops every longer loop there too. */
  lemma {:induction false} EnumNamespacesPrefixErr(vns: map<Ty, string>, vals: seq<Ty>, i: nat, ns: string)
    requires i <= |vals| && EnumNamespaces(vns, vals[..i], ns).1.Err?
    ensures EnumNamespaces(vns, vals, ns) == EnumNamespaces(vns, vals[..i], ns)
    decreases |vals| - i
  {
    if i < |vals| {
      assert vals[..i + 1][..i] == vals[..i];
      EnumNamespacesPrefixErr(vns, vals, i + 1, ns);
    } else {
      assert vals[..i] == vals;
    }
  }

  /** The enumerator list of an enum's canonical form: c[1][2][2], which must be a sequence. */
  function EnumeratorList(c: Ty): (r: Result<seq<Ty>>) {
    var c1 :- At(c, 1);
    var c12 :- At(c1, 2);
    var vals :- At(c12, 2);
    if IsSeq(vals) then Ok(PyItems(vals)) else Err(TypeError)
  }

  /**
   * register_variable_namespace(name, ns, t): name gets the namespace; when
   * t is an enum, so does each of its enumerators (each of those calls
   * finds its own, absent, type not to be an enum). ct is canon(t) as the
   * memo answers it.
   */
  function NamespaceRegistered(vns: map<Ty, string>, name: Ty, ns: string, ct: Result<Ty>)
    : (r: (map<Ty, string>, Result<()>))
    ensures name in r.0 && r.0[name] == ns
    ensures IsEnumOf(ct) == Ok(false) ==> r == (vns[name := ns], Ok(()))
  {
    var vns1 := vns[name := ns];
    var e := IsEnumOf(ct);
    if e.Err? then (vns1, Err(e.error))
    else if !e.value then (vns1, Ok(()))
    else
      var vals := EnumeratorList(ct.value);
      if vals.Err? then (vns1, Err(vals.error))
      else
        var r := EnumNamespaces(vns1, vals.value, ns);
        EnumNamespacesKeeps(vns1, vals.value, ns, name);
        r
  }

  /** The loop never removes a name, and gives the names it touches the namespace. */
  lemma {:induction false} EnumNamespacesKeeps(vns: map<Ty, string>, vals: seq<Ty>, ns: string, k: Ty)
    requires k in vns
    ensures var m := EnumNamespaces(vns, vals, ns).0; k in m && (m[k] == vns[k] || m[k] == ns)
    decreases |vals|
  {
    if vals != [] {
      EnumNamespacesKeeps(vns, vals[..|vals| - 1], ns, k);
    }
  }

  // ---------------------------------------------------------------------
  // update

  /** A string attribute after update: the other system's value when it has one. */
  function Override(mine: Option<string>, theirs: Option<string>): Option<string> {
    if theirs.Some? then theirs else mine
  }

  /**
   * update(other): every table merges other's entries over its own (sets
   * by union, refinedOrder appending the new keys in other's order), and
   * each string attribute other has replaces this one. An attribute other
   * has and this system lacks is an AttributeError.
   */
  function Updated(s: Snapshot, o: Snapshot): (r: Result<Snapshot>)
    ensures r.Err? <==> (o.extraTypes.Some? && s.extraTypes.None?) || (o.dtypes.Some? && s.dtypes.None?)
                        || (o.stlcontainers.Some? && s.stlcontainers.None?)
  {
    if (o.extraTypes.Some? && s.extraTypes.None?) || (o.dtypes.Some? && s.dtypes.None?)
       || (o.stlcontainers.Some? && s.stlcontainers.None?) then Err(AttributeError)
    else
      var a, b := s.tables, o.tables;
      Ok(Snapshot(
        Registry(a.baseTypes + b.baseTypes, a.templateTypes + b.templateTypes, a.refinedTypes + b.refinedTypes,
                 OrderAfterUpdate(a.refinedOrder, b.refinedOrder), a.typeAliases + b.typeAliases,
                 a.humannames + b.humannames, a.argumentKinds + b.argumentKinds,
                 a.variableNamespace + b.variableNamespace, a.cppTypes + b.cppTypes, a.numpyTypes + b.numpyTypes,
                 a.cythonCtypes + b.cythonCtypes, a.cythonCytypes + b.cythonCytypes,
                 a.cythonPytypes + b.cythonPytypes, a.cythonCimports + b.cythonCimports,
                 a.cythonCyimports + b.cythonCyimports, a.cythonPyimports + b.cythonPyimports,
                 a.cythonFunctionnames + b.cythonFunctionnames, a.cythonClassnames + b.cythonClassnames),
        s.fromPytypes + o.fromPytypes, s.c2pyConv + o.c2pyConv, s.py2cConv + o.py2cConv,
        Override(s.extraTypes, o.extraTypes), Override(s.dtypes, o.dtypes),
        Override(s.stlcontainers, o.stlcontainers)))
  }

  /**
   * update's check of its arguments as written: one positional argument
   * alone, or keywords only, are accepted; any other call reaches
   * msg.fomat(...), and the misspelt method is an AttributeError.
   */
  function UpdateSignatureAsWritten(nargs: nat, nkwargs: nat): (r: Result<()>)
    ensures r.Ok? <==> (nargs == 1 && nkwargs == 0) || nargs == 0
    ensures r.Err? ==> r.error == AttributeError
  {
    if (nargs == 1 && nkwargs == 0) || nargs == 0 then Ok(()) else Err(AttributeError)
  }

  /** The same check as intended: an invalid signature is a TypeError. */
  function UpdateSignature(nargs: nat, nkwargs: nat): (r: Result<()>)
    ensures r.Ok? <==> (nargs == 1 && nkwargs == 0) || nargs == 0
    ensures r.Err? ==> r.error == TypeError
  {
    if (nargs == 1 && nkwargs == 0) || nargs == 0 then Ok(()) else Err(TypeError)
  }

  /** The two checks accept the same calls and disagree on the exception for every other one. */
  lemma UpdateSignatureTypo(nargs: nat, nkwargs: nat)
    ensures UpdateSignatureAsWritten(nargs, nkwargs).Ok? <==> UpdateSignature(nargs, nkwargs).Ok?
    ensures UpdateSignature(nargs, nkwargs).Err? ==>
      UpdateSignatureAsWritten(nargs, nkwargs) == Err(AttributeError) && UpdateSignature(nargs, nkwargs) == Err(TypeError)
  { }

  /** Appending keys that are all listed already changes nothing. */
  lemma {:induction false} OrderAfterUpdateKnown(order: seq<Ty>, more: seq<Ty>)
    requires forall x :: x in more ==> x in order
    ensures OrderAfterUpdate(order, more) == order
    decreases |more|
  {
    if more != [] {
      assert forall x :: x in more[..|more| - 1] ==> x in more;
      OrderAfterUpdateKnown(order, more[..|more| - 1]);
      assert more[|more| - 1] in more;
    }
  }

  /** Updating a system with its own contents gives it back unchanged. */
  lemma UpdateSelf(s: Snapshot)
    requires OrderValid(s.tables)
    ensures Updated(s, s) == Ok(s)
  {
    var a := s.tables;
    OrderAfterUpdateKnown(a.refinedOrder, a.refinedOrder);
    MergeSelf(a.templateTypes); MergeSelf(a.refinedTypes); MergeSelf(a.typeAliases); MergeSelf(a.humannames);
    MergeSelf(a.argumentKinds); MergeSelf(a.variableNamespace); MergeSelf(a.cppTypes); MergeSelf(a.numpyTypes);
    MergeSelf(a.cythonCtypes); MergeSelf(a.cythonCytypes); MergeSelf(a.cythonPytypes); MergeSelf(a.cythonCimports);
    MergeSelf(a.cythonCyimports); MergeSelf(a.cythonPyimports); MergeSelf(a.cythonFunctionnames);
    MergeSelf(a.cythonClassnames); MergeSelf(s.fromPytypes); MergeSelf(s.c2pyConv); MergeSelf(s.py2cConv);
    assert a.baseTypes + a.baseTypes == a.baseTypes;
  }

  /** A table merged with itself. */
  lemma MergeSelf<V>(m: map<Ty, V>)
    ensures m + m == m
  { }

  /** Updating keeps refinedOrder listing the keys of refinedTypes once each. */
  lemma UpdateKeepsOrder(s: Snapshot, o: Snapshot)
    requires OrderValid(s.tables) && OrderValid(o.tables) && Updated(s, o).Ok?
    ensures OrderValid(Updated(s, o).value.tables)
  {
    OrderAfterUpdateLists(s.tables.refinedOrder, s.tables.refinedTypes, o.tables.refinedOrder, o.tables.refinedTypes);
  }

  /** Merging two dicts keeps the merged order listing the merged keys once each. */
  lemma OrderAfterUpdateLists(order: seq<Ty>, refined: map<Ty, Ty>, more: seq<Ty>, refined2: map<Ty, Ty>)
    requires Lists(order, refined) && Lists(more, refined2)
    ensures Lists(OrderAfterUpdate(order, more), refined + refined2)
  {
    OrderAfterUpdateDistinct(order, more);
  }
}
