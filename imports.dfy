/**
 * The import collectors: the cimport (or import) tuples a type needs,
 * gathered into a set threaded through the recursion, and the directive
 * lines those tuples become.
 *
 * Collect is the specification: what a call adds, independently of the set
 * it is handed. CollectInto is the collector as written, updating the set
 * step by step, and is proved to agree with Collect.
 */
module Imports {
  import opened Values
  import opened Registry
  import opened Canonical

  /** None and (None,): the placeholders removed from every result. */
  function Sentinels(): set<Ty> {
    {Nil, T([Nil])}
  }

  /** _ensure_importable: a module name (or None) becomes ((x,),); a single import tuple becomes (x,). */
  function EnsureImportable(x: Ty): (r: Result<Ty>)
    ensures x.S? || x == Nil ==> r == Ok(T([T([x])]))
    ensures r.Err? <==> x == T([])
    ensures r.Err? ==> r.error == IndexError
    ensures x.T? && |x.items| > 0 && (x.items[0].S? || x.items[0] == Nil) ==> r == Ok(T([x]))
    ensures x.T? && |x.items| > 0 && !(x.items[0].S? || x.items[0] == Nil) ==> r == Ok(x)
  {
    if x.S? || x == Nil then Ok(T([T([x])]))
    else if x.T? then
      if |x.items| == 0 then Err(IndexError)
      else if x.items[0].S? || x.items[0] == Nil then Ok(T([x]))
      else Ok(x)
    else Ok(x)
  }

  /** Normalising an import entry twice is normalising it once. */
  lemma EnsureImportableIdempotent(x: Ty)
    requires EnsureImportable(x).Ok?
    ensures EnsureImportable(EnsureImportable(x).value) == EnsureImportable(x)
  { }

  /** set.update(entry): the tuples of an entry; a callable is not iterable. */
  function EntryTuples(e: ImportEntry): (r: Result<set<Ty>>)
    ensures r.Ok? <==> e.Items? && IsSeq(e.v)
    ensures r.Ok? ==> forall x :: x in r.value <==> x in PyItems(e.v)
  {
    if e.Items? && IsSeq(e.v) then Ok(set x | x in PyItems(e.v)) else Err(TypeError)
  }

  /** The tuples of each table's entry for key, in order; a table without the key is a KeyError. */
  function TableTuples(tables: seq<map<Ty, ImportEntry>>, key: Ty): (r: Result<set<Ty>>)
    ensures r.Ok? ==> forall i :: 0 <= i < |tables| ==> key in tables[i] && EntryTuples(tables[i][key]).Ok?
    ensures r.Ok? ==> forall x :: x in r.value <==>
      exists i :: 0 <= i < |tables| && x in EntryTuples(tables[i][key]).value
    ensures (exists i :: 0 <= i < |tables| && key !in tables[i]) ==> r.Err?
  {
    if tables == [] then Ok({})
    else if key !in tables[0] then Err(KeyError)
    else
      var a :- EntryTuples(tables[0][key]);
      var rest :- TableTuples(tables[1..], key);
      assert forall i :: 1 <= i < |tables| ==> tables[i] == tables[1..][i - 1];
      assert forall x :: x in rest <==> exists i :: 1 <= i < |tables| && x in EntryTuples(tables[i][key]).value by {
        forall x ensures x in rest <==> exists i :: 1 <= i < |tables| && x in EntryTuples(tables[i][key]).value {
          if x in rest {
            var j :| 0 <= j < |tables[1..]| && x in EntryTuples(tables[1..][j][key]).value;
            assert x in EntryTuples(tables[j + 1][key]).value;
          }
        }
      }
      Ok(a + rest)
  }

  /** table.get(key, (None,)). */
  function GetTuples(table: map<Ty, ImportEntry>, key: Ty): Result<set<Ty>> {
    if key in table then EntryTuples(table[key]) else Ok({Nil})
  }

  /**
   * What one table adds for a pair (t0, t1): the tuples a callable entry for
   * a refinement's head produces from the refinement, then the entries for
   * t0 and for t1, if any.
   */
  function PairTuples(tb: Registry, table: map<Ty, ImportEntry>, t0: Ty, t1: Ty): Result<set<Ty>> {
    var isRef :- IsRefinement(tb, t1);
    var fromRef :-
      if isRef then
        var h :- At(t1, 0);
        Ok(if h in table && table[h].Collector? then table[h].f(t1) else {})
      else Ok({});
    var a :- GetTuples(table, t0);
    var b :- GetTuples(table, t1);
    Ok(fromRef + a + b)
  }

  function PairTuplesAll(tb: Registry, tables: seq<map<Ty, ImportEntry>>, t0: Ty, t1: Ty): Result<set<Ty>> {
    if tables == [] then Ok({})
    else
      var a :- PairTuples(tb, tables[0], t0, t1);
      var rest :- PairTuplesAll(tb, tables[1..], t0, t1);
      Ok(a + rest)
  }

  /**
   * The outcome of one collector call: the tuples it adds, whether it
   * removed the placeholders, and whether it returns the set (rather than
   * falling off its end and returning None).
   */
  datatype Gathered = Gathered(added: set<Ty>, cleaned: bool, returned: bool)

  /** A template slot that is not searched: a number, or a string without a cimport entry. */
  predicate Skipped(skip: map<Ty, ImportEntry>, x: Ty) {
    x.N? || (x.S? && x !in skip)
  }

  /**
   * What cython_cimport_tuples (tables cimports and cyimports, as inc asks)
   * or cython_import_tuples (table pyimports) adds for t. Both skip string
   * slots by the cimport table.
   */
  function Collect(tb: Registry, tables: seq<map<Ty, ImportEntry>>, skip: map<Ty, ImportEntry>, t: Ty, fuel: nat)
    : (r: Result<Gathered>)
    ensures r.Ok? && !r.value.cleaned ==> r.value.added == {} && !r.value.returned
    decreases fuel, 1
  {
    if fuel == 0 then Err(RecursionLimit)
    else
      var c :- Canon(tb, t, fuel);
      CollectCanon(tb, tables, skip, c, fuel)
  }

  /** What a collector adds for a type already in canonical form c. */
  function CollectCanon(tb: Registry, tables: seq<map<Ty, ImportEntry>>, skip: map<Ty, ImportEntry>, c: Ty, fuel: nat)
    : (r: Result<Gathered>)
    requires fuel > 0
    ensures r.Ok? && !r.value.cleaned ==> r.value.added == {} && !r.value.returned
    decreases fuel, 0
  {
    if c.S? && c in tb.baseTypes then
      var a :- TableTuples(tables, c);
      Ok(Gathered(a, true, true))
    else
      var items := PyItems(c);
      if |items| == 2 then
        var a :- PairTuplesAll(tb, tables, items[0], items[1]);
        var sub :- Collect(tb, tables, skip, items[0], fuel - 1);
        Ok(Gathered(a + sub.added, true, sub.returned))
      else if |items| >= 3 then
        if items[0] !in tb.templateTypes then Err(AssertionError)
        else
          var a :- TableTuples(tables, items[0]);
          var subs :- CollectSlots(tb, tables, skip, Mid(items), fuel - 1);
          Ok(Gathered(a + subs, true, true))
      else Ok(Gathered({}, false, false))
  }

  /** What the searched slots add, in order; the first failing slot decides the error. */
  function CollectSlots(tb: Registry, tables: seq<map<Ty, ImportEntry>>, skip: map<Ty, ImportEntry>, xs: seq<Ty>, fuel: nat)
    : Result<set<Ty>>
    decreases fuel, 2, |xs|
  {
    if xs == [] then Ok({})
    else
      var before :- CollectSlots(tb, tables, skip, xs[..|xs| - 1], fuel);
      var x := xs[|xs| - 1];
      if Skipped(skip, x) then Ok(before)
      else
        var g :- Collect(tb, tables, skip, x, fuel);
        Ok(before + g.added)
  }

  /** The set a collector call leaves behind from seen, and whether it returns it. */
  function Outcome(seen: set<Ty>, g: Result<Gathered>): Result<(set<Ty>, bool)> {
    match g
    case Err(e) => Err(e)
    case Ok(v) => Ok((if v.cleaned then (seen + v.added) - Sentinels() else seen, v.returned))
  }

  /** Adding to two sets that agree outside the placeholders keeps them agreeing. */
  lemma CleanUnion(a: set<Ty>, b: set<Ty>, x: set<Ty>)
    requires a - Sentinels() == b - Sentinels()
    ensures ((a + x) - Sentinels()) - Sentinels() == (b + x) - Sentinels()
    ensures a - Sentinels() + x - Sentinels() == (b + x) - Sentinels()
  {
    assert (a + x) - Sentinels() == (a - Sentinels()) + (x - Sentinels());
    assert (b + x) - Sentinels() == (b - Sentinels()) + (x - Sentinels());
  }

  /** A failing prefix of the slots fails any longer run of them the same way. */
  lemma {:induction false} CollectSlotsPrefixErr(tb: Registry, tables: seq<map<Ty, ImportEntry>>, skip: map<Ty, ImportEntry>,
                                                 xs: seq<Ty>, i: nat, fuel: nat)
    requires i <= |xs| && CollectSlots(tb, tables, skip, xs[..i], fuel).Err?
    ensures CollectSlots(tb, tables, skip, xs, fuel) == CollectSlots(tb, tables, skip, xs[..i], fuel)
    decreases |xs| - i
  {
    if i < |xs| {
      assert xs[..i + 1][..i] == xs[..i];
      CollectSlotsPrefixErr(tb, tables, skip, xs, i + 1, fuel);
    } else {
      assert xs[..i] == xs;
    }
  }

  /**
   * cython_cimport_tuples / cython_import_tuples as written: seen is updated
   * in place, and the result is the same as the specification's.
   */
  method CollectInto(tb: Registry, tables: seq<map<Ty, ImportEntry>>, skip: map<Ty, ImportEntry>, t: Ty,
                     seen0: set<Ty>, fuel: nat) returns (r: Result<(set<Ty>, bool)>)
    ensures r == Outcome(seen0, Collect(tb, tables, skip, t, fuel))
    decreases fuel, 1
  {
    if fuel == 0 {
      return Err(RecursionLimit);
    }
    var cr := Canon(tb, t, fuel);
    if cr.Err? {
      return Err(cr.error);
    }
    r := CollectCanonInto(tb, tables, skip, cr.value, seen0, fuel);
  }

  method CollectCanonInto(tb: Registry, tables: seq<map<Ty, ImportEntry>>, skip: map<Ty, ImportEntry>, c: Ty,
                          seen0: set<Ty>, fuel: nat) returns (r: Result<(set<Ty>, bool)>)
    requires fuel > 0
    ensures r == Outcome(seen0, CollectCanon(tb, tables, skip, c, fuel))
    decreases fuel, 0
  {
    var seen := seen0;
    if c.S? && c in tb.baseTypes {
      var a := TableTuples(tables, c);
      if a.Err? {
        return Err(a.error);
      }
      seen := seen + a.value;
      seen := seen - Sentinels();
      return Ok((seen, true));
    }
    var items := PyItems(c);
    if |items| == 2 {
      var a := PairTuplesAll(tb, tables, items[0], items[1]);
      if a.Err? {
        return Err(a.error);
      }
      seen := seen + a.value;
      seen := seen - Sentinels();
      r := CollectInto(tb, tables, skip, items[0], seen, fuel - 1);
      if r.Ok? {
        var sub := Collect(tb, tables, skip, items[0], fuel - 1).value;
        if sub.cleaned {
          assert (seen + sub.added) - Sentinels() == (seen0 + (a.value + sub.added)) - Sentinels();
        } else {
          assert a.value + sub.added == a.value;
        }
      }
    } else if |items| >= 3 {
      if items[0] !in tb.templateTypes {
        return Err(AssertionError);
      }
      var a := TableTuples(tables, items[0]);
      if a.Err? {
        return Err(a.error);
      }
      seen := seen + a.value;
      var sr := CollectSlotsInto(tb, tables, skip, Mid(items), seen, fuel - 1);
      if sr.Err? {
        return Err(sr.error);
      }
      ghost var subs := CollectSlots(tb, tables, skip, Mid(items), fuel - 1).value;
      assert (seen + subs) == seen0 + (a.value + subs);
      seen := sr.value - Sentinels();
      assert seen == (seen0 + (a.value + subs)) - Sentinels();
      r := Ok((seen, true));
    } else {
      r := Ok((seen, false));
    }
  }

  /** The loop over a template's slots: each searched slot is collected into seen in turn. */
  method CollectSlotsInto(tb: Registry, tables: seq<map<Ty, ImportEntry>>, skip: map<Ty, ImportEntry>, xs: seq<Ty>,
                          seen0: set<Ty>, fuel: nat) returns (r: Result<set<Ty>>)
    ensures r.Err? <==> CollectSlots(tb, tables, skip, xs, fuel).Err?
    ensures r.Err? ==> r.error == CollectSlots(tb, tables, skip, xs, fuel).error
    ensures r.Ok? ==> r.value - Sentinels() == (seen0 + CollectSlots(tb, tables, skip, xs, fuel).value) - Sentinels()
    decreases fuel, 2
  {
    var seen := seen0;
    var i := 0;
    while i < |xs|
      invariant 0 <= i <= |xs|
      invariant CollectSlots(tb, tables, skip, xs[..i], fuel).Ok?
      invariant seen - Sentinels() == (seen0 + CollectSlots(tb, tables, skip, xs[..i], fuel).value) - Sentinels()
    {
      var x := xs[i];
      assert xs[..i + 1][..i] == xs[..i] && xs[..i + 1][i] == x;
      ghost var before := CollectSlots(tb, tables, skip, xs[..i], fuel).value;
      if !Skipped(skip, x) {
        var sub := CollectInto(tb, tables, skip, x, seen, fuel);
        if sub.Err? {
          CollectSlotsPrefixErr(tb, tables, skip, xs, i + 1, fuel);
          return Err(sub.error);
        }
        var g := Collect(tb, tables, skip, x, fuel).value;
        assert CollectSlots(tb, tables, skip, xs[..i + 1], fuel) == Ok(before + g.added);
        CleanUnion(seen, seen0 + before, g.added);
        seen := sub.value.0;
      } else {
        assert CollectSlots(tb, tables, skip, xs[..i + 1], fuel) == Ok(before);
      }
      i := i + 1;
    }
    assert xs[..i] == xs;
    return Ok(seen);
  }

  /** Whatever set a collector returns holds neither placeholder. */
  lemma CollectedClean(tb: Registry, tables: seq<map<Ty, ImportEntry>>, skip: map<Ty, ImportEntry>, t: Ty,
                       seen: set<Ty>, fuel: nat)
    requires var o := Outcome(seen, Collect(tb, tables, skip, t, fuel)); o.Ok? && o.value.1
    ensures var o := Outcome(seen, Collect(tb, tables, skip, t, fuel)); Nil !in o.value.0 && T([Nil]) !in o.value.0
  { }

  /** Numeric slots add nothing. */
  lemma {:induction false} NumericSlotsAddNothing(tb: Registry, tables: seq<map<Ty, ImportEntry>>, skip: map<Ty, ImportEntry>,
                                                  xs: seq<Ty>, fuel: nat)
    requires forall i :: 0 <= i < |xs| ==> xs[i].N?
    ensures CollectSlots(tb, tables, skip, xs, fuel) == Ok({})
    decreases |xs|
  {
    if xs != [] {
      NumericSlotsAddNothing(tb, tables, skip, xs[..|xs| - 1], fuel);
    }
  }

  // ---------------------------------------------------------------------
  // Directive lines

  /** The keyword of a directive: "cimport" or "import". */
  datatype Directive = CimportKw | ImportKw

  function Keyword(d: Directive): string {
    match d
    case CimportKw => "cimport"
    case ImportKw => "import"
  }

  /**
   * The line for one tuple by its length: (m,) imports m, (m, v) imports v
   * from m, (m, 'as', a) imports m as a and (m, v, a) imports v from m as
   * a; other lengths have no case (KeyError).
   */
  function ImportLine(d: Directive, tup: Ty): (r: Result<string>)
    ensures !IsSeq(tup) ==> r == Err(TypeError)
    ensures IsSeq(tup) && (|PyItems(tup)| == 0 || |PyItems(tup)| > 3) ==> r == Err(KeyError)
    ensures r.Ok? ==> 1 <= |PyItems(tup)| <= 3
  {
    if !IsSeq(tup) then Err(TypeError)
    else
      var xs := PyItems(tup);
      var kw := Keyword(d);
      if |xs| == 1 then Ok(kw + " " + PyStr(xs[0]))
      else if |xs| == 2 then Ok("from " + PyStr(xs[0]) + " " + kw + " " + PyStr(xs[1]))
      else if |xs| == 3 then
        if xs[1] == S("as") then Ok(kw + " " + PyStr(xs[0]) + " as " + PyStr(xs[2]))
        else Ok("from " + PyStr(xs[0]) + " " + kw + " " + PyStr(xs[1]) + " as " + PyStr(xs[2]))
      else Err(KeyError)
  }

  /** A tuple that is to become a line: any value but an empty sequence. */
  predicate Written(tup: Ty) {
    !(IsSeq(tup) && |PyItems(tup)| == 0)
  }

  /**
   * cython_cimport_lines / cython_import_lines on a set of tuples: empty
   * tuples are dropped and every other tuple becomes its line.
   */
  function ImportLines(d: Directive, tuples: set<Ty>): (r: Result<set<string>>)
    ensures r.Ok? <==> forall tup :: tup in tuples && Written(tup) ==> ImportLine(d, tup).Ok?
    ensures r.Ok? ==> forall l :: l in r.value <==>
      exists tup :: tup in tuples && Written(tup) && ImportLine(d, tup) == Ok(l)
  {
    if forall tup :: tup in tuples && Written(tup) ==> ImportLine(d, tup).Ok? then
      Ok(set tup | tup in tuples && Written(tup) :: ImportLine(d, tup).value)
    else if exists tup :: tup in tuples && Written(tup) && !IsSeq(tup) then Err(TypeError)
    else Err(KeyError)
  }

  /** The 'as' form of a three-tuple renames the module itself. */
  lemma AliasedModuleLine(m: string, a: string)
    ensures ImportLine(CimportKw, T([S(m), S("as"), S(a)])) == Ok("cimport " + m + " as " + a)
    ensures ImportLine(ImportKw, T([S(m), S("as"), S(a)])) == Ok("import " + m + " as " + a)
  {
    var tup := T([S(m), S("as"), S(a)]);
    assert PyItems(tup) == [S(m), S("as"), S(a)];
    assert "cimport" + " " == "cimport " && "import" + " " == "import ";
  }

  /** An empty tuple contributes no line. */
  lemma EmptyTupleDropped(d: Directive, tuples: set<Ty>)
    ensures ImportLines(d, tuples + {T([])}) == ImportLines(d, tuples)
  {
    var more := tuples + {T([])};
    assert !Written(T([]));
    assert forall tup :: tup in more && Written(tup) <==> tup in tuples && Written(tup);
    if ImportLines(d, tuples).Ok? {
      var a, b := ImportLines(d, more), ImportLines(d, tuples);
      assert a.Ok?;
      forall l ensures l in a.value <==> l in b.value {
        if l in a.value {
          var tup :| tup in more && Written(tup) && ImportLine(d, tup) == Ok(l);
          assert tup in tuples;
        }
        if l in b.value {
          var tup :| tup in tuples && Written(tup) && ImportLine(d, tup) == Ok(l);
          assert tup in more;
        }
      }
      assert a.value == b.value;
    }
  }
}
