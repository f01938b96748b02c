/**
 * xdress/autoall.py: the plugin that resolves the '*' entries of the run
 * control's variables, functions and classes, and the finders that collect
 * the API names a source file declares from its parsed syntax tree.
 */
module AutoAll {
  import opened Values

  // ---------------------------------------------------------------------
  // The run control's wrapper lists

  /**
   * One entry of rc.variables, rc.functions or rc.classes: the tuple
   * (name, src) or (name, src, tar) as the sequence of its strings. The
   * name '*' stands for every API name of its kind that src declares.
   */
  type Entry = seq<string>

  predicate IsStar(e: Entry) { |e| > 0 && e[0] == "*" }

  /** An entry the first pass cannot index: empty, or a '*' without a source. */
  predicate Malformed(e: Entry) { |e| == 0 || (e[0] == "*" && |e| < 2) }

  predicate WellFormed(es: seq<Entry>) { forall i :: 0 <= i < |es| ==> !Malformed(es[i]) }

  predicate HasStar(es: seq<Entry>) { exists i :: 0 <= i < |es| && IsStar(es[i]) }

  /** The sources named by the '*' entries of a list. */
  function StarSources(es: seq<Entry>): set<string>
  {
    set i | 0 <= i < |es| && IsStar(es[i]) && |es[i]| >= 2 :: es[i][1]
  }

  /** (name, src) gets src as its target; every other entry is kept. */
  function Targeted(e: Entry): Entry { if |e| == 2 then [e[0], e[1], e[1]] else e }

  /** The first pass over a whole list. */
  function Expand(es: seq<Entry>): seq<Entry>
  {
    seq(|es|, i requires 0 <= i < |es| => Targeted(es[i]))
  }

  /** The three lists of the run control that the plugin rewrites. */
  class RunControl {
    var variables: seq<Entry>
    var functions: seq<Entry>
    var classes: seq<Entry>

    constructor (variables: seq<Entry>, functions: seq<Entry>, classes: seq<Entry>)
      ensures this.variables == variables && this.functions == functions && this.classes == classes
    {
      this.variables := variables;
      this.functions := functions;
      this.classes := classes;
    }
  }

  /** Which list of the run control, and which list of a file's found names. */
  datatype Kind = Variables | Functions | Classes

  /** What findall returns for one source file: its variables, functions and classes. */
  datatype Found = Found(variables: seq<string>, functions: seq<string>, classes: seq<string>)

  function Names(f: Found, k: Kind): seq<string>
  {
    match k
    case Variables => f.variables
    case Functions => f.functions
    case Classes => f.classes
  }

  /** (x, src, tar) for each x of names, in order. */
  function Stamped(names: seq<string>, src: string, tar: string): seq<Entry>
  {
    seq(|names|, i requires 0 <= i < |names| => [names[i], src, tar])
  }

  /**
   * What the third pass puts in place of one entry. A '*' entry looks up its
   * source first (KeyError when absent) and reads its target only once there
   * is a name to stamp, so a two-field '*' entry with no names found is
   * dropped without an IndexError.
   */
  function Piece(e: Entry, allnames: map<string, Found>, k: Kind): Result<seq<Entry>>
  {
    if |e| == 0 then Err(IndexError)
    else if e[0] != "*" then Ok([e])
    else if |e| < 2 then Err(IndexError)
    else if e[1] !in allnames then Err(KeyError)
    else if Names(allnames[e[1]], k) == [] then Ok([])
    else if |e| < 3 then Err(IndexError)
    else Ok(Stamped(Names(allnames[e[1]], k), e[1], e[2]))
  }

  /** The third pass over a whole list: the first failing entry decides the error. */
  function Replaced(es: seq<Entry>, allnames: map<string, Found>, k: Kind): Result<seq<Entry>>
  {
    if es == [] then Ok([])
    else
      var before :- Replaced(es[..|es| - 1], allnames, k);
      var p :- Piece(es[|es| - 1], allnames, k);
      Ok(before + p)
  }

  /** A list the third pass rewrites only when its flag is set. */
  function Pass(flag: bool, es: seq<Entry>, allnames: map<string, Found>, k: Kind): Result<seq<Entry>>
  {
    if flag then Replaced(es, allnames, k) else Ok(es)
  }

  lemma StarSourcesSnoc(es: seq<Entry>, e: Entry)
    ensures StarSources(es + [e]) == StarSources(es) + (if IsStar(e) && |e| >= 2 then {e[1]} else {})
  {
    var xs := es + [e];
    assert forall i :: 0 <= i < |es| ==> xs[i] == es[i];
    assert xs[|es|] == e;
  }

  /**
   * One list of the first pass: Targeted at every position, together with
   * the sources of its '*' entries and whether it has one; IndexError at the
   * first malformed entry.
   */
  method ExpandEntries(es: seq<Entry>) returns (r: Result<(seq<Entry>, set<string>, bool)>)
    ensures r.Err? <==> !WellFormed(es)
    ensures r.Err? ==> r.error == IndexError
    ensures r.Ok? ==> r.value.0 == Expand(es) && r.value.1 == StarSources(es) && (r.value.2 <==> HasStar(es))
  {
    var out := es;
    var srcs: set<string> := {};
    var star := false;
    var i := 0;
    while i < |es|
      invariant 0 <= i <= |es| && |out| == |es|
      invariant forall j :: 0 <= j < i ==> out[j] == Targeted(es[j])
      invariant forall j :: i <= j < |es| ==> out[j] == es[j]
      invariant forall j :: 0 <= j < i ==> !Malformed(es[j])
      invariant srcs == StarSources(es[..i])
      invariant star <==> exists j :: 0 <= j < i && IsStar(es[j])
    {
      var e := out[i];
      if |e| == 0 {
        return Err(IndexError);
      }
      assert es[..i + 1] == es[..i] + [e];
      StarSourcesSnoc(es[..i], e);
      if e[0] == "*" {
        if |e| < 2 {
          return Err(IndexError);
        }
        srcs := srcs + {e[1]};
        star := true;
      }
      if |e| == 2 {
        out := out[i := [e[0], e[1], e[1]]];
      }
      i := i + 1;
    }
    assert es[..i] == es;
    r := Ok((out, srcs, star));
  }

  method ReplaceStars(es: seq<Entry>, allnames: map<string, Found>, k: Kind) returns (r: Result<seq<Entry>>)
    ensures r == Replaced(es, allnames, k)
  {
    var out: seq<Entry> := [];
    var i := 0;
    while i < |es|
      invariant 0 <= i <= |es|
      invariant Replaced(es[..i], allnames, k) == Ok(out)
    {
      var e := es[i];
      assert es[..i + 1] == es[..i] + [e];
      ReplacedSnoc(es[..i], e, allnames, k);
      assert es == es[..i + 1] + es[i + 1..];
      ReplacedAppend(es[..i + 1], es[i + 1..], allnames, k);
      if |e| == 0 {
        return Err(IndexError);
      }
      if e[0] == "*" {
        if |e| < 2 {
          return Err(IndexError);
        }
        if e[1] !in allnames {
          return Err(KeyError);
        }
        var xs := Names(allnames[e[1]], k);
        if xs != [] {
          if |e| < 3 {
            return Err(IndexError);
          }
          out := out + Stamped(xs, e[1], e[2]);
        } else {
          assert out + [] == out;
        }
      } else {
        out := out + [e];
      }
      i := i + 1;
    }
    assert es[..i] == es;
    r := Ok(out);
  }

  /** xdress.autoall.XDressPlugin with the state setup hands to execute. */
  class XDressPlugin {
    var allsrc: set<string>
    var varhasstar: bool
    var fnchasstar: bool
    var clshasstar: bool

    /**
     * setup: every (name, src) entry of the three lists becomes
     * (name, src, src); allsrc is the set of the sources of the '*'
     * entries, and each flag says whether its list has a '*' entry.
     */
    method Setup(rc: RunControl) returns (r: Result<()>)
      modifies this, rc
      ensures r.Err? <==> !(WellFormed(old(rc.variables)) && WellFormed(old(rc.functions)) && WellFormed(old(rc.classes)))
      ensures r.Err? ==> r.error == IndexError
      ensures r.Ok? ==>
        && rc.variables == Expand(old(rc.variables))
        && rc.functions == Expand(old(rc.functions))
        && rc.classes == Expand(old(rc.classes))
        && allsrc == StarSources(old(rc.variables)) + StarSources(old(rc.functions)) + StarSources(old(rc.classes))
        && (varhasstar <==> HasStar(old(rc.variables)))
        && (fnchasstar <==> HasStar(old(rc.functions)))
        && (clshasstar <==> HasStar(old(rc.classes)))
    {
      var v := ExpandEntries(rc.variables);
      if v.Err? {
        return Err(v.error);
      }
      rc.variables := v.value.0;
      var f := ExpandEntries(rc.functions);
      if f.Err? {
        return Err(f.error);
      }
      rc.functions := f.value.0;
      var c := ExpandEntries(rc.classes);
      if c.Err? {
        return Err(c.error);
      }
      rc.classes := c.value.0;
      allsrc := v.value.1 + f.value.1 + c.value.1;
      varhasstar := v.value.2;
      fnchasstar := f.value.2;
      clshasstar := c.value.2;
      r := Ok(());
    }

    /**
     * execute, given the names findall found in each source (the second
     * pass's parsing is a parameter): nothing changes when no list has a
     * '*'; otherwise each flagged list is replaced, in the order variables,
     * functions, classes, and the first failure leaves the later lists as
     * they were.
     */
    method Execute(rc: RunControl, allnames: map<string, Found>) returns (r: Result<()>)
      modifies rc
      ensures !varhasstar && !fnchasstar && !clshasstar ==> r == Ok(()) && unchanged(rc)
      ensures
        var v := Pass(varhasstar, old(rc.variables), allnames, Variables);
        var f := Pass(fnchasstar, old(rc.functions), allnames, Functions);
        var c := Pass(clshasstar, old(rc.classes), allnames, Classes);
        && (rc.variables == if v.Ok? then v.value else old(rc.variables))
        && (rc.functions == if v.Ok? && f.Ok? then f.value else old(rc.functions))
        && (rc.classes == if v.Ok? && f.Ok? && c.Ok? then c.value else old(rc.classes))
        && r == (if v.Err? then Err(v.error) else if f.Err? then Err(f.error) else if c.Err? then Err(c.error) else Ok(()))
    {
      if !varhasstar && !fnchasstar && !clshasstar {
        return Ok(());
      }
      if varhasstar {
        var v := ReplaceStars(rc.variables, allnames, Variables);
        if v.Err? {
          return Err(v.error);
        }
        rc.variables := v.value;
      }
      if fnchasstar {
        var f := ReplaceStars(rc.functions, allnames, Functions);
        if f.Err? {
          return Err(f.error);
        }
        rc.functions := f.value;
      }
      if clshasstar {
        var c := ReplaceStars(rc.classes, allnames, Classes);
        if c.Err? {
          return Err(c.error);
        }
        rc.classes := c.value;
      }
      r := Ok(());
    }
  }

  /** The first pass is idempotent: a second setup leaves the lists as the first left them. */
  lemma ExpandIdempotent(es: seq<Entry>)
    ensures Expand(Expand(es)) == Expand(es)
  {
    var x := Expand(es);
    assert forall i :: 0 <= i < |es| ==> Targeted(x[i]) == x[i];
  }

  /**
   * The first pass keeps the '*' entries and their sources where they are,
   * and gives every well-formed '*' entry a target, which is what the third
   * pass reads.
   */
  lemma {:induction false} ExpandKeepsStars(es: seq<Entry>)
    ensures StarSources(Expand(es)) == StarSources(es)
    ensures HasStar(Expand(es)) <==> HasStar(es)
    ensures WellFormed(es) <==> WellFormed(Expand(es))
    ensures WellFormed(es) ==> forall i :: 0 <= i < |es| && IsStar(Expand(es)[i]) ==> |Expand(es)[i]| >= 3
  {
    var x := Expand(es);
    assert forall i :: 0 <= i < |es| ==> (IsStar(x[i]) <==> IsStar(es[i]));
    assert forall i :: 0 <= i < |es| && IsStar(es[i]) && |es[i]| >= 2 ==> |x[i]| >= 2 && x[i][1] == es[i][1];
    assert forall i :: 0 <= i < |es| && IsStar(x[i]) && |x[i]| >= 2 ==> |es[i]| >= 2 && x[i][1] == es[i][1];
  }

  lemma ReplacedSnoc(es: seq<Entry>, e: Entry, allnames: map<string, Found>, k: Kind)
    ensures Replaced(es + [e], allnames, k) ==
      match Replaced(es, allnames, k)
      case Err(x) => Err(x)
      case Ok(before) =>
        match Piece(e, allnames, k)
        case Err(x) => Err(x)
        case Ok(p) => Ok(before + p)
  {
    assert (es + [e])[..|es|] == es;
  }

  /**
   * The third pass works entry by entry: the result for a + b is the result
   * for a followed by the result for b, and an error in a wins.
   */
  lemma {:induction false} ReplacedAppend(a: seq<Entry>, b: seq<Entry>, allnames: map<string, Found>, k: Kind)
    ensures Replaced(a + b, allnames, k) ==
      match Replaced(a, allnames, k)
      case Err(e) => Err(e)
      case Ok(ra) =>
        match Replaced(b, allnames, k)
        case Err(e) => Err(e)
        case Ok(rb) => Ok(ra + rb)
    decreases |b|
  {
    if b == [] {
      assert a + b == a;
      if Replaced(a, allnames, k).Ok? {
        assert Replaced(a, allnames, k).value + [] == Replaced(a, allnames, k).value;
      }
    } else {
      var b' := b[..|b| - 1];
      assert a + b == (a + b') + [b[|b| - 1]];
      assert b == b' + [b[|b| - 1]];
      ReplacedSnoc(a + b', b[|b| - 1], allnames, k);
      ReplacedSnoc(b', b[|b| - 1], allnames, k);
      ReplacedAppend(a, b', allnames, k);
      var ra := Replaced(a, allnames, k);
      var rb' := Replaced(b', allnames, k);
      var p := Piece(b[|b| - 1], allnames, k);
      if ra.Ok? && rb'.Ok? && p.Ok? {
        assert ra.value + rb'.value + p.value == ra.value + (rb'.value + p.value);
      }
    }
  }

  /** A list without '*' (and without empty entries) comes out of the third pass unchanged. */
  lemma {:induction false} ReplacedNoStar(es: seq<Entry>, allnames: map<string, Found>, k: Kind)
    requires forall i :: 0 <= i < |es| ==> |es[i]| > 0 && !IsStar(es[i])
    ensures Replaced(es, allnames, k) == Ok(es)
  {
    if es != [] {
      ReplacedNoStar(es[..|es| - 1], allnames, k);
      assert es[..|es| - 1] + [es[|es| - 1]] == es;
    }
  }

  /**
   * Once findall has run on every source the first pass collected, the third
   * pass over a list the first pass accepted cannot fail.
   */
  lemma {:induction false} ExecuteAfterSetup(es: seq<Entry>, allnames: map<string, Found>, k: Kind)
    requires WellFormed(es) && StarSources(es) <= allnames.Keys
    ensures Replaced(Expand(es), allnames, k).Ok?
  {
    if es != [] {
      var init := es[..|es| - 1];
      var e := es[|es| - 1];
      assert es == init + [e];
      assert !Malformed(e) && WellFormed(init);
      StarSourcesSnoc(init, e);
      ExecuteAfterSetup(init, allnames, k);
      assert Expand(es) == Expand(init) + [Targeted(e)];
      ReplacedSnoc(Expand(init), Targeted(e), allnames, k);
    }
  }

  /**
   * When no found name is itself '*', no '*' entry survives the third pass:
   * every '*' is resolved.
   */
  lemma {:induction false} ReplacedResolvesStars(es: seq<Entry>, allnames: map<string, Found>, k: Kind)
    requires forall s :: s in allnames ==> "*" !in Names(allnames[s], k)
    requires Replaced(es, allnames, k).Ok?
    ensures !HasStar(Replaced(es, allnames, k).value)
  {
    if es != [] {
      ReplacedResolvesStars(es[..|es| - 1], allnames, k);
      var before := Replaced(es[..|es| - 1], allnames, k).value;
      var p := Piece(es[|es| - 1], allnames, k).value;
      var e := es[|es| - 1];
      assert forall i :: 0 <= i < |p| ==> !IsStar(p[i]) by {
        if IsStar(e) && |p| > 0 {
          var xs := Names(allnames[e[1]], k);
          assert forall i :: 0 <= i < |p| ==> p[i][0] == xs[i];
        }
      }
      var all := before + p;
      assert forall i :: 0 <= i < |all| ==> all[i] == if i < |before| then before[i] else p[i - |before|];
    }
  }

  // ---------------------------------------------------------------------
  // Python's order on str, and sorted() of a set of names

  /** Python's < on str: the lexicographic order of the code points. */
  predicate Less(a: string, b: string)
    decreases |a|
  {
    |b| > 0 && (|a| == 0 || a[0] < b[0] || (a[0] == b[0] && Less(a[1..], b[1..])))
  }

  lemma {:induction false} LessIrreflexive(a: string)
    ensures !Less(a, a)
    decreases |a|
  {
    if |a| > 0 {
      LessIrreflexive(a[1..]);
    }
  }

  lemma {:induction false} LessTransitive(a: string, b: string, c: string)
    requires Less(a, b) && Less(b, c)
    ensures Less(a, c)
    decreases |a|
  {
    if |a| > 0 && a[0] == b[0] && b[0] == c[0] {
      LessTransitive(a[1..], b[1..], c[1..]);
    }
  }

  lemma {:induction false} LessTotal(a: string, b: string)
    requires a != b
    ensures Less(a, b) || Less(b, a)
    decreases |a|
  {
    if |a| > 0 && |b| > 0 && a[0] == b[0] {
      assert a == [a[0]] + a[1..] && b == [b[0]] + b[1..];
      LessTotal(a[1..], b[1..]);
    }
  }

  predicate StrictlySorted(s: seq<string>)
  {
    forall i, j :: 0 <= i < j < |s| ==> Less(s[i], s[j])
  }

  predicate IsMin(m: string, s: set<string>)
  {
    m in s && forall y :: y in s && y != m ==> Less(m, y)
  }

  lemma {:induction false} MinExists(s: set<string>)
    requires s != {}
    ensures exists m :: IsMin(m, s)
    decreases |s|
  {
    var x :| x in s;
    if s - {x} == {} {
      forall y | y in s
        ensures y == x
      {
        assert y !in s - {x};
      }
      assert IsMin(x, s);
    } else {
      MinExists(s - {x});
      var m :| IsMin(m, s - {x});
      if Less(x, m) {
        forall y | y in s && y != x
          ensures Less(x, y)
        {
          if y != m {
            LessTransitive(x, m, y);
          }
        }
        assert IsMin(x, s);
      } else {
        LessTotal(x, m);
        assert IsMin(m, s);
      }
    }
  }

  lemma MinUnique(m1: string, m2: string, s: set<string>)
    requires IsMin(m1, s) && IsMin(m2, s)
    ensures m1 == m2
  {
    if m1 != m2 {
      LessTransitive(m1, m2, m1);
      LessIrreflexive(m1);
    }
  }

  /** sorted(s), built by taking the least element first. */
  ghost function SortedOf(s: set<string>): seq<string>
    decreases |s|
  {
    if s == {} then []
    else
      MinExists(s);
      var m :| IsMin(m, s);
      [m] + SortedOf(s - {m})
  }

  /** sorted(s) holds the elements of s, each once, in increasing order. */
  lemma {:induction false} SortedOfSorted(s: set<string>)
    ensures StrictlySorted(SortedOf(s))
    ensures |SortedOf(s)| == |s|
    ensures forall x :: x in SortedOf(s) <==> x in s
    decreases |s|
  {
    if s != {} {
      var r := SortedOf(s);
      var rest := SortedOf(s - {r[0]});
      assert IsMin(r[0], s) && r == [r[0]] + rest;
      SortedOfSorted(s - {r[0]});
      forall i, j | 0 <= i < j < |r|
        ensures Less(r[i], r[j])
      {
        if i > 0 {
          assert r[i] == rest[i - 1] && r[j] == rest[j - 1];
        } else {
          assert r[j] == rest[j - 1] && rest[j - 1] in s - {r[0]};
        }
      }
    }
  }

  /** sorted(s) starts with the least element of s. */
  lemma SortedOfMin(s: set<string>, m: string)
    requires IsMin(m, s)
    ensures SortedOf(s) == [m] + SortedOf(s - {m})
  {
    var r := SortedOf(s);
    assert IsMin(r[0], s) && r == [r[0]] + SortedOf(s - {r[0]});
    MinUnique(r[0], m, s);
  }

  /** The least element of a non-empty set of names. */
  method MinOf(s: set<string>) returns (m: string)
    requires s != {}
    ensures IsMin(m, s)
  {
    m :| m in s;
    var todo := s - {m};
    while todo != {}
      invariant todo <= s && m in s && m !in todo
      invariant forall y :: y in s && y !in todo && y != m ==> Less(m, y)
      decreases |todo|
    {
      var y :| y in todo;
      if Less(y, m) {
        forall z | z in s && z !in todo - {y} && z != y
          ensures Less(y, z)
        {
          if z != m {
            LessTransitive(y, m, z);
          }
        }
        m := y;
      } else {
        LessTotal(y, m);
      }
      todo := todo - {y};
    }
  }

  /** sorted() of a set of names, by repeatedly taking the least one. */
  method SortSet(s: set<string>) returns (r: seq<string>)
    ensures r == SortedOf(s)
  {
    r := [];
    var rest := s;
    while rest != {}
      invariant r + SortedOf(rest) == SortedOf(s)
      decreases |rest|
    {
      var m := MinOf(rest);
      SortedOfMin(rest, m);
      assert (r + [m]) + SortedOf(rest - {m}) == r + ([m] + SortedOf(rest - {m}));
      r := r + [m];
      rest := rest - {m};
    }
  }

  // ---------------------------------------------------------------------
  // The gccxml finder

  /**
   * A descendant of the gccxml tree, in document order: its tag and its
   * 'file' and 'name' attributes when present.
   */
  datatype Element = Element(tag: string, file: Option<string>, name: Option<string>)

  /** An element without a name is read as '_'. */
  function NameOf(x: Element): string { if x.name.Some? then x.name.value else "_" }

  /** An element declared in one of the onlyin files under a public name. */
  predicate Kept(onlyin: set<string>, x: Element)
  {
    x.file.Some? && x.file.value in onlyin && !StartsWith(NameOf(x), "_")
  }

  /** The distinct names of the kept elements with the given tag. */
  function FoundNames(tree: seq<Element>, kind: string, onlyin: set<string>): set<string>
  {
    set i | 0 <= i < |tree| && tree[i].tag == kind && Kept(onlyin, tree[i]) :: NameOf(tree[i])
  }

  /** visit_kinds over a list of tags: the sorted names of each tag in turn. */
  ghost function KindsNames(tree: seq<Element>, kinds: seq<string>, onlyin: set<string>): seq<string>
  {
    if kinds == [] then []
    else KindsNames(tree, kinds[..|kinds| - 1], onlyin) + SortedOf(FoundNames(tree, kinds[|kinds| - 1], onlyin))
  }

  lemma FoundNamesSnoc(tree: seq<Element>, x: Element, kind: string, onlyin: set<string>)
    ensures FoundNames(tree + [x], kind, onlyin)
      == FoundNames(tree, kind, onlyin) + (if x.tag == kind && Kept(onlyin, x) then {NameOf(x)} else {})
  {
    var t := tree + [x];
    assert forall i :: 0 <= i < |tree| ==> t[i] == tree[i];
    assert t[|tree|] == x;
  }

  /** A name is found for a list of tags exactly when some tag of the list finds it. */
  lemma {:induction false} KindsNamesMembers(tree: seq<Element>, kinds: seq<string>, onlyin: set<string>, x: string)
    ensures x in KindsNames(tree, kinds, onlyin) <==> exists j :: 0 <= j < |kinds| && x in FoundNames(tree, kinds[j], onlyin)
  {
    if kinds != [] {
      var init := kinds[..|kinds| - 1];
      var last := kinds[|kinds| - 1];
      var front := KindsNames(tree, init, onlyin);
      var back := SortedOf(FoundNames(tree, last, onlyin));
      assert KindsNames(tree, kinds, onlyin) == front + back;
      SortedOfSorted(FoundNames(tree, last, onlyin));
      KindsNamesMembers(tree, init, onlyin, x);
      if x in front {
        var j :| 0 <= j < |init| && x in FoundNames(tree, init[j], onlyin);
        assert kinds[j] == init[j];
      } else if x in back {
        assert x in FoundNames(tree, kinds[|kinds| - 1], onlyin);
      } else {
        forall j | 0 <= j < |kinds|
          ensures x !in FoundNames(tree, kinds[j], onlyin)
        {
          if j < |init| {
            assert kinds[j] == init[j];
          }
        }
      }
    }
  }

  /** xdress.autoall.GccxmlFinder: the ids of the wanted files and the names found so far. */
  class GccxmlFinder {
    var onlyin: set<string>
    var variables: seq<string>
    var functions: seq<string>
    var classes: seq<string>

    constructor (onlyin: set<string>)
      ensures this.onlyin == onlyin && variables == [] && functions == [] && classes == []
    {
      this.onlyin := onlyin;
      variables := [];
      functions := [];
      classes := [];
    }

    /**
     * visit_kinds for one tag: the names of the elements with that tag that
     * sit in an onlyin file and do not start with '_', sorted and without
     * duplicates.
     */
    method VisitKind(tree: seq<Element>, kind: string) returns (r: seq<string>)
      ensures r == SortedOf(FoundNames(tree, kind, onlyin))
      ensures StrictlySorted(r)
      ensures forall x :: x in r <==> exists i :: 0 <= i < |tree| && tree[i].tag == kind && Kept(onlyin, tree[i]) && NameOf(tree[i]) == x
    {
      var names: set<string> := {};
      var i := 0;
      while i < |tree|
        invariant 0 <= i <= |tree|
        invariant names == FoundNames(tree[..i], kind, onlyin)
      {
        var child := tree[i];
        assert tree[..i + 1] == tree[..i] + [child];
        FoundNamesSnoc(tree[..i], child, kind, onlyin);
        if child.tag == kind && child.file.Some? && child.file.value in onlyin {
          var name := NameOf(child);
          if !StartsWith(name, "_") {
            names := names + {name};
          }
        }
        i := i + 1;
      }
      assert tree[..i] == tree;
      r := SortSet(names);
      SortedOfSorted(names);
    }

    /** visit_kinds for a list of tags: the concatenation of the results for each tag, in order. */
    method VisitKinds(tree: seq<Element>, kinds: seq<string>) returns (r: seq<string>)
      ensures r == KindsNames(tree, kinds, onlyin)
    {
      r := [];
      var i := 0;
      while i < |kinds|
        invariant 0 <= i <= |kinds|
        invariant r == KindsNames(tree, kinds[..i], onlyin)
      {
        assert kinds[..i + 1][..i] == kinds[..i];
        var names := VisitKind(tree, kinds[i]);
        r := r + names;
        i := i + 1;
      }
      assert kinds[..i] == kinds;
    }

    /** visit: enumerations to variables, functions to functions, classes and structs to classes. */
    method Visit(tree: seq<Element>)
      modifies this`variables, this`functions, this`classes
      ensures variables == old(variables) + SortedOf(FoundNames(tree, "Enumeration", onlyin))
      ensures functions == old(functions) + SortedOf(FoundNames(tree, "Function", onlyin))
      ensures classes == old(classes) + KindsNames(tree, ["Class", "Struct"], onlyin)
    {
      var vs := VisitKind(tree, "Enumeration");
      variables := variables + vs;
      var fs := VisitKind(tree, "Function");
      functions := functions + fs;
      var cs := VisitKinds(tree, ["Class", "Struct"]);
      classes := classes + cs;
    }
  }

  // ---------------------------------------------------------------------
  // The pycparser finder

  /** What the pycparser visitors read of a node: the file of its coordinate and its name. */
  datatype Decl = Decl(file: string, name: string)

  predicate Wanted(onlyin: set<string>, d: Decl)
  {
    d.file in onlyin && !StartsWith(d.name, "_")
  }

  predicate NoPrivate(names: seq<string>)
  {
    forall i :: 0 <= i < |names| ==> !StartsWith(names[i], "_")
  }

  /** xdress.autoall.PycparserFinder: the set of wanted file names and the names found so far. */
  class PycparserFinder {
    var onlyin: set<string>
    var variables: seq<string>
    var functions: seq<string>
    var classes: seq<string>

    constructor (onlyin: set<string>)
      ensures this.onlyin == onlyin && variables == [] && functions == [] && classes == []
      ensures Clean()
    {
      this.onlyin := onlyin;
      variables := [];
      functions := [];
      classes := [];
    }

    /** No name found so far starts with '_'. */
    predicate Clean()
      reads this
    {
      NoPrivate(variables) && NoPrivate(functions) && NoPrivate(classes)
    }

    /** visit_Enumerator: an enumerator name is appended when its node is wanted. */
    method VisitEnumerator(d: Decl)
      modifies this`variables
      ensures variables == old(variables) + (if Wanted(onlyin, d) then [d.name] else [])
      ensures old(Clean()) ==> Clean()
    {
      if d.file !in onlyin {
        return;
      }
      if StartsWith(d.name, "_") {
        return;
      }
      variables := variables + [d.name];
    }

    /** visit_FuncDecl: the declared name of a function is appended when its node is wanted. */
    method VisitFuncDecl(d: Decl)
      modifies this`functions
      ensures functions == old(functions) + (if Wanted(onlyin, d) then [d.name] else [])
      ensures old(Clean()) ==> Clean()
    {
      if d.file !in onlyin {
        return;
      }
      if StartsWith(d.name, "_") {
        return;
      }
      functions := functions + [d.name];
    }

    /** visit_Struct: a struct name is appended when its node is wanted. */
    method VisitStruct(d: Decl)
      modifies this`classes
      ensures classes == old(classes) + (if Wanted(onlyin, d) then [d.name] else [])
      ensures old(Clean()) ==> Clean()
    {
      if d.file !in onlyin {
        return;
      }
      if StartsWith(d.name, "_") {
        return;
      }
      classes := classes + [d.name];
    }
  }

  // ---------------------------------------------------------------------
  // The files pycparser_findall keeps

  /** filename.rsplit('.', 1)[0]. */
  function Basename(filename: string): string
  {
    if '.' in filename then RSplitDot(filename).0 else filename
  }

  /** pycparser_findall keeps declarations of the file itself and of its header. */
  function OnlyIn(filename: string): set<string>
  {
    {filename, Basename(filename) + ".h"}
  }

  /** rsplit('.', 1) splits at the last dot, so the part after it is the extension. */
  lemma RSplitDotOf(b: string, ext: string)
    requires '.' !in ext
    ensures RSplitDot(b + "." + ext) == (b, ext)
  {
    var v := b + "." + ext;
    var r := RSplitDot(v);
    assert v[|b|] == '.';
    assert |r.0| == |b|;
    assert r.0 == v[..|b|] == b;
    assert r.1 == v[|b| + 1..] == ext;
  }

  /** A source file keeps itself and the header with the same base name. */
  lemma OnlyInSource(b: string, ext: string)
    requires '.' !in ext
    ensures OnlyIn(b + "." + ext) == {b + "." + ext, b + ".h"}
  {
    RSplitDotOf(b, ext);
  }

  /** A header keeps only itself. */
  lemma OnlyInHeader(b: string)
    ensures OnlyIn(b + ".h") == {b + ".h"}
  {
    assert b + ".h" == b + "." + "h";
    OnlyInSource(b, "h");
  }

  /** A name without a dot is its own base name. */
  lemma OnlyInNoDot(f: string)
    requires '.' !in f
    ensures OnlyIn(f) == {f, f + ".h"}
  {
  }
}
