/**
 * _undot_class_name and _redot_class_name, and the table-wide passes that
 * local_classes makes with them: entering strips the dotted module prefix
 * of each listed class's spelling and saves it, leaving puts it back.
 */
module ClassNames {
  import opened Values
  import opened Registry

  /**
   * _undot_class_name: "pkg.mod.C" becomes "C" and "pkg.mod" is returned;
   * a spelling without a '.' is kept and "" is returned. The entry must be
   * a string ('.' in a callable or NotImplemented is a TypeError).
   */
  function Undot(name: Ty, d: map<Ty, Spelling>): (r: Result<(map<Ty, Spelling>, string)>)
    ensures name !in d ==> r == Err(KeyError)
    ensures name in d && !d[name].Text? ==> r == Err(TypeError)
    ensures r.Ok? ==> name in d && d[name].Text? && r.value.0.Keys == d.Keys
    ensures r.Ok? ==> forall k :: k in d && k != name ==> r.value.0[k] == d[k]
    ensures r.Ok? && '.' !in d[name].text ==> r.value == (d, "")
    ensures r.Ok? && '.' in d[name].text ==>
      r.value.0[name].Text? && r.value.1 + "." + r.value.0[name].text == d[name].text && '.' !in r.value.0[name].text
  {
    if name !in d then Err(KeyError)
    else match d[name]
      case Text(v) =>
        if '.' !in v then Ok((d, ""))
        else
          var (v1, v2) := RSplitDot(v);
          Ok((d[name := Text(v2)], v1))
      case _ => Err(TypeError)
  }

  /**
   * _redot_class_name: a non-empty saved prefix is put back in front of the
   * entry with a '.'; an empty one changes nothing.
   */
  function Redot(name: Ty, d: map<Ty, Spelling>, value: string): (r: Result<map<Ty, Spelling>>)
    ensures value == "" ==> r == Ok(d)
    ensures value != "" && name !in d ==> r == Err(KeyError)
    ensures value != "" && name in d && !d[name].Text? ==> r == Err(TypeError)
    ensures value != "" && name in d && d[name].Text? ==> r == Ok(d[name := Text(value + "." + d[name].text)])
  {
    if |value| == 0 then Ok(d)
    else if name !in d then Err(KeyError)
    else match d[name]
      case Text(v) => Ok(d[name := Text(value + "." + v)])
      case _ => Err(TypeError)
  }

  /** The spelling of name is a string whose last '.', if any, is not its first character. */
  predicate Restorable(name: Ty, d: map<Ty, Spelling>) {
    name in d && d[name].Text? && ('.' in d[name].text ==> LastDot(d[name].text) > 0)
  }

  /** Redotting with the prefix undotting saved restores the table. */
  lemma UndotRedot(name: Ty, d: map<Ty, Spelling>)
    requires Restorable(name, d)
    ensures Undot(name, d).Ok?
    ensures var (d2, v) := Undot(name, d).value; Redot(name, d2, v) == Ok(d)
  {
    var (d2, v) := Undot(name, d).value;
    var s := d[name].text;
    if '.' in s {
      var i := LastDot(s);
      assert v == s[..i] && |v| == i;
      assert d2[name] == Text(s[i + 1..]);
      assert v + "." + s[i + 1..] == s;
      assert d2[name := Text(s)] == d;
    }
  }

  /** A spelling whose only '.' leads it loses the dot: ".C" comes back as "C". */
  lemma LeadingDotLost(name: Ty)
    ensures var d := map[name := Text(".C")];
      Undot(name, d) == Ok((map[name := Text("C")], ""))
      && Redot(name, map[name := Text("C")], "") == Ok(map[name := Text("C")])
      && map[name := Text("C")] != d
  {
    var s := ".C";
    assert '.' in s by { assert s[0] == '.'; }
    assert LastDot(s) == 0;
    assert RSplitDot(s) == ("", "C");
    assert map[name := Text(".C")][name := Text("C")] == map[name := Text("C")];
    assert map[name := Text("C")][name] != map[name := Text(".C")][name];
  }

  // ---------------------------------------------------------------------
  // The passes of local_classes over one table

  /** Undot one listed name if the table has it, recording its prefix. */
  function UndotStep(d: map<Ty, Spelling>, saved: map<Ty, string>, name: Ty)
    : (r: Result<(map<Ty, Spelling>, map<Ty, string>)>)
  {
    if name !in d then Ok((d, saved))
    else
      var (d2, v) :- Undot(name, d);
      Ok((d2, saved[name := v]))
  }

  /** Undot every listed name in turn. */
  function UndotTable(d: map<Ty, Spelling>, saved: map<Ty, string>, names: seq<Ty>)
    : (r: Result<(map<Ty, Spelling>, map<Ty, string>)>)
    ensures r.Ok? ==> r.value.0.Keys == d.Keys
    ensures r.Ok? ==> forall k :: k in r.value.1 <==> k in saved || (k in names && k in d)
    decreases |names|
  {
    if names == [] then Ok((d, saved))
    else
      var (d1, s1) :- UndotTable(d, saved, names[..|names| - 1]);
      UndotStep(d1, s1, names[|names| - 1])
  }

  /** Redot one listed name if the table has it, with its saved prefix. */
  function RedotStep(d: map<Ty, Spelling>, saved: map<Ty, string>, name: Ty): (r: Result<map<Ty, Spelling>>)
  {
    if name !in d then Ok(d)
    else if name !in saved then Err(KeyError)
    else Redot(name, d, saved[name])
  }

  /** Redot every listed name in turn. */
  function RedotTable(d: map<Ty, Spelling>, saved: map<Ty, string>, names: seq<Ty>): (r: Result<map<Ty, Spelling>>)
    decreases |names|
  {
    if names == [] then Ok(d)
    else
      var d1 :- RedotTable(d, saved, names[..|names| - 1]);
      RedotStep(d1, saved, names[|names| - 1])
  }

  /** Undotting leaves the entries and saved prefixes of unlisted names alone. */
  lemma {:induction false} UndotTableFrame(d: map<Ty, Spelling>, saved: map<Ty, string>, names: seq<Ty>, k: Ty)
    requires UndotTable(d, saved, names).Ok? && k !in names
    ensures var (d2, s2) := UndotTable(d, saved, names).value;
      (k in d ==> d2[k] == d[k]) && (k in saved ==> k in s2 && s2[k] == saved[k])
    decreases |names|
  {
    if names != [] {
      var init := names[..|names| - 1];
      assert k !in init;
      UndotTableFrame(d, saved, init, k);
    }
  }

  /**
   * Redotting does not read the entry of an unlisted name: changing it
   * before the pass changes only it after the pass.
   */
  lemma {:induction false} RedotTableFrame(d: map<Ty, Spelling>, saved: map<Ty, string>, saved2: map<Ty, string>,
                                           names: seq<Ty>, k: Ty, e: Spelling)
    requires k in d && k !in names
    requires forall n :: n in names ==> (n in saved <==> n in saved2) && (n in saved ==> saved[n] == saved2[n])
    ensures RedotTable(d[k := e], saved2, names).Ok? == RedotTable(d, saved, names).Ok?
    ensures RedotTable(d, saved, names).Ok? ==>
      RedotTable(d[k := e], saved2, names).value == RedotTable(d, saved, names).value[k := e]
    ensures RedotTable(d, saved, names).Ok? ==> RedotTable(d, saved, names).value.Keys == d.Keys
    decreases |names|
  {
    if names != [] {
      var init := names[..|names| - 1];
      var n := names[|names| - 1];
      assert k != n;
      RedotTableFrame(d, saved, saved2, init, k, e);
      var a := RedotTable(d, saved, init);
      if a.Ok? {
        var b := RedotTable(d[k := e], saved2, init);
        assert b.value == a.value[k := e];
        if n in a.value && n in saved {
          assert a.value[k := e][n] == a.value[n];
          if Redot(n, a.value, saved[n]).Ok? && saved[n] != "" {
            assert a.value[k := e][n := Text(saved[n] + "." + a.value[n].text)]
              == a.value[n := Text(saved[n] + "." + a.value[n].text)][k := e];
          }
        }
      }
    }
  }

  /** Every listed entry of the table can be undotted and redotted back. */
  predicate AllRestorable(d: map<Ty, Spelling>, names: seq<Ty>) {
    forall n :: n in names && n in d ==> Restorable(n, d)
  }

  predicate Distinct(names: seq<Ty>) {
    forall i, j :: 0 <= i < j < |names| ==> names[i] != names[j]
  }

  /**
   * Leaving local_classes undoes entering it: with distinct names whose
   * spellings do not start with their only '.', redotting every name with
   * the prefixes undotting saved gives back the original table.
   */
  lemma {:induction false} LocalRoundTrip(d: map<Ty, Spelling>, saved: map<Ty, string>, names: seq<Ty>)
    requires Distinct(names) && AllRestorable(d, names)
    ensures UndotTable(d, saved, names).Ok?
    ensures var (d2, s2) := UndotTable(d, saved, names).value; RedotTable(d2, s2, names) == Ok(d)
    decreases |names|
  {
    if names != [] {
      var init := names[..|names| - 1];
      var n := names[|names| - 1];
      assert n !in init by {
        forall i | 0 <= i < |init| ensures init[i] != n { assert names[i] == init[i]; }
      }
      assert Distinct(init) by {
        forall i, j | 0 <= i < j < |init| ensures init[i] != init[j] { assert names[i] == init[i] && names[j] == init[j]; }
      }
      LocalRoundTrip(d, saved, init);
      RoundTripStep(d, saved, names);
    }
  }

  /** The induction step of LocalRoundTrip: the last name's undot and redot cancel too. */
  lemma RoundTripStep(d: map<Ty, Spelling>, saved: map<Ty, string>, names: seq<Ty>)
    requires names != [] && names[|names| - 1] !in names[..|names| - 1]
    requires names[|names| - 1] in d ==> Restorable(names[|names| - 1], d)
    requires var init := names[..|names| - 1];
      UndotTable(d, saved, init).Ok?
      && RedotTable(UndotTable(d, saved, init).value.0, UndotTable(d, saved, init).value.1, init) == Ok(d)
    ensures UndotTable(d, saved, names).Ok?
    ensures var (d2, s2) := UndotTable(d, saved, names).value; RedotTable(d2, s2, names) == Ok(d)
  {
    var init := names[..|names| - 1];
    var n := names[|names| - 1];
    var (d1, s1) := UndotTable(d, saved, init).value;
    UndotTableFrame(d, saved, init, n);
    if n in d {
      RoundTripHit(d, d1, s1, init, n);
      var (d2, v) := Undot(n, d1).value;
      assert UndotTable(d, saved, names) == Ok((d2, s1[n := v]));
      assert n in d[n := d2[n]] && n in s1[n := v];
    } else {
      assert UndotTable(d, saved, names) == Ok((d1, s1));
      assert d1.Keys == d.Keys;
      assert RedotTable(d1, s1, names) == RedotStep(d, s1, n);
    }
  }

  /** The last name is in the table: undotting it and redotting it with its prefix is the identity. */
  lemma RoundTripHit(d: map<Ty, Spelling>, d1: map<Ty, Spelling>, s1: map<Ty, string>, init: seq<Ty>, n: Ty)
    requires n !in init && n in d && n in d1 && d1[n] == d[n] && Restorable(n, d)
    requires RedotTable(d1, s1, init) == Ok(d)
    ensures Undot(n, d1).Ok?
    ensures var (d2, v) := Undot(n, d1).value;
      RedotTable(d2, s1[n := v], init) == Ok(d[n := d2[n]]) && Redot(n, d[n := d2[n]], v) == Ok(d)
  {
    assert Restorable(n, d1);
    UndotRedot(n, d1);
    var (d2, v) := Undot(n, d1).value;
    var s2 := s1[n := v];
    RedotTableFrame(d1, s1, s2, init, n, d2[n]);
    assert d2 == d1[n := d2[n]];
    if v != "" {
      assert d1[n] == Text(v + "." + d2[n].text);
      assert d[n := d2[n]][n := Text(v + "." + d2[n].text)] == d;
    } else {
      assert d2 == d1;
      assert d[n := d2[n]] == d;
    }
  }

  // ---------------------------------------------------------------------
  // local_classes: the three spelling tables together

  /**
   * The spelling tables local_classes rewrites (cython_ctypes, _cytypes,
   * _pytypes) and the prefixes it saved for each, keyed by name as the
   * source keys them by (name, 'c'), (name, 'cy') and (name, 'py').
   */
  datatype Local = Local(c: map<Ty, Spelling>, cy: map<Ty, Spelling>, py: map<Ty, Spelling>,
                         sc: map<Ty, string>, scy: map<Ty, string>, spy: map<Ty, string>)

  /** One table's undot step, taken only when the table is in typesets. */
  function UndotIn(on: bool, d: map<Ty, Spelling>, saved: map<Ty, string>, name: Ty)
    : Result<(map<Ty, Spelling>, map<Ty, string>)>
  {
    if on then UndotStep(d, saved, name) else Ok((d, saved))
  }

  /** Entering local_classes for one name: its 'c', then 'cy', then 'py' spelling. */
  function UndotName(st: Local, name: Ty, ts: set<string>): Result<Local> {
    var (c, sc) :- UndotIn("c" in ts, st.c, st.sc, name);
    var (cy, scy) :- UndotIn("cy" in ts, st.cy, st.scy, name);
    var (py, spy) :- UndotIn("py" in ts, st.py, st.spy, name);
    Ok(Local(c, cy, py, sc, scy, spy))
  }

  /** The loop entering local_classes: every class name in turn. */
  function EnterLocal(st: Local, names: seq<Ty>, ts: set<string>): Result<Local>
    decreases |names|
  {
    if names == [] then Ok(st)
    else
      var st1 :- EnterLocal(st, names[..|names| - 1], ts);
      UndotName(st1, names[|names| - 1], ts)
  }

  /** One table's redot step, taken only when the table is in typesets. */
  function RedotIn(on: bool, d: map<Ty, Spelling>, saved: map<Ty, string>, name: Ty): Result<map<Ty, Spelling>> {
    if on then RedotStep(d, saved, name) else Ok(d)
  }

  /** Leaving local_classes for one name, with the prefixes saved on entry. */
  function RedotName(st: Local, name: Ty, ts: set<string>): Result<Local> {
    var c :- RedotIn("c" in ts, st.c, st.sc, name);
    var cy :- RedotIn("cy" in ts, st.cy, st.scy, name);
    var py :- RedotIn("py" in ts, st.py, st.spy, name);
    Ok(st.(c := c, cy := cy, py := py))
  }

  /** The loop leaving local_classes: every class name in turn. */
  function LeaveLocal(st: Local, names: seq<Ty>, ts: set<string>): Result<Local>
    decreases |names|
  {
    if names == [] then Ok(st)
    else
      var st1 :- LeaveLocal(st, names[..|names| - 1], ts);
      RedotName(st1, names[|names| - 1], ts)
  }

  /**
   * The tables UndotName leaves behind, also when its 'cy' or 'py' step
   * raises after the earlier tables have been rewritten.
   */
  function UndotNameState(st: Local, name: Ty, ts: set<string>): (r: Local)
    ensures UndotName(st, name, ts).Ok? ==> r == UndotName(st, name, ts).value
  {
    var c := UndotIn("c" in ts, st.c, st.sc, name);
    if c.Err? then st else UndotRestState(st.(c := c.value.0, sc := c.value.1), name, ts)
  }

  /** The tables the 'cy' and 'py' steps of UndotName leave behind. */
  function UndotRestState(st: Local, name: Ty, ts: set<string>): (r: Local)
    ensures r.c == st.c && r.sc == st.sc
  {
    var cy := UndotIn("cy" in ts, st.cy, st.scy, name);
    if cy.Err? then st
    else
      var py := UndotIn("py" in ts, st.py, st.spy, name);
      if py.Err? then st.(cy := cy.value.0, scy := cy.value.1)
      else st.(cy := cy.value.0, py := py.value.0, scy := cy.value.1, spy := py.value.1)
  }

  /**
   * The tables the entering loop leaves behind: those EnterLocal gives when
   * every name is rewritten, and otherwise the tables as they stand when
   * the first failing step raises.
   */
  function EnterLocalState(st: Local, names: seq<Ty>, ts: set<string>): (r: Local)
    ensures EnterLocal(st, names, ts).Ok? ==> r == EnterLocal(st, names, ts).value
    decreases |names|
  {
    if names == [] then st
    else
      var prev := EnterLocal(st, names[..|names| - 1], ts);
      if prev.Err? then EnterLocalState(st, names[..|names| - 1], ts)
      else UndotNameState(prev.value, names[|names| - 1], ts)
  }

  /** Once the entering loop has raised, the names after that point change no table. */
  lemma {:induction false} EnterLocalStatePrefixErr(st: Local, names: seq<Ty>, i: nat, ts: set<string>)
    requires i <= |names| && EnterLocal(st, names[..i], ts).Err?
    ensures EnterLocalState(st, names, ts) == EnterLocalState(st, names[..i], ts)
    decreases |names| - i
  {
    if i < |names| {
      assert names[..i + 1][..i] == names[..i];
      EnterLocalStatePrefixErr(st, names, i + 1, ts);
    } else {
      assert names[..i] == names;
    }
  }

  /**
   * The tables RedotName leaves behind, also when its 'cy' or 'py' step
   * raises after the earlier tables have been written.
   */
  function RedotNameState(st: Local, name: Ty, ts: set<string>): (r: Local)
    ensures RedotName(st, name, ts).Ok? ==> r == RedotName(st, name, ts).value
    ensures r.sc == st.sc && r.scy == st.scy && r.spy == st.spy
  {
    var c := RedotIn("c" in ts, st.c, st.sc, name);
    if c.Err? then st else RedotRestState(st.(c := c.value), name, ts)
  }

  /** The tables the 'cy' and 'py' steps of RedotName leave behind. */
  function RedotRestState(st: Local, name: Ty, ts: set<string>): (r: Local)
    ensures r.c == st.c && r.sc == st.sc && r.scy == st.scy && r.spy == st.spy
  {
    var cy := RedotIn("cy" in ts, st.cy, st.scy, name);
    if cy.Err? then st
    else
      var py := RedotIn("py" in ts, st.py, st.spy, name);
      if py.Err? then st.(cy := cy.value)
      else st.(cy := cy.value, py := py.value)
  }

  /**
   * The tables the leaving loop leaves behind: those LeaveLocal gives when
   * every name is restored, and otherwise the tables as they stand when the
   * first failing step raises.
   */
  function LeaveLocalState(st: Local, names: seq<Ty>, ts: set<string>): (r: Local)
    ensures LeaveLocal(st, names, ts).Ok? ==> r == LeaveLocal(st, names, ts).value
    decreases |names|
  {
    if names == [] then st
    else
      var prev := LeaveLocal(st, names[..|names| - 1], ts);
      if prev.Err? then LeaveLocalState(st, names[..|names| - 1], ts)
      else RedotNameState(prev.value, names[|names| - 1], ts)
  }

  /** Once the leaving loop has raised, the names after that point change no table. */
  lemma {:induction false} LeaveLocalStatePrefixErr(st: Local, names: seq<Ty>, i: nat, ts: set<string>)
    requires i <= |names| && LeaveLocal(st, names[..i], ts).Err?
    ensures LeaveLocalState(st, names, ts) == LeaveLocalState(st, names[..i], ts)
    decreases |names| - i
  {
    if i < |names| {
      assert names[..i + 1][..i] == names[..i];
      LeaveLocalStatePrefixErr(st, names, i + 1, ts);
    } else {
      assert names[..i] == names;
    }
  }

  /** One table's whole undot pass, or nothing when the table is not in typesets. */
  function UndotPass(on: bool, d: map<Ty, Spelling>, saved: map<Ty, string>, names: seq<Ty>)
    : Result<(map<Ty, Spelling>, map<Ty, string>)>
  {
    if on then UndotTable(d, saved, names) else Ok((d, saved))
  }

  /** One table's whole redot pass, or nothing when the table is not in typesets. */
  function RedotPass(on: bool, d: map<Ty, Spelling>, saved: map<Ty, string>, names: seq<Ty>): Result<map<Ty, Spelling>> {
    if on then RedotTable(d, saved, names) else Ok(d)
  }

  /**
   * The tables do not interact: entering succeeds exactly when each
   * table's own pass does, and then ends with each pass's result.
   */
  lemma {:induction false} EnterLocalSplit(st: Local, names: seq<Ty>, ts: set<string>)
    ensures EnterSplits(st, names, ts)
    decreases |names|
  {
    if names != [] {
      var init := names[..|names| - 1];
      EnterLocalSplit(st, init, ts);
      if EnterLocal(st, init, ts).Ok? {
        EnterSplitsOk(st, names, ts);
      } else {
        EnterSplitsErr(st, names, ts);
      }
    }
  }

  /** Entering succeeds exactly when each table's own pass does, and then ends with each pass's result. */
  ghost predicate EnterSplits(st: Local, names: seq<Ty>, ts: set<string>) {
    (EnterLocal(st, names, ts).Ok? <==>
      UndotPass("c" in ts, st.c, st.sc, names).Ok? && UndotPass("cy" in ts, st.cy, st.scy, names).Ok?
      && UndotPass("py" in ts, st.py, st.spy, names).Ok?)
    && (EnterLocal(st, names, ts).Ok? ==> var e := EnterLocal(st, names, ts).value;
      (e.c, e.sc) == UndotPass("c" in ts, st.c, st.sc, names).value
      && (e.cy, e.scy) == UndotPass("cy" in ts, st.cy, st.scy, names).value
      && (e.py, e.spy) == UndotPass("py" in ts, st.py, st.spy, names).value)
  }

  /** The step of EnterLocalSplit when the names before the last were all entered. */
  lemma EnterSplitsOk(st: Local, names: seq<Ty>, ts: set<string>)
    requires names != [] && EnterSplits(st, names[..|names| - 1], ts) && EnterLocal(st, names[..|names| - 1], ts).Ok?
    ensures EnterSplits(st, names, ts)
  {
    UndotPassStep("c" in ts, st.c, st.sc, names);
    UndotPassStep("cy" in ts, st.cy, st.scy, names);
    UndotPassStep("py" in ts, st.py, st.spy, names);
    UndotNameSplit(EnterLocal(st, names[..|names| - 1], ts).value, names[|names| - 1], ts);
  }

  /** The step of EnterLocalSplit when a name before the last already failed. */
  lemma EnterSplitsErr(st: Local, names: seq<Ty>, ts: set<string>)
    requires names != [] && EnterSplits(st, names[..|names| - 1], ts) && EnterLocal(st, names[..|names| - 1], ts).Err?
    ensures EnterSplits(st, names, ts)
  {
    UndotPassStep("c" in ts, st.c, st.sc, names);
    UndotPassStep("cy" in ts, st.cy, st.scy, names);
    UndotPassStep("py" in ts, st.py, st.spy, names);
  }

  /** One name's step on the three tables is the three tables' own steps. */
  lemma UndotNameSplit(st: Local, name: Ty, ts: set<string>)
    ensures UndotName(st, name, ts).Ok? <==>
      UndotIn("c" in ts, st.c, st.sc, name).Ok? && UndotIn("cy" in ts, st.cy, st.scy, name).Ok?
      && UndotIn("py" in ts, st.py, st.spy, name).Ok?
    ensures UndotName(st, name, ts).Ok? ==> var e := UndotName(st, name, ts).value;
      (e.c, e.sc) == UndotIn("c" in ts, st.c, st.sc, name).value
      && (e.cy, e.scy) == UndotIn("cy" in ts, st.cy, st.scy, name).value
      && (e.py, e.spy) == UndotIn("py" in ts, st.py, st.spy, name).value
  { }

  /** A whole pass is the pass over all names but the last, then the last name's step. */
  lemma UndotPassStep(on: bool, d: map<Ty, Spelling>, saved: map<Ty, string>, names: seq<Ty>)
    requires names != []
    ensures var p := UndotPass(on, d, saved, names[..|names| - 1]);
      UndotPass(on, d, saved, names)
      == (if p.Err? then Err(p.error) else UndotIn(on, p.value.0, p.value.1, names[|names| - 1]))
  { }

  /** Likewise for leaving: it succeeds exactly when each table's own redot pass does. */
  lemma {:induction false} LeaveLocalSplit(st: Local, names: seq<Ty>, ts: set<string>)
    ensures LeaveSplits(st, names, ts)
    decreases |names|
  {
    if names != [] {
      var init := names[..|names| - 1];
      LeaveLocalSplit(st, init, ts);
      if LeaveLocal(st, init, ts).Ok? {
        LeaveSplitsOk(st, names, ts);
      } else {
        LeaveSplitsErr(st, names, ts);
      }
    }
  }

  /** Leaving succeeds exactly when each table's own redot pass does, and then ends as they do. */
  ghost predicate LeaveSplits(st: Local, names: seq<Ty>, ts: set<string>) {
    (LeaveLocal(st, names, ts).Ok? <==>
      RedotPass("c" in ts, st.c, st.sc, names).Ok? && RedotPass("cy" in ts, st.cy, st.scy, names).Ok?
      && RedotPass("py" in ts, st.py, st.spy, names).Ok?)
    && (LeaveLocal(st, names, ts).Ok? ==> LeaveLocalEnds(st, names, ts))
  }

  /** The step of LeaveLocalSplit when the names before the last were all redotted. */
  lemma LeaveSplitsOk(st: Local, names: seq<Ty>, ts: set<string>)
    requires names != [] && LeaveSplits(st, names[..|names| - 1], ts) && LeaveLocal(st, names[..|names| - 1], ts).Ok?
    ensures LeaveSplits(st, names, ts)
  {
    RedotPassStep("c" in ts, st.c, st.sc, names);
    RedotPassStep("cy" in ts, st.cy, st.scy, names);
    RedotPassStep("py" in ts, st.py, st.spy, names);
    RedotNameSplit(LeaveLocal(st, names[..|names| - 1], ts).value, names[|names| - 1], ts);
  }

  /** The step of LeaveLocalSplit when a name before the last already failed. */
  lemma LeaveSplitsErr(st: Local, names: seq<Ty>, ts: set<string>)
    requires names != [] && LeaveSplits(st, names[..|names| - 1], ts) && LeaveLocal(st, names[..|names| - 1], ts).Err?
    ensures LeaveSplits(st, names, ts)
  {
    RedotPassStep("c" in ts, st.c, st.sc, names);
    RedotPassStep("cy" in ts, st.cy, st.scy, names);
    RedotPassStep("py" in ts, st.py, st.spy, names);
  }

  /** A completed leaving loop ends with each table's own redot pass, the saved prefixes kept. */
  ghost predicate LeaveLocalEnds(st: Local, names: seq<Ty>, ts: set<string>)
    requires LeaveLocal(st, names, ts).Ok?
  {
    var e := LeaveLocal(st, names, ts).value;
    RedotPass("c" in ts, st.c, st.sc, names) == Ok(e.c) && RedotPass("cy" in ts, st.cy, st.scy, names) == Ok(e.cy)
    && RedotPass("py" in ts, st.py, st.spy, names) == Ok(e.py)
    && e.sc == st.sc && e.scy == st.scy && e.spy == st.spy
  }

  /** One name's redot step on the three tables is the three tables' own steps. */
  lemma RedotNameSplit(st: Local, name: Ty, ts: set<string>)
    ensures RedotName(st, name, ts).Ok? <==>
      RedotIn("c" in ts, st.c, st.sc, name).Ok? && RedotIn("cy" in ts, st.cy, st.scy, name).Ok?
      && RedotIn("py" in ts, st.py, st.spy, name).Ok?
    ensures RedotName(st, name, ts).Ok? ==> var e := RedotName(st, name, ts).value;
      e.c == RedotIn("c" in ts, st.c, st.sc, name).value && e.cy == RedotIn("cy" in ts, st.cy, st.scy, name).value
      && e.py == RedotIn("py" in ts, st.py, st.spy, name).value
      && e.sc == st.sc && e.scy == st.scy && e.spy == st.spy
  { }

  /** A whole redot pass is the pass over all names but the last, then the last name's step. */
  lemma RedotPassStep(on: bool, d: map<Ty, Spelling>, saved: map<Ty, string>, names: seq<Ty>)
    requires names != []
    ensures var p := RedotPass(on, d, saved, names[..|names| - 1]);
      RedotPass(on, d, saved, names) == (if p.Err? then Err(p.error) else RedotIn(on, p.value, saved, names[|names| - 1]))
  { }

  /** An entering loop stopped at a name stops every longer loop there too. */
  lemma {:induction false} EnterLocalPrefixErr(st: Local, names: seq<Ty>, i: nat, ts: set<string>)
    requires i <= |names| && EnterLocal(st, names[..i], ts).Err?
    ensures EnterLocal(st, names, ts) == EnterLocal(st, names[..i], ts)
    decreases |names| - i
  {
    if i < |names| {
      assert names[..i + 1][..i] == names[..i];
      EnterLocalPrefixErr(st, names, i + 1, ts);
    } else {
      assert names[..i] == names;
    }
  }

  /** A leaving loop stopped at a name stops every longer loop there too. */
  lemma {:induction false} LeaveLocalPrefixErr(st: Local, names: seq<Ty>, i: nat, ts: set<string>)
    requires i <= |names| && LeaveLocal(st, names[..i], ts).Err?
    ensures LeaveLocal(st, names, ts) == LeaveLocal(st, names[..i], ts)
    decreases |names| - i
  {
    if i < |names| {
      assert names[..i + 1][..i] == names[..i];
      LeaveLocalPrefixErr(st, names, i + 1, ts);
    } else {
      assert names[..i] == names;
    }
  }

  /**
   * Leaving local_classes right after entering it gives every rewritten
   * table back, when the class names are distinct and none of their
   * spellings in those tables starts with its last '.'.
   */
  lemma LocalClassesRoundTrip(c: map<Ty, Spelling>, cy: map<Ty, Spelling>, py: map<Ty, Spelling>,
                              names: seq<Ty>, ts: set<string>)
    requires Distinct(names)
    requires ("c" in ts ==> AllRestorable(c, names)) && ("cy" in ts ==> AllRestorable(cy, names))
    requires "py" in ts ==> AllRestorable(py, names)
    ensures EnterLocal(Local(c, cy, py, map[], map[], map[]), names, ts).Ok?
    ensures var e := EnterLocal(Local(c, cy, py, map[], map[], map[]), names, ts).value;
      LeaveLocal(e, names, ts).Ok?
      && LeaveLocal(e, names, ts).value.c == c && LeaveLocal(e, names, ts).value.cy == cy
      && LeaveLocal(e, names, ts).value.py == py
  {
    var st := Local(c, cy, py, map[], map[], map[]);
    if "c" in ts { LocalRoundTrip(c, map[], names); }
    if "cy" in ts { LocalRoundTrip(cy, map[], names); }
    if "py" in ts { LocalRoundTrip(py, map[], names); }
    EnterLocalSplit(st, names, ts);
    var e := EnterLocal(st, names, ts).value;
    LeaveLocalSplit(e, names, ts);
  }
}
