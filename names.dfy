/**
 * Names derived from a type by filling the format strings of a name table:
 * humanname, cython_functionname (also cython_variablename),
 * cython_classname, the slot filling shared with _fill_cycyt/_fill_cypyt,
 * cython_literal and cython_funcname.
 */
module Names {
  import opened Values
  import opened Registry
  import opened Canonical

  // ---------------------------------------------------------------------
  // Numbers inside identifiers

  /** The three successive replacements '-' -> 'Neg', '+' -> 'Pos', '.' -> 'point'. */
  function MangleText(s: string): string {
    Replace(Replace(Replace(s, "-", "Neg"), "+", "Pos"), ".", "point")
  }

  /**
   * str(n) made fit for an identifier: 'Neg' and the digits for a negative
   * integer, the digits otherwise (MangleNumberForm shows this is what the
   * three replacements make of str(n)).
   */
  function MangleNumber(n: int): string {
    if n < 0 then "Neg" + NatStr(-n) else NatStr(n)
  }

  /** Replacing each c in s by sub. */
  function SubstChar(s: string, c: char, sub: string): string {
    if s == [] then [] else (if s[0] == c then sub else [s[0]]) + SubstChar(s[1..], c, sub)
  }

  /** The character-by-character reading of MangleText. */
  function MangleChar(ch: char): string {
    if ch == '-' then "Neg" else if ch == '+' then "Pos" else if ch == '.' then "point" else [ch]
  }

  function MangleChars(s: string): string {
    if s == [] then [] else MangleChar(s[0]) + MangleChars(s[1..])
  }

  lemma {:induction false} SubstCharAppend(a: string, b: string, c: char, sub: string)
    ensures SubstChar(a + b, c, sub) == SubstChar(a, c, sub) + SubstChar(b, c, sub)
    decreases |a|
  {
    if a != [] {
      assert (a + b)[1..] == a[1..] + b;
      SubstCharAppend(a[1..], b, c, sub);
    } else {
      assert a + b == b;
    }
  }

  /** str.replace with a one-character pattern replaces each occurrence of that character. */
  lemma {:induction false} ReplaceOneChar(s: string, c: char, sub: string)
    ensures Replace(s, [c], sub) == SubstChar(s, c, sub)
    decreases |s|
  {
    if s != [] {
      ReplaceOneChar(s[1..], c, sub);
      if s[0] == c {
        assert s[..1] == [c];
      } else {
        assert s[..1][0] == s[0];
      }
    }
  }

  /** Substituting a character that does not occur changes nothing. */
  lemma {:induction false} SubstAbsent(s: string, c: char, sub: string)
    requires c !in s
    ensures SubstChar(s, c, sub) == s
    decreases |s|
  {
    if s != [] {
      assert c !in s[1..];
      SubstAbsent(s[1..], c, sub);
      assert [s[0]] + s[1..] == s;
    }
  }

  /** The successive replacements equal one pass over the characters. */
  lemma {:induction false} MangleTextPerChar(s: string)
    ensures MangleText(s) == MangleChars(s)
  {
    ReplaceOneChar(s, '-', "Neg");
    var s1 := SubstChar(s, '-', "Neg");
    ReplaceOneChar(s1, '+', "Pos");
    var s2 := SubstChar(s1, '+', "Pos");
    ReplaceOneChar(s2, '.', "point");
    ThreeSubstitutions(s);
  }

  lemma {:induction false} ThreeSubstitutions(s: string)
    ensures SubstChar(SubstChar(SubstChar(s, '-', "Neg"), '+', "Pos"), '.', "point") == MangleChars(s)
    decreases |s|
  {
    if s != [] {
      var h := if s[0] == '-' then "Neg" else [s[0]];
      assert SubstChar(s, '-', "Neg") == h + SubstChar(s[1..], '-', "Neg");
      SubstCharAppend(h, SubstChar(s[1..], '-', "Neg"), '+', "Pos");
      var h2 := SubstChar(h, '+', "Pos");
      SubstCharAppend(h2, SubstChar(SubstChar(s[1..], '-', "Neg"), '+', "Pos"), '.', "point");
      ThreeSubstitutions(s[1..]);
      assert SubstChar(h2, '.', "point") == MangleChar(s[0]) by {
        if s[0] == '-' {
          SubstAbsent("Neg", '+', "Pos");
          SubstAbsent("Neg", '.', "point");
        } else if s[0] == '+' {
          assert h == "+";
          assert h2 == "Pos";
          SubstAbsent("Pos", '.', "point");
        } else {
          assert h == [s[0]];
        }
      }
    }
  }

  lemma {:induction false} MangleCharsAppend(a: string, b: string)
    ensures MangleChars(a + b) == MangleChars(a) + MangleChars(b)
    decreases |a|
  {
    if a != [] {
      assert (a + b)[1..] == a[1..] + b;
      MangleCharsAppend(a[1..], b);
    } else {
      assert a + b == b;
    }
  }

  lemma {:induction false} MangleDigits(s: string)
    requires forall i :: 0 <= i < |s| ==> '0' <= s[i] <= '9'
    ensures MangleChars(s) == s
    decreases |s|
  {
    if s != [] {
      MangleDigits(s[1..]);
      assert [s[0]] + s[1..] == s;
    }
  }

  /** str(n) with '-', '+' and '.' replaced by 'Neg', 'Pos' and 'point' is the mangled integer. */
  lemma MangleNumberForm(n: int)
    ensures MangleText(IntStr(n)) == MangleNumber(n)
  {
    MangleTextPerChar(IntStr(n));
    if n < 0 {
      MangleCharsAppend("-", NatStr(-n));
      MangleDigits(NatStr(-n));
    } else {
      MangleDigits(NatStr(n));
    }
  }

  /** The value of a decimal digit. */
  function DigitValue(c: char): nat {
    if '0' <= c <= '9' then c as int - '0' as int else 0
  }

  /** int(s) for a string of decimal digits. */
  function ParseNat(s: string): nat
    decreases |s|
  {
    if s == [] then 0 else ParseNat(s[..|s| - 1]) * 10 + DigitValue(s[|s| - 1])
  }

  /** Reads a mangled integer back: 'Neg' marks a negative one. */
  function Unmangle(m: string): int {
    if |m| >= 3 && m[..3] == "Neg" then -(ParseNat(m[3..]) as int) else ParseNat(m)
  }

  lemma DigitValueOf(d: nat)
    requires d < 10
    ensures DigitValue(DigitChar(d)) == d
  {
    if d == 0 {} else if d == 1 {} else if d == 2 {} else if d == 3 {} else if d == 4 {}
    else if d == 5 {} else if d == 6 {} else if d == 7 {} else if d == 8 {} else {}
  }

  /** Reading str(n) back gives n. */
  lemma {:induction false} ParseNatStr(n: nat)
    ensures ParseNat(NatStr(n)) == n
    decreases n
  {
    var s := NatStr(n);
    if n < 10 {
      assert s[..|s| - 1] == [];
      DigitValueOf(n);
    } else {
      assert s[..|s| - 1] == NatStr(n / 10);
      assert s[|s| - 1] == DigitChar(n % 10);
      ParseNatStr(n / 10);
      DigitValueOf(n % 10);
    }
  }

  /** The mangled text of an integer reads back as that integer. */
  lemma UnmangleNumber(n: int)
    ensures Unmangle(MangleNumber(n)) == n
  {
    if n < 0 {
      UnmangleNegative(MangleNumber(n), -n);
    } else {
      UnmangleNatural(MangleNumber(n), n);
    }
  }

  lemma UnmangleNegative(m: string, x: nat)
    requires m == "Neg" + NatStr(x)
    ensures Unmangle(m) == -(x as int)
  {
    assert m[..3] == "Neg" && m[3..] == NatStr(x);
    ParseNatStr(x);
  }

  lemma UnmangleNatural(m: string, x: nat)
    requires m == NatStr(x)
    ensures Unmangle(m) == x
  {
    assert '0' <= m[0] <= '9';
    assert |m| >= 3 ==> m[..3][0] == m[0];
    ParseNatStr(x);
  }

  /** Distinct integers never mangle to the same identifier text. */
  lemma MangleNumberInjective(a: int, b: int)
    requires MangleNumber(a) == MangleNumber(b)
    ensures a == b
  {
    UnmangleNumber(a);
    UnmangleNumber(b);
  }

  /** A mangled integer starts with 'N' exactly when the integer is negative. */
  lemma MangleSign(n: int)
    ensures |MangleNumber(n)| > 0 && (MangleNumber(n)[0] == 'N' <==> n < 0)
  {
    if n < 0 {
      var d := NatStr(-n);
      assert ("Neg" + d)[0] == 'N';
    } else {
      var d := NatStr(n);
      assert '0' <= d[0] <= '9';
    }
  }

  /** A mangled integer holds no sign and no point. */
  lemma MangleNumberClean(n: int)
    ensures '-' !in MangleNumber(n) && '+' !in MangleNumber(n) && '.' !in MangleNumber(n)
  {
    var m := MangleNumber(n);
    var d := NatStr(if n < 0 then -n else n);
    forall i | 0 <= i < |m| ensures m[i] != '-' && m[i] != '+' && m[i] != '.' {
      if n < 0 {
        assert m == "Neg" + d;
        if i >= 3 {
          assert m[i] == d[i - 3];
        }
      } else {
        assert m == d;
      }
    }
  }

  /** cython_literal: numbers mangled, strings quoted; any other value leaves the result unassigned. */
  function CythonLiteral(x: Ty): (r: Result<string>)
    ensures x.N? ==> r == Ok(MangleNumber(x.n))
    ensures x.S? ==> r == Ok(PyRepr(x))
    ensures !x.N? && !x.S? ==> r == Err(UnboundLocalError)
  {
    match x
    case N(n) => Ok(MangleNumber(n))
    case S(_) => Ok(PyRepr(x))
    case _ => Err(UnboundLocalError)
  }

  // ---------------------------------------------------------------------
  // Filling a table's format strings

  /**
   * How a slot is named: Strict (humanname, _fill_cycyt, _fill_cypyt) looks a
   * name slot up and fails when it is missing and spells numbers as str();
   * Lenient (cython_functionname, cython_classname) keeps an unknown name
   * as written and mangles numbers. HumanAsWritten is humanname as the code
   * unpacks its nested call: it names slots as Strict does, except that a
   * nested template slot, once its own name has been filled, contributes
   * str() of the slot itself.
   */
  datatype SlotMode = Strict | Lenient | HumanAsWritten

  /** The name a single template slot contributes to the format fields. */
  function SlotName(tb: Registry, table: map<Ty, string>, mode: SlotMode, x: Ty, fuel: nat): (r: Result<string>)
    ensures x.S? && x in table ==> r == Ok(table[x])
    ensures x.S? && x !in table ==> r == (if mode != Lenient then Err(KeyError) else Ok(x.s))
    ensures x.N? ==> r == Ok(if mode != Lenient then IntStr(x.n) else MangleNumber(x.n))
    decreases fuel, 0
  {
    match x
    case S(s) => if x in table then Ok(table[x]) else if mode != Lenient then Err(KeyError) else Ok(s)
    case N(n) => Ok(if mode != Lenient then IntStr(n) else MangleNumber(n))
    case K(_) => Err(TypeError)
    case Nil => Err(TypeError)
    case T(_) =>
      var h :- At(x, 0);
      if h in tb.baseTypes then (if h in table then Ok(table[h]) else Err(KeyError))
      else if h !in table then Err(KeyError)
      else if fuel == 0 then Err(RecursionLimit)
      else if mode == HumanAsWritten then
        var _ :- FillFormat(tb, table, mode, table[h], x, fuel - 1); Ok(PyStr(x))
      else FillFormat(tb, table, mode, table[h], x, fuel - 1)
  }

  /** dict(zip(parameter names, slot names)); a later parameter of the same name wins. */
  function SlotFields(tb: Registry, table: map<Ty, string>, mode: SlotMode, keys: seq<Ty>, slots: seq<Ty>, fuel: nat)
    : (r: Result<map<Ty, string>>)
    ensures r.Ok? ==> forall k :: k in r.value ==> k in keys
    ensures r.Ok? && |keys| > 0 && |slots| > 0 && keys[0] !in keys[1..] ==>
      keys[0] in r.value && SlotName(tb, table, mode, slots[0], fuel) == Ok(r.value[keys[0]])
    decreases fuel, 1, |slots|
  {
    if keys == [] || slots == [] then Ok(map[])
    else
      var v :- SlotName(tb, table, mode, slots[0], fuel);
      var rest :- SlotFields(tb, table, mode, keys[1..], slots[1..], fuel);
      Ok(map[keys[0] := v] + rest)
  }

  /** The fields of a format call keyed by their (string) names. */
  function StringKeyed(d: map<Ty, string>): map<string, string>
    requires forall k :: k in d ==> k.S?
  {
    map k | k in d :: k.s := d[k]
  }

  /** The format fields for the template t: its parameter names mapped to the names of its slots. */
  function TemplateFields(tb: Registry, table: map<Ty, string>, mode: SlotMode, t: Ty, fuel: nat)
    : Result<map<Ty, string>>
    decreases fuel, 2
  {
    var h :- At(t, 0);
    if h !in tb.templateTypes then Err(KeyError)
    else SlotFields(tb, table, mode, tb.templateTypes[h], Mid(PyItems(t)), fuel)
  }

  /** fmt.format(**fields): the field names must be strings. */
  function FormatFields(fmt: string, d: map<Ty, string>): Result<string> {
    if exists k :: k in d && !k.S? then Err(TypeError)
    else Format(fmt, StringKeyed(d))
  }

  /** fmt.format(**fields) where the fields name the slots of the template t. */
  function FillFormat(tb: Registry, table: map<Ty, string>, mode: SlotMode, fmt: string, t: Ty, fuel: nat)
    : Result<string>
    decreases fuel, 3
  {
    var d :- TemplateFields(tb, table, mode, t, fuel);
    FormatFields(fmt, d)
  }

  /**
   * The pair (canonical form, name) produced by humanname,
   * cython_functionname and cython_classname with no format string given:
   * a name or a type headed by a base type reads the table; a template fills
   * the format string registered for its name.
   */
  function NameFor(tb: Registry, table: map<Ty, string>, mode: SlotMode, t: Ty, fuel: nat): (r: Result<(Ty, string)>)
    ensures r.Ok? ==> Canon(tb, t, fuel) == Ok(r.value.0)
    ensures Canon(tb, t, fuel).Err? ==> r == Err(Canon(tb, t, fuel).error)
    ensures Canon(tb, t, fuel).Ok? && Canon(tb, t, fuel).value.S? ==>
      r == (var c := Canon(tb, t, fuel).value; if c in table then Ok((c, table[c])) else Err(KeyError))
  {
    var c :- Canon(tb, t, fuel);
    if c.S? then (if c in table then Ok((c, table[c])) else Err(KeyError))
    else
      var h :- At(c, 0);
      if h in tb.baseTypes then (if h in table then Ok((c, table[h])) else Err(KeyError))
      else if h !in table then Err(KeyError)
      else
        var s :- FillFormat(tb, table, mode, table[h], c, fuel);
        Ok((c, s))
  }

  function HumanName(tb: Registry, t: Ty, fuel: nat): Result<(Ty, string)> {
    NameFor(tb, tb.humannames, Strict, t, fuel)
  }

  /**
   * humanname as the code is written: the nested call returns the pair
   * (type, name) and the slot loop keeps its first half, so a nested
   * template slot is named by str() of the slot.
   */
  function HumanNameAsWritten(tb: Registry, t: Ty, fuel: nat): Result<(Ty, string)> {
    NameFor(tb, tb.humannames, HumanAsWritten, t, fuel)
  }

  function CythonFunctionname(tb: Registry, t: Ty, fuel: nat): Result<(Ty, string)> {
    NameFor(tb, tb.cythonFunctionnames, Lenient, t, fuel)
  }

  function CythonClassname(tb: Registry, t: Ty, fuel: nat): Result<(Ty, string)> {
    NameFor(tb, tb.cythonClassnames, Lenient, t, fuel)
  }

  /**
   * cython_classname of a type whose canonical form is headed by a base
   * type is the class name of the head; a head without one is a KeyError.
   */
  lemma ClassnameOfBaseHeaded(tb: Registry, t: Ty, fuel: nat)
    requires Canon(tb, t, fuel).Ok? && Canon(tb, t, fuel).value.T?
    requires |Canon(tb, t, fuel).value.items| > 0 && Canon(tb, t, fuel).value.items[0] in tb.baseTypes
    ensures var c := Canon(tb, t, fuel).value; var h := c.items[0];
      CythonClassname(tb, t, fuel) == if h in tb.cythonClassnames then Ok((c, tb.cythonClassnames[h])) else Err(KeyError)
  {
    var c := Canon(tb, t, fuel).value;
    assert At(c, 0) == Ok(c.items[0]);
  }

  /**
   * A one-parameter template whose slot is a known name fills the single
   * field of its format string with that name's entry.
   */
  lemma FillOneParameter(tb: Registry, table: map<Ty, string>, mode: SlotMode, h: Ty, p: string, x: string,
                         pre: string, post: string, last: Ty, fuel: nat)
    requires h in tb.templateTypes && tb.templateTypes[h] == [S(p)] && S(x) in table
    requires '{' !in pre && '}' !in pre && '{' !in post && '}' !in post && '{' !in p && '}' !in p
    ensures FillFormat(tb, table, mode, pre + "{" + p + "}" + post, T([h, S(x), last]), fuel)
      == Ok(pre + table[S(x)] + post)
  {
    var t := T([h, S(x), last]);
    assert At(t, 0) == Ok(h);
    assert Mid(PyItems(t)) == [S(x)];
    var keys, slots := [S(p)], [S(x)];
    assert SlotFields(tb, table, mode, keys[1..], slots[1..], fuel) == Ok(map[]);
    var d := SlotFields(tb, table, mode, keys, slots, fuel);
    assert SlotName(tb, table, mode, S(x), fuel) == Ok(table[S(x)]);
    assert d == Ok(map[S(p) := table[S(x)]] + map[]);
    assert map[S(p) := table[S(x)]] + map[] == map[S(p) := table[S(x)]];
    assert StringKeyed(d.value) == map[p := table[S(x)]];
    FormatOneField(pre, p, post, map[p := table[S(x)]]);
  }

  /** humanname of a registered template whose slot is a base type with a human name. */
  lemma HumanNameOfTemplate(tb: Registry, t: Ty, fuel: nat, h: string, p: string, x: string, last: Ty,
                            pre: string, post: string)
    requires Canon(tb, t, fuel) == Ok(T([S(h), S(x), last]))
    requires S(h) !in tb.baseTypes && S(h) in tb.templateTypes && tb.templateTypes[S(h)] == [S(p)]
    requires S(h) in tb.humannames && tb.humannames[S(h)] == pre + "{" + p + "}" + post
    requires S(x) in tb.humannames
    requires '{' !in pre && '}' !in pre && '{' !in post && '}' !in post && '{' !in p && '}' !in p
    ensures HumanName(tb, t, fuel) == Ok((T([S(h), S(x), last]), pre + tb.humannames[S(x)] + post))
  {
    FillOneParameter(tb, tb.humannames, Strict, S(h), p, x, pre, post, last, fuel);
  }

  /** A one-parameter template fills the single field of its format string with its slot's name. */
  lemma FillOneSlot(tb: Registry, table: map<Ty, string>, mode: SlotMode, h: Ty, p: string, x: Ty, v: string,
                    pre: string, post: string, last: Ty, fuel: nat)
    requires h in tb.templateTypes && tb.templateTypes[h] == [S(p)] && SlotName(tb, table, mode, x, fuel) == Ok(v)
    requires '{' !in pre && '}' !in pre && '{' !in post && '}' !in post && '{' !in p && '}' !in p
    ensures FillFormat(tb, table, mode, pre + "{" + p + "}" + post, T([h, x, last]), fuel) == Ok(pre + v + post)
  {
    var t := T([h, x, last]);
    assert At(t, 0) == Ok(h);
    assert Mid(PyItems(t)) == [x];
    var keys, slots := [S(p)], [x];
    assert SlotFields(tb, table, mode, keys[1..], slots[1..], fuel) == Ok(map[]);
    assert SlotFields(tb, table, mode, keys, slots, fuel) == Ok(map[S(p) := v] + map[]);
    assert map[S(p) := v] + map[] == map[S(p) := v];
    assert StringKeyed(map[S(p) := v]) == map[p := v];
    FormatOneField(pre, p, post, map[p := v]);
  }

  /**
   * humanname of a template whose slot is itself a template: the intended
   * name nests the slot's own human name, while the code as written puts
   * str() of the slot in its place, so the two differ whenever the inner
   * format string starts with text other than '('.
   */
  lemma NestedHumanName(tb: Registry, t: Ty, fuel: nat, h: string, p: string, x: Ty, last: Ty,
                        pre: string, post: string, h2: string, p2: string, b: string, last2: Ty,
                        pre2: string, post2: string)
    requires fuel > 0 && Canon(tb, t, fuel) == Ok(T([S(h), x, last])) && x == T([S(h2), S(b), last2])
    requires S(h) !in tb.baseTypes && S(h) in tb.templateTypes && tb.templateTypes[S(h)] == [S(p)]
    requires S(h2) !in tb.baseTypes && S(h2) in tb.templateTypes && tb.templateTypes[S(h2)] == [S(p2)]
    requires S(h) in tb.humannames && tb.humannames[S(h)] == pre + "{" + p + "}" + post
    requires S(h2) in tb.humannames && tb.humannames[S(h2)] == pre2 + "{" + p2 + "}" + post2
    requires S(b) in tb.humannames
    requires '{' !in pre && '}' !in pre && '{' !in post && '}' !in post && '{' !in p && '}' !in p
    requires '{' !in pre2 && '}' !in pre2 && '{' !in post2 && '}' !in post2 && '{' !in p2 && '}' !in p2
    ensures HumanName(tb, t, fuel) == Ok((T([S(h), x, last]), pre + pre2 + tb.humannames[S(b)] + post2 + post))
    ensures HumanNameAsWritten(tb, t, fuel) == Ok((T([S(h), x, last]), pre + PyStr(x) + post))
    ensures pre2 != [] && pre2[0] != '(' ==> HumanName(tb, t, fuel) != HumanNameAsWritten(tb, t, fuel)
  {
    var hn := tb.humannames;
    var c := T([S(h), x, last]);
    var inner := pre2 + hn[S(b)] + post2;
    NestedSlotNames(tb, fuel, x, h2, p2, b, last2, pre2, post2);
    NestedFill(tb, t, fuel, Strict, h, p, x, last, pre, post, inner);
    NestedFill(tb, t, fuel, HumanAsWritten, h, p, x, last, pre, post, PyStr(x));
    Nest(pre, pre2, hn[S(b)], post2, post);
    if pre2 != [] && pre2[0] != '(' {
      assert PyStr(x)[0] == '(';
      DiffersAfter(pre, inner, PyStr(x), post, post);
    }
  }

  /** The name of a one-parameter template whose slot names to v. */
  lemma NestedFill(tb: Registry, t: Ty, fuel: nat, mode: SlotMode, h: string, p: string, x: Ty, last: Ty,
                   pre: string, post: string, v: string)
    requires Canon(tb, t, fuel) == Ok(T([S(h), x, last]))
    requires S(h) !in tb.baseTypes && S(h) in tb.templateTypes && tb.templateTypes[S(h)] == [S(p)]
    requires S(h) in tb.humannames && tb.humannames[S(h)] == pre + "{" + p + "}" + post
    requires SlotName(tb, tb.humannames, mode, x, fuel) == Ok(v)
    requires '{' !in pre && '}' !in pre && '{' !in post && '}' !in post && '{' !in p && '}' !in p
    ensures NameFor(tb, tb.humannames, mode, t, fuel) == Ok((T([S(h), x, last]), pre + v + post))
  {
    FillOneSlot(tb, tb.humannames, mode, S(h), p, x, v, pre, post, last, fuel);
    NameForTemplate(tb, tb.humannames, mode, t, fuel, T([S(h), x, last]), pre + v + post);
  }

  /** Filling a nested field: the inner text goes between the outer prefix and suffix. */
  lemma Nest(pre: string, pre2: string, v: string, post2: string, post: string)
    ensures pre + (pre2 + v + post2) + post == pre + pre2 + v + post2 + post
  { }

  /** Two texts with the same prefix differ when the parts after it start differently. */
  lemma DiffersAfter(pre: string, a: string, b: string, post: string, post': string)
    requires a != [] && b != [] && a[0] != b[0]
    ensures pre + a + post != pre + b + post'
  {
    assert (pre + a + post)[|pre|] == a[0];
    assert (pre + b + post')[|pre|] == b[0];
  }

  /** The name a nested template slot contributes, intended and as written. */
  lemma NestedSlotNames(tb: Registry, fuel: nat, x: Ty, h2: string, p2: string, b: string, last2: Ty,
                        pre2: string, post2: string)
    requires fuel > 0 && x == T([S(h2), S(b), last2])
    requires S(h2) !in tb.baseTypes && S(h2) in tb.templateTypes && tb.templateTypes[S(h2)] == [S(p2)]
    requires S(h2) in tb.humannames && tb.humannames[S(h2)] == pre2 + "{" + p2 + "}" + post2
    requires S(b) in tb.humannames
    requires '{' !in pre2 && '}' !in pre2 && '{' !in post2 && '}' !in post2 && '{' !in p2 && '}' !in p2
    ensures SlotName(tb, tb.humannames, Strict, x, fuel) == Ok(pre2 + tb.humannames[S(b)] + post2)
    ensures SlotName(tb, tb.humannames, HumanAsWritten, x, fuel) == Ok(PyStr(x))
  {
    FillOneParameter(tb, tb.humannames, Strict, S(h2), p2, b, pre2, post2, last2, fuel - 1);
    FillOneParameter(tb, tb.humannames, HumanAsWritten, S(h2), p2, b, pre2, post2, last2, fuel - 1);
    assert At(x, 0) == Ok(S(h2));
  }

  /** The pair for a type whose canonical form is headed by a template with a registered format string. */
  lemma NameForTemplate(tb: Registry, table: map<Ty, string>, mode: SlotMode, t: Ty, fuel: nat, c: Ty, s: string)
    requires Canon(tb, t, fuel) == Ok(c) && c.T? && |c.items| > 0
    requires c.items[0] !in tb.baseTypes && c.items[0] in table
    requires FillFormat(tb, table, mode, table[c.items[0]], c, fuel) == Ok(s)
    ensures NameFor(tb, table, mode, t, fuel) == Ok((c, s))
  {
    assert At(c, 0) == Ok(c.items[0]);
  }

  // ---------------------------------------------------------------------
  // cython_funcname

  /** The identifier pieces of the template arguments of a function name. */
  function FuncnameParts(tb: Registry, xs: seq<Ty>, kinds: seq<ArgKind>, fuel: nat): (r: Result<seq<Ty>>)
    ensures r.Ok? ==> |r.value| == if |xs| < |kinds| then |xs| else |kinds|
    ensures r.Ok? ==> forall i :: 0 <= i < |r.value| && kinds[i] == VarArg ==> r.value[i] == xs[i]
    ensures r.Ok? ==> forall i :: 0 <= i < |r.value| && kinds[i] == LitArg ==>
      CythonLiteral(xs[i]).Ok? && r.value[i] == S(CythonLiteral(xs[i]).value)
    decreases |xs|
  {
    if xs == [] || kinds == [] then Ok([])
    else
      var cf :- FuncnamePart(tb, xs[0], kinds[0], fuel);
      var rest :- FuncnameParts(tb, xs[1..], kinds[1..], fuel);
      var res := [cf] + rest;
      assert forall i :: 1 <= i < |res| ==> xs[i] == xs[1..][i - 1] && kinds[i] == kinds[1..][i - 1] && res[i] == rest[i - 1];
      Ok(res)
  }

  /** The identifier piece of one template argument of the given kind. */
  function FuncnamePart(tb: Registry, x: Ty, kind: ArgKind, fuel: nat): (r: Result<Ty>)
    ensures kind == VarArg ==> r == Ok(x)
    ensures kind == LitArg && r.Ok? ==> CythonLiteral(x).Ok? && r.value == S(CythonLiteral(x).value)
  {
    if kind == TypeArg then
      var p :- CythonFunctionname(tb, x, fuel); Ok(S(p.1))
    else if kind == LitArg then
      var l :- CythonLiteral(x); Ok(S(l))
    else if kind == VarArg then Ok(x)
    else if x.N? then Ok(S(MangleNumber(x.n)))
    else
      var g := CythonFunctionname(tb, x, fuel);
      if g == Err(TypeError) then Ok(x) else var p :- g; Ok(S(p.1))
  }

  /**
   * cython_funcname: a string name as is; otherwise the head name followed by
   * '_' and the argument pieces joined with '_'.
   */
  function CythonFuncname(tb: Registry, name: Ty, argkinds: Option<seq<ArgKind>>, fuel: nat): (r: Result<string>)
    ensures name.S? ==> r == Ok(name.s)
    ensures !IsSeq(name) ==> r == Err(TypeError)
    ensures name == T([]) ==> r == Err(IndexError)
  {
    if name.S? then Ok(name.s)
    else if !IsSeq(name) then Err(TypeError)
    else
      var items := PyItems(name);
      var kinds := if argkinds.Some? then argkinds.value else NoneKinds(if |items| == 0 then 0 else |items| - 1);
      if |items| == 0 then Err(IndexError)
      else
        var fname := items[0];
        var cfs :- FuncnameParts(tb, items[1..], kinds, fuel);
        if |cfs| == 0 then (if fname.S? then Ok(fname.s) else Err(TypeError))
        else
          var joined :- JoinValues("_", cfs);
          if fname.S? then Ok(fname.s + "_" + joined) else Err(TypeError)
  }

  /** A function name with variable arguments joins its head and the variables with '_'. */
  lemma FuncnameOfVariables(tb: Registry, f: string, a: string, b: string, fuel: nat)
    ensures CythonFuncname(tb, T([S(f), S(a), S(b)]), Some([VarArg, VarArg]), fuel) == Ok(f + "_" + a + "_" + b)
  {
    VariableParts(tb, a, b, fuel);
    JoinTwoNames(a, b);
    var name := T([S(f), S(a), S(b)]);
    assert PyItems(name)[1..] == [S(a), S(b)];
    assert f + "_" + (a + "_" + b) == f + "_" + a + "_" + b;
  }

  /** Variable arguments are their own identifier pieces. */
  lemma VariableParts(tb: Registry, a: string, b: string, fuel: nat)
    ensures FuncnameParts(tb, [S(a), S(b)], [VarArg, VarArg], fuel) == Ok([S(a), S(b)])
  {
    var xs2, ks2 := [S(b)], [VarArg];
    assert FuncnameParts(tb, xs2[1..], ks2[1..], fuel) == Ok([]);
    assert FuncnamePart(tb, S(b), VarArg, fuel) == Ok(S(b));
    assert [S(b)] + [] == [S(b)];
    assert FuncnameParts(tb, xs2, ks2, fuel) == Ok([S(b)]);
    var xs, ks := [S(a), S(b)], [VarArg, VarArg];
    assert xs[1..] == xs2 && ks[1..] == ks2;
    assert FuncnamePart(tb, S(a), VarArg, fuel) == Ok(S(a));
    assert [S(a)] + [S(b)] == [S(a), S(b)];
  }

  lemma JoinTwoNames(a: string, b: string)
    ensures JoinValues("_", [S(a), S(b)]) == Ok(a + "_" + b)
  {
    var strs := seq(2, i requires 0 <= i < 2 => [S(a), S(b)][i].s);
    assert strs == [a, b];
    assert strs[1..] == [b];
    assert Join("_", strs) == a + "_" + b;
  }
}
