/**
 * The Python values an xdress type is built from, the exceptions the type
 * system raises, and the handful of Python sequence and string operations
 * the type algebra relies on (indexing, slicing, str(), repr(), str.join,
 * str.replace, str.format with keyword fields, str.rsplit on '.').
 */
module Values {

  /** The members of xdress.utils.Arg, which tag the parameters of a template. */
  datatype ArgKind = TypeArg | LitArg | VarArg | NoneArg

  /**
   * A Python value as it appears inside a type: a string, an integer (bools
   * are the integers 0 and 1), an Arg member, None, or a tuple.
   */
  datatype Ty = S(s: string) | N(n: int) | K(kind: ArgKind) | Nil | T(items: seq<Ty>)

  /** The exception an operation raises. */
  datatype Error =
    | TypeError
    | IndexError
    | KeyError
    | AssertionError
    | ValueError
    | NotImplementedError
    | AttributeError
      /** a local variable read before any branch assigned it */
    | UnboundLocalError
      /** Python's recursion limit was reached */
    | RecursionLimit
      /** the operation returns None, NotImplemented or a callable where a string is expected */
    | NonString

  datatype Option<V> = None | Some(value: V)

  datatype Result<V> = Ok(value: V) | Err(error: Error) {
    predicate IsFailure() { Err? }
    function PropagateFailure<U>(): Result<U>
      requires Err?
    {
      Err(error)
    }
    function Extract(): V
      requires Ok?
    {
      value
    }
  }

  /** isinstance(v, Sequence): strings and tuples. */
  predicate IsSeq(v: Ty) {
    v.S? || v.T?
  }

  /** The elements of a sequence value; a string's elements are its one-character strings. */
  function PyItems(v: Ty): (r: seq<Ty>)
    ensures v.T? ==> r == v.items
    ensures v.S? ==> |r| == |v.s| && forall i :: 0 <= i < |r| ==> r[i] == S([v.s[i]])
    ensures !IsSeq(v) ==> r == []
  {
    match v
    case S(s) => seq(|s|, i requires 0 <= i < |s| => S([s[i]]))
    case T(items) => items
    case _ => []
  }

  /** v[i] for a non-negative index. */
  function At(v: Ty, i: nat): (r: Result<Ty>)
    ensures r.Ok? <==> IsSeq(v) && i < |PyItems(v)|
    ensures r.Ok? ==> r.value == PyItems(v)[i]
    ensures !IsSeq(v) ==> r == Err(TypeError)
    ensures IsSeq(v) && |PyItems(v)| <= i ==> r == Err(IndexError)
  {
    if !IsSeq(v) then Err(TypeError)
    else if i < |PyItems(v)| then Ok(PyItems(v)[i])
    else Err(IndexError)
  }

  /** v[-1]. */
  function Last(v: Ty): (r: Result<Ty>)
    ensures r.Ok? <==> IsSeq(v) && 0 < |PyItems(v)|
    ensures r.Ok? ==> r.value == PyItems(v)[|PyItems(v)| - 1]
  {
    if !IsSeq(v) then Err(TypeError)
    else if 0 < |PyItems(v)| then Ok(PyItems(v)[|PyItems(v)| - 1])
    else Err(IndexError)
  }

  /** t[1:-1]: the template slots between the name and the predicate. */
  function Mid(items: seq<Ty>): (r: seq<Ty>)
    ensures |items| >= 2 ==> r == items[1..|items| - 1]
    ensures |items| < 2 ==> r == []
  {
    if |items| >= 2 then items[1..|items| - 1] else []
  }

  /** Unpacking a value into exactly two names (`a, b = v`). */
  function Unpack2(v: Ty): (r: Result<(Ty, Ty)>)
    ensures r.Ok? <==> IsSeq(v) && |PyItems(v)| == 2
    ensures r.Ok? ==> r.value == (PyItems(v)[0], PyItems(v)[1])
  {
    if !IsSeq(v) then Err(TypeError)
    else if |PyItems(v)| == 2 then Ok((PyItems(v)[0], PyItems(v)[1]))
    else Err(ValueError)
  }

  /** The n leading copies of Arg.NONE used when no argument kinds are registered. */
  function NoneKinds(n: nat): (r: seq<ArgKind>)
    ensures |r| == n && forall i :: 0 <= i < n ==> r[i] == NoneArg
  {
    seq(n, _ => NoneArg)
  }

  // ---------------------------------------------------------------------
  // Text

  function DigitChar(d: nat): char
    requires d < 10
  {
    "0123456789"[d]
  }

  /** str(n) for a natural number. */
  function NatStr(n: nat): (r: string)
    ensures |r| > 0
    ensures forall i :: 0 <= i < |r| ==> '0' <= r[i] <= '9'
    decreases n
  {
    if n < 10 then [DigitChar(n)] else NatStr(n / 10) + [DigitChar(n % 10)]
  }

  /** str(i) for an integer. */
  function IntStr(i: int): (r: string)
    ensures |r| > 0
    ensures i < 0 <==> r[0] == '-'
  {
    if i < 0 then "-" + NatStr(-i) else NatStr(i)
  }

  /** str(v) for the values a type is made of. */
  function PyStr(v: Ty): string {
    match v
    case S(s) => s
    case _ => PyRepr(v)
  }

  function ArgRepr(k: ArgKind): string {
    match k
    case TypeArg => "Arg.TYPE"
    case LitArg => "Arg.LIT"
    case VarArg => "Arg.VAR"
    case NoneArg => "Arg.NONE"
  }

  /** repr(v); quotes inside strings are not escaped. */
  function PyRepr(v: Ty): string {
    match v
    case S(s) => "'" + s + "'"
    case N(n) => IntStr(n)
    case K(k) => ArgRepr(k)
    case Nil => "None"
    case T(items) =>
      if |items| == 1 then "(" + PyRepr(items[0]) + ",)"
      else "(" + Join(", ", seq(|items|, i requires 0 <= i < |items| => PyRepr(items[i]))) + ")"
  }

  /** sep.join(parts) for parts that are all strings. */
  function Join(sep: string, parts: seq<string>): string {
    if parts == [] then ""
    else if |parts| == 1 then parts[0]
    else parts[0] + sep + Join(sep, parts[1..])
  }

  /** sep.join(values): a TypeError when some value is not a string. */
  function JoinValues(sep: string, vs: seq<Ty>): (r: Result<string>)
    ensures r.Ok? <==> forall i :: 0 <= i < |vs| ==> vs[i].S?
    ensures r.Err? ==> r.error == TypeError
  {
    if forall i :: 0 <= i < |vs| ==> vs[i].S? then Ok(Join(sep, seq(|vs|, i requires 0 <= i < |vs| => vs[i].s)))
    else Err(TypeError)
  }

  predicate StartsWith(s: string, prefix: string) {
    |prefix| <= |s| && s[..|prefix|] == prefix
  }

  /** s.replace(pat, sub) for a non-empty pat. */
  function Replace(s: string, pat: string, sub: string): string
    requires |pat| > 0
    decreases |s|
  {
    if |s| < |pat| then s
    else if s[..|pat|] == pat then sub + Replace(s[|pat|..], pat, sub)
    else [s[0]] + Replace(s[1..], pat, sub)
  }

  /** The index of the last '.' in a string that has one. */
  function LastDot(v: string): (i: nat)
    requires '.' in v
    ensures i < |v| && v[i] == '.' && '.' !in v[i + 1..]
  {
    if v[|v| - 1] == '.' then |v| - 1
    else
      assert '.' in v[..|v| - 1] by { assert v == v[..|v| - 1] + [v[|v| - 1]]; }
      LastDot(v[..|v| - 1])
  }

  /** v.rsplit('.', 1) for a string containing a '.'. */
  function RSplitDot(v: string): (r: (string, string))
    requires '.' in v
    ensures r.0 + "." + r.1 == v
    ensures '.' !in r.1
  {
    var i := LastDot(v);
    assert v == v[..i] + "." + v[i + 1..];
    (v[..i], v[i + 1..])
  }

  /** The first index at or after from holding '}', or |s|. */
  function CloseBrace(s: string, from: nat): (j: nat)
    requires from <= |s|
    ensures from <= j <= |s|
    ensures j < |s| ==> s[j] == '}'
    ensures forall k :: from <= k < j ==> s[k] != '}'
    decreases |s| - from
  {
    if from == |s| || s[from] == '}' then from else CloseBrace(s, from + 1)
  }

  /**
   * fmt.format(**fields) where every replacement field is a keyword name:
   * doubled braces stand for themselves, a missing name is a KeyError and an
   * unmatched brace a ValueError.
   */
  function Format(fmt: string, fields: map<string, string>): Result<string>
    decreases |fmt|
  {
    if fmt == [] then Ok([])
    else if fmt[0] == '{' then
      if |fmt| > 1 && fmt[1] == '{' then
        var rest :- Format(fmt[2..], fields);
        Ok("{" + rest)
      else
        var j := CloseBrace(fmt, 1);
        if j == |fmt| || '{' in fmt[1..j] then Err(ValueError)
        else if fmt[1..j] !in fields then Err(KeyError)
        else
          var rest :- Format(fmt[j + 1..], fields);
          Ok(fields[fmt[1..j]] + rest)
    else if fmt[0] == '}' then
      if |fmt| > 1 && fmt[1] == '}' then
        var rest :- Format(fmt[2..], fields);
        Ok("}" + rest)
      else Err(ValueError)
    else
      var rest :- Format(fmt[1..], fields);
      Ok([fmt[0]] + rest)
  }

  /** A string without braces formats to itself. */
  lemma {:induction false} FormatPlain(fmt: string, fields: map<string, string>)
    requires '{' !in fmt && '}' !in fmt
    ensures Format(fmt, fields) == Ok(fmt)
    decreases |fmt|
  {
    if fmt != [] {
      assert '{' !in fmt[1..] && '}' !in fmt[1..];
      FormatPlain(fmt[1..], fields);
      assert [fmt[0]] + fmt[1..] == fmt;
    }
  }

  /** A single keyword field formats to its value wherever it sits in plain text. */
  lemma {:induction false} FormatOneField(pre: string, name: string, post: string, fields: map<string, string>)
    requires '{' !in pre && '}' !in pre && '{' !in post && '}' !in post
    requires '{' !in name && '}' !in name && name in fields
    ensures Format(pre + "{" + name + "}" + post, fields) == Ok(pre + fields[name] + post)
    decreases |pre|
  {
    var fmt := pre + "{" + name + "}" + post;
    if pre == [] {
      assert fmt == "{" + name + "}" + post;
      FormatLeadingField(name, post, fields);
      assert pre + fields[name] + post == fields[name] + post;
    } else {
      assert fmt[0] == pre[0];
      assert fmt[1..] == pre[1..] + "{" + name + "}" + post;
      assert '{' !in pre[1..] && '}' !in pre[1..];
      FormatOneField(pre[1..], name, post, fields);
      assert [pre[0]] + (pre[1..] + fields[name] + post) == pre + fields[name] + post;
    }
  }

  /** The base case of FormatOneField: the field opens the format string. */
  lemma FormatLeadingField(name: string, post: string, fields: map<string, string>)
    requires '{' !in post && '}' !in post
    requires '{' !in name && '}' !in name && name in fields
    ensures Format("{" + name + "}" + post, fields) == Ok(fields[name] + post)
  {
    var fmt := "{" + name + "}" + post;
    var j := |name| + 1;
    assert fmt[1..j] == name;
    assert fmt[j] == '}';
    assert fmt[j + 1..] == post;
    assert '{' !in fmt[1..j];
    assert CloseBrace(fmt, 1) == j by {
      forall k | 1 <= k < j ensures fmt[k] != '}' {
        assert fmt[k] == name[k - 1];
      }
    }
    assert |fmt| > 1 ==> fmt[1] != '{' by {
      if |name| > 0 { assert fmt[1] == name[0]; } else { assert fmt[1] == '}'; }
    }
    FormatPlain(post, fields);
  }
}
