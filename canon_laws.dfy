/**
 * What canonical forms look like: templates are padded to their arity plus a
 * predicate, predicates default to 0, refinements pair with their parent,
 * and the queries answer from the canonical form.
 */
module CanonLaws {
  import opened Values
  import opened Registry
  import opened Canonical

  /**
   * A template whose name is not dependent canonicalises to its name, one
   * slot per parameter and a predicate that is 0 when none was given;
   * number slots are kept and (Arg, x) slots become canon(x).
   */
  lemma CanonTemplateShape(tb: Registry, items: seq<Ty>, fuel: nat, r: Ty)
    requires fuel > 0 && |items| > 0 && IsSeq(items[0])
    requires IsDependent(tb, items[0]) == Ok(false) && items[0] in tb.templateTypes
    requires |items| >= 1 + |tb.templateTypes[items[0]]|
    requires Canon(tb, T(items), fuel) == Ok(r)
    ensures var n := |tb.templateTypes[items[0]]|;
      r.T? && |r.items| == n + 2 && r.items[0] == items[0]
      && (|items| == n + 1 ==> r.items[n + 1] == N(0))
      && (|items| > n + 1 ==> r.items[n + 1] == items[|items| - 1])
      && (forall i :: 1 <= i <= n && items[i].N? ==> r.items[i] == items[i])
      && (forall i :: 1 <= i <= n && items[i].T? && |items[i].items| == 2 && items[i].items[0].K? ==>
            Canon(tb, items[i].items[1], fuel - 1) == Ok(r.items[i]))
  {
    var n := |tb.templateTypes[items[0]]|;
    var slots := items[1..1 + n];
    var filled := FillSlots(tb, slots, fuel - 1);
    assert filled.Ok?;
    var last := if |items| == 1 + n then N(0) else items[|items| - 1];
    assert r == T([items[0]] + filled.value + [last]);
    forall i | 1 <= i <= n ensures r.items[i] == filled.value[i - 1] && slots[i - 1] == items[i] { }
  }

  /**
   * A template given with no slots at all is not rejected: canon(('vector',))
   * is ('vector', 'vector'), the name standing in as the predicate.
   */
  lemma CanonBareTemplate(tb: Registry, h: Ty, fuel: nat)
    requires fuel > 0 && IsSeq(h) && IsDependent(tb, h) == Ok(false)
    requires h in tb.templateTypes && |tb.templateTypes[h]| >= 1
    ensures Canon(tb, T([h]), fuel) == Ok(T([h, h]))
  {
    assert Canon(tb, T([h]), fuel) == CanonTuple(tb, [h], fuel);
    assert [h][1..1] == [];
    assert FillSlots(tb, [], fuel - 1) == Ok([]);
    assert [h] + [] + [h] == [h, h];
  }

  /** A tuple headed by a plain name pairs the canonical head with the predicate, 0 when absent. */
  lemma CanonPredicated(tb: Registry, items: seq<Ty>, fuel: nat)
    requires fuel > 0 && |items| > 0 && IsSeq(items[0])
    requires IsDependent(tb, items[0]) == Ok(false) && items[0] !in tb.templateTypes
    requires Canon(tb, items[0], fuel - 1).Ok?
    ensures Canon(tb, T(items), fuel)
      == Ok(T([Canon(tb, items[0], fuel - 1).value, if |items| == 1 then N(0) else items[|items| - 1]]))
  { }

  /** A refinement canonicalises to the pair (canonical parent, refinement name). */
  lemma CanonRefinement(tb: Registry, name: string, fuel: nat)
    requires fuel > 1 && S(name) !in tb.baseTypes && S(name) !in tb.typeAliases && S(name) in tb.refinedTypes
    requires Canon(tb, tb.refinedTypes[S(name)], fuel - 1).Ok?
    ensures Canon(tb, S(name), fuel) == Ok(T([Canon(tb, tb.refinedTypes[S(name)], fuel - 1).value, S(name)]))
  { }

  /** An alias that is not also a base type canonicalises as its target does. */
  lemma CanonAlias(tb: Registry, a: string, fuel: nat)
    requires fuel > 0 && S(a) !in tb.baseTypes && S(a) in tb.typeAliases
    ensures Canon(tb, S(a), fuel) == Canon(tb, tb.typeAliases[S(a)], fuel - 1)
  { }

  /**
   * Idempotence on templates: a template tuple whose slots are numbers or
   * already canonical, and which carries its predicate, is its own
   * canonical form.
   */
  lemma CanonTemplateFixed(tb: Registry, h: Ty, slots: seq<Ty>, last: Ty, fuel: nat)
    requires fuel > 0 && IsSeq(h) && IsDependent(tb, h) == Ok(false) && h in tb.templateTypes
    requires |slots| == |tb.templateTypes[h]|
    requires forall i :: 0 <= i < |slots| ==> FixedSlot(tb, slots[i], fuel - 1)
    ensures Canon(tb, T([h] + slots + [last]), fuel) == Ok(T([h] + slots + [last]))
  {
    var items := [h] + slots + [last];
    assert items[1..1 + |slots|] == slots;
    FillSlotsFixed(tb, slots, fuel - 1);
  }

  /** A template slot that canonicalisation leaves alone: a number, or a canonical form that is not an (Arg, x) pair. */
  predicate FixedSlot(tb: Registry, x: Ty, fuel: nat) {
    x.N? || (Canon(tb, x, fuel) == Ok(x) && !(x.T? && |x.items| == 2 && x.items[0].K?))
  }

  lemma {:induction false} FillSlotsFixed(tb: Registry, slots: seq<Ty>, fuel: nat)
    requires forall i :: 0 <= i < |slots| ==> FixedSlot(tb, slots[i], fuel)
    ensures FillSlots(tb, slots, fuel) == Ok(slots)
    decreases |slots|
  {
    if slots != [] {
      assert FixedSlot(tb, slots[0], fuel);
      assert forall i :: 0 <= i < |slots[1..]| ==> slots[1..][i] == slots[i + 1];
      FillSlotsFixed(tb, slots[1..], fuel);
      assert [slots[0]] + slots[1..] == slots;
    }
  }

  /**
   * Canonicalisation is not idempotent on dependent types: a bare dependent
   * name canonicalises to its signature (here one with a single
   * (name, type) entry), and the signature, read as an instantiation of
   * itself, canonicalises to a resolved pair instead.
   */
  lemma SignatureNotFixed(tb: Registry, tname: string, n: Ty, b: Ty, fuel: nat)
    requires fuel > 1
    requires S(tname) !in tb.baseTypes && S(tname) !in tb.typeAliases && S(tname) !in tb.refinedTypes
    requires S(tname) !in tb.templateTypes && IsDependent(tb, S(tname)) == Ok(true)
    requires var ms := MatchingKeys(tb, tb.refinedOrder, S(tname));
      ms.Ok? && |ms.value| > 0 && ms.value[0] == T([S(tname), T([n, b])])
    ensures Canon(tb, S(tname), fuel) == Ok(T([S(tname), T([n, b])]))
    ensures Canon(tb, T([S(tname), T([n, b])]), fuel) != Ok(T([S(tname), T([n, b])]))
  {
    var k := T([S(tname), T([n, b])]);
    assert InnerHead(k) == Ok(S(tname));
    assert IsTemplate(tb, k) == Ok(false);
    ResolveFirstSignature(tb, S(tname), fuel - 1);
    var r := Canon(tb, k, fuel);
    assert r == CanonTuple(tb, k.items, fuel);
    assert k.items[0] == S(tname) && IsSeq(S(tname));
    assert r == ResolveDependent(tb, S(tname), Some(k.items), fuel - 1);
    SignatureResolved(tb, S(tname), k, fuel - 1);
  }

  /** The signature read as its own instantiation: the pair whose second half holds a triple where the signature has its entry. */
  lemma SignatureResolved(tb: Registry, tname: Ty, k: Ty, fuel: nat)
    requires k.T? && |k.items| == 2 && k.items[0] == tname && k in tb.refinedTypes
    requires k.items[1].T? && |k.items[1].items| == 2 && IsTemplate(tb, k) == Ok(false)
    requires var ms := MatchingKeys(tb, tb.refinedOrder, tname); ms.Ok? && |ms.value| > 0 && ms.value[0] == k
    ensures ResolveDependent(tb, tname, Some(k.items), fuel) != Ok(k)
  {
    var dk := k.items;
    assert At(k, 0) == Ok(tname);
    var r := ResolveDependent(tb, tname, Some(dk), fuel);
    assert r == ResolveSignature(tb, tname, k, Some(dk), fuel);
    assert r == ResolvePlain(tb, tname, dk, dk, tb.refinedTypes[k], fuel);
    if r.Ok? {
      var tr := Triples(tb, dk[1..], dk[1..], fuel);
      assert tr.Ok? && r.value.items[1] == T([tname] + tr.value);
      assert r.value.items[1].items[1] == tr.value[0];
      assert |tr.value[0].items| == 3;
    }
  }

  /** A name canonicalises only when it is a base type, an alias, a refinement or a dependent type. */
  lemma CanonUnknownName(tb: Registry, name: string, fuel: nat)
    requires fuel > 0 && S(name) !in tb.baseTypes && S(name) !in tb.typeAliases && S(name) !in tb.refinedTypes
    requires IsDependent(tb, S(name)) == Ok(false)
    ensures Canon(tb, S(name), fuel) == Err(TypeError)
  { }

  /** A name is dependent exactly when some non-string signature in refinedTypes starts with it. */
  lemma {:induction false} DependentIff(tb: Registry, name: string)
    requires DepTypes(tb).Ok?
    ensures IsDependent(tb, S(name)) == Ok(true) <==>
      exists k :: k in tb.refinedOrder && k in tb.refinedTypes && k.T? && |k.items| > 0 && k.items[0] == S(name)
  {
    var keys := tb.refinedOrder;
    if IsDependent(tb, S(name)) == Ok(true) {
      assert S(name) in DepTypes(tb).value;
      var i :| 0 <= i < |keys| && keys[i] in tb.refinedTypes && !keys[i].S? && At(keys[i], 0) == Ok(S(name));
      assert keys[i] in keys;
    }
    if exists k :: k in keys && k in tb.refinedTypes && k.T? && |k.items| > 0 && k.items[0] == S(name) {
      var k :| k in keys && k in tb.refinedTypes && k.T? && |k.items| > 0 && k.items[0] == S(name);
      var i :| 0 <= i < |keys| && keys[i] == k;
      assert At(keys[i], 0) == Ok(S(name));
    }
  }

  /** The canonical form of a registered template is a template, and its basename is the template name. */
  lemma TemplateQueries(tb: Registry, name: string, items: seq<Ty>, fuel: nat, r: Ty)
    requires fuel > 0 && |items| > 0 && items[0] == S(name)
    requires IsDependent(tb, S(name)) == Ok(false) && S(name) in tb.templateTypes
    requires |items| >= 1 + |tb.templateTypes[S(name)]|
    requires Canon(tb, T(items), fuel) == Ok(r)
    ensures IsTemplate(tb, r) == Ok(true)
    ensures BaseName(tb, T(items), fuel) == Ok(name)
  {
    CanonTemplateShape(tb, items, fuel, r);
  }

  /** Without an instantiation a dependent name resolves to the first signature registered for it. */
  lemma ResolveFirstSignature(tb: Registry, tname: Ty, fuel: nat)
    requires MatchingKeys(tb, tb.refinedOrder, tname).Ok?
    requires |MatchingKeys(tb, tb.refinedOrder, tname).value| > 0
    requires IsTemplate(tb, MatchingKeys(tb, tb.refinedOrder, tname).value[0]).Ok?
    ensures var k := MatchingKeys(tb, tb.refinedOrder, tname).value[0];
      ResolveDependent(tb, tname, None, fuel) == Ok(k) && FirstMatchAt(tb, tb.refinedOrder, tname, k)
  { }

  /** An instantiation must supply exactly one value per signature entry. */
  lemma ResolveArityMismatch(tb: Registry, tname: Ty, inst: seq<Ty>, fuel: nat)
    requires MatchingKeys(tb, tb.refinedOrder, tname).Ok?
    requires |MatchingKeys(tb, tb.refinedOrder, tname).value| > 0
    requires var k := MatchingKeys(tb, tb.refinedOrder, tname).value[0];
      IsTemplate(tb, k).Ok? && |inst| != |PyItems(k)|
    ensures ResolveDependent(tb, tname, Some(inst), fuel) == Err(AssertionError)
  { }

  /** Stripping the predicates of a pair: a 0 predicate stays, any other is dropped. */
  lemma StripPair(tb: Registry, t: Ty, fuel: nat, x: Ty, p: Ty)
    requires fuel > 0 && Canon(tb, t, fuel) == Ok(T([x, p]))
    ensures StripPredicates(tb, t, fuel) ==
      (var sx := StripPredicates(tb, x, fuel - 1);
       if sx.Err? then sx else Ok(if p == N(0) then T([sx.value, N(0)]) else sx.value))
  { }

  /** Stripping a template's predicate replaces it by 0 and keeps the slots. */
  lemma StripTemplate(tb: Registry, t: Ty, fuel: nat, items: seq<Ty>)
    requires fuel > 0 && Canon(tb, t, fuel) == Ok(T(items)) && |items| >= 3
    ensures StripPredicates(tb, t, fuel) == Ok(T(items[..|items| - 1] + [N(0)]))
  { }
}
