# xdress type system and API scraping, modelled in Dafny

This project models two parts of xdress, a code generator that wraps C/C++
APIs for Cython and Python.

The first part is the type system that xdress/types/system.py defines.
- **Types.** A type is a hashable tree of strings, integers and tuples. The
  model has one datatype of Python values for it (`Values.Ty`), with
  `None`, argument kinds and tuples.
- **Tables.** The TypeSystem object holds base types, templates,
  refinements, aliases, spellings per back end, import tables, converter
  tables, argument kinds, variable namespaces and the memo of `canon`.
- **Pure parts.** These are functions over a `Registry` value:
  - put a type in canonical form (`canon`, `_resolve_dependent_type`);
  - the structural queries;
  - the spelling renderers (`cpp_type`, `cython_ctype`, `cython_cytype`,
    `cython_pytype`, `cython_nptype`);
  - the name manglers;
  - the import collectors;
  - the converter key search.
- **Stateful parts.** `TypeSystems.TypeSystem` is a class with one field per
  table. Its methods change those fields as the source does:
  - the registration methods;
  - the memo operations;
  - the swaps and `local_classes`;
  - the converter look-ups that write back, and the `seen`-threading import
    collectors.

  Each method is proved against the function that specifies it.
- **update.** It is modelled on values (`Registrations.Updated`).

The second part is the star expansion and name filtering of xdress/autoall.py:
- `XDressPlugin.setup` and `execute` over a run-control object;
- the gccxml and pycparser finders;
- the `onlyin` file set.

The parsers are not modelled. Their output is an input: a table of the names
found in each source file, and the parse tree as a sequence of elements.

Conventions:
- **Errors.** A Python exception is an `Err` of the `Error` datatype, which
  names the exception class. Every operation returns a `Result` and has no
  precondition beyond what the source itself needs.
- **Fuel.** Recursion through aliases and nested types carries a `fuel`
  argument that stands for Python's recursion limit. Running out of it is
  the `RecursionLimit` error.
- **Dict order.** `refined_types` is consulted in insertion order. The model
  keeps that order as a sequence (`refinedOrder`). Every operation that
  changes the dict is proved to keep the sequence listing each key once.

Where the source comments or docstrings and the code disagree, the model
follows the code:
- `canon(('vector',))` does not raise: it gives `('vector', 'vector')`,
  because the predicate of a one-element template tuple is read from `t[-1]`.
- `deregister_argument_kinds` does not clear the memo. The other
  `deregister_*` methods do.
- `deregister_class` keeps the `cython_functionnames` entry that
  `register_class` made. So a register/deregister round trip restores every
  table but that one (`Registrations.ClassRoundTrip`).
- `register_class` and `register_refinement` do not clear the memo.
- The context managers `swap_dtypes`, `swap_stlcontainers` and
  `local_classes` are modelled as their two halves, the code before the
  `yield` and the code after it; the with-block is whatever the caller does
  in between. The generators have no `try`/`finally`, so a block that raises
  never runs the second half: the old value is not restored, the memo keeps
  what the block stored, and the class spellings stay undotted.
- `_redot_class_name(_undot_class_name(...))` restores a spelling unless the
  spelling starts with its last `'.'`: `".C"` comes back as `"C"`
  (`ClassNames.LeadingDotLost`).

Two places where the code is evidently wrong are modelled in their
corrected form instead; both are rows of "## Findings", which also holds
the as-written half. The converter members use the corrected key step
`Converters.Step` (a one-element key is walked to its only element) and the
corrected message of `Converters.C2pyVariant` (a NotImplemented converter is
a NotImplementedError for every type). On those inputs the source itself
raises IndexError (`tkey[1]` at system.py:1305 and 1397) or TypeError (the
`str + tuple` at system.py:1330-1331). "## Left out" names each member this
affects.

## Model

| member | source | states |
|---|---|---|
| Canonical.IsTemplate | xdress/types/system.py:555-561 | a string is a template exactly when it is a registered template name; an empty tuple has no head and fails with IndexError |
| Canonical.DepTypesOf | xdress/types/system.py:604-605 | the dependent names are exactly the heads of the non-string signatures in refined_types; a signature without a head makes the scan fail |
| Canonical.IsRefinement | xdress/types/system.py:612-617 | isrefinement: a string is a refinement exactly when it is a refined_types key, and any other value when isdependent says so (stated by DependentTupleIsRefinement) |
| Canonical.IsDependent | xdress/types/system.py:602-610 | a string is dependent exactly when it is the head of a dependent signature; a value that is neither string nor sequence is not; a failing scan propagates |
| Canonical.MatchingKeys | xdress/types/system.py:621 | the keys whose head is tname, all of them and only them, the first in registration order leading |
| Canonical.Canon | xdress/types/system.py:649-704 | every canonical form is a string or a tuple; a value that is neither is a TypeError, the empty tuple an IndexError, and a base type is its own canonical form |
| Canonical.CanonName | xdress/types/system.py:651-661 | a base type is its own canonical form; any other name that canonicalises gives a string or tuple (the alias case is CanonLaws.CanonAlias) |
| Canonical.CanonTuple | xdress/types/system.py:666-702 | a non-empty tuple canonicalises to a string or tuple |
| Canonical.FillSlots | xdress/types/system.py:680-698 | one canonical slot per given slot: numbers are kept, an (Arg, x) slot is replaced by a canonical x, and any value that is not a number, string or tuple fails |
| Canonical.TypeMap | xdress/types/system.py:628-629 | the type map holds exactly the string parameter names of the signature |
| Canonical.CanonParams | xdress/types/system.py:634-635 | one canonical value per signature entry that is in the type map |
| Canonical.TemplatedTriples | xdress/types/system.py:636-638 | one (name, canonical type, value) triple per signature entry not in the type map |
| Canonical.Triples | xdress/types/system.py:645-646 | one (name, canonical type, value) triple per signature entry, the value taken from the instantiation at the same position |
| Canonical.ResolveDependent | xdress/types/system.py:620-647 | without an instantiation the result is a registered signature headed by tname; with one it is the pair (canonical refined type, tuple headed by tname); with no matching signature the [0] fails with IndexError |
| Canonical.ResolveSignature | xdress/types/system.py:622-646 | once the signature is chosen: the signature itself without an instantiation, the resolved pair with one |
| Canonical.ResolveInstance | xdress/types/system.py:626-646 | an instantiation whose length differs from the signature's fails the assertion; a resolved instance is a pair headed by the canonical parent |
| Canonical.ResolveWithParams | xdress/types/system.py:628-642 | the templated case: a parameter already registered as an alias is a TypeError, and otherwise the parameters resolve as temporary aliases |
| Canonical.ResolveTemplated | xdress/types/system.py:634-638 | the templated result pairs the canonical parent with tname, the canonical parameters and the remaining triples |
| Canonical.ResolvePlain | xdress/types/system.py:643-646 | the untemplated result pairs the canonical parent with tname and one triple per signature entry |
| Canonical.StripPredicates | xdress/types/system.py:707-720 | the result carries no predicate other than 0 at any outer level: it is a name or a tuple ending in 0, and the first element of such a pair is stripped in turn |
| Canonical.InnerName | xdress/types/system.py:729-732 | the innermost head of a canonical form is found by following element 0 |
| Canonical.BaseName | xdress/types/system.py:723-734 | basename is the innermost head of the canonical form, and fails exactly as canon fails |
| Canonical.IsEnum | xdress/types/system.py:564-570 | true exactly when the canonical form is ('int32', ('enum', ...), ...); a TypeError from canon answers false |
| Canonical.IsEnumOf | xdress/types/system.py:564-570 | the same answer given the result of canon |
| Canonical.IsFunctionPointer | xdress/types/system.py:573-576 | true exactly when the canonical form is (('void', '*'), ('function_pointer', ...), ...); a failing canon propagates |
| CanonLaws.CanonTemplateShape | xdress/types/system.py:676-700 | a template canonicalises to its name, one slot per parameter and a predicate that is 0 when none was given; number slots are kept and (Arg, x) slots become canon(x) |
| CanonLaws.CanonBareTemplate | xdress/types/system.py:671-700 | canon(('vector',)) is ('vector', 'vector'): the name stands in as the predicate |
| CanonLaws.CanonPredicated | xdress/types/system.py:701-702 | a tuple headed by a plain name is (canon(head), predicate), with 0 when there is no predicate |
| CanonLaws.CanonRefinement | xdress/types/system.py:656-657 | a refinement name canonicalises to (canon(parent), name) |
| CanonLaws.CanonAlias | xdress/types/system.py:653-654 | a name that is not a base type but an alias canonicalises as its target does |
| CanonLaws.CanonTemplateFixed | xdress/types/system.py:676-700 | idempotence where it holds: a template tuple whose slots are numbers or canonical forms (not (Arg, x) pairs) and that carries its predicate is its own canonical form |
| CanonLaws.FillSlotsFixed | xdress/types/system.py:680-698 | slots that are numbers or already canonical are filled unchanged |
| CanonLaws.SignatureNotFixed | xdress/types/system.py:620-625 | idempotence fails on dependent types: a bare dependent name canonicalises to its first signature, and that signature does not canonicalise to itself (see also lines 658-660, 671-673) |
| CanonLaws.SignatureResolved | xdress/types/system.py:626-646 | the signature read as its own instantiation resolves to something other than the signature |
| CanonLaws.CanonUnknownName | xdress/types/system.py:651-661 | a name that is not a base type, alias, refinement or dependent type is a TypeError |
| CanonLaws.DependentIff | xdress/types/system.py:602-607 | a name is dependent if and only if some non-string signature in refined_types starts with it |
| CanonLaws.TemplateQueries | xdress/types/system.py:723-732 | the canonical form of a registered template is a template, and its basename is the template name |
| CanonLaws.ResolveFirstSignature | xdress/types/system.py:621-625 | without an instantiation a dependent name resolves to the first signature registered for it |
| CanonLaws.ResolveArityMismatch | xdress/types/system.py:627 | an instantiation that does not give one value per signature entry fails the assertion |
| CanonLaws.StripPair | xdress/types/system.py:714-716 | stripping a pair keeps a 0 predicate and drops any other |
| CanonLaws.StripTemplate | xdress/types/system.py:717-718 | stripping a template replaces its predicate by 0 and keeps its slots |
| Names.ReplaceOneChar | xdress/types/system.py:1208-1209 | str.replace with a one-character pattern replaces each occurrence of that character |
| Names.SubstAbsent | xdress/types/system.py:1208-1209 | replacing a character that does not occur changes nothing |
| Names.MangleTextPerChar | xdress/types/system.py:1208-1209 | the three chained replacements equal one pass over the characters mapping '-' to Neg, '+' to Pos and '.' to point |
| Names.MangleDigits | xdress/types/system.py:1208-1209 | a string of digits is its own mangled text |
| Names.MangleNumberForm | xdress/types/system.py:1207-1209 | str(n) with '-', '+' and '.' replaced in turn by 'Neg', 'Pos' and 'point' is 'Neg' and the digits for a negative integer, the digits otherwise |
| Names.UnmangleNumber | xdress/types/system.py:1207-1209 | a mangled integer reads back as that integer: 'Neg' marks the sign and the rest are its decimal digits |
| Names.MangleNumberInjective | xdress/types/system.py:1207-1209 | distinct integers never mangle to the same identifier text |
| Names.MangleSign | xdress/types/system.py:1207-1209 | a mangled integer is non-empty and starts with 'N' exactly when the integer is negative |
| Names.MangleNumberClean | xdress/types/system.py:1207-1209 | a mangled integer holds no '-', '+' or '.' |
| Names.CythonLiteral | xdress/types/system.py:1204-1212 | numbers are mangled, strings are quoted, and any other value leaves the result unbound |
| Names.SlotName | xdress/types/system.py:588-598 | a known string slot reads the table; an unknown one is a KeyError unless the mode is lenient, which keeps it; a number is kept or mangled; a nested template slot contributes its filled name, or, for humanname as written, str() of the slot after its own fill succeeds (see also lines 1258-1270) |
| Names.SlotFields | xdress/types/system.py:1258-1270 | the format fields are keyed by parameter names only, and a parameter not repeated later gets its own slot's name |
| Names.NameFor | xdress/types/system.py:579-587 | the pair returned starts with the canonical form, a failing canon propagates, and a canonical string reads the table (KeyError when it has no entry) (see also lines 1249-1271) |
| Names.FillFormat | xdress/types/system.py:588-599 | a template's name: its format string filled with the slot names keyed by parameter (stated by FillOneParameter and FillOneSlot) (see also lines 1258-1271) |
| Names.FillOneSlot | xdress/types/system.py:588-599 | a one-parameter template's name is its format string with the one field replaced by whatever the slot names to (see also lines 1258-1271) |
| Names.HumanName | xdress/types/system.py:579-599 | humanname with the nested unpacking corrected (see Findings); stated by HumanNameOfTemplate and NestedHumanName |
| Names.HumanNameAsWritten | xdress/types/system.py:579-599 | humanname as written: a nested template slot is formatted as the tuple itself (stated by NestedHumanName) |
| Names.NestedHumanName | xdress/types/system.py:597-598 | for a template whose one slot is a nested one-slot template, the corrected name nests the inner name, the as-written name holds str() of the slot, and the two differ |
| Names.CythonFunctionname | xdress/types/system.py:1249-1271 | cython_functionname: NameFor over cython_functionnames, an unknown string slot kept as written |
| Names.CythonClassname | xdress/types/system.py:1276-1297 | cython_classname: the same over cython_classnames (stated by ClassnameOfBaseHeaded) |
| Names.FillOneParameter | xdress/types/system.py:1258-1271 | a one-parameter template whose slot is a known name fills its format string's one field with that name's entry |
| Names.HumanNameOfTemplate | xdress/types/system.py:579-599 | humanname of a one-slot template is its format string filled with the human name of the slot |
| Names.FuncnameParts | xdress/types/system.py:1229-1244 | one piece per (argument, kind) pair, variables kept as written and literals by cython_literal |
| Names.FuncnamePart | xdress/types/system.py:1230-1243 | a variable is its own piece and a literal's piece is its cython_literal |
| Names.CythonFuncname | xdress/types/system.py:1216-1246 | a string name is returned as is; a non-sequence is a TypeError and the empty tuple an IndexError |
| Names.FuncnameOfVariables | xdress/types/system.py:1235-1245 | a function name with variable arguments joins its head and the variables with '_' |
| Names.VariableParts | xdress/types/system.py:1235-1236 | variable arguments are their own identifier pieces |
| Spelling.EntryText | xdress/types/system.py:780-781 | a table entry is usable as text exactly when it is a string |
| Spelling.RefinementText | xdress/types/system.py:767-771 | the entry for a refinement's head: text as is, a callable applied to the refinement, NotImplemented refused |
| Spelling.AsValue | xdress/types/system.py:800-801 | a spelling that is not a string enters the join as None, which the join refuses |
| Spelling.CppVarName | xdress/types/system.py:746-752 | a variable with a non-empty namespace becomes ns::var; without one it is unchanged |
| Spelling.CppLiteral | xdress/types/system.py:808-817 | numbers as str(), strings quoted, any other value leaves the result unbound |
| Spelling.CppType | xdress/types/system.py:755-805 | a failing canon propagates and a base type reads cpp_types |
| Spelling.CppFilling | xdress/types/system.py:782-800 | one spelling per (slot, kind): a type by cpp_type, a variable by _cpp_var_name, a literal by cpp_literal, an unkinded number by str() |
| Spelling.CppSlot | xdress/types/system.py:784-799 | the spelling of one slot for each argument kind, an untyped guess falling back to a variable on TypeError |
| Spelling.CppFillingUntyped | xdress/types/system.py:783-800 | with no argument kinds, slots that each spell give exactly those spellings |
| Spelling.JoinStrings | xdress/types/system.py:801 | joining the string values of a list of strings joins the strings |
| Spelling.CppTypeTemplate | xdress/types/system.py:777-805 | a template without argument kinds spells "name< s1, s2 >", a non-zero predicate placed after it |
| Spelling.CppTemplateSpells | xdress/types/system.py:777-805 | the template branch on its own, for a canonical form |
| Spelling.CppTemplate | xdress/types/system.py:777-805 | the template branch of cpp_type; its spelling is stated by CppTypeTemplate and CppTemplateSpells |
| Spelling.CppTypeOneSlotTemplate | xdress/types/system.py:777-805 | ('vector', 'int32', 0) spells "std::vector< int >" from the table entries |
| Spelling.CppTypePredicate | xdress/types/system.py:763-776 | a pair whose predicate is not a refinement: 0 is the type alone, 'const' goes in front, an integer n becomes "[n]" after, any other string follows |
| Spelling.CppTypeRefinementFallsBack | xdress/types/system.py:766-773 | a refinement predicate with no entry for its head spells as the refined type |
| Spelling.CppFuncPart | xdress/types/system.py:833-845 | one argument of a function name: a type by cpp_type, a literal or number by cpp_literal, otherwise a type guess that falls back to the argument itself |
| Spelling.CppFuncParts | xdress/types/system.py:833-845 | one piece per (argument, kind) pair, each the piece of its own argument |
| Spelling.CppFuncname | xdress/types/system.py:820-847 | a string name as is; a non-sequence is a TypeError, the empty tuple an IndexError, a lone head its own name |
| Spelling.CppFuncnameOfType | xdress/types/system.py:833-846 | a function templated on one type spells "f< T >" |
| Spelling.GccxmlType | xdress/types/system.py:850-855 | gccxml_type succeeds exactly when cpp_type does and rewrites its spacing |
| Spelling.ReplaceAbsent | xdress/types/system.py:853-854 | replacing a pattern that cannot occur leaves the string unchanged |
| Spelling.GccxmlPlain | xdress/types/system.py:850-855 | a spelling without angle brackets or commas is its own GCC-XML spelling |
| Spelling.CythonNptype | xdress/types/system.py:858-889 | a number is an object; the result never nests deeper than the depth asked for, and a list has one code per template slot |
| Spelling.NptypeTuple | xdress/types/system.py:870-889 | the tuple branch keeps within the depth and gives one code per slot |
| Spelling.NptypeList | xdress/types/system.py:885 | the slot codes are each slot's own numpy type, in order |
| Spelling.NptypeShallow | xdress/types/system.py:858-889 | at depth 0 the numpy type is a single code |
| Spelling.NptypeOfTemplate | xdress/types/system.py:883-885 | at depth 1 a template without its own code gives one code per slot |
| Spelling.NptypeSlotsShallow | xdress/types/system.py:883-885 | each of those slot codes is a single code |
| Spelling.MapSeq | xdress/types/system.py:2256-2263 | f applied to each element, at the same position |
| Spelling.MapSeqAppend | xdress/types/system.py:2260-2262 | mapping distributes over concatenation |
| Spelling.MapRecurse | xdress/types/system.py:2256-2263 | _maprecurse is f applied to the leaves of the nested list, flattened in order |
| Spelling.CythonCtype | xdress/types/system.py:902-948 | a failing canon propagates and a type with its own entry reads it |
| Spelling.CtypeFilling | xdress/types/system.py:934-943 | one C spelling per slot: numbers by str(), the rest by cython_ctype |
| Spelling.CythonCtypeOneSlotTemplate | xdress/types/system.py:927-948 | a one-slot template spells "name[slot]" |
| Spelling.CtypeOneSlot | xdress/types/system.py:927-948 | the template branch of the one-slot case on its own |
| Spelling.CtypeTemplate | xdress/types/system.py:927-948 | the template branch of cython_ctype; stated by CythonCtypeOneSlotTemplate and CtypeOneSlot |
| Spelling.CytypeAddPredicate | xdress/types/system.py:966-973 | a pointer gets " *", a positive integer n gets " [n]", any other predicate is dropped |
| Spelling.FillEntry | xdress/types/system.py:951-964 | a string entry is filled with the slots' Cython class names; a callable entry has no format method |
| Spelling.CythonCytype | xdress/types/system.py:976-1010 | a failing canon propagates and a string with its own entry reads it |
| Spelling.CythonCytypeOneSlotTemplate | xdress/types/system.py:1000-1010 | a one-parameter template fills its Cython type with the slot's class name, then places the predicate |
| Spelling.CytypeOneParameter | xdress/types/system.py:1000-1010 | the template branch of that case on its own |
| Spelling.CytypeTemplate | xdress/types/system.py:1000-1010 | the template branch of cython_cytype; stated by CythonCytypeOneSlotTemplate and CytypeOneParameter |
| Spelling.CythonPytype | xdress/types/system.py:1029-1064 | a number is its str(); a failing canon propagates |
| Spelling.CythonPytypeIgnoresPredicate | xdress/types/system.py:1041-1050 | the Python type of a pair without its own entry is that of its type, whatever the predicate |
| Canonical.DependentTupleIsRefinement | xdress/types/system.py:613-617 | a tuple headed by the name of a registered dependent signature is a refinement, once the scan of refined_types succeeds |
| Names.ClassnameOfBaseHeaded | xdress/types/system.py:1276-1283 | cython_classname of a type headed by a base type is the class name of the head, or a KeyError when it has none |
| Converters.StepAsWrittenOneTuple | xdress/types/system.py:1305-1306 | as written, the first walk reads tkey[1] of a one-element key and raises IndexError |
| Converters.StepAsWritten | xdress/types/system.py:1303-1306 | the first walk's step as written; StepAsWrittenOneTuple and StepsAgreeOnPairs state where it differs from Step |
| Converters.Step | xdress/types/system.py:1303-1306 | one step of the first walk moves to an element of the key: to the second element when it is a refinement, otherwise to the head, a one-element key to its head; a non-tuple is a TypeError and the empty tuple an IndexError |
| Converters.StepsAgreeOnPairs | xdress/types/system.py:1305-1306 | the corrected step and the step as written agree on every key that is not a one-element tuple |
| Converters.RefinementWalk | xdress/types/system.py:1302-1306 | the first walk ends on a registered key or a name, inside t, and a registered key or name is its own end |
| Converters.HeadWalk | xdress/types/system.py:1307-1311 | the retry from t follows heads to a registered key or a name inside t; a non-tuple on the way is a TypeError |
| Converters.ConverterKey | xdress/types/system.py:1302-1312 | the key that serves t is registered and inside t: t itself when registered, the end of the first walk when registered, otherwise the end of the head walk, which must be registered |
| Converters.UnregisteredName | xdress/types/system.py:1303-1312 | an unregistered name is served by nothing: KeyError |
| Converters.RefinementServes | xdress/types/system.py:1303-1312 | a pair (x, r) without its own entry whose refinement r has one is served by r's entry |
| Converters.HeadServes | xdress/types/system.py:1303-1312 | a pair (x, p) whose predicate is not a refinement is served by the entry of x |
| Converters.ConvLookup | xdress/types/system.py:1312-1316 | the entry returned is never a callable; the table gains at most the key t, every other entry unchanged, and a callable entry is applied and its answer, templates or NotImplemented, stored under t; a failing key search propagates |
| Converters.CallableNotImplemented | xdress/types/system.py:1312-1331 | a callable converter answering NotImplemented has the answer stored under t; the corrected cython_c2py (see Findings) then raises NotImplementedError; as written only a string t does, and a tuple t is the TypeError of C2pyTupleMessageFails |
| Converters.LookupTwice | xdress/types/system.py:1312-1316 | a second lookup of the same type returns what the first stored and changes nothing |
| Converters.C2pyNotImplementedAsWritten | xdress/types/system.py:1329-1332 | as written, the message of the NotImplementedError can be built only for a string type |
| Converters.C2pyTupleMessageFails | xdress/types/system.py:1329-1332 | as written, a tuple type with a NotImplemented converter raises TypeError instead of NotImplementedError |
| Converters.C2pyVariant | xdress/types/system.py:1326-1361 | cached without view is a ValueError and NotImplemented a NotImplementedError; otherwise template 0 when there is one template or ind is 0, template 1 for a view, template 2 (cached) for a cached view |
| Converters.SingleTemplate | xdress/types/system.py:1345-1352 | a converter with one template uses it, uncached, for every allowed view/cached combination |
| Converters.Py2cLast | xdress/types/system.py:1387-1392 | last is empty for a name, a 0 predicate or a refinement; " [n]" for an integer; " p" for another string predicate |
| Converters.Py2cTemplates | xdress/types/system.py:1407-1410 | NotImplemented or None is a NotImplementedError; any other entry must unpack into (body, return) |
| Imports.EnsureImportable | xdress/types/system.py:2265-2272 | a module name or None becomes ((x,),), a single import tuple becomes (x,), a tuple of tuples is kept; the empty tuple is an IndexError |
| Imports.EnsureImportableIdempotent | xdress/types/system.py:2265-2272 | normalising an import entry twice is normalising it once |
| Imports.EntryTuples | xdress/types/system.py:1086 | set.update with an entry adds exactly its tuples; a callable entry is not iterable |
| Imports.TableTuples | xdress/types/system.py:1085-1088 | the tuples of each included table's entry; a table without the key is a KeyError |
| Imports.Collect | xdress/types/system.py:1067-1123 | a call that falls off its end without reaching a placeholder removal (a type of one element) adds nothing and returns None |
| Imports.CollectCanon | xdress/types/system.py:1083-1123 | the same for a type in canonical form: only the base-type, pair and template branches add and clean |
| Imports.CollectInto | xdress/types/system.py:1067-1123 | the in-place collection into seen returns the outcome the specification computes from the seen set given |
| Imports.CollectCanonInto | xdress/types/system.py:1083-1123 | the same for the canonical-form branches |
| Imports.CollectSlotsInto | xdress/types/system.py:1116-1121 | the slot loop fails exactly when the specification does, and otherwise adds the specification's tuples to seen, up to the placeholders |
| Imports.CollectSlots | xdress/types/system.py:1116-1121 | the tuples the slot loop adds, numbers and unknown names skipped, the first failing slot deciding the error (stated by CollectSlotsInto) |
| Imports.Outcome | xdress/types/system.py:1089-1123 | the set a collector call leaves and whether it returns it (stated by CollectInto and CollectedClean) |
| Imports.CollectedClean | xdress/types/system.py:1089-1123 | a returned set never holds the placeholders None and (None,) |
| Imports.NumericSlotsAddNothing | xdress/types/system.py:1116-1118 | numeric template slots add no tuples |
| Imports.ImportLine | xdress/types/system.py:1125-1130 | each tuple length has its line form; a non-sequence is a TypeError and a length other than 1 to 3 a KeyError |
| Imports.ImportLines | xdress/types/system.py:1133-1139 | the lines of a set of tuples succeed exactly when every non-empty tuple has a line, and are exactly those lines |
| Imports.AliasedModuleLine | xdress/types/system.py:1128 | (m, 'as', a) gives "cimport m as a", and "import m as a" for Python imports |
| Imports.EmptyTupleDropped | xdress/types/system.py:1138-1139 | an empty tuple contributes no line |
| Registrations.CanonMemo | xdress/types/system.py:648-649 | canon through the memo: a stored answer wins, otherwise the tables answer |
| Registrations.SoundMemo | xdress/types/system.py:648-649 | while the memo holds only what the tables would answer, answering through it is answering from the tables |
| Registrations.MemoAfter | xdress/types/system.py:648-649 | asking canon(t) stores a successful answer under t and keeps every earlier entry; a failure stores nothing |
| Registrations.Put | xdress/types/system.py:1489-1500 | an argument that is None stores nothing; any other is stored under the name |
| Registrations.C2pyTuple | xdress/types/system.py:1512-1516 | a string s is stored as (s,), None stores nothing, a tuple is kept, and tuple() of a number is a TypeError |
| Registrations.Py2cPair | xdress/types/system.py:1517-1520 | a string s is stored as (s, False), None stores nothing, anything else as given |
| Registrations.ImportArg | xdress/types/system.py:1502-1510 | None stores nothing; any other argument is stored normalised and fails exactly when normalising does |
| Registrations.OrderAfterSet | xdress/types/system.py:1745 | a new key goes last in the dict order, an existing key keeps its place |
| Registrations.OrderWithout | xdress/types/system.py:1771 | popping a key removes it from the order and keeps every other key |
| Registrations.OrderWithoutDistinct | xdress/types/system.py:1771 | popping keeps every key listed once |
| Registrations.OrderAfterUpdate | xdress/types/system.py:534 | dict.update keeps the old order as a prefix and lists exactly the keys of both |
| Registrations.OrderAfterUpdateDistinct | xdress/types/system.py:534 | dict.update keeps every key listed once |
| Registrations.DtypeAliases | xdress/types/system.py:1819-1824 | every alias register_numpy_dtype adds names the canonical type, and the numpy name, 'xd_v', 'xd_v.num' and '{dtypes}xd_v' are among them |
| Registrations.Concat | xdress/types/system.py:1827 | tuple concatenation succeeds exactly on two tuples |
| Registrations.ExistingImports | xdress/types/system.py:1826 | the normalised existing entry, ((None,),) when there is none; a callable entry fails the concatenation |
| Registrations.DtypeImports | xdress/types/system.py:1830-1838 | the stored cyimport or pyimport entry starts with the dtypes module |
| Registrations.DtypeImportsOrder | xdress/types/system.py:1830-1838 | the entry is (('{dtypes}',),) then the existing entry's tuples then the argument's, the existing entry concatenated before the argument is normalised: a non-tuple existing entry is a TypeError whatever the argument |
| Registrations.PairHeads | xdress/types/system.py:1872 | each enumerator item must unpack into two, and the names are their first elements in order |
| Registrations.AsStatic | xdress/types/system.py:1516-1520 | a stored converter entry holds the templates as given |
| Registrations.AsItems | xdress/types/system.py:1793-1797 | a specialization import entry is stored as given, None stores nothing |
| Registrations.PutPop | xdress/types/system.py:1538-1550 | storing under a fresh key and popping it gives the table back |
| Registrations.SetPop | xdress/types/system.py:1745-1771 | the same for an entry stored unconditionally |
| Registrations.ClassSteps | xdress/types/system.py:1476-1520 | register_class stops with TypeError on a non-empty string of template arguments, with IndexError at the first () import argument, with TypeError on a number as c2py, and completes otherwise; each stop is the first failing step |
| Registrations.ClassRegistered | xdress/types/system.py:1463-1524 | the tables register_class leaves and its outcome (stated by ClassSteps, ClassRegisteredFields and ClassRoundTrip) |
| Registrations.ClassRegisteredFields | xdress/types/system.py:1463-1524 | the tables register_class leaves, one by one, for each point it can stop at |
| Registrations.ClassDeregistered | xdress/types/system.py:1526-1552 | deregister_class fails exactly for a name that is neither a base type nor a template |
| Registrations.ClassDeregisteredFields | xdress/types/system.py:1530-1552 | the name leaves base_types (or else template_types) and every table but cython_functionnames, and the memo is cleared |
| Registrations.ClassRoundTrip | xdress/types/system.py:1463-1552 | deregistering a class just registered under a fresh name restores every table except cython_functionnames |
| Registrations.RefinementSteps | xdress/types/system.py:1745-1765 | register_refinement stops with IndexError at the first () import argument and with TypeError on a number as c2py, and completes otherwise |
| Registrations.RefinementRegistered | xdress/types/system.py:1739-1765 | the tables register_refinement leaves and its outcome (stated by RefinementSteps, RefinementRegisteredKeepsOrder and RefinementRoundTrip) |
| Registrations.RefinementDeregistered | xdress/types/system.py:1767-1777 | the tables deregister_refinement leaves (stated by RefinementDeregisteredKeepsOrder and RefinementRoundTrip) |
| Registrations.OrderWithoutAbsent | xdress/types/system.py:1771 | popping a key never listed leaves the order alone |
| Registrations.OrderWithoutAppended | xdress/types/system.py:1745-1771 | popping the key appended last gives the order before the append |
| Registrations.RefinementRoundTrip | xdress/types/system.py:1739-1777 | deregistering a refinement just registered under a fresh name gives back the state before, its order included |
| Registrations.AppendDistinct | xdress/types/system.py:1745 | appending a key not yet listed keeps every key listed once |
| Registrations.OrderAfterSetLists | xdress/types/system.py:1745 | setting a key keeps the order listing each refined key once |
| Registrations.OrderWithoutLists | xdress/types/system.py:1771 | popping a key keeps the order listing each refined key once |
| Registrations.RefinementRegisteredKeepsOrder | xdress/types/system.py:1739-1765 | registering a refinement keeps the order listing each refined key once, even when it stops part way |
| Registrations.RefinementDeregisteredKeepsOrder | xdress/types/system.py:1767-1777 | so does deregistering |
| Registrations.SpecializationRoundTrip | xdress/types/system.py:1779-1808 | deregistering a specialization just registered for a fresh canonical type gives back the tables |
| Registrations.SpecializationRegistered | xdress/types/system.py:1779-1797 | the tables register_specialization leaves (stated by SpecializationRoundTrip) |
| Registrations.SpecializationDeregistered | xdress/types/system.py:1799-1808 | the tables deregister_specialization leaves (stated by SpecializationRoundTrip) |
| Registrations.DtypeCimports | xdress/types/system.py:1825-1828 | the cimport entry changes only when an argument is given (the new entry's layout and errors are stated by DtypeCimportsOrder) |
| Registrations.DtypeCimportsOrder | xdress/types/system.py:1826-1828 | a stored entry is the existing tuples followed by the argument's; an existing error comes first, then the argument's IndexError for (), and a callable existing entry fails with that IndexError or else with the TypeError of the concatenation |
| Registrations.DtypeImportSteps | xdress/types/system.py:1825-1838 | the three import entries are stored in order up to the first that raises, which decides the outcome |
| Registrations.DtypeRegistered | xdress/types/system.py:1815-1838 | the tables register_numpy_dtype leaves and its outcome (stated by DtypeImportsLead, DtypeNamed and DtypeOnce) |
| Registrations.DtypeImportsLead | xdress/types/system.py:1815-1838 | a completed registration leaves cyimport and pyimport entries led by the dtypes module, and changes only the numpy name, the aliases and the import tables |
| Registrations.DtypeNamed | xdress/types/system.py:1818-1824 | once registered, even if an import step then raises, the type has its numpy name, and that name is an alias canonicalising as the type does |
| Registrations.DtypeOnce | xdress/types/system.py:1815-1817 | registering the same canonical type again changes nothing, whatever the import arguments |
| Registrations.ArgumentKindsRoundTrip | xdress/types/system.py:1840-1857 | deregistering argument kinds just registered finds the same canonical type through the memo and removes the entry again |
| Registrations.EnumNamespacesSet | xdress/types/system.py:1870-1873 | a completed loop gives every enumerator the namespace and leaves the other names alone |
| Registrations.EnumNamespacesPrefixErr | xdress/types/system.py:1872-1873 | an enumerator item that cannot be unpacked stops the loop there |
| Registrations.NamespaceRegistered | xdress/types/system.py:1859-1873 | the variable always gets the namespace; when t is not an enum nothing else changes |
| Registrations.EnumNamespacesKeeps | xdress/types/system.py:1872-1873 | the loop never removes a name and gives every name it touches the namespace |
| Registrations.EnumNamespaces | xdress/types/system.py:1870-1873 | the enumerator loop's namespaces and outcome (stated by EnumNamespacesSet, EnumNamespacesPrefixErr and EnumNamespacesKeeps) |
| Registrations.Updated | xdress/types/system.py:526-538 | update fails with AttributeError exactly when the other system has an attribute this one lacks; otherwise tables merge with the other's entries winning |
| Registrations.OrderAfterUpdateKnown | xdress/types/system.py:534 | updating with keys all present changes no order |
| Registrations.UpdateSelf | xdress/types/system.py:511-538 | updating a system with its own contents gives it back unchanged |
| Registrations.UpdateKeepsOrder | xdress/types/system.py:531-538 | updating keeps the order listing each refined key once |
| Registrations.OrderAfterUpdateLists | xdress/types/system.py:534 | merging two dicts keeps the merged order listing the merged keys once each |
| Registrations.UpdateSignatureAsWritten | xdress/types/system.py:512-524 | the argument-shape check of update as written: one positional argument and no keywords, or no positional argument, passes; any other call raises AttributeError from the misspelt format method |
| Registrations.UpdateSignature | xdress/types/system.py:512-524 | the same check as intended: any other call raises TypeError |
| Registrations.UpdateSignatureTypo | xdress/types/system.py:522-524 | the two checks accept the same calls and, on every other call, raise AttributeError as written and TypeError as intended |
| ClassNames.Undot | xdress/types/system.py:2243-2249 | a missing name is a KeyError and a callable or NotImplemented spelling a TypeError; a spelling without '.' is kept with prefix ""; otherwise the spelling becomes the part after the last '.' and the part before it is returned; no other entry changes |
| ClassNames.Redot | xdress/types/system.py:2251-2254 | an empty prefix changes nothing; otherwise the spelling becomes prefix + "." + spelling, with the same KeyError and TypeError cases |
| ClassNames.UndotRedot | xdress/types/system.py:2243-2254 | redotting with the prefix undotting returned restores the table, for a spelling that does not start with its last '.' |
| ClassNames.LeadingDotLost | xdress/types/system.py:2243-2254 | a spelling ".C" comes back as "C": the round trip loses a leading dot |
| ClassNames.UndotTable | xdress/types/system.py:1916-1924 | undotting every listed name keeps the table's keys and saves a prefix exactly for the listed names the table spells |
| ClassNames.UndotTableFrame | xdress/types/system.py:1916-1924 | undotting leaves the entry and saved prefix of an unlisted name alone |
| ClassNames.RedotTableFrame | xdress/types/system.py:1926-1933 | redotting never reads an unlisted name's entry: changing it before changes only it after, and the keys are kept |
| ClassNames.LocalRoundTrip | xdress/types/system.py:1914-1933 | for distinct names whose spellings can be restored, redotting with the saved prefixes gives back the table undotting started from |
| ClassNames.EnterLocalSplit | xdress/types/system.py:1916-1924 | entering succeeds exactly when each of the three tables' own passes does, and ends with each pass's result |
| ClassNames.LeaveLocalSplit | xdress/types/system.py:1926-1933 | leaving succeeds exactly when each table's own redot pass does, and ends with each pass's result |
| ClassNames.EnterLocalPrefixErr | xdress/types/system.py:1917-1924 | an entering loop that stops at a name stops every longer loop there with the same error |
| ClassNames.LeaveLocalPrefixErr | xdress/types/system.py:1927-1933 | a leaving loop that stops at a name stops every longer loop there with the same error |
| ClassNames.EnterLocal | xdress/types/system.py:1916-1924 | the entering loop over the names (stated by EnterLocalSplit, EnterLocalPrefixErr and LocalClassesRoundTrip) |
| ClassNames.LeaveLocal | xdress/types/system.py:1926-1933 | the leaving loop over the names (stated by LeaveLocalSplit, LeaveLocalPrefixErr and LocalClassesRoundTrip) |
| ClassNames.UndotNameState | xdress/types/system.py:1918-1924 | the tables one undot step leaves, also when its cy or py pass raises after the c table was rewritten; equals UndotName's on success |
| ClassNames.UndotRestState | xdress/types/system.py:1920-1923 | the cy and py tables of one undot step, also when the py pass raises after the cy table was rewritten; the c table and its saved prefix stay as given |
| ClassNames.EnterLocalState | xdress/types/system.py:1916-1924 | the tables the entering loop leaves, also when a step raises part way; equals EnterLocal's on success |
| ClassNames.EnterLocalStatePrefixErr | xdress/types/system.py:1917-1924 | once the entering loop has raised, later names change no table |
| ClassNames.RedotNameState | xdress/types/system.py:1928-1933 | the tables one redot step leaves, also when a later pass raises; equals RedotName's on success and keeps the saved prefixes |
| ClassNames.RedotRestState | xdress/types/system.py:1929-1932 | the cy and py tables of one redot step, also when the py pass raises; the c table and the saved prefixes stay as given |
| ClassNames.LeaveLocalState | xdress/types/system.py:1926-1933 | the tables the leaving loop leaves, also when a step raises part way; equals LeaveLocal's on success |
| ClassNames.LeaveLocalStatePrefixErr | xdress/types/system.py:1927-1933 | once the leaving loop has raised, later names change no table |
| ClassNames.LocalClassesRoundTrip | xdress/types/system.py:1914-1933 | leaving right after entering gives every rewritten table back, for distinct names whose spellings in the typesets named can be restored |
| TypeSystems.AliasEffect | xdress/types/system.py:637-646 | with no aliases pushed, typeAliases and the memo are left as they were |
| TypeSystems.AliasEffectKeepsMemoSound | xdress/types/system.py:639-642 | the clean-up of the pushed aliases gives the alias table back and leaves a memo that agrees with the tables (the nested entries aside, see Findings) |
| TypeSystems.AliasMemoAsWritten | xdress/types/system.py:633-641 | as written, the entry canon(depval) stores while the aliases are pushed survives the clean-up |
| TypeSystems.AliasMemoLeaks | xdress/types/system.py:630-642 | a concrete signature for which resolving succeeds and the memo it leaves as written no longer agrees with the tables |
| TypeSystems.AddThenRemove | xdress/types/system.py:637-645 | adding fresh aliases and removing them again gives the alias table back |
| TypeSystems.TempAliasesFresh | xdress/types/system.py:631-637 | every alias _resolve_dependent_type pushes is a name not yet an alias |
| TypeSystems.FindKey | xdress/types/system.py:1302-1311 | the two while loops of the key search end on the key ConverterKey describes, or its error |
| TypeSystems.Serve | xdress/types/system.py:1302-1316 | the key search plus the write-back of a callable entry is ConvLookup |
| TypeSystems.C2pyGetitemOf | xdress/types/system.py:1300-1316 | the memo ends as canon(t) leaves it; a failing canon fails with the table unchanged; otherwise the entry and table are those ConvLookup gives for canon(t), and never a callable |
| TypeSystems.C2pyOf | xdress/types/system.py:1319-1361 | a failing canon changes nothing but returns its error; otherwise cython_c2py_getitem then the variant; a success never has cached without view |
| TypeSystems.Py2cOf | xdress/types/system.py:1383-1410 | the memo ends as canon(t) leaves it; a failing canon or `last` stops with the table unchanged; otherwise the templates of the entry serving canon(t), whose write-back stays even when the entry is NotImplemented |
| TypeSystems.MemoSettled | xdress/types/system.py:648-649 | asking canon again through the memo it left changes neither the answer nor the memo |
| TypeSystems.C2pyGetitemTwice | xdress/types/system.py:1300-1316 | cython_c2py_getitem asked again on the state it left answers the same and changes nothing |
| TypeSystems.C2pyTwice | xdress/types/system.py:1319-1361 | cython_c2py asked again on the state it left answers the same and changes nothing |
| TypeSystems.Py2cTwice | xdress/types/system.py:1383-1410 | cython_py2c asked again on the state it left answers the same and changes nothing |
| TypeSystems.TypeSystem.Empty | xdress/types/system.py:425-437 | empty(): every table is empty except argument_kinds, which keeps the default table because empty() does not pass one; the dtypes, stlcontainers and extra_types attributes are deleted (see also line 378) |
| TypeSystems.TypeSystem.ClearMemo | xdress/types/system.py:1878-1882 | the memo is emptied and nothing else changes |
| TypeSystems.TypeSystem.DelMemo | xdress/types/system.py:1884-1889 | the memo loses t; a t it does not hold is a KeyError |
| TypeSystems.TypeSystem.CanonCached | xdress/types/system.py:648-649 | returns canon(t) through the memo, leaves the memo MemoAfter describes, and keeps the memo sound |
| TypeSystems.TypeSystem.C2pyGetitem | xdress/types/system.py:1300-1316 | result, converter table and memo are those C2pyGetitemOf gives |
| TypeSystems.TypeSystem.CythonC2py | xdress/types/system.py:1319-1361 | result, converter table and memo are those C2pyOf gives |
| TypeSystems.TypeSystem.CythonPy2c | xdress/types/system.py:1383-1410 | result, converter table and memo are those Py2cOf gives |
| TypeSystems.TypeSystem.CythonCimportTuples | xdress/types/system.py:1067-1123 | the set seen becomes and whether it is returned are those Collect gives over the tables inc names |
| TypeSystems.TypeSystem.CythonImportTuples | xdress/types/system.py:1142-1185 | the same over the pyimports table |
| TypeSystems.TypeSystem.ResolveDependentType | xdress/types/system.py:620-647 | the result ResolveDependent gives; typeAliases and the memo get back their old contents on success, and keep the pushed aliases on failure |
| TypeSystems.TypeSystem.ResolveSignatureType | xdress/types/system.py:621-647 | the same once the signature is chosen |
| TypeSystems.TypeSystem.ResolveInstanceType | xdress/types/system.py:626-647 | the same for an instantiated signature |
| TypeSystems.TypeSystem.ResolveWithParamsType | xdress/types/system.py:629-646 | the same for a templated signature; a parameter name already an alias is a TypeError |
| TypeSystems.TypeSystem.ResolveWithAliases | xdress/types/system.py:637-646 | with the aliases pushed, the pieces are canonicalised and on success the aliases and their memo entries dropped |
| TypeSystems.TypeSystem.DropAliases | xdress/types/system.py:643-645 | each alias name leaves typeAliases and the memo |
| TypeSystems.TypeSystem.RegisterClass | xdress/types/system.py:1463-1524 | returns ClassSteps' outcome and leaves every table register_class writes as ClassRegistered describes for the step it stopped at; other fields and the memo are unchanged |
| TypeSystems.TypeSystem.RegisterClassSpellings | xdress/types/system.py:1489-1500 | each spelling given is stored under the name, and no other |
| TypeSystems.TypeSystem.DeregisterClass | xdress/types/system.py:1526-1552 | a name neither a base type nor a template is a TypeError and changes nothing; otherwise the tables end as ClassDeregistered says and the memo is cleared |
| TypeSystems.TypeSystem.DropClassEntries | xdress/types/system.py:1538-1550 | every class table but cython_functionnames pops the name |
| TypeSystems.TypeSystem.RegisterRefinement | xdress/types/system.py:1739-1765 | the tables end as RefinementRegistered describes for the step it stops at; the order keeps listing the refined keys once |
| TypeSystems.TypeSystem.DeregisterRefinement | xdress/types/system.py:1767-1777 | name leaves the refinements, their order, the converters and the import tables; the memo is cleared |
| TypeSystems.TypeSystem.RegisterSpecialization | xdress/types/system.py:1779-1797 | the entries given are stored under canon(t); a failing canon writes no table |
| TypeSystems.TypeSystem.DeregisterSpecialization | xdress/types/system.py:1799-1808 | canon(t) leaves the six tables and the memo is cleared; a failing canon changes no table |
| TypeSystems.TypeSystem.RegisterNumpyDtype | xdress/types/system.py:1810-1838 | the memo as canon(t) leaves it; a failing canon writes no table; otherwise the tables end as RegisterDtypeCanonical says |
| TypeSystems.TypeSystem.NameDtype | xdress/types/system.py:1818-1824 | c gets its numpy name and its aliases |
| TypeSystems.TypeSystem.StoreDtypeImports | xdress/types/system.py:1825-1838 | the import entries stored are the first n of DtypeImportSteps and the outcome its outcome |
| TypeSystems.TypeSystem.RegisterArgumentKinds | xdress/types/system.py:1840-1851 | the kinds are stored under canon(t), over any previous ones |
| TypeSystems.TypeSystem.DeregisterArgumentKinds | xdress/types/system.py:1853-1857 | canon(t) leaves the argument kinds if present, and the memo is kept |
| TypeSystems.TypeSystem.RegisterVariableNamespace | xdress/types/system.py:1859-1873 | the namespaces end as NamespaceRegistered says, with canon(t) asked after name is stored |
| TypeSystems.TypeSystem.SetEnumerators | xdress/types/system.py:1870-1873 | the enumerator loop ends as EnumNamespaces says |
| TypeSystems.TypeSystem.SwapDtypesEnter | xdress/types/system.py:1892-1897 | a deleted dtypes attribute is an AttributeError and changes nothing; otherwise the old value is returned for the exit, dtypes becomes s and the memo is cleared |
| TypeSystems.TypeSystem.SwapDtypesExit | xdress/types/system.py:1898-1900 | after a block that does not raise, whatever it left: the memo is cleared and dtypes is the value saved on entry |
| TypeSystems.TypeSystem.SwapStlcontainersEnter | xdress/types/system.py:1903-1908 | the same entry half for stlcontainers |
| TypeSystems.TypeSystem.SwapStlcontainersExit | xdress/types/system.py:1909-1911 | the same exit half for stlcontainers |
| TypeSystems.TypeSystem.LocalClassesEnter | xdress/types/system.py:1914-1924 | the outcome is EnterLocal's, carrying the saved prefixes; the tables are those EnterLocalState gives, also when a name raises; the memo is cleared exactly when entering succeeds |
| TypeSystems.TypeSystem.LocalClassesExit | xdress/types/system.py:1926-1933 | on the tables as the block left them, with the prefixes saved on entry: the outcome is LeaveLocal's, the tables those LeaveLocalState gives, also when a name raises (a listed name the block added has no saved prefix: KeyError), and the memo is cleared exactly when leaving succeeds |
| TypeSystems.TypeSystem.EnterLocalClasses | xdress/types/system.py:1916-1924 | the entering loop returns EnterLocal's outcome and leaves the tables EnterLocalState gives, also when it raises |
| TypeSystems.TypeSystem.UndotClass | xdress/types/system.py:1918-1924 | one name's undot step returns UndotName's outcome and leaves UndotNameState's tables |
| TypeSystems.TypeSystem.UndotRest | xdress/types/system.py:1920-1923 | the cy and py undot steps of one name return the first error or the rewritten tables with their prefixes, and leave UndotRestState's tables |
| TypeSystems.TypeSystem.LeaveLocalClasses | xdress/types/system.py:1926-1933 | the leaving loop returns LeaveLocal's outcome and leaves the tables LeaveLocalState gives, also when it raises |
| TypeSystems.TypeSystem.RedotClass | xdress/types/system.py:1928-1933 | one name's redot step returns RedotName's outcome and leaves RedotNameState's tables |
| TypeSystems.TypeSystem.RedotRest | xdress/types/system.py:1929-1932 | the cy and py redot steps of one name return the first error or success, and leave RedotRestState's tables |
| AutoAll.ExpandEntries | xdress/autoall.py:355-376 | an error exactly when some entry is empty or a '*' entry has no source (IndexError); otherwise the expanded entries, the sources of the star entries and whether there is one |
| AutoAll.ReplaceStars | xdress/autoall.py:404-426 | the loop's outcome is Replaced: each star entry replaced by one entry per name found in its source |
| AutoAll.XDressPlugin.Setup | xdress/autoall.py:352-384 | fails with IndexError exactly when one of the three lists is malformed; otherwise each list is expanded, allsrc is the union of the star sources and each flag says whether its list has a star |
| AutoAll.XDressPlugin.Execute | xdress/autoall.py:386-426 | without a star everything is left as it is; otherwise each flagged list becomes its replaced form in turn, the first error stops and leaves the later lists alone |
| AutoAll.ExpandIdempotent | xdress/autoall.py:363-376 | expanding expanded entries changes nothing |
| AutoAll.ExpandKeepsStars | xdress/autoall.py:363-376 | expanding keeps the star sources and whether there is a star, keeps well-formedness both ways, and leaves every star entry with a target |
| AutoAll.Targeted | xdress/autoall.py:364-365 | a two-field entry gets its source as its target, any other is kept (stated by ExpandIdempotent and ExpandKeepsStars) |
| AutoAll.Expand | xdress/autoall.py:360-379 | the first pass over one list (stated by ExpandEntries, ExpandIdempotent and ExpandKeepsStars) |
| AutoAll.ReplacedAppend | xdress/autoall.py:404-426 | replacing a concatenation is replacing each part and concatenating; an error in the first part wins |
| AutoAll.ReplacedNoStar | xdress/autoall.py:404-426 | entries without a star are kept as they are |
| AutoAll.ExecuteAfterSetup | xdress/autoall.py:352-426 | for well-formed entries whose sources were all searched, execute after setup never fails |
| AutoAll.ReplacedResolvesStars | xdress/autoall.py:404-426 | when no name found is "*", no star is left after execute |
| AutoAll.Piece | xdress/autoall.py:405-409 | what the third pass puts in place of one entry (stated by ReplacedNoStar and ReplacedResolvesStars) |
| AutoAll.Replaced | xdress/autoall.py:403-426 | the third pass over one list (stated by ReplacedAppend, ReplacedNoStar, ReplacedResolvesStars and ExecuteAfterSetup) |
| AutoAll.MinOf | xdress/autoall.py:116-118 | the least name of a non-empty set |
| AutoAll.SortSet | xdress/autoall.py:116-118 | sorted(set): the names strictly increasing in string order, the same names, each once |
| AutoAll.SortedOfSorted | xdress/autoall.py:116-118 | the sorted list of a set is strictly increasing and holds exactly its members |
| AutoAll.LessTotal | xdress/autoall.py:116-118 | string order is total on distinct names (and LessIrreflexive, LessTransitive make it strict) |
| AutoAll.Less | xdress/autoall.py:118 | Python's order on str, as sorted() uses it (stated by LessTotal, LessIrreflexive and LessTransitive) |
| AutoAll.LessIrreflexive | xdress/autoall.py:118 | no name is less than itself |
| AutoAll.LessTransitive | xdress/autoall.py:118 | string order is transitive |
| AutoAll.GccxmlFinder.VisitKind | xdress/autoall.py:104-118 | the sorted names of the elements of that tag in a file of onlyin, without a leading '_'; a name is listed exactly when such an element has it |
| AutoAll.GccxmlFinder.VisitKinds | xdress/autoall.py:87-118 | for a list of kinds, the concatenation of each kind's sorted names, in the order of the kinds |
| AutoAll.KindsNamesMembers | xdress/autoall.py:104-118 | a name is found for a list of kinds exactly when some kind finds it |
| AutoAll.GccxmlFinder.Visit | xdress/autoall.py:71-85 | appends the sorted enumeration names to variables and the sorted function names to functions, and to classes the sorted class names followed by the sorted struct names |
| AutoAll.PycparserFinder.VisitEnumerator | xdress/autoall.py:220-227 | the enumerator's name is appended to variables exactly when its file is in onlyin and the name does not start with '_'; no name with '_' is ever listed |
| AutoAll.PycparserFinder.VisitFuncDecl | xdress/autoall.py:229-236 | the same for a function declaration and functions |
| AutoAll.PycparserFinder.VisitStruct | xdress/autoall.py:238-245 | the same for a struct and classes |
| AutoAll.OnlyInSource | xdress/autoall.py:281-282 | for a file b.ext, onlyin is {b.ext, b.h} |
| AutoAll.OnlyInHeader | xdress/autoall.py:281-282 | for a header b.h, onlyin is {b.h} |
| AutoAll.OnlyInNoDot | xdress/autoall.py:281-282 | for a name without '.', onlyin is the name and the name + ".h" |
| AutoAll.Basename | xdress/autoall.py:281 | filename.rsplit('.', 1)[0] (stated by OnlyInSource, OnlyInHeader and OnlyInNoDot) |
| AutoAll.OnlyIn | xdress/autoall.py:281-282 | the onlyin set of pycparser_findall (stated by OnlyInSource, OnlyInHeader and OnlyInNoDot) |
| TypeSystems.TypeSystem.RegisterDtypeCanonical | xdress/types/system.py:1815-1838 | a type with a numpy name already changes nothing; a failing cython_variablename raises before anything is stored; otherwise the type is named and its aliases added, then the import entries are stored as DtypeImportSteps says |

## Left out

- Loading and dumping a type system (pickle, gzip, files), `__str__`, `__repr__`, `_pprint` and every `warn` or `print` call: these are I/O. Overwrite warnings are not modelled.
- The `memoize_method` decorator is not part of this model. Of its memos, only the entries that top-level `canon` calls make are modelled, as the `cache` map, because the registration methods read and clear them. The memos of the other methods are treated as transparent.
- Registrations.CanonMemo: a nested `self.canon` call (of a slot, an alias target, a refinement's parent, or `depval` and `k` inside `_resolve_dependent_type`) neither reads the memo nor stores an entry; the model recomputes it from the tables. So a stale entry that the source would read after `register_refinement` (which does not clear the memo) is not modelled.
- Registrations.MemoAfter: states only the entry of the top-level call; the entries of the nested calls are not modelled.
- TypeSystems.TypeSystem.CanonCached: the same gap; the memo it leaves holds the top-level entry only.
- TypeSystems.TypeSystem.ResolveDependentType: the memo it leaves is the old memo minus the parameter names; the nested entries the source stores, including the `canon(depval)` entry made while the parameters are aliases, are not modelled (the leak is recorded under Findings, with TypeSystems.AliasMemoAsWritten and TypeSystems.AliasMemoLeaks).
- TypeSystems.TypeSystem.ResolveSignatureType: the same gap; the nested memo entries are not modelled.
- TypeSystems.TypeSystem.ResolveInstanceType: the same gap; the nested memo entries are not modelled.
- TypeSystems.TypeSystem.ResolveWithParamsType: the same gap; the nested memo entries are not modelled.
- TypeSystems.TypeSystem.ResolveWithAliases: the same gap; the nested memo entries are not modelled.
- TypeSystems.TypeSystem.DelMemo: the memo always exists in the model, so the source's do-nothing case while `_cache` has not been created (system.py:1881, 1887) is not modelled; its key is the canonical type alone, not the (method, args, kwargs) triple.
- Spelling.CppType: a base type whose `cpp_types` entry is NotImplemented or a callable is an error (`NonString`) in the model when it is placed with a predicate; the source formats the value into text (`'{0} {1}'.format`), giving e.g. "NotImplemented *". The model does not render Python objects as text.
- Spelling.CythonCtype: the same for `_cython_ctype_add_predicate`.
- The `NonString` error: it stands for a spelling that is None, NotImplemented or a callable where the source goes on with it as a value; where the source's later step would fail on that value anyway (a join, a concatenation) the outcome is the same error, and where it would format it into text the model stops instead.
- TypeSystems.Py2cOf: for a dependent converter key whose variable type is a refinement, the source makes a nested `cython_py2c(var, vartype)` call (system.py:1416-1430). That call's own converter write-back and memo entry, and its errors, are not modelled. Neither are the `zip(..., tinst)` TypeError when the type has no instantiation, the IndexError of the signature search, and the `cython_ctype` calls for the template keywords.
- TypeSystems.TypeSystem.CythonPy2c: the same nested call is not modelled.
- The lazy configuration dictionaries and `get_defaults`: the tables are plain maps. The `{dtypes}`-style placeholder substitution they perform is not modelled, so `{dtypes}` stays literal text.
- Callables stored in the spelling, import and converter tables: they are opaque function values. What they compute is not specified, beyond a converter callable answering with templates or NotImplemented (`Converters.Conv`); a converter callable that answers with another callable is not modelled.
- Values.Format: every replacement field is read as a keyword name. A conversion (`{x!r}`), a format spec (`{x:>8}`), a positional or automatic field (`{0}`, `{}`) and an attribute or index lookup (`{a.b}`, `{a[0]}`) are therefore a KeyError in the model, where `str.format` converts, formats or looks them up (a positional field against keyword arguments is an IndexError there).
- The text post-processing in `cython_c2py` and `cython_py2c`: `str.format` filling of the templates, `cdef` line splitting, shape injection and declaration splicing. Only the key search, the write-back and the choice of templates are modelled.
- `typestr`, `register_classname` and `stlwrap.py`: string-formatting layers over the renderers, not part of this model.
- Floating-point numbers: numeric type slots are integers only, and Python booleans are the integers 0 and 1.
- Registrations.Updated: `update` fails part way through on a missing attribute after earlier tables have been merged. The model says only that the call fails, not what the partial merge leaves. Only the `update(<TypeSystem>)` form is modelled: the dict-like and keyword forms, and the check that every key is a data field (AttributeError otherwise), are not. The argument-shape check and its misspelt `msg.fomat` are Registrations.UpdateSignatureAsWritten and Registrations.UpdateSignature (see Findings).
- AutoAll.XDressPlugin.Setup: when an entry raises IndexError, earlier entries of the same and earlier lists have already been rewritten; the contract states only that the error is returned.
- AutoAll.XDressPlugin.Execute: the lists already replaced before an error keep their new value and later lists their old one, as the contract states; which elements of the failing list were replaced is not modelled because the source builds it in a fresh list.
- `pycparser` nodes whose declaration name is `None` (an AttributeError on `startswith`): the model takes every name to be a string.
- The `GccxmlFinder` constructor's lookup of the file ids of the wanted files in the parse tree: `onlyin` is given as the set of ids. `gccxml_findall`, `pycparser_findall`, `findall`, `find_source` and the `os.path` handling are parsers and file lookup, replaced by the `allnames` input.
- Converters.ConverterKey, Converters.ConvLookup: built on the corrected `Converters.Step` (see Findings); for a one-element canonical key that is not registered the source raises IndexError at `tkey[1]` (system.py:1305), where the model walks to the element.
- Converters.CallableNotImplemented: states the corrected `C2pyVariant`; for a tuple t the source raises TypeError building the message (system.py:1330-1331), which `C2pyTupleMessageFails` states.
- TypeSystems.FindKey, TypeSystems.Serve: the first loop takes the corrected step; the source raises IndexError on a one-element key (system.py:1305).
- TypeSystems.C2pyGetitemOf, TypeSystems.TypeSystem.C2pyGetitem: use the corrected step, so a one-element key that the source fails on with IndexError (system.py:1305) is served by its element here.
- TypeSystems.C2pyOf, TypeSystems.TypeSystem.CythonC2py: use the corrected step and the corrected `C2pyVariant`; where the source raises IndexError (system.py:1305) or, for a tuple type with a NotImplemented converter, TypeError (system.py:1330-1331), the model gives the key's entry or NotImplementedError.
- TypeSystems.Py2cOf, TypeSystems.TypeSystem.CythonPy2c: the key search uses the corrected step; the source raises IndexError on a one-element key (system.py:1397).
- Imports.CollectInto, Imports.CollectCanonInto, Imports.CollectSlotsInto: on an error the model returns only the error; the source has by then already added some tuples to the caller's `seen` set (`seen.update` at system.py:1086-1107 and 1113-1121), and those partial contents are not stated.
- Imports.Collect: its own contract states only that a call ending without a placeholder removal adds nothing; what the collectors add is stated by Imports.CollectInto, Imports.CollectSlotsInto and the lemmas, against this function.
- The `setup` and `execute` steps of the plugin base class: calls into code that is not part of this model.

## Findings

| source | as written | input that shows it | evidently intended | confidence | as-written member | corrected member |
|---|---|---|---|---|---|---|
| xdress/types/system.py:1305 | the first walk of the converter key search guards `tkey[1]` with `0 < len(tkey)`, so a one-element key reads a second element that does not exist (line 1397 repeats it for `cython_py2c`) | refined_types holds the dependent signature `('foo',)` and `'foo'` has a converter: `canon('foo')` is `('foo',)`, and `cython_c2py_getitem('foo')` raises IndexError | step to `tkey[0]` when there is no second element (`1 < len(tkey)`), so the search reaches the converter registered for `'foo'` | not executed | Converters.StepAsWrittenOneTuple | Converters.Step |
| xdress/types/system.py:597 | humanname unpacks the nested call as `val, _ = self.humanname(...)`, but humanname returns `(t, name)`, so `val` is the slot tuple | base_types {'int32'}, template_types {'vector': ('value_type',)}, humannames {'int32': 'int', 'vector': 'vector of {value_type}'}, t = ('vector', ('vector', 'int32', 0), 0): the name is "vector of ('vector', 'int32', 0)" | `_, val = ...`, as cython_functionname writes it at line 1269, giving "vector of vector of int" | not executed | Names.NestedHumanName | Names.HumanName |
| xdress/types/system.py:633-641 | the temporary aliases are removed with `delmemo` of the alias names only; `canon(depval)`, memoised while the aliases are in place, stays in the memo | refined_types {('dep', 'T'): ('T',)}, template_types {'dep': ('T',)}, base_types {'int32'}: after canon(('dep', 'int32')) the memo keeps ('T',) mapped to ('int32', 0), though canon(('T',)) is then a TypeError | the clean-up drops every entry computed under the temporary aliases | not executed; the memo decorator is not part of this model | TypeSystems.AliasMemoLeaks | TypeSystems.AliasEffectKeepsMemoSound |
| xdress/types/system.py:522-524 | the invalid-signature message is built with `msg.fomat`, which does not exist | `ts.update(a, b)`: AttributeError on `fomat` | raise TypeError with the formatted message (the `{1!0}` field would also need correcting to `{1!r}`) | not executed | Registrations.UpdateSignatureAsWritten | Registrations.UpdateSignature |
| xdress/types/system.py:1330-1331 | the NotImplementedError message is built as `'...' + t + '...'` | a type such as `('int', 'const')` whose converter is NotImplemented: concatenating a string and a tuple raises TypeError | raise NotImplementedError for every type, formatting `t` into the message | not executed | Converters.C2pyTupleMessageFails | Converters.C2pyVariant |
