/**
 * The tables a TypeSystem keeps about the types it knows, as one value.
 * The canonicalisation and spelling functions read a Registry; the
 * TypeSystem class owns one field per table and packs them into a Registry.
 */
module Registry {
  import opened Values

  /**
   * An entry of a spelling table: a string (for a template, a format string
   * with one keyword field per template parameter), a callable computing the
   * spelling from a refinement's detail, or NotImplemented.
   */
  datatype Spelling = Text(text: string) | Computed(f: Ty -> string) | NotImpl

  /**
   * An entry of an import table: a tuple of import tuples, or a callable that
   * adds import tuples for a refinement's detail to the set being collected.
   */
  datatype ImportEntry = Items(v: Ty) | Collector(f: Ty -> set<Ty>)

  datatype Registry = Registry(
    baseTypes: set<Ty>,
    /** template name -> the names of its parameters */
    templateTypes: map<Ty, seq<Ty>>,
    /** refinement (or dependent-type signature) -> the type it refines */
    refinedTypes: map<Ty, Ty>,
    /** the keys of refinedTypes in insertion order */
    refinedOrder: seq<Ty>,
    typeAliases: map<Ty, Ty>,
    humannames: map<Ty, string>,
    argumentKinds: map<Ty, seq<ArgKind>>,
    variableNamespace: map<Ty, string>,
    cppTypes: map<Ty, Spelling>,
    numpyTypes: map<Ty, string>,
    cythonCtypes: map<Ty, Spelling>,
    cythonCytypes: map<Ty, Spelling>,
    cythonPytypes: map<Ty, Spelling>,
    cythonCimports: map<Ty, ImportEntry>,
    cythonCyimports: map<Ty, ImportEntry>,
    cythonPyimports: map<Ty, ImportEntry>,
    cythonFunctionnames: map<Ty, string>,
    cythonClassnames: map<Ty, string>)

  /** The keys of refined are exactly those listed in order, each once. */
  ghost predicate Lists(order: seq<Ty>, refined: map<Ty, Ty>) {
    (forall k :: k in order <==> k in refined)
    && (forall i, j :: 0 <= i < j < |order| ==> order[i] != order[j])
  }

  /** refinedOrder lists the keys of refinedTypes. */
  ghost predicate OrderValid(tb: Registry) {
    Lists(tb.refinedOrder, tb.refinedTypes)
  }
}
