/** The import interface of a WebAssembly module: one import declaration
    (`ImportType`) and an ordered, immutable list of them (`ImportList`)
    with lookup by field name. */
module Imports {
  import opened Wrappers

  /** The WebAssembly value types a signature can mention. The preset only
      uses I32 and I64; the float types are here because a list built from
      a decoded module may carry them. */
  datatype ValueType = I32 | I64 | F32 | F64

  /** A function signature: ordered parameter types and at most one result. */
  datatype FunctionType = FunctionType(params: seq<ValueType>, ret: Option<ValueType>)

  /** The four kinds of import, as a plain tag. */
  datatype ImportKind = FunctionKind | GlobalKind | MemoryKind | TableKind

  /** One import declaration: host module name, field name and, for
      functions only, the signature. */
  datatype ImportType =
    | Function(moduleName: string, fieldName: string, sig: FunctionType)
    | Global(moduleName: string, fieldName: string)
    | Memory(moduleName: string, fieldName: string)
    | Table(moduleName: string, fieldName: string)
  {
    /** The host module the import is taken from; defined for every kind. */
    function Module(): string {
      match this
      case Function(m, _, _) => m
      case Global(m, _) => m
      case Memory(m, _) => m
      case Table(m, _) => m
    }

    /** The name of the imported item inside its module; defined for every kind. */
    function Field(): string {
      match this
      case Function(_, f, _) => f
      case Global(_, f) => f
      case Memory(_, f) => f
      case Table(_, f) => f
    }

    /** Which of the four kinds the import is. */
    function Kind(): ImportKind {
      match this
      case Function(_, _, _) => FunctionKind
      case Global(_, _) => GlobalKind
      case Memory(_, _) => MemoryKind
      case Table(_, _) => TableKind
    }

    /** The call signature, or an error (carrying nothing) when the import
        is not a function. */
    function Signature(): (r: Result<FunctionType, ()>)
      ensures r.Success? <==> Kind() == FunctionKind
      ensures r.Success? ==> Make(FunctionKind, Module(), Field(), r.value) == this
    {
      match this
      case Function(_, _, s) => Success(s)
      case _ => Failure(())
    }
  }

  /** Builds the import of the given kind; `sig` is used only for functions. */
  function Make(kind: ImportKind, moduleName: string, fieldName: string, sig: FunctionType): ImportType {
    match kind
    case FunctionKind => Function(moduleName, fieldName, sig)
    case GlobalKind => Global(moduleName, fieldName)
    case MemoryKind => Memory(moduleName, fieldName)
    case TableKind => Table(moduleName, fieldName)
  }

  /** The accessors give back exactly what the import was built from:
      module and field for every kind, the signature for functions and an
      error for the other three kinds. */
  lemma AccessorsOfMake(kind: ImportKind, moduleName: string, fieldName: string, sig: FunctionType)
    ensures Make(kind, moduleName, fieldName, sig).Module() == moduleName
    ensures Make(kind, moduleName, fieldName, sig).Field() == fieldName
    ensures Make(kind, moduleName, fieldName, sig).Kind() == kind
    ensures kind == FunctionKind ==> Make(kind, moduleName, fieldName, sig).Signature() == Success(sig)
    ensures kind != FunctionKind ==> Make(kind, moduleName, fieldName, sig).Signature() == Failure(())
  {
  }

  /** Conversely, every import is rebuilt from its kind, module and field
      (and its signature when it has one): the accessors lose nothing. */
  lemma MakeOfAccessors(t: ImportType, sig: FunctionType)
    requires t.Signature().Success? ==> sig == t.Signature().value
    ensures Make(t.Kind(), t.Module(), t.Field(), sig) == t
  {
  }

  /** True when no entry of `s` has field name `name`. */
  ghost predicate NoneWithField(s: seq<ImportType>, name: string) {
    forall j :: 0 <= j < |s| ==> s[j].Field() != name
  }

  /** True when `i` is the first position of `s` whose field name is `name`. */
  ghost predicate IsFirstWithField(s: seq<ImportType>, name: string, i: int) {
    && 0 <= i < |s|
    && s[i].Field() == name
    && NoneWithField(s[..i], name)
  }

  /** The position of the first entry of `s` whose field name is `name`,
      scanning in order; the module name plays no part. */
  function FindField(s: seq<ImportType>, name: string): (r: Option<nat>)
    ensures r.Some? ==> IsFirstWithField(s, name, r.value)
    ensures r.None? <==> NoneWithField(s, name)
  {
    if |s| == 0 then None
    else if s[0].Field() == name then Some(0)
    else match FindField(s[1..], name)
      case None => None
      case Some(i) => Some(i + 1)
  }

  /** An ordered, immutable list of imports. */
  datatype ImportList = ImportList(list: seq<ImportType>)
  {
    /** The entries, in the order they were given. */
    function Entries(): seq<ImportType> {
      list
    }

    /** The first entry whose field name is `name`, or None when there is none. */
    function LookupByField(name: string): (r: Option<ImportType>)
      ensures r.Some? ==> exists i :: IsFirstWithField(Entries(), name, i) && Entries()[i] == r.value
      ensures r.None? <==> NoneWithField(Entries(), name)
    {
      match FindField(list, name)
      case Some(i) => assert IsFirstWithField(Entries(), name, i); Some(list[i])
      case None => None
    }
  }

  /** Builds a list from the given entries, keeping their order. */
  function WithEntries(entries: seq<ImportType>): (r: ImportList)
    ensures r.Entries() == entries
  {
    ImportList(entries)
  }

  /** Viewing a list and building a list from the view gives the list back. */
  lemma WithEntriesOfEntries(l: ImportList)
    ensures WithEntries(l.Entries()) == l
  {
  }

  /** True when no two entries of `s` share a field name. */
  ghost predicate DistinctFields(s: seq<ImportType>) {
    forall i, j :: 0 <= i < j < |s| ==> s[i].Field() != s[j].Field()
  }

  /** The field name of every entry, position by position. */
  function FieldNames(s: seq<ImportType>): seq<string> {
    seq(|s|, i requires 0 <= i < |s| => s[i].Field())
  }

  /** Distinct names in the field-name column mean distinct field names. */
  lemma DistinctFieldNames(s: seq<ImportType>, names: seq<string>)
    requires FieldNames(s) == names
    requires forall i, j :: 0 <= i < j < |names| ==> names[i] != names[j]
    ensures DistinctFields(s)
  {
    assert forall i :: 0 <= i < |s| ==> names[i] == s[i].Field();
  }

  /** A name missing from the field-name column finds nothing. */
  lemma LookupAbsentName(s: seq<ImportType>, names: seq<string>, name: string)
    requires FieldNames(s) == names
    requires name !in names
    ensures WithEntries(s).LookupByField(name) == None
  {
    assert forall i :: 0 <= i < |s| ==> names[i] == s[i].Field();
  }

  /** An empty list finds nothing, whatever the name. */
  lemma LookupInEmpty(name: string)
    ensures WithEntries([]).LookupByField(name) == None
  {
  }

  /** The earliest entry carrying a field name shadows every later one,
      whatever module either comes from. */
  lemma LookupFirstWins(before: seq<ImportType>, e: ImportType, after: seq<ImportType>)
    requires NoneWithField(before, e.Field())
    ensures WithEntries(before + [e] + after).LookupByField(e.Field()) == Some(e)
  {
    var s := before + [e] + after;
    assert s[|before|] == e;
  }

  /** Two entries with one field name but different modules: the first one
      inserted is the one found. */
  lemma LookupSharedFieldName(m1: string, m2: string, f: string, sig: FunctionType)
    ensures WithEntries([Global(m1, f), Function(m2, f, sig)]).LookupByField(f) == Some(Global(m1, f))
    ensures WithEntries([Function(m2, f, sig), Global(m1, f)]).LookupByField(f) == Some(Function(m2, f, sig))
  {
  }

  /** The search only looks at field names: two lists that agree on the
      field name at every position find the same position for every name. */
  lemma FindFieldIgnoresModules(s: seq<ImportType>, u: seq<ImportType>, name: string)
    requires |s| == |u|
    requires forall i :: 0 <= i < |s| ==> s[i].Field() == u[i].Field()
    ensures FindField(s, name) == FindField(u, name)
  {
  }

  /** When field names are distinct, every entry is found by its own field
      name, so a lookup matches at most one entry. */
  lemma LookupDistinct(s: seq<ImportType>, i: int)
    requires DistinctFields(s)
    requires 0 <= i < |s|
    ensures WithEntries(s).LookupByField(s[i].Field()) == Some(s[i])
  {
  }
}
