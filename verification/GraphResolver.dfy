/** Cross-file resolution of imports, calls and test relations (code_intelligence.py). */
module GraphResolver {
  import opened Prelude
  import opened Imports

  datatype SymbolKind = ModuleKind | ClassKind | FunctionKind | MethodKind | OtherKind

  datatype Identity =
    Identity(repository: int, revision: string, moduleName: string, qualifiedName: string, kind: SymbolKind)

  datatype SiteKind = NameSite | AttrMethodSite | CtorMethodSite | SelfMethodSite | OtherSite

  datatype CallSite = CallSite(kind: SiteKind, name: string, attr: string, method_: string)

  datatype Symbol = Symbol(
    id: int, identity: Identity, name: string, path: string, kind: SymbolKind, qualifiedName: string,
    callSites: seq<CallSite>, instanceAttrs: Option<map<string, string>>)

  datatype RelationKind = ImportsKind | CallsKind | InstantiatesKind | TestsKind

  datatype Relation = Relation(
    kind: RelationKind, source: Identity, target: Identity, repository: int, revision: string,
    sourcePath: string, targetPath: string)

  datatype File = File(path: string, moduleName: string, symbols: seq<Symbol>, imports: seq<Import>)

  /** A local name and the module and name it was imported from. */
  datatype Binding = Binding(local: string, moduleName: string, name: string)

  /** The files of one repository at one revision, as the parser produced them. */
  datatype Parsed = Parsed(repository: int, revision: string, files: seq<File>, isTest: string -> bool)

  // ----- lookups -------------------------------------------------------------

  function First(wanted: Symbol -> bool, symbols: seq<Symbol>): Option<Symbol> {
    if symbols == [] then None
    else if wanted(symbols[0]) then Some(symbols[0])
    else First(wanted, symbols[1..])
  }

  /** A module name that occurs twice stands for its last file. */
  function FileOf(files: seq<File>, moduleName: string): Option<File> {
    if files == [] then None
    else if Last(files).moduleName == moduleName then Some(Last(files))
    else FileOf(Front(files), moduleName)
  }

  function IndexOf(files: seq<File>): Index {
    if files == [] then map[] else IndexOf(Front(files))[Last(files).moduleName := PackagePath(Last(files).path)]
  }

  function ModuleSymbol(f: File): Option<Symbol> {
    First((s: Symbol) => s.kind.ModuleKind?, f.symbols)
  }

  function ModuleSymbolOf(files: seq<File>, moduleName: string): Option<Symbol> {
    match FileOf(files, moduleName)
    case None => None
    case Some(f) => ModuleSymbol(f)
  }

  function ByModule(files: seq<File>, moduleName: string, name: string): Option<Symbol> {
    match FileOf(files, moduleName)
    case None => None
    case Some(f) => First((s: Symbol) => s.name == name && (s.kind.ClassKind? || s.kind.FunctionKind?), f.symbols)
  }

  function MethodNamed(files: seq<File>, qualified: string): Option<Symbol> {
    if files == [] then None
    else
      match First((s: Symbol) => s.qualifiedName == qualified && s.kind.MethodKind?, files[0].symbols)
      case None => MethodNamed(files[1..], qualified)
      case Some(s) => Some(s)
  }

  function FindMethod(files: seq<File>, class_: Symbol, name: string): Option<Symbol> {
    if !class_.kind.ClassKind? then None else MethodNamed(files, class_.qualifiedName + "." + name)
  }

  function EnclosingClass(files: seq<File>, caller: Symbol): Option<Symbol> {
    var parts := Split(caller.qualifiedName);
    if |parts| < 3 then None
    else
      match FileOf(files, caller.identity.moduleName)
      case None => None
      case Some(f) => First((s: Symbol) => s.kind.ClassKind? && s.name == parts[|parts| - 2], f.symbols)
  }

  function LookupBinding(bindings: seq<Binding>, local: string): Option<Binding> {
    if bindings == [] then None
    else if bindings[0].local == local then Some(bindings[0])
    else LookupBinding(bindings[1..], local)
  }

  /** A later import of the same local name takes its place. */
  function Bind(bindings: seq<Binding>, b: Binding): seq<Binding> {
    if bindings == [] then [b]
    else if bindings[0].local == b.local then [b] + bindings[1..]
    else [bindings[0]] + Bind(bindings[1..], b)
  }

  function ImportedName(files: seq<File>, name: string, bindings: seq<Binding>): Option<Symbol> {
    match LookupBinding(bindings, name)
    case None => None
    case Some(b) =>
      var named := if b.name != "" then ByModule(files, b.moduleName, b.name) else None;
      if named.Some? then named else ModuleSymbolOf(files, b.moduleName)
  }

  /** The attributes recorded for a class of the file; the last such class wins. */
  function ClassAttrs(symbols: seq<Symbol>, qualifiedName: string): map<string, string> {
    if symbols == [] then map[]
    else if Last(symbols).kind.ClassKind? && Last(symbols).instanceAttrs.Some?
      && Last(symbols).qualifiedName == qualifiedName
    then Last(symbols).instanceAttrs.value
    else ClassAttrs(Front(symbols), qualifiedName)
  }

  function SelfMethodTarget(
      files: seq<File>, f: File, bindings: seq<Binding>, caller: Symbol, site: CallSite): Option<Symbol> {
    match EnclosingClass(files, caller)
    case None => None
    case Some(enclosing) =>
      var attrs := ClassAttrs(f.symbols, enclosing.qualifiedName);
      if site.attr !in attrs then None
      else
        var imported := ImportedName(files, attrs[site.attr], bindings);
        var class_ := if imported.Some? then imported else ByModule(files, f.moduleName, attrs[site.attr]);
        if class_.None? then None else FindMethod(files, class_.value, site.method_)
  }

  function CallTarget(
      files: seq<File>, f: File, bindings: seq<Binding>, caller: Symbol, site: CallSite): Option<Symbol> {
    match site.kind
    case NameSite => ImportedName(files, site.name, bindings)
    case AttrMethodSite => ImportedName(files, site.name, bindings)
    case CtorMethodSite =>
      var class_ := ImportedName(files, site.name, bindings);
      if class_.None? then None else FindMethod(files, class_.value, site.method_)
    case SelfMethodSite => SelfMethodTarget(files, f, bindings, caller, site)
    case OtherSite => None
  }

  // ----- relations -----------------------------------------------------------

  /** `_add_relation`: nothing when a symbol would be related to itself. */
  function Edge(p: Parsed, kind: RelationKind, source: Symbol, target: Symbol): seq<Relation> {
    if source.id == target.id then []
    else [Relation(kind, source.identity, target.identity, p.repository, p.revision, source.path, target.path)]
  }

  /** The symbol of the imported module, when the import resolves to a file that has one. */
  function ImportTarget(p: Parsed, f: File, imp: Import): Option<Symbol> {
    match Resolved(IndexOf(p.files), f.moduleName, imp)
    case None => None
    case Some(m) => ModuleSymbolOf(p.files, m)
  }

  function ImportEdge(p: Parsed, f: File, imp: Import): seq<Relation> {
    match ImportTarget(p, f, imp)
    case None => []
    case Some(target) => Edge(p, ImportsKind, ModuleSymbol(f).GetOr(target), target)
  }

  function ImportEdges(p: Parsed, f: File, imports: seq<Import>): seq<Relation> {
    if imports == [] then [] else ImportEdges(p, f, Front(imports)) + ImportEdge(p, f, Last(imports))
  }

  function Bindings(p: Parsed, f: File, imports: seq<Import>): seq<Binding> {
    if imports == [] then []
    else
      var before, imp := Bindings(p, f, Front(imports)), Last(imports);
      if ImportTarget(p, f, imp).Some? && imp.name != ""
      then Bind(before, Binding(if imp.alias != "" then imp.alias else imp.name,
                          Resolved(IndexOf(p.files), f.moduleName, imp).GetOr(""), imp.name))
      else before
  }

  function SiteEdge(p: Parsed, f: File, bindings: seq<Binding>, caller: Symbol, site: CallSite): seq<Relation> {
    match CallTarget(p.files, f, bindings, caller, site)
    case None => []
    case Some(target) =>
      Edge(p, if site.kind.NameSite? && target.kind.ClassKind? then InstantiatesKind else CallsKind, caller, target)
  }

  function SiteEdges(p: Parsed, f: File, bindings: seq<Binding>, caller: Symbol, sites: seq<CallSite>): seq<Relation> {
    if sites == [] then []
    else SiteEdges(p, f, bindings, caller, Front(sites)) + SiteEdge(p, f, bindings, caller, Last(sites))
  }

  function CallEdges(p: Parsed, f: File, bindings: seq<Binding>, symbols: seq<Symbol>): seq<Relation> {
    if symbols == [] then []
    else
      CallEdges(p, f, bindings, Front(symbols))
      + if Last(symbols).kind.FunctionKind? || Last(symbols).kind.MethodKind?
        then SiteEdges(p, f, bindings, Last(symbols), Last(symbols).callSites) else []
  }

  /** The modules bound in a file's local names, each once, in binding order. */
  function BoundModules(bindings: seq<Binding>): seq<string> {
    if bindings == [] then []
    else
      var before, m := BoundModules(Front(bindings)), Last(bindings).moduleName;
      if m in before then before else before + [m]
  }

  function TestEdge(p: Parsed, test: Symbol, moduleName: string): seq<Relation> {
    match ModuleSymbolOf(p.files, moduleName)
    case None => []
    case Some(target) => Edge(p, TestsKind, test, target)
  }

  function TestEdgesOver(p: Parsed, test: Symbol, modules: seq<string>): seq<Relation> {
    if modules == [] then [] else TestEdgesOver(p, test, Front(modules)) + TestEdge(p, test, Last(modules))
  }

  function TestEdges(p: Parsed, f: File, bindings: seq<Binding>): seq<Relation> {
    if !p.isTest(f.path) || ModuleSymbol(f).None? then []
    else TestEdgesOver(p, ModuleSymbol(f).value, BoundModules(bindings))
  }

  /** Everything the resolver appends to a file. */
  function Appended(p: Parsed, f: File): seq<Relation> {
    var bindings := Bindings(p, f, f.imports);
    ImportEdges(p, f, f.imports) + CallEdges(p, f, bindings, f.symbols) + TestEdges(p, f, bindings)
  }

  // ----- the resolver --------------------------------------------------------

  /** The relations after `more` is appended to file `i`. */
  function Extend(relations: seq<seq<Relation>>, i: nat, more: seq<Relation>): seq<seq<Relation>>
    requires i < |relations|
  {
    relations[i := relations[i] + more]
  }

  lemma ExtendFacts(relations: seq<seq<Relation>>, i: nat, a: seq<Relation>, b: seq<Relation>)
    requires i < |relations|
    ensures a + [] == a
    ensures Extend(relations, i, []) == relations
    ensures Extend(Extend(relations, i, a), i, b) == Extend(relations, i, a + b)
  {
    assert relations[i] + [] == relations[i];
    assert relations[i] + a + b == relations[i] + (a + b);
  }

  class Resolver {
    const parsed: Parsed
    var relations: seq<seq<Relation>>

    constructor (parsed: Parsed, given: seq<seq<Relation>>)
      requires |given| == |parsed.files|
      ensures this.parsed == parsed && relations == given
    {
      this.parsed, relations := parsed, given;
    }

    method AddRelation(i: nat, kind: RelationKind, source: Symbol, target: Symbol)
      requires i < |relations|
      modifies this`relations
      ensures relations == Extend(old(relations), i, Edge(parsed, kind, source, target))
    {
      if source.id == target.id {
        ExtendFacts(relations, i, [], []);
        return;
      }
      relations := relations[i := relations[i]
        + [Relation(kind, source.identity, target.identity, parsed.repository, parsed.revision,
           source.path, target.path)]];
    }

    method ResolveFileImports(i: nat) returns (bindings: seq<Binding>)
      requires i < |parsed.files| == |relations|
      modifies this`relations
      ensures
        var f := parsed.files[i];
        && bindings == Bindings(parsed, f, f.imports)
        && relations == Extend(old(relations), i, ImportEdges(parsed, f, f.imports))
    {
      hide IndexOf, Bind, ModuleSymbol, First, FileOf;
      var f := parsed.files[i];
      var index := IndexOf(parsed.files);
      bindings := [];
      var k := 0;
      ExtendFacts(relations, i, [], []);
      while k < |f.imports|
        invariant k <= |f.imports|
        invariant bindings == Bindings(parsed, f, f.imports[..k])
        invariant relations == Extend(old(relations), i, ImportEdges(parsed, f, f.imports[..k]))
      {
        var imp := f.imports[k];
        assert Front(f.imports[..k + 1]) == f.imports[..k];
        ExtendFacts(old(relations), i, ImportEdges(parsed, f, f.imports[..k]), ImportEdge(parsed, f, imp));
        k := k + 1;
        var targetModule := ResolveModule(index, f.moduleName, imp);
        if targetModule.None? {
          continue;
        }
        var targetFile := FileOf(parsed.files, targetModule.value);
        if targetFile.None? {
          continue;
        }
        var moduleSymbol := ModuleSymbol(targetFile.value);
        if moduleSymbol.None? {
          continue;
        }
        if imp.name != "" {
          bindings := Bind(bindings,
            Binding(if imp.alias != "" then imp.alias else imp.name, targetModule.value, imp.name));
        }
        AddRelation(i, ImportsKind, ModuleSymbol(f).GetOr(moduleSymbol.value), moduleSymbol.value);
      }
      assert f.imports[..k] == f.imports;
    }

    method ResolveCallSites(i: nat, bindings: seq<Binding>, caller: Symbol)
      requires i < |parsed.files| == |relations|
      modifies this`relations
      ensures relations == Extend(old(relations), i,
          SiteEdges(parsed, parsed.files[i], bindings, caller, caller.callSites))
    {
      hide CallTarget;
      var f, sites := parsed.files[i], caller.callSites;
      var k := 0;
      ExtendFacts(relations, i, [], []);
      while k < |sites|
        invariant k <= |sites|
        invariant relations == Extend(old(relations), i, SiteEdges(parsed, f, bindings, caller, sites[..k]))
      {
        var site := sites[k];
        assert Front(sites[..k + 1]) == sites[..k];
        ExtendFacts(old(relations), i, SiteEdges(parsed, f, bindings, caller, sites[..k]),
          SiteEdge(parsed, f, bindings, caller, site));
        k := k + 1;
        var target := CallTarget(parsed.files, f, bindings, caller, site);
        if target.None? {
          continue;
        }
        var kind := CallsKind;
        if site.kind == NameSite && target.value.kind == ClassKind {
          kind := InstantiatesKind;
        }
        AddRelation(i, kind, caller, target.value);
      }
      assert sites[..k] == sites;
    }

    method ResolveCalls(i: nat, bindings: seq<Binding>)
      requires i < |parsed.files| == |relations|
      modifies this`relations
      ensures relations == Extend(old(relations), i,
          CallEdges(parsed, parsed.files[i], bindings, parsed.files[i].symbols))
    {
      hide SiteEdges;
      var f := parsed.files[i];
      var k := 0;
      ExtendFacts(relations, i, [], []);
      while k < |f.symbols|
        invariant k <= |f.symbols|
        invariant relations == Extend(old(relations), i, CallEdges(parsed, f, bindings, f.symbols[..k]))
      {
        assert Front(f.symbols[..k + 1]) == f.symbols[..k];
        ExtendFacts(old(relations), i, CallEdges(parsed, f, bindings, f.symbols[..k]),
          SiteEdges(parsed, f, bindings, f.symbols[k], f.symbols[k].callSites));
        if f.symbols[k].kind == FunctionKind || f.symbols[k].kind == MethodKind {
          ResolveCallSites(i, bindings, f.symbols[k]);
        }
        k := k + 1;
      }
      assert f.symbols[..k] == f.symbols;
    }

    method ResolveTests(i: nat, bindings: seq<Binding>)
      requires i < |parsed.files| == |relations|
      modifies this`relations
      ensures relations == Extend(old(relations), i, TestEdges(parsed, parsed.files[i], bindings))
    {
      hide ModuleSymbolOf, ModuleSymbol;
      var f := parsed.files[i];
      var test := ModuleSymbol(f);
      ExtendFacts(relations, i, [], []);
      if !parsed.isTest(f.path) || test.None? {
        return;
      }
      var seen: seq<string> := [];
      var k := 0;
      while k < |bindings|
        invariant k <= |bindings|
        invariant seen == BoundModules(bindings[..k])
        invariant relations == Extend(old(relations), i, TestEdgesOver(parsed, test.value, seen))
      {
        assert Front(bindings[..k + 1]) == bindings[..k];
        var m := bindings[k].moduleName;
        k := k + 1;
        if m in seen {
          continue;
        }
        ExtendFacts(old(relations), i, TestEdgesOver(parsed, test.value, seen), TestEdge(parsed, test.value, m));
        seen := seen + [m];
        assert Front(seen) == BoundModules(bindings[..k - 1]);
        var target := ModuleSymbolOf(parsed.files, m);
        if target.None? {
          continue;
        }
        AddRelation(i, TestsKind, test.value, target.value);
      }
      assert bindings[..k] == bindings;
    }

    /** Resolves every file: imports, then calls, then test relations. */
    method Resolve()
      requires |parsed.files| == |relations|
      modifies this`relations
      ensures |relations| == |old(relations)|
      ensures forall i :: 0 <= i < |relations| ==> relations[i] == old(relations)[i] + Appended(parsed, parsed.files[i])
    {
      hide ImportEdges, CallEdges, TestEdges, Bindings;
      var i := 0;
      while i < |parsed.files|
        invariant i <= |parsed.files| == |relations| == |old(relations)|
        invariant forall k :: 0 <= k < i ==> relations[k] == old(relations)[k] + Appended(parsed, parsed.files[k])
        invariant forall k :: i <= k < |relations| ==> relations[k] == old(relations)[k]
      {
        var bindings := ResolveFileImports(i);
        ResolveCalls(i, bindings);
        ResolveTests(i, bindings);
        i := i + 1;
      }
    }
  }
}
