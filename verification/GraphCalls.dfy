/** What the resolver's edges are, read off the parsed files by position: whom a name in a file stands for, whom a
    call site calls, and which edges a file gets. */
module GraphCalls {
  import opened Prelude
  import opened Imports
  import opened GraphResolver

  // ----- what is meant -----------------------------------------------------------

  /** A module that occurs in several files stands for the last of them. */
  predicate LastFile(files: seq<File>, m: string, i: int) {
    0 <= i < |files| && files[i].moduleName == m && forall j :: i < j < |files| ==> files[j].moduleName != m
  }

  predicate FirstWhere(symbols: seq<Symbol>, wanted: Symbol -> bool, k: int) {
    0 <= k < |symbols| && wanted(symbols[k]) && forall j :: 0 <= j < k ==> !wanted(symbols[j])
  }

  /** The first such symbol of a module. */
  ghost predicate FirstOfModule(files: seq<File>, m: string, wanted: Symbol -> bool, s: Symbol) {
    exists i, k :: LastFile(files, m, i) && FirstWhere(files[i].symbols, wanted, k) && s == files[i].symbols[k]
  }

  predicate IsModule(s: Symbol) {
    s.kind == ModuleKind
  }

  function Defines(name: string): Symbol -> bool {
    (s: Symbol) => s.name == name && (s.kind == ClassKind || s.kind == FunctionKind)
  }

  function IsClassNamed(name: string): Symbol -> bool {
    (s: Symbol) => s.kind == ClassKind && s.name == name
  }

  function IsMethod(qualifiedName: string): Symbol -> bool {
    (s: Symbol) => s.kind == MethodKind && s.qualifiedName == qualifiedName
  }

  /** The import statement finds module `m`, which has a module symbol. */
  ghost predicate Finds(p: Parsed, f: File, imp: Import, m: string) {
    Resolved(IndexOf(p.files), f.moduleName, imp) == Some(m) && exists s :: FirstOfModule(p.files, m, IsModule, s)
  }

  /** The import statement gives the file a local name for `name` of module `m`. */
  ghost predicate Introduces(p: Parsed, f: File, imp: Import, local: string, m: string) {
    imp.name != "" && local == (if imp.alias == "" then imp.name else imp.alias) && Finds(p, f, imp, m)
  }

  /** Statement `k` is the last one that introduces the local name, and it imports `name` of module `m`. */
  ghost predicate BoundAt(p: Parsed, f: File, imports: seq<Import>, local: string, m: string, name: string, k: int) {
    && 0 <= k < |imports| && imports[k].name == name && Introduces(p, f, imports[k], local, m)
    && forall j, m' :: k < j < |imports| ==> !Introduces(p, f, imports[j], local, m')
  }

  ghost predicate Bound(p: Parsed, f: File, imports: seq<Import>, local: string, m: string, name: string) {
    exists k :: BoundAt(p, f, imports, local, m, name, k)
  }

  /** `name` of module `m`: the first class or function of that name, if the module has one, and else the module. */
  ghost predicate MeantBy(p: Parsed, m: string, name: string, s: Symbol) {
    if exists d :: FirstOfModule(p.files, m, Defines(name), d)
    then FirstOfModule(p.files, m, Defines(name), s)
    else FirstOfModule(p.files, m, IsModule, s)
  }

  /** The local name stands for the symbol that it was imported as. */
  ghost predicate StandsFor(p: Parsed, f: File, local: string, s: Symbol) {
    exists m, name :: Bound(p, f, f.imports, local, m, name) && MeantBy(p, m, name, s)
  }

  ghost predicate FirstMethodAt(files: seq<File>, qualified: string, s: Symbol, i: int, k: int) {
    && 0 <= i < |files|
    && FirstWhere(files[i].symbols, IsMethod(qualified), k) && s == files[i].symbols[k]
    && forall j, x :: 0 <= j < i && x in files[j].symbols ==> !IsMethod(qualified)(x)
  }

  /** The first method of this class and name, over all files in order. */
  ghost predicate MethodOf(files: seq<File>, class_: Symbol, name: string, s: Symbol) {
    class_.kind == ClassKind && exists i, k :: FirstMethodAt(files, class_.qualifiedName + "." + name, s, i, k)
  }

  predicate RecordsAttributes(s: Symbol, qualifiedName: string) {
    s.kind == ClassKind && s.qualifiedName == qualifiedName && s.instanceAttrs != None
  }

  /** The last class of this qualified name with recorded attributes has this one. */
  predicate LastAttributes(symbols: seq<Symbol>, qualifiedName: string, attr: string, className: string, k: int) {
    && 0 <= k < |symbols| && RecordsAttributes(symbols[k], qualifiedName)
    && (forall j :: k < j < |symbols| ==> !RecordsAttributes(symbols[j], qualifiedName))
    && attr in symbols[k].instanceAttrs.value && symbols[k].instanceAttrs.value[attr] == className
  }

  ghost predicate AttributeVia(p: Parsed, f: File, caller: Symbol, attr: string, class_: Symbol,
                               enclosing: Symbol, className: string) {
    var parts := Split(caller.qualifiedName);
    && |parts| >= 3
    && FirstOfModule(p.files, caller.identity.moduleName, IsClassNamed(parts[|parts| - 2]), enclosing)
    && (exists k :: LastAttributes(f.symbols, enclosing.qualifiedName, attr, className, k))
    && if exists m, name :: Bound(p, f, f.imports, className, m, name)
       then StandsFor(p, f, className, class_)
       else FirstOfModule(p.files, f.moduleName, Defines(className), class_)
  }

  /** The class of an attribute of `self`: the name recorded for the attribute in the class that the caller is a method
      of, as an imported name if it is one, and else as a class or function of the file's own module. */
  ghost predicate SelfAttribute(p: Parsed, f: File, caller: Symbol, attr: string, class_: Symbol) {
    exists enclosing, className :: AttributeVia(p, f, caller, attr, class_, enclosing, className)
  }

  /** Whom a call site calls. */
  ghost predicate Calls(p: Parsed, f: File, caller: Symbol, site: CallSite, s: Symbol) {
    || ((site.kind == NameSite || site.kind == AttrMethodSite) && StandsFor(p, f, site.name, s))
    || (site.kind == CtorMethodSite
        && exists c :: StandsFor(p, f, site.name, c) && MethodOf(p.files, c, site.method_, s))
    || (site.kind == SelfMethodSite
        && exists c :: SelfAttribute(p, f, caller, site.attr, c) && MethodOf(p.files, c, site.method_, s))
  }

  // ----- lookups -------------------------------------------------------------------

  lemma {:induction false} FirstIsFirst(wanted: Symbol -> bool, same: Symbol -> bool, symbols: seq<Symbol>, s: Symbol)
    requires forall x :: wanted(x) <==> same(x)
    ensures First(wanted, symbols) == Some(s) <==> exists k :: FirstWhere(symbols, same, k) && s == symbols[k]
    ensures First(wanted, symbols).None? <==> forall x :: x in symbols ==> !same(x)
  {
    if symbols != [] {
      FirstIsFirst(wanted, same, symbols[1..], s);
      if k :| FirstWhere(symbols, same, k) && s == symbols[k] {
        if k > 0 {
          assert !same(symbols[0]);
          assert FirstWhere(symbols[1..], same, k - 1);
        }
      }
      if wanted(symbols[0]) {
        assert FirstWhere(symbols, same, 0);
      } else if First(wanted, symbols) == Some(s) {
        var k :| FirstWhere(symbols[1..], same, k) && s == symbols[1..][k];
        assert FirstWhere(symbols, same, k + 1);
      }
    }
  }

  lemma {:induction false} FileIsLast(files: seq<File>, m: string)
    ensures forall i :: LastFile(files, m, i) ==> FileOf(files, m) == Some(files[i])
    ensures FileOf(files, m).Some? ==> exists i :: LastFile(files, m, i)
  {
    if files != [] {
      FileIsLast(Front(files), m);
      if Last(files).moduleName == m {
        assert LastFile(files, m, |files| - 1);
      } else {
        forall i | LastFile(files, m, i)
          ensures LastFile(Front(files), m, i)
        {
        }
        if i :| LastFile(Front(files), m, i) {
          assert LastFile(files, m, i);
        }
      }
    }
  }

  lemma ModuleFirst(files: seq<File>, m: string, wanted: Symbol -> bool, same: Symbol -> bool, s: Symbol)
    requires forall x :: wanted(x) <==> same(x)
    ensures FirstOfModule(files, m, same, s)
      <==> FileOf(files, m).Some? && First(wanted, FileOf(files, m).value.symbols) == Some(s)
  {
    FileIsLast(files, m);
    if FileOf(files, m).Some? {
      var i :| LastFile(files, m, i);
      FirstIsFirst(wanted, same, files[i].symbols, s);
    }
  }

  /** The index of modules: those of the files, each marked as a package exactly when its last file is one. */
  lemma {:induction false} IndexIsLastFile(files: seq<File>, m: string)
    ensures m in IndexOf(files) <==> exists i :: LastFile(files, m, i)
    ensures forall i :: LastFile(files, m, i) ==> IndexOf(files)[m] == PackagePath(files[i].path)
  {
    hide PackagePath;
    if files != [] {
      var n := |files| - 1;
      IndexIsLastFile(Front(files), m);
      if files[n].moduleName == m {
        assert LastFile(files, m, n);
      } else {
        forall i | LastFile(files, m, i)
          ensures LastFile(Front(files), m, i) && Front(files)[i] == files[i]
        {
        }
        if i :| LastFile(Front(files), m, i) {
          assert LastFile(files, m, i);
        }
      }
    }
  }

  // ----- local names -----------------------------------------------------------------

  lemma FindsIsImportTarget(p: Parsed, f: File, imp: Import, m: string)
    ensures Finds(p, f, imp, m)
      <==> ImportTarget(p, f, imp).Some? && Resolved(IndexOf(p.files), f.moduleName, imp) == Some(m)
  {
    hide Resolved, First, FirstOfModule, IndexOf;
    if Resolved(IndexOf(p.files), f.moduleName, imp) == Some(m) {
      forall s
        ensures FirstOfModule(p.files, m, IsModule, s) <==> ImportTarget(p, f, imp) == Some(s)
      {
        ModuleFirst(p.files, m, (s: Symbol) => s.kind.ModuleKind?, IsModule, s);
      }
      if ImportTarget(p, f, imp).Some? {
        assert FirstOfModule(p.files, m, IsModule, ImportTarget(p, f, imp).value);
      }
    }
  }

  /** Each local name is bound once. */
  predicate OnePerName(bindings: seq<Binding>) {
    forall i, j :: 0 <= i < j < |bindings| ==> bindings[i].local != bindings[j].local
  }

  lemma {:induction false} BindReplaces(bindings: seq<Binding>, b: Binding, local: string)
    ensures LookupBinding(Bind(bindings, b), local)
      == if local == b.local then Some(b) else LookupBinding(bindings, local)
    ensures forall x :: x in Bind(bindings, b) ==> x == b || x in bindings
    ensures OnePerName(bindings) ==> OnePerName(Bind(bindings, b))
  {
    if bindings != [] && bindings[0].local != b.local {
      BindReplaces(bindings[1..], b, local);
      var rest := Bind(bindings[1..], b);
      if OnePerName(bindings) {
        assert OnePerName(bindings[1..]);
        forall i | 0 <= i < |rest|
          ensures rest[i].local != bindings[0].local
        {
          assert rest[i] in rest;
          if rest[i] != b {
            var j :| 0 <= j < |bindings[1..]| && bindings[1..][j] == rest[i];
            assert bindings[j + 1] == rest[i];
          }
        }
      }
    } else if bindings != [] {
      assert ([b] + bindings[1..])[1..] == bindings[1..];
    }
  }

  lemma {:induction false} LookupIsMember(bindings: seq<Binding>, b: Binding)
    requires OnePerName(bindings)
    ensures LookupBinding(bindings, b.local) == Some(b) <==> b in bindings
  {
    if bindings != [] {
      assert OnePerName(bindings[1..]);
      LookupIsMember(bindings[1..], b);
      forall x | x in bindings[1..]
        ensures x.local != bindings[0].local
      {
        var j :| 0 <= j < |bindings[1..]| && bindings[1..][j] == x;
        assert bindings[j + 1] == x;
      }
    }
  }

  lemma {:induction false} LookupKeepsName(bindings: seq<Binding>, local: string)
    ensures LookupBinding(bindings, local).Some? ==> LookupBinding(bindings, local).value.local == local
  {
    if bindings != [] {
      LookupKeepsName(bindings[1..], local);
    }
  }

  lemma BoundStep(p: Parsed, f: File, imports: seq<Import>, local: string, m: string, name: string)
    requires imports != []
    ensures
      var imp := Last(imports);
      Bound(p, f, imports, local, m, name)
      <==> if exists m' :: Introduces(p, f, imp, local, m') then imp.name == name && Introduces(p, f, imp, local, m)
           else Bound(p, f, Front(imports), local, m, name)
  {
    hide Introduces;
    var n := |imports| - 1;
    assert forall j :: 0 <= j < n ==> Front(imports)[j] == imports[j];
    if k :| BoundAt(p, f, Front(imports), local, m, name, k) {
      if forall m' :: !Introduces(p, f, imports[n], local, m') {
        assert BoundAt(p, f, imports, local, m, name, k);
      }
    }
    if k :| BoundAt(p, f, imports, local, m, name, k) {
      if k < n {
        assert BoundAt(p, f, Front(imports), local, m, name, k);
      }
    }
    if imports[n].name == name && Introduces(p, f, imports[n], local, m) {
      assert BoundAt(p, f, imports, local, m, name, n);
    }
  }

  /** The file's table of local names holds exactly what its import statements bind. */
  lemma {:induction false} BindingsAreBound(p: Parsed, f: File, imports: seq<Import>, local: string, m: string,
                                            name: string)
    ensures LookupBinding(Bindings(p, f, imports), local) == Some(Binding(local, m, name))
      <==> Bound(p, f, imports, local, m, name)
    ensures OnePerName(Bindings(p, f, imports))
  {
    hide ImportTarget, Resolved, IndexOf, Bound, Bind, Finds, OnePerName;
    if imports == [] {
      NothingBound(p, f, local, m, name);
    } else {
      var imp := Last(imports);
      BindingsAreBound(p, f, Front(imports), local, m, name);
      BoundStep(p, f, imports, local, m, name);
      var found := Resolved(IndexOf(p.files), f.moduleName, imp).GetOr("");
      BindReplaces(Bindings(p, f, Front(imports)), Binding(if imp.alias != "" then imp.alias else imp.name, found,
        imp.name), local);
      TargetIsResolved(p, f, imp);
      FindsIsImportTarget(p, f, imp, m);
      FindsIsImportTarget(p, f, imp, found);
      forall m'
        ensures Finds(p, f, imp, m') <==> ImportTarget(p, f, imp).Some? && m' == found
      {
        FindsIsImportTarget(p, f, imp, m');
      }
      assert Introduces(p, f, imp, local, found) <==> exists m' :: Introduces(p, f, imp, local, m');
    }
  }

  lemma NothingBound(p: Parsed, f: File, local: string, m: string, name: string)
    ensures !Bound(p, f, [], local, m, name) && OnePerName(Bindings(p, f, []))
  {
  }

  lemma TargetIsResolved(p: Parsed, f: File, imp: Import)
    ensures ImportTarget(p, f, imp).Some? ==> Resolved(IndexOf(p.files), f.moduleName, imp).Some?
  {
  }

  // ----- targets ---------------------------------------------------------------------

  lemma BoundIsUnique(p: Parsed, f: File, local: string, m: string, name: string, m': string, name': string)
    requires Bound(p, f, f.imports, local, m, name) && Bound(p, f, f.imports, local, m', name')
    ensures m == m' && name == name'
  {
    hide Bound;
    BindingsAreBound(p, f, f.imports, local, m, name);
    BindingsAreBound(p, f, f.imports, local, m', name');
  }

  lemma BoundIsNamed(p: Parsed, f: File, local: string, m: string, name: string)
    requires Bound(p, f, f.imports, local, m, name)
    ensures name != "" && exists s :: FirstOfModule(p.files, m, IsModule, s)
  {
    hide FirstOfModule;
    var k :| BoundAt(p, f, f.imports, local, m, name, k);
  }

  lemma ImportedNameStandsFor(p: Parsed, f: File, local: string, s: Symbol)
    ensures
      var bindings := Bindings(p, f, f.imports);
      && (ImportedName(p.files, local, bindings) == Some(s) <==> StandsFor(p, f, local, s))
      && (ImportedName(p.files, local, bindings).Some? <==> exists m, name :: Bound(p, f, f.imports, local, m, name))
  {
    hide Bindings, Bound, FirstOfModule, ByModule, ModuleSymbolOf, LookupBinding;
    var bindings := Bindings(p, f, f.imports);
    var b := LookupBinding(bindings, local);
    LookupKeepsName(bindings, local);
    forall m, name
      ensures b == Some(Binding(local, m, name)) <==> Bound(p, f, f.imports, local, m, name)
    {
      BindingsAreBound(p, f, f.imports, local, m, name);
    }
    if b.Some? {
      var m, name := b.value.moduleName, b.value.name;
      assert Bound(p, f, f.imports, local, m, name);
      BoundIsNamed(p, f, local, m, name);
      forall x
        ensures ByModule(p.files, m, name) == Some(x) <==> FirstOfModule(p.files, m, Defines(name), x)
        ensures ModuleSymbolOf(p.files, m) == Some(x) <==> FirstOfModule(p.files, m, IsModule, x)
      {
        ModuleSymbolIsFirst(p.files, m, name, x);
      }
      MeantIsNamed(p, m, name, ByModule(p.files, m, name), ModuleSymbolOf(p.files, m), s);
    }
  }

  lemma MeantIsNamed(p: Parsed, m: string, name: string, named: Option<Symbol>, module_: Option<Symbol>, s: Symbol)
    requires forall x :: named == Some(x) <==> FirstOfModule(p.files, m, Defines(name), x)
    requires forall x :: module_ == Some(x) <==> FirstOfModule(p.files, m, IsModule, x)
    ensures (if named.Some? then named else module_) == Some(s) <==> MeantBy(p, m, name, s)
  {
    hide FirstOfModule;
    if named.Some? {
      assert FirstOfModule(p.files, m, Defines(name), named.value);
    }
  }

  lemma ModuleSymbolIsFirst(files: seq<File>, m: string, name: string, s: Symbol)
    ensures ByModule(files, m, name) == Some(s) <==> FirstOfModule(files, m, Defines(name), s)
    ensures ModuleSymbolOf(files, m) == Some(s) <==> FirstOfModule(files, m, IsModule, s)
  {
    hide First, FirstOfModule;
    ModuleFirst(files, m, (x: Symbol) => x.name == name && (x.kind.ClassKind? || x.kind.FunctionKind?),
      Defines(name), s);
    ModuleFirst(files, m, (x: Symbol) => x.kind.ModuleKind?, IsModule, s);
  }

  lemma {:induction false} MethodNamedIsFirst(files: seq<File>, qualified: string, s: Symbol)
    ensures MethodNamed(files, qualified) == Some(s) <==> exists i, k :: FirstMethodAt(files, qualified, s, i, k)
  {
    hide First;
    if files != [] {
      MethodNamedIsFirst(files[1..], qualified, s);
      FirstIsFirst((x: Symbol) => x.qualifiedName == qualified && x.kind.MethodKind?, IsMethod(qualified),
        files[0].symbols, s);
      var here := First((x: Symbol) => x.qualifiedName == qualified && x.kind.MethodKind?, files[0].symbols);
      if i, k :| FirstMethodAt(files, qualified, s, i, k) {
        if i > 0 {
          assert FirstMethodAt(files[1..], qualified, s, i - 1, k);
        }
      }
      if here.Some? {
        FirstIsFirst((x: Symbol) => x.qualifiedName == qualified && x.kind.MethodKind?, IsMethod(qualified),
          files[0].symbols, here.value);
        if MethodNamed(files, qualified) == Some(s) {
          var k :| FirstWhere(files[0].symbols, IsMethod(qualified), k) && s == files[0].symbols[k];
          assert FirstMethodAt(files, qualified, s, 0, k);
        }
      } else if i, k :| FirstMethodAt(files[1..], qualified, s, i, k) {
        assert FirstMethodAt(files, qualified, s, i + 1, k);
      }
    }
  }

  lemma {:induction false} ClassAttrsAreLast(
      symbols: seq<Symbol>, qualifiedName: string, attr: string, className: string)
    ensures attr in ClassAttrs(symbols, qualifiedName) && ClassAttrs(symbols, qualifiedName)[attr] == className
      <==> exists k :: LastAttributes(symbols, qualifiedName, attr, className, k)
  {
    if symbols != [] {
      var n := |symbols| - 1;
      ClassAttrsAreLast(Front(symbols), qualifiedName, attr, className);
      assert forall j :: 0 <= j < n ==> Front(symbols)[j] == symbols[j];
      if RecordsAttributes(symbols[n], qualifiedName) {
        if attr in ClassAttrs(symbols, qualifiedName) && ClassAttrs(symbols, qualifiedName)[attr] == className {
          assert LastAttributes(symbols, qualifiedName, attr, className, n);
        }
      } else {
        forall k
          ensures LastAttributes(symbols, qualifiedName, attr, className, k)
            <==> LastAttributes(Front(symbols), qualifiedName, attr, className, k)
        {
        }
      }
    }
  }

  lemma FindMethodIsFirst(files: seq<File>, class_: Symbol, name: string, s: Symbol)
    ensures FindMethod(files, class_, name) == Some(s) <==> MethodOf(files, class_, name, s)
  {
    MethodNamedIsFirst(files, class_.qualifiedName + "." + name, s);
  }

  lemma EnclosingIsFirst(files: seq<File>, caller: Symbol, s: Symbol)
    ensures
      var parts := Split(caller.qualifiedName);
      EnclosingClass(files, caller) == Some(s) <==>
        |parts| >= 3 && FirstOfModule(files, caller.identity.moduleName, IsClassNamed(parts[|parts| - 2]), s)
  {
    hide First, FirstOfModule, Split;
    var parts := Split(caller.qualifiedName);
    if |parts| >= 3 {
      ModuleFirst(files, caller.identity.moduleName,
        (x: Symbol) => x.kind.ClassKind? && x.name == parts[|parts| - 2], IsClassNamed(parts[|parts| - 2]), s);
    }
  }

  /** The class that the resolver looks for the method in, when the call goes through an attribute of `self`. */
  function SelfClass(p: Parsed, f: File, caller: Symbol, attr: string): Option<Symbol> {
    match EnclosingClass(p.files, caller)
    case None => None
    case Some(enclosing) =>
      var attrs := ClassAttrs(f.symbols, enclosing.qualifiedName);
      if attr !in attrs then None
      else
        var imported := ImportedName(p.files, attrs[attr], Bindings(p, f, f.imports));
        if imported.Some? then imported else ByModule(p.files, f.moduleName, attrs[attr])
  }

  lemma SelfClassIsAttribute(p: Parsed, f: File, caller: Symbol, attr: string, s: Symbol)
    ensures SelfClass(p, f, caller, attr) == Some(s) <==> SelfAttribute(p, f, caller, attr, s)
  {
    hide EnclosingClass, ClassAttrs, ImportedName, ByModule, Bindings, Bound, StandsFor, FirstOfModule, Split,
      LastAttributes;
    if enclosing, className :| AttributeVia(p, f, caller, attr, s, enclosing, className) {
      EnclosingIsFirst(p.files, caller, enclosing);
      ClassAttrsAreLast(f.symbols, enclosing.qualifiedName, attr, className);
      ImportedNameStandsFor(p, f, className, s);
      ModuleSymbolIsFirst(p.files, f.moduleName, className, s);
    }
    if SelfClass(p, f, caller, attr) == Some(s) {
      var enclosing := EnclosingClass(p.files, caller).value;
      var className := ClassAttrs(f.symbols, enclosing.qualifiedName)[attr];
      EnclosingIsFirst(p.files, caller, enclosing);
      ClassAttrsAreLast(f.symbols, enclosing.qualifiedName, attr, className);
      ImportedNameStandsFor(p, f, className, s);
      ModuleSymbolIsFirst(p.files, f.moduleName, className, s);
      assert AttributeVia(p, f, caller, attr, s, enclosing, className);
    }
  }

  /** The resolver's target of a call site is the symbol that the site calls. */
  lemma CallTargetIsCalled(p: Parsed, f: File, caller: Symbol, site: CallSite, s: Symbol)
    ensures CallTarget(p.files, f, Bindings(p, f, f.imports), caller, site) == Some(s)
      <==> Calls(p, f, caller, site, s)
  {
    hide ImportedName, Bindings, FindMethod, MethodOf, StandsFor, SelfAttribute, ByModule, EnclosingClass, ClassAttrs;
    forall c
      ensures ImportedName(p.files, site.name, Bindings(p, f, f.imports)) == Some(c) <==> StandsFor(p, f, site.name, c)
      ensures SelfClass(p, f, caller, site.attr) == Some(c) <==> SelfAttribute(p, f, caller, site.attr, c)
      ensures FindMethod(p.files, c, site.method_) == Some(s) <==> MethodOf(p.files, c, site.method_, s)
    {
      ImportedNameStandsFor(p, f, site.name, c);
      SelfClassIsAttribute(p, f, caller, site.attr, c);
      FindMethodIsFirst(p.files, c, site.method_, s);
    }
  }

  // ----- edges -----------------------------------------------------------------------

  /** The relation from one symbol to another one. */
  predicate Links(p: Parsed, r: Relation, kind: RelationKind, source: Symbol, target: Symbol) {
    && source.id != target.id
    && r.kind == kind && r.source == source.identity && r.target == target.identity
    && r.sourcePath == source.path && r.targetPath == target.path
    && r.repository == p.repository && r.revision == p.revision
  }

  lemma EdgeLinks(p: Parsed, kind: RelationKind, source: Symbol, target: Symbol, r: Relation)
    ensures r in Edge(p, kind, source, target) <==> Links(p, r, kind, source, target)
  {
  }

  /** The edge of a call site, if it has one. */
  ghost predicate CallLinks(p: Parsed, f: File, caller: Symbol, site: CallSite, s: Symbol, r: Relation) {
    && Calls(p, f, caller, site, s)
    && Links(p, r, if site.kind == NameSite && s.kind == ClassKind then InstantiatesKind else CallsKind, caller, s)
  }

  lemma SiteEdgeLinks(p: Parsed, f: File, caller: Symbol, site: CallSite, r: Relation)
    ensures r in SiteEdge(p, f, Bindings(p, f, f.imports), caller, site)
      <==> exists s :: CallLinks(p, f, caller, site, s, r)
  {
    hide CallTarget, Bindings, Calls, Edge, Links;
    var t := CallTarget(p.files, f, Bindings(p, f, f.imports), caller, site);
    forall s
      ensures t == Some(s) <==> Calls(p, f, caller, site, s)
      ensures r in Edge(p, CallsKind, caller, s) <==> Links(p, r, CallsKind, caller, s)
      ensures r in Edge(p, InstantiatesKind, caller, s) <==> Links(p, r, InstantiatesKind, caller, s)
    {
      CallTargetIsCalled(p, f, caller, site, s);
      EdgeLinks(p, CallsKind, caller, s, r);
      EdgeLinks(p, InstantiatesKind, caller, s, r);
    }
    if t.Some? && r in SiteEdge(p, f, Bindings(p, f, f.imports), caller, site) {
      assert CallLinks(p, f, caller, site, t.value, r);
    }
  }

  lemma {:induction false} SiteEdgesLink(p: Parsed, f: File, caller: Symbol, sites: seq<CallSite>, r: Relation)
    ensures r in SiteEdges(p, f, Bindings(p, f, f.imports), caller, sites)
      <==> exists site, s :: site in sites && CallLinks(p, f, caller, site, s, r)
  {
    hide SiteEdge, Bindings, CallLinks;
    if sites != [] {
      SiteEdgesLink(p, f, caller, Front(sites), r);
      SiteEdgeLinks(p, f, caller, Last(sites), r);
      assert forall site :: site in sites <==> site in Front(sites) || site == Last(sites);
    }
  }

  lemma {:induction false} CallEdgesLink(p: Parsed, f: File, symbols: seq<Symbol>, r: Relation)
    ensures r in CallEdges(p, f, Bindings(p, f, f.imports), symbols)
      <==> exists caller, site, s ::
        && caller in symbols && (caller.kind == FunctionKind || caller.kind == MethodKind)
        && site in caller.callSites && CallLinks(p, f, caller, site, s, r)
  {
    hide SiteEdges, Bindings, CallLinks;
    if symbols != [] {
      CallEdgesLink(p, f, Front(symbols), r);
      SiteEdgesLink(p, f, Last(symbols), Last(symbols).callSites, r);
      assert forall x :: x in symbols <==> x in Front(symbols) || x == Last(symbols);
    }
  }

  /** The call edges of a file: one from each function or method to whatever one of its call sites calls, and no
      other; the name of a class makes it an instantiation. */
  lemma CallEdgesAreExact(p: Parsed, f: File, r: Relation)
    ensures r in CallEdges(p, f, Bindings(p, f, f.imports), f.symbols)
      <==> exists caller, site, s ::
        && caller in f.symbols && (caller.kind == FunctionKind || caller.kind == MethodKind)
        && site in caller.callSites && Calls(p, f, caller, site, s)
        && Links(p, r, if site.kind == NameSite && s.kind == ClassKind then InstantiatesKind else CallsKind, caller, s)
  {
    hide CallEdges, Bindings, Calls, Links;
    CallEdgesLink(p, f, f.symbols, r);
    forall caller, site, s
      ensures CallLinks(p, f, caller, site, s, r) <==> Calls(p, f, caller, site, s) && Links(p, r,
        if site.kind == NameSite && s.kind == ClassKind then InstantiatesKind else CallsKind, caller, s)
    {
    }
  }

  lemma OwnModuleSymbol(f: File, s: Symbol)
    ensures ModuleSymbol(f) == Some(s) <==> exists k :: FirstWhere(f.symbols, IsModule, k) && s == f.symbols[k]
  {
    FirstIsFirst((x: Symbol) => x.kind.ModuleKind?, IsModule, f.symbols, s);
  }

  /** The file's first module symbol, if it has one, imports the module symbol of the module that the import finds. */
  ghost predicate ImportLinks(p: Parsed, f: File, imp: Import, m: string, k: int, s: Symbol, r: Relation) {
    && Resolved(IndexOf(p.files), f.moduleName, imp) == Some(m) && FirstOfModule(p.files, m, IsModule, s)
    && FirstWhere(f.symbols, IsModule, k) && Links(p, r, ImportsKind, f.symbols[k], s)
  }

  lemma ImportEdgeLinks(p: Parsed, f: File, imp: Import, r: Relation)
    ensures r in ImportEdge(p, f, imp) <==> exists m, k, s :: ImportLinks(p, f, imp, m, k, s, r)
  {
    hide Resolved, IndexOf, FirstOfModule, First, Edge, Links;
    if m, k, s :| ImportLinks(p, f, imp, m, k, s, r) {
      ModuleFirst(p.files, m, (x: Symbol) => x.kind.ModuleKind?, IsModule, s);
      OwnModuleSymbol(f, f.symbols[k]);
      EdgeLinks(p, ImportsKind, f.symbols[k], s, r);
    }
    var t := ImportTarget(p, f, imp);
    if t.Some? && r in ImportEdge(p, f, imp) {
      var m := Resolved(IndexOf(p.files), f.moduleName, imp).value;
      ModuleFirst(p.files, m, (x: Symbol) => x.kind.ModuleKind?, IsModule, t.value);
      NoSelfEdge(p, ImportsKind, t.value);
      var own := ModuleSymbol(f);
      OwnModuleSymbol(f, own.value);
      var k :| FirstWhere(f.symbols, IsModule, k) && own.value == f.symbols[k];
      EdgeLinks(p, ImportsKind, own.value, t.value, r);
      assert ImportLinks(p, f, imp, m, k, t.value, r);
    }
  }

  lemma NoSelfEdge(p: Parsed, kind: RelationKind, s: Symbol)
    ensures Edge(p, kind, s, s) == []
  {
  }

  /** The import edges of a file, exactly. */
  lemma {:induction false} ImportEdgesAreExact(p: Parsed, f: File, imports: seq<Import>, r: Relation)
    ensures r in ImportEdges(p, f, imports)
      <==> exists imp, m, k, s :: imp in imports && ImportLinks(p, f, imp, m, k, s, r)
  {
    hide ImportEdge, ImportLinks;
    if imports != [] {
      ImportEdgesAreExact(p, f, Front(imports), r);
      ImportEdgeLinks(p, f, Last(imports), r);
      assert forall x :: x in imports <==> x in Front(imports) || x == Last(imports);
    }
  }

  // ----- test edges ----------------------------------------------------------

  lemma {:induction false} BoundOnce(bindings: seq<Binding>)
    ensures forall i, j :: 0 <= i < j < |BoundModules(bindings)| ==>
      BoundModules(bindings)[i] != BoundModules(bindings)[j]
    ensures forall m :: m in BoundModules(bindings) <==> exists b :: b in bindings && b.moduleName == m
  {
    if bindings != [] {
      BoundOnce(Front(bindings));
      var before, last := BoundModules(Front(bindings)), Last(bindings);
      forall m
        ensures m in BoundModules(bindings) <==> exists b :: b in bindings && b.moduleName == m
      {
        assert forall b :: b in bindings <==> b in Front(bindings) || b == last;
      }
    }
  }

  lemma {:induction false} TestEdgesSplit(p: Parsed, test: Symbol, modules: seq<string>, n: nat)
    requires n < |modules|
    ensures forall r :: r in TestEdge(p, test, modules[n]) ==> r in TestEdgesOver(p, test, modules)
  {
    hide TestEdge;
    if n < |modules| - 1 {
      TestEdgesSplit(p, test, Front(modules), n);
    }
  }

  lemma {:induction false} TestEdgesCount(p: Parsed, test: Symbol, modules: seq<string>)
    ensures |TestEdgesOver(p, test, modules)| <= |modules|
    ensures forall r :: r in TestEdgesOver(p, test, modules) ==>
      exists n :: 0 <= n < |modules| && r in TestEdge(p, test, modules[n])
  {
    hide ModuleSymbolOf;
    if modules != [] {
      TestEdgesCount(p, test, Front(modules));
      forall r | r in TestEdgesOver(p, test, modules)
        ensures exists n :: 0 <= n < |modules| && r in TestEdge(p, test, modules[n])
      {
        if r in TestEdgesOver(p, test, Front(modules)) {
          var n :| 0 <= n < |Front(modules)| && r in TestEdge(p, test, Front(modules)[n]);
          assert r in TestEdge(p, test, modules[n]);
        } else {
          assert r in TestEdge(p, test, modules[|modules| - 1]);
        }
      }
    }
  }

  /** A test file tests exactly the modules bound in its local names that have a module symbol other than its
      own, with at most one edge for each of them. */
  lemma TestEdgesAreExact(p: Parsed, f: File, bindings: seq<Binding>, r: Relation)
    requires p.isTest(f.path) && ModuleSymbol(f).Some?
    ensures r in TestEdges(p, f, bindings)
      <==> exists b :: b in bindings && r in TestEdge(p, ModuleSymbol(f).value, b.moduleName)
    ensures |TestEdges(p, f, bindings)| <= |BoundModules(bindings)|
    ensures forall i, j :: 0 <= i < j < |BoundModules(bindings)| ==>
      BoundModules(bindings)[i] != BoundModules(bindings)[j]
  {
    hide TestEdge, ModuleSymbol, TestEdgesOver, BoundModules;
    var modules := BoundModules(bindings);
    var test := ModuleSymbol(f).value;
    BoundOnce(bindings);
    TestEdgesCount(p, test, modules);
    if r in TestEdges(p, f, bindings) {
      var n :| 0 <= n < |modules| && r in TestEdge(p, test, modules[n]);
      assert modules[n] in modules;
      var b :| b in bindings && b.moduleName == modules[n];
    }
    forall b | b in bindings && r in TestEdge(p, test, b.moduleName)
      ensures r in TestEdges(p, f, bindings)
    {
      assert b.moduleName in modules;
      var n :| 0 <= n < |modules| && modules[n] == b.moduleName;
      TestEdgesSplit(p, test, modules, n);
    }
  }

  /** The file's module symbol tests the module symbol of a module that one of its local names is bound to. */
  ghost predicate TestLinks(
      p: Parsed, f: File, local: string, m: string, name: string, k: int, s: Symbol, r: Relation)
  {
    && p.isTest(f.path) && Bound(p, f, f.imports, local, m, name) && FirstOfModule(p.files, m, IsModule, s)
    && FirstWhere(f.symbols, IsModule, k) && Links(p, r, TestsKind, f.symbols[k], s)
  }

  /** The test edges of a file, exactly. */
  lemma TestEdgesAreThese(p: Parsed, f: File, r: Relation)
    ensures r in TestEdges(p, f, Bindings(p, f, f.imports))
      <==> exists local, m, name, k, s :: TestLinks(p, f, local, m, name, k, s, r)
  {
    hide Bindings, Bound, FirstOfModule, First, Edge, Links, TestEdges, OnePerName;
    var bindings := Bindings(p, f, f.imports);
    var own := ModuleSymbol(f);
    if local, m, name, k, s :| TestLinks(p, f, local, m, name, k, s, r) {
      OwnModuleSymbol(f, f.symbols[k]);
      TestEdgesAreExact(p, f, bindings, r);
      BindingsAreBound(p, f, f.imports, local, m, name);
      LookupIsMember(bindings, Binding(local, m, name));
      ModuleFirst(p.files, m, (x: Symbol) => x.kind.ModuleKind?, IsModule, s);
      EdgeLinks(p, TestsKind, f.symbols[k], s, r);
    }
    if r in TestEdges(p, f, bindings) {
      NoTestEdges(p, f, bindings);
      TestEdgesAreExact(p, f, bindings, r);
      var b :| b in bindings && r in TestEdge(p, own.value, b.moduleName);
      BindingsAreBound(p, f, f.imports, b.local, b.moduleName, b.name);
      LookupIsMember(bindings, b);
      var s := ModuleSymbolOf(p.files, b.moduleName).value;
      ModuleFirst(p.files, b.moduleName, (x: Symbol) => x.kind.ModuleKind?, IsModule, s);
      OwnModuleSymbol(f, own.value);
      var k :| FirstWhere(f.symbols, IsModule, k) && own.value == f.symbols[k];
      EdgeLinks(p, TestsKind, own.value, s, r);
      assert TestLinks(p, f, b.local, b.moduleName, b.name, k, s, r);
    }
  }

  lemma NoTestEdges(p: Parsed, f: File, bindings: seq<Binding>)
    ensures TestEdges(p, f, bindings) != [] ==> p.isTest(f.path) && ModuleSymbol(f).Some?
  {
  }

  // ----- all edges -------------------------------------------------------------------

  /** What resolution appends to a file: its import edges, then its call edges, then its test edges, as above. */
  lemma AppendedIsExact(p: Parsed, f: File, r: Relation)
    ensures r in Appended(p, f) <==>
      || (exists imp, m, k, s :: imp in f.imports && ImportLinks(p, f, imp, m, k, s, r))
      || (exists caller, site, s ::
           && caller in f.symbols && (caller.kind == FunctionKind || caller.kind == MethodKind)
           && site in caller.callSites && CallLinks(p, f, caller, site, s, r))
      || (exists local, m, name, k, s :: TestLinks(p, f, local, m, name, k, s, r))
  {
    hide ImportEdges, CallEdges, TestEdges, Bindings, ImportLinks, CallLinks, TestLinks;
    ImportEdgesAreExact(p, f, f.imports, r);
    CallEdgesLink(p, f, f.symbols, r);
    TestEdgesAreThese(p, f, r);
  }
}
