/** The resolved code graph is closed over the parsed symbols. */
module GraphProperties {
  import opened Prelude
  import opened Imports
  import opened GraphResolver
  import opened GraphCalls

  predicate Has(files: seq<File>, s: Symbol) {
    exists f :: f in files && s in f.symbols
  }

  /** The relation joins two distinct symbols of the parsed files, at the resolver's repository and revision. */
  predicate Joins(p: Parsed, r: Relation, source: Symbol, target: Symbol) {
    && Has(p.files, source) && Has(p.files, target) && source.id != target.id
    && r.source == source.identity && r.target == target.identity
    && r.sourcePath == source.path && r.targetPath == target.path
    && r.repository == p.repository && r.revision == p.revision
  }

  ghost predicate Closed(p: Parsed, relations: seq<Relation>) {
    forall r :: r in relations ==> exists source, target :: Joins(p, r, source, target)
  }

  /** Every name the resolver gives for an import is the module of a parsed file. */
  lemma ResolvedIsIndexed(p: Parsed, f: File, imp: Import)
    ensures
      var m := Resolved(IndexOf(p.files), f.moduleName, imp);
      m.Some? ==> exists g :: g in p.files && g.moduleName == m.value
  {
    hide Candidate;
    var m := Resolved(IndexOf(p.files), f.moduleName, imp);
    if m.Some? {
      IndexIsLastFile(p.files, m.value);
      var i :| LastFile(p.files, m.value, i);
      assert p.files[i] in p.files;
    }
  }

  lemma FirstIsThere(files: seq<File>, m: string, wanted: Symbol -> bool, s: Symbol)
    requires FirstOfModule(files, m, wanted, s)
    ensures Has(files, s)
  {
    var i, k :| LastFile(files, m, i) && FirstWhere(files[i].symbols, wanted, k) && s == files[i].symbols[k];
    assert files[i] in files && s in files[i].symbols;
  }

  lemma NamedIsThere(p: Parsed, f: File, local: string, s: Symbol)
    requires StandsFor(p, f, local, s)
    ensures Has(p.files, s)
  {
    hide FirstOfModule, Bound, Has;
    var m, name :| Bound(p, f, f.imports, local, m, name) && MeantBy(p, m, name, s);
    if FirstOfModule(p.files, m, Defines(name), s) {
      FirstIsThere(p.files, m, Defines(name), s);
    } else {
      FirstIsThere(p.files, m, IsModule, s);
    }
  }

  lemma MethodAtIsThere(files: seq<File>, qualified: string, s: Symbol, i: int, k: int)
    requires FirstMethodAt(files, qualified, s, i, k)
    ensures Has(files, s)
  {
    assert files[i] in files && s in files[i].symbols;
  }

  lemma MethodIsThere(files: seq<File>, class_: Symbol, name: string, s: Symbol)
    requires MethodOf(files, class_, name, s)
    ensures Has(files, s)
  {
    hide FirstWhere;
    var i, k :| FirstMethodAt(files, class_.qualifiedName + "." + name, s, i, k);
    MethodAtIsThere(files, class_.qualifiedName + "." + name, s, i, k);
  }

  lemma CalledIsThere(p: Parsed, f: File, caller: Symbol, site: CallSite, s: Symbol)
    requires Calls(p, f, caller, site, s)
    ensures Has(p.files, s)
  {
    hide StandsFor, SelfAttribute, FirstWhere, Has;
    if StandsFor(p, f, site.name, s) {
      NamedIsThere(p, f, site.name, s);
    } else {
      var c :| MethodOf(p.files, c, site.method_, s);
      MethodIsThere(p.files, c, site.method_, s);
    }
  }

  /** Everything resolution appends to a parsed file joins two distinct parsed symbols. */
  lemma AppendedIsClosed(p: Parsed, f: File)
    requires f in p.files
    ensures Closed(p, Appended(p, f))
  {
    forall r | r in Appended(p, f)
      ensures exists source, target :: Joins(p, r, source, target)
    {
      AppendedJoins(p, f, r);
    }
  }

  lemma AppendedJoins(p: Parsed, f: File, r: Relation)
    requires f in p.files && r in Appended(p, f)
    ensures exists source, target :: Joins(p, r, source, target)
  {
    hide Appended, Resolved, IndexOf, FirstOfModule, Calls, Bound;
    AppendedIsExact(p, f, r);
    if imp, m, k, s :| imp in f.imports && ImportLinks(p, f, imp, m, k, s, r) {
      FirstIsThere(p.files, m, IsModule, s);
      assert Joins(p, r, f.symbols[k], s);
    } else if caller, site, s :| caller in f.symbols && CallLinks(p, f, caller, site, s, r) {
      CalledIsThere(p, f, caller, site, s);
      assert Joins(p, r, caller, s);
    } else {
      var local, m, name, k, s :| TestLinks(p, f, local, m, name, k, s, r);
      FirstIsThere(p.files, m, IsModule, s);
      assert Joins(p, r, f.symbols[k], s);
    }
  }
}
