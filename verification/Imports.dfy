/** Module names and the resolution of import statements (code_intelligence.py). */
module Imports {
  import opened Prelude

  // ----- dotted names --------------------------------------------------------

  /** `name.split(".")` */
  function Split(name: string): seq<string> {
    if name == "" then [""]
    else
      var rest := Split(name[1..]);
      if name[0] == '.' then [""] + rest
      else if rest == [] then [[name[0]]]
      else [[name[0]] + rest[0]] + rest[1..]
  }

  /** `".".join(parts)` */
  function Join(parts: seq<string>): string {
    if parts == [] then ""
    else if |parts| == 1 then parts[0]
    else parts[0] + "." + Join(parts[1..])
  }

  predicate Plain(part: string) {
    '.' !in part
  }

  lemma {:induction false} SplitJoin(name: string)
    ensures Split(name) != [] && Join(Split(name)) == name
    ensures forall p :: p in Split(name) ==> Plain(p)
  {
    if name != "" {
      SplitJoin(name[1..]);
      var rest := Split(name[1..]);
      assert name == [name[0]] + name[1..];
      if name[0] == '.' {
        assert ([""] + rest)[1..] == rest;
      } else {
        var s := [[name[0]] + rest[0]] + rest[1..];
        assert s[1..] == rest[1..];
        if |rest| > 1 {
          assert Join(s) == ([name[0]] + rest[0]) + "." + Join(rest[1..]);
        }
        forall p | p in s
          ensures Plain(p)
        {
          var i :| 0 <= i < |s| && s[i] == p;
          assert rest[i] in rest;
        }
      }
    }
  }

  lemma {:induction false} SplitPlain(part: string)
    requires Plain(part)
    ensures Split(part) == [part]
  {
    if part != "" {
      SplitPlain(part[1..]);
      assert part == [part[0]] + part[1..];
    }
  }

  lemma {:induction false} SplitDot(part: string, name: string)
    requires Plain(part)
    ensures Split(part + "." + name) == [part] + Split(name)
  {
    var whole := part + "." + name;
    SplitJoin(name);
    if part == "" {
      assert whole[1..] == name;
    } else {
      SplitDot(part[1..], name);
      assert whole[1..] == part[1..] + "." + name;
      assert part == [part[0]] + part[1..];
      assert ([part[1..]] + Split(name))[1..] == Split(name);
    }
  }

  lemma {:induction false} JoinSplit(parts: seq<string>)
    requires parts != [] && forall p :: p in parts ==> Plain(p)
    ensures Split(Join(parts)) == parts
  {
    if |parts| == 1 {
      SplitPlain(parts[0]);
    } else {
      JoinSplit(parts[1..]);
      SplitDot(parts[0], Join(parts[1..]));
    }
  }

  // ----- resolution ----------------------------------------------------------

  datatype Import = Import(moduleName: string, name: string, alias: string, relative: bool, level: int)

  const INIT := "__init__.py"

  /** The last component of a path is the package marker. */
  predicate PackagePath(path: string) {
    path == INIT || (|path| > |INIT| && path[|path| - |INIT| - 1..] == "/" + INIT)
  }

  /** A package's file is called `__init__.py`, alone or after a slash. */
  lemma PackagePathIff(path: string)
    ensures PackagePath(path) <==> path == "__init__.py" || exists folder :: path == folder + "/__init__.py"
  {
    assert "/" + INIT == "/__init__.py";
    if PackagePath(path) && path != INIT {
      var folder := path[..|path| - |INIT| - 1];
      assert path == folder + "/__init__.py";
    }
    forall folder | path == folder + "/__init__.py"
      ensures PackagePath(path)
    {
      assert path[|folder|..] == "/__init__.py";
    }
  }

  /** The indexed modules and, for each, whether it is a package. */
  type Index = map<string, bool>

  /** The components of the package a module's relative imports start from. */
  function Container(index: Index, current: string): seq<string> {
    var parts := Split(current);
    if current in index && index[current] then parts
    else if parts == [] then [] else parts[..|parts| - 1]
  }

  function Climb(parts: seq<string>, steps: int): seq<string> {
    if steps <= 0 then parts
    else if steps >= |parts| then []
    else parts[..|parts| - steps]
  }

  function Candidate(index: Index, current: string, imp: Import): string {
    if !imp.relative then imp.moduleName
    else
      Join(Climb(Container(index, current), imp.level - 1)
        + if imp.moduleName != "" then Split(imp.moduleName) else [])
  }

  function Resolved(index: Index, current: string, imp: Import): Option<string> {
    var candidate := Candidate(index, current, imp);
    if candidate in index then Some(candidate) else None
  }

  method ResolveModule(index: Index, current: string, imp: Import) returns (target: Option<string>)
    ensures target == Resolved(index, current, imp)
    ensures target.Some? ==> target.value in index
  {
    if !imp.relative {
      return if imp.moduleName in index then Some(imp.moduleName) else None;
    }
    hide Split, Join, Climb;
    var isPackage := current in index && index[current];
    SplitJoin(current);
    var parts := Split(current);
    var container := if isPackage then parts else parts[..|parts| - 1];
    container := ClimbUp(container, imp.level);
    var candidateParts := container;
    if imp.moduleName != "" {
      candidateParts := candidateParts + Split(imp.moduleName);
    }
    assert candidateParts == container + if imp.moduleName != "" then Split(imp.moduleName) else [];
    var candidate := Join(candidateParts);
    return if candidate in index then Some(candidate) else None;
  }

  method ClimbUp(start: seq<string>, level: int) returns (container: seq<string>)
    ensures container == Climb(start, level - 1)
  {
    container := start;
    var k := 0;
    while k < level - 1
      invariant 0 <= k && (k <= level - 1 || k == 0)
      invariant container == Climb(start, k)
    {
      if container != [] {
        container := container[..|container| - 1];
      }
      k := k + 1;
    }
  }

  // ----- the reference -------------------------------------------------------

  /** Package relative imports of the Python Language Reference, section 5.7: one dot names the current package,
      each further dot its parent, and there must be a package to name. */
  function PythonTarget(package: seq<string>, level: int, moduleName: string): Option<string> {
    if level < 1 || level > |package| then None
    else Some(Join(package[..|package| - (level - 1)] + if moduleName == "" then [] else Split(moduleName)))
  }

  /** Within the package depth the code names what the reference names. */
  lemma AgreesWithinDepth(index: Index, current: string, imp: Import)
    requires imp.relative && 1 <= imp.level <= |Container(index, current)|
    ensures PythonTarget(Container(index, current), imp.level, imp.moduleName) == Some(Candidate(index, current, imp))
  {
    var package := Container(index, current);
    assert Climb(package, imp.level - 1) == package[..|package| - (imp.level - 1)];
  }

  /** Beyond the depth, where the reference reports an error, the code falls back to the absolute name. */
  lemma BeyondDepthIsAbsolute(index: Index, current: string, imp: Import)
    requires imp.relative && imp.level > |Container(index, current)|
    ensures PythonTarget(Container(index, current), imp.level, imp.moduleName) == None
    ensures Resolved(index, current, imp) == if imp.moduleName in index then Some(imp.moduleName) else None
  {
    var package := Container(index, current);
    SplitJoin(imp.moduleName);
    assert Climb(package, imp.level - 1) == [];
    assert [] + Split(imp.moduleName) == Split(imp.moduleName);
  }

  /** The code resolves a relative import as the reference does exactly when the level is within the depth or
      the bare name is not indexed. */
  lemma RelativeImportAgreesIff(index: Index, current: string, imp: Import)
    requires imp.relative && imp.level >= 1
    ensures
      var package := Container(index, current);
      var reference := PythonTarget(package, imp.level, imp.moduleName);
      Resolved(index, current, imp) == (if reference.Some? && reference.value in index then reference else None)
      <==> imp.level <= |package| || imp.moduleName !in index
  {
    if imp.level <= |Container(index, current)| {
      AgreesWithinDepth(index, current, imp);
    } else {
      BeyondDepthIsAbsolute(index, current, imp);
    }
  }

  // ----- round trip ----------------------------------------------------------

  /** The relative spelling of a module from a package, some levels up. */
  function Spelling(package: seq<string>, level: int, target: string): Import
    requires 1 <= level <= |package|
  {
    var shared := |package| - (level - 1);
    var parts := Split(target);
    Import(if shared <= |parts| then Join(parts[shared..]) else "", "", "", true, level)
  }

  /** Any indexed module below the package reached by the dots resolves from its relative spelling to itself, unless
      all that is left of its name is one empty component, which a relative import cannot spell. */
  lemma RelativeSpellingResolves(index: Index, current: string, target: string, level: int)
    requires target in index
    requires 1 <= level <= |Container(index, current)|
    requires
      var package := Container(index, current);
      package[..|package| - (level - 1)] <= Split(target)
    ensures
      var package := Container(index, current);
      Resolved(index, current, Spelling(package, level, target)) == Some(target)
      <==> Split(target)[|package| - (level - 1)..] != [""]
  {
    hide Split, Join, Container, Climb, Candidate, Plain;
    var package, parts := Container(index, current), Split(target);
    var imp := Spelling(package, level, target);
    SplitJoin(target);
    AgreesWithinDepth(index, current, imp);
    SpellingNamesTarget(package[..|package| - (level - 1)], parts);
  }

  /** Splitting the joined tail again and joining it to the shared part gives the whole name back. */
  lemma SpellingNamesTarget(shared: seq<string>, parts: seq<string>)
    requires shared != [] && shared <= parts
    requires forall p :: p in parts ==> Plain(p)
    ensures
      var name := Join(parts[|shared|..]);
      Join(shared + if name == "" then [] else Split(name)) == Join(parts) <==> parts[|shared|..] != [""]
  {
    hide Split, Join, Plain;
    var rest := parts[|shared|..];
    assert parts == shared + rest;
    assert shared + [] == shared;
    JoinIsEmptyIff(rest);
    if rest == [""] {
      assert forall p :: p in shared ==> p in parts;
      JoinSplit(shared);
      JoinSplit(parts);
    } else if rest != [] {
      assert forall p :: p in rest ==> p in parts;
      JoinSplit(rest);
    }
  }

  lemma JoinIsEmptyIff(parts: seq<string>)
    ensures Join(parts) == "" <==> parts == [] || parts == [""]
  {
  }

  /** Siblings: `from .b import x` finds `p.b`, in a plain module `p.a` and in the package `p` itself. */
  lemma SiblingResolves(index: Index, package: string, a: string, b: string)
    requires package != "" && Plain(a) && Plain(b) && b != ""
    requires package + "." + b in index
    requires package + "." + a in index && !index[package + "." + a]
    ensures Resolved(index, package + "." + a, Import(b, "", "", true, 1)) == Some(package + "." + b)
    ensures package in index && index[package] ==>
      Resolved(index, package, Import(b, "", "", true, 1)) == Some(package + "." + b)
  {
    SplitAppend(package, a);
    SplitAppend(package, b);
    SplitJoin(package);
    SplitPlain(b);
    SplitJoin(package + "." + b);
    assert Split(package + "." + a)[..|Split(package)|] == Split(package);
  }

  /** `from . import b` is recorded with an empty module name, so it finds the package and never its module `b`:
      in a plain module `p.a` the package `p`, and only when that is indexed; in a package, the package itself. */
  lemma DotImportFindsPackage(index: Index, package: string, a: string, b: string, alias: string)
    requires package != "" && Plain(a)
    requires package + "." + a in index && !index[package + "." + a]
    ensures
      var imp := Import("", b, alias, true, 1);
      && Resolved(index, package + "." + a, imp) == (if package in index then Some(package) else None)
      && (package in index && index[package] ==> Resolved(index, package, imp) == Some(package))
  {
    SplitAppend(package, a);
    SplitJoin(package);
    assert Split(package + "." + a)[..|Split(package)|] == Split(package);
    assert Split(package) + [] == Split(package);
  }

  lemma {:induction false} SplitAppend(name: string, part: string)
    requires Plain(part)
    ensures Split(name + "." + part) == Split(name) + [part]
  {
    SplitJoin(name);
    SplitJoin(part);
    SplitPlain(part);
    var whole := name + "." + part;
    if name == "" {
      assert whole[1..] == part;
    } else {
      assert whole[1..] == name[1..] + "." + part;
      SplitJoin(name[1..]);
      SplitAppend(name[1..], part);
    }
  }
}
