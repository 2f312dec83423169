/** Merging of discovery passes and reconciliation of claims (domain/topology.py). */
module Topology {
  import opened Prelude
  import opened Claims

  datatype Component = Component(name: string, kind: string, origin: Origin, confidence: Confidence)
  datatype Interface = Interface(name: string, kind: string, component: string, origin: Origin, confidence: Confidence)
  datatype Resource = Resource(name: string, kind: string, origin: Origin, confidence: Confidence)
  datatype Dependency = Dependency(source: string, relation: string, target: string)

  function ComponentKey(c: Component): string { c.name }
  function InterfaceKey(i: Interface): (string, string) { (i.component, i.name) }
  function ResourceKey(r: Resource): string { r.name }
  function DependencyKey(d: Dependency): (string, string, string) { (d.source, d.relation, d.target) }

  // ----- merging -------------------------------------------------------------

  /** `existing` with every incoming item whose key is new, in order. */
  function Merged<T, K(==)>(key: T -> K, existing: seq<T>, incoming: seq<T>): seq<T> {
    if incoming == [] then existing
    else
      var merged := Merged(key, existing, Front(incoming));
      if key(Last(incoming)) in Keys(key, merged) then merged else merged + [Last(incoming)]
  }

  method Merge<T, K(==)>(key: T -> K, existing: seq<T>, incoming: seq<T>) returns (merged: seq<T>)
    ensures merged == Merged(key, existing, incoming)
  {
    merged := existing;
    var seen := set i | 0 <= i < |existing| :: key(existing[i]);
    for i := 0 to |incoming|
      invariant merged == Merged(key, existing, incoming[..i]) && seen == Keys(key, merged)
    {
      assert Front(incoming[..i + 1]) == incoming[..i];
      if key(incoming[i]) !in seen {
        KeysAppend(key, merged, incoming[i]);
        seen := seen + {key(incoming[i])};
        merged := merged + [incoming[i]];
      }
    }
    assert incoming[..|incoming|] == incoming;
  }

  class DiscoveredTopology {
    var components: seq<Component>
    var interfaces: seq<Interface>
    var resources: seq<Resource>
    var dependencies: seq<Dependency>

    constructor ()
      ensures components == [] && interfaces == [] && resources == [] && dependencies == []
    {
      components, interfaces, resources, dependencies := [], [], [], [];
    }

    method MergeWith(other: DiscoveredTopology)
      modifies this
      ensures components == Merged(ComponentKey, old(components), old(other.components))
      ensures interfaces == Merged(InterfaceKey, old(interfaces), old(other.interfaces))
      ensures resources == Merged(ResourceKey, old(resources), old(other.resources))
      ensures dependencies == Merged(DependencyKey, old(dependencies), old(other.dependencies))
    {
      components := Merge(ComponentKey, components, other.components);
      interfaces := Merge(InterfaceKey, interfaces, other.interfaces);
      resources := Merge(ResourceKey, resources, other.resources);
      dependencies := Merge(DependencyKey, dependencies, other.dependencies);
    }
  }

  /** The first item with a key, which is the one merging keeps. */
  function First<T, K(==)>(key: T -> K, items: seq<T>, k: K): Option<T> {
    if items == [] then None
    else
      match First(key, Front(items), k)
      case Some(item) => Some(item)
      case None => if key(Last(items)) == k then Some(Last(items)) else None
  }

  lemma {:induction false} FirstExists<T, K>(key: T -> K, items: seq<T>, k: K)
    ensures First(key, items, k).Some? <==> k in Keys(key, items)
  {
    if items != [] {
      FirstExists(key, Front(items), k);
      KeysAppend(key, Front(items), Last(items));
      assert items == Front(items) + [Last(items)];
    }
  }

  predicate UniqueKeys<T, K(==)>(key: T -> K, items: seq<T>) {
    forall i, j :: 0 <= i < j < |items| ==> key(items[i]) != key(items[j])
  }

  /** Merging keeps what was there, in place, covers both passes and keeps keys unique. */
  lemma {:induction false} MergeKeepsKeysUnique<T, K>(key: T -> K, a: seq<T>, b: seq<T>)
    ensures a <= Merged(key, a, b)
    ensures Keys(key, Merged(key, a, b)) == Keys(key, a) + Keys(key, b)
    ensures UniqueKeys(key, a) ==> UniqueKeys(key, Merged(key, a, b))
  {
    if b != [] {
      MergeKeepsKeysUnique(key, a, Front(b));
      KeysAppend(key, Front(b), Last(b));
      KeysAppend(key, Merged(key, a, Front(b)), Last(b));
      assert b == Front(b) + [Last(b)];
    }
  }

  /** For every key, merging keeps the first item of the two passes read one after the other. */
  lemma {:induction false} MergeKeepsFirsts<T, K>(key: T -> K, a: seq<T>, b: seq<T>, k: K)
    ensures First(key, Merged(key, a, b), k) == First(key, a + b, k)
  {
    if b == [] {
      assert a + b == a;
    } else {
      MergeKeepsFirsts(key, a, Front(b), k);
      var m := Merged(key, a, Front(b));
      assert Front(a + b) == a + Front(b) && Front(m + [Last(b)]) == m;
      FirstExists(key, m, k);
    }
  }

  /** Uniqueness and firsts leave only the order open, and the order is that of the two passes. */
  lemma {:induction false} MergeIsAssociative<T, K>(key: T -> K, a: seq<T>, b: seq<T>, c: seq<T>)
    ensures Merged(key, Merged(key, a, b), c) == Merged(key, a, Merged(key, b, c))
  {
    if c != [] {
      MergeIsAssociative(key, a, b, Front(c));
      var m := Merged(key, b, Front(c));
      MergeKeepsKeysUnique(key, a, m);
      assert Front(m + [Last(c)]) == m;
    }
  }

  /** A pass that brings no new key changes nothing; so merging a pass with itself, or a second time, does not. */
  lemma {:induction false} MergeAbsorbs<T, K>(key: T -> K, a: seq<T>, b: seq<T>)
    requires Keys(key, b) <= Keys(key, a)
    ensures Merged(key, a, b) == a
  {
    if b != [] {
      assert b == Front(b) + [Last(b)];
      KeysAppend(key, Front(b), Last(b));
      MergeAbsorbs(key, a, Front(b));
    }
  }

  lemma MergeIsIdempotent<T, K>(key: T -> K, a: seq<T>, b: seq<T>)
    ensures Merged(key, a, a) == a
    ensures Merged(key, Merged(key, a, b), b) == Merged(key, a, b)
  {
    MergeKeepsKeysUnique(key, a, b);
    MergeAbsorbs(key, a, a);
    MergeAbsorbs(key, Merged(key, a, b), b);
  }

  predicate Matched<T(==)>(same: (T, T) -> bool, items: seq<T>, x: T) {
    exists i :: 0 <= i < |items| && same(items[i], x)
  }

  /** The pass that was there, in place, then items of the other pass that are the same as nothing before them; and
      nothing is left out for which the list has no such item. */
  ghost predicate MergedBy<T(!new)>(same: (T, T) -> bool, a: seq<T>, b: seq<T>, merged: seq<T>) {
    && a <= merged
    && (forall j :: |a| <= j < |merged| ==> merged[j] in b && !Matched(same, merged[..j], merged[j]))
    && (forall x :: x in b ==> Matched(same, merged, x))
  }

  lemma MatchedAppend<T>(same: (T, T) -> bool, items: seq<T>, y: T, x: T)
    ensures Matched(same, items + [y], x) <==> Matched(same, items, x) || same(y, x)
  {
    assert same(y, x) ==> same((items + [y])[|items|], x);
    if i :| 0 <= i < |items| && same(items[i], x) {
      assert (items + [y])[i] == items[i];
    }
  }

  lemma MergedByStep<T(!new)>(same: (T, T) -> bool, a: seq<T>, b: seq<T>, merged: seq<T>, x: T)
    requires MergedBy(same, a, b, merged) && same(x, x)
    ensures MergedBy(same, a, b + [x], if Matched(same, merged, x) then merged else merged + [x])
  {
    hide Matched;
    var next := if Matched(same, merged, x) then merged else merged + [x];
    forall y | y in b + [x]
      ensures Matched(same, next, y)
    {
      if next == merged + [x] {
        MatchedAppend(same, merged, x, y);
      }
    }
    forall j | |a| <= j < |next|
      ensures next[j] in b + [x] && !Matched(same, next[..j], next[j])
    {
      if j < |merged| {
        assert next[..j] == merged[..j];
      } else {
        assert next[..j] == merged;
      }
    }
  }

  lemma MatchedIff<T, K>(key: T -> K, same: (T, T) -> bool, items: seq<T>, x: T)
    requires forall y, z :: same(y, z) <==> key(y) == key(z)
    ensures Matched(same, items, x) <==> key(x) in Keys(key, items)
  {
  }

  lemma {:induction false} MergedBySameness<T(!new), K>(key: T -> K, same: (T, T) -> bool, a: seq<T>, b: seq<T>)
    requires forall x, y :: same(x, y) <==> key(x) == key(y)
    ensures MergedBy(same, a, b, Merged(key, a, b))
  {
    if b != [] {
      var before, last := Merged(key, a, Front(b)), Last(b);
      MergedBySameness(key, same, a, Front(b));
      assert b == Front(b) + [last];
      MatchedIff(key, same, before, last);
      MergedByStep(same, a, Front(b), before, last);
      hide MergedBy, Matched, Keys;
    }
  }

  /** What makes two discovered things the same: a component's or resource's name, an interface's component and name,
      and both ends and the relation of a dependency. Origin, kind and confidence play no part. */
  lemma TopologiesMergeByIdentity(
      components: (seq<Component>, seq<Component>), interfaces: (seq<Interface>, seq<Interface>),
      resources: (seq<Resource>, seq<Resource>), dependencies: (seq<Dependency>, seq<Dependency>))
    ensures MergedBy((x: Component, y: Component) => x.name == y.name,
              components.0, components.1, Merged(ComponentKey, components.0, components.1))
    ensures MergedBy((x: Interface, y: Interface) => x.component == y.component && x.name == y.name,
              interfaces.0, interfaces.1, Merged(InterfaceKey, interfaces.0, interfaces.1))
    ensures MergedBy((x: Resource, y: Resource) => x.name == y.name,
              resources.0, resources.1, Merged(ResourceKey, resources.0, resources.1))
    ensures MergedBy(
              (x: Dependency, y: Dependency) =>
                x.source == y.source && x.relation == y.relation && x.target == y.target,
              dependencies.0, dependencies.1, Merged(DependencyKey, dependencies.0, dependencies.1))
  {
    hide MergedBy, Merged;
    MergedBySameness(ComponentKey, (x: Component, y: Component) => x.name == y.name, components.0, components.1);
    MergedBySameness(InterfaceKey,
      (x: Interface, y: Interface) => x.component == y.component && x.name == y.name, interfaces.0, interfaces.1);
    MergedBySameness(ResourceKey, (x: Resource, y: Resource) => x.name == y.name, resources.0, resources.1);
    MergedBySameness(DependencyKey,
      (x: Dependency, y: Dependency) => x.source == y.source && x.relation == y.relation && x.target == y.target,
      dependencies.0, dependencies.1);
  }

  // ----- claims --------------------------------------------------------------

  datatype Kind = COMPONENT | INTERFACE | RESOURCE

  /** A claim's origin is free text; `None` stands for any text that is not one of the four origins. */
  datatype Claim = Claim(kind: Kind, name: string, value: string, origin: Option<Origin>, confidence: Confidence)

  function ClaimKey(c: Claim): (Kind, string) { (c.kind, c.name) }

  function ClaimStanding(c: Claim): Standing {
    Standing(if c.origin.Some? then Rank(c.origin.value) else 4, Score(c.confidence))
  }

  function OfComponent(c: Component): Claim { Claim(COMPONENT, c.name, c.kind, Some(c.origin), c.confidence) }
  function OfInterface(i: Interface): Claim {
    Claim(INTERFACE, i.component + ":" + i.name, i.kind, Some(i.origin), i.confidence)
  }
  function OfResource(r: Resource): Claim { Claim(RESOURCE, r.name, r.kind, Some(r.origin), r.confidence) }

  function Mapped<T, U>(f: T -> U, items: seq<T>): (r: seq<U>)
    ensures |r| == |items| && forall i :: 0 <= i < |r| ==> r[i] == f(items[i])
  {
    if items == [] then [] else Mapped(f, Front(items)) + [f(Last(items))]
  }

  method Collect<T, U>(f: T -> U, items: seq<T>) returns (r: seq<U>)
    ensures r == Mapped(f, items)
  {
    r := [];
    for i := 0 to |items|
      invariant r == Mapped(f, items[..i])
    {
      r := r + [f(items[i])];
    }
  }

  method CollectClaims(t: DiscoveredTopology) returns (claims: seq<Claim>)
    ensures claims
      == Mapped(OfComponent, t.components) + Mapped(OfInterface, t.interfaces) + Mapped(OfResource, t.resources)
  {
    var ofComponents := Collect(OfComponent, t.components);
    var ofInterfaces := Collect(OfInterface, t.interfaces);
    var ofResources := Collect(OfResource, t.resources);
    claims := ofComponents + ofInterfaces + ofResources;
  }

  /** Every component, interface and resource makes one claim, with its own type, origin and confidence. */
  lemma ClaimsAreMade(components: seq<Component>, interfaces: seq<Interface>, resources: seq<Resource>, i: nat)
    ensures
      var claims := Mapped(OfComponent, components) + Mapped(OfInterface, interfaces) + Mapped(OfResource, resources);
      && |claims| == |components| + |interfaces| + |resources|
      && (i < |components| ==>
           var c := components[i];
           claims[i] == Claim(COMPONENT, c.name, c.kind, Some(c.origin), c.confidence))
      && (i < |interfaces| ==>
           var x := interfaces[i];
           claims[|components| + i]
           == Claim(INTERFACE, x.component + ":" + x.name, x.kind, Some(x.origin), x.confidence))
      && (i < |resources| ==>
           var x := resources[i];
           claims[|components| + |interfaces| + i] == Claim(RESOURCE, x.name, x.kind, Some(x.origin), x.confidence))
  {
  }

  /** The value that wins for an entity: that of the strongest claim made about it. */
  function WinningValue(claims: seq<Claim>, k: (Kind, string)): Option<string> {
    match Strongest(ClaimStanding, Group(ClaimKey, claims, k))
    case Some(claim) => Some(claim.value)
    case None => None
  }

  predicate Beats(candidate: Claim, current: Claim) {
    var a, b := ClaimStanding(candidate), ClaimStanding(current);
    if a.rank != b.rank then a.rank < b.rank else a.score > b.score
  }

  /** `best` holds the strongest claim so far about each entity. */
  ghost predicate Judged(claims: seq<Claim>, best: map<(Kind, string), Claim>) {
    && best.Keys == Keys(ClaimKey, claims)
    && forall k :: k in best ==> Strongest(ClaimStanding, Group(ClaimKey, claims, k)) == Some(best[k])
  }

  lemma JudgedStep(claims: seq<Claim>, best: map<(Kind, string), Claim>, claim: Claim)
    requires Judged(claims, best)
    ensures
      var k := ClaimKey(claim);
      Judged(claims + [claim], if k !in best || Beats(claim, best[k]) then best[k := claim] else best)
  {
    hide Strongest, Group, Keys, ClaimStanding;
    var k := ClaimKey(claim);
    var next := if k !in best || Beats(claim, best[k]) then best[k := claim] else best;
    KeysAppend(ClaimKey, claims, claim);
    forall other | other in next
      ensures Strongest(ClaimStanding, Group(ClaimKey, claims + [claim], other)) == Some(next[other])
    {
      GroupAppend(ClaimKey, claims, claim, other);
      if other == k {
        GroupExists(ClaimKey, claims, k);
        StrongestStep(ClaimStanding, Group(ClaimKey, claims, k), claim);
      }
    }
  }

  method Reconcile(claims: seq<Claim>) returns (winners: map<(Kind, string), string>)
    ensures forall k :: k in winners <==> k in Keys(ClaimKey, claims)
    ensures forall k :: k in winners ==> WinningValue(claims, k) == Some(winners[k])
  {
    winners := map[];
    var best: map<(Kind, string), Claim> := map[];
    for i := 0 to |claims|
      invariant Judged(claims[..i], best)
      invariant winners.Keys == best.Keys && forall k :: k in best ==> winners[k] == best[k].value
    {
      var claim := claims[i];
      var k := (claim.kind, claim.name);
      JudgedStep(claims[..i], best, claim);
      assert claims[..i + 1] == claims[..i] + [claim];
      hide Judged;
      if k !in best || Beats(claim, best[k]) {
        best := best[k := claim];
        winners := winners[k := claim.value];
      }
    }
    assert claims[..|claims|] == claims;
  }

  /** The claims about one entity, in order, are what the online winner is judged by: it is the leftmost of them
      that no other one beats. */
  lemma WinnerIsLeftmostUnbeaten(claims: seq<Claim>, k: (Kind, string))
    ensures k in Keys(ClaimKey, claims) <==> WinningValue(claims, k).Some?
    ensures
      k in Keys(ClaimKey, claims) ==>
        exists i ::
          && LeftmostUnbeaten(ClaimStanding, Group(ClaimKey, claims, k), i)
          && WinningValue(claims, k) == Some(Group(ClaimKey, claims, k)[i].value)
  {
    var group := Group(ClaimKey, claims, k);
    GroupExists(ClaimKey, claims, k);
    StrongestIsLeftmostUnbeaten(ClaimStanding, group);
  }

  /** A claim beats another by its origin, and at the same origin by its confidence. */
  predicate Wins(a: Claim, b: Claim) {
    Outranks(a.origin, b.origin) || (a.origin == b.origin && Surer(a.confidence, b.confidence))
  }

  lemma BetterIsWins(a: Claim, b: Claim)
    ensures Better(ClaimStanding(a), ClaimStanding(b)) <==> Wins(a, b)
  {
    if a.origin.Some? && b.origin.Some? {
      RanksAndScores(a.origin.value, b.origin.value, a.confidence, b.confidence);
      RanksAndScores(b.origin.value, a.origin.value, a.confidence, b.confidence);
    } else {
      RanksAndScores(a.origin.GetOr(Declared), b.origin.GetOr(Declared), a.confidence, b.confidence);
      RanksAndScores(b.origin.GetOr(Declared), a.origin.GetOr(Declared), a.confidence, b.confidence);
    }
  }

  /** The claim whose value is taken for an entity: no other claim about it wins against this one, and each earlier
      one about it loses to some claim. So a declared value is never lost to an inferred one. */
  lemma WinnerByOrigin(claims: seq<Claim>, k: (Kind, string)) returns (i: nat)
    requires k in Keys(ClaimKey, claims)
    ensures
      var group := Group(ClaimKey, claims, k);
      && i < |group| && WinningValue(claims, k) == Some(group[i].value)
      && (forall c :: c in claims && c.kind == k.0 && c.name == k.1 ==> !Wins(c, group[i]))
      && (forall j :: 0 <= j < i ==> exists c :: c in group && Wins(c, group[j]))
  {
    hide Wins, Better, ClaimStanding;
    var group := Group(ClaimKey, claims, k);
    WinnerIsLeftmostUnbeaten(claims, k);
    GroupExists(ClaimKey, claims, k);
    i :| LeftmostUnbeaten(ClaimStanding, group, i) && WinningValue(claims, k) == Some(group[i].value);
    forall a, b
      ensures Better(ClaimStanding(a), ClaimStanding(b)) <==> Wins(a, b)
    {
      BetterIsWins(a, b);
    }
    forall c | c in claims && c.kind == k.0 && c.name == k.1
      ensures !Wins(c, group[i])
    {
      assert c in group;
      var j :| 0 <= j < |group| && group[j] == c;
    }
    forall j | 0 <= j < i
      ensures exists c :: c in group && Wins(c, group[j])
    {
      assert Beaten(ClaimStanding, group, j);
      var m :| 0 <= m < |group| && Better(ClaimStanding(group[m]), ClaimStanding(group[j]));
      assert group[m] in group;
    }
  }

  /** The rank and confidence of every winner are the same for any order of the same claims. */
  lemma ClaimOrderKeepsStandings(a: seq<Claim>, b: seq<Claim>, k: (Kind, string))
    requires multiset(a) == multiset(b) && k in Keys(ClaimKey, a)
    ensures
      var x, y := Strongest(ClaimStanding, Group(ClaimKey, a, k)), Strongest(ClaimStanding, Group(ClaimKey, b, k));
      x.Some? && y.Some? && ClaimStanding(x.value) == ClaimStanding(y.value)
  {
    forall x: Claim
      ensures multiset(Group(ClaimKey, a, k))[x] == multiset(Group(ClaimKey, b, k))[x]
    {
      GroupCounts(ClaimKey, a, k, x);
      GroupCounts(ClaimKey, b, k, x);
    }
    GroupExists(ClaimKey, a, k);
    StandingIsOrderFree(ClaimStanding, Group(ClaimKey, a, k), Group(ClaimKey, b, k));
  }

  /** An entity that one claim is about gets that claim's value. */
  lemma OnlyClaimWins(claims: seq<Claim>, i: nat)
    requires i < |claims|
    requires forall j :: 0 <= j < |claims| && j != i ==> ClaimKey(claims[j]) != ClaimKey(claims[i])
    ensures WinningValue(claims, ClaimKey(claims[i])) == Some(claims[i].value)
  {
    var k, before, after := ClaimKey(claims[i]), claims[..i], claims[i + 1..];
    GroupIsEmpty(ClaimKey, before, k);
    GroupIsEmpty(ClaimKey, after, k);
    GroupAppend(ClaimKey, before, claims[i], k);
    GroupConcat(ClaimKey, before + [claims[i]], after, k);
    assert claims == before + [claims[i]] + after;
    assert Group(ClaimKey, claims, k) == [] + [claims[i]];
    StrongestStep(ClaimStanding, [], claims[i]);
  }

  /** After any merges, every component keeps its own type through reconciliation. */
  lemma ComponentsKeepTheirType(
      components: seq<Component>, interfaces: seq<Interface>, resources: seq<Resource>, i: nat)
    requires UniqueKeys(ComponentKey, components) && i < |components|
    ensures
      var claims := Mapped(OfComponent, components) + Mapped(OfInterface, interfaces) + Mapped(OfResource, resources);
      WinningValue(claims, (COMPONENT, components[i].name)) == Some(components[i].kind)
  {
    var claims := Mapped(OfComponent, components) + Mapped(OfInterface, interfaces) + Mapped(OfResource, resources);
    assert claims[i] == OfComponent(components[i]);
    forall j | 0 <= j < |claims| && j != i
      ensures ClaimKey(claims[j]) != ClaimKey(claims[i])
    {
      if j < |components| {
        var low, high := if i < j then i else j, if i < j then j else i;
        assert ComponentKey(components[low]) != ComponentKey(components[high]);
      }
    }
    OnlyClaimWins(claims, i);
  }

  /** The joined name of `a` splits at a later colon into that of `b`: `a`'s component is `b`'s up to that colon. */
  predicate SplitsLater(a: Interface, b: Interface) {
    var n := |a.component| + 1;
    && n <= |b.component|
    && a.component == b.component[..n - 1]
    && b.component[n - 1] == ':'
    && a.name == b.component[n..] + ":" + b.name
  }

  /** Exactly when two interfaces that merging keeps apart become one entity: one's component ends at a colon
      inside the other's component. Components without a colon never do. */
  lemma InterfacesCollideIff(a: Interface, b: Interface)
    requires InterfaceKey(a) != InterfaceKey(b)
    ensures ClaimKey(OfInterface(a)) == ClaimKey(OfInterface(b)) <==> SplitsLater(a, b) || SplitsLater(b, a)
    ensures ':' !in a.component && ':' !in b.component ==> ClaimKey(OfInterface(a)) != ClaimKey(OfInterface(b))
  {
    if SplitsLater(a, b) {
      LaterSplitCollides(a, b);
    }
    if SplitsLater(b, a) {
      LaterSplitCollides(b, a);
    }
    SameSplitSameKey(a, b);
    if OfInterface(a).name == OfInterface(b).name {
      if |a.component| < |b.component| {
        CollisionSplitsLater(a, b);
      } else {
        CollisionSplitsLater(b, a);
      }
    }
  }

  lemma SameSplitSameKey(a: Interface, b: Interface)
    ensures OfInterface(a).name == OfInterface(b).name && |a.component| == |b.component| ==>
      InterfaceKey(a) == InterfaceKey(b)
  {
    var n := |a.component|;
    var x, y := OfInterface(a).name, OfInterface(b).name;
    assert a.component == x[..n] && a.name == x[n + 1..];
    assert b.component == y[..|b.component|] && b.name == y[|b.component| + 1..];
  }

  lemma LaterSplitCollides(a: Interface, b: Interface)
    requires SplitsLater(a, b)
    ensures OfInterface(a).name == OfInterface(b).name
    ensures ':' in b.component
  {
    var n := |a.component| + 1;
    assert b.component == b.component[..n - 1] + ":" + b.component[n..];
  }

  lemma CollisionSplitsLater(a: Interface, b: Interface)
    requires OfInterface(a).name == OfInterface(b).name && |a.component| < |b.component|
    ensures SplitsLater(a, b)
  {
    var n, name := |a.component| + 1, OfInterface(b).name;
    assert OfInterface(a).name[..n - 1] == a.component && name[..n - 1] == b.component[..n - 1];
    assert OfInterface(a).name[n - 1] == ':' && name[n - 1] == b.component[n - 1];
    assert OfInterface(a).name[n..] == a.name && name[n..] == b.component[n..] + ":" + b.name;
  }

  /** After any merges, an interface that collides with no other keeps its own type through reconciliation. */
  lemma InterfacesKeepTheirType(
      components: seq<Component>, interfaces: seq<Interface>, resources: seq<Resource>, i: nat)
    requires UniqueKeys(InterfaceKey, interfaces) && i < |interfaces|
    requires forall j :: 0 <= j < |interfaces| && j != i ==>
      !SplitsLater(interfaces[i], interfaces[j]) && !SplitsLater(interfaces[j], interfaces[i])
    ensures
      var claims := Mapped(OfComponent, components) + Mapped(OfInterface, interfaces) + Mapped(OfResource, resources);
      WinningValue(claims, ClaimKey(OfInterface(interfaces[i]))) == Some(interfaces[i].kind)
  {
    hide SplitsLater;
    var claims := Mapped(OfComponent, components) + Mapped(OfInterface, interfaces) + Mapped(OfResource, resources);
    var at := |components| + i;
    assert claims[at] == OfInterface(interfaces[i]);
    forall j | 0 <= j < |claims| && j != at
      ensures ClaimKey(claims[j]) != ClaimKey(claims[at])
    {
      if |components| <= j < |components| + |interfaces| {
        OtherKey(interfaces, i, j - |components|);
      }
    }
    OnlyClaimWins(claims, at);
  }

  lemma OtherKey(interfaces: seq<Interface>, i: nat, k: nat)
    requires UniqueKeys(InterfaceKey, interfaces) && i < |interfaces| && k < |interfaces| && i != k
    requires !SplitsLater(interfaces[i], interfaces[k]) && !SplitsLater(interfaces[k], interfaces[i])
    ensures ClaimKey(OfInterface(interfaces[k])) != ClaimKey(OfInterface(interfaces[i]))
  {
    hide SplitsLater;
    assert i < k ==> InterfaceKey(interfaces[i]) != InterfaceKey(interfaces[k]);
    assert k < i ==> InterfaceKey(interfaces[k]) != InterfaceKey(interfaces[i]);
    InterfacesCollideIff(interfaces[i], interfaces[k]);
  }

  /** A collision: the later of two interfaces is reported with the type of the other. */
  lemma InterfaceNamesCanCollide()
    ensures
      var a := Interface("c", "rest", "a:b", Declared, HIGH);
      var b := Interface("b:c", "grpc", "a", Declared, HIGH);
      var claims := Mapped(OfInterface, [a, b]);
      && UniqueKeys(InterfaceKey, [a, b])
      && WinningValue(claims, ClaimKey(OfInterface(b))) == Some("rest")
  {
    var a := Interface("c", "rest", "a:b", Declared, HIGH);
    var b := Interface("b:c", "grpc", "a", Declared, HIGH);
    var ca, cb := OfInterface(a), OfInterface(b);
    assert Mapped(OfInterface, [a, b]) == [ca, cb];
    assert ca.name == "a:b:c" == cb.name;
    var k := ClaimKey(cb);
    assert Front([ca, cb]) == [ca] && Front([ca]) == [];
    assert Group(ClaimKey, [ca], k) == [ca];
    assert Group(ClaimKey, [ca, cb], k) == [ca, cb];
    StrongestStep(ClaimStanding, [], ca);
    StrongestStep(ClaimStanding, [ca], cb);
    assert [] + [ca] == [ca];
    assert [ca] + [cb] == [ca, cb];
  }
}
