/** The runtime dependency closure behind the license gate: a worklist over requirements,
    where a package is revisited whenever an extra is asked of it late.
 */
module Licenses {
  import opened Wrappers

  type Name = string
  type Extra = string

  /** A requirement, with its version specifier as a predicate on versions. */
  datatype Requirement = Requirement(name: Name, extras: set<Extra>, direct: bool, allows: string -> bool)

  /** A declared dependency; its marker, evaluated for one extra ("" for none). */
  datatype Dependency = Dependency(requirement: Requirement, marker: Option<Extra -> bool>)

  datatype Distribution = Distribution(version: string, declares: seq<Dependency>)

  type Installed = map<Name, Distribution>

  datatype PolicyError = DirectUrl | NotInstalled | VersionMismatch

  /** Which packages are needed, each with the extras asked of it. */
  type Needs = map<Name, set<Extra>>

  predicate Active(dependency: Dependency, extras: set<Extra>) {
    dependency.marker.None? || exists x :: x in {""} + extras && dependency.marker.value(x)
  }

  predicate Good(installed: Installed, r: Requirement) {
    !r.direct && r.name in installed && r.allows(installed[r.name].version)
  }

  predicate Met(installed: Installed, needs: Needs, r: Requirement) {
    Good(installed, r) && r.name in needs && r.extras <= needs[r.name]
  }

  /** Closed under roots and active dependencies, every requirement satisfiable. */
  ghost predicate Closed(installed: Installed, roots: set<Requirement>, needs: Needs) {
    && (forall r :: r in roots ==> Met(installed, needs, r))
    && (forall n, d :: n in needs && n in installed && d in installed[n].declares && Active(d, needs[n])
          ==> Met(installed, needs, d.requirement))
  }

  ghost predicate Below(a: Needs, b: Needs) {
    forall n :: n in a ==> n in b && a[n] <= b[n]
  }

  /** The least closed needs: what the resolver must return. */
  ghost predicate Least(installed: Installed, roots: set<Requirement>, needs: Needs) {
    Closed(installed, roots, needs) && forall other :: Closed(installed, roots, other) ==> Below(needs, other)
  }

  // ---------------------------------------------------------------- what the resolver is forced to

  /** The extras these requirements ask of a package. */
  ghost function Asked(rs: set<Requirement>, n: Name): set<Extra> {
    set r, x | r in rs && r.name == n && x in r.extras :: x
  }

  /** Containing the roots, and with a package every dependency active for the extras asked of it. */
  ghost predicate Grows(installed: Installed, roots: set<Requirement>, rs: set<Requirement>) {
    && roots <= rs
    && forall r, d :: r in rs && r.name in installed && d in installed[r.name].declares && Active(d, Asked(rs, r.name))
         ==> d.requirement in rs
  }

  /** Reached from the roots through active dependencies: in every set that grows so. */
  ghost predicate Forced(installed: Installed, roots: set<Requirement>, q: Requirement) {
    forall rs :: Grows(installed, roots, rs) ==> q in rs
  }

  /** The worklist stays inside such a set. */
  ghost predicate Inside(pending: seq<Requirement>, visited: Needs, rs: set<Requirement>) {
    && (forall r :: r in pending ==> r in rs)
    && (forall n :: n in visited ==> visited[n] <= Asked(rs, n) && exists r :: r in rs && r.name == n)
  }

  // ---------------------------------------------------------------- termination

  ghost function Facts(needs: Needs): set<(Name, Option<Extra>)> {
    (set n | n in needs :: (n, None)) + (set n, x | n in needs && x in needs[n] :: (n, Some(x)))
  }

  ghost function AllRequirements(installed: Installed, roots: set<Requirement>): set<Requirement> {
    roots + set n, k | n in installed && 0 <= k < |installed[n].declares| :: installed[n].declares[k].requirement
  }

  ghost function Universe(installed: Installed, roots: set<Requirement>): set<(Name, Option<Extra>)> {
    (set n | n in installed :: (n, None))
    + set n, r, x | n in installed && r in AllRequirements(installed, roots) && x in r.extras :: (n, Some(x))
  }

  // ---------------------------------------------------------------- the loop invariant

  ghost predicate SoFar(installed: Installed, roots: set<Requirement>, pending: seq<Requirement>, visited: Needs) {
    && (forall r :: r in pending ==> r in AllRequirements(installed, roots))
    && (forall n :: n in visited ==> n in installed)
    && Facts(visited) <= Universe(installed, roots)
    && (forall r :: r in roots ==> r in pending || Met(installed, visited, r))
    && (forall n, d :: n in visited && d in installed[n].declares && Active(d, visited[n])
          ==> d.requirement in pending || Met(installed, visited, d.requirement))
    && (forall other :: Closed(installed, roots, other) ==>
          Below(visited, other) && forall r :: r in pending ==> Met(installed, other, r))
    && (forall rs :: Grows(installed, roots, rs) ==> Inside(pending, visited, rs))
  }

  function Grown(visited: Needs, r: Requirement): Needs {
    visited[r.name := r.extras + (if r.name in visited then visited[r.name] else {})]
  }

  /** The requirements a package adds when asked for these extras. */
  function Additions(deps: seq<Dependency>, extras: set<Extra>): seq<Requirement> {
    if deps == [] then []
    else
      Additions(deps[..|deps| - 1], extras)
      + (if Active(deps[|deps| - 1], extras) then [deps[|deps| - 1].requirement] else [])
  }

  lemma {:induction false} AdditionsExact(deps: seq<Dependency>, extras: set<Extra>)
    ensures forall r :: r in Additions(deps, extras) <==>
              exists d :: d in deps && Active(d, extras) && d.requirement == r
  {
    if deps != [] {
      var n := |deps| - 1;
      AdditionsExact(deps[..n], extras);
      assert deps == deps[..n] + [deps[n]];
    }
  }

  lemma ActiveMore(d: Dependency, a: set<Extra>, b: set<Extra>)
    requires Active(d, a) && a <= b
    ensures Active(d, b)
  {
    if d.marker.Some? {
      var x :| x in {""} + a && d.marker.value(x);
      assert x in {""} + b;
    }
  }

  lemma GrownFacts(installed: Installed, roots: set<Requirement>, visited: Needs, r: Requirement)
    requires r in AllRequirements(installed, roots) && r.name in installed
    requires Facts(visited) <= Universe(installed, roots)
    requires !(r.name in visited && r.extras <= visited[r.name])
    ensures Facts(visited) < Facts(Grown(visited, r)) <= Universe(installed, roots)
  {
    var grown := Grown(visited, r);
    forall f | f in Facts(visited)
      ensures f in Facts(grown)
    {
      if f.1.Some? {
        assert f.1.value in grown[f.0];
      }
    }
    if r.name in visited {
      var x :| x in r.extras && x !in visited[r.name];
      assert (r.name, Some(x)) in Facts(grown) && (r.name, Some(x)) !in Facts(visited);
    } else {
      assert (r.name, None) in Facts(grown) && (r.name, None) !in Facts(visited);
    }
    forall f | f in Facts(grown)
      ensures f in Universe(installed, roots)
    {
      if f !in Facts(visited) && f.1.Some? {
        assert f.0 == r.name && f.1.value in r.extras;
      }
    }
  }

  lemma GrownMeets(installed: Installed, visited: Needs, r: Requirement, q: Requirement)
    requires Met(installed, visited, q)
    ensures Met(installed, Grown(visited, r), q)
  {
  }

  /** Whatever is closed already contains the grown needs and their additions. */
  lemma GrownBelow(installed: Installed, roots: set<Requirement>, visited: Needs, r: Requirement, other: Needs)
    requires Closed(installed, roots, other) && Below(visited, other) && Met(installed, other, r)
    ensures Below(Grown(visited, r), other)
    ensures forall q :: q in Additions(installed[r.name].declares, Grown(visited, r)[r.name]) ==>
              Met(installed, other, q)
  {
    var extras := Grown(visited, r)[r.name];
    AdditionsExact(installed[r.name].declares, extras);
    forall q | q in Additions(installed[r.name].declares, extras)
      ensures Met(installed, other, q)
    {
      var d :| d in installed[r.name].declares && Active(d, extras) && d.requirement == q;
      ActiveMore(d, extras, other[r.name]);
    }
  }

  /** Visiting a requirement keeps the worklist inside. */
  lemma VisitInside(installed: Installed, roots: set<Requirement>, pending: seq<Requirement>, visited: Needs,
                    rs: set<Requirement>)
    requires Grows(installed, roots, rs) && Inside(pending, visited, rs) && pending != []
             && pending[0].name in installed
    ensures var r := pending[0];
            var grown := Grown(visited, r);
            Inside(pending[1..] + Additions(installed[r.name].declares, grown[r.name]), grown, rs)
  {
    var r := pending[0];
    var grown := Grown(visited, r);
    var more := Additions(installed[r.name].declares, grown[r.name]);
    assert r in pending && pending == [r] + pending[1..];
    AdditionsExact(installed[r.name].declares, grown[r.name]);
    assert grown[r.name] <= Asked(rs, r.name);
    forall q | q in more
      ensures q in rs
    {
      var d :| d in installed[r.name].declares && Active(d, grown[r.name]) && d.requirement == q;
      ActiveMore(d, grown[r.name], Asked(rs, r.name));
    }
    hide Active, Asked, Additions;
  }

  lemma SkipInside(pending: seq<Requirement>, visited: Needs, rs: set<Requirement>)
    requires Inside(pending, visited, rs) && pending != []
    ensures Inside(pending[1..], visited, rs) && pending[0] in rs
  {
    hide Asked;
    assert pending == [pending[0]] + pending[1..];
  }

  lemma SkipStep(installed: Installed, roots: set<Requirement>, pending: seq<Requirement>, visited: Needs)
    requires SoFar(installed, roots, pending, visited) && pending != [] && Met(installed, visited, pending[0])
    ensures SoFar(installed, roots, pending[1..], visited)
  {
    hide Met, Active, Facts, AllRequirements, Universe, Inside, Grows;
    assert pending == [pending[0]] + pending[1..];
    forall rs | Grows(installed, roots, rs)
      ensures Inside(pending[1..], visited, rs)
    {
      SkipInside(pending, visited, rs);
    }
  }

  lemma VisitStep(installed: Installed, roots: set<Requirement>, pending: seq<Requirement>, visited: Needs)
    requires SoFar(installed, roots, pending, visited) && pending != [] && Good(installed, pending[0])
    requires !(pending[0].name in visited && pending[0].extras <= visited[pending[0].name])
    ensures var r := pending[0];
            var grown := Grown(visited, r);
            && Facts(visited) < Facts(grown) <= Universe(installed, roots)
            && SoFar(installed, roots, pending[1..] + Additions(installed[r.name].declares, grown[r.name]), grown)
  {
    var r := pending[0];
    var grown := Grown(visited, r);
    var more := Additions(installed[r.name].declares, grown[r.name]);
    var next := pending[1..] + more;
    assert pending == [r] + pending[1..];
    GrownFacts(installed, roots, visited, r);
    AdditionsExact(installed[r.name].declares, grown[r.name]);
    hide Facts, Universe, Inside, Grows;
    forall rs | Grows(installed, roots, rs)
      ensures Inside(next, grown, rs)
    {
      VisitInside(installed, roots, pending, visited, rs);
    }
    forall q | q in more
      ensures q in AllRequirements(installed, roots)
    {
      var d :| d in installed[r.name].declares && Active(d, grown[r.name]) && d.requirement == q;
      var k :| 0 <= k < |installed[r.name].declares| && installed[r.name].declares[k] == d;
    }
    hide AllRequirements;
    VisitComplete(installed, roots, pending, visited);
    forall other | Closed(installed, roots, other)
      ensures Below(grown, other) && forall q :: q in next ==> Met(installed, other, q)
    {
      GrownBelow(installed, roots, visited, r, other);
    }
    hide Met, Active, Closed, Below;
  }

  lemma VisitComplete(installed: Installed, roots: set<Requirement>, pending: seq<Requirement>, visited: Needs)
    requires SoFar(installed, roots, pending, visited) && pending != [] && Good(installed, pending[0])
    ensures var r := pending[0];
            var grown := Grown(visited, r);
            var next := pending[1..] + Additions(installed[r.name].declares, grown[r.name]);
            && (forall q :: q in roots ==> q in next || Met(installed, grown, q))
            && (forall n, d :: n in grown && d in installed[n].declares && Active(d, grown[n])
                  ==> d.requirement in next || Met(installed, grown, d.requirement))
  {
    var r := pending[0];
    var grown := Grown(visited, r);
    var next := pending[1..] + Additions(installed[r.name].declares, grown[r.name]);
    hide Inside, Grows, Facts, Universe, AllRequirements, Closed, Below;
    assert pending == [r] + pending[1..];
    AdditionsExact(installed[r.name].declares, grown[r.name]);
    forall q | q in pending || Met(installed, visited, q)
      ensures q in next || Met(installed, grown, q)
    {
      if Met(installed, visited, q) {
        GrownMeets(installed, visited, r, q);
      }
    }
    hide Met, Active;
    forall n, d | n in grown && d in installed[n].declares && Active(d, grown[n])
      ensures d.requirement in next || Met(installed, grown, d.requirement)
    {
      if n != r.name {
        assert grown[n] == visited[n];
      }
    }
  }

  /** A requirement no installation satisfies rules out every closed set. */
  lemma BadRulesOut(installed: Installed, roots: set<Requirement>, pending: seq<Requirement>, visited: Needs,
                    needs: Needs)
    requires SoFar(installed, roots, pending, visited) && pending != [] && !Good(installed, pending[0])
    ensures !Closed(installed, roots, needs)
  {
    assert pending[0] in pending;
    hide Inside, Grows, Closed, Active, Facts, Universe, AllRequirements;
  }

  ghost function RootSet(roots: seq<Requirement>): set<Requirement> {
    set k | 0 <= k < |roots| :: roots[k]
  }

  // ---------------------------------------------------------------- the resolver

  /** Resolve the installed dependency closure, including requested extras. On success the
      packages are exactly those of the least closed needs; it fails only if nothing is closed. */
  method RuntimeDistributions(installed: Installed, roots: seq<Requirement>)
    returns (r: Result<map<Name, Distribution>, PolicyError>, ghost needs: Needs)
    ensures r.Ok? ==> Least(installed, RootSet(roots), needs) && Accounted(installed, roots, needs)
                      && r.value.Keys == needs.Keys
                      && forall n :: n in r.value ==> n in installed && r.value[n] == installed[n]
    ensures r.Err? ==> forall other :: !Closed(installed, RootSet(roots), other)
    ensures r.Err? ==> exists q :: Forced(installed, RootSet(roots), q) && !Good(installed, q)
                                   && Blames(installed, q, r.error)
  {
    hide SoFar, Facts, Universe, Closed, Good, Met, Active, Forced;
    ghost var all := RootSet(roots);
    var pending := roots;
    var visited: Needs := map[];
    var distributions: map<Name, Distribution> := map[];
    StartsSoFar(installed, roots);
    while pending != []
      invariant SoFar(installed, all, pending, visited)
      invariant distributions.Keys == visited.Keys
      invariant forall n :: n in distributions ==> n in installed && distributions[n] == installed[n]
      decreases Universe(installed, all) - Facts(visited), |pending|
    {
      var requirement := pending[0];
      if !Good(installed, requirement) {
        forall other
          ensures !Closed(installed, all, other)
        {
          BadRulesOut(installed, all, pending, visited, other);
        }
        PendingForced(installed, all, pending, visited);
        FaultBlames(installed, requirement);
        r := Err(Fault(installed, requirement));
        needs := visited;
        return;
      }
      GoodInstalled(installed, requirement);
      if requirement.name in visited && requirement.extras <= visited[requirement.name] {
        MetNow(installed, visited, requirement);
        SkipStep(installed, all, pending, visited);
        pending := pending[1..];
      } else {
        VisitStep(installed, all, pending, visited);
        var distribution := installed[requirement.name];
        visited := Grown(visited, requirement);
        distributions := distributions[requirement.name := distribution];
        pending := pending[1..] + Additions(distribution.declares, visited[requirement.name]);
      }
    }
    EndsLeast(installed, all, visited);
    LeastAccounted(installed, roots, visited);
    r, needs := Ok(distributions), visited;
  }

  /** What an error says of the requirement it is about. */
  ghost predicate Blames(installed: Installed, q: Requirement, error: PolicyError) {
    match error
    case DirectUrl => q.direct
    case NotInstalled => !q.direct && q.name !in installed
    case VersionMismatch => !q.direct && q.name in installed && !q.allows(installed[q.name].version)
  }

  /** Which check refused a requirement, in order. */
  function Fault(installed: Installed, r: Requirement): PolicyError {
    if r.direct then DirectUrl else if r.name !in installed then NotInstalled else VersionMismatch
  }

  lemma FaultBlames(installed: Installed, q: Requirement)
    requires !Good(installed, q)
    ensures Blames(installed, q, Fault(installed, q))
  {
  }

  lemma PendingForced(installed: Installed, roots: set<Requirement>, pending: seq<Requirement>, visited: Needs)
    requires SoFar(installed, roots, pending, visited) && pending != []
    ensures Forced(installed, roots, pending[0])
  {
    hide Met, Active, Facts, AllRequirements, Universe, Grows, Closed, Below;
    forall rs | Grows(installed, roots, rs)
      ensures pending[0] in rs
    {
      SkipInside(pending, visited, rs);
    }
  }

  lemma GoodInstalled(installed: Installed, r: Requirement)
    requires Good(installed, r)
    ensures r.name in installed
  {
  }

  lemma MetNow(installed: Installed, visited: Needs, r: Requirement)
    requires Good(installed, r) && r.name in visited && r.extras <= visited[r.name]
    ensures Met(installed, visited, r)
  {
  }

  lemma StartsSoFar(installed: Installed, roots: seq<Requirement>)
    ensures SoFar(installed, RootSet(roots), roots, map[])
  {
    assert Facts(map[]) == {};
    hide Met, Active;
  }

  lemma EndsLeast(installed: Installed, roots: set<Requirement>, visited: Needs)
    requires SoFar(installed, roots, [], visited)
    ensures Least(installed, roots, visited)
  {
    hide Inside, Grows, Met, Active, Facts, Universe, AllRequirements;
  }

  // ---------------------------------------------------------------- what the closure contains

  /** A declared dependency applies when it has no marker, or its marker holds without an extra
      or for one of the extras asked of the package. */
  ghost predicate Applies(d: Dependency, extras: set<Extra>) {
    d.marker.None? || d.marker.value("") || exists x :: x in extras && d.marker.value(x)
  }

  /** Some root, or some applying dependency of a needed package, asks for n. */
  ghost predicate Wanted(installed: Installed, roots: seq<Requirement>, needs: Needs, n: Name) {
    || (exists r :: r in roots && r.name == n)
    || (exists p, d :: p in needs && p in installed && d in installed[p].declares && Applies(d, needs[p])
                       && d.requirement.name == n)
  }

  /** And for this extra of it. */
  ghost predicate WantedExtra(installed: Installed, roots: seq<Requirement>, needs: Needs, n: Name, x: Extra) {
    || (exists r :: r in roots && r.name == n && x in r.extras)
    || (exists p, d :: p in needs && p in installed && d in installed[p].declares && Applies(d, needs[p])
                       && d.requirement.name == n && x in d.requirement.extras)
  }

  /** The package is needed with these extras, by its canonical name and an allowed version. */
  ghost predicate Supplied(installed: Installed, needs: Needs, r: Requirement) {
    && r.name in needs && r.extras <= needs[r.name]
    && !r.direct && r.name in installed && r.allows(installed[r.name].version)
  }

  /** Everything asked for is there, and everything there is asked for. */
  ghost predicate Accounted(installed: Installed, roots: seq<Requirement>, needs: Needs) {
    && (forall r :: r in roots ==> Supplied(installed, needs, r))
    && (forall n, d :: n in needs && n in installed && d in installed[n].declares && Applies(d, needs[n])
          ==> Supplied(installed, needs, d.requirement))
    && (forall n :: n in needs ==> Wanted(installed, roots, needs, n))
    && (forall n, x :: n in needs && x in needs[n] ==> WantedExtra(installed, roots, needs, n, x))
  }

  lemma AppliesActive(d: Dependency, extras: set<Extra>)
    ensures Applies(d, extras) <==> Active(d, extras)
  {
    if d.marker.Some? {
      if d.marker.value("") {
        assert "" in {""} + extras;
      }
      if x :| x in extras && d.marker.value(x) {
        assert x in {""} + extras;
      }
    }
  }

  lemma RootsKnown(roots: seq<Requirement>)
    ensures forall r :: r in roots <==> r in RootSet(roots)
  {
  }

  /** A package nothing asks for can go. */
  lemma WithoutUnwanted(installed: Installed, roots: seq<Requirement>, needs: Needs, n: Name)
    requires Closed(installed, RootSet(roots), needs) && n in needs && !Wanted(installed, roots, needs, n)
    ensures Closed(installed, RootSet(roots), needs - {n})
  {
    hide Active, Applies, RootSet;
    RootsKnown(roots);
    var fewer := needs - {n};
    forall p, d | p in fewer && p in installed && d in installed[p].declares && Active(d, fewer[p])
      ensures Met(installed, fewer, d.requirement)
    {
      AppliesActive(d, needs[p]);
      assert Met(installed, needs, d.requirement);
    }
  }

  /** And so can an extra. */
  lemma WithoutUnwantedExtra(installed: Installed, roots: seq<Requirement>, needs: Needs, n: Name, x: Extra)
    requires Closed(installed, RootSet(roots), needs) && n in needs && !WantedExtra(installed, roots, needs, n, x)
    ensures Closed(installed, RootSet(roots), needs[n := needs[n] - {x}])
  {
    hide Active, Applies, RootSet;
    RootsKnown(roots);
    var fewer := needs[n := needs[n] - {x}];
    forall p, d | p in fewer && p in installed && d in installed[p].declares && Active(d, fewer[p])
      ensures Met(installed, fewer, d.requirement)
    {
      ActiveMore(d, fewer[p], needs[p]);
      AppliesActive(d, needs[p]);
      assert Met(installed, needs, d.requirement);
    }
  }

  lemma ClosedMeets(installed: Installed, roots: seq<Requirement>, needs: Needs)
    requires Closed(installed, RootSet(roots), needs)
    ensures forall r :: r in roots ==> Met(installed, needs, r)
    ensures forall n, d :: n in needs && n in installed && d in installed[n].declares && Active(d, needs[n])
              ==> Met(installed, needs, d.requirement)
  {
    hide Met, Active;
  }

  /** The resolved needs, with the marker rule written out. */
  lemma LeastAccounted(installed: Installed, roots: seq<Requirement>, needs: Needs)
    requires Least(installed, RootSet(roots), needs)
    ensures Accounted(installed, roots, needs)
  {
    RootsKnown(roots);
    ClosedMeets(installed, roots, needs);
    hide Active, Applies, RootSet, Wanted, WantedExtra, Closed;
    forall n, d | n in needs && n in installed && d in installed[n].declares && Applies(d, needs[n])
      ensures Supplied(installed, needs, d.requirement)
    {
      AppliesActive(d, needs[n]);
    }
    forall n | n in needs
      ensures Wanted(installed, roots, needs, n)
    {
      if !Wanted(installed, roots, needs, n) {
        WithoutUnwanted(installed, roots, needs, n);
      }
    }
    forall n, x | n in needs && x in needs[n]
      ensures WantedExtra(installed, roots, needs, n, x)
    {
      if !WantedExtra(installed, roots, needs, n, x) {
        WithoutUnwantedExtra(installed, roots, needs, n, x);
      }
    }
  }

  // ---------------------------------------------------------------- order does not matter

  lemma LeastUnique(installed: Installed, roots: set<Requirement>, a: Needs, b: Needs)
    requires Least(installed, roots, a) && Least(installed, roots, b)
    ensures a == b
  {
    hide Closed;
    assert Below(a, b) && Below(b, a);
    hide Least;
    forall n | n in a
      ensures n in b && a[n] == b[n]
    {
    }
    assert a.Keys == b.Keys;
  }

  lemma SameRootSet(a: seq<Requirement>, b: seq<Requirement>)
    requires forall r :: r in a <==> r in b
    ensures RootSet(a) == RootSet(b)
  {
    assert forall r :: r in RootSet(a) <==> r in a;
    assert forall r :: r in RootSet(b) <==> r in b;
  }

  /** Two root lists naming the same requirements, in any order and multiplicity, are resolved
      alike: to the same packages, or to an error both times. */
  method OrderIrrelevant(installed: Installed, a: seq<Requirement>, b: seq<Requirement>)
    returns (ra: Result<map<Name, Distribution>, PolicyError>, rb: Result<map<Name, Distribution>, PolicyError>)
    requires forall r :: r in a <==> r in b
    ensures ra.Ok? == rb.Ok? && (ra.Ok? ==> ra.value == rb.value)
  {
    hide Closed, Forced, Good, RootSet;
    SameRootSet(a, b);
    ghost var na, nb;
    ra, na := RuntimeDistributions(installed, a);
    rb, nb := RuntimeDistributions(installed, b);
    if ra.Ok? && rb.Ok? {
      LeastUnique(installed, RootSet(a), na, nb);
      assert ra.value.Keys == rb.value.Keys;
    }
  }
}
