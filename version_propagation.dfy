/**
 * The minimum LabVIEW version rule: a pipeline that needs a newer LabVIEW than
 * the default forces every pipeline that depends on it, directly or through
 * other pipelines, onto that version. Stated on a snapshot of the pipeline
 * dictionary: each entry's key, dependency list and current minimum version.
 */
module VersionPropagation {
  import opened Wrappers

  datatype Node = Node(name: string, dependencies: Option<seq<string>>, minVersion: Option<string>)

  const DefaultVersion: string := "2019"
  const UpgradedVersion: string := "2021"

  function Names(g: seq<Node>): set<string> {
    set n | n in g :: n.name
  }

  /** `findNonDefaultLVPipelines`: the keys, in order, whose minimum version is set and
    * differs from the default. */
  function NonDefault(g: seq<Node>, defaultVersion: string): (names: seq<string>)
    ensures forall x :: x in names <==> exists n :: n in g && n.name == x && n.minVersion.Some? && n.minVersion.value != defaultVersion
  {
    if g == [] then []
    else
      var rest := NonDefault(g[1..], defaultVersion);
      assert forall n :: n in g <==> n == g[0] || n in g[1..];
      if g[0].minVersion.Some? && g[0].minVersion.value != defaultVersion then [g[0].name] + rest else rest
  }

  /** `set(itemDependencies) & set(pipelinesToUpdate)` is not empty. */
  predicate DependsOnAny(n: Node, s: set<string>) {
    n.dependencies.Some? && exists d :: d in n.dependencies.value && d in s
  }

  /** One round of `dependsOnElems`: the keys, in order, not yet in `s` that depend on a member of `s`. */
  function NewElements(g: seq<Node>, s: set<string>): (names: seq<string>)
    ensures forall x :: x in names <==> x !in s && exists n :: n in g && n.name == x && DependsOnAny(n, s)
  {
    if g == [] then []
    else
      var rest := NewElements(g[1..], s);
      assert forall n :: n in g <==> n == g[0] || n in g[1..];
      if DependsOnAny(g[0], s) && g[0].name !in s then [g[0].name] + rest else rest
  }

  /** No entry outside `s` depends on a member of `s`. */
  ghost predicate Closed(g: seq<Node>, s: set<string>) {
    forall n :: n in g && DependsOnAny(n, s) ==> n.name in s
  }

  /** The rounds of the `while True` loop, until one adds nothing. */
  function Closure(g: seq<Node>, s: set<string>): set<string>
    decreases |Names(g) - s|
  {
    var added := NewElements(g, s);
    if added == [] then s
    else
      var s' := s + set x | x in added;
      RoundShrinksRemaining(g, s, s');
      Closure(g, s')
  }

  /** One round of the loop: with nothing new the set is its closure; otherwise the
    * grown set has the same closure and fewer keys outside it. */
  lemma {:induction false} ClosureRound(g: seq<Node>, s: set<string>, s': set<string>)
    requires s' == s + set x | x in NewElements(g, s)
    ensures NewElements(g, s) == [] ==> s' == s && Closure(g, s) == s
    ensures NewElements(g, s) != [] ==> Closure(g, s') == Closure(g, s) && |Names(g) - s'| < |Names(g) - s|
  {
    if NewElements(g, s) != [] {
      RoundShrinksRemaining(g, s, s');
    }
  }

  /** A round that adds a key shrinks the set of keys still outside. */
  lemma {:induction false} RoundShrinksRemaining(g: seq<Node>, s: set<string>, s': set<string>)
    requires NewElements(g, s) != [] && s' == s + set x | x in NewElements(g, s)
    ensures |Names(g) - s'| < |Names(g) - s|
  {
    var x := NewElements(g, s)[0];
    assert x in NewElements(g, s);
    var n :| n in g && n.name == x && DependsOnAny(n, s);
    assert x in Names(g) - s;
    assert Names(g) - s' <= (Names(g) - s) - {x};
    SubsetCardinality(Names(g) - s', (Names(g) - s) - {x});
  }

  lemma {:induction false} SubsetCardinality(a: set<string>, b: set<string>)
    requires a <= b
    ensures |a| <= |b|
    decreases |a|
  {
    if a != {} {
      var x :| x in a;
      SubsetCardinality(a - {x}, b - {x});
    }
  }

  /** The closure holds the start set and is closed; anything closed that holds the
    * start set holds the closure, so the closure is the start set plus every key that
    * reaches it through dependencies. */
  lemma {:induction false} ClosureIsLeastClosedSuperset(g: seq<Node>, s: set<string>, t: set<string>)
    ensures s <= Closure(g, s) && Closure(g, s) <= s + Names(g)
    ensures Closed(g, Closure(g, s))
    ensures s <= t && Closed(g, t) ==> Closure(g, s) <= t
    decreases |Names(g) - s|
  {
    var added := NewElements(g, s);
    if added != [] {
      var s' := s + set x | x in added;
      RoundShrinksRemaining(g, s, s');
      ClosureIsLeastClosedSuperset(g, s', t);
      assert forall x :: x in added ==> x in Names(g);
      if s <= t && Closed(g, t) {
        assert s' <= t;
      }
    } else {
      forall n | n in g && DependsOnAny(n, s) ensures n.name in s {
      }
    }
  }

  /** A closed set is its own closure. */
  lemma {:induction false} ClosureOfClosed(g: seq<Node>, s: set<string>)
    requires Closed(g, s)
    ensures Closure(g, s) == s
  {
    NoNewElements(g, s);
  }

  lemma {:induction false} NoNewElements(g: seq<Node>, s: set<string>)
    requires Closed(g, s)
    ensures NewElements(g, s) == []
  {
    if g != [] {
      assert g[0] in g;
      assert forall n :: n in g[1..] ==> n in g;
      NoNewElements(g[1..], s);
    }
  }

  /** The keys to upgrade: the closure of the non-default keys. */
  function PipelinesToUpdate(g: seq<Node>): set<string> {
    Closure(g, set x | x in NonDefault(g, DefaultVersion))
  }

  /** The minimum versions after `updateMinimumVersions`: keys to upgrade get the newer
    * version, every other entry keeps its own. */
  function Propagate(g: seq<Node>): (r: seq<Node>)
    ensures |r| == |g|
    ensures forall i :: 0 <= i < |g| ==> r[i].name == g[i].name && r[i].dependencies == g[i].dependencies
    ensures forall i :: 0 <= i < |g| ==>
      r[i].minVersion == if g[i].name in PipelinesToUpdate(g) then Some(UpgradedVersion) else g[i].minVersion
  {
    var c := PipelinesToUpdate(g);
    seq(|g|, i requires 0 <= i < |g| => if g[i].name in c then g[i].(minVersion := Some(UpgradedVersion)) else g[i])
  }

  /** With no non-default entry nothing changes. */
  lemma {:induction false} PropagateWithoutSeeds(g: seq<Node>)
    requires NonDefault(g, DefaultVersion) == []
    ensures Propagate(g) == g
  {
    assert (set x | x in NonDefault(g, DefaultVersion)) == {};
    assert NewElements(g, {}) == [] by {
      if NewElements(g, {}) != [] {
        assert NewElements(g, {})[0] in NewElements(g, {});
      }
    }
  }

  /** The upgraded entries are exactly the seeds and the entries that depend on an
    * upgraded entry: no other entry's version changes. */
  lemma {:induction false} UpgradedExactly(g: seq<Node>, i: nat)
    requires i < |g|
    ensures Propagate(g)[i].minVersion != g[i].minVersion ==>
      Propagate(g)[i].minVersion == Some(UpgradedVersion) && g[i].name in PipelinesToUpdate(g)
    ensures g[i].minVersion.Some? && g[i].minVersion.value != DefaultVersion ==>
      Propagate(g)[i].minVersion == Some(UpgradedVersion)
    ensures DependsOnAny(g[i], PipelinesToUpdate(g)) ==> Propagate(g)[i].minVersion == Some(UpgradedVersion)
  {
    var seeds := set x | x in NonDefault(g, DefaultVersion);
    ClosureIsLeastClosedSuperset(g, seeds, seeds);
    if g[i].minVersion.Some? && g[i].minVersion.value != DefaultVersion {
      assert g[i].name in NonDefault(g, DefaultVersion);
    }
  }

  /** After a run the non-default keys are exactly the upgraded ones. */
  lemma {:induction false} SeedsAfterPropagate(g: seq<Node>)
    ensures (set x | x in NonDefault(Propagate(g), DefaultVersion)) == PipelinesToUpdate(g)
  {
    var g' := Propagate(g);
    var seeds := set x | x in NonDefault(g, DefaultVersion);
    var c := PipelinesToUpdate(g);
    var seeds' := set x | x in NonDefault(g', DefaultVersion);
    ClosureIsLeastClosedSuperset(g, seeds, seeds);
    forall x | x in c ensures x in seeds' {
      var n :| n in g && n.name == x;
      var i :| 0 <= i < |g| && g[i] == n;
      assert g'[i].name == x && g'[i].minVersion == Some(UpgradedVersion);
      assert g'[i] in g';
    }
    forall x | x in seeds' ensures x in c {
      var n :| n in g' && n.name == x && n.minVersion.Some? && n.minVersion.value != DefaultVersion;
      var i :| 0 <= i < |g'| && g'[i] == n;
      if g[i].minVersion == n.minVersion {
        assert g[i] in g;
        assert x in seeds;
      }
    }
  }

  /** The upgraded keys stay closed: the dependencies do not change. */
  lemma {:induction false} UpdatedStaysClosed(g: seq<Node>)
    ensures Closed(Propagate(g), PipelinesToUpdate(g))
  {
    var g' := Propagate(g);
    var c := PipelinesToUpdate(g);
    var seeds := set x | x in NonDefault(g, DefaultVersion);
    ClosureIsLeastClosedSuperset(g, seeds, seeds);
    forall n | n in g' && DependsOnAny(n, c) ensures n.name in c {
      var i :| 0 <= i < |g'| && g'[i] == n;
      assert DependsOnAny(g[i], c);
      assert g[i] in g;
    }
  }

  /** A second run changes nothing further. */
  lemma {:induction false} PropagateIdempotent(g: seq<Node>)
    ensures Propagate(Propagate(g)) == Propagate(g)
  {
    var g' := Propagate(g);
    SeedsAfterPropagate(g);
    UpdatedStaysClosed(g);
    ClosureOfClosed(g', PipelinesToUpdate(g));
    assert PipelinesToUpdate(g') == PipelinesToUpdate(g);
  }
}
